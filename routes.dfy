/**
 * The two protected routes as operations on the job store: `/add-job` enqueues at
 * most one job, `/delete-job` lists the pending jobs, removes each one carrying the
 * requested name and counts what it removed and what it could not.
 */
module Routes {
  import opened Wrappers
  import opened Jobs
  import opened Auth
  import AddJob

  /** A route's reply when the API-key gate refused the request, or the handler's own reply. */
  datatype Gated<R> = Unauthorized | Handled(reply: R)

  /** `/add-job` behind the API-key gate: enqueues the job the handler decided on, and nothing on any error. */
  method HandleAddJob(store: JobStore, headers: Headers, configuredKey: string,
                      query: Option<AddJob.Query>, clock: AddJob.Clock, parse: string -> Option<int>)
    returns (reply: Gated<AddJob.Reply>)
    requires store.Valid()
    modifies store
    ensures store.Valid()
    ensures reply == (if ApiKeyAccepted(headers, configuredKey) then Handled(AddJob.AddJob(query, clock, parse)) else Unauthorized)
    ensures !(reply.Handled? && reply.reply.Scheduled?) ==> store.jobs == old(store.jobs)
    ensures reply.Handled? && reply.reply.Scheduled? ==>
      var e := reply.reply.job;
      |store.jobs| == |old(store.jobs)| + 1 &&
      store.jobs[..|old(store.jobs)|] == old(store.jobs) &&
      var added := store.jobs[|old(store.jobs)|];
      added.id !in Ids(old(store.jobs)) &&
      added.name == e.name && added.state == Delayed && added.data == e.data && added.options == e.options
    ensures reply.Handled? ==> (AddJob.StatusCode(reply.reply) == 200 <==> |store.jobs| == |old(store.jobs)| + 1)
  {
    if !ApiKeyAccepted(headers, configuredKey) {
      return Unauthorized;
    }
    var r := AddJob.AddJob(query, clock, parse);
    if r.Scheduled? {
      var _ := store.Add(r.job.name, r.job.data, r.job.options);
      assert store.jobs[..|old(store.jobs)|] == old(store.jobs);
    }
    reply := Handled(r);
  }

  /** The states listed when looking for jobs to cancel. */
  const PendingStates: set<JobState> := {Delayed, Waiting, Paused, Prioritized, WaitingChildren}

  /** The handler's filter over the listed jobs: the jobs named exactly `name`. */
  function Named(s: seq<Job>, name: string): seq<Job> {
    Filter(s, NameIs(name))
  }

  function NameIs(name: string): Job -> bool {
    (j: Job) => j.name == name
  }

  /** Selects the jobs a delete of `name` targets: pending and named `name`. */
  function Targeted(name: string): Job -> bool {
    (j: Job) => j.state in PendingStates && j.name == name
  }

  /** The matches of a delete of `name` against the store contents `s`. */
  function Matches(s: seq<Job>, name: string): (m: seq<Job>)
    ensures m == Filter(s, Targeted(name))
  {
    FilterFilter(s, StateIn(PendingStates), NameIs(name));
    FilterCongruent(s, (j: Job) => StateIn(PendingStates)(j) && NameIs(name)(j), Targeted(name));
    Named(InStates(s, PendingStates), name)
  }

  /** Filtering by two predicates that agree everywhere gives the same jobs. */
  lemma {:induction false} FilterCongruent(s: seq<Job>, p: Job -> bool, q: Job -> bool)
    requires forall j :: p(j) == q(j)
    ensures Filter(s, p) == Filter(s, q)
  {
    if s != [] {
      FilterCongruent(s[1..], p, q);
    }
  }

  datatype DeleteReply = DeleteMissingQuery | NotFound | Deleted(removed: nat, failed: nat)

  /** The HTTP status of a delete reply: 400 without an id, 404 when nothing matched, 200 otherwise. */
  function DeleteStatusCode(r: DeleteReply): (code: nat)
    ensures code == 400 <==> r == DeleteMissingQuery
    ensures code == 404 <==> r == NotFound
    ensures code == 200 <==> r.Deleted?
  {
    match r
    case DeleteMissingQuery => 400
    case NotFound => 404
    case Deleted(_, _) => 200
  }

  /** The reply after the loop: 404 exactly when nothing was removed and nothing failed. */
  function DeleteReplyFor(removed: nat, failed: nat): (r: DeleteReply)
    ensures r == NotFound <==> removed + failed == 0
    ensures r != NotFound ==> r == Deleted(removed, failed)
  {
    if removed == 0 && failed == 0 then NotFound else Deleted(removed, failed)
  }

  /**
   * `/delete-job` behind the API-key gate: every pending job named `HttpCall-<id>`
   * gets one removal attempt; `gone` are the ids actually removed.
   */
  method HandleDeleteJob(store: JobStore, headers: Headers, configuredKey: string, id: Option<string>)
    returns (reply: Gated<DeleteReply>, ghost gone: set<JobId>)
    requires store.Valid()
    modifies store
    ensures store.Valid() && store.jobs == Keep(old(store.jobs), gone)
    ensures !ApiKeyAccepted(headers, configuredKey) ==> reply == Unauthorized && gone == {}
    ensures ApiKeyAccepted(headers, configuredKey) && id.None? ==> reply == Handled(DeleteMissingQuery) && gone == {}
    ensures ApiKeyAccepted(headers, configuredKey) && id.Some? ==>
      var matches := Matches(old(store.jobs), AddJob.JobName(id.value));
      reply.Handled? && gone <= Ids(matches) &&
      (reply.reply == NotFound <==> |matches| == 0) &&
      (reply.reply != NotFound ==>
        reply.reply.Deleted? && reply.reply.removed == |gone| && reply.reply.removed + reply.reply.failed == |matches|)
    ensures ApiKeyAccepted(headers, configuredKey) ==>
      reply.Handled? &&
      (DeleteStatusCode(reply.reply) == 400 <==> id.None?) &&
      (DeleteStatusCode(reply.reply) == 404 <==> id.Some? && |Matches(old(store.jobs), AddJob.JobName(id.value))| == 0)
  {
    gone := {};
    KeepNothing(store.jobs);
    if !ApiKeyAccepted(headers, configuredKey) {
      return Unauthorized, gone;
    }
    if id.None? {
      return Handled(DeleteMissingQuery), gone;
    }
    var name := AddJob.JobName(id.value);
    var listed := store.GetJobs(PendingStates);
    var matches := Named(listed, name);
    FilterDistinct(listed, NameIs(name));
    assert matches == Matches(old(store.jobs), name);
    var removed, failed;
    removed, failed, gone := RemoveEach(store, matches);
    reply := Handled(DeleteReplyFor(removed, failed));
  }

  /** The handler's loop: one removal attempt per match, counting successes and failures. */
  method RemoveEach(store: JobStore, matches: seq<Job>) returns (removed: nat, failed: nat, ghost gone: set<JobId>)
    requires store.Valid() && Distinct(matches)
    modifies store
    ensures store.Valid() && store.jobs == Keep(old(store.jobs), gone)
    ensures gone <= Ids(matches) && removed == |gone| && removed + failed == |matches|
  {
    removed, failed, gone := 0, 0, {};
    KeepNothing(store.jobs);
    for i := 0 to |matches|
      invariant store.Valid()
      invariant store.jobs == Keep(old(store.jobs), gone)
      invariant gone <= Ids(matches[..i])
      invariant removed == |gone| && removed + failed == i
    {
      var job := matches[i];
      PrefixIds(matches, i);
      var ok := store.Remove(job.id);
      if ok {
        KeepKeep(old(store.jobs), gone, {job.id});
        removed, gone := removed + 1, gone + {job.id};
      } else {
        failed := failed + 1;
      }
    }
    assert matches[..|matches|] == matches;
  }

  /** The ids of the first i + 1 matches: those of the first i, which exclude match i's, plus match i's. */
  lemma {:induction false} PrefixIds(s: seq<Job>, i: nat)
    requires Distinct(s) && i < |s|
    ensures Ids(s[..i + 1]) == Ids(s[..i]) + {s[i].id}
    ensures s[i].id !in Ids(s[..i])
  {
    if i > 0 {
      PrefixIds(s[1..], i - 1);
      assert s[1..][..i] == s[..i + 1][1..];
      assert s[1..][..i - 1] == s[..i][1..];
      InIds(s[1..], s[i]);
    } else {
      assert s[..1] == [s[0]];
    }
  }

  /**
   * A delete touches only its matches: a job in another state, or with another name,
   * is still in the store afterwards.
   */
  lemma DeleteLeavesOthers(s: seq<Job>, name: string, gone: set<JobId>, j: Job)
    requires Distinct(s) && gone <= Ids(Matches(s, name))
    requires j in s && (j.state !in PendingStates || j.name != name)
    ensures j in Keep(s, gone)
  {
    KeepUnselected(s, Targeted(name), gone, j);
  }

  /** After a delete, exactly the matches it failed to remove are still there to match. */
  lemma DeleteLeavesFailed(s: seq<Job>, name: string, gone: set<JobId>)
    requires Distinct(s) && gone <= Ids(Matches(s, name))
    ensures |Matches(Keep(s, gone), name)| == |Matches(s, name)| - |gone|
  {
    KeepCount(s, Targeted(name), gone);
  }

  /** A job that is already running is never a match, so ids whose jobs are all running get a 404. */
  lemma {:induction false} RunningJobsNeverMatch(s: seq<Job>, name: string)
    requires forall j :: j in s && j.name == name ==> j.state == Active
    ensures Matches(s, name) == []
  {
    if s != [] {
      assert s[0] in s;
      assert forall j :: j in s[1..] ==> j in s;
      RunningJobsNeverMatch(s[1..], name);
    }
  }

  /**
   * Deleting the same id twice: when the first delete removed every match, or found
   * none, the second finds nothing, replies 404 and changes nothing.
   */
  method DeleteTwice(store: JobStore, headers: Headers, configuredKey: string, id: string)
    returns (first: Gated<DeleteReply>, second: Gated<DeleteReply>)
    requires store.Valid() && ApiKeyAccepted(headers, configuredKey)
    modifies store
    ensures first == Handled(NotFound) ==> second == Handled(NotFound) && store.jobs == old(store.jobs)
    ensures first.Handled? && first.reply.Deleted? && first.reply.failed == 0 ==>
      second == Handled(NotFound) &&
      store.jobs == Keep(old(store.jobs), Ids(Matches(old(store.jobs), AddJob.JobName(id))))
  {
    ghost var jobs0 := store.jobs;
    ghost var gone1, gone2;
    first, gone1 := HandleDeleteJob(store, headers, configuredKey, Some(id));
    ghost var jobs1 := store.jobs;
    DeleteLeavesFailed(jobs0, AddJob.JobName(id), gone1);
    second, gone2 := HandleDeleteJob(store, headers, configuredKey, Some(id));
    if first.reply == NotFound || first.reply.failed == 0 {
      assert |Matches(jobs1, AddJob.JobName(id))| == 0;
      assert gone2 == {};
      KeepNothing(jobs1);
      if first.reply == NotFound {
        assert gone1 == {};
        KeepNothing(jobs0);
      } else {
        MatchIdsCovered(jobs0, AddJob.JobName(id), gone1);
      }
    }
  }

  /** A set of match ids as large as the matches is all of their ids. */
  lemma MatchIdsCovered(s: seq<Job>, name: string, gone: set<JobId>)
    requires Distinct(s) && gone <= Ids(Matches(s, name)) && |gone| == |Matches(s, name)|
    ensures gone == Ids(Matches(s, name))
  {
    FilterDistinct(s, Targeted(name));
    IdsSize(Matches(s, name));
    SubsetSameSize(gone, Ids(Matches(s, name)));
  }

  lemma SubsetSameSize(a: set<JobId>, b: set<JobId>)
    requires a <= b && |a| == |b|
    ensures a == b
  {
    assert b == a + (b - a);
    assert |b| == |a| + |b - a|;
    assert b - a == {};
  }

  /** Distinct records have as many ids as records. */
  lemma {:induction false} IdsSize(s: seq<Job>)
    requires Distinct(s)
    ensures |Ids(s)| == |s|
  {
    if s != [] {
      IdsSize(s[1..]);
    }
  }
}
