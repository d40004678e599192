/**
 * The job store the handlers talk to: a sequence of job records, each with the id
 * the store gave it, the name the handler chose, its state and its payload.
 * Only the three store operations the handlers use are modelled: add, list by
 * state and remove (which may fail).
 */
module Jobs {

  type JobId = nat

  /** The states a stored job can be listed under. */
  datatype JobState =
    | Delayed | Waiting | Paused | Prioritized | WaitingChildren
    | Active | Completed | Failed

  /** What the worker needs to perform the call (`ScheduledHttpJobData`). */
  datatype JobData = JobData(targetUrl: string, httpMethod: string)

  /** The options the handler passes with the job. */
  datatype JobOptions = JobOptions(delay: int, removeOnComplete: bool)

  datatype Job = Job(id: JobId, name: string, state: JobState, data: JobData, options: JobOptions)

  /** The jobs of `s` that satisfy `p`, in their order in `s`. */
  function Filter(s: seq<Job>, p: Job -> bool): (r: seq<Job>)
    ensures |r| <= |s|
  {
    if s == [] then []
    else (if p(s[0]) then [s[0]] else []) + Filter(s[1..], p)
  }

  /** A job is selected exactly when it is in `s` and satisfies `p`. */
  lemma {:induction false} FilterMembers(s: seq<Job>, p: Job -> bool)
    ensures forall j :: j in Filter(s, p) <==> j in s && p(j)
  {
    if s != [] {
      FilterMembers(s[1..], p);
      assert s == [s[0]] + s[1..];
    }
  }

  function Ids(s: seq<Job>): set<JobId> {
    if s == [] then {} else {s[0].id} + Ids(s[1..])
  }

  lemma {:induction false} InIds(s: seq<Job>, j: Job)
    requires j in s
    ensures j.id in Ids(s)
  {
    if j != s[0] {
      InIds(s[1..], j);
    }
  }

  /** No two records of `s` carry the same id. */
  predicate Distinct(s: seq<Job>) {
    s == [] || (s[0].id !in Ids(s[1..]) && Distinct(s[1..]))
  }

  /** Selects the jobs whose id is not in `gone`. */
  function NotIn(gone: set<JobId>): Job -> bool {
    (j: Job) => j.id !in gone
  }

  /** Selects the jobs whose state is one of `states`. */
  function StateIn(states: set<JobState>): Job -> bool {
    (j: Job) => j.state in states
  }

  /** The store after the jobs whose ids are in `gone` have been removed. */
  function Keep(s: seq<Job>, gone: set<JobId>): seq<Job> {
    Filter(s, NotIn(gone))
  }

  /** The jobs of `s` in one of `states`: what listing by state returns. */
  function InStates(s: seq<Job>, states: set<JobState>): seq<Job> {
    Filter(s, StateIn(states))
  }

  /** Filtering keeps only ids that were there, and keeps them distinct. */
  lemma {:induction false} FilterDistinct(s: seq<Job>, p: Job -> bool)
    requires Distinct(s)
    ensures Ids(Filter(s, p)) <= Ids(s)
    ensures Distinct(Filter(s, p))
  {
    if s != [] {
      FilterDistinct(s[1..], p);
      var rest := Filter(s[1..], p);
      if p(s[0]) {
        assert Filter(s, p) == [s[0]] + rest;
        assert ([s[0]] + rest)[1..] == rest;
      } else {
        assert Filter(s, p) == rest;
      }
    }
  }

  /** Filtering twice is filtering by both predicates. */
  lemma {:induction false} FilterFilter(s: seq<Job>, p: Job -> bool, q: Job -> bool)
    ensures Filter(Filter(s, p), q) == Filter(s, (j: Job) => p(j) && q(j))
  {
    if s != [] {
      FilterFilter(s[1..], p, q);
      var rest := Filter(s[1..], p);
      if p(s[0]) {
        assert Filter(s, p) == [s[0]] + rest;
        assert ([s[0]] + rest)[1..] == rest;
      } else {
        assert Filter(s, p) == rest;
      }
    }
  }

  /** Removing `a` and then `b` is removing both at once. */
  lemma {:induction false} KeepKeep(s: seq<Job>, a: set<JobId>, b: set<JobId>)
    ensures Keep(Keep(s, a), b) == Keep(s, a + b)
  {
    if s != [] {
      KeepKeep(s[1..], a, b);
      var rest := Keep(s[1..], a);
      if s[0].id !in a {
        assert Keep(s, a) == [s[0]] + rest;
        assert ([s[0]] + rest)[1..] == rest;
      } else {
        assert Keep(s, a) == rest;
      }
    }
  }

  /** Removing no ids keeps the store as it is. */
  lemma {:induction false} KeepNothing(s: seq<Job>)
    ensures Keep(s, {}) == s
  {
    if s != [] {
      KeepNothing(s[1..]);
      assert s == [s[0]] + s[1..];
    }
  }

  /** Ids that no record of `s` carries do not change what removal keeps. */
  lemma {:induction false} KeepIgnoresAbsent(s: seq<Job>, gone: set<JobId>, other: JobId)
    requires other !in Ids(s)
    ensures Keep(s, gone + {other}) == Keep(s, gone)
  {
    if s != [] {
      KeepIgnoresAbsent(s[1..], gone, other);
    }
  }

  /** Every id of `s` belongs to a record of `s`. */
  lemma {:induction false} IdOwner(s: seq<Job>, id: JobId) returns (j: Job)
    requires id in Ids(s)
    ensures j in s && j.id == id
  {
    if s[0].id == id {
      j := s[0];
    } else {
      j := IdOwner(s[1..], id);
    }
  }

  /** In a store with distinct ids, a record is determined by its id. */
  lemma {:induction false} DistinctUnique(s: seq<Job>, a: Job, b: Job)
    requires Distinct(s) && a in s && b in s && a.id == b.id
    ensures a == b
  {
    if a != s[0] && b != s[0] {
      DistinctUnique(s[1..], a, b);
    } else if a != s[0] {
      InIds(s[1..], a);
    } else if b != s[0] {
      InIds(s[1..], b);
    }
  }

  /** Removing ids of jobs that satisfy `p` leaves every job that does not satisfy `p` in place. */
  lemma KeepUnselected(s: seq<Job>, p: Job -> bool, gone: set<JobId>, j: Job)
    requires Distinct(s)
    requires gone <= Ids(Filter(s, p))
    requires j in s && !p(j)
    ensures j in Keep(s, gone)
  {
    FilterMembers(s, NotIn(gone));
    if j.id in gone {
      var k := IdOwner(Filter(s, p), j.id);
      FilterMembers(s, p);
      DistinctUnique(s, j, k);
      assert false;
    }
  }

  /** Removing `gone`, ids of jobs satisfying `p`, lowers the number of such jobs by exactly |gone|. */
  lemma {:induction false} KeepCount(s: seq<Job>, p: Job -> bool, gone: set<JobId>)
    requires Distinct(s)
    requires gone <= Ids(Filter(s, p))
    ensures |Filter(Keep(s, gone), p)| == |Filter(s, p)| - |gone|
  {
    if s == [] {
      assert gone == {};
    } else {
      var x, t := s[0], s[1..];
      var rest := gone - {x.id};
      FilterIds(s, p);
      assert rest <= Ids(Filter(t, p));
      FilterDistinct(t, p);
      KeepCount(t, p, rest);
      var selected := Filter(s, p);
      assert selected == (if p(x) then [x] else []) + Filter(t, p);
      if x.id in gone {
        assert p(x);
        KeepIgnoresAbsent(t, rest, x.id);
        assert rest + {x.id} == gone;
        assert Keep(s, gone) == Keep(t, gone) == Keep(t, rest);
        assert |gone| == |rest| + 1;
      } else {
        assert rest == gone;
        var kept := Keep(t, gone);
        assert Keep(s, gone) == [x] + kept;
        assert ([x] + kept)[0] == x && ([x] + kept)[1..] == kept;
        assert Filter([x] + kept, p) == (if p(x) then [x] else []) + Filter(kept, p);
      }
    }
  }

  /** The ids of a filtered non-empty store: the first record's id, if selected, and the rest's. */
  lemma FilterIds(s: seq<Job>, p: Job -> bool)
    requires s != [] && Distinct(s)
    ensures Ids(Filter(s, p)) == (if p(s[0]) then {s[0].id} else {}) + Ids(Filter(s[1..], p))
    ensures s[0].id in Ids(Filter(s, p)) ==> p(s[0])
  {
    var f, rest := Filter(s, p), Filter(s[1..], p);
    FilterDistinct(s[1..], p);
    if p(s[0]) {
      assert f == [s[0]] + rest;
      assert f[0] == s[0] && f[1..] == rest;
      assert Ids(f) == {s[0].id} + Ids(rest);
    } else {
      assert f == rest;
    }
  }

  /** The store: its records in insertion order, and the id the next added job receives. */
  class JobStore {
    var jobs: seq<Job>
    var nextId: JobId

    /** Ids are distinct and all below the next id to hand out. */
    ghost predicate Valid()
      reads this
    {
      Distinct(jobs) && forall id :: id in Ids(jobs) ==> id < nextId
    }

    constructor ()
      ensures Valid() && jobs == []
    {
      jobs := [];
      nextId := 0;
    }

    /** Adds a job; one added with a positive delay waits in the delayed state. */
    method Add(name: string, data: JobData, options: JobOptions) returns (id: JobId)
      requires Valid()
      modifies this
      ensures Valid()
      ensures id !in Ids(old(jobs))
      ensures jobs == old(jobs) + [Job(id, name, if options.delay > 0 then Delayed else Waiting, data, options)]
    {
      id := nextId;
      var job := Job(id, name, if options.delay > 0 then Delayed else Waiting, data, options);
      AppendFresh(jobs, job);
      jobs := jobs + [job];
      nextId := nextId + 1;
    }

    /** Lists the jobs in one of `states`, in store order. */
    method GetJobs(states: set<JobState>) returns (r: seq<Job>)
      requires Valid()
      ensures r == InStates(jobs, states)
      ensures Distinct(r) && Ids(r) <= Ids(jobs)
      ensures forall j :: j in r <==> j in jobs && j.state in states
    {
      r := InStates(jobs, states);
      FilterDistinct(jobs, StateIn(states));
      FilterMembers(jobs, StateIn(states));
    }

    /**
     * Tries to remove the job with id `id`. Removal of a present job may fail
     * (the job can have been claimed by a worker meanwhile); an absent job is
     * never removed.
     */
    method Remove(id: JobId) returns (ok: bool)
      requires Valid()
      modifies this
      ensures Valid() && nextId == old(nextId)
      ensures ok ==> id in Ids(old(jobs)) && jobs == Keep(old(jobs), {id})
      ensures !ok ==> jobs == old(jobs)
    {
      if id in Ids(jobs) {
        ok := *;
      } else {
        ok := false;
      }
      if ok {
        FilterDistinct(jobs, NotIn({id}));
        jobs := Keep(jobs, {id});
      }
    }
  }

  /** Appending a job whose id is not yet used keeps the ids distinct. */
  lemma {:induction false} AppendFresh(s: seq<Job>, x: Job)
    requires Distinct(s) && x.id !in Ids(s)
    ensures Distinct(s + [x]) && Ids(s + [x]) == Ids(s) + {x.id}
  {
    if s != [] {
      assert (s + [x])[1..] == s[1..] + [x];
      AppendFresh(s[1..], x);
    }
  }
}
