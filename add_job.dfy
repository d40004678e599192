/**
 * The `/add-job` handler as a function: from the query and the clock readings to a
 * 400 reply or to exactly one job handed to the store plus the instant reported back.
 *
 * Time is integer milliseconds since the epoch. Local time is taken to be UTC and
 * every day to last exactly 86_400_000 ms (no time zones, no daylight saving).
 */
module AddJob {
  import opened Wrappers
  import opened Text
  import opened Jobs

  const MinuteMs: int := 60_000
  const HourMs: int := 3_600_000
  const DayMs: int := 86_400_000

  /** The fields of the query string; `id`, `targetUrl` and `runAt` are required by the route schema. */
  datatype Query = Query(id: string, targetUrl: string, runAt: string, httpMethod: Option<string>)

  /**
   * The three readings of the clock the handler takes, in order: `new Date()` when it
   * builds today's date, `Date.now()` when it compares against it, and `Date.now()`
   * when it computes the delay. The clock is not assumed to be monotone.
   */
  datatype Clock = Clock(created: int, compared: int, enqueued: int)

  predicate Monotone(c: Clock) {
    c.created <= c.compared <= c.enqueued
  }

  datatype AddJobError =
    | MissingQuery
    | UnsupportedMethod(normalised: string)
    | InvalidClockTime
    | InvalidRunAt
    | NotInFuture

  const UnsupportedPrefix: string := "Unsupported HTTP method "
  const RunAtPrefix: string := "runAt must be "

  /** A reply text about `runAt`; it cannot be taken for an unsupported-method reply. */
  function RunAtMessage(rest: string): (r: string)
    ensures StartsWith(r, RunAtPrefix) && !StartsWith(r, UnsupportedPrefix)
  {
    var r := RunAtPrefix + rest;
    assert r[..|RunAtPrefix|] == RunAtPrefix;
    assert r[0] == RunAtPrefix[0];
    r
  }

  /** The `error` text of each 400 reply. */
  function Message(e: AddJobError): (r: string)
    ensures e.UnsupportedMethod? <==> StartsWith(r, UnsupportedPrefix)
    ensures e.UnsupportedMethod? ==> r[|UnsupportedPrefix|..] == e.normalised
  {
    match e
    case MissingQuery =>
      var r := "Missing query parameters";
      assert r[0] != UnsupportedPrefix[0];
      r
    case UnsupportedMethod(m) => UnsupportedPrefix + m
    case InvalidClockTime => RunAtMessage("a valid HH:mm time string")
    case InvalidRunAt => RunAtMessage("either HH:mm or an ISO8601 date string")
    case NotInFuture => RunAtMessage("in the future")
  }

  /** No two different errors share a reply text. */
  lemma MessageIdentifiesError(e1: AddJobError, e2: AddJobError)
    requires Message(e1) == Message(e2)
    ensures e1 == e2
  {
  }

  /** A call to `queue.add`: job name, payload and options. */
  datatype Enqueue = Enqueue(name: string, data: JobData, options: JobOptions)

  /** A 400 reply, or the one job to enqueue and the `scheduledFor` instant of the 200 reply. */
  datatype Reply = Rejected(error: AddJobError) | Scheduled(job: Enqueue, scheduledFor: int)

  /** The HTTP status of the reply: 200 exactly for a scheduled job, 400 for every refusal. */
  function StatusCode(r: Reply): (code: nat)
    ensures code == 200 <==> r.Scheduled?
    ensures code == 400 <==> r.Rejected?
  {
    if r.Rejected? then 400 else 200
  }

  const SupportedMethods: seq<string> := ["GET", "POST", "PUT", "PATCH", "DELETE"]

  /** The store name of the job for caller id `id`. */
  function JobName(id: string): (name: string)
    ensures StartsWith(name, "HttpCall-") && name[9..] == id
  {
    "HttpCall-" + id
  }

  /** `(method ?? 'GET').toUpperCase()`: only an absent method defaults; an empty one stays empty. */
  function NormaliseMethod(m: Option<string>): (r: string)
    ensures m.None? ==> r == "GET"
    ensures m.Some? ==> r == ToUpper(m.value)
  {
    ToUpper(m.GetOr("GET"))
  }

  /** `/^\d{2}:\d{2}$/`: two ASCII digits, a colon, two ASCII digits and nothing else. */
  predicate IsClockShaped(s: string)
    ensures IsClockShaped(s) ==>
      IndexOf(s, ':') == 2 && s == s[..2] + ":" + s[3..] && AllDigits(s[..2]) && AllDigits(s[3..])
  {
    |s| == 5 && IsDigit(s[0]) && IsDigit(s[1]) && s[2] == ':' && IsDigit(s[3]) && IsDigit(s[4])
  }

  /** The two halves of `runAt.split(':')`, each read by `parseInt(_, 10)`. */
  function ClockHours(s: string): (h: nat)
    requires IsClockShaped(s)
    ensures h == 10 * DigitValue(s[0]) + DigitValue(s[1])
  {
    TwoDigitValue(s[..2]);
    DecimalValue(s[..2])
  }

  function ClockMinutes(s: string): (m: nat)
    requires IsClockShaped(s)
    ensures m == 10 * DigitValue(s[3]) + DigitValue(s[4])
  {
    TwoDigitValue(s[3..]);
    DecimalValue(s[3..])
  }

  /** Midnight of the day containing instant `t`. */
  function StartOfDay(t: int): (d: int)
    ensures d <= t < d + DayMs && d % DayMs == 0
  {
    t - t % DayMs
  }

  /** Today (the day of the first reading) at hh:mm:00.000. */
  function SameDayAt(created: int, hours: nat, minutes: nat): int {
    StartOfDay(created) + hours * HourMs + minutes * MinuteMs
  }

  /** The `HH:mm` branch: today's instant, rolled forward one day when it is not after the second reading. */
  function NextOccurrence(clock: Clock, hours: nat, minutes: nat): (r: int)
    ensures var today := SameDayAt(clock.created, hours, minutes);
      (r == today <==> today > clock.compared) &&
      (r != today ==> r == today + DayMs)
  {
    var candidate := SameDayAt(clock.created, hours, minutes);
    if candidate <= clock.compared then candidate + DayMs else candidate
  }

  /**
   * Resolves `runAt` to an instant. A clock-shaped string is never handed to the date
   * parser; any other string is, and a parse failure (`NaN`) is an error.
   */
  function ResolveRunAt(runAt: string, clock: Clock, parse: string -> Option<int>): (r: Result<int, AddJobError>)
    ensures IsClockShaped(runAt) ==>
      (r.Failure? <==> ClockHours(runAt) > 23 || ClockMinutes(runAt) > 59) &&
      (r.Failure? ==> r.error == InvalidClockTime)
    ensures !IsClockShaped(runAt) ==>
      (r.Failure? <==> parse(runAt).None?) &&
      (r.Failure? ==> r.error == InvalidRunAt) &&
      (r.Success? ==> r.value == parse(runAt).value)
    ensures IsClockShaped(runAt) && r.Success? ==>
      r.value == NextOccurrence(clock, ClockHours(runAt), ClockMinutes(runAt))
  {
    if IsClockShaped(runAt) then
      var hours, minutes := ClockHours(runAt), ClockMinutes(runAt);
      if hours > 23 || minutes > 59 then Failure(InvalidClockTime)
      else Success(NextOccurrence(clock, hours, minutes))
    else
      match parse(runAt)
      case None => Failure(InvalidRunAt)
      case Some(t) => Success(t)
  }

  /** The whole handler: checks in source order, then one enqueue. */
  function AddJob(query: Option<Query>, clock: Clock, parse: string -> Option<int>): (r: Reply)
    ensures query.None? ==> r == Rejected(MissingQuery)
    ensures r.Scheduled? <==>
      query.Some? &&
      NormaliseMethod(query.value.httpMethod) in SupportedMethods &&
      ResolveRunAt(query.value.runAt, clock, parse).Success? &&
      ResolveRunAt(query.value.runAt, clock, parse).value > clock.enqueued
    ensures r.Scheduled? ==>
      r.scheduledFor == ResolveRunAt(query.value.runAt, clock, parse).value &&
      r.job.name == JobName(query.value.id) &&
      r.job.data == JobData(query.value.targetUrl, NormaliseMethod(query.value.httpMethod)) &&
      r.job.options == JobOptions(r.scheduledFor - clock.enqueued, true) &&
      r.job.options.delay > 0
    ensures query.Some? && NormaliseMethod(query.value.httpMethod) !in SupportedMethods ==>
      r == Rejected(UnsupportedMethod(NormaliseMethod(query.value.httpMethod)))
    ensures query.Some? && NormaliseMethod(query.value.httpMethod) in SupportedMethods ==>
      var resolved := ResolveRunAt(query.value.runAt, clock, parse);
      (resolved.Failure? ==> r == Rejected(resolved.error)) &&
      (resolved.Success? && resolved.value <= clock.enqueued ==> r == Rejected(NotInFuture))
  {
    if query.None? then Rejected(MissingQuery)
    else
      var q := query.value;
      var httpMethod := NormaliseMethod(q.httpMethod);
      if httpMethod !in SupportedMethods then Rejected(UnsupportedMethod(httpMethod))
      else
        match ResolveRunAt(q.runAt, clock, parse)
        case Failure(e) => Rejected(e)
        case Success(at) =>
          var delay := at - clock.enqueued;
          if delay <= 0 then Rejected(NotInFuture)
          else Scheduled(Enqueue(JobName(q.id), JobData(q.targetUrl, httpMethod), JobOptions(delay, true)), at)
  }

  /**
   * The `HH:mm` rule: the instant falls at hh:mm:00.000, is either today's instant or
   * exactly one day after it, and, when the clock did not go back between the first
   * two readings, lies after the first reading and at most one day after the second.
   */
  lemma NextOccurrenceWindow(clock: Clock, hours: nat, minutes: nat)
    requires hours <= 23 && minutes <= 59
    ensures var today, r := SameDayAt(clock.created, hours, minutes), NextOccurrence(clock, hours, minutes);
      (r == today <==> today > clock.compared) &&
      (r == today || r == today + DayMs) &&
      r % DayMs == hours * HourMs + minutes * MinuteMs &&
      (clock.created <= clock.compared ==> clock.created < r <= clock.compared + DayMs)
  {
  }

  /** With a single clock reading, an `HH:mm` instant lies in (now, now + one day]. */
  lemma SingleReadingWindow(now: int, hours: nat, minutes: nat)
    requires hours <= 23 && minutes <= 59
    ensures now < NextOccurrence(Clock(now, now, now), hours, minutes) <= now + DayMs
  {
  }

  /** A clock-shaped `runAt` is resolved without ever consulting the date parser. */
  lemma ClockShapedIgnoresParser(runAt: string, clock: Clock, parse1: string -> Option<int>, parse2: string -> Option<int>)
    requires IsClockShaped(runAt)
    ensures ResolveRunAt(runAt, clock, parse1) == ResolveRunAt(runAt, clock, parse2)
  {
  }

  /** An unsupported method is reported whatever `runAt` is and whatever the clock says. */
  lemma MethodCheckedFirst(q: Query, clock: Clock, parse: string -> Option<int>)
    requires NormaliseMethod(q.httpMethod) !in SupportedMethods
    ensures AddJob(Some(q), clock, parse) == Rejected(UnsupportedMethod(NormaliseMethod(q.httpMethod)))
  {
  }

  /** A lower-case method is accepted upper-cased; an empty one is not defaulted and is refused. */
  lemma MethodExamples()
    ensures NormaliseMethod(None) == "GET"
    ensures NormaliseMethod(Some("patch")) == "PATCH" && "PATCH" in SupportedMethods
    ensures NormaliseMethod(Some("OPTIONS")) == "OPTIONS" && "OPTIONS" !in SupportedMethods
    ensures NormaliseMethod(Some("")) == "" && "" !in SupportedMethods
  {
  }

  /** A parsed date that is not after the third reading is refused, and nothing is enqueued. */
  lemma PastDateRejected(q: Query, clock: Clock, parse: string -> Option<int>)
    requires NormaliseMethod(q.httpMethod) in SupportedMethods
    requires !IsClockShaped(q.runAt) && parse(q.runAt).Some? && parse(q.runAt).value <= clock.enqueued
    ensures AddJob(Some(q), clock, parse) == Rejected(NotInFuture)
  {
  }

  /** An `HH:mm` time outside 00:00-23:59 is refused as such, even with a parser that would accept it. */
  lemma OutOfRangeClockRejected(q: Query, clock: Clock, parse: string -> Option<int>)
    requires NormaliseMethod(q.httpMethod) in SupportedMethods
    requires IsClockShaped(q.runAt) && (ClockHours(q.runAt) > 23 || ClockMinutes(q.runAt) > 59)
    ensures AddJob(Some(q), clock, parse) == Rejected(InvalidClockTime)
  {
  }

  /**
   * With one reading of the clock a valid `HH:mm` time is always scheduled, with a
   * delay of at most one day.
   */
  lemma ClockTimeScheduledWithinADay(q: Query, now: int, parse: string -> Option<int>)
    requires NormaliseMethod(q.httpMethod) in SupportedMethods
    requires IsClockShaped(q.runAt) && ClockHours(q.runAt) <= 23 && ClockMinutes(q.runAt) <= 59
    ensures var r := AddJob(Some(q), Clock(now, now, now), parse);
      r.Scheduled? && 0 < r.job.options.delay <= DayMs
  {
  }

  /**
   * The final delay check is not redundant: the clock can move between the comparison
   * and the delay computation, so a valid `HH:mm` time can still be refused as past.
   */
  lemma DelayCheckReachable(parse: string -> Option<int>)
    ensures var q, clock := Query("1", "https://example.com", "10:00", None), Clock(10 * HourMs - 1, 10 * HourMs - 1, 10 * HourMs);
      Monotone(clock) &&
      ResolveRunAt(q.runAt, clock, parse) == Success(10 * HourMs) &&
      AddJob(Some(q), clock, parse) == Rejected(NotInFuture)
  {
  }

  /** Midnight of an instant `offset` into day `day`. */
  lemma StartOfDayAt(day: int, offset: int)
    requires 0 <= offset < DayMs
    ensures StartOfDay(day * DayMs + offset) == day * DayMs
  {
  }

  /**
   * A time later today is scheduled today: "23:59" asked at 10:00 on day `day`, with the
   * method left out, enqueues a GET for 23:59 that day.
   */
  lemma LaterToday(day: int, parse: string -> Option<int>)
    ensures var now := day * DayMs + 10 * HourMs;
      AddJob(Some(Query("1", "https://example.com", "23:59", None)), Clock(now, now, now), parse)
      == Scheduled(
           Enqueue("HttpCall-1", JobData("https://example.com", "GET"), JobOptions(13 * HourMs + 59 * MinuteMs, true)),
           day * DayMs + 23 * HourMs + 59 * MinuteMs)
  {
    var runAt := "23:59";
    assert IsClockShaped(runAt);
    assert ClockHours(runAt) == 23 && ClockMinutes(runAt) == 59;
    var now := day * DayMs + 10 * HourMs;
    StartOfDayAt(day, 10 * HourMs);
    var at := day * DayMs + 23 * HourMs + 59 * MinuteMs;
    assert NextOccurrence(Clock(now, now, now), 23, 59) == at;
    assert ResolveRunAt(runAt, Clock(now, now, now), parse) == Success(at);
    assert NormaliseMethod(None) == "GET";
  }

  /** A time already past today is rolled to tomorrow: "09:00" asked at 10:00 is scheduled 23 hours ahead. */
  lemma EarlierTodayRollsOver(day: int, parse: string -> Option<int>)
    ensures var now := day * DayMs + 10 * HourMs;
      AddJob(Some(Query("1", "https://example.com", "09:00", None)), Clock(now, now, now), parse)
      == Scheduled(
           Enqueue("HttpCall-1", JobData("https://example.com", "GET"), JobOptions(23 * HourMs, true)),
           (day + 1) * DayMs + 9 * HourMs)
  {
    var runAt := "09:00";
    assert IsClockShaped(runAt);
    assert ClockHours(runAt) == 9 && ClockMinutes(runAt) == 0;
    var now := day * DayMs + 10 * HourMs;
    StartOfDayAt(day, 10 * HourMs);
    var at := (day + 1) * DayMs + 9 * HourMs;
    assert NextOccurrence(Clock(now, now, now), 9, 0) == at;
    assert ResolveRunAt(runAt, Clock(now, now, now), parse) == Success(at);
    assert NormaliseMethod(None) == "GET";
  }
}
