# Scheduled HTTP calls: a Dafny model of the scheduler core

The service takes a request to fire one HTTP call at a later time. It stores the call as a
delayed job in the BullMQ queue `ScheduledHttpQueue`; the job is named `HttpCall-<id>` after
the caller's id. It can cancel such jobs by id, and a worker performs each call when the job
falls due. This project
models the decision logic of that service:

- **`/add-job`** (`add_job.dfy`, module `AddJob`). This is a pure function from the query
  and the clock readings to a 400 reply, or to exactly one job handed to the store plus
  the `scheduledFor` instant. It covers:
  - method defaulting and upper-casing;
  - the `HH:mm` pattern and its range check;
  - rolling to the next occurrence;
  - the fallback date parse;
  - the final check that the delay is positive.
- **The job store** (`jobs.dfy`, module `Jobs`). A `JobStore` class holds a sequence of job
  records (id, name, state, payload, options) and has three operations:
  - `Add`;
  - `GetJobs`, which lists by state;
  - `Remove`, which may fail.
- **The routes** (`routes.dfy`, module `Routes`). Both handlers are methods on the store,
  behind the API-key gate. `/delete-job` lists the pending jobs and keeps those named
  `HttpCall-<id>`. It then tries to remove each one in a loop, counting `removed` and
  `failed`. It replies 404 when nothing matched.
- **The gates** (`auth.dfy`, module `Auth`). The API key comes from `x-api-key` or from a
  bearer token (section 2.1 of RFC 6750). The dashboard's Basic credentials are split at
  the first colon (section 2 of RFC 7617).
- **The worker** (`http_caller.dfy`, module `HttpCaller`). It covers:
  - the choice of client, port and path for the one outbound request;
  - joining the body chunks in order;
  - classifying the status (2xx succeeds, section 15.3 of RFC 9110);
  - the `{jobId, status, body}` record the job processor returns.
- `text.dfy` (module `Text`) holds the string operations: ASCII upper-casing, `startsWith`,
  `indexOf`, and decimal reading and rendering. `wrappers.dfy` holds `Option` and `Result`.

Modelling choices:

- **Time.** Time is integer milliseconds since the epoch. Local time is UTC and every day
  lasts exactly 86,400,000 ms, so "today at hh:mm" is `t - t % 86_400_000 + hh·3_600_000 + mm·60_000`.
- **Three clock readings.** In the `HH:mm` branch the handler reads the clock three times:
  1. `new Date()` at `src/index.ts:150`, which fixes "today";
  2. `Date.now()` at `src/index.ts:154`, for the comparison;
  3. `Date.now()` at `src/index.ts:168`, for the delay.

  They are `Clock(created, compared, enqueued)`, and the model does not assume they are
  equal. The clock can move between the comparison and the delay. That is why the final
  check that the delay is positive is not redundant: `AddJob.DelayCheckReachable` shows a
  valid `HH:mm` time that is refused as past.
- **Parameters standing for what is not modelled.** `new Date(runAt)` is the parameter
  `parse: string -> Option<int>`, where `None` stands for `NaN`. `new URL(...)` is the
  parameter `parseUrl`, whose `None` means the constructor threw. The response (or
  transport error) of the outbound request is the parameter `exchange`. Base64/UTF-8
  decoding is the parameter `decode`.
- **Failing removal.** `JobStore.Remove` of a present job succeeds or fails
  nondeterministically. This stands for a worker that claimed the job after it was listed.
  A job that is not present is never removed.

Behaviour of the code worth noting:

- Only the states delayed, waiting, paused, prioritized and waiting-children are listed for
  cancellation. A job that is already running is therefore never a match. A delete of an id
  whose only jobs are running replies 404, not `{removed: 0, failed: 0}`
  (`Routes.RunningJobsNeverMatch`). The reply `{ok: true, removed: 0, failed: 0}` cannot
  occur at all (`Routes.DeleteReplyFor`).
- Any protocol other than `https:` goes out over plain HTTP, on port 80 by default. It is not
  refused (`HttpCaller.DefaultPortIsSchemes`).
- A `runAt` that is not `HH:mm` goes to the general `Date` parser, which accepts more than ISO 8601.
- The target URL is checked only by the route's query schema, which is outside this model.
  The handler itself has no invalid-URL error.

## Model

| member | source | states |
|---|---|---|
| `Text.ToUpper` | src/index.ts:122 | upper-cases every ASCII letter and leaves all other characters in place, so no lower-case ASCII letter remains |
| `Text.ToUpperIdempotent` | src/index.ts:122 | normalising a method twice gives the same method as normalising it once |
| `Text.IndexOf` | src/index.ts:53 | the result is the first position of the character, or -1 exactly when the character does not occur |
| `Text.TwoDigitValue` | src/index.ts:133-135 | `parseInt` of a two-digit half of `HH:mm` is ten times the first digit plus the second |
| `Text.DecimalValue` | src/index.ts:134-135 | a string of k decimal digits reads as a number below 10^k, so each `HH:mm` field is below 100 |
| `Text.StartsWith` | src/index.ts:87 | a string starts with a prefix exactly when it is that prefix followed by some rest |
| `Text.Decimal` | src/queue.ts:49 | the status is rendered as base-10 digits with no leading zero, and reading them back gives the status |
| `Jobs.JobStore.Add` | src/index.ts:176-183 | appends exactly one record with a fresh id, the given name, payload and options, in the delayed state when the delay is positive; earlier records are untouched |
| `Jobs.JobStore.GetJobs` | src/index.ts:224 | lists exactly the stored jobs in the requested states, in store order, with distinct ids |
| `Jobs.JobStore.Remove` | src/index.ts:233 | a successful removal deletes exactly the record with that id, which was present; a failed one changes nothing |
| `Jobs.KeepUnselected` | src/index.ts:225-238 | removing ids of selected jobs leaves every unselected job in the store |
| `Jobs.KeepCount` | src/index.ts:225-238 | removing k ids of selected jobs lowers the number of selected jobs by exactly k |
| `AddJob.StatusCode` | src/index.ts:116-185 | a reply has status 200 exactly when a job is scheduled, and 400 exactly when the request is refused |
| `AddJob.JobName` | src/index.ts:177 | the job name is `HttpCall-` followed by the caller's id, and the id can be read back from it |
| `AddJob.NormaliseMethod` | src/index.ts:122 | only an absent method becomes `GET`; a present one, even empty, is upper-cased as given |
| `AddJob.MethodExamples` | src/index.ts:122-124 | `patch` becomes `PATCH` and is accepted, `OPTIONS` is refused, an empty method stays empty and is refused |
| `AddJob.ClockHours` | src/index.ts:133-135 | the hour of an `HH:mm` string is the decimal value of its first two digits |
| `AddJob.ClockMinutes` | src/index.ts:133-135 | the minute of an `HH:mm` string is the decimal value of its last two digits |
| `AddJob.StartOfDay` | src/index.ts:150-152 | midnight of an instant's day is at or before it, less than a day before it, and on a day boundary |
| `AddJob.IsClockShaped` | src/index.ts:132 | a string matching `^\d{2}:\d{2}$` has its first colon at position 2 and splits there into two all-digit halves |
| `AddJob.NextOccurrence` | src/index.ts:150-156 | the instant is today's hh:mm when that is after the comparison reading, and otherwise exactly one day later |
| `AddJob.Message` | src/index.ts:116-171 | only the unsupported-method reply starts `Unsupported HTTP method `, and the normalised method can be read back after it |
| `AddJob.RunAtMessage` | src/index.ts:145-171 | every reply about `runAt` starts `runAt must be ` and so cannot be taken for an unsupported-method reply |
| `AddJob.MessageIdentifiesError` | src/index.ts:116-171 | two different errors never get the same reply text |
| `AddJob.ResolveRunAt` | src/index.ts:130-166 | a clock-shaped `runAt` fails exactly when hours > 23 or minutes > 59, with the `HH:mm` error, and otherwise resolves to the next occurrence of that time; any other `runAt` fails exactly when the parser fails, with the `HH:mm or ISO8601` error, and otherwise gives the parsed instant |
| `AddJob.AddJob` | src/index.ts:114-189 | the job is scheduled exactly when the query is present, the method is supported, `runAt` resolves and the instant is after the third clock reading; then the name is `HttpCall-<id>`, the payload is the URL and normalised method, the options are the positive delay and `removeOnComplete`, and `scheduledFor` is the resolved instant. When the method is refused the reply names the normalised method; otherwise a `runAt` that does not resolve gives its own error, and a resolved instant not after the third reading gives `runAt must be in the future` |
| `AddJob.NextOccurrenceWindow` | src/index.ts:150-156 | the `HH:mm` instant falls at hh:mm:00.000, is today's instant when that is after the second reading and otherwise exactly one day later, and for a clock that did not go back lies after the first reading and at most a day after the second |
| `AddJob.SingleReadingWindow` | src/index.ts:150-156 | with one clock reading `now`, the `HH:mm` instant lies in (now, now + 1 day] |
| `AddJob.ClockShapedIgnoresParser` | src/index.ts:132-160 | a clock-shaped `runAt` resolves the same whatever the date parser would say: it is never parsed as a date |
| `AddJob.MethodCheckedFirst` | src/index.ts:122-128 | an unsupported method is reported before `runAt` is looked at, whatever the clock and parser |
| `AddJob.OutOfRangeClockRejected` | src/index.ts:137-148 | an `HH:mm` string with hours > 23 or minutes > 59 gets the `valid HH:mm` error, even if the parser would accept it |
| `AddJob.PastDateRejected` | src/index.ts:157-174 | a parsed date not after the third clock reading is refused as not in the future |
| `AddJob.ClockTimeScheduledWithinADay` | src/index.ts:150-174 | with a single clock reading a valid `HH:mm` time is always scheduled, with a delay in (0, 1 day] |
| `AddJob.DelayCheckReachable` | src/index.ts:150-174 | a valid `HH:mm` time that resolves can still be refused as past when the clock moves on before the delay is computed |
| `AddJob.LaterToday` | src/index.ts:150-188 | `23:59` asked at 10:00 with no method enqueues `HttpCall-1` as a GET, 13h59m ahead, scheduled for 23:59 the same day |
| `AddJob.EarlierTodayRollsOver` | src/index.ts:150-188 | `09:00` asked at 10:00 is scheduled for 09:00 the next day, 23 hours ahead |
| `Auth.PresentedKey` | src/index.ts:86-89 | a present `x-api-key` header is the key, even when empty; otherwise there is a key exactly when `Authorization` starts with `Bearer `, and `Authorization` is `Bearer ` followed by that key |
| `Auth.ApiKeyAccepted` | src/index.ts:91 | a request passes exactly when the configured key is non-empty and the presented key equals it |
| `Auth.BearerRoundTrip` | src/index.ts:86-94 | a bearer token is read back exactly as sent, and passes the gate exactly when it is non-empty and equals the configured key |
| `Auth.EmptyHeaderShadowsBearer` | src/index.ts:86-94 | an empty `x-api-key` header refuses the request whatever bearer token comes with it |
| `Auth.EmptyConfiguredKeyRefusesAll` | src/index.ts:91 | an empty configured key lets nothing through |
| `Auth.SplitCredentials` | src/index.ts:53-55 | with a colon, the user is the colon-free text before the first colon and the password everything after it; without one, both are empty |
| `Auth.SplitJoin` | src/index.ts:53-55 | a user without a colon and any password are recovered from `user:password` |
| `Auth.DashboardGate` | src/index.ts:44-66 | the dashboard lets a request through exactly when `Authorization` starts with `Basic ` and the decoded credentials equal the configured user and password; every refusal is a 401 with the challenge `Basic realm="Bull Board", charset="UTF-8"` |
| `Auth.DashboardAcceptsItsCredentials` | src/index.ts:44-61 | the configured user and password, sent as `Basic ` with their encoding, pass the gate |
| `Auth.NoColonPassesOnlyEmptyConfig` | src/index.ts:53-57 | decoded credentials without a colon pass only when both configured values are empty |
| `HttpCaller.ClientFor` | src/queue.ts:25-26 | the HTTPS client is used exactly when the protocol is `https:` |
| `HttpCaller.RequestFor` | src/queue.ts:28-34 | the request keeps the method, goes to the URL's hostname with path = pathname followed by search, and uses the URL's port when it has one and a default port otherwise |
| `HttpCaller.DefaultPortIsSchemes` | src/queue.ts:25-33 | without an explicit port, `http:` and `https:` go to their scheme's registered port (80, 443); any other protocol goes over plain HTTP to port 80 |
| `HttpCaller.CollectBody` | src/queue.ts:37-41 | the body is the concatenation of the data chunks in arrival order |
| `HttpCaller.ConcatAppend` | src/queue.ts:37-41 | the body of two runs of chunks is the body of the first followed by the body of the second |
| `HttpCaller.ChunkInPlace` | src/queue.ts:37-41 | each chunk appears whole in the body, right after the chunks that arrived before it |
| `HttpCaller.FailureMessage` | src/queue.ts:49 | an invalid URL gives `Invalid URL`, a transport error keeps its own message, and a rejected status gives a message that starts `Request failed with status ` and continues |
| `HttpCaller.Classify` | src/queue.ts:43-51 | the call resolves exactly for a status in [200, 300), with that status and body; any other status rejects, carrying status and body |
| `HttpCaller.BadStatusMessage` | src/queue.ts:49 | the rejection message starts `Request failed with status `, then the decimal status, which reads back as the status, then `: ` and the body |
| `HttpCaller.PerformHttpCall` | src/queue.ts:22-57 | an unparsable URL rejects without a request; otherwise exactly one request with the derived client and options is made, a transport error rejects, and a response is classified on its status (0 when missing) and joined body |
| `HttpCaller.ProcessJob` | src/queue.ts:62-76 | the processor returns `{jobId, status, body}` exactly when the call succeeded; otherwise the call's failure escapes unchanged, with no retry: an invalid URL, a transport error with its own reason, or a bad status with its body |
| `Routes.HandleAddJob` | src/index.ts:97-189 | a refused API key gives 401 and no enqueue; otherwise the reply is the handler's decision, and the store grows by exactly the decided job when scheduled and is unchanged on every error; a handled request gets 200 exactly when the store gained a job |
| `Routes.Matches` | src/index.ts:216-225 | the jobs named by the handler's filter over the listed states are exactly the pending jobs with that name |
| `Routes.DeleteStatusCode` | src/index.ts:209-245 | a delete reply has status 400 exactly without an id, 404 exactly when nothing matched, and 200 exactly when it carries counts |
| `Routes.DeleteReplyFor` | src/index.ts:240-245 | the reply is 404 exactly when nothing was removed and nothing failed; otherwise it carries both counts |
| `Routes.HandleDeleteJob` | src/index.ts:207-246 | after the key gate, only matches are removed, `removed` is the number removed, `removed + failed` is the number of matches, and 404 is sent exactly when there were no matches; a request without an id gets 400 |
| `Routes.RemoveEach` | src/index.ts:227-238 | one removal attempt per match: the store loses exactly the removed ids, all of them matches, `removed` counts them and `removed + failed` is the number of matches |
| `Routes.DeleteLeavesOthers` | src/index.ts:214-238 | a job in another state or with another name is still stored after a delete |
| `Routes.DeleteLeavesFailed` | src/index.ts:225-238 | after a delete, the number of remaining matches equals the number of failed removals |
| `Routes.RunningJobsNeverMatch` | src/index.ts:216-225 | jobs that are already running never match, so an id with only running jobs gets a 404 |
| `Routes.DeleteTwice` | src/index.ts:207-246 | a second delete of the same id, after one that removed every match or found none, replies 404 and changes nothing |

## Left out

- Fastify routing, reply plumbing and query-string schema validation are not modelled. This includes `format: 'uri'` on `targetUrl`. Schema-validated fields are plain strings in `AddJob.Query`.
- The dashboard registration, server start-up and logging are not modelled. `src/env.ts` is only a configuration declaration: the configured values are parameters.
- BullMQ internals are not modelled. This covers Redis, timers, the claim of due jobs by the worker, what `removeOnComplete` does after completion, and job states after a call.
- `JobStore.GetJobs` lists in store order; BullMQ's order across states is not modelled. No property of the handler depends on it.
- Routes.HandleAddJob: the source does not await `scheduledHttpQueue.add` (`src/index.ts:176-183`) and replies 200 with `scheduledFor` whatever the add does. The model assumes the add succeeds, so a scheduled reply always comes with a stored job; an add that the queue rejects, leaving no job behind an `ok: true` reply, is not modelled.
- Jobs.JobStore.constructor: the model starts from an empty store, while the Redis-backed queue opened at `src/index.ts:23` may already hold jobs. Every handler property is stated relative to whatever store it is given, so none depends on the empty start.
- `Jobs.JobStore.Remove` does not say why a removal fails (a worker's lock on the job). Concurrency between a delete and a worker's claim is that nondeterministic failure and nothing more.
- Sockets are not modelled. The response is a given status and a sequence of chunks. Timeouts and a response aborted before its end are not modelled; in the source such a response never settles the promise.
- `job.log` calls are not modelled.
- `Text.ToUpper` upper-cases only ASCII letters. JavaScript's `toUpperCase` also maps some other characters to ASCII; for example U+017F (long s) becomes `S`, so the source accepts `poſt` as `POST` and the model refuses it.
- JavaScript `Date` string parsing is the abstract `parse` parameter. The `Date` range limit (±8.64·10^15 ms) is not modelled, and neither is the ISO-8601 text of `scheduledFor`, which the model keeps as an instant.
- Time zones and daylight saving are not modelled: local time is UTC and days have a fixed length.
- The `NaN` and negative checks on the `HH:mm` fields (`src/index.ts:138-142`) cannot fire on two ASCII digits, so the model has no branch for them.
- `new URL` and base64/UTF-8 decoding are the abstract parameters `parseUrl` and `decode`. The `catch` branch of the dashboard gate is not modelled, because decoding never throws there.
