# gaetk_longtask: the long-running-task handler, modelled in Dafny

`LongRunningTaskHandler` lets a browser start a job that runs longer than a
request may take. A request without `_longtaskid` creates a `gaetk_LongTask`
record in status `ready`. It queues a task-queue entry that will execute the
job, and redirects the browser to a status page. The task queue delivers the
entry back to the same handler with `_longtaskjob=execute`. The handler then
marks the record `started`, runs the integrator's `execute_task` on the stored
parameters, and stores the output as `done`, or marks the record `error` and
re-raises. The status page (`_longtaskjob=query`) reloads itself and shows the
progress that `log_progress` left in memcache. When it sees `done` it moves
the record to `showing`. The next poll redirects to `_longtaskjob=showresult`,
which marks the record `finished` and displays the parameters and the output.

The model has one module per part of `longtask/longtask.py`:

- `HttpRequest` (http_request.dfy): the webapp2 request the handler reads.
  `request.get` returns the first value or a default. `request.arguments()`
  lists each field name once.
- `Parameters` (parameters.dfy): `prepare_task` and the `arg0`, `arg1`, ... keys.
  The method `PrepareTask` runs the source's loop. It is proved equal to the
  function `PreparedParameters`, and lemmas state the precedence of its keys.
- `Continuation` (continuation.dfy): `_redirect` as a `Redirection` with
  code, location and query pairs. A non-`PUT` redirect is proved to carry the
  task, the action, the restart URL and exactly the short public fields, in
  their order. A `PUT` one carries only the task and the action.
- `TaskRecord` (task_record.dfy): the record, its six statuses, the edges
  the handler writes, and the invariant `Consistent`. A record has a start
  time unless it is `ready`. It has a result and an end time exactly when it
  is `done`, `showing` or `finished`.
- `StatusDisplay` (status_display.dfy): the `display` dict of `get_query`.
  It is modelled as message kind, refresh and progress bar, not as HTML.
- `LongTask` (longtask.dfy): the routing of `get`, the execute guard, and one
  pure step function per action. The class `LongRunningTaskHandler` owns the
  datastore (`store`), the task queue (`queue`) and memcache (`progress`). Its
  methods assign the record step by step as the source does. Each method is
  proved to leave exactly the state its step function describes, and to keep
  `Valid` (every record `Consistent`, fresh ids really fresh).
- `Scenarios` (scenarios.dfy): whole lives driven through `get`, plus
  `log_progress` calls between requests that stand for the work's own
  reports (see the line on `LongTask.LongRunningTaskHandler.Execute` under
  "Left out"). They
  cover the start request, the queued execution, polls following the
  redirects, the result page, a late duplicate execution, and an execution
  cut off and delivered again.

Every way a request ends is a value of `Response`. `Redirect` and `Fault`
stand for the exceptions the source raises (the redirects and the
`RuntimeError`s, and the error re-raised after `execute_task`). `Render`
(`render_status`), `ShowResult` (`display_result`) and `NoOp` (an empty
response) stand for ordinary returns. A Python field called `method` is called `verb` here, because `method`
is a Dafny keyword.

### Behaviour of the code at four points

- Execute guard, `longtask/longtask.py:223-230`. A `started` record is executed
  again only while `starttime + 660 > now`, that is, while the earlier start
  is less than 11 minutes old. A `started` record that is 11 minutes old or
  older raises. The comment at `:224-225` gives a timeout as the reason a
  record can still be `started`. The log line at `:228` reads "restarting
  task aufter timeout". The comparison lets the re-run through only before
  that timeout. `MayExecute` states the comparison as written.
  `StaleStartStays` proves what follows from it: once the start is 660
  seconds old, no request moves the record out of `started` again.
- Show-result, `longtask/longtask.py:112`. The test accepts `done`, `showing`
  and `finished`. So `done → finished` is an edge, next to
  `done → showing → finished`.
- Redirect kind, `longtask/longtask.py:156-170`. A task created by `PUT` gets
  a 302 (`HTTPFound`) with only the job and the id. Every other method gets a
  307, which makes the browser repeat the method and re-send the form body.
  `Follow` is the client the model assumes, not code of the handler. It
  follows a 302 with a body-less `GET`, and a 307 with the same method and,
  unless that method is `GET`, the form body re-sent after the query.
- Interrupted execution, `longtask/longtask.py:235-260`. The handler writes
  `started` before it calls `execute_task`. It then catches only `Exception`.
  A request cut off by App Engine's deadline (`DeadlineExceededError`, a
  `BaseException`) or by a dying instance leaves the record `started`. This
  is the `Interrupted` outcome.

## Model

| member | source | states |
|---|---|---|
| `HttpRequest.Lookup` | longtask/longtask.py:101-102 | `request.get` finds the value of the first field with that name (for `?a=1&a=2`, `1`); when it finds none, no field has that name |
| `HttpRequest.ArgumentNames` | longtask/longtask.py:168 | `request.arguments()` lists every field name, only names of fields, and each name once |
| `Parameters.Digits` | longtask/longtask.py:277 | the `%d` notation is never empty, and has at least two digits from 10 on |
| `Parameters.DigitsInjective` | longtask/longtask.py:276-277 | different numbers have different decimal notations |
| `Parameters.ArgNameInjective` | longtask/longtask.py:276-277 | the keys `"arg%d" % i` of different positions are different |
| `Parameters.ArgEntriesAt` | longtask/longtask.py:276-277 | after the `enumerate(args)` loop, `argI` holds `args[I]` for every position, and the loop wrote no other key |
| `Parameters.PreparedParametersAt` | longtask/longtask.py:268-278 | positional arguments win over keyword arguments, which win over request fields; fields starting with `_` are never copied; the keys are exactly those three sources |
| `Parameters.PrepareTask` | longtask/longtask.py:268-278 | the imperative build (comprehension, `update(kwargs)`, `argN` loop) gives exactly `PreparedParameters` |
| `Continuation.Forwarded` | longtask/longtask.py:168-169 | every forwarded pair is a listed public name whose value is shorter than 512, with its request value; every such name is forwarded |
| `Continuation.RedirectFor` | longtask/longtask.py:153-170 | `PUT`: a 302 to the path with exactly the job and id pairs; otherwise a 307 with job, id, starting point (existing one, else the request URL), then the forwarded fields; no other `_` name ever appears |
| `Continuation.ForwardedAppend` | longtask/longtask.py:168-169 | forwarding keeps argument order: forwarding a concatenation concatenates the forwarded parts |
| `Continuation.ForwardedLookup` | longtask/longtask.py:168-169 | in the forwarded fields a name finds its original value exactly when it is listed and carried, and finds nothing otherwise |
| `Continuation.QueryLookup` | longtask/longtask.py:153-170 | in the redirect's query the job and id find the action and the task; after a 307 the starting point finds the restart URL and a public name finds its value exactly when it was carried; after a 302 no public name is found |
| `Continuation.ContinuationResumes` | longtask/longtask.py:153-170 | the followed redirect names the same task and action; after a 307 it keeps the method and the restart URL across further redirects, and a public name finds its original value when it was carried, else the value in the re-sent body, and nothing when the origin was a `GET` |
| `TaskRecord.NewRecord` | longtask/longtask.py:139-142 | a new record already satisfies the invariant `Consistent` that every stored record keeps |
| `TaskRecord.MovesForward` | longtask/longtask.py:223-230 | along the status edges nothing returns to `ready`, a completed task stays completed, and `finished` is terminal |
| `StatusDisplay.TruncDiv` | longtask/longtask.py:205 | `int(a * 1.0 / b)`, as applied to `step * 100` and `total_steps`, truncates toward zero: its magnitude is the floor of the quotient's magnitude, and its sign is the quotient's sign |
| `StatusDisplay.PercentBounds` | longtask/longtask.py:200-205 | for a step within its total the percentage lies in 0..100, with 0 at step 0 and 100 at the last step |
| `StatusDisplay.StatusPage` | longtask/longtask.py:172-208 | refresh 0 exactly for `done`, and 3 for every other status; `Completed` exactly for `done`, `Waiting` exactly for `ready`, `Retrying` exactly for `error`, `Running` exactly for `started`, the generic `Status: …` for `showing` and `finished`; a bar only for `started` and `done`; for `started`, the snapshot message and seconds since start, and an indeterminate bar exactly when the snapshot is missing or its total is 0, else `Percent`, the percentage truncated toward zero; it fails only on `started` without a start time, which a consistent record never is |
| `LongTask.KeyOf` | longtask/longtask.py:148 | every id the datastore hands out is non-empty, so it always passes the `if request.get('_longtaskid')` test |
| `LongTask.RouteOf` | longtask/longtask.py:100-132 | an empty or absent id starts a task; a known id dispatches on `_longtaskjob` (execute, query, showresult, anything else: nothing); an unknown id redirects to a non-empty starting point, else faults |
| `LongTask.MayExecute` | longtask/longtask.py:223-230 | execution proceeds from `ready` or `error`, or from `started` when less than 660 s have passed since its start; never from `done`, `showing` or `finished` |
| `LongTask.ExecutionMessage` | longtask/longtask.py:147-148 | the queued entry targets the request path with method `GET`, and when delivered it routes to the execution of that same task for any datastore that holds it |
| `LongTask.ExecuteStep` | longtask/longtask.py:217-260 | refused guard: record unchanged, and the failure is the missing start time for a `started` record without one, the wrong state otherwise; else `→ started` at `now`, then `done` with the work's output on the stored parameters and end time, or `error` with result untouched and the failure re-raised, or, when the request is cut off, still `started` with result and end time untouched; keeps `Consistent` and never changes path, method or parameters |
| `LongTask.StaleStartStays` | longtask/longtask.py:223-230 | a `started` record 660 s or more after its start is refused by execute and show-result and left unchanged by the status query |
| `LongTask.QueryStep` | longtask/longtask.py:172-215 | `showing`: redirect to `showresult`, record unchanged; otherwise render the status page; only `done` changes, to `showing`; keeps `Consistent` |
| `LongTask.ShowResultStep` | longtask/longtask.py:110-122 | status outside `done`/`showing`/`finished`: fault, record unchanged; otherwise `finished` and display of the stored parameters and result; repeating it on `finished` gives the same record and display |
| `LongTask.LongRunningTaskHandler.LogProgress` | longtask/longtask.py:296-314 | the snapshot of the task is replaced whole; a zero total becomes the handler's `total_steps` |
| `LongTask.LongRunningTaskHandler.PutNew` | longtask/longtask.py:143 | the first `put` stores the record under an id not used before and changes no other record; `Valid` kept |
| `LongTask.LongRunningTaskHandler.Start` | longtask/longtask.py:134-151 | exactly one new record under a fresh id, `ready` with the prepared parameters; exactly one queued `GET` execute entry; snapshot `("Starting", 0, total_steps)`; redirect with action `query`; `Valid` kept |
| `LongTask.LongRunningTaskHandler.Execute` | longtask/longtask.py:217-260 | the step-by-step writes leave exactly the store `ExecuteStep` describes; `Valid` kept |
| `LongTask.LongRunningTaskHandler.Query` | longtask/longtask.py:172-215 | the store and response are exactly those of `QueryStep` with the memcache snapshot; `Valid` kept |
| `LongTask.LongRunningTaskHandler.ShowTaskResult` | longtask/longtask.py:110-122 | the store and response are exactly those of `ShowResultStep`; `Valid` kept |
| `LongTask.LongRunningTaskHandler.Get` | longtask/longtask.py:89-132 | per route: start adds exactly the new `ready` record, the queue entry and the `Starting` snapshot, changes no existing record and uses up one id; every other route uses up no id; every other route creates nothing, queues nothing and leaves memcache alone; unknown id faults or redirects 307 to the starting point, and an unknown action does nothing, all with the store unchanged; every record only evolves along the status edges |
| `Scenarios.StartFresh` | longtask/longtask.py:134-151 | a start request on a fresh handler stores exactly one `ready` record and one execute entry; the redirect it sends routes to the status query of that task |
| `Scenarios.StartAndExecute` | longtask/longtask.py:89-151 | delivering the entry the start queued leaves the record as `ExecuteStep` of the new `ready` record |
| `Scenarios.PollCompleted` | longtask/longtask.py:172-215 | two polls of a `done` task: a completion page with refresh 0 that moves the record to `showing`, then a redirect to `showresult` |
| `Scenarios.LifecycleReturns` | longtask/longtask.py:172-260 | driven only through `get`, when the work returns: a `done` page with refresh 0, then a redirect to `showresult`, then a display of exactly the parameters `prepare_task` built and the output computed from them; a late duplicate execution faults |
| `Scenarios.LifecycleRaises` | longtask/longtask.py:110-260 | when the work raises, the status page reports the retry and a request for the result faults |
| `Scenarios.PollStarted` | longtask/longtask.py:190-208 | for a `started` task the status page shows the progress last logged and changes no record |
| `Scenarios.InterruptedPoll` | longtask/longtask.py:224-237 | an execution cut off leaves the record `started` at its start time; the status page then shows the logged message, the seconds since the start, refresh 3 and the progress bar |
| `Scenarios.LifecycleInterrupted` | longtask/longtask.py:224-260 | after a cut-off execution, a re-delivery less than 660 s after the start runs the work again to `done`, and one from 660 s on faults and leaves the record `started` with its first start time |

## Left out

- HTML and response writing (`render_status`, `display_result`, `longtask/longtask.py:284-294`): the page is the `Display` value and the result page is the `ShowResult` response.
- `pickle`: parameters and results are stored as values, so decoding returns what was encoded by construction.
- ndb keys and their url-safe encoding: ids are the opaque strings `KeyOf(n)`. A garbled `_longtaskid` that ndb cannot decode, which raises in the source, is treated like an id with no record.
- `urlencode` escaping: query strings are sequences of name/value pairs. The redirect to `_longtaskstartingpoint` is a `Redirection` with an empty query, whose location is used as given.
- The ndb auto fields (`updated_at`, `created_at`, `*_by`) and the `last_accessed_at` write: bookkeeping with no effect on behaviour.
- memcache expiry and eviction: `progress` is a map, and a snapshot that expired is one that is not in the map. `StatusPage` and `QueryStep` are stated for a present and for a missing snapshot. The class has no eviction operation and `Start` writes a snapshot for every record, so through `Get` a query always finds one.
- Task-queue delivery, retries and delays: `queue` records what was added. A delivery is `Delivered(message)` handed to `Get`, which may happen any number of times.
- Concurrency: the model is sequential. Two deliveries do not interleave, and the re-reads at `longtask/longtask.py:246-247` and `256-257` read back `store[id]` as the handler left it.
- LongTask.LongRunningTaskHandler.Execute: progress that `execute_task` reports through `log_progress` while it runs is not interleaved with the execution. `LogProgress` is a separate method that may be called between requests.
- The clock: integer seconds, passed in. One reading `now` serves the guard and `starttime`, where the source reads the clock twice. `later` is the reading for `endtime`.
- Floating point: the percentage is the integer quotient truncated toward zero, so float rounding for very large steps is not modelled. Elapsed seconds are `now - starttime`.
- `request.arguments()` returns webapp2's set order, which Python leaves unspecified. The model fixes first-appearance order.
- Clients that follow a 302 other than with a body-less `GET`: `Follow` assumes one that does, as Python `requests` does. A fetch or XHR client that repeats a `PUT` with its body after a 302 is not modelled. The `PUT` clause of `Continuation.ContinuationResumes`, a `GET` in which no public name is found, holds only for the assumed client.
- `post` only delegates to `get`, so `Get` models both.
- `logging` and the `unicode()` conversion of the progress message.
