/** Whole task lives, driven through `get` as browser and task queue would
    drive them: the start request, the queued execution, status polls that
    follow the redirects, the result page, and later deliveries of the queued
    entry. Where the work reports progress, a `log_progress` call between two
    requests stands for that report. The start request carries form body
    `body`, which the browser re-sends on every 307 of a method other than
    `GET`. */
module Scenarios {
  import opened Options
  import opened HttpRequest
  import opened Parameters
  import opened Continuation
  import opened TaskRecord
  import opened StatusDisplay
  import opened LongTask

  /** On a fresh handler, a request without `_longtaskid` ends in a display of
      exactly the parameters `prepare_task` built and of the output the work
      computed from them, after a `done` page and a redirect to the result; a
      duplicate execution afterwards is refused. */
  method LifecycleReturns(req: Request, body: seq<Field>, args: seq<string>, kwargs: Parameters,
                          work: Parameters -> Outcome, now: int, later: int)
    returns (polled: Response, repolled: Response, shown: Response, duplicate: Response)
    requires Get(req, IdField) == ""
    requires work(PreparedParameters(req, args, kwargs)).Returned?
    ensures polled == Render(Display(Completed, 0, Indeterminate))
    ensures repolled.Redirect? && |repolled.redirection.query| > 0
    ensures repolled.redirection.query[0] == Field(JobField, ShowResultJob)
    ensures var p := PreparedParameters(req, args, kwargs);
      shown == ShowResult(p, work(p).output)
    ensures duplicate == Fault(InvalidState)
  {
    var handler, id, message, poll := StartAndExecute(req, body, args, kwargs, work, now, later);
    var p := PreparedParameters(req, args, kwargs);
    assert handler.store[id].status == Done && handler.store[id].result == Some(work(p).output);

    // The browser polls the status page twice.
    polled, repolled := PollCompleted(handler, id, poll, now);

    // The second poll sent it on to the result page.
    var show := Follow(repolled.redirection, poll.verb, body, req.url);
    ContinuationResumes(poll, handler.store[id].verb, id, ShowResultJob, body, req.url, "");
    assert RouteOf(show, handler.store.Keys) == ToShowResult(id);
    shown := handler.Get(show, [], map[], work, now, later);
    assert handler.store[id].status == Finished;

    // A late duplicate of the queued execution.
    assert RouteOf(Delivered(message), handler.store.Keys) == ToExecute(id);
    duplicate := handler.Get(Delivered(message), [], map[], work, now, later);
  }

  /** The browser polls the status page of a `done` task twice: the first
      poll shows completion and moves the record to `showing`, the second
      redirects to the result. */
  method PollCompleted(handler: LongRunningTaskHandler, id: string, poll: Request, now: int)
    returns (polled: Response, repolled: Response)
    requires handler.Valid() && id in handler.store && handler.store[id].status == Done
    requires RouteOf(poll, handler.store.Keys) == ToQuery(id)
    modifies handler
    ensures handler.Valid()
    ensures handler.store == old(handler.store)[id := old(handler.store[id]).(status := Showing)]
    ensures polled == Render(Display(Completed, 0, Indeterminate))
    ensures repolled == Redirect(RedirectFor(poll, handler.store[id].verb, id, ShowResultJob))
  {
    polled := handler.Get(poll, [], map[], _ => Raised, now, now);
    assert handler.store[id].status == Showing;
    repolled := handler.Get(poll, [], map[], _ => Raised, now, now);
  }

  /** When the work raises, the status page reports the failure and a request
      for the result is refused. */
  method LifecycleRaises(req: Request, body: seq<Field>, args: seq<string>, kwargs: Parameters,
                         work: Parameters -> Outcome, now: int, later: int)
    returns (polled: Response, shown: Response)
    requires Get(req, IdField) == ""
    requires work(PreparedParameters(req, args, kwargs)).Raised?
    ensures polled == Render(Display(Retrying, PollInterval, NoBar))
    ensures shown == Fault(InvalidState)
  {
    var handler, id, message, poll := StartAndExecute(req, body, args, kwargs, work, now, later);
    assert handler.store[id].status == Error;
    polled := handler.Get(poll, [], map[], work, now, later);

    var show := Request("GET", req.path, req.url, [Field(JobField, ShowResultJob), Field(IdField, id)]);
    assert Lookup(show.fields[1..], IdField) == Some(id);
    assert RouteOf(show, handler.store.Keys) == ToShowResult(id);
    shown := handler.Get(show, [], map[], work, now, later);
  }

  /** When the request running the work is cut off, the record stays
      `started`: the status page shows the progress the work last logged; the
      task queue's re-delivery runs the work again while the start is younger
      than 660 seconds, and from then on it is refused and the record stays
      `started` with its first start time. */
  method LifecycleInterrupted(req: Request, body: seq<Field>, args: seq<string>, kwargs: Parameters,
                              work: Parameters -> Outcome, rerun: Parameters -> Outcome,
                              now: int, later: int, message: string, step: int, total: int,
                              t: int, retry: int)
    returns (polled: Response, redelivered: Response, last: Record)
    requires Get(req, IdField) == ""
    requires work(PreparedParameters(req, args, kwargs)).Interrupted?
    requires rerun(PreparedParameters(req, args, kwargs)).Returned?
    ensures polled.Render? && polled.display.info == Running(Some(message), t - now)
    ensures polled.display.refresh == PollInterval
    ensures total != 0 ==> polled.display.bar == Determinate(step, total, Percent(step, total))
    ensures total == 0 ==> polled.display.bar == Indeterminate
    ensures retry - now < ExecutionTimeout ==>
      && redelivered == NoOp
      && last.status == Done && last.starttime == Some(retry)
      && last.result == Some(rerun(PreparedParameters(req, args, kwargs)).output)
    ensures retry - now >= ExecutionTimeout ==>
      && redelivered == Fault(InvalidState)
      && last.status == Started && last.starttime == Some(now)
  {
    var handler, id, entry;
    handler, id, entry, polled := InterruptedPoll(req, body, args, kwargs, work, now, later, message, step, total, t);

    // The task queue delivers the entry again.
    assert RouteOf(Delivered(entry), handler.store.Keys) == ToExecute(id);
    redelivered := handler.Get(Delivered(entry), [], map[], rerun, retry, later);
    last := handler.store[id];
  }

  /** The first part of `LifecycleInterrupted`: the execution is cut off, the
      work had logged progress, and the browser polls the status page at `t`. */
  method InterruptedPoll(req: Request, body: seq<Field>, args: seq<string>, kwargs: Parameters,
                         work: Parameters -> Outcome, now: int, later: int,
                         message: string, step: int, total: int, t: int)
    returns (handler: LongRunningTaskHandler, id: string, entry: Message, polled: Response)
    requires Get(req, IdField) == ""
    requires work(PreparedParameters(req, args, kwargs)).Interrupted?
    ensures fresh(handler) && handler.Valid() && id == KeyOf(0)
    ensures handler.store.Keys == {id}
    ensures var p := PreparedParameters(req, args, kwargs);
      handler.store[id] == NewRecord(req.path, req.verb, p).(status := Started, starttime := Some(now))
    ensures entry == ExecutionMessage(req.path, id)
    ensures polled.Render? && polled.display.info == Running(Some(message), t - now)
    ensures polled.display.refresh == PollInterval
    ensures total != 0 ==> polled.display.bar == Determinate(step, total, Percent(step, total))
    ensures total == 0 ==> polled.display.bar == Indeterminate
  {
    var poll;
    handler, id, entry, poll := StartAndExecute(req, body, args, kwargs, work, now, later);
    var p := PreparedParameters(req, args, kwargs);
    var running := NewRecord(req.path, req.verb, p).(status := Started, starttime := Some(now));
    assert MayExecute(NewRecord(req.path, req.verb, p), now);
    assert handler.store[id] == running;

    // The work logged progress before it was cut off; the browser polls.
    polled := PollStarted(handler, id, poll, message, step, total, t);
    var page := StatusPage(running, Some(Snapshot(message, step, total)), t);
    assert polled == Render(page.value);
    assert page.value.info == Running(Some(message), t - now);
  }

  /** The work of a `started` task logs progress, then the browser polls its
      status page at `t`: the page shows that progress and the store is left
      as it was. */
  method PollStarted(handler: LongRunningTaskHandler, id: string, poll: Request,
                     message: string, step: int, total: int, t: int)
    returns (polled: Response)
    requires handler.Valid() && id in handler.store && handler.store[id].status == Started
    requires RouteOf(poll, handler.store.Keys) == ToQuery(id)
    modifies handler
    ensures handler.Valid() && handler.store == old(handler.store)
    ensures var steps := if total != 0 then total else handler.totalSteps;
      polled == Render(StatusPage(handler.store[id], Some(Snapshot(message, step, steps)), t).value)
  {
    handler.LogProgress(id, message, step, total);
    polled := handler.Get(poll, [], map[], _ => Raised, t, t);
  }

  /** The common beginning: a fresh handler receives the start request, and the
      task queue delivers the entry it queued. Returns the entry and the status
      request the browser is redirected to. */
  method StartAndExecute(req: Request, body: seq<Field>, args: seq<string>, kwargs: Parameters,
                         work: Parameters -> Outcome, now: int, later: int)
    returns (handler: LongRunningTaskHandler, id: string, message: Message, poll: Request)
    requires Get(req, IdField) == ""
    ensures fresh(handler) && handler.Valid() && id == KeyOf(0) && handler.totalSteps == 0
    ensures handler.store.Keys == {id}
    ensures var p := PreparedParameters(req, args, kwargs);
      handler.store[id] == ExecuteStep(NewRecord(req.path, req.verb, p), work, now, later).0
    ensures message == ExecutionMessage(req.path, id)
    ensures RouteOf(poll, handler.store.Keys) == ToQuery(id)
  {
    handler, id, poll := StartFresh(req, body, args, kwargs, work, now, later);
    message := handler.queue[0];

    // The task queue delivers the execution.
    assert RouteOf(Delivered(message), handler.store.Keys) == ToExecute(id);
    var executed := handler.Get(Delivered(message), [], map[], work, now, later);
  }

  /** A fresh handler receives a request without `_longtaskid`: it stores one
      `ready` record, queues its execution, and sends the browser to the status
      page of that task. */
  method StartFresh(req: Request, body: seq<Field>, args: seq<string>, kwargs: Parameters,
                    work: Parameters -> Outcome, now: int, later: int)
    returns (handler: LongRunningTaskHandler, id: string, poll: Request)
    requires Get(req, IdField) == ""
    ensures fresh(handler) && handler.Valid() && id == KeyOf(0) && handler.totalSteps == 0
    ensures handler.store == map[id := NewRecord(req.path, req.verb, PreparedParameters(req, args, kwargs))]
    ensures handler.queue == [ExecutionMessage(req.path, id)]
    ensures poll == Follow(RedirectFor(req, req.verb, id, QueryJob), req.verb, body, req.url)
    ensures RouteOf(poll, handler.store.Keys) == ToQuery(id)
  {
    handler := new LongRunningTaskHandler(0);
    id := KeyOf(0);
    var started := handler.Get(req, args, kwargs, work, now, later);
    poll := Follow(started.redirection, req.verb, body, req.url);
    ContinuationResumes(req, req.verb, id, QueryJob, body, req.url, "");
  }
}
