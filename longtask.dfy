/** `LongRunningTaskHandler`: the state machine that starts a task, runs it
    from the task queue, reports its status and finally shows its result. The
    datastore, the task queue and memcache are the handler's three fields. */
module LongTask {
  import opened Options
  import opened HttpRequest
  import opened Parameters
  import opened Continuation
  import opened TaskRecord
  import opened StatusDisplay

  /** A re-delivered execution of a `started` task is let through while the
      earlier start is younger than this many seconds. */
  const ExecutionTimeout := 11 * 60

  /** The values `_longtaskjob` selects an action with. */
  const ExecuteJob := "execute"
  const QueryJob := "query"
  const ShowResultJob := "showresult"

  /** How the call of `execute_task` ended: it returned a value; it raised an
      `Exception`, which `get_execute` catches; or the request was cut off
      without one (App Engine's `DeadlineExceededError`, a `BaseException`,
      or an instance that died), so that no handler of `get_execute` ran. */
  datatype Outcome = Returned(output: Output) | Raised | Interrupted

  /** Why a request ended in an exception. */
  datatype FaultKind =
    | UnknownTask        // id given, no record, no starting point
    | InvalidState       // the record's status does not allow the action
    | ExecutionFailure   // `execute_task` raised; re-raised to the task queue
    | CutOff             // the request was cut off while `execute_task` ran
    | MissingStartTime   // arithmetic on an unset `starttime`
    | MissingResult      // unpickling an unset `result_blob`

  /** How a request ends. */
  datatype Response =
    | Redirect(redirection: Redirection)
    | Render(display: Display)                        // `render_status`
    | ShowResult(parameters: Parameters, output: Output) // `display_result`
    | Fault(kind: FaultKind)
    | NoOp                                            // empty response

  /** A task-queue entry: target URL, HTTP method and parameters. */
  datatype Message = Message(url: string, verb: string, params: seq<Field>)

  /** The id the datastore gives the `n`-th record created. */
  function KeyOf(n: nat): (id: string)
    ensures id != ""
  {
    Digits(n)
  }

  /** Where `get` sends a request. */
  datatype Route =
    | ToStart
    | ToExecute(id: string)
    | ToQuery(id: string)
    | ToShowResult(id: string)
    | ToNothing(id: string)
    | ToStartingPoint(url: string)
    | ToUnknownTask

  /** The dispatch of `get`, given the ids the datastore holds. */
  function RouteOf(req: Request, known: set<string>): (r: Route)
    ensures r.ToStart? <==> Get(req, IdField) == ""
    ensures r.ToExecute? || r.ToQuery? || r.ToShowResult? || r.ToNothing? <==>
      Get(req, IdField) != "" && Get(req, IdField) in known
    ensures r.ToExecute? || r.ToQuery? || r.ToShowResult? || r.ToNothing? ==> r.id == Get(req, IdField)
    ensures r.ToExecute? <==> Get(req, IdField) in known - {""} && Get(req, JobField) == ExecuteJob
    ensures r.ToQuery? <==> Get(req, IdField) in known - {""} && Get(req, JobField) == QueryJob
    ensures r.ToShowResult? <==> Get(req, IdField) in known - {""} && Get(req, JobField) == ShowResultJob
    ensures r.ToStartingPoint? <==>
      Get(req, IdField) !in known + {""} && Get(req, StartingPointField) != ""
    ensures r.ToStartingPoint? ==> r.url == Get(req, StartingPointField)
    ensures r.ToUnknownTask? <==>
      Get(req, IdField) !in known + {""} && Get(req, StartingPointField) == ""
  {
    var id := Get(req, IdField);
    if id != "" && id in known then
      var job := Get(req, JobField);
      if job == ExecuteJob then ToExecute(id)
      else if job == QueryJob then ToQuery(id)
      else if job == ShowResultJob then ToShowResult(id)
      else ToNothing(id)
    else if id != "" then
      if Get(req, StartingPointField) != "" then ToStartingPoint(Get(req, StartingPointField))
      else ToUnknownTask
    else ToStart
  }

  /** The guard of `get_execute`: may this record be executed at time `now`? */
  function MayExecute(rec: Record, now: int): (ok: bool)
    ensures ok <==>
      || rec.status == Ready
      || rec.status == Error
      || (rec.status == Started && rec.starttime.Some? && now - rec.starttime.value < ExecutionTimeout)
    ensures rec.status in {Done, Showing, Finished} ==> !ok
  {
    if rec.status !in {Ready, Error} then
      rec.status == Started && rec.starttime.Some? && rec.starttime.value + ExecutionTimeout > now
    else true
  }

  /** The guard of the show-result branch of `get`. */
  predicate MayShowResult(rec: Record)
  {
    rec.status in {Done, Showing, Finished}
  }

  /** The request the task queue delivers for message `m`. */
  function Delivered(m: Message): Request
  {
    Request(m.verb, m.url, m.url, m.params)
  }

  /** The task-queue entry that executes task `id`. */
  function ExecutionMessage(path: string, id: string): (m: Message)
    ensures m.verb == "GET" && m.url == path
    ensures forall known | id != "" && id in known :: RouteOf(Delivered(m), known) == ToExecute(id)
  {
    var fields := [Field(JobField, ExecuteJob), Field(IdField, id)];
    assert JobField != IdField;
    assert Lookup(fields, IdField) == Lookup(fields[1..], IdField) == Some(id);
    Message(path, "GET", fields)
  }

  /** Why `get_execute` refuses a record: a `started` one without a start
      time fails on the addition, every other one is in the wrong state. */
  function RefusalOf(rec: Record): FaultKind
  {
    if rec.status == Started && rec.starttime.None? then MissingStartTime else InvalidState
  }

  /** What `get_execute` does to a record and how the request ends: a refused
      guard changes nothing; otherwise the record passes through `started`
      (start time `now`) and ends `done` with the output and end time `later`,
      or `error` with its result untouched, or stays `started` when the
      request is cut off. */
  function ExecuteStep(rec: Record, work: Parameters -> Outcome, now: int, later: int): (r: (Record, Response))
    ensures Consistent(rec) ==> Evolves(rec, r.0)
    ensures Consistent(rec) ==> Consistent(r.0)
    ensures !MayExecute(rec, now) ==> r == (rec, Fault(RefusalOf(rec)))
    ensures MayExecute(rec, now) ==>
      && Edge(rec.status, Started) && Edge(Started, r.0.status)
      && r.0.starttime == Some(now)
      && (r.0.status == Done <==> work(rec.parameters).Returned?)
      && (r.0.status == Error <==> work(rec.parameters).Raised?)
      && (r.0.status == Started <==> work(rec.parameters).Interrupted?)
      && (r.0.status == Done ==> r.0.result == Some(work(rec.parameters).output) && r.0.endtime == Some(later)
                                 && r.1 == NoOp)
      && (r.0.status == Error ==> r.0.result == rec.result && r.0.endtime == rec.endtime
                                  && r.1 == Fault(ExecutionFailure))
      && (r.0.status == Started ==> r.0.result == rec.result && r.0.endtime == rec.endtime
                                    && r.1 == Fault(CutOff))
  {
    if !MayExecute(rec, now) then (rec, Fault(RefusalOf(rec)))
    else
      var running := rec.(status := Started, starttime := Some(now));
      match work(running.parameters)
      case Returned(v) => (running.(result := Some(v), status := Done, endtime := Some(later)), NoOp)
      case Raised => (running.(status := Error), Fault(ExecutionFailure))
      case Interrupted => (running, Fault(CutOff))
  }

  /** What `get_query` does for task `id`: a `showing` task is redirected to
      its result unchanged; otherwise the status page is rendered and a `done`
      task becomes `showing`. */
  function QueryStep(req: Request, id: string, rec: Record, snapshot: Option<Snapshot>, now: int): (r: (Record, Response))
    ensures Evolves(rec, r.0)
    ensures Consistent(rec) ==> Consistent(r.0)
    ensures rec.status == Showing ==> r == (rec, Redirect(RedirectFor(req, rec.verb, id, ShowResultJob)))
    ensures rec.status != Showing && Consistent(rec) ==> r.1 == Render(StatusPage(rec, snapshot, now).value)
    ensures r.0 == if rec.status == Done then rec.(status := Showing) else rec
  {
    if rec.status == Showing then (rec, Redirect(RedirectFor(req, rec.verb, id, ShowResultJob)))
    else match StatusPage(rec, snapshot, now)
      case None => (rec, Fault(MissingStartTime))
      case Some(display) => (if rec.status == Done then rec.(status := Showing) else rec, Render(display))
  }

  /** What the show-result branch of `get` does: a task that has not completed
      is refused unchanged; a completed one becomes `finished` and its stored
      parameters and output are displayed, again on every repetition. */
  function ShowResultStep(rec: Record): (r: (Record, Response))
    ensures Evolves(rec, r.0)
    ensures Consistent(rec) ==> Consistent(r.0)
    ensures !MayShowResult(rec) ==> r == (rec, Fault(InvalidState))
    ensures MayShowResult(rec) && Consistent(rec) ==>
      r == (rec.(status := Finished), ShowResult(rec.parameters, rec.result.value))
    ensures rec.status == Finished ==> r.0 == rec && ShowResultStep(r.0) == r
  {
    if !MayShowResult(rec) then (rec, Fault(InvalidState))
    else match rec.result
      case None => (rec, Fault(MissingResult))
      case Some(output) => (rec.(status := Finished), ShowResult(rec.parameters, output))
  }

  /** A `started` record whose start is 660 seconds or more in the past is
      never touched again: `get_execute` refuses it, `get_query` only renders
      its status, and the result is refused. */
  lemma {:induction false} StaleStartStays(rec: Record, work: Parameters -> Outcome, req: Request,
                                           id: string, snapshot: Option<Snapshot>, now: int, later: int)
    requires rec.status == Started && rec.starttime.Some?
    requires now - rec.starttime.value >= ExecutionTimeout
    ensures ExecuteStep(rec, work, now, later) == (rec, Fault(InvalidState))
    ensures QueryStep(req, id, rec, snapshot, now).0 == rec
    ensures ShowResultStep(rec) == (rec, Fault(InvalidState))
  {
  }

  /** Ids handed out later differ from the one handed out now. */
  lemma LaterKeysDiffer(m: nat)
    ensures forall n: nat | n > m :: KeyOf(n) != KeyOf(m)
  {
    forall n: nat | n > m ensures KeyOf(n) != KeyOf(m) {
      if KeyOf(n) == KeyOf(m) {
        DigitsInjective(n, m);
      }
    }
  }

  class LongRunningTaskHandler {
    /** The datastore: every `gaetk_LongTask` by id. */
    var store: map<string, Record>
    /** The task queue: every entry added, oldest first. */
    var queue: seq<Message>
    /** memcache: the latest progress snapshot by task id. */
    var progress: map<string, Snapshot>
    /** How many records the datastore has created so far. */
    var created: nat
    /** The class attribute `total_steps` (0 when the handler does not set it). */
    const totalSteps: int

    ghost predicate Valid()
      reads this`store, this`created
    {
      && (forall id | id in store :: Consistent(store[id]))
      && (forall n: nat | n >= created :: KeyOf(n) !in store)
    }

    /** The memcache entry of task `id`, if it is there. */
    function ProgressOf(id: string): Option<Snapshot>
      reads this`progress
    {
      if id in progress then Some(progress[id]) else None
    }

    /** Every record the request found is still there, changed only as
        `Evolves` allows. */
    ghost predicate Preserved(before: map<string, Record>)
      reads this`store
    {
      forall id | id in before :: id in store && Evolves(before[id], store[id])
    }

    constructor (totalSteps: int)
      ensures Valid()
      ensures store == map[] && queue == [] && progress == map[] && created == 0 && this.totalSteps == totalSteps
    {
      store := map[];
      queue := [];
      progress := map[];
      created := 0;
      this.totalSteps := totalSteps;
    }

    /** `log_progress`: replaces the snapshot of task `id`; a zero total
        falls back to the handler's `total_steps`. */
    method LogProgress(id: string, message: string, step: int, total: int)
      modifies this`progress
      ensures progress == old(progress)[id := Snapshot(message, step, if total != 0 then total else totalSteps)]
    {
      var steps := total;
      if steps == 0 {
        steps := totalSteps;
      }
      progress := progress[id := Snapshot(message, step, steps)];
    }

    /** The first `put` of a new entity: the datastore stores `task` under
        an id it never handed out before. */
    method PutNew(task: Record) returns (id: string)
      requires Valid() && Consistent(task)
      modifies this`store, this`created
      ensures Valid() && Preserved(old(store))
      ensures id == KeyOf(old(created)) && id !in old(store)
      ensures store == old(store)[id := task]
      ensures created == old(created) + 1
    {
      id := KeyOf(created);
      LaterKeysDiffer(created);
      store := store[id := task];
      created := created + 1;
    }

    /** `get_start`: creates a `ready` record, queues its execution, posts the
        first progress snapshot and redirects to the status page. */
    method Start(req: Request, args: seq<string>, kwargs: Parameters) returns (response: Response)
      requires Valid()
      modifies this`store, this`queue, this`progress, this`created
      ensures Valid() && Preserved(old(store))
      ensures created == old(created) + 1
      ensures var id := KeyOf(old(created));
        && id !in old(store)
        && store == old(store)[id := NewRecord(req.path, req.verb, PreparedParameters(req, args, kwargs))]
        && queue == old(queue) + [ExecutionMessage(req.path, id)]
        && progress == old(progress)[id := Snapshot("Starting", 0, totalSteps)]
        && response == Redirect(RedirectFor(req, req.verb, id, QueryJob))
    {
      var parameters := PrepareTask(req, args, kwargs);
      var task := NewRecord(req.path, req.verb, parameters);
      var id := PutNew(task);
      queue := queue + [ExecutionMessage(req.path, id)];
      LogProgress(id, "Starting", 0, 0);
      response := Redirect(RedirectFor(req, task.verb, id, QueryJob));
    }

    /** `get_execute`: checks the guard, marks the record `started`, runs the
        work on the stored parameters, then records `done` with the output or
        `error` and re-raises. */
    method Execute(id: string, work: Parameters -> Outcome, now: int, later: int) returns (response: Response)
      requires Valid() && id in store
      modifies this`store
      ensures Valid() && Preserved(old(store)) && store.Keys == old(store).Keys
      ensures var step := ExecuteStep(old(store)[id], work, now, later);
        store == old(store)[id := step.0] && response == step.1
    {
      var task := store[id];
      ghost var step := ExecuteStep(task, work, now, later);
      if !MayExecute(task, now) {
        return Fault(RefusalOf(task));
      }
      task := task.(status := Started, starttime := Some(now));
      store := store[id := task];
      var parameters := task.parameters;
      var outcome := work(parameters);
      task := store[id];
      match outcome {
        case Returned(v) =>
          task := task.(result := Some(v), status := Done, endtime := Some(later));
          assert task == step.0;
          store := store[id := task];
          response := NoOp;
        case Raised =>
          task := task.(status := Error);
          assert task == step.0;
          store := store[id := task];
          response := Fault(ExecutionFailure);
        case Interrupted =>
          // No handler runs: the record keeps the `started` write above.
          assert task == step.0;
          response := Fault(CutOff);
      }
    }

    /** `get_query`: redirects a `showing` task to its result, otherwise
        renders the status page and moves a `done` task to `showing`. */
    method Query(req: Request, id: string, now: int) returns (response: Response)
      requires Valid() && id in store
      modifies this`store
      ensures Valid() && Preserved(old(store)) && store.Keys == old(store).Keys
      ensures var step := QueryStep(req, id, old(store)[id], ProgressOf(id), now);
        store == old(store)[id := step.0] && response == step.1
    {
      var task := store[id];
      if task.status == Showing {
        return Redirect(RedirectFor(req, task.verb, id, ShowResultJob));
      }
      var display := StatusPage(task, ProgressOf(id), now);
      response := Render(display.value);
      if task.status == Done {
        store := store[id := task.(status := Showing)];
      }
    }

    /** The show-result branch of `get`: a task that has completed is marked
        `finished` and its parameters and output are displayed. */
    method ShowTaskResult(id: string) returns (response: Response)
      requires Valid() && id in store
      modifies this`store
      ensures Valid() && Preserved(old(store)) && store.Keys == old(store).Keys
      ensures var step := ShowResultStep(old(store)[id]);
        store == old(store)[id := step.0] && response == step.1
    {
      var task := store[id];
      if !MayShowResult(task) {
        return Fault(InvalidState);
      }
      var parameters := task.parameters;
      var output := task.result.value;
      task := task.(status := Finished);
      store := store[id := task];
      response := ShowResult(parameters, output);
    }

    /** `get` (and `post`, which delegates to it): routes the request. The
        clock reads `now` before the work and `later` after it; `work` stands
        for the integrator's `execute_task`. */
    method Get(req: Request, args: seq<string>, kwargs: Parameters,
               work: Parameters -> Outcome, now: int, later: int) returns (response: Response)
      requires Valid()
      modifies this
      ensures Valid() && Preserved(old(store))
      ensures var route := RouteOf(req, old(store).Keys);
        && (route.ToStart? ==>
              && KeyOf(old(created)) !in old(store)
              && store == old(store)[KeyOf(old(created)) :=
                                       NewRecord(req.path, req.verb, PreparedParameters(req, args, kwargs))]
              && queue == old(queue) + [ExecutionMessage(req.path, KeyOf(old(created)))]
              && progress == old(progress)[KeyOf(old(created)) := Snapshot("Starting", 0, totalSteps)]
              && response == Redirect(RedirectFor(req, req.verb, KeyOf(old(created)), QueryJob)))
        && (route.ToStart? ==> created == old(created) + 1)
        && (!route.ToStart? ==>
              store.Keys == old(store).Keys && queue == old(queue) && progress == old(progress)
              && created == old(created))
        && (route.ToStartingPoint? ==>
              response == Redirect(Redirection(307, route.url, [])) && store == old(store))
        && (route.ToUnknownTask? ==> response == Fault(UnknownTask) && store == old(store))
        && (route.ToNothing? ==> response == NoOp && store == old(store))
        && (route.ToExecute? ==>
              var step := ExecuteStep(old(store)[route.id], work, now, later);
              store == old(store)[route.id := step.0] && response == step.1)
        && (route.ToQuery? ==>
              var step := QueryStep(req, route.id, old(store)[route.id], old(ProgressOf(route.id)), now);
              store == old(store)[route.id := step.0] && response == step.1)
        && (route.ToShowResult? ==>
              var step := ShowResultStep(old(store)[route.id]);
              store == old(store)[route.id := step.0] && response == step.1)
    {
      var route := RouteOf(req, store.Keys);
      match route {
        case ToStart =>
          response := Start(req, args, kwargs);
        case ToExecute(id) =>
          response := Execute(id, work, now, later);
        case ToQuery(id) =>
          response := Query(req, id, now);
        case ToShowResult(id) =>
          response := ShowTaskResult(id);
        case ToNothing(_) =>
          response := NoOp;
        case ToStartingPoint(url) =>
          response := Redirect(Redirection(307, url, []));
        case ToUnknownTask =>
          response := Fault(UnknownTask);
      }
    }
  }
}
