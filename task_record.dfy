/** The `gaetk_LongTask` datastore entity and the life cycle its `status`
    follows. */
module TaskRecord {
  import opened Options
  import opened Parameters

  /** The six values the `status` property may take. */
  datatype Status = Ready | Started | Error | Done | Showing | Finished

  /** What `execute_task` returned, kept opaque as the pickled blob it is stored as. */
  type Output = string

  /** One task. Times are whole seconds; `None` is an unset property. */
  datatype Record = Record(
    path: string,
    verb: string,
    parameters: Parameters,
    result: Option<Output>,
    status: Status,
    starttime: Option<int>,
    endtime: Option<int>)

  /** The record a new task starts as. */
  function NewRecord(path: string, verb: string, parameters: Parameters): (r: Record)
    ensures r.status == Ready && r.result.None? && r.starttime.None? && r.endtime.None?
    ensures r.path == path && r.verb == verb && r.parameters == parameters
    ensures Consistent(r)
  {
    Record(path, verb, parameters, None, Ready, None, None)
  }

  /** What the handler's writes keep true of every stored record: only a task
      that never ran lacks a start time, and exactly the completed ones carry a
      result and an end time. */
  predicate Consistent(r: Record)
  {
    && (r.status == Ready <==> r.starttime.None?)
    && (r.status in {Done, Showing, Finished} <==> r.result.Some?)
    && (r.result.Some? <==> r.endtime.Some?)
  }

  /** One write of `status` that the handler performs. */
  predicate Edge(a: Status, b: Status)
  {
    || (a in {Ready, Error, Started} && b == Started)   // execution attempt begins
    || (a == Started && b in {Done, Error})              // attempt returns or raises
    || (a == Done && b == Showing)                       // status page saw completion
    || (a in {Done, Showing, Finished} && b == Finished) // result displayed
  }

  /** What one request can do to a status: nothing, one write, or the two
      writes of an execution. */
  predicate Moves(a: Status, b: Status)
  {
    a == b || Edge(a, b) || (Edge(a, Started) && Edge(Started, b))
  }

  /** The parts of a record no request changes, and the ones that only move
      forward: route, verb and parameters are fixed, a stored result is never
      replaced, and the status follows the edges above. */
  predicate Evolves(before: Record, after: Record)
  {
    && after.path == before.path
    && after.verb == before.verb
    && after.parameters == before.parameters
    && (before.result.Some? ==> after.result == before.result)
    && Moves(before.status, after.status)
  }

  /** No status leads back to `Ready`, and a completed task never runs again. */
  lemma MovesForward(a: Status, b: Status)
    requires Moves(a, b)
    ensures b == Ready ==> a == Ready
    ensures a in {Done, Showing, Finished} ==> b in {Done, Showing, Finished}
    ensures a == Finished ==> b == Finished
  {
  }
}
