/** The status page `get_query` renders, as the facts it shows rather than as
    HTML: which message, how soon the page reloads, and which progress bar. */
module StatusDisplay {
  import opened Options
  import opened TaskRecord

  /** The memcache entry `log_progress` writes: message, step, total_steps. */
  datatype Snapshot = Snapshot(message: string, step: int, totalSteps: int)

  /** The message of the page. */
  datatype Info =
    | Generic(status: Status)                       // 'Status: %s'
    | Completed                                     // finished, being shown
    | Waiting                                       // waiting for the start
    | Retrying                                      // failed, will be retried
    | Running(message: Option<string>, elapsed: int) // snapshot message and seconds running

  /** The `<progress>` element of the page, if any. */
  datatype Bar = NoBar | Indeterminate | Determinate(step: int, total: int, percent: int)

  /** The `display` dict handed to `render_status`. */
  datatype Display = Display(info: Info, refresh: int, bar: Bar)

  /** Seconds between two automatic reloads of a pending status page. */
  const PollInterval := 3

  function Abs(x: int): nat
  {
    if x < 0 then -x else x
  }

  /** `int(a * 1.0 / b)`: the quotient truncated toward zero. */
  function TruncDiv(a: int, b: int): (q: int)
    requires b != 0
    ensures Abs(q) * Abs(b) <= Abs(a) < (Abs(q) + 1) * Abs(b)
    ensures q > 0 ==> (a > 0) == (b > 0)
    ensures q < 0 ==> (a > 0) != (b > 0)
  {
    var m := Abs(a) / Abs(b);
    DivBounds(Abs(a), Abs(b));
    if (a < 0) == (b < 0) then m else -m
  }

  lemma DivBounds(x: nat, y: nat)
    requires y > 0
    ensures x / y >= 0
    ensures (x / y) * y <= x < (x / y + 1) * y
  {
    var m, r := x / y, x % y;
    assert x == m * y + r && 0 <= r < y;
    assert (m + 1) * y == m * y + y;
  }

  /** The percentage the progress bar shows. */
  function Percent(step: int, totalSteps: int): int
    requires totalSteps != 0
  {
    TruncDiv(step * 100, totalSteps)
  }

  /** For a step within its total the percentage is between 0 and 100, it is
      0 at the first step and 100 at the last. */
  lemma {:induction false} PercentBounds(step: int, totalSteps: int)
    requires 0 <= step <= totalSteps && totalSteps != 0
    ensures 0 <= Percent(step, totalSteps) <= 100
    ensures step == 0 ==> Percent(step, totalSteps) == 0
    ensures step == totalSteps ==> Percent(step, totalSteps) == 100
  {
    var a := step * 100;
    var p := Percent(step, totalSteps);
    MulMonotone(step, totalSteps, 100);
    assert 0 <= a <= 100 * totalSteps;
    assert p * totalSteps <= a < (p + 1) * totalSteps;
    CancelLe(p, 100, totalSteps);
    if step == totalSteps {
      CancelLt(100, p, totalSteps);
    }
  }

  lemma MulMonotone(x: int, y: int, z: nat)
    requires x <= y
    ensures x * z <= y * z
  {
    assert y * z - x * z == (y - x) * z;
  }

  /** Cancelling a positive factor on both sides of `<=`. */
  lemma CancelLe(x: int, y: int, z: int)
    requires z > 0 && x * z <= y * z
    ensures x <= y
  {
    if x > y {
      MulMonotone(y + 1, x, z);
      assert false;
    }
  }

  /** Cancelling a positive factor on both sides of `<`. */
  lemma CancelLt(x: int, y: int, z: int)
    requires z > 0 && x * z < (y + 1) * z
    ensures x <= y
  {
    if x > y {
      MulMonotone(y + 1, x, z);
      assert false;
    }
  }

  /** The display `get_query` builds for `rec`, given the memcache snapshot (if
      any) and the current time; `None` where the source would fail on a
      `started` record without a start time. */
  function StatusPage(rec: Record, snapshot: Option<Snapshot>, now: int): (r: Option<Display>)
    ensures r.None? <==> rec.status == Started && rec.starttime.None?
    ensures Consistent(rec) ==> r.Some?
    ensures r.Some? ==> (r.value.refresh == 0 <==> rec.status == Done)
    ensures r.Some? && rec.status != Done ==> r.value.refresh == PollInterval
    ensures r.Some? ==> (r.value.info == Completed <==> rec.status == Done)
    ensures r.Some? ==> (r.value.info == Waiting <==> rec.status == Ready)
    ensures r.Some? ==> (r.value.info == Retrying <==> rec.status == Error)
    ensures r.Some? ==> (r.value.info.Running? <==> rec.status == Started)
    ensures r.Some? && rec.status in {Showing, Finished} ==> r.value.info == Generic(rec.status)
    ensures r.Some? ==> (r.value.bar.NoBar? <==> rec.status !in {Started, Done})
    ensures r.Some? && rec.status == Started ==>
      && r.value.info == Running(if snapshot.Some? then Some(snapshot.value.message) else None,
                                 now - rec.starttime.value)
      && (r.value.bar.Indeterminate? <==> snapshot.None? || snapshot.value.totalSteps == 0)
    ensures r.Some? && r.value.bar.Determinate? ==>
      && rec.status == Started && snapshot.Some?
      && r.value.bar.step == snapshot.value.step
      && r.value.bar.total == snapshot.value.totalSteps != 0
      && r.value.bar.percent == Percent(r.value.bar.step, r.value.bar.total)
      && Abs(r.value.bar.percent) * Abs(r.value.bar.total) <= Abs(r.value.bar.step * 100)
      && Abs(r.value.bar.step * 100) < (Abs(r.value.bar.percent) + 1) * Abs(r.value.bar.total)
  {
    match rec.status
    case Done => Some(Display(Completed, 0, Indeterminate))
    case Ready => Some(Display(Waiting, PollInterval, NoBar))
    case Error => Some(Display(Retrying, PollInterval, NoBar))
    case Started =>
      if rec.starttime.None? then None
      else
        var message := if snapshot.Some? then Some(snapshot.value.message) else None;
        var bar :=
          if snapshot.Some? && snapshot.value.totalSteps != 0
          then Determinate(snapshot.value.step, snapshot.value.totalSteps,
                           Percent(snapshot.value.step, snapshot.value.totalSteps))
          else Indeterminate;
        Some(Display(Running(message, now - rec.starttime.value), PollInterval, bar))
    case Showing => Some(Display(Generic(Showing), PollInterval, NoBar))
    case Finished => Some(Display(Generic(Finished), PollInterval, NoBar))
  }
}
