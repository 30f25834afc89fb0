/** The two clocks a test freezes, Python's and Postgres's. A move writes them one after the other and
    can be interrupted between any two writes; Postgres must never end up ahead of Python. */
module FrozenClock {
  import opened Wrappers

  /** What each clock is held at. Postgres holds its instant twice: as the database's default, which new
      sessions read, and on Django's own session. `None` is real time. */
  datatype Clocks = Clocks(python: Option<int>, database: Option<int>, session: Option<int>)

  const REAL := Clocks(None, None, None)
  const WRITES: nat := 3

  predicate HeldAtOrBefore(half: Option<int>, instant: int) {
    half.Some? && half.value <= instant
  }

  /** All clocks are held and neither Postgres half is ahead of Python. */
  predicate Behind(c: Clocks) {
    c.python.Some? && HeldAtOrBefore(c.database, c.python.value) && HeldAtOrBefore(c.session, c.python.value)
  }

  predicate InStep(c: Clocks, instant: int) {
    c == Clocks(Some(instant), Some(instant), Some(instant))
  }

  datatype Order = PythonFirst | PostgresFirst

  /** The clocks after the first `written` of a move's three writes, in an order. */
  function Wrote(c: Clocks, instant: int, order: Order, written: nat): Clocks {
    match order
    case PythonFirst =>
      Clocks(if written > 0 then Some(instant) else c.python,
             if written > 1 then Some(instant) else c.database,
             if written > 2 then Some(instant) else c.session)
    case PostgresFirst =>
      Clocks(if written > 2 then Some(instant) else c.python,
             if written > 0 then Some(instant) else c.database,
             if written > 1 then Some(instant) else c.session)
  }

  function OrderFor(instant: int, current: int): Order {
    if instant < current then PostgresFirst else PythonFirst
  }

  /** Why the order must flip with the direction: from clocks in step, an order keeps Postgres behind at
      every interruption point exactly when it is the one the move's direction picks, or nothing moves. */
  lemma OrderIsForced(current: int, instant: int, order: Order)
    ensures var c := Clocks(Some(current), Some(current), Some(current));
      (forall written: nat :: Behind(Wrote(c, instant, order, written)))
      <==> order == OrderFor(instant, current) || instant == current
  {
    var c := Clocks(Some(current), Some(current), Some(current));
    if order != OrderFor(instant, current) && instant != current {
      assert !Behind(Wrote(c, instant, order, 1));
    }
  }

  /** A destination handed to a mover, whether it carries an offset, whether the database and
      time-machine guards let it through, and how many of its writes go through. */
  datatype Move = Move(when: int, aware: bool, allowed: bool, written: nat)
  {
    predicate Accepted() {
      aware && allowed
    }
  }

  /** What a test does inside a window. A test may swallow a failed act and go on. */
  datatype Act =
    | MoveAct(move: Move)
    | ShiftAct(delta: int, allowed: bool, written: nat)
    | NestedFreeze(instant: Option<Move>)

  /** What an act leaves on the clocks of an open window. */
  function Perform(c: Clocks, act: Act): (r: Clocks)
    requires c.python.Some?
    ensures r.python.Some?
  {
    var now := c.python.value;
    match act
    case MoveAct(move) => if move.Accepted() then Wrote(c, move.when, OrderFor(move.when, now), move.written) else c
    case ShiftAct(delta, allowed, written) => if allowed then Wrote(c, now + delta, OrderFor(now + delta, now), written) else c
    case NestedFreeze(_) => c
  }

  function Course(c: Clocks, body: seq<Act>): seq<Clocks>
    requires c.python.Some?
    decreases |body|
  {
    if body == [] then [c] else [c] + Course(Perform(c, body[0]), body[1..])
  }

  /** Whatever a body does and wherever its moves are cut, Postgres is at or behind Python after every
      act, and any move that completes brings all clocks to one instant. */
  lemma {:induction false} PostgresNeverLeads(c: Clocks, body: seq<Act>)
    requires Behind(c)
    decreases |body|
    ensures var course := Course(c, body);
      && |course| == |body| + 1
      && (forall i | 0 <= i <= |body| :: Behind(course[i]))
      && (forall i | 0 <= i < |body| :: course[i + 1] == Perform(course[i], body[i]))
      && (forall i | 0 <= i < |body| && body[i].MoveAct? && body[i].move.Accepted() && body[i].move.written >= WRITES ::
            InStep(course[i + 1], body[i].move.when))
  {
    if body != [] {
      PostgresNeverLeads(Perform(c, body[0]), body[1..]);
      var course, rest := Course(c, body), Course(Perform(c, body[0]), body[1..]);
      assert forall i | 1 <= i <= |body| :: course[i] == rest[i - 1];
      assert forall i | 1 <= i < |body| :: body[i] == body[1..][i - 1];
    }
  }

  /*******************************************************************************
   *  The runtime
   *******************************************************************************/

  class TestRuntime {
    /** `time_travel` and `traveller`, which are set and cleared together. */
    var travelling: bool
    var clocks: Clocks

    constructor ()
      ensures !travelling && clocks == REAL
    {
      travelling := false;
      clocks := REAL;
    }

    method MovePythonClock(instant: int)
      modifies this
      ensures travelling && clocks == old(clocks).(python := Some(instant))
    {
      clocks := clocks.(python := Some(instant));
      travelling := true;
    }

    /** The two levels Postgres is written at, of which the first `written` go through. */
    method WriteFakeNow(instant: int, written: nat)
      modifies this`clocks
      ensures clocks == old(clocks).(database := if written > 0 then Some(instant) else old(clocks.database),
                                     session := if written > 1 then Some(instant) else old(clocks.session))
    {
      if written > 0 {
        clocks := clocks.(database := Some(instant));
      }
      if written > 1 {
        clocks := clocks.(session := Some(instant));
      }
    }

    /** `_apply_clock_move`. `current` is the one reading that decides the direction. */
    method ApplyClockMove(move: Move, current: int) returns (ok: bool)
      modifies this
      ensures ok <==> move.Accepted() && move.written >= WRITES
      ensures !move.Accepted() ==> clocks == old(clocks) && travelling == old(travelling)
      ensures move.Accepted() ==>
                && clocks == Wrote(old(clocks), move.when, OrderFor(move.when, current), move.written)
                && (travelling <==> old(travelling) || move.written > if move.when < current then 2 else 0)
      ensures ok ==> travelling && InStep(clocks, move.when)
      ensures old(Behind(clocks)) && old(clocks.python) == Some(current) ==> Behind(clocks)
    {
      if !move.aware || !move.allowed {
        return false;
      }
      if move.when < current {
        WriteFakeNow(move.when, move.written);
        if move.written < WRITES {
          return false;
        }
        MovePythonClock(move.when);
      } else {
        if move.written == 0 {
          return false;
        }
        MovePythonClock(move.when);
        WriteFakeNow(move.when, move.written - 1);
        if move.written < WRITES {
          return false;
        }
      }
      ok := true;
    }

    /** `_release_clock`. `stops` is whether stopping Python's clock returns rather than raises. */
    method ReleaseClock(stops: bool) returns (ok: bool)
      modifies this
      ensures !travelling
      ensures !old(travelling) ==> ok && clocks == old(clocks)
      ensures old(travelling) ==> ok == stops && clocks == Clocks(if stops then None else old(clocks.python), None, None)
    {
      if !travelling {
        return true;
      }
      travelling := false;
      if stops {
        clocks := clocks.(python := None);
      }
      clocks := clocks.(database := None, session := None);
      ok := stops;
    }
  }

  /** The handle a window yields, with the window's own open flag. */
  class FrozenTime {
    const runtime: TestRuntime
    var windowOpen: bool

    constructor (runtime: TestRuntime)
      ensures this.runtime == runtime && windowOpen
    {
      this.runtime := runtime;
      windowOpen := true;
    }

    /** `move_within_window`: refused, changing nothing, once the window has closed. */
    method MoveWithinWindow(move: Move, current: int) returns (ok: bool)
      modifies runtime
      ensures !windowOpen ==> !ok && runtime.clocks == old(runtime.clocks) && runtime.travelling == old(runtime.travelling)
      ensures windowOpen && !move.Accepted() ==>
                !ok && runtime.clocks == old(runtime.clocks) && runtime.travelling == old(runtime.travelling)
      ensures windowOpen && move.Accepted() ==>
                && runtime.clocks == Wrote(old(runtime.clocks), move.when, OrderFor(move.when, current), move.written)
                && (ok <==> move.written >= WRITES)
                && (ok ==> runtime.travelling)
                && (runtime.travelling <==> old(runtime.travelling) || move.written > if move.when < current then 2 else 0)
    {
      if !windowOpen {
        return false;
      }
      ok := runtime.ApplyClockMove(move, current);
    }

    /** `move_to`. `now` is what Python's clock reads: the instant it is held at, if it is held. */
    method MoveTo(move: Move, now: int) returns (ok: bool)
      requires runtime.clocks.python.Some? ==> now == runtime.clocks.python.value
      modifies runtime
      ensures ok <==> windowOpen && move.Accepted() && move.written >= WRITES
      ensures ok ==> InStep(runtime.clocks, move.when)
      ensures windowOpen && old(runtime.clocks.python.Some?) ==>
                runtime.clocks == Perform(old(runtime.clocks), MoveAct(move))
      ensures windowOpen && old(Behind(runtime.clocks)) ==> Behind(runtime.clocks)
      ensures old(runtime.travelling) ==> runtime.travelling
      ensures !windowOpen ==> runtime.clocks == old(runtime.clocks) && runtime.travelling == old(runtime.travelling)
    {
      ok := MoveWithinWindow(move, now);
    }

    /** `shift`: the destination is measured from the same reading that decides the direction. */
    method Shift(delta: int, allowed: bool, written: nat, now: int) returns (ok: bool)
      requires runtime.clocks.python.Some? ==> now == runtime.clocks.python.value
      modifies runtime
      ensures ok <==> windowOpen && allowed && written >= WRITES
      ensures ok ==> InStep(runtime.clocks, now + delta)
      ensures windowOpen && old(runtime.clocks.python.Some?) ==>
                runtime.clocks == Perform(old(runtime.clocks), ShiftAct(delta, allowed, written))
      ensures windowOpen && old(Behind(runtime.clocks)) ==> Behind(runtime.clocks)
      ensures old(runtime.travelling) ==> runtime.travelling
      ensures !windowOpen ==> runtime.clocks == old(runtime.clocks) && runtime.travelling == old(runtime.travelling)
    {
      ok := MoveWithinWindow(Move(now + delta, true, allowed, written), now);
    }
  }

  /*******************************************************************************
   *  The window
   *******************************************************************************/

  /** An entry that writes a Postgres half and then never reaches Python's clock. */
  predicate LeaksPostgres(entry: Move, current: int) {
    entry.Accepted() && entry.when < current && 0 < entry.written < WRITES
  }

  /** `freeze_time` around a body: `current` is the reading at entry, `stops` as for the release, and
      `seen` what the clocks held at entry and after each act. */
  method FreezeTime(runtime: TestRuntime, instant: Option<Move>, current: int, entryAllowed: bool, entryWritten: nat,
                    body: seq<Act>, stops: bool)
    returns (entered: bool, seen: seq<Clocks>, handle: Option<FrozenTime>)
    modifies runtime
    ensures old(runtime.travelling) ==>
              !entered && handle.None? && runtime.travelling && runtime.clocks == old(runtime.clocks)
    ensures !old(runtime.travelling) ==>
              var entry := EntryMove(instant, current, entryAllowed, entryWritten);
              && (entered <==> entry.Accepted() && entry.written >= WRITES)
              && (instant.None? ==> (entered <==> entryAllowed && entryWritten >= WRITES) && !LeaksPostgres(entry, current))
              && (entered ==> seen != [] && InStep(seen[0], if instant.Some? then instant.value.when else current))
              && !runtime.travelling
              && handle.Some? && !handle.value.windowOpen && handle.value.runtime == runtime
              && (if entered then seen == Course(Clocks(Some(entry.when), Some(entry.when), Some(entry.when)), body) else seen == [])
              && (old(runtime.clocks) == REAL && stops ==> (runtime.clocks == REAL <==> !LeaksPostgres(entry, current)))
              && (old(runtime.clocks) == REAL && LeaksPostgres(entry, current) ==>
                    runtime.clocks == Wrote(REAL, entry.when, PostgresFirst, entry.written))
              && (old(runtime.clocks) == REAL && !LeaksPostgres(entry, current) ==>
                    runtime.clocks.database.None? && runtime.clocks.session.None?)
    ensures forall c | c in seen :: Behind(c)
    decreases |body|, 1
  {
    entered, seen, handle := false, [], None;
    if runtime.travelling {
      return;
    }
    var window := new FrozenTime(runtime);
    var entry := EntryMove(instant, current, entryAllowed, entryWritten);
    entered := window.MoveWithinWindow(entry, current);
    if entered {
      seen := RunBody(window, body);
    }
    window.windowOpen := false;
    var _ := runtime.ReleaseClock(stops);
    handle := Some(window);
  }

  /** No instant means the reading itself, so a bare freeze counts as a forward move. */
  function EntryMove(instant: Option<Move>, current: int, allowed: bool, written: nat): Move {
    match instant
    case None => Move(current, true, allowed, written)
    case Some(move) => move
  }

  method RunBody(window: FrozenTime, body: seq<Act>) returns (seen: seq<Clocks>)
    requires window.windowOpen && window.runtime.travelling && Behind(window.runtime.clocks)
    modifies window.runtime
    ensures window.runtime.travelling
    ensures seen == Course(old(window.runtime.clocks), body) && window.runtime.clocks == seen[|seen| - 1]
    ensures forall c | c in seen :: Behind(c)
    decreases |body|, 0
  {
    PostgresNeverLeads(window.runtime.clocks, body);
    seen := [window.runtime.clocks];
    for i := 0 to |body|
      invariant window.windowOpen && window.runtime.travelling && Behind(window.runtime.clocks)
      invariant seen == Course(old(window.runtime.clocks), body)[..i + 1] && seen[i] == window.runtime.clocks
    {
      match body[i] {
        case MoveAct(move) =>
          var _ := window.MoveTo(move, window.runtime.clocks.python.value);
        case ShiftAct(delta, allowed, written) =>
          var _ := window.Shift(delta, allowed, written, window.runtime.clocks.python.value);
        case NestedFreeze(instant) =>
          var _, _, _ := FreezeTime(window.runtime, instant, window.runtime.clocks.python.value, true, WRITES, [], true);
      }
      seen := seen + [window.runtime.clocks];
    }
  }

  /** From real time, a freeze entered an hour back whose Python start fails leaves Postgres frozen after
      the block, with no open freeze left to release. */
  method LeakingEntry() returns (runtime: TestRuntime)
    ensures !runtime.travelling && runtime.clocks.python.None?
    ensures runtime.clocks.database == Some(0) && runtime.clocks.session == Some(0)
  {
    runtime := new TestRuntime();
    var entered, seen, handle := FreezeTime(runtime, Some(Move(0, true, true, 2)), 3600, true, WRITES, [], true);
  }
}
