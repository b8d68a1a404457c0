/**
 * The presence engine's loop: one tick as a function of the engine-local
 * state, the platform's answers, the clock and two random draws; a run as a
 * loop over ticks between its start and stop events.
 */
module Engine {
  import opened Wrappers

  /** What `rand.Intn(201)` returns. */
  type Draw = r: int | 0 <= r <= 200

  const ActivityThreshold: int := 80
  /** The suppression window, in milliseconds. */
  const PauseMillis: int := 15000
  const StopReason: string := "context_cancel"

  datatype Pos = Pos(x: int, y: int)

  datatype MoveResult = Moved | MoveFailed(error: string)

  /** The platform's answers during one tick, in call order: the cursor read, the move, the re-read. */
  datatype TickReplies = TickReplies(cursor: Option<Pos>, move: MoveResult, recheck: Option<Pos>)

  /** A call the engine makes on the platform. */
  datatype Call = CursorPos | SimulateMove(dx: int, dy: int) | SimulateKey(code: int) | PreventSleep(enable: bool)

  /** An emitted event; `Action` is the action name it is logged under. */
  datatype Event =
    | PreventSleepError(error: string)
    | EngineStart(mode: string)
    | UserActivePause(until: int)
    | MoveError(error: string)
    | MicroMove(mode: string, dx: int, dy: int)
    | EngineStop(reason: string)
  {
    function Action(): string {
      match this
      case PreventSleepError(_) => "prevent_sleep_error"
      case EngineStart(_) => "engine_start"
      case UserActivePause(_) => "user_active_pause"
      case MoveError(_) => "move_error"
      case MicroMove(_, _, _) => "micro_move"
      case EngineStop(_) => "engine_stop"
    }
  }

  /** The locals of `Run` carried across ticks; `pausedUntil` 0 is "not set". */
  datatype EngineState = EngineState(lastX: int, lastY: int, havePos: bool, pausedUntil: int)

  const Fresh: EngineState := EngineState(0, 0, false, 0)

  /** The new engine state, the events emitted and the platform calls made. */
  datatype TickResult = TickResult(state: EngineState, events: seq<Event>, calls: seq<Call>)

  function Abs(n: int): nat {
    if n < 0 then -n else n
  }

  /** `dist`: the Manhattan length of a displacement. */
  function Dist(dx: int, dy: int): (d: int)
    ensures d == Abs(dx) + Abs(dy)
    ensures d >= 0
    ensures d == 0 <==> dx == 0 && dy == 0
  {
    var x := if dx < 0 then -dx else dx;
    var y := if dy < 0 then -dy else dy;
    x + y
  }

  /** Flipping either sign does not change the distance. */
  lemma DistSignSymmetric(dx: int, dy: int)
    ensures Dist(-dx, dy) == Dist(dx, dy) && Dist(dx, -dy) == Dist(dx, dy)
  {
  }

  /**
   * The displacement drawn from two draws: each component in [-100, 100],
   * never (0, 0), which alone is replaced by (20, 0).
   */
  function Displacement(r1: Draw, r2: Draw): (d: (int, int))
    ensures -100 <= d.0 <= 100 && -100 <= d.1 <= 100
    ensures d != (0, 0)
    ensures (r1 - 100, r2 - 100) != (0, 0) ==> d == (r1 - 100, r2 - 100)
    ensures (r1 - 100, r2 - 100) == (0, 0) ==> d == (20, 0)
  {
    var dx := r1 - 100;
    var dy := r2 - 100;
    if dx == 0 && dy == 0 then (20, dy) else (dx, dy)
  }

  /** Every allowed displacement is drawn by exactly the two draws it offsets, and (20, 0) by one more. */
  lemma DisplacementOnto(dx: int, dy: int, r1: Draw, r2: Draw)
    requires -100 <= dx <= 100 && -100 <= dy <= 100 && (dx, dy) != (0, 0)
    ensures Displacement(r1, r2) == (dx, dy) <==>
      (r1, r2) == (dx + 100, dy + 100) || ((dx, dy) == (20, 0) && (r1, r2) == (100, 100))
  {
  }

  predicate Suppressed(s: EngineState, now: int) {
    s.pausedUntil != 0 && now < s.pausedUntil
  }

  /** The cursor read succeeded after an earlier one and moved more than the threshold. */
  predicate ActivityDetected(s: EngineState, platform: Option<TickReplies>) {
    && platform.Some? && platform.value.cursor.Some? && s.havePos
    && Dist(platform.value.cursor.value.x - s.lastX, platform.value.cursor.value.y - s.lastY) > ActivityThreshold
  }

  /** The first step of a tick: read the cursor and detect user activity. */
  function Observe(s: EngineState, platform: Option<TickReplies>, now: nat): (r: TickResult)
    ensures platform.None? ==> r == TickResult(s, [], [])
    ensures platform.Some? ==> r.calls == [CursorPos]
    ensures platform.Some? && platform.value.cursor.None? ==> r.state == s && r.events == []
    ensures platform.Some? && platform.value.cursor.Some? ==>
      var p := platform.value.cursor.value;
      r.state.lastX == p.x && r.state.lastY == p.y && r.state.havePos
    ensures ActivityDetected(s, platform) ==>
      r.events == [UserActivePause(now + PauseMillis)] && r.state.pausedUntil == now + PauseMillis
    ensures !ActivityDetected(s, platform) ==> r.events == [] && r.state.pausedUntil == s.pausedUntil
    ensures !s.havePos ==> r.events == []
  {
    if platform.None? then TickResult(s, [], [])
    else match platform.value.cursor
      case None => TickResult(s, [], [CursorPos])
      case Some(p) =>
        var active := s.havePos && Dist(p.x - s.lastX, p.y - s.lastY) > ActivityThreshold;
        var until := if active then now + PauseMillis else s.pausedUntil;
        var events := if active then [UserActivePause(until)] else [];
        TickResult(EngineState(p.x, p.y, true, until), events, [CursorPos])
  }

  /** The move-error event a tick emits before its micro move, if the move failed. */
  function MoveErrors(platform: Option<TickReplies>): seq<Event> {
    if platform.Some? && platform.value.move.MoveFailed? then [MoveError(platform.value.move.error)] else []
  }

  /** The calls after the cursor read of a tick that is not suppressed. */
  function MoveCalls(platform: Option<TickReplies>, d: (int, int)): seq<Call> {
    if platform.None? then []
    else if platform.value.move.Moved? then [SimulateMove(d.0, d.1), CursorPos]
    else [SimulateMove(d.0, d.1)]
  }

  /** One tick of `Run`. */
  function Tick(s: EngineState, mode: string, platform: Option<TickReplies>, now: nat, r1: Draw, r2: Draw): (r: TickResult)
    ensures var o := Observe(s, platform, now);
      Suppressed(o.state, now) ==> r == o
    ensures var o := Observe(s, platform, now);
      var d := Displacement(r1, r2);
      !Suppressed(o.state, now) ==>
        && r.events == MoveErrors(platform) + [MicroMove(mode, d.0, d.1)]
        && r.calls == o.calls + MoveCalls(platform, d)
    ensures var o := Observe(s, platform, now);
      !Suppressed(o.state, now) && platform.Some? && platform.value.move.Moved? && platform.value.recheck.Some? ==>
        var p := platform.value.recheck.value;
        r.state == o.state.(lastX := p.x, lastY := p.y, havePos := true)
    ensures var o := Observe(s, platform, now);
      (platform.None? || !platform.value.move.Moved? || platform.value.recheck.None?) ==> r.state == o.state
    ensures r.state.pausedUntil == s.pausedUntil || r.state.pausedUntil == now + PauseMillis
  {
    var o := Observe(s, platform, now);
    if Suppressed(o.state, now) then o
    else
      var d := Displacement(r1, r2);
      var st := if platform.Some? && platform.value.move.Moved? && platform.value.recheck.Some?
        then o.state.(lastX := platform.value.recheck.value.x, lastY := platform.value.recheck.value.y, havePos := true)
        else o.state;
      TickResult(st, MoveErrors(platform) + [MicroMove(mode, d.0, d.1)], o.calls + MoveCalls(platform, d))
  }

  /**
   * A tick that starts inside the window, or that opens one, emits no micro
   * move; the pause event carries the deadline the tick stores.
   */
  lemma TickSuppression(s: EngineState, mode: string, platform: Option<TickReplies>, now: nat, r1: Draw, r2: Draw)
    ensures var r := Tick(s, mode, platform, now, r1, r2);
      && (Suppressed(s, now) ==> forall i :: 0 <= i < |r.events| ==> !r.events[i].MicroMove?)
      && (forall i :: 0 <= i < |r.events| && r.events[i].UserActivePause? ==>
            && r.events[i].until == now + PauseMillis
            && r.state.pausedUntil == now + PauseMillis
            && forall j :: 0 <= j < |r.events| ==> !r.events[j].MicroMove?)
  {
    var o := Observe(s, platform, now);
    if ActivityDetected(s, platform) {
      assert Suppressed(o.state, now);
    }
  }

  predicate MovesBounded(evs: seq<Event>) {
    forall i :: 0 <= i < |evs| && evs[i].MicroMove? ==>
      -100 <= evs[i].dx <= 100 && -100 <= evs[i].dy <= 100 && (evs[i].dx, evs[i].dy) != (0, 0)
  }

  /** The platform calls a tick may make, with the displacement bounds on moves. */
  predicate CallsBounded(cs: seq<Call>) {
    forall i :: 0 <= i < |cs| ==>
      (cs[i].CursorPos? || cs[i].SimulateMove?) &&
      (cs[i].SimulateMove? ==> -100 <= cs[i].dx <= 100 && -100 <= cs[i].dy <= 100 && (cs[i].dx, cs[i].dy) != (0, 0))
  }

  lemma TickBounded(s: EngineState, mode: string, platform: Option<TickReplies>, now: nat, r1: Draw, r2: Draw)
    ensures MovesBounded(Tick(s, mode, platform, now, r1, r2).events)
    ensures CallsBounded(Tick(s, mode, platform, now, r1, r2).calls)
    ensures platform.None? ==> Tick(s, mode, platform, now, r1, r2).calls == []
  {
    var o := Observe(s, platform, now);
    var d := Displacement(r1, r2);
    var r := Tick(s, mode, platform, now, r1, r2);
    if !Suppressed(o.state, now) {
      assert r.events == MoveErrors(platform) + [MicroMove(mode, d.0, d.1)];
      assert r.calls == o.calls + MoveCalls(platform, d);
    }
  }

  lemma MovesBoundedConcat(a: seq<Event>, b: seq<Event>)
    requires MovesBounded(a) && MovesBounded(b)
    ensures MovesBounded(a + b)
  {
    forall i | 0 <= i < |a + b| && (a + b)[i].MicroMove?
      ensures -100 <= (a + b)[i].dx <= 100 && -100 <= (a + b)[i].dy <= 100 && ((a + b)[i].dx, (a + b)[i].dy) != (0, 0)
    {
      if i < |a| { assert (a + b)[i] == a[i]; } else { assert (a + b)[i] == b[i - |a|]; }
    }
  }

  lemma CallsBoundedConcat(a: seq<Call>, b: seq<Call>)
    requires CallsBounded(a) && CallsBounded(b)
    ensures CallsBounded(a + b)
  {
    forall i | 0 <= i < |a + b|
      ensures ((a + b)[i].CursorPos? || (a + b)[i].SimulateMove?) &&
        ((a + b)[i].SimulateMove? ==> -100 <= (a + b)[i].dx <= 100 && -100 <= (a + b)[i].dy <= 100 && ((a + b)[i].dx, (a + b)[i].dy) != (0, 0))
    {
      if i < |a| { assert (a + b)[i] == a[i]; } else { assert (a + b)[i] == b[i - |a|]; }
    }
  }

  /** One timer tick of a run: when it fires, what the platform answers, what `rand` draws. */
  datatype TickInput = TickInput(now: nat, r1: Draw, r2: Draw, replies: TickReplies)

  function Step(s: EngineState, mode: string, present: bool, t: TickInput): TickResult {
    Tick(s, mode, if present then Some(t.replies) else None, t.now, t.r1, t.r2)
  }

  /** Ticks one after another: the last state, all their events and all their calls, in order. */
  function Ticks(s: EngineState, mode: string, present: bool, ins: seq<TickInput>): TickResult
    decreases |ins|
  {
    if ins == [] then TickResult(s, [], [])
    else
      var done := Ticks(s, mode, present, ins[..|ins| - 1]);
      var t := Step(done.state, mode, present, ins[|ins| - 1]);
      TickResult(t.state, done.events + t.events, done.calls + t.calls)
  }

  /** The engine state before tick `k` of a run. */
  function Before(s: EngineState, mode: string, present: bool, ins: seq<TickInput>, k: nat): EngineState
    requires k <= |ins|
  {
    Ticks(s, mode, present, ins[..k]).state
  }

  /** Tick `k` of a run, from the state the earlier ticks left. */
  function TickAt(s: EngineState, mode: string, present: bool, ins: seq<TickInput>, k: nat): TickResult
    requires k < |ins|
  {
    Step(Before(s, mode, present, ins, k), mode, present, ins[k])
  }

  lemma BeforeNext(s: EngineState, mode: string, present: bool, ins: seq<TickInput>, k: nat)
    requires k < |ins|
    ensures Before(s, mode, present, ins, k + 1) == TickAt(s, mode, present, ins, k).state
  {
    assert ins[..k + 1][..k] == ins[..k];
  }

  /** Ticks fire in clock order. */
  predicate NonDecreasing(ins: seq<TickInput>) {
    forall i, j :: 0 <= i <= j < |ins| ==> ins[i].now <= ins[j].now
  }

  /** A deadline no earlier tick's own window falls short of stays covered by `pausedUntil`. */
  lemma {:induction false} DeadlineKept(s: EngineState, mode: string, present: bool, ins: seq<TickInput>, k: nat, m: nat, u: int)
    requires k <= m <= |ins|
    requires forall j :: k <= j < |ins| ==> u <= ins[j].now + PauseMillis
    requires Before(s, mode, present, ins, k).pausedUntil >= u
    ensures Before(s, mode, present, ins, m).pausedUntil >= u
    decreases m - k
  {
    if m > k {
      DeadlineKept(s, mode, present, ins, k, m - 1, u);
      BeforeNext(s, mode, present, ins, m - 1);
    }
  }

  /**
   * The suppression window: once tick `i` emits `user_active_pause` with
   * deadline `u`, no tick before `u` (tick `i` included) emits a micro move.
   */
  lemma PauseSuppressesMoves(s: EngineState, mode: string, present: bool, ins: seq<TickInput>, i: nat, j: nat, u: int)
    requires NonDecreasing(ins)
    requires i <= j < |ins|
    requires UserActivePause(u) in TickAt(s, mode, present, ins, i).events
    requires ins[j].now < u
    ensures forall e :: e in TickAt(s, mode, present, ins, j).events ==> !e.MicroMove?
  {
    var bi := Before(s, mode, present, ins, i);
    var t := TickAt(s, mode, present, ins, i);
    var k :| 0 <= k < |t.events| && t.events[k] == UserActivePause(u);
    TickSuppression(bi, mode, if present then Some(ins[i].replies) else None, ins[i].now, ins[i].r1, ins[i].r2);
    if j > i {
      BeforeNext(s, mode, present, ins, i);
      DeadlineKept(s, mode, present, ins, i + 1, j, u);
      var bj := Before(s, mode, present, ins, j);
      assert Suppressed(bj, ins[j].now);
      TickSuppression(bj, mode, if present then Some(ins[j].replies) else None, ins[j].now, ins[j].r1, ins[j].r2);
    }
  }

  /** Every micro move of a sequence of ticks is a non-zero displacement within [-100, 100]². */
  lemma {:induction false} TicksMovesBounded(s: EngineState, mode: string, present: bool, ins: seq<TickInput>)
    ensures MovesBounded(Ticks(s, mode, present, ins).events)
    decreases |ins|
  {
    if ins != [] {
      var init, last := ins[..|ins| - 1], ins[|ins| - 1];
      var done := Ticks(s, mode, present, init);
      TicksMovesBounded(s, mode, present, init);
      TickBounded(done.state, mode, if present then Some(last.replies) else None, last.now, last.r1, last.r2);
      MovesBoundedConcat(done.events, Step(done.state, mode, present, last).events);
    }
  }

  /**
   * Ticks only read the cursor and move it, and only by a non-zero
   * displacement within [-100, 100]²; without a platform they call nothing.
   */
  lemma {:induction false} TicksCalls(s: EngineState, mode: string, present: bool, ins: seq<TickInput>)
    ensures CallsBounded(Ticks(s, mode, present, ins).calls)
    ensures !present ==> Ticks(s, mode, present, ins).calls == []
    decreases |ins|
  {
    if ins != [] {
      var init, last := ins[..|ins| - 1], ins[|ins| - 1];
      var done := Ticks(s, mode, present, init);
      TicksCalls(s, mode, present, init);
      TickBounded(done.state, mode, if present then Some(last.replies) else None, last.now, last.r1, last.r2);
      CallsBoundedConcat(done.calls, Step(done.state, mode, present, last).calls);
    }
  }

  /** The micro moves a run emits without a platform: one per tick, from that tick's draws. */
  function HeadlessMoves(mode: string, ins: seq<TickInput>): seq<Event>
    decreases |ins|
  {
    if ins == [] then []
    else
      var last := ins[|ins| - 1];
      var d := Displacement(last.r1, last.r2);
      HeadlessMoves(mode, ins[..|ins| - 1]) + [MicroMove(mode, d.0, d.1)]
  }

  /** Without a platform nothing is read or suppressed: every tick emits exactly its micro move. */
  lemma {:induction false} HeadlessTicks(s: EngineState, mode: string, ins: seq<TickInput>)
    requires s.pausedUntil == 0
    ensures Ticks(s, mode, false, ins).events == HeadlessMoves(mode, ins)
    ensures |HeadlessMoves(mode, ins)| == |ins|
    ensures Ticks(s, mode, false, ins).state == s
    ensures Ticks(s, mode, false, ins).calls == []
    decreases |ins|
  {
    if ins != [] {
      HeadlessTicks(s, mode, ins[..|ins| - 1]);
    }
  }

  /** What a run emits and what it asks of the platform. */
  datatype RunResult = RunResult(events: seq<Event>, calls: seq<Call>)

  /**
   * A run: with a platform, enable sleep prevention (reporting a failure),
   * then `engine_start`, the ticks, `engine_stop`, and on the way out the
   * deferred `PreventSleep(false)`.
   */
  function RunSpec(mode: string, present: bool, sleepError: Option<string>, ins: seq<TickInput>): (r: RunResult)
    ensures var k := if present && sleepError.Some? then 1 else 0;
      && |r.events| >= k + 2
      && (k == 1 ==> r.events[0] == PreventSleepError(sleepError.value))
      && r.events[k] == EngineStart(mode)
      && r.events[|r.events| - 1] == EngineStop(StopReason)
      && r.events[k + 1..|r.events| - 1] == Ticks(Fresh, mode, present, ins).events
    ensures present ==>
      && |r.calls| >= 2
      && r.calls[0] == PreventSleep(true) && r.calls[|r.calls| - 1] == PreventSleep(false)
      && r.calls[1..|r.calls| - 1] == Ticks(Fresh, mode, present, ins).calls
    ensures !present ==> r.calls == Ticks(Fresh, mode, present, ins).calls
  {
    var t := Ticks(Fresh, mode, present, ins);
    var pre := if present && sleepError.Some? then [PreventSleepError(sleepError.value)] else [];
    var events := pre + [EngineStart(mode)] + t.events + [EngineStop(StopReason)];
    var calls := if present then [PreventSleep(true)] + t.calls + [PreventSleep(false)] else t.calls;
    RunResult(events, calls)
  }

  /** Every micro move a run emits is a non-zero displacement within [-100, 100]². */
  lemma RunMovesBounded(mode: string, present: bool, sleepError: Option<string>, ins: seq<TickInput>)
    ensures MovesBounded(RunSpec(mode, present, sleepError, ins).events)
  {
    var t := Ticks(Fresh, mode, present, ins);
    TicksMovesBounded(Fresh, mode, present, ins);
    var pre := if present && sleepError.Some? then [PreventSleepError(sleepError.value)] else [];
    MovesBoundedConcat(pre + [EngineStart(mode)], t.events);
    MovesBoundedConcat(pre + [EngineStart(mode)] + t.events, [EngineStop(StopReason)]);
  }

  /**
   * With a platform, sleep prevention is switched on first and off last and
   * never in between, and the calls between are bounded reads and moves;
   * without one, a run makes no platform call at all.
   */
  lemma RunCalls(mode: string, present: bool, sleepError: Option<string>, ins: seq<TickInput>)
    ensures var cs := RunSpec(mode, present, sleepError, ins).calls;
      && (present ==> |cs| >= 2 && cs[0] == PreventSleep(true) && cs[|cs| - 1] == PreventSleep(false)
                      && CallsBounded(cs[1..|cs| - 1]))
      && (!present ==> cs == [])
  {
    TicksCalls(Fresh, mode, present, ins);
  }

  /**
   * The action names a run logs through `emit`: `engine_start` after the
   * optional `prevent_sleep_error`, and `engine_stop` last.
   */
  lemma RunActionNames(mode: string, present: bool, sleepError: Option<string>, ins: seq<TickInput>)
    ensures var es := RunSpec(mode, present, sleepError, ins).events;
      var k := if present && sleepError.Some? then 1 else 0;
      && |es| >= k + 2
      && (k == 1 ==> es[0].Action() == "prevent_sleep_error")
      && es[k].Action() == "engine_start"
      && es[|es| - 1].Action() == "engine_stop"
  {
  }

  /** The `for`/`select` loop of `Run`: one tick per timer fire, in order. */
  method Loop(mode: string, present: bool, ins: seq<TickInput>) returns (events: seq<Event>, calls: seq<Call>)
    ensures events == Ticks(Fresh, mode, present, ins).events
    ensures calls == Ticks(Fresh, mode, present, ins).calls
  {
    events, calls := [], [];
    var st := Fresh;
    var i := 0;
    while i < |ins|
      invariant 0 <= i <= |ins|
      invariant Ticks(Fresh, mode, present, ins[..i]) == TickResult(st, events, calls)
    {
      var t := Step(st, mode, present, ins[i]);
      assert ins[..i + 1][..i] == ins[..i];
      st := t.state;
      events := events + t.events;
      calls := calls + t.calls;
      i := i + 1;
    }
    assert ins[..|ins|] == ins;
  }

  /**
   * `Run`: sleep prevention and `engine_start`, the loop, then, once the
   * context is cancelled after the last tick, `engine_stop` and the deferred
   * `PreventSleep(false)`.
   */
  method Run(mode: string, present: bool, sleepError: Option<string>, ins: seq<TickInput>)
    returns (events: seq<Event>, calls: seq<Call>)
    ensures RunResult(events, calls) == RunSpec(mode, present, sleepError, ins)
  {
    events, calls := [], [];
    if present {
      calls := calls + [PreventSleep(true)];
      if sleepError.Some? {
        events := events + [PreventSleepError(sleepError.value)];
      }
    }
    events := events + [EngineStart(mode)];
    var tickEvents, tickCalls := Loop(mode, present, ins);
    events := events + tickEvents + [EngineStop(StopReason)];
    calls := calls + tickCalls;
    if present {
      calls := calls + [PreventSleep(false)];
    }
  }
}
