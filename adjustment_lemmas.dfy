/**
  Properties of the adjustment that relate several operations: repeated
  calls, the five setters inside set_valuesx, a whole interpolation run,
  and every state reachable from a constructed, non-elastic adjustment.
 */
module AdjustmentLemmas {
  import opened FixedMath
  import opened AdjustmentState

  /** Setting the same value twice: the second call changes nothing and notifies nothing. */
  lemma SetValuexIdempotent(s: State, v: int)
    ensures SetValuex(SetValuex(s, v), v) == SetValuex(s, v)
  {
  }

  /** Stopping twice is stopping once; with no run, stopping does nothing. */
  lemma StopInterpolationIdempotent(s: State)
    ensures StopInterpolation(StopInterpolation(s)) == StopInterpolation(s)
    ensures !s.running ==> StopInterpolation(s) == s
  {
  }

  /**
    Every direct write cancels the active run: after set_valuex,
    clamp_pagex, set_valuesx and interpolatex with at most one frame, no run
    remains.
   */
  lemma DirectWritesCancelRun(s: State, v: int, lo: int, hi: int, l: int, u: int, st: int, pi: int, ps: int, n: nat, fps: nat)
    ensures !SetValuex(s, v).running
    ensures !ClampPagex(s, lo, hi).running
    ensures !SetValuesx(s, v, l, u, st, pi, ps).running
    ensures n <= 1 ==> !Interpolatex(s, v, n, fps).running
  {
  }

  /** The log never loses entries through the five range setters. */
  lemma {:induction false} SetRangeExtendsLog(s: State, lower: int, upper: int, step: int, pageInc: int, pageSize: int)
    ensures s.log <= SetRange(s, lower, upper, step, pageInc, pageSize).state.log
  {
    var u1 := SetLower(s, lower);
    var u2 := SetUpper(u1.state, upper);
    var u3 := SetStepIncrement(u2.state, step);
    var u4 := SetPageIncrement(u3.state, pageInc);
    var u5 := SetPageSize(u4.state, pageSize);
    assert s.log <= u1.state.log;
    assert u1.state.log <= u2.state.log;
    assert u2.state.log <= u3.state.log;
    assert u3.state.log <= u4.state.log;
    assert u4.state.log <= u5.state.log;
  }

  /**
    After construction, once the five setters have run and the final page
    fits between the final bounds, the value is in the final window,
    provided that held of the starting state whenever its page fitted.
   */
  lemma {:induction false} SetRangeKeepsWindow(s: State, lower: int, upper: int, step: int, pageInc: int, pageSize: int)
    requires !s.constructing
    requires WellFormed(s) ==> InWindow(s)
    ensures var r := SetRange(s, lower, upper, step, pageInc, pageSize).state;
              WellFormed(r) ==> InWindow(r)
  {
    var u1 := SetLower(s, lower);
    var u2 := SetUpper(u1.state, upper);
    var u3 := SetStepIncrement(u2.state, step);
    var u4 := SetPageIncrement(u3.state, pageInc);
    var u5 := SetPageSize(u4.state, pageSize);
    assert SetRange(s, lower, upper, step, pageInc, pageSize).state == u5.state;
    if WellFormed(u5.state) && !u5.changed {
      if u2.changed {
        assert InWindow(u2.state);
      } else if u1.changed {
        assert InWindow(u1.state);
      } else {
        assert u1.state == s;
      }
    }
  }

  /**
    The intended set_valuesx after construction and not elastic, from a
    state whose value is in the window whenever the page fits: if the new
    page fits between the new bounds, the value afterwards is the requested
    value clamped into the new window.
   */
  lemma {:induction false} SetValuesxClamps(s: State, value: int, lower: int, upper: int, step: int, pageInc: int, pageSize: int)
    requires Clamping(s)
    requires WellFormed(s) ==> InWindow(s)
    requires lower + pageSize <= upper
    ensures SetValuesxIntended(s, value, lower, upper, step, pageInc, pageSize).value == Clamp(value, lower, upper - pageSize)
  {
    var s0 := StopInterpolation(s);
    SetRangeKeepsWindow(s0, lower, upper, step, pageInc, pageSize);
  }

  /**
    The intended set_valuesx ends with a "changed" emission exactly when it
    stored something; when every field already held the requested number
    nothing is logged at all.
   */
  lemma {:induction false} SetValuesxSignals(s: State, value: int, lower: int, upper: int, step: int, pageInc: int, pageSize: int)
    ensures var r := SetValuesxIntended(s, value, lower, upper, step, pageInc, pageSize);
              if SameValues(s, value, lower, upper, step, pageInc, pageSize) then r.log == s.log
              else s.log < r.log && r.log[|r.log| - 1] == ChangedSignal
  {
    var s0 := StopInterpolation(s);
    SetRangeExtendsLog(s0, lower, upper, step, pageInc, pageSize);
  }

  /**
    set_valuesx as written stores the range numbers shifted left by 16 bits:
    asked for bounds 0 and 100, step 1, page increment 10 and page size 10
    (all in fixed point), it stores an upper bound of 100 * 2^32, far past
    any 32-bit ClutterFixed, where the intended call stores 100 * 2^16.
   */
  lemma SetValuesxScalesRange()
    ensures var s := Construct(0, 0, IntToFixed(100), 0, 0, IntToFixed(10), false);
            var r := SetValuesx(s, IntToFixed(10), 0, IntToFixed(100), IntToFixed(1), IntToFixed(10), IntToFixed(10));
            var i := SetValuesxIntended(s, IntToFixed(10), 0, IntToFixed(100), IntToFixed(1), IntToFixed(10), IntToFixed(10));
              && r.upper == 100 * 0x1_0000_0000 && r.upper > 0x7fff_ffff
              && r.stepIncrement == 0x1_0000_0000 && r.pageSize == 10 * 0x1_0000_0000
              && i.upper == IntToFixed(100) && i.pageSize == IntToFixed(10) && i.value == IntToFixed(10)
  {
  }

  /** A frame of the timeline: its number, and the eased position used in elastic mode. */
  datatype Frame = Frame(number: int, eased: int)

  /** The run after the timeline has delivered `frames` in order. */
  function RunFrames(s: State, frames: seq<Frame>): (r: State)
    requires s.running
    ensures r.running && SameSettings(s, r)
    ensures s.log <= r.log
    ensures Clamping(s) && frames != [] ==> s.lower <= r.value <= Max(s.lower, s.upper - s.pageSize)
    ensures !Clamping(s) && frames != [] ==> r.value == FramePosition(s, frames[|frames| - 1].number, frames[|frames| - 1].eased)
    decreases |frames|
  {
    if frames == [] then s
    else RunFrames(NewFrame(s, frames[0].number, frames[0].eased), frames[1..])
  }

  /**
    However many frames are delivered, and whatever they ask for, the value
    get_valuex reports while the run lasts is the run's target pulled into
    the window, and it never changes.
   */
  lemma {:induction false} ReportedValueFixedDuringRun(s: State, target: int, n: nat, fps: nat, frames: seq<Frame>)
    requires n > 1
    ensures var r := Interpolatex(s, target, n, fps);
              GetValuex(RunFrames(r, frames)) == GetValuex(r) == Max(s.lower, Min(s.upper - s.pageSize, target))
  {
  }

  /**
    Interpolation landing: whatever frames arrive before completion, the
    value afterwards is what set_valuex(target) would have stored from the
    starting state, no run remains, and get_valuex reports that value.
   */
  lemma {:induction false} InterpolationLands(s: State, target: int, n: nat, fps: nat, frames: seq<Frame>)
    requires n > 1
    ensures var done := Completed(RunFrames(Interpolatex(s, target, n, fps), frames));
              && !done.running
              && done.value == StoredValue(s, target)
              && done.value == SetValuex(s, target).value
              && GetValuex(done) == done.value
              && SameSettings(s.(dx := done.dx, oldPosition := s.value, newPosition := target), done)
  {
  }

  /**
    A linear run never overshoots: for every frame number from 0 to
    n_frames the position old_position + k * dx lies between the start and
    the target, because qdivx truncates toward zero.
   */
  lemma {:induction false} LinearFramesBetween(s: State, target: int, n: nat, fps: nat, k: nat)
    requires n > 1 && k <= n
    ensures var r := Interpolatex(s, target, n, fps);
              Min(s.value, target) <= r.oldPosition + k * r.dx <= Max(s.value, target)
  {
    var r := Interpolatex(s, target, n, fps);
    var d := r.dx;
    var delta := target - s.value;
    assert Abs(d) * n <= Abs(delta);
    assert Abs(d) * k <= Abs(d) * n by { MulMonotone(Abs(d), k, n); }
    if delta >= 0 {
      assert d >= 0;
      assert 0 <= k * d <= delta;
    } else {
      assert d <= 0;
      assert k * d == -(Abs(d) * k);
      assert delta <= k * d <= 0;
    }
  }

  lemma MulMonotone(a: nat, k: nat, n: nat)
    requires k <= n
    ensures a * k <= a * n
  {
  }

  /**
    The operations a client or the timeline can apply to a constructed
    adjustment, except set_elastic: turning elasticity on and off again
    lets a value outside the window through
    (ElasticToggleLeavesValueOutsideWindow). SetValuesOp is set_valuesx as
    written, SetValuesIntendedOp the call as intended.
   */
  datatype Op =
    | SetValueOp(v: int)
    | ClampPageOp(lo: int, hi: int)
    | SetLowerOp(x: int)
    | SetUpperOp(x: int)
    | SetStepIncrementOp(x: int)
    | SetPageIncrementOp(x: int)
    | SetPageSizeOp(x: int)
    | SetValuesOp(value: int, lower: int, upper: int, step: int, pageInc: int, pageSize: int)
    | SetValuesIntendedOp(value: int, lower: int, upper: int, step: int, pageInc: int, pageSize: int)
    | InterpolateOp(target: int, nFrames: nat, fps: nat)
    | ClampOp(interpolate: bool, nFrames: nat, fps: nat)
    | NewFrameOp(frame: int, eased: int)
    | CompletedOp

  /** One operation. A timeline that no longer exists delivers nothing, so its events change nothing. */
  function Apply(s: State, op: Op): State
  {
    match op
    case SetValueOp(v) => SetValuex(s, v)
    case ClampPageOp(lo, hi) => ClampPagex(s, lo, hi)
    case SetLowerOp(x) => SetLower(s, x).state
    case SetUpperOp(x) => SetUpper(s, x).state
    case SetStepIncrementOp(x) => SetStepIncrement(s, x).state
    case SetPageIncrementOp(x) => SetPageIncrement(s, x).state
    case SetPageSizeOp(x) => SetPageSize(s, x).state
    case SetValuesOp(v, l, u, st, pi, ps) => SetValuesx(s, v, l, u, st, pi, ps)
    case SetValuesIntendedOp(v, l, u, st, pi, ps) => SetValuesxIntended(s, v, l, u, st, pi, ps)
    case InterpolateOp(t, n, fps) => Interpolatex(s, t, n, fps)
    case ClampOp(i, n, fps) => ClampToRange(s, i, n, fps).state
    case NewFrameOp(f, e) => if s.running then NewFrame(s, f, e) else s
    case CompletedOp => if s.running then Completed(s) else s
  }

  function Run(s: State, ops: seq<Op>): State
    decreases |ops|
  {
    if ops == [] then s else Run(Apply(s, ops[0]), ops[1..])
  }

  /**
    The invariant the clamping code keeps: after construction and with
    elasticity off, whenever the page fits between the bounds the value is
    in the window.
   */
  predicate Settled(s: State)
  {
    Clamping(s) && (WellFormed(s) ==> InWindow(s))
  }

  lemma {:induction false} ApplyKeepsSettled(s: State, op: Op)
    requires Settled(s)
    ensures Settled(Apply(s, op))
  {
    match op
    case SetValuesOp(v, l, u, st, pi, ps) =>
      var fl, fu, fps := IntToFixed(l), IntToFixed(u), IntToFixed(ps);
      if fl + fps <= fu {
        SetValuesxClamps(s, v, fl, fu, IntToFixed(st), IntToFixed(pi), fps);
      }
    case SetValuesIntendedOp(v, l, u, st, pi, ps) =>
      if l + ps <= u {
        SetValuesxClamps(s, v, l, u, st, pi, ps);
      }
    case _ =>
  }

  lemma {:induction false} RunKeepsSettled(s: State, ops: seq<Op>)
    requires Settled(s)
    ensures Settled(Run(s, ops))
    decreases |ops|
  {
    if ops != [] {
      ApplyKeepsSettled(s, ops[0]);
      RunKeepsSettled(Apply(s, ops[0]), ops[1..]);
    }
  }

  /**
    In every state reachable from a non-elastic adjustment built with
    g_object_new, if the page fits between the bounds then
    lower <= value <= upper - page_size, and get_valuex reports a number in
    that window too.
   */
  lemma {:induction false} ReachableInWindow(value: int, lower: int, upper: int, step: int, pageInc: int, pageSize: int, ops: seq<Op>)
    ensures var r := Run(Construct(value, lower, upper, step, pageInc, pageSize, false), ops);
              Clamping(r) && (WellFormed(r) ==> InWindow(r) && r.lower <= GetValuex(r) <= r.upper - r.pageSize)
  {
    var s := Construct(value, lower, upper, step, pageInc, pageSize, false);
    RunKeepsSettled(s, ops);
  }

  /**
    Without the page fitting, the window bound does not hold: g_object_new
    with lower 0, upper 5, page size 30 and value -10 keeps the value below
    `lower` although construction is over and the adjustment is not
    elastic; clamp_pagex moves nothing because both derived window ends
    lie outside the bounds.
   */
  lemma PageLargerThanRangeLeavesValueBelowLower()
    ensures var s := Construct(-10, 0, 5, 0, 0, 30, false);
              Clamping(s) && s.value == -10 && s.value < s.lower
  {
  }

  /**
    set_elastic neither clamps nor notifies, so toggling it lets a value
    outside the window through: with elasticity on, set_valuex stores 200
    on bounds 0..100 with page size 10, and turning elasticity off again
    leaves it there although the page fits.
   */
  lemma ElasticToggleLeavesValueOutsideWindow()
    ensures var s := SetElastic(SetValuex(SetElastic(Construct(50, 0, 100, 0, 0, 10, false), true), 200), false);
              Clamping(s) && WellFormed(s) && !InWindow(s) && s.value == 200
  {
  }

  /** nbtk_adjustment_newx stores its value raw: a value above upper survives construction. */
  lemma NewXDoesNotClamp()
    ensures var s := NewX(200, 0, 100, 1, 10, 10);
              Clamping(s) && WellFormed(s) && !InWindow(s) && GetValuex(s) == 200
  {
  }

  /**
    clamp_pagex with a narrow requested window can notify "value" without
    changing it: requesting [50, 50] with page size 10 first pulls the value
    down to 40, then back up to 50.
   */
  lemma ClampPageNotifiesUnchangedValue()
    ensures var s := Construct(50, 0, 100, 0, 0, 10, false);
            var r := ClampPagex(s, 50, 50);
              r.value == s.value && r.log == s.log + [ValueNotify]
  {
  }

  /**
    A linear run in 16.16 fixed point: bounds 0 and 100, page size 10,
    value 50, interpolate to 95 over 10 frames. Each frame steps by 4.5;
    frame 9 asks for 90.5, which set_valuex clamps to 90; get_valuex says 90
    throughout; completion lands on 90, not on the requested 95.
   */
  lemma LinearRunScenario()
    ensures var s := Construct(IntToFixed(50), 0, IntToFixed(100), 0, 0, IntToFixed(10), false);
            var r := Interpolatex(s, IntToFixed(95), 10, 30);
              && r.dx == 294912
              && NewFrame(r, 4, 0).value == IntToFixed(68)
              && NewFrame(r, 9, 0).value == IntToFixed(90)
              && GetValuex(r) == IntToFixed(90)
              && Completed(NewFrame(r, 9, 0)).value == IntToFixed(90)
  {
  }

  /**
    An elastic run: bounds 0 and 100, page size 10, value 0, interpolate to
    -20. The stored value follows the eased positions below `lower`, while
    get_valuex reports 0 during the run; completion stores -20 unclamped.
   */
  lemma ElasticRunScenario()
    ensures var s := Construct(0, 0, IntToFixed(100), 0, 0, IntToFixed(10), true);
            var r := Interpolatex(s, IntToFixed(-20), 10, 30);
            var f := NewFrame(r, 3, IntToFixed(-5));
              && f.value == IntToFixed(-5)
              && GetValuex(f) == 0
              && Completed(f).value == IntToFixed(-20)
  {
  }
}
