/**
  The adjustment of nbtk/nbtk-adjustment.c as a value: its private fields,
  and one function per operation giving the fields afterwards. The class
  NbtkAdjustment.Adjustment changes the same fields in place and is proved
  to agree with these functions.

  Values are ClutterFixed numbers (see FixedMath). Notifications are kept
  as a log of the requests the code makes, in order: a property
  notification or an emission of the "changed" signal.
 */
module AdjustmentState {
  import opened FixedMath

  datatype Notice =
    | ValueNotify
    | LowerNotify
    | UpperNotify
    | StepIncrementNotify
    | PageIncrementNotify
    | PageSizeNotify
    | ChangedSignal

  /**
    The private fields. `running` says whether an interpolation timeline
    exists (priv->interpolation != NULL); `dx`, `oldPosition` and
    `newPosition` keep their last values after a run ends, as in C.
   */
  datatype State = State(
    constructing: bool,
    lower: int,
    upper: int,
    value: int,
    stepIncrement: int,
    pageIncrement: int,
    pageSize: int,
    running: bool,
    dx: int,
    oldPosition: int,
    newPosition: int,
    elastic: bool,
    log: seq<Notice>)

  /** What a range setter reports: whether it stored anything, and the fields after. */
  datatype Update = Update(changed: bool, state: State)

  /** The page fits between the bounds. */
  predicate WellFormed(s: State)
  {
    s.lower + s.pageSize <= s.upper
  }

  /** The value lies in the window [lower, upper - page_size]. */
  predicate InWindow(s: State)
  {
    s.lower <= s.value <= s.upper - s.pageSize
  }

  /** set_valuex clamps only after construction and when not elastic. */
  predicate Clamping(s: State)
  {
    !s.constructing && !s.elastic
  }

  /** The value set_valuex stores when asked for `v`. */
  function StoredValue(s: State, v: int): (r: int)
    ensures Clamping(s) ==> s.lower <= r <= Max(s.lower, s.upper - s.pageSize)
    ensures Clamping(s) && s.lower <= v <= s.upper - s.pageSize ==> r == v
    ensures Clamping(s) && v < s.lower ==> r == s.lower
    ensures Clamping(s) && v > Max(s.lower, s.upper - s.pageSize) ==> r == Max(s.lower, s.upper - s.pageSize)
    ensures !Clamping(s) ==> r == v
  {
    if Clamping(s) then Clamp(v, s.lower, Max(s.lower, s.upper - s.pageSize)) else v
  }

  /** The fields before construction: all zero, `is_constructing` set. */
  function Initial(): (s: State)
    ensures s.constructing && !s.running && !s.elastic && s.log == []
  {
    State(true, 0, 0, 0, 0, 0, 0, false, 0, 0, 0, false, [])
  }

  /** stop_interpolation: drop the run, if any; nothing else changes. */
  function StopInterpolation(s: State): (r: State)
    ensures !r.running
    ensures !s.running ==> r == s
    ensures r.(running := s.running) == s
  {
    s.(running := false)
  }

  /** nbtk_adjustment_set_valuex. */
  function SetValuex(s: State, v: int): (r: State)
    ensures !r.running
    ensures r.value == StoredValue(s, v)
    ensures r.log == s.log + (if StoredValue(s, v) != s.value then [ValueNotify] else [])
    ensures r == s.(running := false, value := r.value, log := r.log)
  {
    var t := StopInterpolation(s);
    var w := StoredValue(t, v);
    if t.value != w then t.(value := w, log := t.log + [ValueNotify]) else t
  }

  /** The lower end of the page window clamp_pagex derives from a requested lower bound. */
  function PageLow(s: State, lo: int): (r: int)
    ensures WellFormed(s) ==> s.lower <= r <= s.upper - s.pageSize
  {
    Clamp(lo, s.lower, s.upper - s.pageSize)
  }

  /** The upper end of the page window clamp_pagex derives from a requested upper bound. */
  function PageHigh(s: State, hi: int): (r: int)
    ensures WellFormed(s) ==> s.lower + s.pageSize <= r <= s.upper
  {
    Clamp(hi, s.lower + s.pageSize, s.upper)
  }

  /**
    nbtk_adjustment_clamp_pagex: pull the value into the window narrowed by
    the requested bounds. The bounds themselves are never stored.
   */
  function ClampPagex(s: State, lo: int, hi: int): (r: State)
    ensures !r.running
    ensures r == s.(running := false, value := r.value, log := r.log)
    ensures r.log == s.log || r.log == s.log + [ValueNotify]
    ensures r.value != s.value ==> r.log == s.log + [ValueNotify]
    ensures PageLow(s, lo) + s.pageSize <= PageHigh(s, hi) ==>
              PageLow(s, lo) <= r.value <= PageHigh(s, hi) - s.pageSize
    ensures WellFormed(s) ==> InWindow(r)
    ensures PageLow(s, lo) <= s.value <= PageHigh(s, hi) - s.pageSize ==>
              r == StopInterpolation(s)
  {
    var t := StopInterpolation(s);
    var low := PageLow(t, lo);
    var high := PageHigh(t, hi);
    var pulledDown := t.value + t.pageSize > high;
    var v1 := if pulledDown then high - t.pageSize else t.value;
    var pulledUp := v1 < low;
    var v2 := if pulledUp then low else v1;
    if pulledDown || pulledUp then t.(value := v2, log := t.log + [ValueNotify]) else t
  }

  /**
    The tail of set_lower, set_upper and set_page_size: once the field is
    stored in `t`, re-clamp the value against the current bounds, unless
    still constructing.
   */
  function Reclamp(t: State): (r: State)
    ensures ReclampOutcome(t, r)
  {
    if t.constructing then t else ClampPagex(t, t.lower, t.upper)
  }

  /** `b` has the settings of `a`: all fields but the value, the run flag and the log agree. */
  predicate SameSettings(a: State, b: State)
  {
    && a.constructing == b.constructing
    && a.lower == b.lower && a.upper == b.upper && a.pageSize == b.pageSize
    && a.stepIncrement == b.stepIncrement && a.pageIncrement == b.pageIncrement
    && a.dx == b.dx && a.oldPosition == b.oldPosition && a.newPosition == b.newPosition
    && a.elastic == b.elastic
  }

  /** What Reclamp guarantees about the state `r` it makes from `t`. */
  predicate ReclampOutcome(t: State, r: State)
  {
    && SameSettings(t, r)
    && (r.log == t.log || r.log == t.log + [ValueNotify])
    && (t.constructing ==> r == t)
    && (!t.constructing ==> !r.running)
    && (!t.constructing && WellFormed(t) ==> InWindow(r))
    && (!t.constructing && WellFormed(t) && InWindow(t) ==> r.value == t.value && r.log == t.log)
  }

  /** nbtk_adjustment_set_lower. */
  function SetLower(s: State, x: int): (u: Update)
    ensures u.changed <==> s.lower != x
    ensures !u.changed ==> u.state == s
    ensures u.changed ==> ReclampOutcome(s.(lower := x, log := s.log + [ChangedSignal, LowerNotify]), u.state)
  {
    if s.lower != x then
      Update(true, Reclamp(s.(lower := x, log := s.log + [ChangedSignal, LowerNotify])))
    else
      Update(false, s)
  }

  /** nbtk_adjustment_set_upper. */
  function SetUpper(s: State, x: int): (u: Update)
    ensures u.changed <==> s.upper != x
    ensures !u.changed ==> u.state == s
    ensures u.changed ==> ReclampOutcome(s.(upper := x, log := s.log + [ChangedSignal, UpperNotify]), u.state)
  {
    if s.upper != x then
      Update(true, Reclamp(s.(upper := x, log := s.log + [ChangedSignal, UpperNotify])))
    else
      Update(false, s)
  }

  /** nbtk_adjustment_set_page_size. */
  function SetPageSize(s: State, x: int): (u: Update)
    ensures u.changed <==> s.pageSize != x
    ensures !u.changed ==> u.state == s
    ensures u.changed ==> ReclampOutcome(s.(pageSize := x, log := s.log + [ChangedSignal, PageSizeNotify]), u.state)
  {
    if s.pageSize != x then
      Update(true, Reclamp(s.(pageSize := x, log := s.log + [ChangedSignal, PageSizeNotify])))
    else
      Update(false, s)
  }

  /** nbtk_adjustment_set_step_increment: stored only; the value and any run are untouched. */
  function SetStepIncrement(s: State, x: int): (u: Update)
    ensures u.changed <==> s.stepIncrement != x
    ensures !u.changed ==> u.state == s
    ensures u.changed ==> u.state == s.(stepIncrement := x, log := s.log + [ChangedSignal, StepIncrementNotify])
    ensures u.state.value == s.value && u.state.running == s.running
  {
    if s.stepIncrement != x then
      Update(true, s.(stepIncrement := x, log := s.log + [ChangedSignal, StepIncrementNotify]))
    else
      Update(false, s)
  }

  /** nbtk_adjustment_set_page_increment: stored only; the value and any run are untouched. */
  function SetPageIncrement(s: State, x: int): (u: Update)
    ensures u.changed <==> s.pageIncrement != x
    ensures !u.changed ==> u.state == s
    ensures u.changed ==> u.state == s.(pageIncrement := x, log := s.log + [ChangedSignal, PageIncrementNotify])
    ensures u.state.value == s.value && u.state.running == s.running
  {
    if s.pageIncrement != x then
      Update(true, s.(pageIncrement := x, log := s.log + [ChangedSignal, PageIncrementNotify]))
    else
      Update(false, s)
  }

  /**
    The five range setters of set_valuesx, in the order the code calls them.
    `changed` says whether any of them stored something. What the sequence
    does to the value and the log is proved in AdjustmentLemmas.
   */
  function SetRange(s: State, lower: int, upper: int, step: int, pageInc: int, pageSize: int): (u: Update)
    ensures u.state.lower == lower && u.state.upper == upper && u.state.pageSize == pageSize
    ensures u.state.stepIncrement == step && u.state.pageIncrement == pageInc
    ensures u.state.constructing == s.constructing && u.state.elastic == s.elastic
    ensures u.state.dx == s.dx && u.state.oldPosition == s.oldPosition && u.state.newPosition == s.newPosition
    ensures !s.running ==> !u.state.running
    ensures u.changed <==>
              !(s.lower == lower && s.upper == upper && s.stepIncrement == step &&
                s.pageIncrement == pageInc && s.pageSize == pageSize)
    ensures !u.changed ==> u.state == s
  {
    var u1 := SetLower(s, lower);
    var u2 := SetUpper(u1.state, upper);
    var u3 := SetStepIncrement(u2.state, step);
    var u4 := SetPageIncrement(u3.state, pageInc);
    var u5 := SetPageSize(u4.state, pageSize);
    Update(u1.changed || u2.changed || u3.changed || u4.changed || u5.changed, u5.state)
  }

  /** True when set_valuesx would find nothing to store. */
  predicate SameValues(s: State, value: int, lower: int, upper: int, step: int, pageInc: int, pageSize: int)
  {
    s.value == value && s.lower == lower && s.upper == upper &&
    s.stepIncrement == step && s.pageIncrement == pageInc && s.pageSize == pageSize
  }

  /**
    What nbtk_adjustment_set_valuesx evidently means: the five range setters
    in order, each storing the number it is given, then the value if it
    differs from the stored one, then one more "changed" emission if
    anything was stored.
   */
  function SetValuesxIntended(s: State, value: int, lower: int, upper: int, step: int, pageInc: int, pageSize: int): (r: State)
    ensures !r.running
    ensures r.lower == lower && r.upper == upper && r.pageSize == pageSize
    ensures r.stepIncrement == step && r.pageIncrement == pageInc
    ensures r.constructing == s.constructing && r.elastic == s.elastic
    ensures r.dx == s.dx && r.oldPosition == s.oldPosition && r.newPosition == s.newPosition
    ensures !Clamping(s) ==> r.value == value
    ensures SameValues(s, value, lower, upper, step, pageInc, pageSize) ==> r == StopInterpolation(s)
  {
    var s0 := StopInterpolation(s);
    var u := SetRange(s0, lower, upper, step, pageInc, pageSize);
    var valueDiffers := value != u.state.value;
    var s6 := if valueDiffers then SetValuex(u.state, value) else u.state;
    if u.changed || valueDiffers then s6.(log := s6.log + [ChangedSignal]) else s6
  }

  /**
    nbtk_adjustment_set_valuesx as written. The five range numbers are
    ClutterFixed, but the private setters they are handed to take a gdouble:
    C converts the integer n to the double n, and the setter's
    CLUTTER_FLOAT_TO_FIXED then stores n * 65536. Only `value` reaches
    set_valuex unconverted. So the call is the intended one applied to the
    range numbers shifted left by 16 bits.
   */
  function SetValuesx(s: State, value: int, lower: int, upper: int, step: int, pageInc: int, pageSize: int): (r: State)
    ensures !r.running
    ensures r.lower == IntToFixed(lower) && r.upper == IntToFixed(upper) && r.pageSize == IntToFixed(pageSize)
    ensures r.stepIncrement == IntToFixed(step) && r.pageIncrement == IntToFixed(pageInc)
    ensures r.constructing == s.constructing && r.elastic == s.elastic
    ensures r.dx == s.dx && r.oldPosition == s.oldPosition && r.newPosition == s.newPosition
    ensures !Clamping(s) ==> r.value == value
    ensures SameValues(s, value, IntToFixed(lower), IntToFixed(upper), IntToFixed(step), IntToFixed(pageInc), IntToFixed(pageSize)) ==>
              r == StopInterpolation(s)
  {
    SetValuesxIntended(s, value, IntToFixed(lower), IntToFixed(upper), IntToFixed(step), IntToFixed(pageInc), IntToFixed(pageSize))
  }

  /**
    nbtk_adjustment_get_valuex. While a run is active it reports the run's
    target pulled into the window (MAX of lower and MIN of upper - page_size),
    not the stored value; otherwise the stored value, unclamped.
   */
  function GetValuex(s: State): (v: int)
    ensures !s.running ==> v == s.value
    ensures s.running ==> s.lower <= v
    ensures s.running && WellFormed(s) ==> v == Clamp(s.newPosition, s.lower, s.upper - s.pageSize)
    ensures s.running && !WellFormed(s) ==> v == s.lower
  {
    if s.running then Max(s.lower, Min(s.upper - s.pageSize, s.newPosition)) else s.value
  }

  /** nbtk_adjustment_get_value: the stored value, even while a run is active. */
  function GetValue(s: State): (v: int)
    ensures v == s.value
  {
    s.value
  }

  /** The six numbers nbtk_adjustment_get_valuesx writes out. */
  datatype Values = Values(value: int, lower: int, upper: int, stepIncrement: int, pageIncrement: int, pageSize: int)

  /** nbtk_adjustment_get_valuesx: the bounds and increments as stored, the value as get_valuex reports it. */
  function GetValuesx(s: State): (r: Values)
    ensures r.lower == s.lower && r.upper == s.upper && r.pageSize == s.pageSize
    ensures r.stepIncrement == s.stepIncrement && r.pageIncrement == s.pageIncrement
    ensures r.value == GetValuex(s)
    ensures !s.running ==> r.value == s.value
    ensures s.running && WellFormed(s) ==> r.value == Clamp(s.newPosition, s.lower, s.upper - s.pageSize)
    ensures s.running && !WellFormed(s) ==> r.value == s.lower
  {
    Values(GetValuex(s), s.lower, s.upper, s.stepIncrement, s.pageIncrement, s.pageSize)
  }

  /**
    nbtk_adjustment_interpolatex. `fps` only paces the external timeline.
    With at most one frame it is set_valuex; otherwise it starts a run from
    the stored value whose per-frame step is qdivx(target - value,
    INT_TO_FIXED(n_frames)), that is C's truncating division by the count.
   */
  function Interpolatex(s: State, target: int, nFrames: nat, fps: nat): (r: State)
    ensures nFrames <= 1 ==> r == SetValuex(s, target)
    ensures nFrames > 1 ==> r.running && r.oldPosition == s.value && r.newPosition == target
    ensures nFrames > 1 ==> r.dx == TruncDiv(target - s.value, nFrames)
    ensures nFrames > 1 ==> Abs(r.dx) * nFrames <= Abs(target - s.value)
    ensures nFrames > 1 ==> SameSettings(s.(dx := r.dx, oldPosition := r.oldPosition, newPosition := r.newPosition), r)
    ensures nFrames > 1 ==> r.value == s.value && r.log == s.log
  {
    var t := StopInterpolation(s);
    if nFrames <= 1 then
      SetValuex(t, target)
    else
      var d := FixedDiv(target - t.value, IntToFixed(nFrames));
      DivIntToFixed(target - t.value, nFrames);
      t.(oldPosition := t.value, newPosition := target, dx := d, running := true)
  }

  /**
    The position a frame asks for: in elastic mode the eased position the
    timeline's alpha gives (a parameter here), otherwise
    old_position + qmulx(INT_TO_FIXED(frame), dx).
   */
  function FramePosition(s: State, frame: int, eased: int): (p: int)
    ensures s.elastic ==> p == eased
    ensures !s.elastic ==> p == s.oldPosition + frame * s.dx
  {
    if s.elastic then eased
    else
      MulIntToFixed(frame, s.dx);
      s.oldPosition + FixedMul(IntToFixed(frame), s.dx)
  }

  /**
    interpolation_new_frame_cb. The timeline calls it only while the run
    exists. The run is hidden while set_valuex runs and restored after, so
    the frame does not cancel its own run.
   */
  function NewFrame(s: State, frame: int, eased: int): (r: State)
    requires s.running
    ensures r.running
    ensures r.value == StoredValue(s, FramePosition(s, frame, eased))
    ensures r.log == s.log + (if r.value != s.value then [ValueNotify] else [])
    ensures SameSettings(s, r)
  {
    var hidden := s.(running := false);
    var t := SetValuex(hidden, FramePosition(hidden, frame, eased));
    t.(running := true)
  }

  /**
    interpolation_completed_cb: the run is dropped first, then the target is
    set with set_valuex, so the value lands on the target as set_valuex
    would store it.
   */
  function Completed(s: State): (r: State)
    requires s.running
    ensures !r.running
    ensures !Clamping(s) ==> r.value == s.newPosition
    ensures Clamping(s) ==> r.value == Clamp(s.newPosition, s.lower, Max(s.lower, s.upper - s.pageSize))
    ensures r.log == s.log + (if r.value != s.value then [ValueNotify] else [])
    ensures SameSettings(s, r)
  {
    var t := StopInterpolation(s);
    SetValuex(t, t.newPosition)
  }

  /** nbtk_adjustment_set_elastic: the flag is stored and nothing is re-clamped. */
  function SetElastic(s: State, elastic: bool): (r: State)
    ensures r.elastic == elastic
    ensures r.value == s.value && r.running == s.running && r.log == s.log
    ensures SameSettings(s.(elastic := elastic), r)
  {
    s.(elastic := elastic)
  }

  /**
    nbtk_adjustment_clamp: the destination is `lower` if the value is below
    it, then `upper - page_size` if the value is above that, which overrides;
    if it differs from the value, go there (animated or not) and report true.
   */
  function ClampDestination(s: State): (d: int)
    ensures d == Clamp(s.value, s.lower, s.upper - s.pageSize)
    ensures WellFormed(s) ==> (d == s.value <==> InWindow(s))
  {
    var d0 := s.value;
    var d1 := if s.value < s.lower then s.lower else d0;
    if s.value > s.upper - s.pageSize then s.upper - s.pageSize else d1
  }

  function ClampToRange(s: State, interpolate: bool, nFrames: nat, fps: nat): (u: Update)
    ensures u.changed <==> ClampDestination(s) != s.value
    ensures !u.changed ==> u.state == s
    ensures u.changed && !interpolate ==> u.state == SetValuex(s, ClampDestination(s))
    ensures u.changed && interpolate ==> u.state == Interpolatex(s, ClampDestination(s), nFrames, fps)
    ensures WellFormed(s) ==> (u.changed <==> !InWindow(s))
    ensures WellFormed(s) && Clamping(s) && !interpolate ==> InWindow(u.state)
  {
    var dest := ClampDestination(s);
    if dest != s.value then
      if interpolate then Update(true, Interpolatex(s, dest, nFrames, fps))
      else Update(true, SetValuex(s, dest))
    else
      Update(false, s)
  }

  /**
    nbtk_adjustment_constructed: clear the construction flag, then clamp the
    value against the stored bounds.
   */
  function Constructed(s: State): (r: State)
    ensures !r.constructing && !r.running
    ensures SameSettings(s.(constructing := false), r)
    ensures WellFormed(s) ==> InWindow(r)
    ensures WellFormed(s) && InWindow(s) ==> r.value == s.value && r.log == s.log
  {
    var t := s.(constructing := false);
    ClampPagex(t, t.lower, t.upper)
  }

  /**
    g_object_new with the six numeric properties and "elastic": every
    property is a construct property, set in the order the class installs
    them (lower, upper, value, step-increment, page-increment, page-size,
    elastic) while `is_constructing` holds, so all are stored raw; then
    `constructed` clamps once.
   */
  function Construct(value: int, lower: int, upper: int, step: int, pageInc: int, pageSize: int, elastic: bool): (r: State)
    ensures !r.constructing && !r.running && r.elastic == elastic
    ensures r.lower == lower && r.upper == upper && r.pageSize == pageSize
    ensures r.stepIncrement == step && r.pageIncrement == pageInc
    ensures lower + pageSize <= upper ==> InWindow(r)
    ensures lower <= value <= upper - pageSize ==> r.value == value
  {
    Constructed(SetConstructProperties(Initial(), value, lower, upper, step, pageInc, pageSize, elastic))
  }

  /** The construct properties, set through their setters in the order the class installs them. */
  function SetConstructProperties(s: State, value: int, lower: int, upper: int, step: int, pageInc: int, pageSize: int, elastic: bool): (r: State)
    ensures r.lower == lower && r.upper == upper && r.pageSize == pageSize
    ensures r.stepIncrement == step && r.pageIncrement == pageInc && r.elastic == elastic
    ensures r.constructing == s.constructing && !r.running
    ensures r.dx == s.dx && r.oldPosition == s.oldPosition && r.newPosition == s.newPosition
    ensures s.constructing ==> r.value == value
    ensures s.log <= r.log
  {
    var s2 := SetBounds(s, lower, upper);
    var s3 := SetValuex(s2, value);
    var s6 := SetIncrements(s3, step, pageInc, pageSize);
    SetElastic(s6, elastic)
  }

  /** The "lower" and "upper" construct properties, in that order. */
  function SetBounds(s: State, lower: int, upper: int): (r: State)
    ensures r.lower == lower && r.upper == upper
    ensures SameSettings(s.(lower := lower, upper := upper), r)
    ensures s.constructing ==> r.value == s.value
    ensures s.log <= r.log
  {
    var s1 := SetLower(s, lower).state;
    assert s.log <= s1.log;
    var s2 := SetUpper(s1, upper).state;
    assert s1.log <= s2.log;
    s2
  }

  /** The "step-increment", "page-increment" and "page-size" construct properties, in that order. */
  function SetIncrements(s: State, step: int, pageInc: int, pageSize: int): (r: State)
    ensures r.stepIncrement == step && r.pageIncrement == pageInc && r.pageSize == pageSize
    ensures SameSettings(s.(stepIncrement := step, pageIncrement := pageInc, pageSize := pageSize), r)
    ensures s.constructing ==> r.value == s.value
    ensures !s.running ==> !r.running
    ensures s.log <= r.log
  {
    var s4 := SetStepIncrement(s, step).state;
    assert s.log <= s4.log;
    var s5 := SetPageIncrement(s4, pageInc).state;
    assert s4.log <= s5.log;
    var s6 := SetPageSize(s5, pageSize).state;
    assert s5.log <= s6.log;
    s6
  }

  /**
    nbtk_adjustment_newx: construct with every property at its default of
    zero, then write the six fields directly. Construction is over by then,
    so nothing is clamped and nothing is notified.
   */
  function NewX(value: int, lower: int, upper: int, step: int, pageInc: int, pageSize: int): (r: State)
    ensures !r.constructing && !r.running && !r.elastic && r.log == []
    ensures r.value == value && r.lower == lower && r.upper == upper
    ensures r.stepIncrement == step && r.pageIncrement == pageInc && r.pageSize == pageSize
  {
    var s := Construct(0, 0, 0, 0, 0, 0, false);
    ConstructDefaults();
    s.(value := value, lower := lower, upper := upper,
       stepIncrement := step, pageIncrement := pageInc, pageSize := pageSize)
  }

  /** With every property at its default, construction changes nothing but the construction flag. */
  lemma ConstructDefaults()
    ensures SetConstructProperties(Initial(), 0, 0, 0, 0, 0, 0, false) == Initial()
    ensures Constructed(Initial()) == Initial().(constructing := false)
    ensures Construct(0, 0, 0, 0, 0, 0, false) == Initial().(constructing := false)
  {
  }
}
