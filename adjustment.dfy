/**
  NbtkAdjustment as an object: the private fields are fields of the class
  and each operation updates them in place, step by step as the C code
  does. Every method is proved to leave the fields exactly as the
  corresponding function of AdjustmentState says, so the properties proved
  there and in AdjustmentLemmas hold of the object.
 */
module NbtkAdjustment {
  import F = FixedMath
  import S = AdjustmentState

  class Adjustment {
    var constructing: bool
    var lower: int
    var upper: int
    var value: int
    var stepIncrement: int
    var pageIncrement: int
    var pageSize: int
    /** Whether an interpolation timeline exists. */
    var running: bool
    var dx: int
    var oldPosition: int
    var newPosition: int
    var elastic: bool
    /** The notifications and "changed" emissions requested so far, in order. */
    var log: seq<S.Notice>

    /** The fields as a value of AdjustmentState. */
    function Current(): S.State
      reads this
    {
      S.State(constructing, lower, upper, value, stepIncrement, pageIncrement, pageSize,
              running, dx, oldPosition, newPosition, elastic, log)
    }

    /**
      g_object_new with the six numeric properties and "elastic": the
      instance starts zeroed with `is_constructing` set, the construct
      properties are set in the order the class installs them, and
      `constructed` clamps the value once.
     */
    constructor (value: int, lower: int, upper: int, stepIncrement: int, pageIncrement: int, pageSize: int, elastic: bool)
      ensures Current() == S.Construct(value, lower, upper, stepIncrement, pageIncrement, pageSize, elastic)
    {
      this.constructing, this.lower, this.upper, this.value := true, 0, 0, 0;
      this.stepIncrement, this.pageIncrement, this.pageSize := 0, 0, 0;
      this.running, this.dx, this.oldPosition, this.newPosition := false, 0, 0, 0;
      this.elastic, this.log := false, [];
      new;
      assert Current() == S.Initial();
      ConstructProperties(value, lower, upper, stepIncrement, pageIncrement, pageSize, elastic);
      Constructed();
    }

    /**
      nbtk_adjustment_newx: g_object_new with every property at its default,
      then the six fields written directly, without clamping or notifying.
     */
    constructor NewX(value: int, lower: int, upper: int, stepIncrement: int, pageIncrement: int, pageSize: int)
      ensures Current() == S.NewX(value, lower, upper, stepIncrement, pageIncrement, pageSize)
    {
      this.constructing, this.lower, this.upper, this.value := true, 0, 0, 0;
      this.stepIncrement, this.pageIncrement, this.pageSize := 0, 0, 0;
      this.running, this.dx, this.oldPosition, this.newPosition := false, 0, 0, 0;
      this.elastic, this.log := false, [];
      new;
      S.ConstructDefaults();
      ConstructProperties(0, 0, 0, 0, 0, 0, false);
      Constructed();
      ghost var base := Current();
      assert base == S.Construct(0, 0, 0, 0, 0, 0, false);
      this.value := value;
      this.lower := lower;
      this.upper := upper;
      this.stepIncrement := stepIncrement;
      this.pageIncrement := pageIncrement;
      this.pageSize := pageSize;
    }

    /**
      The construct properties of g_object_new, set through their setters in
      the order the class installs them.
     */
    method ConstructProperties(value: int, lower: int, upper: int, stepIncrement: int, pageIncrement: int, pageSize: int, elastic: bool)
      modifies this
      ensures Current() == S.SetConstructProperties(old(Current()), value, lower, upper, stepIncrement, pageIncrement, pageSize, elastic)
    {
      ghost var s0 := Current();
      var stored := SetLower(lower);
      ghost var s1 := Current();
      assert s1 == S.SetLower(s0, lower).state;
      stored := SetUpper(upper);
      ghost var s2 := Current();
      assert s2 == S.SetUpper(s1, upper).state;
      SetValuex(value);
      ghost var s3 := Current();
      assert s3 == S.SetValuex(s2, value);
      stored := SetStepIncrement(stepIncrement);
      ghost var s4 := Current();
      assert s4 == S.SetStepIncrement(s3, stepIncrement).state;
      stored := SetPageIncrement(pageIncrement);
      ghost var s5 := Current();
      assert s5 == S.SetPageIncrement(s4, pageIncrement).state;
      stored := SetPageSize(pageSize);
      ghost var s6 := Current();
      assert s6 == S.SetPageSize(s5, pageSize).state;
      SetElastic(elastic);
    }

    /** nbtk_adjustment_constructed. */
    method Constructed()
      modifies this
      ensures Current() == S.Constructed(old(Current()))
    {
      constructing := false;
      ClampPagex(lower, upper);
    }

    /** stop_interpolation. */
    method StopInterpolation()
      modifies this
      ensures Current() == S.StopInterpolation(old(Current()))
    {
      if running {
        running := false;
      }
    }

    /** nbtk_adjustment_get_valuex. */
    method GetValuex() returns (v: int)
      ensures v == S.GetValuex(Current())
    {
      if running {
        v := F.Max(lower, F.Min(upper - pageSize, newPosition));
      } else {
        v := value;
      }
    }

    /** nbtk_adjustment_get_value, in fixed point. */
    method GetValue() returns (v: int)
      ensures v == S.GetValue(Current())
    {
      v := value;
    }

    /** nbtk_adjustment_set_valuex. */
    method SetValuex(v: int)
      modifies this
      ensures Current() == S.SetValuex(old(Current()), v)
    {
      StopInterpolation();
      var w := v;
      if !constructing {
        if !elastic {
          w := F.Clamp(w, lower, F.Max(lower, upper - pageSize));
        }
      }
      if value != w {
        value := w;
        log := log + [S.ValueNotify];
      }
    }

    /** nbtk_adjustment_clamp_pagex. */
    method ClampPagex(lo: int, hi: int)
      modifies this
      ensures Current() == S.ClampPagex(old(Current()), lo, hi)
    {
      StopInterpolation();
      var low := F.Clamp(lo, lower, upper - pageSize);
      var high := F.Clamp(hi, lower + pageSize, upper);
      var changed := false;
      if value + pageSize > high {
        value := high - pageSize;
        changed := true;
      }
      if value < low {
        value := low;
        changed := true;
      }
      if changed {
        log := log + [S.ValueNotify];
      }
    }

    /** nbtk_adjustment_set_lower. */
    method SetLower(x: int) returns (changed: bool)
      modifies this
      ensures changed == S.SetLower(old(Current()), x).changed
      ensures Current() == S.SetLower(old(Current()), x).state
    {
      if lower != x {
        lower := x;
        log := log + [S.ChangedSignal, S.LowerNotify];
        if !constructing {
          ClampPagex(lower, upper);
        }
        return true;
      }
      return false;
    }

    /** nbtk_adjustment_set_upper. */
    method SetUpper(x: int) returns (changed: bool)
      modifies this
      ensures changed == S.SetUpper(old(Current()), x).changed
      ensures Current() == S.SetUpper(old(Current()), x).state
    {
      if upper != x {
        upper := x;
        log := log + [S.ChangedSignal, S.UpperNotify];
        if !constructing {
          ClampPagex(lower, upper);
        }
        return true;
      }
      return false;
    }

    /** nbtk_adjustment_set_step_increment. */
    method SetStepIncrement(x: int) returns (changed: bool)
      modifies this
      ensures changed == S.SetStepIncrement(old(Current()), x).changed
      ensures Current() == S.SetStepIncrement(old(Current()), x).state
    {
      if stepIncrement != x {
        stepIncrement := x;
        log := log + [S.ChangedSignal, S.StepIncrementNotify];
        return true;
      }
      return false;
    }

    /** nbtk_adjustment_set_page_increment. */
    method SetPageIncrement(x: int) returns (changed: bool)
      modifies this
      ensures changed == S.SetPageIncrement(old(Current()), x).changed
      ensures Current() == S.SetPageIncrement(old(Current()), x).state
    {
      if pageIncrement != x {
        pageIncrement := x;
        log := log + [S.ChangedSignal, S.PageIncrementNotify];
        return true;
      }
      return false;
    }

    /** nbtk_adjustment_set_page_size. */
    method SetPageSize(x: int) returns (changed: bool)
      modifies this
      ensures changed == S.SetPageSize(old(Current()), x).changed
      ensures Current() == S.SetPageSize(old(Current()), x).state
    {
      if pageSize != x {
        pageSize := x;
        log := log + [S.ChangedSignal, S.PageSizeNotify];
        if !constructing {
          ClampPagex(lower, upper);
        }
        return true;
      }
      return false;
    }

    /**
      nbtk_adjustment_set_valuesx as written: the range setters take a
      gdouble and convert it with CLUTTER_FLOAT_TO_FIXED, so each ClutterFixed
      range number they are handed is stored shifted left by 16 bits. The
      rest of the body is the intended one.
     */
    method SetValuesx(value: int, lower: int, upper: int, step: int, pageInc: int, pageSize: int)
      modifies this
      ensures Current() == S.SetValuesx(old(Current()), value, lower, upper, step, pageInc, pageSize)
    {
      SetValuesxIntended(value, F.IntToFixed(lower), F.IntToFixed(upper), F.IntToFixed(step),
                         F.IntToFixed(pageInc), F.IntToFixed(pageSize));
    }

    /** The five range setters of set_valuesx, in order; `emitChanged` says whether any stored something. */
    method SetRange(lower: int, upper: int, step: int, pageInc: int, pageSize: int) returns (emitChanged: bool)
      modifies this
      ensures emitChanged == S.SetRange(old(Current()), lower, upper, step, pageInc, pageSize).changed
      ensures Current() == S.SetRange(old(Current()), lower, upper, step, pageInc, pageSize).state
    {
      emitChanged := false;
      var c := SetLower(lower);
      emitChanged := emitChanged || c;
      c := SetUpper(upper);
      emitChanged := emitChanged || c;
      c := SetStepIncrement(step);
      emitChanged := emitChanged || c;
      c := SetPageIncrement(pageInc);
      emitChanged := emitChanged || c;
      c := SetPageSize(pageSize);
      emitChanged := emitChanged || c;
    }

    /**
      The body of nbtk_adjustment_set_valuesx, each range setter storing the
      number it is given.
     */
    method SetValuesxIntended(value: int, lower: int, upper: int, step: int, pageInc: int, pageSize: int)
      modifies this
      ensures Current() == S.SetValuesxIntended(old(Current()), value, lower, upper, step, pageInc, pageSize)
    {
      StopInterpolation();
      var emitChanged := SetRange(lower, upper, step, pageInc, pageSize);
      if value != this.value {
        SetValuex(value);
        emitChanged := true;
      }
      if emitChanged {
        log := log + [S.ChangedSignal];
      }
    }

    /** nbtk_adjustment_get_valuesx, all six out-parameters requested. */
    method GetValuesx() returns (r: S.Values)
      ensures r == S.GetValuesx(Current())
    {
      var v := GetValuex();
      r := S.Values(v, lower, upper, stepIncrement, pageIncrement, pageSize);
    }

    /**
      interpolation_new_frame_cb, called by the timeline while the run
      exists; `eased` is the position the bounce alpha gives in elastic mode.
     */
    method NewFrame(frame: int, eased: int)
      requires running
      modifies this
      ensures Current() == S.NewFrame(old(Current()), frame, eased)
    {
      running := false;
      if elastic {
        SetValuex(eased);
      } else {
        SetValuex(oldPosition + F.FixedMul(F.IntToFixed(frame), dx));
      }
      running := true;
    }

    /** interpolation_completed_cb. */
    method Completed()
      requires running
      modifies this
      ensures Current() == S.Completed(old(Current()))
    {
      StopInterpolation();
      SetValuex(newPosition);
    }

    /** nbtk_adjustment_interpolatex; `fps` only paces the timeline. */
    method Interpolatex(target: int, nFrames: nat, fps: nat)
      modifies this
      ensures Current() == S.Interpolatex(old(Current()), target, nFrames, fps)
    {
      StopInterpolation();
      if nFrames <= 1 {
        SetValuex(target);
        return;
      }
      oldPosition := value;
      newPosition := target;
      dx := F.FixedDiv(newPosition - oldPosition, F.IntToFixed(nFrames));
      running := true;
    }

    /** nbtk_adjustment_get_elastic. */
    method GetElastic() returns (e: bool)
      ensures e == Current().elastic
    {
      e := elastic;
    }

    /** nbtk_adjustment_set_elastic. */
    method SetElastic(e: bool)
      modifies this
      ensures Current() == S.SetElastic(old(Current()), e)
    {
      elastic := e;
    }

    /** nbtk_adjustment_clamp. */
    method Clamp(interpolate: bool, nFrames: nat, fps: nat) returns (moved: bool)
      modifies this
      ensures moved == S.ClampToRange(old(Current()), interpolate, nFrames, fps).changed
      ensures Current() == S.ClampToRange(old(Current()), interpolate, nFrames, fps).state
    {
      var dest := value;
      if value < lower {
        dest := lower;
      }
      if value > upper - pageSize {
        dest := upper - pageSize;
      }
      if dest != value {
        if interpolate {
          Interpolatex(dest, nFrames, fps);
        } else {
          SetValuex(dest);
        }
        return true;
      }
      return false;
    }
  }
}
