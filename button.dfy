/**
  NbtkButton as an object: the private bits, the pseudo-class, the label
  text and the notification log are fields, and the event handlers update
  them in place as the C code does. Every method is proved to agree with
  the corresponding function of ButtonState.
 */
module NbtkButton {
  import opened Optional
  import S = ButtonState

  class Button {
    var pressed: bool
    var hover: bool
    var checked: bool
    var toggle: bool
    /** The style pseudo-class the button last set on itself. */
    var pseudo: S.PseudoClass
    var text: Option<string>
    var log: seq<S.Notice>

    function Current(): S.State
      reads this
    {
      S.State(pressed, hover, checked, toggle, pseudo, text, log)
    }

    /** nbtk_button_new. */
    constructor ()
      ensures Current() == S.Initial()
    {
      pressed, hover, checked, toggle := false, false, false, false;
      pseudo := S.NoPseudoClass;
      text := None;
      log := [];
    }

    /** nbtk_button_new_with_label: a fresh button whose "label" property is set. */
    constructor WithLabel(labelText: Option<string>)
      ensures Current() == S.SetLabel(S.Initial(), labelText)
    {
      pressed, hover, checked, toggle := false, false, false, false;
      pseudo := S.NoPseudoClass;
      text := None;
      log := [];
      new;
      SetLabel(labelText);
    }

    /** nbtk_button_real_pressed. */
    method RealPressed()
      modifies this
      ensures Current() == S.RealPressed(old(Current()))
    {
      pseudo := S.Active;
    }

    /** nbtk_button_real_released. */
    method RealReleased()
      modifies this
      ensures Current() == S.RealReleased(old(Current()))
    {
      if checked {
        pseudo := S.Checked;
      } else if !hover {
        pseudo := S.NoPseudoClass;
      } else {
        pseudo := S.Hover;
      }
    }

    /** nbtk_button_button_press. */
    method ButtonPress(button: nat) returns (handled: bool)
      modifies this
      ensures handled == S.ButtonPress(old(Current()), button).handled
      ensures Current() == S.ButtonPress(old(Current()), button).state
    {
      if button == 1 {
        pressed := true;
        RealPressed();
        return true;
      }
      return false;
    }

    /** nbtk_button_button_release. */
    method ButtonRelease(button: nat) returns (handled: bool)
      modifies this
      ensures handled == S.ButtonRelease(old(Current()), button).handled
      ensures Current() == S.ButtonRelease(old(Current()), button).state
    {
      if button == 1 {
        if !pressed {
          return false;
        }
        if toggle {
          SetChecked(!checked);
        }
        pressed := false;
        RealReleased();
        log := log + [S.ClickedSignal];
        return true;
      }
      return false;
    }

    /** nbtk_button_enter; the event always propagates. */
    method Enter() returns (handled: bool)
      modifies this
      ensures !handled
      ensures Current() == S.Enter(old(Current()))
    {
      if !checked {
        pseudo := S.Hover;
      }
      hover := true;
      return false;
    }

    /** nbtk_button_leave; the event always propagates. */
    method Leave() returns (handled: bool)
      modifies this
      ensures !handled
      ensures Current() == S.Leave(old(Current()))
    {
      hover := false;
      if pressed {
        pressed := false;
        RealReleased();
      }
      if checked {
        pseudo := S.Checked;
      } else {
        pseudo := S.NoPseudoClass;
      }
      return false;
    }

    /** nbtk_button_get_label. */
    method GetLabel() returns (labelText: Option<string>)
      ensures labelText == Current().text
    {
      labelText := text;
    }

    /** nbtk_button_set_label, text only. */
    method SetLabel(labelText: Option<string>)
      modifies this
      ensures Current() == S.SetLabel(old(Current()), labelText)
    {
      if labelText.Some? {
        text := Some(labelText.value);
      } else {
        text := Some("");
      }
      log := log + [S.LabelNotify];
    }

    /** nbtk_button_get_toggle_mode. */
    method GetToggleMode() returns (t: bool)
      ensures t == Current().toggle
    {
      t := toggle;
    }

    /** nbtk_button_set_toggle_mode. */
    method SetToggleMode(t: bool)
      modifies this
      ensures Current() == S.SetToggleMode(old(Current()), t)
    {
      toggle := t;
      log := log + [S.ToggleModeNotify];
    }

    /** nbtk_button_get_checked. */
    method GetChecked() returns (c: bool)
      ensures c == Current().checked
    {
      c := checked;
    }

    /** nbtk_button_set_checked. */
    method SetChecked(c: bool)
      modifies this
      ensures Current() == S.SetChecked(old(Current()), c)
    {
      if checked != c {
        checked := c;
        if c {
          pseudo := S.Checked;
        } else if hover {
          pseudo := S.Hover;
        } else {
          pseudo := S.NoPseudoClass;
        }
      }
      log := log + [S.CheckedNotify];
    }
  }
}
