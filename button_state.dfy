/**
  The press/hover/checked state machine of nbtk/nbtk-button.c as a value:
  the private bits, the style pseudo-class the button last set on itself,
  the label text and the log of notifications and "clicked" emissions. The
  class NbtkButton.Button changes the same fields in place and is proved to
  agree with these functions.
 */
module ButtonState {
  import opened Optional

  /** The style pseudo-class: none (NULL), "hover", "active" or "checked". */
  datatype PseudoClass = NoPseudoClass | Hover | Active | Checked

  datatype Notice = LabelNotify | ToggleModeNotify | CheckedNotify | ClickedSignal

  datatype State = State(
    pressed: bool,
    hover: bool,
    checked: bool,
    toggle: bool,
    pseudo: PseudoClass,
    text: Option<string>,
    log: seq<Notice>)

  /** What an event handler reports: whether it handled the event, and the state after. */
  datatype Handled = Handled(handled: bool, state: State)

  /** A fresh button: every bit clear, no pseudo-class, no text. */
  function Initial(): (s: State)
    ensures !s.pressed && !s.hover && !s.checked && !s.toggle
    ensures s.pseudo == NoPseudoClass && s.text == None && s.log == []
  {
    State(false, false, false, false, NoPseudoClass, None, [])
  }

  /** The pseudo-class a button shows when nothing is pressed: "checked", else "hover", else none. */
  function Resting(checked: bool, hover: bool): (p: PseudoClass)
    ensures p == Checked <==> checked
    ensures p == Hover <==> !checked && hover
    ensures p == NoPseudoClass <==> !checked && !hover
  {
    if checked then Checked else if hover then Hover else NoPseudoClass
  }

  /** Everything but the pseudo-class and the log agrees. */
  predicate SameBits(a: State, b: State)
  {
    a.pressed == b.pressed && a.hover == b.hover && a.checked == b.checked &&
    a.toggle == b.toggle && a.text == b.text
  }

  /** The class's default `pressed` handler, nbtk_button_real_pressed. */
  function RealPressed(s: State): (r: State)
    ensures r.pseudo == Active
    ensures SameBits(s, r) && r.log == s.log
  {
    s.(pseudo := Active)
  }

  /** The class's default `released` handler, nbtk_button_real_released. */
  function RealReleased(s: State): (r: State)
    ensures r.pseudo == Resting(s.checked, s.hover)
    ensures SameBits(s, r) && r.log == s.log
  {
    if s.checked then s.(pseudo := Checked)
    else if !s.hover then s.(pseudo := NoPseudoClass)
    else s.(pseudo := Hover)
  }

  /** nbtk_button_set_checked. */
  function SetChecked(s: State, checked: bool): (r: State)
    ensures r.checked == checked
    ensures r.pressed == s.pressed && r.hover == s.hover && r.toggle == s.toggle
    ensures r.text == s.text
    ensures s.checked != checked ==> r.pseudo == Resting(checked, s.hover)
    ensures s.checked == checked ==> r.pseudo == s.pseudo
    ensures r.log == s.log + [CheckedNotify]
  {
    var t :=
      if s.checked != checked then
        var c := s.(checked := checked);
        if checked then c.(pseudo := Checked)
        else if c.hover then c.(pseudo := Hover)
        else c.(pseudo := NoPseudoClass)
      else s;
    t.(log := t.log + [CheckedNotify])
  }

  /** nbtk_button_button_press: only button 1 is handled. */
  function ButtonPress(s: State, button: nat): (h: Handled)
    ensures h.handled <==> button == 1
    ensures !h.handled ==> h.state == s
    ensures h.handled ==> h.state == s.(pressed := true, pseudo := Active)
  {
    if button == 1 then Handled(true, RealPressed(s.(pressed := true)))
    else Handled(false, s)
  }

  /**
    nbtk_button_button_release: only a button-1 release after a press is
    handled; in toggle mode it flips the checked state first, then clears
    the press, restores the resting pseudo-class and emits "clicked".
   */
  function ButtonRelease(s: State, button: nat): (h: Handled)
    ensures h.handled <==> button == 1 && s.pressed
    ensures !h.handled ==> h.state == s
    ensures h.handled ==> !h.state.pressed
    ensures h.handled ==> h.state.checked == (s.checked != s.toggle)
    ensures h.handled ==> h.state.pseudo == Resting(h.state.checked, s.hover)
    ensures h.handled ==> h.state.log == s.log + (if s.toggle then [CheckedNotify] else []) + [ClickedSignal]
    ensures h.handled ==> h.state.hover == s.hover && h.state.toggle == s.toggle && h.state.text == s.text
  {
    if button == 1 then
      if !s.pressed then Handled(false, s)
      else
        var t := if s.toggle then SetChecked(s, !s.checked) else s;
        var u := RealReleased(t.(pressed := false));
        Handled(true, u.(log := u.log + [ClickedSignal]))
    else
      Handled(false, s)
  }

  /**
    nbtk_button_enter: "hover" unless checked, then the hover bit. The
    handler always lets the event propagate.
   */
  function Enter(s: State): (r: State)
    ensures r.hover
    ensures r.pseudo == (if s.checked then s.pseudo else Hover)
    ensures r == s.(hover := true, pseudo := r.pseudo)
  {
    var t := if !s.checked then s.(pseudo := Hover) else s;
    t.(hover := true)
  }

  /**
    nbtk_button_leave: clear the hover bit, cancel a press without
    clicking, then "checked" or no pseudo-class. The handler always lets the
    event propagate.
   */
  function Leave(s: State): (r: State)
    ensures !r.hover && !r.pressed
    ensures r.pseudo == Resting(s.checked, false)
    ensures r == s.(hover := false, pressed := false, pseudo := r.pseudo)
  {
    var t := s.(hover := false);
    var u := if t.pressed then RealReleased(t.(pressed := false)) else t;
    if u.checked then u.(pseudo := Checked) else u.(pseudo := NoPseudoClass)
  }

  /** nbtk_button_set_toggle_mode. */
  function SetToggleMode(s: State, toggle: bool): (r: State)
    ensures r.toggle == toggle && r.log == s.log + [ToggleModeNotify]
    ensures r == s.(toggle := toggle, log := r.log)
  {
    s.(toggle := toggle, log := s.log + [ToggleModeNotify])
  }

  /** nbtk_button_set_label, text only: NULL stores the empty string. */
  function SetLabel(s: State, text: Option<string>): (r: State)
    ensures text == None ==> r.text == Some("")
    ensures text != None ==> r.text == text
    ensures r.log == s.log + [LabelNotify]
    ensures r == s.(text := r.text, log := r.log)
  {
    var stored := if text.Some? then text.value else "";
    s.(text := Some(stored), log := s.log + [LabelNotify])
  }
}
