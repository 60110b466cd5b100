/**
  Properties of the subtexture that relate several calls: reading back a
  frame, repeated writes, the single-property setters, the preferred size,
  and the realize/unrealize and parent-texture guards.
 */
module SubtextureLemmas {
  import opened Optional
  import opened SubtextureState

  /** set_frame then get_frame returns exactly the four numbers written. */
  lemma SetFrameGetFrame(s: State, left: int, top: int, width: int, height: int)
    ensures GetFrame(SetFrame(s, left, top, width, height)) == Frame(left, top, width, height)
  {
  }

  /** Writing the frame it already has changes nothing: no notification, no redraw. */
  lemma SetFrameUnchanged(s: State)
    ensures SetFrame(s, s.left, s.top, s.width, s.height) == s
  {
    assert FrameNotices(s, s.left, s.top, s.width, s.height) == [];
  }

  /** Writing the same frame twice is writing it once. */
  lemma {:induction false} SetFrameIdempotent(s: State, left: int, top: int, width: int, height: int)
    ensures var once := SetFrame(s, left, top, width, height);
              SetFrame(once, left, top, width, height) == once
  {
    var once := SetFrame(s, left, top, width, height);
    SetFrameUnchanged(once);
  }

  /** A redraw is queued exactly when some field changed and the actor is visible. */
  lemma RedrawIffChangedAndVisible(s: State, left: int, top: int, width: int, height: int)
    ensures var r := SetFrame(s, left, top, width, height);
              r.redraws == s.redraws + 1 <==>
                (s.visible && (s.left != left || s.top != top || s.width != width || s.height != height))
    ensures SetFrame(s, left, top, width, height).redraws <= s.redraws + 1
  {
  }

  /** Each single-property setter keeps the other three fields. */
  lemma SinglePropertySettersKeepOthers(s: State, x: int)
    ensures var r := SetTop(s, x); r.top == x && r.left == s.left && r.width == s.width && r.height == s.height
    ensures var r := SetLeft(s, x); r.left == x && r.top == s.top && r.width == s.width && r.height == s.height
    ensures var r := SetWidth(s, x); r.width == x && r.left == s.left && r.top == s.top && r.height == s.height
    ensures var r := SetHeight(s, x); r.height == x && r.left == s.left && r.top == s.top && r.width == s.width
  {
  }

  /**
    Setting the four properties one by one, in any of the ways set_property
    can be reached, ends with the same frame as one set_frame call.
   */
  lemma {:induction false} PropertiesAgreeWithSetFrame(s: State, left: int, top: int, width: int, height: int)
    ensures GetFrame(SetHeight(SetWidth(SetLeft(SetTop(s, top), left), width), height)) ==
            GetFrame(SetFrame(s, left, top, width, height))
  {
  }

  /** With a parent texture, the preferred size is the frame size; without one it is zero. */
  lemma PreferredSizeFollowsFrame(s: State, texture: TextureId, visible: bool, left: int, top: int, width: int, height: int, forHeight: int, forWidth: int)
    ensures var r := SetFrame(SetParentTexture(s, Some(texture), visible), left, top, width, height);
              GetPreferredWidth(r, forHeight) == Size(width, width) &&
              GetPreferredHeight(r, forWidth) == Size(height, height)
    ensures var r := SetFrame(SetParentTexture(s, None, visible), left, top, width, height);
              GetPreferredWidth(r, forHeight) == Size(0, 0) && GetPreferredHeight(r, forWidth) == Size(0, 0)
  {
  }

  /**
    realize and unrealize are each idempotent, and on an unrealized actor
    unrealize undoes realize: the material and the REALIZED flag both go.
   */
  lemma RealizeUnrealize(s: State)
    ensures Realize(Realize(s)) == Realize(s)
    ensures Unrealize(Unrealize(s)) == Unrealize(s)
    ensures !s.material ==> Unrealize(Realize(s)) == s.(realized := false)
    ensures Realize(Unrealize(s)) == Realize(s.(material := false))
  {
  }

  /** Setting the current parent texture again does nothing at all. */
  lemma SameParentIsNoOp(s: State, visible: bool)
    ensures SetParentTexture(s, s.parent, visible) == s
  {
  }

  /**
    A visible subtexture whose texture is swapped for a hidden one ends up
    hidden; one that had no texture stays visible whatever the new
    texture's visibility, because it was never hidden.
   */
  lemma ParentSwapVisibility(s: State, a: TextureId, b: TextureId)
    requires s.visible && a != b
    ensures !SetParentTexture(s.(parent := Some(a)), Some(b), false).visible
    ensures SetParentTexture(s.(parent := None), Some(b), false).visible
  {
  }

  /** A new subtexture reports the frame it was created with, and its preferred size follows it once it has a texture. */
  lemma NewReportsFrame(texture: TextureId, visible: bool, left: int, top: int, width: int, height: int)
    ensures var s := New(Some(texture), visible, left, top, width, height);
              && GetFrame(s) == Frame(left, top, width, height)
              && GetPreferredWidth(s, 0) == Size(width, width)
              && GetPreferredHeight(s, 0) == Size(height, height)
  {
  }
}
