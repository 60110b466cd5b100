/**
  The frame record of mx/mx-subtexture.c as a value: the parent texture,
  the four frame fields, whether a material exists, the actor flags the
  code reads or sets, counts of queued redraws and relayouts, and the log
  of property notifications. The class MxSubtextureActor.Subtexture changes
  the same fields in place and is proved to agree with these functions.
 */
module SubtextureState {
  import opened Optional

  /** A texture, known only by its identity. */
  type TextureId = nat

  datatype Frame = Frame(left: int, top: int, width: int, height: int)

  datatype Notice = TopNotify | LeftNotify | WidthNotify | HeightNotify | ParentTextureNotify

  datatype State = State(
    parent: Option<TextureId>,
    left: int,
    top: int,
    width: int,
    height: int,
    /** priv->material != COGL_INVALID_HANDLE */
    material: bool,
    /** the actor's REALIZED flag */
    realized: bool,
    /** CLUTTER_ACTOR_IS_VISIBLE */
    visible: bool,
    redraws: nat,
    relayouts: nat,
    log: seq<Notice>)

  /** A fresh actor: no parent texture, a zero frame, no material, hidden. */
  function Initial(): (s: State)
    ensures s.parent == None && !s.material && !s.realized && !s.visible
    ensures s.redraws == 0 && s.relayouts == 0 && s.log == []
  {
    State(None, 0, 0, 0, 0, false, false, false, 0, 0, [])
  }

  /** mx_subtexture_get_frame, every out-parameter requested. */
  function GetFrame(s: State): (f: Frame)
    ensures f.left == s.left && f.top == s.top && f.width == s.width && f.height == s.height
  {
    Frame(s.left, s.top, s.width, s.height)
  }

  /** The notifications set_frame_internal makes: each field that differs, in the order top, left, width, height. */
  function FrameNotices(s: State, left: int, top: int, width: int, height: int): (n: seq<Notice>)
    ensures TopNotify in n <==> s.top != top
    ensures LeftNotify in n <==> s.left != left
    ensures WidthNotify in n <==> s.width != width
    ensures HeightNotify in n <==> s.height != height
    ensures ParentTextureNotify !in n
    ensures n == [] <==> GetFrame(s) == Frame(left, top, width, height)
  {
    (if s.top != top then [TopNotify] else []) +
    (if s.left != left then [LeftNotify] else []) +
    (if s.width != width then [WidthNotify] else []) +
    (if s.height != height then [HeightNotify] else [])
  }

  /** Everything but the frame, the redraw count and the log agrees. */
  predicate SameActor(a: State, b: State)
  {
    a.parent == b.parent && a.material == b.material && a.realized == b.realized &&
    a.visible == b.visible && a.relayouts == b.relayouts
  }

  /** One step of set_frame_internal: store and notify `top` if it differs. */
  function WriteTop(s: State, top: int): (r: State)
    ensures r.log == s.log + (if s.top != top then [TopNotify] else [])
    ensures r == s.(top := top, log := r.log)
  {
    if s.top != top then s.(top := top, log := s.log + [TopNotify]) else s
  }

  function WriteLeft(s: State, left: int): (r: State)
    ensures r.log == s.log + (if s.left != left then [LeftNotify] else [])
    ensures r == s.(left := left, log := r.log)
  {
    if s.left != left then s.(left := left, log := s.log + [LeftNotify]) else s
  }

  function WriteWidth(s: State, width: int): (r: State)
    ensures r.log == s.log + (if s.width != width then [WidthNotify] else [])
    ensures r == s.(width := width, log := r.log)
  {
    if s.width != width then s.(width := width, log := s.log + [WidthNotify]) else s
  }

  function WriteHeight(s: State, height: int): (r: State)
    ensures r.log == s.log + (if s.height != height then [HeightNotify] else [])
    ensures r == s.(height := height, log := r.log)
  {
    if s.height != height then s.(height := height, log := s.log + [HeightNotify]) else s
  }

  /**
    mx_subtexture_set_frame_internal: write and notify each field that
    differs, and queue one redraw if any did and the actor is visible.
   */
  function SetFrameInternal(s: State, left: int, top: int, width: int, height: int): (r: State)
    ensures GetFrame(r) == Frame(left, top, width, height)
    ensures r.log == s.log + FrameNotices(s, left, top, width, height)
    ensures r.redraws == s.redraws + (if GetFrame(s) != GetFrame(r) && s.visible then 1 else 0)
    ensures SameActor(s, r)
  {
    var s1 := WriteTop(s, top);
    var s2 := WriteLeft(s1, left);
    var s3 := WriteWidth(s2, width);
    var s4 := WriteHeight(s3, height);
    var changed := s.top != top || s.left != left || s.width != width || s.height != height;
    assert s4.log == s.log + FrameNotices(s, left, top, width, height) by {
      var nt := if s.top != top then [TopNotify] else [];
      var nl := if s.left != left then [LeftNotify] else [];
      var nw := if s.width != width then [WidthNotify] else [];
      var nh := if s.height != height then [HeightNotify] else [];
      assert s4.log == s.log + nt + nl + nw + nh;
      assert FrameNotices(s, left, top, width, height) == nt + nl + nw + nh;
      AppendFour(s.log, nt, nl, nw, nh);
    }
    if changed && s.visible then s4.(redraws := s4.redraws + 1) else s4
  }

  lemma AppendFour(a: seq<Notice>, b: seq<Notice>, c: seq<Notice>, d: seq<Notice>, e: seq<Notice>)
    ensures a + b + c + d + e == a + (b + c + d + e)
  {
    assert a + b + c + d + e == a + (b + c + d) + e;
  }

  /** mx_subtexture_set_frame. */
  function SetFrame(s: State, left: int, top: int, width: int, height: int): (r: State)
    ensures GetFrame(r) == Frame(left, top, width, height)
    ensures r == SetFrameInternal(s, left, top, width, height)
  {
    SetFrameInternal(s, left, top, width, height)
  }

  /** The "top" case of set_property: the frame with only `top` replaced. */
  function SetTop(s: State, top: int): (r: State)
    ensures GetFrame(r) == GetFrame(s).(top := top)
    ensures r.log == s.log + (if s.top != top then [TopNotify] else [])
    ensures SameActor(s, r)
  {
    SetFrameInternal(s, s.left, top, s.width, s.height)
  }

  /** The "left" case of set_property. */
  function SetLeft(s: State, left: int): (r: State)
    ensures GetFrame(r) == GetFrame(s).(left := left)
    ensures r.log == s.log + (if s.left != left then [LeftNotify] else [])
    ensures SameActor(s, r)
  {
    SetFrameInternal(s, left, s.top, s.width, s.height)
  }

  /** The "width" case of set_property. */
  function SetWidth(s: State, width: int): (r: State)
    ensures GetFrame(r) == GetFrame(s).(width := width)
    ensures r.log == s.log + (if s.width != width then [WidthNotify] else [])
    ensures SameActor(s, r)
  {
    SetFrameInternal(s, s.left, s.top, width, s.height)
  }

  /** The "height" case of set_property. */
  function SetHeight(s: State, height: int): (r: State)
    ensures GetFrame(r) == GetFrame(s).(height := height)
    ensures r.log == s.log + (if s.height != height then [HeightNotify] else [])
    ensures SameActor(s, r)
  {
    SetFrameInternal(s, s.left, s.top, s.width, height)
  }

  /** Minimum and natural size, as a preferred-size query reports them. */
  datatype Size = Size(min: int, natural: int)

  /** mx_subtexture_get_preferred_width: the frame width once a parent texture is set, else 0. */
  function GetPreferredWidth(s: State, forHeight: int): (r: Size)
    ensures s.parent == None ==> r == Size(0, 0)
    ensures s.parent != None ==> r == Size(s.width, s.width)
  {
    if s.parent == None then Size(0, 0) else Size(s.width, s.width)
  }

  /** mx_subtexture_get_preferred_height: the frame height once a parent texture is set, else 0. */
  function GetPreferredHeight(s: State, forWidth: int): (r: Size)
    ensures s.parent == None ==> r == Size(0, 0)
    ensures s.parent != None ==> r == Size(s.height, s.height)
  {
    if s.parent == None then Size(0, 0) else Size(s.height, s.height)
  }

  /** mx_subtexture_realize: create the material and set REALIZED, unless a material exists. */
  function Realize(s: State): (r: State)
    ensures r.material
    ensures s.material ==> r == s
    ensures !s.material ==> r == s.(material := true, realized := true)
  {
    if s.material then s else s.(material := true, realized := true)
  }

  /** mx_subtexture_unrealize: drop the material and clear REALIZED, unless there is no material. */
  function Unrealize(s: State): (r: State)
    ensures !r.material
    ensures !s.material ==> r == s
    ensures s.material ==> r == s.(material := false, realized := false)
  {
    if !s.material then s else s.(material := false, realized := false)
  }

  /**
    mx_subtexture_set_parent_texture. `textureVisible` is whether the new
    texture is itself visible. Nothing happens if the texture is the current
    one. Otherwise a visible actor is hidden when its old texture is dropped
    and shown again only if the new texture is visible; then a relayout is
    queued and "parent-texture" notified.
   */
  function SetParentTexture(s: State, texture: Option<TextureId>, textureVisible: bool): (r: State)
    ensures s.parent == texture ==> r == s
    ensures s.parent != texture ==> r.parent == texture
    ensures s.parent != texture ==> r.relayouts == s.relayouts + 1 && r.log == s.log + [ParentTextureNotify]
    ensures s.parent != texture ==>
              r.visible == (s.visible && (s.parent == None || (texture != None && textureVisible)))
    ensures GetFrame(r) == GetFrame(s) && r.material == s.material && r.realized == s.realized
    ensures r.redraws == s.redraws
  {
    var wasVisible := s.visible;
    if s.parent == texture then s
    else
      var t := if s.parent.Some? then
                 var u := s.(parent := None);
                 if wasVisible then u.(visible := false) else u
               else s;
      var v := if texture.Some? then
                 var w := t.(parent := texture);
                 if wasVisible && textureVisible then w.(visible := true) else w
               else t;
      v.(relayouts := v.relayouts + 1, log := v.log + [ParentTextureNotify])
  }

  /** mx_subtexture_get_parent_texture. */
  function GetParentTexture(s: State): (t: Option<TextureId>)
    ensures t == s.parent
  {
    s.parent
  }

  /** The actor's show and hide, which the subtexture does not override. */
  function SetVisible(s: State, visible: bool): (r: State)
    ensures r.visible == visible
    ensures r == s.(visible := visible)
  {
    s.(visible := visible)
  }

  /**
    mx_subtexture_new: g_object_new sets the construct property
    "parent-texture" first, on a hidden actor, then "top", "left", "width"
    and "height" in the order they are passed.
   */
  function New(texture: Option<TextureId>, textureVisible: bool, left: int, top: int, width: int, height: int): (r: State)
    ensures r.parent == texture && GetFrame(r) == Frame(left, top, width, height)
    ensures !r.visible && !r.material && r.redraws == 0
  {
    var s0 := SetParentTexture(Initial(), texture, textureVisible);
    var s1 := SetTop(s0, top);
    var s2 := SetLeft(s1, left);
    var s3 := SetWidth(s2, width);
    SetHeight(s3, height)
  }
}
