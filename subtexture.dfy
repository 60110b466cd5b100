/**
  MxSubtexture as an object: the frame fields, the material and the actor
  flags are fields, updated in place as the C code does. Every method is
  proved to agree with the corresponding function of SubtextureState.
 */
module MxSubtextureActor {
  import opened Optional
  import S = SubtextureState

  class Subtexture {
    var parent: Option<S.TextureId>
    var left: int
    var top: int
    var width: int
    var height: int
    var material: bool
    var realized: bool
    var visible: bool
    var redraws: nat
    var relayouts: nat
    var log: seq<S.Notice>

    function Current(): S.State
      reads this
    {
      S.State(parent, left, top, width, height, material, realized, visible, redraws, relayouts, log)
    }

    /** mx_subtexture_new. */
    constructor (texture: Option<S.TextureId>, textureVisible: bool, left: int, top: int, width: int, height: int)
      ensures Current() == S.New(texture, textureVisible, left, top, width, height)
    {
      this.parent := None;
      this.left, this.top, this.width, this.height := 0, 0, 0, 0;
      this.material, this.realized, this.visible := false, false, false;
      this.redraws, this.relayouts, this.log := 0, 0, [];
      new;
      SetParentTexture(texture, textureVisible);
      SetTop(top);
      SetLeft(left);
      SetWidth(width);
      SetHeight(height);
    }

    /** One block of set_frame_internal: store and notify `top` if it differs. */
    method WriteTop(t: int) returns (changed: bool)
      modifies this
      ensures changed == (old(top) != t)
      ensures Current() == S.WriteTop(old(Current()), t)
    {
      changed := false;
      if top != t {
        top := t;
        log := log + [S.TopNotify];
        changed := true;
      }
    }

    method WriteLeft(l: int) returns (changed: bool)
      modifies this
      ensures changed == (old(left) != l)
      ensures Current() == S.WriteLeft(old(Current()), l)
    {
      changed := false;
      if left != l {
        left := l;
        log := log + [S.LeftNotify];
        changed := true;
      }
    }

    method WriteWidth(w: int) returns (changed: bool)
      modifies this
      ensures changed == (old(width) != w)
      ensures Current() == S.WriteWidth(old(Current()), w)
    {
      changed := false;
      if width != w {
        width := w;
        log := log + [S.WidthNotify];
        changed := true;
      }
    }

    method WriteHeight(h: int) returns (changed: bool)
      modifies this
      ensures changed == (old(height) != h)
      ensures Current() == S.WriteHeight(old(Current()), h)
    {
      changed := false;
      if height != h {
        height := h;
        log := log + [S.HeightNotify];
        changed := true;
      }
    }

    /** mx_subtexture_set_frame_internal. */
    method SetFrameInternal(l: int, t: int, w: int, h: int)
      modifies this
      ensures Current() == S.SetFrameInternal(old(Current()), l, t, w, h)
    {
      var changed := false;
      var c := WriteTop(t);
      changed := changed || c;
      c := WriteLeft(l);
      changed := changed || c;
      c := WriteWidth(w);
      changed := changed || c;
      c := WriteHeight(h);
      changed := changed || c;
      if changed && visible {
        redraws := redraws + 1;
      }
    }

    /** mx_subtexture_set_frame. */
    method SetFrame(l: int, t: int, w: int, h: int)
      modifies this
      ensures Current() == S.SetFrame(old(Current()), l, t, w, h)
    {
      SetFrameInternal(l, t, w, h);
    }

    /** mx_subtexture_get_frame. */
    method GetFrame() returns (f: S.Frame)
      ensures f == S.GetFrame(Current())
    {
      f := S.Frame(left, top, width, height);
    }

    /** The "top" case of set_property. */
    method SetTop(t: int)
      modifies this
      ensures Current() == S.SetTop(old(Current()), t)
    {
      SetFrameInternal(left, t, width, height);
    }

    /** The "left" case of set_property. */
    method SetLeft(l: int)
      modifies this
      ensures Current() == S.SetLeft(old(Current()), l)
    {
      SetFrameInternal(l, top, width, height);
    }

    /** The "width" case of set_property. */
    method SetWidth(w: int)
      modifies this
      ensures Current() == S.SetWidth(old(Current()), w)
    {
      SetFrameInternal(left, top, w, height);
    }

    /** The "height" case of set_property. */
    method SetHeight(h: int)
      modifies this
      ensures Current() == S.SetHeight(old(Current()), h)
    {
      SetFrameInternal(left, top, width, h);
    }

    /** mx_subtexture_get_preferred_width. */
    method GetPreferredWidth(forHeight: int) returns (r: S.Size)
      ensures r == S.GetPreferredWidth(Current(), forHeight)
    {
      if parent == None {
        r := S.Size(0, 0);
      } else {
        r := S.Size(width, width);
      }
    }

    /** mx_subtexture_get_preferred_height. */
    method GetPreferredHeight(forWidth: int) returns (r: S.Size)
      ensures r == S.GetPreferredHeight(Current(), forWidth)
    {
      if parent == None {
        r := S.Size(0, 0);
      } else {
        r := S.Size(height, height);
      }
    }

    /** mx_subtexture_realize. */
    method Realize()
      modifies this
      ensures Current() == S.Realize(old(Current()))
    {
      if material {
        return;
      }
      material := true;
      realized := true;
    }

    /** mx_subtexture_unrealize. */
    method Unrealize()
      modifies this
      ensures Current() == S.Unrealize(old(Current()))
    {
      if !material {
        return;
      }
      material := false;
      realized := false;
    }

    /** mx_subtexture_get_parent_texture. */
    method GetParentTexture() returns (t: Option<S.TextureId>)
      ensures t == S.GetParentTexture(Current())
    {
      t := parent;
    }

    /** mx_subtexture_set_parent_texture; `textureVisible` is whether the new texture is visible. */
    method SetParentTexture(texture: Option<S.TextureId>, textureVisible: bool)
      modifies this
      ensures Current() == S.SetParentTexture(old(Current()), texture, textureVisible)
    {
      var wasVisible := visible;
      if parent == texture {
        return;
      }
      if parent.Some? {
        parent := None;
        if wasVisible {
          visible := false;
        }
      }
      if texture.Some? {
        parent := texture;
        if wasVisible && textureVisible {
          visible := true;
        }
      }
      relayouts := relayouts + 1;
      log := log + [S.ParentTextureNotify];
    }

    /** The actor's show (true) or hide (false). */
    method SetVisible(v: bool)
      modifies this
      ensures Current() == S.SetVisible(old(Current()), v)
    {
      visible := v;
    }
  }
}
