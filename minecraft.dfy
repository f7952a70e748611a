/** `src/minecraft.rs`: the first generation of the sprite renderer. Its
    `Skin`, `Limb`, `Trim`, `Face` and `Texel` do what the `Puppet` classes
    do, with two differences: `Skin::load` has no slim probe (the regular
    layout always), and nothing is gamma-corrected, which is `Puppet` with
    the identity as gamma. `render_images` runs the standing schedule of
    `render_skin` into the `temp` directory, with the pain tint fixed at
    `(255, 70, 70, 255)`. The atlas patches are `Patches.MinecraftPatches`. */
module Classic {
  import opened Common
  import opened Patches
  import opened Geometry
  import opened Textures
  import opened Puppet
  import opened Cameras
  import opened Disks
  import opened SkinRenders
  import opened SkinSchedules

  /** The fixed colour of `Skin::apply_red`. */
  const PAIN_RED := Rgba(255, 70, 70, 255)

  /** A face texture is the cropped rectangle as it is: pixel `(i, j)` of
      face `k` is atlas pixel `(x + i, y + j)` of that face's rectangle. */
  lemma RawFaceTexture(atlas: Atlas, name: string, patch: Patch, k: nat, i: nat, j: nat)
    requires k < 6 && Readable(atlas, patch)
    ensures var q := FacePatch(patch, Directions[k]);
      var image := FaceOf(atlas, name, patch, k, Textures.Identity);
      InAtlas(q, atlas.Length0, atlas.Length1)
      && |image.texture| == q.height * q.width
      && (i < q.width && j < q.height ==>
            j * q.width + i < |image.texture| && image.texture[j * q.width + i] == atlas[q.x + i, q.y + j])
  {
    var q := FacePatch(patch, Directions[k]);
    assert InAtlas(q, atlas.Length0, atlas.Length1);
    CroppedAt(atlas, q, Textures.Identity, q.height, i, j);
    if i < q.width && j < q.height {
      MulBelow(j, q.height, q.width, i);
    }
  }

  /** A texel carries the opaque atlas pixel it was made from, unchanged. */
  lemma RawTexel(atlas: Atlas, p: Patch, t: Texel)
    requires Readable(atlas, p) && t in TrimTexels(atlas, p, Textures.Identity)
    ensures var q := FacePatch(p, t.dir);
      InAtlas(q, atlas.Length0, atlas.Length1)
      && (exists px: nat, py: nat :: px < q.width && py < q.height && t == MkTexel(atlas, q, t.dir, Textures.Identity, px, py)
            && t.pixel == atlas[q.x + px, q.y + py] && t.pixel.a == 255)
  {
    assert t.dir in Directions;
    TrimTexelsByFace(atlas, p, Textures.Identity, t.dir, t);
    RawFaceTexel(atlas, FacePatch(p, t.dir), t);
  }

  /** The same for the texels of one face rectangle. */
  lemma RawFaceTexel(atlas: Atlas, q: Patch, t: Texel)
    requires InAtlas(q, atlas.Length0, atlas.Length1) && t in FaceTexels(atlas, q, t.dir, Textures.Identity)
    ensures exists px: nat, py: nat ::
      px < q.width && py < q.height && t == MkTexel(atlas, q, t.dir, Textures.Identity, px, py)
      && t.pixel == atlas[q.x + px, q.y + py] && t.pixel.a == 255
  {
    InColumns(atlas, q, t.dir, Textures.Identity, q.width, t);
    var px: nat, py: nat :| px < q.width && py < q.height && Opaque(atlas[q.x + px, q.y + py])
      && t == MkTexel(atlas, q, t.dir, Textures.Identity, px, py);
    assert t.pixel == atlas[q.x + px, q.y + py];
  }

  /** Frame `G`: every part back at its base with the identity, and every
      face and texel `(255, 70, 70, 255)`. */
  lemma PainFrame(s: SkinState)
    requires WellFormed(s)
    ensures var r := SkinOp(s, 'G');
      forall k :: 0 <= k < 6 ==>
        r.limbs[k] == PartState(s.limbs[k].base, Placed(Identity, s.limbs[k].base), PAIN_RED)
        && r.trims[k] == PartState(s.trims[k].base, Placed(Identity, s.trims[k].base), PAIN_RED)
  {
    var r := SkinOp(s, 'G');
    assert r == ApplyRedSpec(s, PAIN_SATURATION);
    forall k | 0 <= k < 6
      ensures r.limbs[k] == PartState(s.limbs[k].base, Placed(Identity, s.limbs[k].base), PAIN_RED)
      ensures r.trims[k] == PartState(s.trims[k].base, Placed(Identity, s.trims[k].base), PAIN_RED)
    {
      assert ResetSpec(s).limbs[k] == SetPose(s.limbs[k], Identity);
      assert ResetSpec(s).trims[k] == SetPose(s.trims[k], Identity);
    }
  }

  /** `render_images`: load the skin, then the 23 standing frames, each
      saved as `{sprite}{frame}{rotation}.png` into `temp`, which already
      holds `before`. The camera is the caller's and ends where it
      started. */
  method RenderImages(atlas: Atlas, sprite: string, rendering: Rendering, temp: Folder, ghost before: seq<Picture>)
    requires atlas.Length0 >= 64 && atlas.Length1 >= 64 && Normal(rendering.camera)
    requires temp.Valid() && temp.views == PictureMap(before)
    modifies temp, rendering
    ensures temp.Valid() && rendering.camera == old(rendering.camera)
    ensures temp.views == PictureMap(before + AllSkinPictures(sprite, LoadedState(false), false, old(rendering.camera)))
  {
    var skin := new Skin.LoadClassic(atlas, sprite);
    RenderFrames(skin, sprite, false, rendering, temp, before);
  }

  /** `render_images` adds exactly 72 distinct files to `temp`, and keeps
      the files already there. */
  lemma ImagesAdded(before: seq<Picture>, sprite: string, cam: Camera)
    ensures var images := AllSkinPictures(sprite, LoadedState(false), false, cam);
      |images| == |PictureMap(images)| == 72
      && forall f :: f in PictureMap(before + images) <==> f in PictureMap(before) || f in Names(images)
  {
    var images := AllSkinPictures(sprite, LoadedState(false), false, cam);
    SkinDirectorySizes(sprite, LoadedState(false), cam);
    PictureMapKeys(before);
    PictureMapKeys(before + images);
    assert Names(before + images) == Names(before) + Names(images);
  }
}
