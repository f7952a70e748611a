/** `src/convert.rs`: the oldest renderer. Each skin becomes six textured
    prisms placed 35 units behind the origin; the right leg swings back
    in eight steps while the camera circles the figure once, and every
    step is saved as `out/{name}-{k}.png`. Textures are not
    gamma-corrected, the trim layer is not drawn, and a prism's
    transformation is its base translation times the pose
    (`Placement.Based`). */
module Prisms {
  import opened Common
  import opened Patches
  import opened Geometry
  import opened Textures
  import opened Puppet
  import opened Cameras
  import opened Disks

  /** `depth`: how far behind the origin the prisms stand, in tenths. */
  const DEPTH := -350

  /** The viewport of `convert_all`: 128x128, not the 204x128 of
      `Rendering`. */
  const VIEWPORT_WIDTH := 128
  const VIEWPORT_HEIGHT := 128

  /** The camera turns about `(0, 0, depth)`, the plane of the prisms, and
      not about the origin as the cameras of `src/rendering.rs` do. */
  const PIVOT := AtZ(DEPTH)

  /** The cameras of this renderer are kept relative to `PIVOT`: a camera
      `c` stands at `PositionAdd(PIVOT, Where(c))`, so that a turn about
      the pivot is an `Orbit`. `START` is the camera of `convert_all`, at
      `(0, 0, 2)`, which is 37 units in front of the pivot (see
      `StartsInFront`). */
  const START := Camera(0, AtZ(20 - DEPTH))

  /** `camera.rotate_around_with_fixed_up(vec3(0.0, 0.0, depth), PI / 4.0,
      0.0)`, `k` times. */
  function Circled(cam: Camera, k: int): (r: Camera)
    ensures Normal(r) && r.frame == cam.frame
  {
    Orbit(cam, k)
  }

  /** The steps of the swing, and the camera's eighth turns per skin. */
  const STEPS := 8

  /** Slot 2 holds the right leg, the only prism that moves. */
  const SWINGING := 2

  /** Name suffix, patch, base translation and centre of one prism, as
      `convert` passes them to `Prism::load`. */
  datatype PrismSpec = PrismSpec(suffix: string, patch: Patch, translation: Vec, center: Vec)

  /** The six prisms of `convert`, in slot order. Legs and arms are centred
      4 units below their pivot so that they swing about their top. */
  function Layout(): (r: seq<PrismSpec>)
    ensures |r| == 6 && forall k :: 0 <= k < 6 ==> NetInAtlas(r[k].patch, 64, 64)
  {
    assert forall p :: p in ConvertPatches() ==> NetInAtlas(p, 64, 64);
    [PrismSpec("Head", HEAD, Vec(0, 110, DEPTH), Origin),
     PrismSpec("Body", BODY, Vec(0, 20, DEPTH), Origin),
     PrismSpec("RightLeg", RIGHT_LEG, Vec(-20, -60, DEPTH), Vec(0, -40, 0)),
     PrismSpec("RightArm", RIGHT_ARM, Vec(-60, 60, DEPTH), Vec(0, -40, 0)),
     PrismSpec("LeftLeg", LEFT_LEG, Vec(20, -60, DEPTH), Vec(0, -40, 0)),
     PrismSpec("LeftArm", LEFT_ARM, Vec(60, 60, DEPTH), Vec(0, -40, 0))]
  }

  /** The `index` each `Face::new_*` passes on: 0 for the front, 1 for the
      right, and 2 for back, left, top and bottom alike, so those four
      textures share the name `{name}_2`. */
  function FaceIndex(k: nat): (i: nat)
    requires k < 6
    ensures i <= 2 && (i == k || (k >= 2 && i == 2))
  {
    if k < 2 then k else 2
  }

  /** Face `k` of a prism: corners from the half size shifted by `center`,
      texture the cropped rectangle as it is. */
  function PrismFace(atlas: Atlas, name: string, patch: Patch, center: Vec, k: nat): FaceImage
    requires k < 6 && Readable(atlas, patch)
    reads atlas
  {
    var dir := Directions[k];
    var q := FacePatch(patch, dir);
    assert InAtlas(q, atlas.Length0, atlas.Length1);
    FaceImage(dir, FaceCorners(patch, dir, center), name + "_" + NatToString(FaceIndex(k)), q.width, q.height,
              Cropped(atlas, q, Textures.Identity, q.height))
  }

  /** `Face::new_*` of `src/convert.rs`. */
  method NewPrismFace(atlas: Atlas, name: string, patch: Patch, center: Vec, k: nat) returns (f: FaceModel)
    requires k < 6 && Readable(atlas, patch)
    ensures f == FaceModel(PrismFace(atlas, name, patch, center, k), Unset, White)
  {
    var dir := Directions[k];
    var q := FacePatch(patch, dir);
    assert InAtlas(q, atlas.Length0, atlas.Length1);
    var pixels := CropTexture(atlas, q, Textures.Identity);
    var index := if k < 2 then k else 2;
    f := FaceModel(FaceImage(dir, FaceCorners(patch, dir, center), name + "_" + NatToString(index), q.width, q.height, pixels),
                   Unset, White);
  }

  /** The six faces of `Prism::load`, front, right, back, left, top and
      bottom. */
  method NewPrismFaces(atlas: Atlas, name: string, patch: Patch, center: Vec) returns (fs: seq<FaceModel>)
    requires Readable(atlas, patch)
    ensures |fs| == 6 && forall k :: 0 <= k < 6 ==> fs[k] == FaceModel(PrismFace(atlas, name, patch, center, k), Unset, White)
  {
    var front := NewPrismFace(atlas, name, patch, center, 0);
    var right := NewPrismFace(atlas, name, patch, center, 1);
    var back := NewPrismFace(atlas, name, patch, center, 2);
    var left := NewPrismFace(atlas, name, patch, center, 3);
    var top := NewPrismFace(atlas, name, patch, center, 4);
    var bottom := NewPrismFace(atlas, name, patch, center, 5);
    fs := [front, right, back, left, top, bottom];
  }

  class Prism {
    var faces: seq<FaceModel>
    /** The base translation (`Mat4::from_translation(translation)`). */
    const matrix: Vec
    /** The transformation every face carries. */
    ghost var placement: Placement

    ghost predicate Valid()
      reads this
    {
      |faces| == 6 && forall k :: 0 <= k < 6 ==> faces[k].placement == placement && faces[k].color == White
    }

    /** `Prism::load`: six faces, base `translation`, and every face given
        the translation itself, which is the translation times the
        identity. */
    constructor Load(atlas: Atlas, name: string, patch: Patch, translation: Vec, center: Vec)
      requires Readable(atlas, patch)
      ensures Valid() && matrix == translation && placement == Based(translation, Identity)
      ensures forall k :: 0 <= k < 6 ==> faces[k].image == PrismFace(atlas, name, patch, center, k)
    {
      var fs := NewPrismFaces(atlas, name, patch, center);
      faces := fs;
      matrix := translation;
      placement := Unset;
      new;
      Place(Based(translation, Identity));
    }

    /** Give every face transformation `p`. */
    method Place(p: Placement)
      requires |faces| == 6 && forall k :: 0 <= k < 6 ==> faces[k].color == White
      modifies this
      ensures Valid() && placement == p
      ensures forall k :: 0 <= k < 6 ==> faces[k].image == old(faces[k].image)
    {
      var i := 0;
      while i < |faces|
        invariant i <= |faces| == 6
        invariant forall k :: 0 <= k < 6 ==> faces[k].image == old(faces[k].image) && faces[k].color == White
        invariant forall k :: 0 <= k < i ==> faces[k].placement == p
      {
        faces := faces[i := faces[i].(placement := p)];
        i := i + 1;
      }
      placement := p;
    }

    /** `set_transformation`: every face gets `matrix * transformation`,
        overwriting whatever it had. */
    method SetTransformation(t: Pose)
      requires Valid()
      modifies this
      ensures Valid() && placement == Based(matrix, t)
      ensures forall k :: 0 <= k < 6 ==> faces[k].image == old(faces[k].image)
    {
      Place(Based(matrix, t));
    }
  }

  /** The pose of the right leg at step `k`: `Mat4::from_angle_x` of
      `-15 k` degrees. */
  function LegSwing(k: nat): Pose
  {
    Around(Origin, [Turn(X, Deg(-15 * k))])
  }

  /** The transformations of the six prisms when step `k` is captured. */
  function StepPlacements(k: nat): (r: seq<Placement>)
    ensures |r| == 6
  {
    var l := Layout();
    [Based(l[0].translation, Identity), Based(l[1].translation, Identity), Based(l[2].translation, LegSwing(k)),
     Based(l[3].translation, Identity), Based(l[4].translation, Identity), Based(l[5].translation, Identity)]
  }

  /** `{name}-{k}.png`. */
  function OutFile(name: string, k: nat): string
  {
    name + "-" + NatToString(k) + ".png"
  }

  /** The eight pictures `convert` saves: step `k` seen from the camera
      turned `k` eighths further. */
  function Steps(name: string, cam: Camera): (r: seq<Picture>)
    ensures |r| == STEPS
  {
    seq(STEPS, k requires 0 <= k < STEPS => Picture(OutFile(name, k), View(Circled(cam, k), Figure(StepPlacements(k)))))
  }

  /** The transformations of the six prisms, in slot order. */
  ghost function Placements(prisms: seq<Prism>): (r: seq<Placement>)
    requires |prisms| == 6
    reads prisms
  {
    [prisms[0].placement, prisms[1].placement, prisms[2].placement, prisms[3].placement, prisms[4].placement, prisms[5].placement]
  }

  /** The prisms as `convert` loaded them, with whatever pose the swinging
      one has. */
  ghost predicate Standing(prisms: seq<Prism>)
    reads prisms
  {
    |prisms| == 6 && Distinct(prisms)
    && (forall k :: 0 <= k < 6 ==> prisms[k].Valid() && prisms[k].matrix == Layout()[k].translation)
    && (forall k :: 0 <= k < 6 && k != SWINGING ==> prisms[k].placement == Based(Layout()[k].translation, Identity))
  }

  /** The six `Prism::load` calls of `convert`, in slot order. */
  method LoadPrisms(atlas: Atlas, name: string) returns (prisms: seq<Prism>)
    requires atlas.Length0 >= 64 && atlas.Length1 >= 64
    ensures Standing(prisms) && forall k :: 0 <= k < 6 ==> fresh(prisms[k])
    ensures forall k, j :: 0 <= k < 6 && 0 <= j < 6 ==>
      prisms[k].faces[j].image == PrismFace(atlas, name + Layout()[k].suffix, Layout()[k].patch, Layout()[k].center, j)
  {
    var layout := Layout();
    prisms := [];
    for k := 0 to 6
      invariant |prisms| == k && Distinct(prisms)
      invariant forall i :: 0 <= i < k ==> fresh(prisms[i]) && prisms[i].Valid() && prisms[i].matrix == layout[i].translation
      invariant forall i :: 0 <= i < k ==> prisms[i].placement == Based(layout[i].translation, Identity)
      invariant forall i, j :: 0 <= i < k && 0 <= j < 6 ==>
        prisms[i].faces[j].image == PrismFace(atlas, name + layout[i].suffix, layout[i].patch, layout[i].center, j)
    {
      var spec := layout[k];
      assert Readable(atlas, spec.patch);
      var p := new Prism.Load(atlas, name + spec.suffix, spec.patch, spec.translation, spec.center);
      prisms := prisms + [p];
    }
  }

  /** The frame loop after `k` steps: the camera turned `k` eighths, and
      `out` holding what it held before plus the first `k` pictures. */
  ghost predicate StepsDone(prisms: seq<Prism>, name: string, out: Folder, before: seq<Picture>, cam: Camera, camera: Camera, k: nat)
    reads prisms, out
  {
    k <= STEPS && Standing(prisms) && Normal(cam) && camera == Circled(cam, k)
    && out.Valid() && out.views == PictureMap(before + Steps(name, cam)[..k])
  }

  /** Step `k`: swing the right leg, save the picture, turn the camera an
      eighth about the prisms. */
  method Step(prisms: seq<Prism>, name: string, out: Folder, ghost before: seq<Picture>, ghost cam: Camera, camera: Camera, k: nat)
    returns (camera': Camera)
    requires k < STEPS && StepsDone(prisms, name, out, before, cam, camera, k)
    modifies prisms[SWINGING], out
    ensures StepsDone(prisms, name, out, before, cam, camera', k + 1)
  {
    prisms[SWINGING].SetTransformation(LegSwing(k));
    assert Placements(prisms) == StepPlacements(k);
    out.Save(name + "-" + NatToString(k) + ".png", View(camera, Figure(Placements(prisms))));
    PictureMapStep(before, Steps(name, cam), k);
    camera' := Circled(camera, 1);
    OrbitAdds(cam, k, 1);
  }

  /** The loop of `convert`: eight steps, after which the camera is back
      where it started. */
  method RunSteps(prisms: seq<Prism>, name: string, out: Folder, ghost before: seq<Picture>, camera: Camera) returns (camera': Camera)
    requires Standing(prisms) && Normal(camera) && out.Valid() && out.views == PictureMap(before)
    modifies prisms[SWINGING], out
    ensures Standing(prisms) && camera' == camera
    ensures out.Valid() && out.views == PictureMap(before + Steps(name, camera))
  {
    ghost var cam := camera;
    assert before + Steps(name, cam)[..0] == before;
    OrbitAdds(cam, 0, 0);
    camera' := camera;
    for k := 0 to STEPS
      invariant StepsDone(prisms, name, out, before, cam, camera', k)
    {
      camera' := Step(prisms, name, out, before, cam, camera', k);
    }
    assert Steps(name, cam)[..STEPS] == Steps(name, cam);
    OrbitAdds(cam, 1, 0);
  }

  /** `convert`: open the skin, load the prisms, run the eight steps into
      `out`. A skin that cannot be opened ends the call before anything is
      saved. The camera is the caller's. */
  method Convert(images: map<string, Atlas>, path: string, name: string, out: Folder, ghost before: seq<Picture>, camera: Camera)
    returns (r: Outcome, camera': Camera)
    requires Sized(images) && Normal(camera) && out.Valid() && out.views == PictureMap(before)
    modifies out
    ensures camera' == camera && out.Valid()
    ensures r == Done <==> path in images
    ensures r == Done ==> out.views == PictureMap(before + Steps(name, camera))
    ensures r.Failed? ==> out.views == old(out.views)
  {
    if path !in images {
      return Failed("cannot open " + path), camera;
    }
    var atlas := images[path];
    var prisms := LoadPrisms(atlas, name);
    camera' := RunSteps(prisms, name, out, before, camera);
    r := Done;
  }

  /** The pictures of the skins of `items`, in order, each seen from `cam`. */
  function Converted(items: seq<(string, string)>, cam: Camera): (r: seq<Picture>)
    ensures |r| == STEPS * |items|
  {
    if items == [] then [] else Converted(items[..|items| - 1], cam) + Steps(items[|items| - 1].1, cam)
  }

  /** `convert_all`: every (path, name) pair in order, the camera shared;
      the first skin that cannot be opened ends the loop. `n` is the number
      of skins converted. */
  method ConvertAll(items: seq<(string, string)>, images: map<string, Atlas>, out: Folder, ghost before: seq<Picture>)
    returns (r: Outcome, ghost n: nat)
    requires Sized(images) && out.Valid() && out.views == PictureMap(before)
    modifies out
    ensures n <= |items| && (forall i :: 0 <= i < n ==> items[i].0 in images)
    ensures r == Done <==> n == |items|
    ensures n < |items| ==> items[n].0 !in images
    ensures out.Valid() && out.views == PictureMap(before + Converted(items[..n], START))
  {
    var camera := START;
    assert items[..0] == [] && before + Converted(items[..0], START) == before;
    for i := 0 to |items|
      invariant camera == START && (forall j :: 0 <= j < i ==> items[j].0 in images)
      invariant out.Valid() && out.views == PictureMap(before + Converted(items[..i], START))
    {
      var (path, name) := items[i];
      r, camera := Convert(images, path, name, out, before + Converted(items[..i], START), camera);
      if r.Failed? {
        return r, i;
      }
      assert items[..i + 1][..i] == items[..i];
      AppendAssoc(before, Converted(items[..i], START), Steps(name, START));
    }
    assert items[..|items|] == items;
    return Done, |items|;
  }

  // ---------------------------------------------------------------------
  // Properties of `convert`.

  /** `convert` writes eight different files: the step digit after
      `{name}-` tells them apart. */
  lemma StepFiles(name: string, cam: Camera)
    ensures Distinct(Names(Steps(name, cam))) && |PictureMap(Steps(name, cam))| == STEPS
    ensures forall k :: 0 <= k < STEPS ==> Steps(name, cam)[k].file == name + "-" + [DigitChar(k)] + ".png"
  {
    var ps := Steps(name, cam);
    forall i, j | 0 <= i < j < STEPS ensures Names(ps)[i] != Names(ps)[j] {
      DigitsApart(i, j);
      assert ps[i].file[|name| + 1] != ps[j].file[|name| + 1];
    }
    PictureMapSize(ps);
  }

  /** Only the right leg moves: two steps agree on every other prism, and
      the leg's pose at step `k` is the absolute swing of `k`, so two
      different steps never show the same figure. */
  lemma OnlyTheLegSwings(i: nat, j: nat)
    ensures forall s :: 0 <= s < 6 && s != SWINGING ==> StepPlacements(i)[s] == StepPlacements(j)[s]
    ensures StepPlacements(i)[SWINGING] == Based(Layout()[SWINGING].translation, LegSwing(i))
    ensures StepPlacements(i) == StepPlacements(j) <==> i == j
  {
    if StepPlacements(i) == StepPlacements(j) {
      assert StepPlacements(i)[SWINGING] == StepPlacements(j)[SWINGING];
      assert Deg(-15 * i) == Deg(-15 * j);
    }
  }

  /** The eight pictures see the figure from eight different directions,
      and the ninth turn would bring the camera back to the start. */
  lemma StepsCircle(name: string, cam: Camera)
    requires Normal(cam)
    ensures forall i, j :: 0 <= i < j < STEPS ==> Steps(name, cam)[i].view.camera.yaw != Steps(name, cam)[j].view.camera.yaw
    ensures Circled(cam, STEPS) == cam
  {
    var ps := Steps(name, cam);
    forall i, j | 0 <= i < j < STEPS ensures ps[i].view.camera.yaw != ps[j].view.camera.yaw {
      assert ps[i].view.camera == Circled(cam, i) && ps[j].view.camera == Circled(cam, j);
    }
    OrbitAdds(cam, 1, 0);
  }

  /** The first camera stands at `(0, 0, 2)`; after `k` steps it stands
      where the start turned `k` eighths about the pivot is, at the same
      distance from the pivot. */
  lemma StartsInFront(k: int)
    ensures PositionAdd(PIVOT, Where(START)) == AtZ(20)
    ensures PositionAdd(PIVOT, Where(Circled(START, k))) == PositionAdd(PIVOT, Turned(AtZ(20 - DEPTH), k % 8))
  {
    OrbitTurns(START, k);
  }

  /** The faces of a prism are those of a limb of the same patch, moved by
      `center`. */
  lemma CentredCorners(patch: Patch, dir: Direction, center: Vec)
    ensures forall i :: 0 <= i < 4 ==> FaceCorners(patch, dir, center)[i] == Add(FaceCorners(patch, dir, Origin)[i], center)
  {
  }

  /** Back, left, top and bottom textures all carry the name `{name}_2`;
      front and right are `{name}_0` and `{name}_1`. */
  lemma SharedTextureNames(atlas: Atlas, name: string, patch: Patch, center: Vec)
    requires Readable(atlas, patch)
    ensures PrismFace(atlas, name, patch, center, 0).name == name + "_0"
    ensures PrismFace(atlas, name, patch, center, 1).name == name + "_1"
    ensures forall k :: 2 <= k < 6 ==> PrismFace(atlas, name, patch, center, k).name == name + "_2"
  {
  }
}
