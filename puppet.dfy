/** The articulated figure of `src/rendering.rs`: a `Limb` is a textured
    cuboid (six faces), a `Trim` is the overlay layer (a list of texels), and
    a `Skin` owns six limbs and six trims.

    Every limb and trim keeps a base translation `matrix` and hands each of
    its models `transformation * matrix` whenever `set_transformation` is
    called; the pose methods of `Skin` only ever call `set_transformation`
    (directly or through `rotate_around`) and `apply_color`. Each class
    method is specified against the pure functions on `PartState` and
    `SkinState` below, and the properties of the poses are lemmas about
    those functions. */
module Puppet {
  import opened Common
  import opened Patches
  import opened Geometry
  import opened Textures

  /** The mesh and texture of one limb face, fixed at load time. */
  datatype FaceImage = FaceImage(dir: Direction, corners: seq<Vec>, name: string, width: nat, height: nat, texture: seq<Rgba>)

  /** A face model: its image plus the transformation and material colour
      the pose methods change. */
  datatype FaceModel = FaceModel(image: FaceImage, placement: Placement, color: Rgba)

  /** A texel model (`Texel::new`): the texel, the texture name, and the
      changeable transformation and colour. */
  datatype TexelModel = TexelModel(texel: Texel, name: string, placement: Placement, color: Rgba)

  /** What the pose methods see of a limb or trim: its base translation,
      the transformation all its models carry, and their colour. */
  datatype PartState = PartState(base: Vec, placement: Placement, color: Rgba)

  /** `apply_red(saturation)`: the colour `(255, s, s, 255)`. */
  function Red(saturation: byte): Rgba
  {
    Rgba(255, saturation, saturation, 255)
  }

  /** `set_transformation(t)`: every model gets `t * matrix`. */
  function SetPose(s: PartState, t: Pose): PartState
  {
    s.(placement := Placed(t, s.base))
  }

  /** `apply_color(c)`. */
  function SetColor(s: PartState, c: Rgba): PartState
  {
    s.(color := c)
  }

  /** The image of face number `k` (0 = front ... 5 = bottom) of a limb
      named `name` loaded from `patch`: corners from the patch's own half
      size, texture cropped from the derived rectangle. */
  function FaceOf(atlas: Atlas, name: string, patch: Patch, k: nat, gamma: Gamma): FaceImage
    requires k < 6 && Readable(atlas, patch)
    reads atlas
  {
    var dir := Directions[k];
    var q := FacePatch(patch, dir);
    assert InAtlas(q, atlas.Length0, atlas.Length1);
    FaceImage(dir, FaceCorners(patch, dir, Origin), name + "_" + NatToString(k), q.width, q.height,
              Cropped(atlas, q, gamma, q.height))
  }

  /** `Face::new_*`: build the face of direction `Directions[k]`. */
  method NewFace(atlas: Atlas, name: string, patch: Patch, k: nat, gamma: Gamma) returns (f: FaceModel)
    requires k < 6 && Readable(atlas, patch)
    ensures f == FaceModel(FaceOf(atlas, name, patch, k, gamma), Unset, White)
  {
    var dir := Directions[k];
    var q := FacePatch(patch, dir);
    assert InAtlas(q, atlas.Length0, atlas.Length1);
    var pixels := CropTexture(atlas, q, gamma);
    f := FaceModel(FaceImage(dir, FaceCorners(patch, dir, Origin), name + "_" + NatToString(k), q.width, q.height, pixels),
                   Unset, White);
  }

  /** The six faces of `Limb::load`, front, right, back, left, top and
      bottom. */
  method NewFaces(atlas: Atlas, name: string, patch: Patch, gamma: Gamma) returns (fs: seq<FaceModel>)
    requires Readable(atlas, patch)
    ensures |fs| == 6 && forall k :: 0 <= k < 6 ==> fs[k] == FaceModel(FaceOf(atlas, name, patch, k, gamma), Unset, White)
  {
    var front := NewFace(atlas, name, patch, 0, gamma);
    var right := NewFace(atlas, name, patch, 1, gamma);
    var back := NewFace(atlas, name, patch, 2, gamma);
    var left := NewFace(atlas, name, patch, 3, gamma);
    var top := NewFace(atlas, name, patch, 4, gamma);
    var bottom := NewFace(atlas, name, patch, 5, gamma);
    fs := [front, right, back, left, top, bottom];
  }

  class Limb {
    /** The atlas patch and texture-name prefix the limb was loaded from. */
    ghost const patch: Patch
    ghost const prefix: string
    var faces: seq<FaceModel>
    /** The base translation (`Mat4::from_translation(translation)`). */
    var matrix: Vec
    /** The transformation and colour every face carries. */
    ghost var placement: Placement
    ghost var color: Rgba

    ghost predicate Valid()
      reads this
    {
      |faces| == 6
      && forall k :: 0 <= k < 6 ==> faces[k].placement == placement && faces[k].color == color
    }

    ghost function State(): PartState
      reads this
    {
      PartState(matrix, placement, color)
    }

    /** The faces are those `Limb::load` builds from `patch`. */
    ghost predicate LoadedFrom(atlas: Atlas, name: string, patch: Patch, gamma: Gamma)
      requires Readable(atlas, patch)
      reads this, atlas
    {
      |faces| == 6 && forall k :: 0 <= k < 6 ==> faces[k].image == FaceOf(atlas, name, patch, k, gamma)
    }

    /** `Limb::load`: six faces, base `translation`, then
        `set_transformation(identity)`. */
    constructor Load(atlas: Atlas, name: string, patch: Patch, translation: Vec, gamma: Gamma)
      requires Readable(atlas, patch)
      ensures this.patch == patch && prefix == name
      ensures Valid() && LoadedFrom(atlas, name, patch, gamma)
      ensures State() == PartState(translation, Placed(Identity, translation), White)
    {
      this.patch := patch;
      prefix := name;
      var fs := NewFaces(atlas, name, patch, gamma);
      faces := fs;
      matrix := translation;
      placement := Unset;
      color := White;
      new;
      SetTransformation(Identity);
    }

    /** `set_transformation`: overwrite, never accumulate. */
    method SetTransformation(t: Pose)
      requires Valid()
      modifies this
      ensures Valid() && State() == SetPose(old(State()), t)
      ensures |faces| == 6 && forall k :: 0 <= k < 6 ==> faces[k].image == old(faces[k].image)
    {
      var i := 0;
      while i < |faces|
        invariant i <= |faces| == 6 && matrix == old(matrix) && color == old(color)
        invariant forall k :: 0 <= k < 6 ==> faces[k].image == old(faces[k].image) && faces[k].color == color
        invariant forall k :: 0 <= k < i ==> faces[k].placement == Placed(t, matrix)
        invariant forall k :: i <= k < 6 ==> faces[k] == old(faces[k])
      {
        faces := faces[i := faces[i].(placement := Placed(t, matrix))];
        i := i + 1;
      }
      placement := Placed(t, matrix);
    }

    /** `rotate_around(pivot, axes_angles)`. */
    method RotateAround(pivot: Vec, turns: seq<Turn>)
      requires Valid()
      modifies this
      ensures Valid() && State() == SetPose(old(State()), Around(pivot, turns))
      ensures |faces| == 6 && forall k :: 0 <= k < 6 ==> faces[k].image == old(faces[k].image)
    {
      SetTransformation(Around(pivot, turns));
    }

    /** `apply_color`: every face gets colour `c`. */
    method ApplyColor(c: Rgba)
      requires Valid()
      modifies this
      ensures Valid() && State() == SetColor(old(State()), c)
      ensures |faces| == 6 && forall k :: 0 <= k < 6 ==> faces[k].image == old(faces[k].image)
    {
      var i := 0;
      while i < |faces|
        invariant i <= |faces| == 6 && matrix == old(matrix) && placement == old(placement)
        invariant forall k :: 0 <= k < 6 ==> faces[k].image == old(faces[k].image) && faces[k].placement == placement
        invariant forall k :: 0 <= k < i ==> faces[k].color == c
        invariant forall k :: i <= k < 6 ==> faces[k] == old(faces[k])
      {
        faces := faces[i := faces[i].(color := c)];
        i := i + 1;
      }
      color := c;
    }

    /** `apply_red(saturation)`. */
    method ApplyRed(saturation: byte)
      requires Valid()
      modifies this
      ensures Valid() && State() == SetColor(old(State()), Red(saturation))
      ensures |faces| == 6 && forall k :: 0 <= k < 6 ==> faces[k].image == old(faces[k].image)
    {
      ApplyColor(Red(saturation));
    }
  }

  class Trim {
    /** The atlas patch and texture-name prefix the trim was loaded from. */
    ghost const patch: Patch
    ghost const prefix: string
    var texels: seq<TexelModel>
    var matrix: Vec
    ghost var placement: Placement
    ghost var color: Rgba

    ghost predicate Valid()
      reads this
    {
      forall k :: 0 <= k < |texels| ==> texels[k].placement == placement && texels[k].color == color
    }

    ghost function State(): PartState
      reads this
    {
      PartState(matrix, placement, color)
    }

    /** The texels are those `Trim::load` builds from `patch`. */
    ghost predicate LoadedFrom(atlas: Atlas, name: string, patch: Patch, gamma: Gamma)
      requires Readable(atlas, patch)
      reads this, atlas
    {
      var ts := TrimTexels(atlas, patch, gamma);
      |texels| == |ts| && forall k :: 0 <= k < |ts| ==> texels[k].texel == ts[k] && texels[k].name == name
    }

    /** `Trim::load`: one texel per opaque pixel and base `translation`.
        No transformation is assigned, so the texels keep the one they were
        created with. */
    constructor Load(atlas: Atlas, name: string, patch: Patch, translation: Vec, gamma: Gamma)
      requires Readable(atlas, patch)
      ensures this.patch == patch && prefix == name
      ensures Valid() && LoadedFrom(atlas, name, patch, gamma)
      ensures State() == PartState(translation, Unset, White)
    {
      this.patch := patch;
      prefix := name;
      var ts := LoadTexels(atlas, patch, gamma);
      texels := seq(|ts|, k requires 0 <= k < |ts| => TexelModel(ts[k], name, Unset, White));
      matrix := translation;
      placement := Unset;
      color := White;
    }

    /** `set_transformation`: overwrite, never accumulate. */
    method SetTransformation(t: Pose)
      requires Valid()
      modifies this
      ensures Valid() && State() == SetPose(old(State()), t)
      ensures |texels| == |old(texels)|
      ensures forall k :: 0 <= k < |texels| ==> texels[k].texel == old(texels[k].texel) && texels[k].name == old(texels[k].name)
    {
      var i := 0;
      while i < |texels|
        invariant i <= |texels| == |old(texels)| && matrix == old(matrix) && color == old(color)
        invariant forall k :: 0 <= k < |texels| ==>
          texels[k].texel == old(texels[k].texel) && texels[k].name == old(texels[k].name) && texels[k].color == color
        invariant forall k :: 0 <= k < i ==> texels[k].placement == Placed(t, matrix)
        invariant forall k :: i <= k < |texels| ==> texels[k] == old(texels[k])
      {
        texels := texels[i := texels[i].(placement := Placed(t, matrix))];
        i := i + 1;
      }
      placement := Placed(t, matrix);
    }

    method RotateAround(pivot: Vec, turns: seq<Turn>)
      requires Valid()
      modifies this
      ensures Valid() && State() == SetPose(old(State()), Around(pivot, turns))
      ensures |texels| == |old(texels)|
      ensures forall k :: 0 <= k < |texels| ==> texels[k].texel == old(texels[k].texel) && texels[k].name == old(texels[k].name)
    {
      SetTransformation(Around(pivot, turns));
    }

    method ApplyColor(c: Rgba)
      requires Valid()
      modifies this
      ensures Valid() && State() == SetColor(old(State()), c)
      ensures |texels| == |old(texels)|
      ensures forall k :: 0 <= k < |texels| ==> texels[k].texel == old(texels[k].texel) && texels[k].name == old(texels[k].name)
    {
      var i := 0;
      while i < |texels|
        invariant i <= |texels| == |old(texels)| && matrix == old(matrix) && placement == old(placement)
        invariant forall k :: 0 <= k < |texels| ==>
          texels[k].texel == old(texels[k].texel) && texels[k].name == old(texels[k].name) && texels[k].placement == placement
        invariant forall k :: 0 <= k < i ==> texels[k].color == c
        invariant forall k :: i <= k < |texels| ==> texels[k] == old(texels[k])
      {
        texels := texels[i := texels[i].(color := c)];
        i := i + 1;
      }
      color := c;
    }

    method ApplyRed(saturation: byte)
      requires Valid()
      modifies this
      ensures Valid() && State() == SetColor(old(State()), Red(saturation))
      ensures |texels| == |old(texels)|
      ensures forall k :: 0 <= k < |texels| ==> texels[k].texel == old(texels[k].texel) && texels[k].name == old(texels[k].name)
    {
      ApplyColor(Red(saturation));
    }
  }

  // ---------------------------------------------------------------------
  // The figure as a whole.

  /** The pose state of a whole skin: slot `k` of `limbs` and of `trims`
      (head/helmet, torso/shirt, right leg/pants, right arm/sleeve, left
      leg/pants, left arm/sleeve). */
  datatype SkinState = SkinState(limbs: seq<PartState>, trims: seq<PartState>)

  predicate WellFormed(s: SkinState)
  {
    |s.limbs| == 6 && |s.trims| == 6
  }

  // Slot indices, shared by `limbs` and `trim` (`Skin::HEAD` ... `Skin::LEFT_ARM`).
  const HEAD_SLOT := 0
  const TORSO_SLOT := 1
  const RIGHT_LEG_SLOT := 2
  const RIGHT_ARM_SLOT := 3
  const LEFT_LEG_SLOT := 4
  const LEFT_ARM_SLOT := 5

  // Pivots and offsets, in tenths.
  const RIGHT_JOINT := Vec(-60, -40, 0)
  const RIGHT_SHOULDER := Vec(-60, 40, 0)
  const LEFT_JOINT := Vec(-60, -40, 0)
  const LEFT_SHOULDER := Vec(-60, 40, 0)
  const CROUCH_RIGHT_SHOULDER := Vec(-60, 20, 20)
  const CROUCH_LEFT_SHOULDER := Vec(-60, 20, 20)
  const CROUCH_PIVOT := Vec(0, 20, 0)
  const CROUCH_ROTATION := [Turn(X, Deg(30))]
  const CROUCH_TORSO_OFFSET := Vec(0, 0, 18)
  const CROUCH_HEAD_OFFSET := Vec(0, -20, 30)
  const CROUCH_SLEEVE_OFFSET := Vec(0, 0, -20)

  /** A swing of `deg` degrees about the x axis through `pivot`. */
  function Swing(pivot: Vec, deg: int): Pose
  {
    Around(pivot, [Turn(X, Deg(deg))])
  }

  /** The two right-arm turns of the punch frames `'E'` and `'F'`. */
  function PunchTurns(frame: char): seq<Turn>
    requires frame == 'E' || frame == 'F'
  {
    if frame == 'E' then [Turn(X, Deg(-40)), Turn(Z, Deg(-13))]
    else [Turn(X, Deg(-80)), Turn(Z, Deg(-5))]
  }

  function PoseSlots(parts: seq<PartState>, poses: seq<Pose>): (r: seq<PartState>)
    requires |parts| == |poses|
    ensures |r| == |parts|
  {
    seq(|parts|, k requires 0 <= k < |parts| => SetPose(parts[k], poses[k]))
  }

  function ColorSlots(parts: seq<PartState>, c: Rgba): (r: seq<PartState>)
    ensures |r| == |parts|
  {
    seq(|parts|, k requires 0 <= k < |parts| => SetColor(parts[k], c))
  }

  /** The same pose for all six slots. */
  function AllSlots(t: Pose): seq<Pose>
  {
    [t, t, t, t, t, t]
  }

  /** The crouch: torso, both arms (and shirt, both sleeves) bent forward
      about `CROUCH_PIVOT`, everything else upright. */
  function CrouchPoses(): seq<Pose>
  {
    var bent := Around(CROUCH_PIVOT, CROUCH_ROTATION);
    [Identity, bent, Identity, bent, Identity, bent]
  }

  /** `reset`. */
  function ResetSpec(s: SkinState): SkinState
    requires WellFormed(s)
  {
    SkinState(PoseSlots(s.limbs, AllSlots(Identity)), PoseSlots(s.trims, AllSlots(Identity)))
  }

  /** `reset_crouched`. */
  function ResetCrouchedSpec(s: SkinState): SkinState
    requires WellFormed(s)
  {
    SkinState(PoseSlots(s.limbs, CrouchPoses()), PoseSlots(s.trims, CrouchPoses()))
  }

  /** Legs and arms of one layer get the four given poses; head and torso
      are left as they were. */
  function FlapSlots(p: seq<PartState>, rightLeg: Pose, rightArm: Pose, leftLeg: Pose, leftArm: Pose): seq<PartState>
    requires |p| == 6
  {
    [p[0], p[1], SetPose(p[2], rightLeg), SetPose(p[3], rightArm), SetPose(p[4], leftLeg), SetPose(p[5], leftArm)]
  }

  function Flap(s: SkinState, rightLeg: Pose, rightArm: Pose, leftLeg: Pose, leftArm: Pose): SkinState
    requires WellFormed(s)
  {
    SkinState(FlapSlots(s.limbs, rightLeg, rightArm, leftLeg, leftArm), FlapSlots(s.trims, rightLeg, rightArm, leftLeg, leftArm))
  }

  function FlapRightSpec(s: SkinState): SkinState
    requires WellFormed(s)
  {
    Flap(s, Swing(RIGHT_JOINT, 30), Swing(RIGHT_SHOULDER, -30), Swing(LEFT_JOINT, -30), Swing(LEFT_SHOULDER, 30))
  }

  function FlapLeftSpec(s: SkinState): SkinState
    requires WellFormed(s)
  {
    Flap(s, Swing(RIGHT_JOINT, -30), Swing(RIGHT_SHOULDER, 30), Swing(LEFT_JOINT, 30), Swing(LEFT_SHOULDER, -30))
  }

  function FlapRightCrouchedSpec(s: SkinState): SkinState
    requires WellFormed(s)
  {
    Flap(s, Swing(RIGHT_JOINT, 30), Swing(CROUCH_RIGHT_SHOULDER, -30), Swing(LEFT_JOINT, -30), Swing(CROUCH_LEFT_SHOULDER, 30))
  }

  function FlapLeftCrouchedSpec(s: SkinState): SkinState
    requires WellFormed(s)
  {
    Flap(s, Swing(RIGHT_JOINT, -30), Swing(CROUCH_RIGHT_SHOULDER, 30), Swing(LEFT_JOINT, 30), Swing(CROUCH_LEFT_SHOULDER, -30))
  }

  /** `punch(frame)`: a reset, then the right arm and right sleeve turned
      about `shoulder`. */
  function PunchFrom(r: SkinState, shoulder: Vec, frame: char): SkinState
    requires WellFormed(r) && (frame == 'E' || frame == 'F')
  {
    var t := Around(shoulder, PunchTurns(frame));
    SkinState(r.limbs[RIGHT_ARM_SLOT := SetPose(r.limbs[RIGHT_ARM_SLOT], t)],
              r.trims[RIGHT_ARM_SLOT := SetPose(r.trims[RIGHT_ARM_SLOT], t)])
  }

  function PunchSpec(s: SkinState, frame: char): SkinState
    requires WellFormed(s) && (frame == 'E' || frame == 'F')
  {
    PunchFrom(ResetSpec(s), RIGHT_SHOULDER, frame)
  }

  function PunchCrouchedSpec(s: SkinState, frame: char): SkinState
    requires WellFormed(s) && (frame == 'E' || frame == 'F')
  {
    PunchFrom(ResetCrouchedSpec(s), CROUCH_RIGHT_SHOULDER, frame)
  }

  /** `apply_red`: a reset, then every part tinted. */
  function ApplyRedSpec(s: SkinState, saturation: byte): SkinState
    requires WellFormed(s)
  {
    var r := ResetSpec(s);
    SkinState(ColorSlots(r.limbs, Red(saturation)), ColorSlots(r.trims, Red(saturation)))
  }

  function ApplyRedCrouchedSpec(s: SkinState, saturation: byte): SkinState
    requires WellFormed(s)
  {
    var r := ResetCrouchedSpec(s);
    SkinState(ColorSlots(r.limbs, Red(saturation)), ColorSlots(r.trims, Red(saturation)))
  }

  /** `Skin::rotate_around`: every part turned about `pivot`. */
  function RotateSpec(s: SkinState, pivot: Vec, turn: Turn): SkinState
    requires WellFormed(s)
  {
    var t := AllSlots(Around(pivot, [turn]));
    SkinState(PoseSlots(s.limbs, t), PoseSlots(s.trims, t))
  }

  /** The name suffix, atlas patch and base translation of one part, as
      `Skin::load` passes them to `Limb::load` / `Trim::load`. */
  datatype PartSpec = PartSpec(suffix: string, patch: Patch, base: Vec)

  /** The six limbs; a slim skin gets the three-wide arm patches, moved
      half a unit towards the body. */
  function LimbLayout(slim: bool): (r: seq<PartSpec>)
    ensures |r| == 6 && forall k :: 0 <= k < 6 ==> NetInAtlas(r[k].patch, 64, 64)
  {
    assert forall p :: p in RenderingPatches() ==> NetInAtlas(p, 64, 64);
    [PartSpec("Head", HEAD, Vec(0, 110, 0)),
     PartSpec("Torso", TORSO, Vec(0, 20, 0)),
     PartSpec("RightLeg", RIGHT_LEG, Vec(-20, -100, 0)),
     if slim then PartSpec("RightArm", SLIM_RIGHT_ARM, Vec(-55, 20, 0)) else PartSpec("RightArm", RIGHT_ARM, Vec(-60, 20, 0)),
     PartSpec("LeftLeg", LEFT_LEG, Vec(20, -100, 0)),
     if slim then PartSpec("LeftArm", SLIM_LEFT_ARM, Vec(55, 20, 0)) else PartSpec("LeftArm", LEFT_ARM, Vec(60, 20, 0))]
  }

  /** The six trims; a slim skin gets the three-wide sleeve patches, but
      the sleeves keep the regular arm position. */
  function TrimLayout(slim: bool): (r: seq<PartSpec>)
    ensures |r| == 6 && forall k :: 0 <= k < 6 ==> NetInAtlas(r[k].patch, 64, 64)
  {
    assert forall p :: p in RenderingPatches() ==> NetInAtlas(p, 64, 64);
    [PartSpec("Helmet", HELMET, Vec(0, 110, 0)),
     PartSpec("Shirt", SHIRT, Vec(0, 20, 0)),
     PartSpec("RightPants", RIGHT_PANTS, Vec(-20, -100, 0)),
     PartSpec("RightSleeve", if slim then SLIM_RIGHT_SLEEVE else RIGHT_SLEEVE, Vec(-60, 20, 0)),
     PartSpec("LeftPants", LEFT_PANTS, Vec(20, -100, 0)),
     PartSpec("LeftSleeve", if slim then SLIM_LEFT_SLEEVE else LEFT_SLEEVE, Vec(60, 20, 0))]
  }

  /** The slim probe of `Skin::load`: the atlas cell (55, 20), which lies
      just right of a slim right arm's front face, is (nearly) transparent. */
  predicate Slim(atlas: Atlas)
    requires atlas.Length0 > 55 && atlas.Length1 > 20
    reads atlas
  {
    atlas[55, 20].a < 10
  }

  /** A net that fits a 64x64 atlas fits any larger one. */
  lemma FitsLarger(atlas: Atlas, p: Patch)
    requires atlas.Length0 >= 64 && atlas.Length1 >= 64 && NetInAtlas(p, 64, 64)
    ensures Readable(atlas, p)
  {
  }

  /** A limb right after `Limb::load`: placed at its base by the identity. */
  function Standing(p: PartSpec): PartState
  {
    PartState(p.base, Placed(Identity, p.base), White)
  }

  /** A trim right after `Trim::load`: never assigned a transformation. */
  function Unposed(p: PartSpec): PartState
  {
    PartState(p.base, Unset, White)
  }

  /** The state right after `Skin::load`, all parts white. */
  function LoadedState(slim: bool): (s: SkinState)
    ensures WellFormed(s)
  {
    var l, t := LimbLayout(slim), TrimLayout(slim);
    SkinState([Standing(l[0]), Standing(l[1]), Standing(l[2]), Standing(l[3]), Standing(l[4]), Standing(l[5])],
              [Unposed(t[0]), Unposed(t[1]), Unposed(t[2]), Unposed(t[3]), Unposed(t[4]), Unposed(t[5])])
  }

  /** `load_crouched` after `load`: torso, shirt and arms move by
      `CROUCH_TORSO_OFFSET`; each sleeve is placed from the (already moved)
      limb in its slot plus `CROUCH_TORSO_OFFSET + CROUCH_SLEEVE_OFFSET`;
      head and helmet move by `CROUCH_HEAD_OFFSET` and are the only parts
      whose models are re-placed. */
  function CrouchSpec(s: SkinState): (c: SkinState)
    requires WellFormed(s)
    ensures WellFormed(c)
  {
    var l, t := s.limbs, s.trims;
    var rightArm := Add(CROUCH_TORSO_OFFSET, l[RIGHT_ARM_SLOT].base);
    var leftArm := Add(CROUCH_TORSO_OFFSET, l[LEFT_ARM_SLOT].base);
    var sleeve := Add(CROUCH_TORSO_OFFSET, CROUCH_SLEEVE_OFFSET);
    SkinState(
      [SetPose(l[HEAD_SLOT].(base := Add(CROUCH_HEAD_OFFSET, l[HEAD_SLOT].base)), Identity),
       l[TORSO_SLOT].(base := Add(CROUCH_TORSO_OFFSET, l[TORSO_SLOT].base)),
       l[RIGHT_LEG_SLOT],
       l[RIGHT_ARM_SLOT].(base := rightArm),
       l[LEFT_LEG_SLOT],
       l[LEFT_ARM_SLOT].(base := leftArm)],
      [SetPose(t[HEAD_SLOT].(base := Add(CROUCH_HEAD_OFFSET, t[HEAD_SLOT].base)), Identity),
       t[TORSO_SLOT].(base := Add(CROUCH_TORSO_OFFSET, t[TORSO_SLOT].base)),
       t[RIGHT_LEG_SLOT],
       t[RIGHT_ARM_SLOT].(base := Add(sleeve, rightArm)),
       t[LEFT_LEG_SLOT],
       t[LEFT_ARM_SLOT].(base := Add(sleeve, leftArm))])
  }

  class Skin {
    const limbs: seq<Limb>
    const trims: seq<Trim>

    ghost predicate Valid()
      reads this, limbs, trims
    {
      |limbs| == 6 && |trims| == 6 && Distinct(limbs) && Distinct(trims)
      && (forall k :: 0 <= k < 6 ==> limbs[k].Valid() && trims[k].Valid())
    }

    ghost function State(): (s: SkinState)
      requires |limbs| == 6 && |trims| == 6
      reads this, limbs, trims
      ensures WellFormed(s)
    {
      SkinState([limbs[0].State(), limbs[1].State(), limbs[2].State(), limbs[3].State(), limbs[4].State(), limbs[5].State()],
                [trims[0].State(), trims[1].State(), trims[2].State(), trims[3].State(), trims[4].State(), trims[5].State()])
    }

    /** Slot `k` was cut from the atlas regions the layouts give it. */
    ghost predicate CutFrom(atlas: Atlas, name: string, ll: seq<PartSpec>, tl: seq<PartSpec>, k: nat)
      requires |limbs| == 6 && |trims| == 6 && |ll| == 6 && |tl| == 6 && k < 6
    {
      limbs[k].patch == ll[k].patch && limbs[k].prefix == name + ll[k].suffix
      && trims[k].patch == tl[k].patch && trims[k].prefix == name + tl[k].suffix
    }

    /** `Skin::load`: the slim probe picks the layout, then the six limbs
        and six trims are loaded in slot order. */
    constructor Load(atlas: Atlas, name: string, gamma: Gamma)
      requires atlas.Length0 >= 64 && atlas.Length1 >= 64
      ensures Valid() && State() == LoadedState(Slim(atlas))
      ensures forall k :: 0 <= k < 6 ==> fresh(limbs[k]) && fresh(trims[k])
      ensures forall k :: 0 <= k < 6 ==> CutFrom(atlas, name, LimbLayout(Slim(atlas)), TrimLayout(Slim(atlas)), k)
    {
      var slim := atlas[55, 20].a < 10;
      var ls := LoadLimbs(atlas, name, LimbLayout(slim), gamma);
      var ts := LoadTrims(atlas, name, TrimLayout(slim), gamma);
      limbs := ls;
      trims := ts;
      new;
      assert forall j :: 0 <= j < 6 ==> State().limbs[j] == LoadedState(slim).limbs[j];
      assert forall j :: 0 <= j < 6 ==> State().trims[j] == LoadedState(slim).trims[j];
    }

    /** `Skin::load` of `src/minecraft.rs`: no slim probe, so always the
        regular layout, and every texture taken from the atlas as it is. */
    constructor LoadClassic(atlas: Atlas, name: string)
      requires atlas.Length0 >= 64 && atlas.Length1 >= 64
      ensures Valid() && State() == LoadedState(false)
      ensures forall k :: 0 <= k < 6 ==> fresh(limbs[k]) && fresh(trims[k])
      ensures forall k :: 0 <= k < 6 ==> CutFrom(atlas, name, LimbLayout(false), TrimLayout(false), k)
    {
      var ls := LoadLimbs(atlas, name, LimbLayout(false), Textures.Identity);
      var ts := LoadTrims(atlas, name, TrimLayout(false), Textures.Identity);
      limbs := ls;
      trims := ts;
      new;
      assert forall j :: 0 <= j < 6 ==> State().limbs[j] == LoadedState(false).limbs[j];
      assert forall j :: 0 <= j < 6 ==> State().trims[j] == LoadedState(false).trims[j];
    }

    /** The body of `load_crouched` after `Self::load`: base translations
        shifted, head and helmet re-placed. */
    method Crouch()
      requires Valid()
      modifies limbs, trims
      ensures Valid() && State() == CrouchSpec(old(State()))
    {
      ghost var s := State();
      MoveLimb(TORSO_SLOT, Add(CROUCH_TORSO_OFFSET, limbs[TORSO_SLOT].matrix));
      MoveTrim(TORSO_SLOT, Add(CROUCH_TORSO_OFFSET, trims[TORSO_SLOT].matrix));
      MoveLimb(LEFT_ARM_SLOT, Add(CROUCH_TORSO_OFFSET, limbs[LEFT_ARM_SLOT].matrix));
      MoveLimb(RIGHT_ARM_SLOT, Add(CROUCH_TORSO_OFFSET, limbs[RIGHT_ARM_SLOT].matrix));
      MoveTrim(LEFT_ARM_SLOT, Add(Add(CROUCH_TORSO_OFFSET, CROUCH_SLEEVE_OFFSET), limbs[LEFT_ARM_SLOT].matrix));
      MoveTrim(RIGHT_ARM_SLOT, Add(Add(CROUCH_TORSO_OFFSET, CROUCH_SLEEVE_OFFSET), limbs[RIGHT_ARM_SLOT].matrix));
      MoveLimb(HEAD_SLOT, Add(CROUCH_HEAD_OFFSET, limbs[HEAD_SLOT].matrix));
      MoveTrim(HEAD_SLOT, Add(CROUCH_HEAD_OFFSET, trims[HEAD_SLOT].matrix));
      PoseLimb(HEAD_SLOT, Identity);
      PoseTrim(HEAD_SLOT, Identity);
      assert forall j :: 0 <= j < 6 ==> State().limbs[j] == CrouchSpec(s).limbs[j];
      assert forall j :: 0 <= j < 6 ==> State().trims[j] == CrouchSpec(s).trims[j];
    }

    /** `self.limbs[k].matrix = base`, leaving the face models as they are. */
    method MoveLimb(k: nat, base: Vec)
      requires Valid() && k < 6
      modifies limbs[k]
      ensures Valid() && State().trims == old(State()).trims
      ensures forall j :: 0 <= j < 6 ==>
        State().limbs[j] == if j == k then old(State()).limbs[k].(base := base) else old(State()).limbs[j]
    {
      limbs[k].matrix := base;
    }

    /** `self.trim[k].matrix = base`, leaving the texel models as they are. */
    method MoveTrim(k: nat, base: Vec)
      requires Valid() && k < 6
      modifies trims[k]
      ensures Valid() && State().limbs == old(State()).limbs
      ensures forall j :: 0 <= j < 6 ==>
        State().trims[j] == if j == k then old(State()).trims[k].(base := base) else old(State()).trims[j]
    {
      trims[k].matrix := base;
    }

    /** `self.limbs[k].set_transformation(t)`. */
    method PoseLimb(k: nat, t: Pose)
      requires Valid() && k < 6
      modifies limbs[k]
      ensures Valid() && State().trims == old(State()).trims
      ensures forall j :: 0 <= j < 6 ==>
        State().limbs[j] == if j == k then SetPose(old(State()).limbs[k], t) else old(State()).limbs[j]
    {
      limbs[k].SetTransformation(t);
    }

    /** `self.trim[k].set_transformation(t)`. */
    method PoseTrim(k: nat, t: Pose)
      requires Valid() && k < 6
      modifies trims[k]
      ensures Valid() && State().limbs == old(State()).limbs
      ensures forall j :: 0 <= j < 6 ==>
        State().trims[j] == if j == k then SetPose(old(State()).trims[k], t) else old(State()).trims[j]
    {
      trims[k].SetTransformation(t);
    }

    /** The six `Limb::load` calls of `Skin::load`, in slot order. */
    static method LoadLimbs(atlas: Atlas, name: string, layout: seq<PartSpec>, gamma: Gamma) returns (ls: seq<Limb>)
      requires atlas.Length0 >= 64 && atlas.Length1 >= 64
      requires |layout| == 6 && forall k :: 0 <= k < 6 ==> NetInAtlas(layout[k].patch, 64, 64)
      ensures |ls| == 6 && Distinct(ls)
      ensures forall k :: 0 <= k < 6 ==> fresh(ls[k]) && ls[k].Valid() && ls[k].State() == Standing(layout[k])
      ensures forall k :: 0 <= k < 6 ==> ls[k].patch == layout[k].patch && ls[k].prefix == name + layout[k].suffix
    {
      ls := [];
      var k := 0;
      while k < 6
        invariant 0 <= k <= 6 && |ls| == k && Distinct(ls)
        invariant forall j :: 0 <= j < k ==> fresh(ls[j]) && ls[j].Valid() && ls[j].State() == Standing(layout[j])
        invariant forall j :: 0 <= j < k ==> ls[j].patch == layout[j].patch && ls[j].prefix == name + layout[j].suffix
      {
        FitsLarger(atlas, layout[k].patch);
        var l := new Limb.Load(atlas, name + layout[k].suffix, layout[k].patch, layout[k].base, gamma);
        ls := ls + [l];
        k := k + 1;
      }
    }

    /** The six `Trim::load` calls of `Skin::load`, in slot order. */
    static method LoadTrims(atlas: Atlas, name: string, layout: seq<PartSpec>, gamma: Gamma) returns (ts: seq<Trim>)
      requires atlas.Length0 >= 64 && atlas.Length1 >= 64
      requires |layout| == 6 && forall k :: 0 <= k < 6 ==> NetInAtlas(layout[k].patch, 64, 64)
      ensures |ts| == 6 && Distinct(ts)
      ensures forall k :: 0 <= k < 6 ==> fresh(ts[k]) && ts[k].Valid() && ts[k].State() == Unposed(layout[k])
      ensures forall k :: 0 <= k < 6 ==> ts[k].patch == layout[k].patch && ts[k].prefix == name + layout[k].suffix
    {
      ts := [];
      var k := 0;
      while k < 6
        invariant 0 <= k <= 6 && |ts| == k && Distinct(ts)
        invariant forall j :: 0 <= j < k ==> fresh(ts[j]) && ts[j].Valid() && ts[j].State() == Unposed(layout[j])
        invariant forall j :: 0 <= j < k ==> ts[j].patch == layout[j].patch && ts[j].prefix == name + layout[j].suffix
      {
        var t := LoadTrim(atlas, name, layout[k], gamma);
        ts := ts + [t];
        k := k + 1;
      }
    }

    /** One `Trim::load` of `Skin::load`. */
    static method LoadTrim(atlas: Atlas, name: string, spec: PartSpec, gamma: Gamma) returns (t: Trim)
      requires atlas.Length0 >= 64 && atlas.Length1 >= 64 && NetInAtlas(spec.patch, 64, 64)
      ensures fresh(t) && t.Valid() && t.State() == Unposed(spec)
      ensures t.patch == spec.patch && t.prefix == name + spec.suffix
    {
      FitsLarger(atlas, spec.patch);
      t := new Trim.Load(atlas, name + spec.suffix, spec.patch, spec.base, gamma);
    }

    /** `Skin::load_crouched`: load, shift the base translations, and
        re-place head and helmet. */
    static method LoadCrouched(atlas: Atlas, name: string, gamma: Gamma) returns (skin: Skin)
      requires atlas.Length0 >= 64 && atlas.Length1 >= 64
      ensures skin.Valid() && skin.State() == CrouchedState(Slim(atlas))
      ensures forall k :: 0 <= k < 6 ==> fresh(skin.limbs[k]) && fresh(skin.trims[k])
      ensures forall k :: 0 <= k < 6 ==> skin.CutFrom(atlas, name, LimbLayout(Slim(atlas)), TrimLayout(Slim(atlas)), k)
    {
      skin := new Skin.Load(atlas, name, gamma);
      skin.Crouch();
      CrouchedLayout(Slim(atlas));
    }

    /** `limb.set_transformation(poses[i])` for every limb in order. */
    method PoseLimbs(poses: seq<Pose>)
      requires Valid() && |poses| == 6
      modifies limbs
      ensures Valid() && State() == SkinState(PoseSlots(old(State()).limbs, poses), old(State()).trims)
    {
      var i := 0;
      while i < 6
        invariant 0 <= i <= 6 && Valid()
        invariant forall k :: 0 <= k < 6 ==>
          limbs[k].State() == if k < i then SetPose(old(limbs[k].State()), poses[k]) else old(limbs[k].State())
      {
        limbs[i].SetTransformation(poses[i]);
        i := i + 1;
      }
    }

    /** `trim.set_transformation(poses[i])` for every trim in order. */
    method PoseTrims(poses: seq<Pose>)
      requires Valid() && |poses| == 6
      modifies trims
      ensures Valid() && State() == SkinState(old(State()).limbs, PoseSlots(old(State()).trims, poses))
    {
      var i := 0;
      while i < 6
        invariant 0 <= i <= 6 && Valid()
        invariant forall k :: 0 <= k < 6 ==>
          trims[k].State() == if k < i then SetPose(old(trims[k].State()), poses[k]) else old(trims[k].State())
      {
        trims[i].SetTransformation(poses[i]);
        i := i + 1;
      }
    }

    /** `limb.apply_red(saturation)` for every limb in order. */
    method RedLimbs(saturation: byte)
      requires Valid()
      modifies limbs
      ensures Valid() && State() == SkinState(ColorSlots(old(State()).limbs, Red(saturation)), old(State()).trims)
    {
      var i := 0;
      while i < 6
        invariant 0 <= i <= 6 && Valid()
        invariant forall k :: 0 <= k < 6 ==>
          limbs[k].State() == if k < i then SetColor(old(limbs[k].State()), Red(saturation)) else old(limbs[k].State())
      {
        limbs[i].ApplyRed(saturation);
        i := i + 1;
      }
    }

    /** `trim.apply_red(saturation)` for every trim in order. */
    method RedTrims(saturation: byte)
      requires Valid()
      modifies trims
      ensures Valid() && State() == SkinState(old(State()).limbs, ColorSlots(old(State()).trims, Red(saturation)))
    {
      var i := 0;
      while i < 6
        invariant 0 <= i <= 6 && Valid()
        invariant forall k :: 0 <= k < 6 ==>
          trims[k].State() == if k < i then SetColor(old(trims[k].State()), Red(saturation)) else old(trims[k].State())
      {
        trims[i].ApplyRed(saturation);
        i := i + 1;
      }
    }

    /** `self.limbs[k].rotate_around(pivot, turns)`. */
    method TurnLimb(k: nat, pivot: Vec, turns: seq<Turn>)
      requires Valid() && k < 6
      modifies limbs[k]
      ensures Valid() && State().trims == old(State()).trims
      ensures forall j :: 0 <= j < 6 ==>
        State().limbs[j] == if j == k then SetPose(old(State()).limbs[k], Around(pivot, turns)) else old(State()).limbs[j]
    {
      limbs[k].RotateAround(pivot, turns);
    }

    /** `self.trim[k].rotate_around(pivot, turns)`. */
    method TurnTrim(k: nat, pivot: Vec, turns: seq<Turn>)
      requires Valid() && k < 6
      modifies trims[k]
      ensures Valid() && State().limbs == old(State()).limbs
      ensures forall j :: 0 <= j < 6 ==>
        State().trims[j] == if j == k then SetPose(old(State()).trims[k], Around(pivot, turns)) else old(State()).trims[j]
    {
      trims[k].RotateAround(pivot, turns);
    }

    method Reset()
      requires Valid()
      modifies limbs, trims
      ensures Valid() && State() == ResetSpec(old(State()))
    {
      PoseLimbs(AllSlots(Identity));
      PoseTrims(AllSlots(Identity));
    }

    method ResetCrouched()
      requires Valid()
      modifies limbs, trims
      ensures Valid() && State() == ResetCrouchedSpec(old(State()))
    {
      PoseLimbs(CrouchPoses());
      PoseTrims(CrouchPoses());
    }

    method FlapRightArmAndLeg()
      requires Valid()
      modifies limbs, trims
      ensures Valid() && State() == FlapRightSpec(old(State()))
    {
      TurnLimb(RIGHT_LEG_SLOT, RIGHT_JOINT, [Turn(X, Deg(30))]);
      TurnLimb(RIGHT_ARM_SLOT, RIGHT_SHOULDER, [Turn(X, Deg(-30))]);
      TurnLimb(LEFT_LEG_SLOT, LEFT_JOINT, [Turn(X, Deg(-30))]);
      TurnLimb(LEFT_ARM_SLOT, LEFT_SHOULDER, [Turn(X, Deg(30))]);
      TurnTrim(RIGHT_LEG_SLOT, RIGHT_JOINT, [Turn(X, Deg(30))]);
      TurnTrim(RIGHT_ARM_SLOT, RIGHT_SHOULDER, [Turn(X, Deg(-30))]);
      TurnTrim(LEFT_LEG_SLOT, LEFT_JOINT, [Turn(X, Deg(-30))]);
      TurnTrim(LEFT_ARM_SLOT, LEFT_SHOULDER, [Turn(X, Deg(30))]);
    }

    method FlapLeftArmAndLeg()
      requires Valid()
      modifies limbs, trims
      ensures Valid() && State() == FlapLeftSpec(old(State()))
    {
      ghost var s := State();
      TurnLimb(RIGHT_ARM_SLOT, RIGHT_SHOULDER, [Turn(X, Deg(30))]);
      TurnLimb(RIGHT_LEG_SLOT, RIGHT_JOINT, [Turn(X, Deg(-30))]);
      TurnLimb(LEFT_ARM_SLOT, LEFT_SHOULDER, [Turn(X, Deg(-30))]);
      TurnLimb(LEFT_LEG_SLOT, LEFT_JOINT, [Turn(X, Deg(30))]);
      TurnTrim(RIGHT_ARM_SLOT, RIGHT_SHOULDER, [Turn(X, Deg(30))]);
      TurnTrim(RIGHT_LEG_SLOT, RIGHT_JOINT, [Turn(X, Deg(-30))]);
      TurnTrim(LEFT_ARM_SLOT, LEFT_SHOULDER, [Turn(X, Deg(-30))]);
      TurnTrim(LEFT_LEG_SLOT, LEFT_JOINT, [Turn(X, Deg(30))]);
      assert forall j :: 0 <= j < 6 ==> State().limbs[j] == FlapLeftSpec(s).limbs[j];
      assert forall j :: 0 <= j < 6 ==> State().trims[j] == FlapLeftSpec(s).trims[j];
    }

    method FlapRightArmAndLegCrouched()
      requires Valid()
      modifies limbs, trims
      ensures Valid() && State() == FlapRightCrouchedSpec(old(State()))
    {
      TurnLimb(RIGHT_LEG_SLOT, RIGHT_JOINT, [Turn(X, Deg(30))]);
      TurnLimb(RIGHT_ARM_SLOT, CROUCH_RIGHT_SHOULDER, [Turn(X, Deg(-30))]);
      TurnLimb(LEFT_LEG_SLOT, LEFT_JOINT, [Turn(X, Deg(-30))]);
      TurnLimb(LEFT_ARM_SLOT, CROUCH_LEFT_SHOULDER, [Turn(X, Deg(30))]);
      TurnTrim(RIGHT_LEG_SLOT, RIGHT_JOINT, [Turn(X, Deg(30))]);
      TurnTrim(RIGHT_ARM_SLOT, CROUCH_RIGHT_SHOULDER, [Turn(X, Deg(-30))]);
      TurnTrim(LEFT_LEG_SLOT, LEFT_JOINT, [Turn(X, Deg(-30))]);
      TurnTrim(LEFT_ARM_SLOT, CROUCH_LEFT_SHOULDER, [Turn(X, Deg(30))]);
    }

    method FlapLeftArmAndLegCrouched()
      requires Valid()
      modifies limbs, trims
      ensures Valid() && State() == FlapLeftCrouchedSpec(old(State()))
    {
      ghost var s := State();
      TurnLimb(RIGHT_ARM_SLOT, CROUCH_RIGHT_SHOULDER, [Turn(X, Deg(30))]);
      TurnLimb(RIGHT_LEG_SLOT, RIGHT_JOINT, [Turn(X, Deg(-30))]);
      TurnLimb(LEFT_ARM_SLOT, CROUCH_LEFT_SHOULDER, [Turn(X, Deg(-30))]);
      TurnLimb(LEFT_LEG_SLOT, LEFT_JOINT, [Turn(X, Deg(30))]);
      TurnTrim(RIGHT_ARM_SLOT, CROUCH_RIGHT_SHOULDER, [Turn(X, Deg(30))]);
      TurnTrim(RIGHT_LEG_SLOT, RIGHT_JOINT, [Turn(X, Deg(-30))]);
      TurnTrim(LEFT_ARM_SLOT, CROUCH_LEFT_SHOULDER, [Turn(X, Deg(-30))]);
      TurnTrim(LEFT_LEG_SLOT, LEFT_JOINT, [Turn(X, Deg(30))]);
      assert forall j :: 0 <= j < 6 ==> State().limbs[j] == FlapLeftCrouchedSpec(s).limbs[j];
      assert forall j :: 0 <= j < 6 ==> State().trims[j] == FlapLeftCrouchedSpec(s).trims[j];
    }

    /** `punch`: only the frames `'E'` and `'F'` exist; any other letter
        reaches `unreachable!()`. */
    method Punch(frame: char)
      requires Valid() && (frame == 'E' || frame == 'F')
      modifies limbs, trims
      ensures Valid() && State() == PunchSpec(old(State()), frame)
    {
      Reset();
      PunchArm(RIGHT_SHOULDER, frame);
    }

    method PunchCrouched(frame: char)
      requires Valid() && (frame == 'E' || frame == 'F')
      modifies limbs, trims
      ensures Valid() && State() == PunchCrouchedSpec(old(State()), frame)
    {
      ResetCrouched();
      PunchArm(CROUCH_RIGHT_SHOULDER, frame);
    }

    /** The arm and sleeve turns shared by both punches. */
    method PunchArm(shoulder: Vec, frame: char)
      requires Valid() && (frame == 'E' || frame == 'F')
      modifies limbs, trims
      ensures Valid() && State() == PunchFrom(old(State()), shoulder, frame)
    {
      ghost var r := State();
      var turns := if frame == 'E' then [Turn(X, Deg(-40)), Turn(Z, Deg(-13))] else [Turn(X, Deg(-80)), Turn(Z, Deg(-5))];
      TurnLimb(RIGHT_ARM_SLOT, shoulder, turns);
      TurnTrim(RIGHT_ARM_SLOT, shoulder, turns);
      assert forall j :: 0 <= j < 6 ==> State().limbs[j] == PunchFrom(r, shoulder, frame).limbs[j];
      assert forall j :: 0 <= j < 6 ==> State().trims[j] == PunchFrom(r, shoulder, frame).trims[j];
    }

    method ApplyRed(saturation: byte)
      requires Valid()
      modifies limbs, trims
      ensures Valid() && State() == ApplyRedSpec(old(State()), saturation)
    {
      Reset();
      RedLimbs(saturation);
      RedTrims(saturation);
    }

    method ApplyRedCrouched(saturation: byte)
      requires Valid()
      modifies limbs, trims
      ensures Valid() && State() == ApplyRedCrouchedSpec(old(State()), saturation)
    {
      ResetCrouched();
      RedLimbs(saturation);
      RedTrims(saturation);
    }

    /** `rotate_around(pivot, axis, angle)`. */
    method RotateAround(pivot: Vec, axis: Axis, angle: Angle)
      requires Valid()
      modifies limbs, trims
      ensures Valid() && State() == RotateSpec(old(State()), pivot, Turn(axis, angle))
    {
      PoseLimbs(AllSlots(Around(pivot, [Turn(axis, angle)])));
      PoseTrims(AllSlots(Around(pivot, [Turn(axis, angle)])));
    }
  }

  // ---------------------------------------------------------------------
  // Properties of the poses.

  /** The base translations of one layer. */
  function Bases(p: seq<PartState>): (r: seq<Vec>)
    ensures |r| == |p| && forall k :: 0 <= k < |p| ==> r[k] == p[k].base
  {
    seq(|p|, k requires 0 <= k < |p| => p[k].base)
  }

  /** The colours of one layer. */
  function Colors(p: seq<PartState>): (r: seq<Rgba>)
    ensures |r| == |p| && forall k :: 0 <= k < |p| ==> r[k] == p[k].color
  {
    seq(|p|, k requires 0 <= k < |p| => p[k].color)
  }

  /** What a pose cannot change: where each part sits before posing, and
      its colour. */
  predicate SameFrame(s: SkinState, t: SkinState)
  {
    Bases(s.limbs) == Bases(t.limbs) && Bases(s.trims) == Bases(t.trims)
    && Colors(s.limbs) == Colors(t.limbs) && Colors(s.trims) == Colors(t.trims)
  }

  /** The same part with the turns of its pose negated (same pivot, same
      axes). */
  function Mirrored(p: PartState): PartState
  {
    match p.placement
    case Placed(Around(pivot, turns), base) =>
      p.(placement := Placed(Around(pivot, seq(|turns|, i requires 0 <= i < |turns| => NegatedTurn(turns[i]))), base))
    case _ => p
  }

  /** Mirroring a swing negates its angle. */
  lemma SwingMirror(p: PartState, pivot: Vec, deg: int)
    ensures Mirrored(SetPose(p, Swing(pivot, deg))) == SetPose(p, Swing(pivot, -deg))
  {
    var turns := [Turn(X, Deg(deg))];
    assert seq(|turns|, i requires 0 <= i < |turns| => NegatedTurn(turns[i])) == [Turn(X, Deg(-deg))];
  }

  /** Setting poses keeps the bases and colours of a layer. */
  lemma PoseSlotsKeepFrame(parts: seq<PartState>, poses: seq<Pose>)
    requires |parts| == |poses|
    ensures Bases(PoseSlots(parts, poses)) == Bases(parts) && Colors(PoseSlots(parts, poses)) == Colors(parts)
  {
  }

  lemma FlapSlotsKeepFrame(p: seq<PartState>, a: Pose, b: Pose, c: Pose, d: Pose)
    requires |p| == 6
    ensures Bases(FlapSlots(p, a, b, c, d)) == Bases(p) && Colors(FlapSlots(p, a, b, c, d)) == Colors(p)
  {
  }

  lemma PunchKeepsFrame(r: SkinState, shoulder: Vec, frame: char)
    requires WellFormed(r) && (frame == 'E' || frame == 'F')
    ensures SameFrame(PunchFrom(r, shoulder, frame), r)
  {
  }

  /** Flapping the left arm and leg is flapping the right ones with every
      angle negated: head and torso are untouched by both, and each leg,
      arm, pants leg and sleeve turns about the same pivot in the opposite
      direction. The same holds for the crouched flaps. */
  lemma FlapsMirror(s: SkinState)
    requires WellFormed(s)
    ensures forall k :: 0 <= k < 2 ==>
      FlapLeftSpec(s).limbs[k] == FlapRightSpec(s).limbs[k] == s.limbs[k]
      && FlapLeftSpec(s).trims[k] == FlapRightSpec(s).trims[k] == s.trims[k]
    ensures forall k :: 2 <= k < 6 ==>
      FlapLeftSpec(s).limbs[k] == Mirrored(FlapRightSpec(s).limbs[k])
      && FlapLeftSpec(s).trims[k] == Mirrored(FlapRightSpec(s).trims[k])
    ensures forall k :: 2 <= k < 6 ==>
      FlapLeftCrouchedSpec(s).limbs[k] == Mirrored(FlapRightCrouchedSpec(s).limbs[k])
      && FlapLeftCrouchedSpec(s).trims[k] == Mirrored(FlapRightCrouchedSpec(s).trims[k])
  {
    forall p: PartState, pivot: Vec, deg: int
      ensures Mirrored(SetPose(p, Swing(pivot, deg))) == SetPose(p, Swing(pivot, -deg))
    {
      SwingMirror(p, pivot, deg);
    }
  }

  /** Poses are absolute: each part is given `pose * matrix`, never a
      product with its previous transformation, so the outcome of `reset`,
      `reset_crouched`, `punch`, `apply_red` and `rotate_around` depends only
      on the bases and colours, not on any earlier pose. */
  lemma PosesForgetHistory(s: SkinState, t: SkinState, pivot: Vec, turn: Turn, saturation: byte)
    requires WellFormed(s) && WellFormed(t) && SameFrame(s, t)
    ensures ResetSpec(s) == ResetSpec(t)
    ensures ResetCrouchedSpec(s) == ResetCrouchedSpec(t)
    ensures PunchSpec(s, 'E') == PunchSpec(t, 'E') && PunchSpec(s, 'F') == PunchSpec(t, 'F')
    ensures PunchCrouchedSpec(s, 'E') == PunchCrouchedSpec(t, 'E') && PunchCrouchedSpec(s, 'F') == PunchCrouchedSpec(t, 'F')
    ensures RotateSpec(s, pivot, turn) == RotateSpec(t, pivot, turn)
    ensures ApplyRedSpec(s, saturation) == ApplyRedSpec(t, saturation)
  {
  }

  lemma FlapKeepsFrame(s: SkinState, a: Pose, b: Pose, c: Pose, d: Pose)
    requires WellFormed(s)
    ensures SameFrame(Flap(s, a, b, c, d), s)
  {
    FlapSlotsKeepFrame(s.limbs, a, b, c, d);
    FlapSlotsKeepFrame(s.trims, a, b, c, d);
  }

  lemma PosesKeepSlotsFrame(s: SkinState, poses: seq<Pose>)
    requires WellFormed(s) && |poses| == 6
    ensures SameFrame(SkinState(PoseSlots(s.limbs, poses), PoseSlots(s.trims, poses)), s)
  {
    PoseSlotsKeepFrame(s.limbs, poses);
    PoseSlotsKeepFrame(s.trims, poses);
  }

  /** Every whole-body pose keeps the bases and colours of all parts. */
  lemma PosesKeepFrame(s: SkinState, pivot: Vec, turn: Turn)
    requires WellFormed(s)
    ensures SameFrame(ResetSpec(s), s) && SameFrame(ResetCrouchedSpec(s), s)
    ensures SameFrame(PunchSpec(s, 'E'), s) && SameFrame(PunchSpec(s, 'F'), s)
    ensures SameFrame(PunchCrouchedSpec(s, 'E'), s) && SameFrame(PunchCrouchedSpec(s, 'F'), s)
    ensures SameFrame(RotateSpec(s, pivot, turn), s)
  {
    PosesKeepSlotsFrame(s, AllSlots(Identity));
    PosesKeepSlotsFrame(s, CrouchPoses());
    PosesKeepSlotsFrame(s, AllSlots(Around(pivot, [turn])));
    PunchKeepsFrame(ResetSpec(s), RIGHT_SHOULDER, 'E');
    PunchKeepsFrame(ResetSpec(s), RIGHT_SHOULDER, 'F');
    PunchKeepsFrame(ResetCrouchedSpec(s), CROUCH_RIGHT_SHOULDER, 'E');
    PunchKeepsFrame(ResetCrouchedSpec(s), CROUCH_RIGHT_SHOULDER, 'F');
  }

  /** The four flaps keep the bases and colours of all parts. */
  lemma FlapsKeepFrame(s: SkinState)
    requires WellFormed(s)
    ensures SameFrame(FlapRightSpec(s), s) && SameFrame(FlapLeftSpec(s), s)
    ensures SameFrame(FlapRightCrouchedSpec(s), s) && SameFrame(FlapLeftCrouchedSpec(s), s)
  {
    FlapKeepsFrame(s, Swing(RIGHT_JOINT, 30), Swing(RIGHT_SHOULDER, -30), Swing(LEFT_JOINT, -30), Swing(LEFT_SHOULDER, 30));
    FlapKeepsFrame(s, Swing(RIGHT_JOINT, -30), Swing(RIGHT_SHOULDER, 30), Swing(LEFT_JOINT, 30), Swing(LEFT_SHOULDER, -30));
    FlapKeepsFrame(s, Swing(RIGHT_JOINT, 30), Swing(CROUCH_RIGHT_SHOULDER, -30), Swing(LEFT_JOINT, -30), Swing(CROUCH_LEFT_SHOULDER, 30));
    FlapKeepsFrame(s, Swing(RIGHT_JOINT, -30), Swing(CROUCH_RIGHT_SHOULDER, 30), Swing(LEFT_JOINT, 30), Swing(CROUCH_LEFT_SHOULDER, -30));
  }

  /** `apply_red` keeps the bases and tints every part. */
  lemma ApplyRedTints(s: SkinState, saturation: byte)
    requires WellFormed(s)
    ensures var r := ApplyRedSpec(s, saturation);
      Bases(r.limbs) == Bases(s.limbs) && Bases(r.trims) == Bases(s.trims)
      && (forall k :: 0 <= k < 6 ==> r.limbs[k].color == Red(saturation) && r.trims[k].color == Red(saturation))
    ensures var r := ApplyRedCrouchedSpec(s, saturation);
      Bases(r.limbs) == Bases(s.limbs) && Bases(r.trims) == Bases(s.trims)
      && (forall k :: 0 <= k < 6 ==> r.limbs[k].color == Red(saturation) && r.trims[k].color == Red(saturation))
  {
    PosesKeepFrame(s, Origin, Turn(X, Deg(0)));
    assert Bases(ColorSlots(ResetSpec(s).limbs, Red(saturation))) == Bases(ResetSpec(s).limbs);
    assert Bases(ColorSlots(ResetSpec(s).trims, Red(saturation))) == Bases(ResetSpec(s).trims);
    assert Bases(ColorSlots(ResetCrouchedSpec(s).limbs, Red(saturation))) == Bases(ResetCrouchedSpec(s).limbs);
    assert Bases(ColorSlots(ResetCrouchedSpec(s).trims, Red(saturation))) == Bases(ResetCrouchedSpec(s).trims);
  }

  /** The slim probe only changes the arms: slim arms are the narrower
      patches half a unit closer to the body, slim sleeves the narrower
      patches at the regular place; every other slot is identical. */
  lemma SlimLayout()
    ensures forall k :: 0 <= k < 6 && k != RIGHT_ARM_SLOT && k != LEFT_ARM_SLOT ==>
      LimbLayout(true)[k] == LimbLayout(false)[k] && TrimLayout(true)[k] == TrimLayout(false)[k]
    ensures LimbLayout(true)[RIGHT_ARM_SLOT] == LimbLayout(false)[RIGHT_ARM_SLOT].(patch := SLIM_RIGHT_ARM, base := Vec(-55, 20, 0))
    ensures LimbLayout(true)[LEFT_ARM_SLOT] == LimbLayout(false)[LEFT_ARM_SLOT].(patch := SLIM_LEFT_ARM, base := Vec(55, 20, 0))
    ensures TrimLayout(true)[RIGHT_ARM_SLOT] == TrimLayout(false)[RIGHT_ARM_SLOT].(patch := SLIM_RIGHT_SLEEVE)
    ensures TrimLayout(true)[LEFT_ARM_SLOT] == TrimLayout(false)[LEFT_ARM_SLOT].(patch := SLIM_LEFT_SLEEVE)
    ensures forall slim: bool, k :: 0 <= k < 6 ==>
      (LimbLayout(slim)[k].base == TrimLayout(slim)[k].base || (slim && (k == RIGHT_ARM_SLOT || k == LEFT_ARM_SLOT)))
  {
  }

  /** Where `load_crouched` leaves the parts, in closed form: the head 2
      units lower and 3 forward, torso and arms 1.8 forward, each sleeve 1.6
      forward of its standing place but at its limb's x (so a slim skin's
      sleeves move in by half a unit); only head and helmet are re-placed,
      the torso and arms still carry their standing transformation and the
      trims other than the helmet none. */
  function CrouchedState(slim: bool): (s: SkinState)
    ensures WellFormed(s)
  {
    var l, t := LimbLayout(slim), TrimLayout(slim);
    var x := if slim then 55 else 60;
    var head := Vec(0, 90, 30);
    SkinState([PartState(head, Placed(Identity, head), White),
               PartState(Vec(0, 20, 18), Placed(Identity, Vec(0, 20, 0)), White),
               Standing(l[2]),
               PartState(Vec(-x, 20, 18), Placed(Identity, Vec(-x, 20, 0)), White),
               Standing(l[4]),
               PartState(Vec(x, 20, 18), Placed(Identity, Vec(x, 20, 0)), White)],
              [PartState(head, Placed(Identity, head), White),
               PartState(Vec(0, 20, 18), Unset, White),
               Unposed(t[2]),
               PartState(Vec(-x, 20, 16), Unset, White),
               Unposed(t[4]),
               PartState(Vec(x, 20, 16), Unset, White)])
  }

  /** `load_crouched` applied to a freshly loaded skin gives the closed
      form above. */
  lemma CrouchedLayout(slim: bool)
    ensures CrouchSpec(LoadedState(slim)) == CrouchedState(slim)
  {
    var c, e := CrouchSpec(LoadedState(slim)), CrouchedState(slim);
    assert forall k :: 0 <= k < 6 ==> c.limbs[k] == e.limbs[k];
    assert forall k :: 0 <= k < 6 ==> c.trims[k] == e.trims[k];
  }
}
