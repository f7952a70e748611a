/** `render_mugshot` (`src/rendering.rs`): the status-bar faces. Only the
    head and the helmet are loaded; for each of eight suffixes the pair is
    recoloured or turned, then captured once, five times with fading red,
    or (for the `ST` faces) fifteen times looking right, ahead and left.
    The schedule is specified by the list of pictures it saves. */
module Mugshots {
  import opened Common
  import opened Geometry
  import opened Patches
  import opened Textures
  import opened Puppet
  import opened Cameras
  import opened Disks
  import opened Sprites

  /** The colour of the dead face. */
  const DEAD_GRAY := Rgba(64, 64, 64, 255)
  /** The colour of the god-mode face. */
  const GOLD := Rgba(255, 215, 0, 255)
  /** How far the camera moves along z for the faces, away from the
      figure, in tenths. */
  const MUGSHOT_ZOOM := 100
  /** The face kinds, in rendering order. */
  const SUFFIXES := ["DEAD", "EVL", "GOD", "KILL", "OUCH", "ST", "TL", "TR"]

  /** Head and helmet as `Limb::load` and `Trim::load` leave them at the
      origin: the head placed by the identity, the helmet never placed. */
  const LOADED_BUST := Pair(PartState(Origin, Placed(Identity, Origin), White), PartState(Origin, Unset, White))

  /** `apply_color(c)` on head and helmet. */
  function Tint(b: Shot, c: Rgba): (r: Shot)
    requires b.Pair?
    ensures r.Pair? && r.part.color == c && r.trim.color == c
  {
    Pair(SetColor(b.part, c), SetColor(b.trim, c))
  }

  /** `rotate_around(zero, [(axis, deg)])` on head and helmet. */
  function Tilt(b: Shot, axis: Axis, deg: int): (r: Shot)
    requires b.Pair?
    ensures r.Pair? && r.part.placement.Placed? && r.trim.placement.Placed?
    ensures r.part.placement.pose == r.trim.placement.pose == Around(Origin, [Turn(axis, Deg(deg))])
  {
    var t := Around(Origin, [Turn(axis, Deg(deg))]);
    Pair(SetPose(b.part, t), SetPose(b.trim, t))
  }

  /** `255 / (i + 1)`: the red saturation of capture `i`. */
  function Saturation(i: nat): byte
    requires i < 5
  {
    (255 / (i + 1)) as byte
  }

  /** The turn about `y` of status face column `y`: right, ahead, left. */
  function StatusAngle(y: nat): int
    requires y < 3
  {
    if y == 0 then 15 else if y == 1 then 0 else -15
  }

  /** The first `match suffix`: the pose or colour change of each face
      kind (other suffixes reach `unreachable!()`). */
  function Posed(b: Shot, suffix: string): (r: Shot)
    requires b.Pair? && suffix in SUFFIXES
    ensures r.Pair?
  {
    if suffix == "DEAD" then Tint(b, DEAD_GRAY)
    else if suffix == "EVL" || suffix == "KILL" then Tilt(b, X, -15)
    else if suffix == "GOD" then Tint(b, GOLD)
    else if suffix == "OUCH" then Tilt(b, X, 15)
    else if suffix == "ST" then b
    else if suffix == "TL" then Tilt(b, Y, -30)
    else Tilt(b, Y, 30)
  }

  /** `{sprite}{suffix}{frame_index}.png`. */
  function MugshotFile(sprite: string, suffix: string, frame: nat): string
  {
    sprite + suffix + NatToString(frame) + ".png"
  }

  /** The single capture of `DEAD` and `GOD`. */
  function Still(sprite: string, suffix: string, b: Shot, cam: Camera): seq<Picture>
  {
    [Picture(MugshotFile(sprite, suffix, 0), View(cam, b))]
  }

  /** The five captures of `EVL`, `KILL` and `OUCH`: frame `i` shows the
      face red with saturation `255 / (i + 1)`. */
  function Pained(sprite: string, suffix: string, b: Shot, cam: Camera): (r: seq<Picture>)
    requires b.Pair?
    ensures |r| == 5
  {
    seq(5, i requires 0 <= i < 5 => Picture(MugshotFile(sprite, suffix, i), View(cam, Tint(b, Red(Saturation(i))))))
  }

  /** Row `x` of the status faces, `ST{x}0` to `ST{x}2`. */
  function StatusRow(sprite: string, b: Shot, cam: Camera, x: nat): (r: seq<Picture>)
    requires b.Pair? && x < 5
    ensures |r| == 3
  {
    seq(3, y requires 0 <= y < 3 =>
      Picture(MugshotFile(sprite, "ST" + NatToString(x), y), View(cam, Tilt(Tint(b, Red(Saturation(x))), Y, StatusAngle(y)))))
  }

  /** The first `n` rows of status faces. */
  function StatusRows(sprite: string, b: Shot, cam: Camera, n: nat): (r: seq<Picture>)
    requires b.Pair? && n <= 5
    ensures |r| == 3 * n
  {
    if n == 0 then [] else StatusRows(sprite, b, cam, n - 1) + StatusRow(sprite, b, cam, n - 1)
  }

  /** The five captures of `TL` and `TR`, named `{suffix}{i}0`. */
  function Glancing(sprite: string, suffix: string, b: Shot, cam: Camera): (r: seq<Picture>)
    requires b.Pair?
    ensures |r| == 5
  {
    seq(5, i requires 0 <= i < 5 => Picture(MugshotFile(sprite, suffix + NatToString(i), 0), View(cam, Tint(b, Red(Saturation(i))))))
  }

  /** The second `match suffix`: the captures of one face kind, `b` being
      the face after its pose change. */
  function SuffixPictures(sprite: string, suffix: string, b: Shot, cam: Camera): seq<Picture>
    requires b.Pair? && suffix in SUFFIXES
  {
    if suffix == "DEAD" || suffix == "GOD" then Still(sprite, suffix, b, cam)
    else if suffix == "EVL" || suffix == "KILL" || suffix == "OUCH" then Pained(sprite, suffix, b, cam)
    else if suffix == "ST" then StatusRows(sprite, b, cam, 5)
    else Glancing(sprite, suffix, b, cam)
  }

  /** The face the captures of one kind leave behind: the last red of the
      fading ones, and the reset tilt of `EVL`, `KILL` and `OUCH` or the
      last glance of `ST`. */
  function Captured(b: Shot, suffix: string): (r: Shot)
    requires b.Pair? && suffix in SUFFIXES
    ensures r.Pair?
  {
    if suffix == "DEAD" || suffix == "GOD" then b
    else if suffix == "EVL" || suffix == "KILL" || suffix == "OUCH" then Tilt(Tint(b, Red(Saturation(4))), X, 0)
    else if suffix == "ST" then Tilt(Tint(b, Red(Saturation(4))), Y, StatusAngle(2))
    else Tint(b, Red(Saturation(4)))
  }

  /** The face after the first `k` kinds. */
  function MugshotAfter(b0: Shot, k: nat): (r: Shot)
    requires b0.Pair? && k <= 8
    ensures r.Pair?
  {
    if k == 0 then b0 else Captured(Posed(MugshotAfter(b0, k - 1), SUFFIXES[k - 1]), SUFFIXES[k - 1])
  }

  /** Every picture saved by the first `k` kinds, in order. */
  function MugshotPictures(sprite: string, b0: Shot, cam: Camera, k: nat): seq<Picture>
    requires b0.Pair? && k <= 8
  {
    if k == 0 then [] else
      MugshotPictures(sprite, b0, cam, k - 1)
      + SuffixPictures(sprite, SUFFIXES[k - 1], Posed(MugshotAfter(b0, k - 1), SUFFIXES[k - 1]), cam)
  }

  function AllMugshotPictures(sprite: string, cam: Camera): seq<Picture>
  {
    MugshotPictures(sprite, LOADED_BUST, cam, 8)
  }

  /** `apply_color` on both. */
  method ColorBust(head: Limb, helmet: Trim, c: Rgba)
    requires head.Valid() && helmet.Valid()
    modifies head, helmet
    ensures head.Valid() && helmet.Valid()
    ensures PairOf(head, helmet) == Tint(old(PairOf(head, helmet)), c)
  {
    head.ApplyColor(c);
    helmet.ApplyColor(c);
  }

  /** `apply_red` on both. */
  method RedBust(head: Limb, helmet: Trim, saturation: byte)
    requires head.Valid() && helmet.Valid()
    modifies head, helmet
    ensures head.Valid() && helmet.Valid()
    ensures PairOf(head, helmet) == Tint(old(PairOf(head, helmet)), Red(saturation))
  {
    head.ApplyRed(saturation);
    helmet.ApplyRed(saturation);
  }

  /** `rotate_around(zero, [(axis, deg)])` on both. */
  method TiltBust(head: Limb, helmet: Trim, axis: Axis, deg: int)
    requires head.Valid() && helmet.Valid()
    modifies head, helmet
    ensures head.Valid() && helmet.Valid()
    ensures PairOf(head, helmet) == Tilt(old(PairOf(head, helmet)), axis, deg)
  {
    head.RotateAround(Origin, [Turn(axis, Deg(deg))]);
    helmet.RotateAround(Origin, [Turn(axis, Deg(deg))]);
  }

  /** `render_mugshot_frame`: capture head and helmet into `folder`. */
  method SaveMugshotFrame(head: Limb, helmet: Trim, sprite: string, suffix: string, frame: nat, rendering: Rendering, folder: Folder)
    requires folder.Valid()
    modifies folder
    ensures folder.Valid()
    ensures folder.views == old(folder.views)[MugshotFile(sprite, suffix, frame) := View(rendering.camera, PairOf(head, helmet))]
  {
    folder.Save(sprite + suffix + NatToString(frame) + ".png", View(rendering.camera, PairOf(head, helmet)));
  }

  /** The first `match suffix`. */
  method PoseBust(head: Limb, helmet: Trim, suffix: string)
    requires head.Valid() && helmet.Valid() && suffix in SUFFIXES
    modifies head, helmet
    ensures head.Valid() && helmet.Valid()
    ensures PairOf(head, helmet) == Posed(old(PairOf(head, helmet)), suffix)
  {
    if suffix == "DEAD" {
      ColorBust(head, helmet, Rgba(64, 64, 64, 255));
    } else if suffix == "EVL" || suffix == "KILL" {
      TiltBust(head, helmet, X, -15);
    } else if suffix == "GOD" {
      ColorBust(head, helmet, Rgba(255, 215, 0, 255));
    } else if suffix == "OUCH" {
      TiltBust(head, helmet, X, 15);
    } else if suffix == "ST" {
    } else if suffix == "TL" {
      TiltBust(head, helmet, Y, -30);
    } else {
      TiltBust(head, helmet, Y, 30);
    }
  }

  /** The fading captures of `EVL`, `KILL` and `OUCH`, then the tilt reset
      to zero degrees about `x`. */
  method CapturePained(head: Limb, helmet: Trim, sprite: string, suffix: string, rendering: Rendering, folder: Folder,
                       ghost before: seq<Picture>)
    requires head.Valid() && helmet.Valid() && folder.Valid() && folder.views == PictureMap(before)
    modifies head, helmet, folder
    ensures head.Valid() && helmet.Valid() && folder.Valid()
    ensures PairOf(head, helmet) == Tilt(Tint(old(PairOf(head, helmet)), Red(Saturation(4))), X, 0)
    ensures folder.views == PictureMap(before + Pained(sprite, suffix, old(PairOf(head, helmet)), rendering.camera))
  {
    ghost var b := PairOf(head, helmet);
    ghost var ps := Pained(sprite, suffix, b, rendering.camera);
    assert before + ps[..0] == before;
    for i := 0 to 5
      invariant head.Valid() && helmet.Valid() && folder.Valid()
      invariant PairOf(head, helmet) == if i == 0 then b else Tint(b, Red(Saturation(i - 1)))
      invariant folder.views == PictureMap(before + ps[..i])
    {
      var saturation := Saturation(i);
      RedBust(head, helmet, saturation);
      SaveMugshotFrame(head, helmet, sprite, suffix, i, rendering, folder);
      PictureMapStep(before, ps, i);
    }
    assert ps[..5] == ps;
    TiltBust(head, helmet, X, 0);
  }

  /** The fading captures of `TL` and `TR`. */
  method CaptureGlancing(head: Limb, helmet: Trim, sprite: string, suffix: string, rendering: Rendering, folder: Folder,
                         ghost before: seq<Picture>)
    requires head.Valid() && helmet.Valid() && folder.Valid() && folder.views == PictureMap(before)
    modifies head, helmet, folder
    ensures head.Valid() && helmet.Valid() && folder.Valid()
    ensures PairOf(head, helmet) == Tint(old(PairOf(head, helmet)), Red(Saturation(4)))
    ensures folder.views == PictureMap(before + Glancing(sprite, suffix, old(PairOf(head, helmet)), rendering.camera))
  {
    ghost var b := PairOf(head, helmet);
    ghost var ps := Glancing(sprite, suffix, b, rendering.camera);
    assert before + ps[..0] == before;
    for i := 0 to 5
      invariant head.Valid() && helmet.Valid() && folder.Valid()
      invariant PairOf(head, helmet) == if i == 0 then b else Tint(b, Red(Saturation(i - 1)))
      invariant folder.views == PictureMap(before + ps[..i])
    {
      var saturation := Saturation(i);
      RedBust(head, helmet, saturation);
      SaveMugshotFrame(head, helmet, sprite, suffix + NatToString(i), 0, rendering, folder);
      PictureMapStep(before, ps, i);
    }
    assert ps[..5] == ps;
  }

  lemma StatusRowsSnoc(before: seq<Picture>, sprite: string, b: Shot, cam: Camera, x: nat)
    requires b.Pair? && x < 5
    ensures before + StatusRows(sprite, b, cam, x) + StatusRow(sprite, b, cam, x) == before + StatusRows(sprite, b, cam, x + 1)
  {
  }

  /** Row `x` of the status faces: one red, three glances. Before the row
      the face has the bases of `b0`, the face the status faces start
      from; its colour and pose are overwritten. */
  method CaptureStatusRow(head: Limb, helmet: Trim, sprite: string, x: nat, rendering: Rendering, folder: Folder,
                          ghost b0: Shot, ghost before: seq<Picture>)
    requires x < 5 && b0.Pair? && head.Valid() && helmet.Valid() && folder.Valid()
    requires folder.views == PictureMap(before + StatusRows(sprite, b0, rendering.camera, x))
    requires PairOf(head, helmet).part.base == b0.part.base && PairOf(head, helmet).trim.base == b0.trim.base
    modifies head, helmet, folder
    ensures head.Valid() && helmet.Valid() && folder.Valid()
    ensures PairOf(head, helmet) == Tilt(Tint(b0, Red(Saturation(x))), Y, StatusAngle(2))
    ensures folder.views == PictureMap(before + StatusRows(sprite, b0, rendering.camera, x + 1))
  {
    ghost var done := before + StatusRows(sprite, b0, rendering.camera, x);
    ghost var ps := StatusRow(sprite, b0, rendering.camera, x);
    var saturation := Saturation(x);
    RedBust(head, helmet, saturation);
    ghost var tinted := PairOf(head, helmet);
    assert done + ps[..0] == done;
    for y := 0 to 3
      invariant head.Valid() && helmet.Valid() && folder.Valid()
      invariant PairOf(head, helmet) == if y == 0 then tinted else Tilt(Tint(b0, Red(saturation)), Y, StatusAngle(y - 1))
      invariant folder.views == PictureMap(done + ps[..y])
    {
      var angle := if y == 0 then 15 else if y == 1 then 0 else -15;
      TiltBust(head, helmet, Y, angle);
      assert PairOf(head, helmet) == Tilt(Tint(b0, Red(saturation)), Y, StatusAngle(y));
      SaveMugshotFrame(head, helmet, sprite, "ST" + NatToString(x), y, rendering, folder);
      PictureMapStep(done, ps, y);
    }
    assert ps[..3] == ps;
    StatusRowsSnoc(before, sprite, b0, rendering.camera, x);
  }

  /** The fifteen status faces. */
  method CaptureStatus(head: Limb, helmet: Trim, sprite: string, rendering: Rendering, folder: Folder,
                       ghost before: seq<Picture>)
    requires head.Valid() && helmet.Valid() && folder.Valid() && folder.views == PictureMap(before)
    modifies head, helmet, folder
    ensures head.Valid() && helmet.Valid() && folder.Valid()
    ensures PairOf(head, helmet) == Tilt(Tint(old(PairOf(head, helmet)), Red(Saturation(4))), Y, StatusAngle(2))
    ensures folder.views == PictureMap(before + StatusRows(sprite, old(PairOf(head, helmet)), rendering.camera, 5))
  {
    ghost var b := PairOf(head, helmet);
    ghost var cam := rendering.camera;
    assert before + StatusRows(sprite, b, cam, 0) == before;
    for x := 0 to 5
      invariant head.Valid() && helmet.Valid() && folder.Valid()
      invariant PairOf(head, helmet).part.base == b.part.base && PairOf(head, helmet).trim.base == b.trim.base
      invariant x > 0 ==> PairOf(head, helmet) == Tilt(Tint(b, Red(Saturation(x - 1))), Y, StatusAngle(2))
      invariant folder.views == PictureMap(before + StatusRows(sprite, b, cam, x))
    {
      CaptureStatusRow(head, helmet, sprite, x, rendering, folder, b, before);
    }
  }

  /** The second `match suffix`. */
  method CaptureSuffix(head: Limb, helmet: Trim, sprite: string, suffix: string, rendering: Rendering, folder: Folder,
                       ghost before: seq<Picture>)
    requires suffix in SUFFIXES && head.Valid() && helmet.Valid() && folder.Valid() && folder.views == PictureMap(before)
    modifies head, helmet, folder
    ensures head.Valid() && helmet.Valid() && folder.Valid()
    ensures PairOf(head, helmet) == Captured(old(PairOf(head, helmet)), suffix)
    ensures folder.views == PictureMap(before + SuffixPictures(sprite, suffix, old(PairOf(head, helmet)), rendering.camera))
  {
    if suffix == "DEAD" || suffix == "GOD" {
      SaveMugshotFrame(head, helmet, sprite, suffix, 0, rendering, folder);
      PictureMapSnoc(before, Picture(MugshotFile(sprite, suffix, 0), View(rendering.camera, PairOf(head, helmet))));
    } else if suffix == "EVL" || suffix == "KILL" || suffix == "OUCH" {
      CapturePained(head, helmet, sprite, suffix, rendering, folder, before);
    } else if suffix == "ST" {
      CaptureStatus(head, helmet, sprite, rendering, folder, before);
    } else {
      CaptureGlancing(head, helmet, sprite, suffix, rendering, folder, before);
    }
  }

  /** One iteration of the suffix loop. */
  method RenderSuffix(head: Limb, helmet: Trim, sprite: string, k: nat, rendering: Rendering, folder: Folder,
                      ghost cam: Camera)
    requires k < 8 && head.Valid() && helmet.Valid() && folder.Valid() && rendering.camera == cam
    requires PairOf(head, helmet) == MugshotAfter(LOADED_BUST, k)
    requires folder.views == PictureMap(MugshotPictures(sprite, LOADED_BUST, cam, k))
    modifies head, helmet, folder
    ensures head.Valid() && helmet.Valid() && folder.Valid()
    ensures PairOf(head, helmet) == MugshotAfter(LOADED_BUST, k + 1)
    ensures folder.views == PictureMap(MugshotPictures(sprite, LOADED_BUST, cam, k + 1))
  {
    var suffix := SUFFIXES[k];
    PoseBust(head, helmet, suffix);
    CaptureSuffix(head, helmet, sprite, suffix, rendering, folder, MugshotPictures(sprite, LOADED_BUST, cam, k));
  }

  /** The suffix loop, into the fresh `mugshot{index}` folder. */
  method RenderSuffixes(head: Limb, helmet: Trim, sprite: string, rendering: Rendering, folder: Folder)
    requires head.Valid() && helmet.Valid() && folder.Valid() && folder.views == map[]
    requires PairOf(head, helmet) == LOADED_BUST
    modifies head, helmet, folder
    ensures folder.Valid() && folder.views == PictureMap(AllMugshotPictures(sprite, rendering.camera))
  {
    ghost var cam := rendering.camera;
    for k := 0 to 8
      invariant head.Valid() && helmet.Valid() && folder.Valid()
      invariant PairOf(head, helmet) == MugshotAfter(LOADED_BUST, k)
      invariant folder.views == PictureMap(MugshotPictures(sprite, LOADED_BUST, cam, k))
    {
      RenderSuffix(head, helmet, sprite, k, rendering, folder, cam);
    }
  }

  /** `render_mugshot`: move the camera 10 units along z, away from the
      figure, load head and helmet, create `mugshot{index}` and capture
      every face kind. The camera is not moved back, and it has moved even
      when the directory cannot be created. */
  method RenderMugshot(atlas: Atlas, disk: Disk, prefix: string, rendering: Rendering, index: nat, gamma: Gamma) returns (r: Outcome)
    requires atlas.Length0 >= 64 && atlas.Length1 >= 64
    modifies disk, rendering
    ensures rendering.camera == Translate(old(rendering.camera), MUGSHOT_ZOOM)
    ensures var d := "mugshot" + NatToString(index);
      if d in old(disk.dirs) then r == Failed("subdirectory " + d) && disk.dirs == old(disk.dirs)
      else (r == Done && Filled(old(disk.dirs), disk.dirs, d, AllMugshotPictures(MugshotSprite(prefix), rendering.camera))
        && fresh(disk.dirs[d]))
  {
    rendering.TranslateCamera(100);
    var sprite := prefix;
    assert forall p :: p in RenderingPatches() ==> NetInAtlas(p, 64, 64);
    FitsLarger(atlas, HEAD);
    FitsLarger(atlas, HELMET);
    var head := new Limb.Load(atlas, "head", HEAD, Origin, gamma);
    var helmet := new Trim.Load(atlas, "helmet", HELMET, Origin, gamma);
    var created := disk.CreateSubdir("mugshot", index);
    if created.Err? {
      return Failed(created.msg);
    }
    RenderSuffixes(head, helmet, sprite, rendering, created.value);
    r := Done;
  }
}

module MugshotSchedules {
  import opened Common
  import opened Geometry
  import opened Puppet
  import opened Cameras
  import opened Disks
  import opened Mugshots

  /** The faces as closed forms of the loaded head and helmet, free of the
      colours and poses each kind leaves to the next. */
  function ReferenceMugshots(sprite: string, cam: Camera): seq<Picture>
  {
    var b := LOADED_BUST;
    [Picture(MugshotFile(sprite, "DEAD", 0), View(cam, Tint(b, DEAD_GRAY)))]
    + Pained(sprite, "EVL", Tilt(b, X, -15), cam)
    + [Picture(MugshotFile(sprite, "GOD", 0), View(cam, Tilt(Tint(b, GOLD), X, 0)))]
    + Pained(sprite, "KILL", Tilt(b, X, -15), cam)
    + Pained(sprite, "OUCH", Tilt(b, X, 15), cam)
    + StatusRows(sprite, b, cam, 5)
    + Glancing(sprite, "TL", Tilt(b, Y, -30), cam)
    + Glancing(sprite, "TR", Tilt(b, Y, 30), cam)
  }

  /** The fading captures overwrite the colour they start from. */
  lemma PainedRecolored(sprite: string, suffix: string, b: Shot, c: Rgba, cam: Camera)
    requires b.Pair?
    ensures Pained(sprite, suffix, Tint(b, c), cam) == Pained(sprite, suffix, b, cam)
    ensures Glancing(sprite, suffix, Tint(b, c), cam) == Glancing(sprite, suffix, b, cam)
  {
    assert forall i :: 0 <= i < 5 ==> Tint(Tint(b, c), Red(Saturation(i))) == Tint(b, Red(Saturation(i)));
  }

  /** What each kind leaves behind, from the loaded head. */
  lemma MugshotStates()
    ensures MugshotAfter(LOADED_BUST, 1) == Tint(LOADED_BUST, DEAD_GRAY)
    ensures MugshotAfter(LOADED_BUST, 2) == Tilt(Tint(LOADED_BUST, Red(51)), X, 0)
    ensures MugshotAfter(LOADED_BUST, 3) == Tilt(Tint(LOADED_BUST, GOLD), X, 0)
    ensures MugshotAfter(LOADED_BUST, 5) == Tilt(Tint(LOADED_BUST, Red(51)), X, 0)
    ensures MugshotAfter(LOADED_BUST, 6) == Tilt(Tint(LOADED_BUST, Red(51)), Y, -15)
    ensures MugshotAfter(LOADED_BUST, 7) == Tint(Tilt(LOADED_BUST, Y, -30), Red(51))
  {
  }

  /** The status faces overwrite colour and pose: only the bases of the
      face they start from matter. */
  lemma {:induction false} StatusRowsRebased(sprite: string, b: Shot, c: Shot, cam: Camera, n: nat)
    requires b.Pair? && c.Pair? && n <= 5
    requires b.part.base == c.part.base && b.trim.base == c.trim.base
    ensures StatusRows(sprite, b, cam, n) == StatusRows(sprite, c, cam, n)
  {
    if n > 0 {
      StatusRowsRebased(sprite, b, c, cam, n - 1);
      assert StatusRow(sprite, b, cam, n - 1) == StatusRow(sprite, c, cam, n - 1);
    }
  }

  /** The dead, evil, god, kill and ouch faces. */
  lemma FirstKinds(sprite: string, cam: Camera)
    ensures MugshotPictures(sprite, LOADED_BUST, cam, 5)
      == [Picture(MugshotFile(sprite, "DEAD", 0), View(cam, Tint(LOADED_BUST, DEAD_GRAY)))]
      + Pained(sprite, "EVL", Tilt(LOADED_BUST, X, -15), cam)
      + [Picture(MugshotFile(sprite, "GOD", 0), View(cam, Tilt(Tint(LOADED_BUST, GOLD), X, 0)))]
      + Pained(sprite, "KILL", Tilt(LOADED_BUST, X, -15), cam)
      + Pained(sprite, "OUCH", Tilt(LOADED_BUST, X, 15), cam)
  {
    var b := LOADED_BUST;
    MugshotStates();
    var a4 := MugshotAfter(b, 4);
    assert a4 == Tilt(Tint(b, Red(51)), X, 0);
    PainedRecolored(sprite, "EVL", Tilt(b, X, -15), DEAD_GRAY, cam);
    assert Tilt(Tint(b, DEAD_GRAY), X, -15) == Tint(Tilt(b, X, -15), DEAD_GRAY);
    PainedRecolored(sprite, "KILL", Tilt(b, X, -15), GOLD, cam);
    assert Tilt(Tilt(Tint(b, GOLD), X, 0), X, -15) == Tint(Tilt(b, X, -15), GOLD);
    PainedRecolored(sprite, "OUCH", Tilt(b, X, 15), Red(51), cam);
    assert Tilt(a4, X, 15) == Tint(Tilt(b, X, 15), Red(51));
    assert MugshotPictures(sprite, b, cam, 1) == [Picture(MugshotFile(sprite, "DEAD", 0), View(cam, Tint(b, DEAD_GRAY)))];
    assert MugshotPictures(sprite, b, cam, 2) == MugshotPictures(sprite, b, cam, 1) + Pained(sprite, "EVL", Tilt(b, X, -15), cam);
    assert MugshotPictures(sprite, b, cam, 3) == MugshotPictures(sprite, b, cam, 2) + [Picture(MugshotFile(sprite, "GOD", 0), View(cam, Tilt(Tint(b, GOLD), X, 0)))];
    assert MugshotPictures(sprite, b, cam, 4) == MugshotPictures(sprite, b, cam, 3) + Pained(sprite, "KILL", Tilt(b, X, -15), cam);
  }

  /** `render_mugshot` saves exactly the reference faces, in order. */
  lemma MugshotReference(sprite: string, cam: Camera)
    ensures AllMugshotPictures(sprite, cam) == ReferenceMugshots(sprite, cam)
  {
    var b := LOADED_BUST;
    MugshotStates();
    FirstKinds(sprite, cam);
    StatusRowsRebased(sprite, MugshotAfter(b, 5), b, cam, 5);
    PainedRecolored(sprite, "TL", Tilt(b, Y, -30), Red(51), cam);
    assert Tilt(MugshotAfter(b, 6), Y, -30) == Tint(Tilt(b, Y, -30), Red(51));
    PainedRecolored(sprite, "TR", Tilt(b, Y, 30), Red(51), cam);
    assert Tilt(MugshotAfter(b, 7), Y, 30) == Tint(Tilt(b, Y, 30), Red(51));
    assert MugshotPictures(sprite, b, cam, 6) == MugshotPictures(sprite, b, cam, 5) + StatusRows(sprite, b, cam, 5);
    assert MugshotPictures(sprite, b, cam, 7) == MugshotPictures(sprite, b, cam, 6) + Glancing(sprite, "TL", Tilt(b, Y, -30), cam);
  }

  /** The two characters after the sprite, as one number: the face kind. */
  function Tag(f: string, at: nat): int
    requires at + 2 <= |f|
  {
    f[at] as int * 0x11_0000 + f[at + 1] as int
  }

  /** Every file of `ps` has kind tag `t`. */
  ghost predicate TaggedAs(ps: seq<Picture>, at: nat, t: int)
  {
    forall i :: 0 <= i < |ps| ==> at + 2 <= |ps[i].file| && Tag(ps[i].file, at) == t
  }

  /** Every file of `ps` has a kind tag at most `t`. */
  ghost predicate TaggedBelow(ps: seq<Picture>, at: nat, t: int)
  {
    forall i :: 0 <= i < |ps| ==> at + 2 <= |ps[i].file| && Tag(ps[i].file, at) <= t
  }

  /** Appending a kind with a higher tag keeps the names distinct. */
  lemma JoinRising(a: seq<Picture>, b: seq<Picture>, at: nat, ta: int, tb: int)
    requires ta < tb && Distinct(Names(a)) && Distinct(Names(b))
    requires TaggedBelow(a, at, ta) && TaggedAs(b, at, tb)
    ensures Distinct(Names(a + b)) && TaggedBelow(a + b, at, tb)
  {
    var ps := a + b;
    forall i, j | 0 <= i < j < |ps| ensures Names(ps)[i] != Names(ps)[j] {
      if j < |a| {
        assert Names(a)[i] != Names(a)[j];
      } else if i >= |a| {
        assert Names(b)[i - |a|] != Names(b)[j - |a|];
      } else {
        assert Tag(ps[i].file, at) != Tag(ps[j].file, at);
      }
    }
  }

  /** The fading faces of `EVL`, `KILL` and `OUCH`: tagged by the kind,
      told apart by the digit after it. */
  lemma PainedNames(sprite: string, suffix: string, b: Shot, cam: Camera)
    requires b.Pair? && |suffix| >= 2
    ensures TaggedAs(Pained(sprite, suffix, b, cam), |sprite|, Tag(suffix, 0)) && Distinct(Names(Pained(sprite, suffix, b, cam)))
  {
    var ps := Pained(sprite, suffix, b, cam);
    var at := |sprite| + |suffix|;
    forall i | 0 <= i < 5
      ensures |ps[i].file| > at && ps[i].file[at] == DigitChar(i) && Tag(ps[i].file, |sprite|) == Tag(suffix, 0)
    {
      assert ps[i].file == sprite + suffix + ([DigitChar(i)] + ".png");
    }
    forall i, j | 0 <= i < j < 5 ensures Names(ps)[i] != Names(ps)[j] {
      DigitsApart(i, j);
      assert ps[i].file[at] != ps[j].file[at];
    }
  }

  /** The fading faces of `TL` and `TR`, likewise. */
  lemma GlancingNames(sprite: string, suffix: string, b: Shot, cam: Camera)
    requires b.Pair? && |suffix| >= 2
    ensures TaggedAs(Glancing(sprite, suffix, b, cam), |sprite|, Tag(suffix, 0)) && Distinct(Names(Glancing(sprite, suffix, b, cam)))
  {
    var gs := Glancing(sprite, suffix, b, cam);
    var at := |sprite| + |suffix|;
    forall i | 0 <= i < 5
      ensures |gs[i].file| > at && gs[i].file[at] == DigitChar(i) && Tag(gs[i].file, |sprite|) == Tag(suffix, 0)
    {
      assert gs[i].file == sprite + suffix + ([DigitChar(i)] + "0" + ".png");
    }
    forall i, j | 0 <= i < j < 5 ensures Names(gs)[i] != Names(gs)[j] {
      DigitsApart(i, j);
      assert gs[i].file[at] != gs[j].file[at];
    }
  }

  /** Row `x` of the status faces: row digit, then column digit. */
  lemma StatusRowNames(sprite: string, b: Shot, cam: Camera, x: nat)
    requires b.Pair? && x < 5
    ensures var row := StatusRow(sprite, b, cam, x);
      forall y :: 0 <= y < 3 ==>
        (|row[y].file| > |sprite| + 3 && Tag(row[y].file, |sprite|) == Tag("ST", 0)
         && row[y].file[|sprite| + 2] == DigitChar(x) && row[y].file[|sprite| + 3] == DigitChar(y))
  {
    var row := StatusRow(sprite, b, cam, x);
    forall y | 0 <= y < 3
      ensures |row[y].file| > |sprite| + 3 && Tag(row[y].file, |sprite|) == Tag("ST", 0)
      ensures row[y].file[|sprite| + 2] == DigitChar(x) && row[y].file[|sprite| + 3] == DigitChar(y)
    {
      assert row[y].file == sprite + "ST" + ([DigitChar(x)] + [DigitChar(y)] + ".png");
    }
  }

  /** The status faces: tagged `ST`, told apart by the row digit and then
      the column digit. */
  lemma {:induction false} StatusNames(sprite: string, b: Shot, cam: Camera, n: nat)
    requires b.Pair? && n <= 5
    ensures var ps := StatusRows(sprite, b, cam, n);
      TaggedAs(ps, |sprite|, Tag("ST", 0)) && Distinct(Names(ps))
      && forall i :: 0 <= i < |ps| ==> |ps[i].file| > |sprite| + 2 && (ps[i].file[|sprite| + 2] as int) < '0' as int + n
  {
    if n > 0 {
      var before, row := StatusRows(sprite, b, cam, n - 1), StatusRow(sprite, b, cam, n - 1);
      var ps := StatusRows(sprite, b, cam, n);
      StatusNames(sprite, b, cam, n - 1);
      var at := |sprite| + 2;
      DigitValue(n - 1);
      StatusRowNames(sprite, b, cam, n - 1);
      forall i, j | 0 <= i < j < |ps| ensures Names(ps)[i] != Names(ps)[j] {
        if j < |before| {
          assert Names(before)[i] != Names(before)[j];
        } else if i >= |before| {
          DigitsApart(i - |before|, j - |before|);
          assert ps[i].file[at + 1] != ps[j].file[at + 1];
        } else {
          assert ps[i].file[at] != ps[j].file[at];
        }
      }
    }
  }

  /** A single face is tagged by its kind. */
  lemma StillName(sprite: string, suffix: string, b: Shot, cam: Camera)
    requires |suffix| >= 2
    ensures var ps := [Picture(MugshotFile(sprite, suffix, 0), View(cam, b))];
      TaggedAs(ps, |sprite|, Tag(suffix, 0)) && TaggedBelow(ps, |sprite|, Tag(suffix, 0)) && Distinct(Names(ps))
  {
    assert MugshotFile(sprite, suffix, 0) == sprite + suffix + ("0" + ".png");
  }

  /** The 42 faces have 42 different file names. */
  lemma MugshotNames(sprite: string, cam: Camera)
    ensures |ReferenceMugshots(sprite, cam)| == 42 && Distinct(Names(ReferenceMugshots(sprite, cam)))
  {
    var b, at := LOADED_BUST, |sprite|;
    var dead := [Picture(MugshotFile(sprite, "DEAD", 0), View(cam, Tint(b, DEAD_GRAY)))];
    var evil := Pained(sprite, "EVL", Tilt(b, X, -15), cam);
    var god := [Picture(MugshotFile(sprite, "GOD", 0), View(cam, Tilt(Tint(b, GOLD), X, 0)))];
    var kill := Pained(sprite, "KILL", Tilt(b, X, -15), cam);
    var ouch := Pained(sprite, "OUCH", Tilt(b, X, 15), cam);
    var status := StatusRows(sprite, b, cam, 5);
    var left := Glancing(sprite, "TL", Tilt(b, Y, -30), cam);
    var right := Glancing(sprite, "TR", Tilt(b, Y, 30), cam);
    StillName(sprite, "DEAD", Tint(b, DEAD_GRAY), cam);
    PainedNames(sprite, "EVL", Tilt(b, X, -15), cam);
    JoinRising(dead, evil, at, Tag("DEAD", 0), Tag("EVL", 0));
    StillName(sprite, "GOD", Tilt(Tint(b, GOLD), X, 0), cam);
    JoinRising(dead + evil, god, at, Tag("EVL", 0), Tag("GOD", 0));
    PainedNames(sprite, "KILL", Tilt(b, X, -15), cam);
    JoinRising(dead + evil + god, kill, at, Tag("GOD", 0), Tag("KILL", 0));
    PainedNames(sprite, "OUCH", Tilt(b, X, 15), cam);
    JoinRising(dead + evil + god + kill, ouch, at, Tag("KILL", 0), Tag("OUCH", 0));
    StatusNames(sprite, b, cam, 5);
    JoinRising(dead + evil + god + kill + ouch, status, at, Tag("OUCH", 0), Tag("ST", 0));
    GlancingNames(sprite, "TL", Tilt(b, Y, -30), cam);
    JoinRising(dead + evil + god + kill + ouch + status, left, at, Tag("ST", 0), Tag("TL", 0));
    GlancingNames(sprite, "TR", Tilt(b, Y, 30), cam);
    JoinRising(dead + evil + god + kill + ouch + status + left, right, at, Tag("TL", 0), Tag("TR", 0));
  }

  /** File `f` of the directory shows `v`. */
  ghost predicate Shows(m: map<string, View>, f: string, v: View)
  {
    f in m && m[f] == v
  }

  /** `render_mugshot` leaves 42 files, one per face, each showing its
      reference face: no capture overwrites another. */
  lemma MugshotSaved(sprite: string, cam: Camera)
    ensures var ref, m := ReferenceMugshots(sprite, cam), PictureMap(AllMugshotPictures(sprite, cam));
      |m| == 42 && forall p :: p in ref ==> Shows(m, p.file, p.view)
  {
    var ref := ReferenceMugshots(sprite, cam);
    MugshotReference(sprite, cam);
    MugshotNames(sprite, cam);
    PictureMapSize(ref);
    forall p | p in ref ensures Shows(PictureMap(ref), p.file, p.view) {
      var i :| 0 <= i < |ref| && ref[i] == p;
      forall j | i < j < |ref| ensures ref[j].file != ref[i].file {
        assert Names(ref)[i] != Names(ref)[j];
      }
      PictureMapLast(ref, i);
    }
  }

  /** Face `3 * x + y` of the status faces is column `y` of row `x`. */
  lemma {:induction false} StatusRowsAt(sprite: string, b: Shot, cam: Camera, n: nat, x: nat, y: nat)
    requires b.Pair? && x < n <= 5 && y < 3
    ensures 3 * x + y < |StatusRows(sprite, b, cam, n)|
    ensures StatusRows(sprite, b, cam, n)[3 * x + y] == StatusRow(sprite, b, cam, x)[y]
  {
    if x < n - 1 {
      StatusRowsAt(sprite, b, cam, n - 1, x, y);
    }
  }

  /** The dead face is grey and unturned: the head placed by the identity,
      the helmet never placed. The god face is gold and upright again
      after the evil grin. */
  lemma DeadAndGodFaces(sprite: string, cam: Camera)
    ensures var m, b := PictureMap(AllMugshotPictures(sprite, cam)), LOADED_BUST;
      Shows(m, MugshotFile(sprite, "DEAD", 0), View(cam, Tint(b, DEAD_GRAY)))
      && Shows(m, MugshotFile(sprite, "GOD", 0), View(cam, Tilt(Tint(b, GOLD), X, 0)))
  {
    MugshotSaved(sprite, cam);
  }

  /** The evil and kill faces are the same pictures, tilted down and
      fading from full red; the ouch faces are tilted up. */
  lemma PainedFaces(sprite: string, cam: Camera)
    ensures var m, b := PictureMap(AllMugshotPictures(sprite, cam)), LOADED_BUST;
      forall i :: 0 <= i < 5 ==>
        (Shows(m, MugshotFile(sprite, "EVL", i), View(cam, Tint(Tilt(b, X, -15), Red(Saturation(i)))))
         && Shows(m, MugshotFile(sprite, "KILL", i), View(cam, Tint(Tilt(b, X, -15), Red(Saturation(i)))))
         && Shows(m, MugshotFile(sprite, "OUCH", i), View(cam, Tint(Tilt(b, X, 15), Red(Saturation(i))))))
  {
    MugshotSaved(sprite, cam);
    var b, ref := LOADED_BUST, ReferenceMugshots(sprite, cam);
    var evil, kill, ouch := Pained(sprite, "EVL", Tilt(b, X, -15), cam), Pained(sprite, "KILL", Tilt(b, X, -15), cam),
      Pained(sprite, "OUCH", Tilt(b, X, 15), cam);
    var m := PictureMap(AllMugshotPictures(sprite, cam));
    forall i | 0 <= i < 5
      ensures Shows(m, MugshotFile(sprite, "EVL", i), View(cam, Tint(Tilt(b, X, -15), Red(Saturation(i)))))
      ensures Shows(m, MugshotFile(sprite, "KILL", i), View(cam, Tint(Tilt(b, X, -15), Red(Saturation(i)))))
      ensures Shows(m, MugshotFile(sprite, "OUCH", i), View(cam, Tint(Tilt(b, X, 15), Red(Saturation(i)))))
    {
      assert evil[i] in evil && kill[i] in kill && ouch[i] in ouch;
      assert evil[i] in ref && kill[i] in ref && ouch[i] in ref;
    }
  }

  /** Status face `ST{x}{y}` is red with saturation `255 / (x + 1)` and
      looks right, ahead or left for `y` = 0, 1, 2. */
  lemma StatusFaces(sprite: string, cam: Camera)
    ensures var m, b := PictureMap(AllMugshotPictures(sprite, cam)), LOADED_BUST;
      forall x, y :: 0 <= x < 5 && 0 <= y < 3 ==>
        Shows(m, MugshotFile(sprite, "ST" + NatToString(x), y), View(cam, Tilt(Tint(b, Red(Saturation(x))), Y, StatusAngle(y))))
  {
    MugshotSaved(sprite, cam);
    var ref, rows := ReferenceMugshots(sprite, cam), StatusRows(sprite, LOADED_BUST, cam, 5);
    var m := PictureMap(AllMugshotPictures(sprite, cam));
    forall x, y | 0 <= x < 5 && 0 <= y < 3
      ensures Shows(m, MugshotFile(sprite, "ST" + NatToString(x), y), View(cam, Tilt(Tint(LOADED_BUST, Red(Saturation(x))), Y, StatusAngle(y))))
    {
      var row := StatusRow(sprite, LOADED_BUST, cam, x);
      StatusRowsAt(sprite, LOADED_BUST, cam, 5, x, y);
      assert rows[3 * x + y] in rows;
      assert row[y] in ref;
    }
  }

  /** The `TL` and `TR` faces look further left and right, fading like the
      others. */
  lemma GlancingFaces(sprite: string, cam: Camera)
    ensures var m, b := PictureMap(AllMugshotPictures(sprite, cam)), LOADED_BUST;
      forall i :: 0 <= i < 5 ==>
        (Shows(m, MugshotFile(sprite, "TL" + NatToString(i), 0), View(cam, Tint(Tilt(b, Y, -30), Red(Saturation(i)))))
         && Shows(m, MugshotFile(sprite, "TR" + NatToString(i), 0), View(cam, Tint(Tilt(b, Y, 30), Red(Saturation(i))))))
  {
    MugshotSaved(sprite, cam);
    var b, ref := LOADED_BUST, ReferenceMugshots(sprite, cam);
    var left, right := Glancing(sprite, "TL", Tilt(b, Y, -30), cam), Glancing(sprite, "TR", Tilt(b, Y, 30), cam);
    var m := PictureMap(AllMugshotPictures(sprite, cam));
    forall i | 0 <= i < 5
      ensures Shows(m, MugshotFile(sprite, "TL" + NatToString(i), 0), View(cam, Tint(Tilt(b, Y, -30), Red(Saturation(i)))))
      ensures Shows(m, MugshotFile(sprite, "TR" + NatToString(i), 0), View(cam, Tint(Tilt(b, Y, 30), Red(Saturation(i)))))
    {
      assert left[i] in left && right[i] in right;
      assert left[i] in ref && right[i] in ref;
    }
  }

  /** The reds fade: full at the first capture, a fifth at the last, and
      lighter at every step. */
  lemma FadingReds(i: nat, j: nat)
    requires i < j < 5
    ensures Saturation(0) == 255 && Saturation(4) == 51
    ensures Saturation(j) < Saturation(i)
  {
  }
}
