/** `render_fist` (`src/rendering.rs`): the weapon sprite of the fist. Only
    the right arm and its sleeve are loaded, 3.5 units right of the origin;
    the camera turns half a revolution and moves 28 units back, and the
    arm is swung into nine poses, one capture each. */
module Fists {
  import opened Common
  import opened Geometry
  import opened Patches
  import opened Textures
  import opened Puppet
  import opened Cameras
  import opened Disks
  import opened Sprites

  /** Where arm and sleeve are loaded, in tenths. */
  const FIST_POSITION := Vec(35, 0, 0)
  /** How far the camera moves back, in tenths (`delta`). */
  const FIST_DELTA := 280
  /** The frames run `'A'..='I'`. */
  const FIST_FRAMES := 9

  /** Arm and sleeve as `Limb::load` and `Trim::load` leave them. */
  const LOADED_ARM := Pair(PartState(FIST_POSITION, Placed(Identity, FIST_POSITION), White), PartState(FIST_POSITION, Unset, White))

  /** The turn about `x` of frame `f`, in degrees. */
  function FistAngle(f: char): int
    requires 'A' <= f <= 'I'
  {
    if f == 'A' then 130
    else if f == 'B' then 135
    else if f == 'C' then 125
    else if f == 'D' then 115
    else if f == 'E' then 105
    else if f == 'F' then 110
    else if f == 'G' then 115
    else if f == 'H' then 120
    else 125
  }

  /** The pose of frame `f`: the `x` turn, then `-115` degrees about `y`,
      about the origin. */
  function FistPose(f: char): Pose
    requires 'A' <= f <= 'I'
  {
    Around(Origin, [Turn(X, Deg(FistAngle(f))), Turn(Y, Deg(-115))])
  }

  /** `rotate_around(pivot, &rotation)` on arm and sleeve. */
  function Swung(b: Shot, t: Pose): (r: Shot)
    requires b.Pair?
    ensures r.Pair? && r.part.placement.Placed? && r.trim.placement.Placed?
    ensures r.part.placement.pose == r.trim.placement.pose == t
  {
    Pair(SetPose(b.part, t), SetPose(b.trim, t))
  }

  /** `{sprite}{frame_index}0.png`, the sprite's backslash written `^`. */
  function FistFile(sprite: string, f: char): string
  {
    Replace(sprite, '\\', "^") + [f] + "0.png"
  }

  /** The camera of the fist frames. */
  function FistCamera(cam: Camera): Camera
  {
    Translate(Orbit(cam, 4), -FIST_DELTA)
  }

  /** The nine captures, from the fist camera. */
  function FistPictures(sprite: string, cam: Camera): (r: seq<Picture>)
    ensures |r| == FIST_FRAMES
  {
    seq(FIST_FRAMES, n requires 0 <= n < FIST_FRAMES =>
      Picture(FistFile(sprite, Letter(n)), View(cam, Swung(LOADED_ARM, FistPose(Letter(n))))))
  }

  /** Arm and sleeve where and as they were loaded: base translation
      `FIST_POSITION`, no colour applied. */
  ghost predicate AtShoulder(s: Shot)
  {
    s.Pair? && s.part.base == s.trim.base == FIST_POSITION && s.part.color == s.trim.color == White
  }

  /** `render_fist_frame`. */
  method SaveFistFrame(arm: Limb, sleeve: Trim, sprite: string, f: char, rendering: Rendering, folder: Folder)
    requires folder.Valid()
    modifies folder
    ensures folder.Valid()
    ensures folder.views == old(folder.views)[FistFile(sprite, f) := View(rendering.camera, PairOf(arm, sleeve))]
  {
    var escaped := Replace(sprite, '\\', "^");
    folder.Save(escaped + [f] + "0.png", View(rendering.camera, PairOf(arm, sleeve)));
  }

  /** One iteration of the frame loop: pose, then capture. */
  method RenderFistFrame(arm: Limb, sleeve: Trim, sprite: string, n: nat, rendering: Rendering, folder: Folder)
    requires n < FIST_FRAMES && arm.Valid() && sleeve.Valid() && folder.Valid()
    requires AtShoulder(PairOf(arm, sleeve))
    requires folder.views == PictureMap(FistPictures(sprite, rendering.camera)[..n])
    modifies arm, sleeve, folder
    ensures arm.Valid() && sleeve.Valid() && folder.Valid()
    ensures AtShoulder(PairOf(arm, sleeve))
    ensures folder.views == PictureMap(FistPictures(sprite, rendering.camera)[..n + 1])
  {
    var f := Letter(n);
    var rotation := [Turn(X, Deg(FistAngle(f))), Turn(Y, Deg(-115))];
    arm.RotateAround(Origin, rotation);
    sleeve.RotateAround(Origin, rotation);
    assert PairOf(arm, sleeve) == Swung(LOADED_ARM, FistPose(f));
    SaveFistFrame(arm, sleeve, sprite, f, rendering, folder);
    assert FistPictures(sprite, rendering.camera)[n] == Picture(FistFile(sprite, f), View(rendering.camera, PairOf(arm, sleeve)));
    ghost var ps := FistPictures(sprite, rendering.camera);
    assert [] + ps[..n] == ps[..n] && [] + ps[..n + 1] == ps[..n + 1];
    PictureMapStep([], ps, n);
  }

  /** The frame loop into the fresh `fist{index}` folder. */
  method RenderFistFrames(arm: Limb, sleeve: Trim, sprite: string, rendering: Rendering, folder: Folder)
    requires arm.Valid() && sleeve.Valid() && folder.Valid() && folder.views == map[]
    requires PairOf(arm, sleeve) == LOADED_ARM
    modifies arm, sleeve, folder
    ensures folder.Valid() && folder.views == PictureMap(FistPictures(sprite, rendering.camera))
  {
    ghost var ps := FistPictures(sprite, rendering.camera);
    assert ps[..0] == [];
    for n := 0 to FIST_FRAMES
      invariant arm.Valid() && sleeve.Valid() && folder.Valid()
      invariant AtShoulder(PairOf(arm, sleeve))
      invariant folder.views == PictureMap(ps[..n])
    {
      RenderFistFrame(arm, sleeve, sprite, n, rendering, folder);
    }
    assert ps[..FIST_FRAMES] == ps;
  }

  /** `render_fist`: load arm and sleeve, turn the camera round and move
      it back, create `fist{index}` and capture the nine frames. The camera
      is not restored, and it has moved even when the directory cannot be
      created. */
  method RenderFist(atlas: Atlas, disk: Disk, prefix: string, rendering: Rendering, index: nat, gamma: Gamma) returns (r: Outcome)
    requires atlas.Length0 >= 64 && atlas.Length1 >= 64
    modifies disk, rendering
    ensures rendering.camera == FistCamera(old(rendering.camera))
    ensures var d := "fist" + NatToString(index);
      if d in old(disk.dirs) then r == Failed("subdirectory " + d) && disk.dirs == old(disk.dirs)
      else (r == Done && Filled(old(disk.dirs), disk.dirs, d, FistPictures(FistSprite(prefix), rendering.camera))
        && fresh(disk.dirs[d]))
  {
    var sprite := prefix + "\\";
    assert forall p :: p in RenderingPatches() ==> NetInAtlas(p, 64, 64);
    FitsLarger(atlas, RIGHT_ARM);
    FitsLarger(atlas, RIGHT_SLEEVE);
    var arm := new Limb.Load(atlas, "arm", RIGHT_ARM, Vec(35, 0, 0), gamma);
    var sleeve := new Trim.Load(atlas, "arm", RIGHT_SLEEVE, Vec(35, 0, 0), gamma);
    rendering.OrbitCamera(4);
    rendering.TranslateCamera(-280);
    var created := disk.CreateSubdir("fist", index);
    if created.Err? {
      return Failed(created.msg);
    }
    RenderFistFrames(arm, sleeve, sprite, rendering, created.value);
    r := Done;
  }
}

module FistSchedules {
  import opened Common
  import opened Patches
  import opened Geometry
  import opened Puppet
  import opened Cameras
  import opened Disks
  import opened Sprites
  import opened Fists

  /** With a prefix free of `^`, frame `f` is saved as the escaped
      prefix, `^`, the letter and `0.png`, and the producers' `^` to `\`
      mapping gives back the fist sprite. */
  lemma FistFileEscaped(prefix: string, f: char)
    requires '^' !in prefix
    ensures FistFile(FistSprite(prefix), f) == Replace(prefix, '\\', "^") + "^" + [f] + "0.png"
    ensures |Replace(prefix, '\\', "^")| == |prefix|
    ensures Replace(Replace(prefix, '\\', "^") + "^", '^', "\\") == FistSprite(prefix)
  {
    FistSpriteEscape(prefix);
    ReplaceCharAt(prefix, '\\', '^');
  }

  /** The nine frames have nine different files: the letter after the
      escaped sprite tells them apart. */
  lemma FistNames(sprite: string, cam: Camera)
    ensures Distinct(Names(FistPictures(sprite, cam)))
    ensures |PictureMap(FistPictures(sprite, cam))| == FIST_FRAMES
  {
    var ps := FistPictures(sprite, cam);
    var at := |Replace(sprite, '\\', "^")|;
    forall n | 0 <= n < FIST_FRAMES ensures |ps[n].file| > at && ps[n].file[at] as int == 'A' as int + n {
      var f := Letter(n);
      assert ps[n].file == FistFile(sprite, f);
      assert FistFile(sprite, f) == Replace(sprite, '\\', "^") + ([f] + "0.png");
    }
    forall i, j | 0 <= i < j < FIST_FRAMES ensures Names(ps)[i] != Names(ps)[j] {
      assert ps[i].file[at] != ps[j].file[at];
    }
    PictureMapSize(ps);
  }

  /** Every frame shows arm and sleeve turned together into that frame's
      pose, seen from the fist camera; the swing rises to its highest at
      `B`, drops to its lowest at `E`, and comes back to `C`'s angle at
      `I`. */
  lemma FistFrames(sprite: string, cam: Camera)
    ensures var m := PictureMap(FistPictures(sprite, cam));
      forall n :: 0 <= n < FIST_FRAMES ==>
        FistFile(sprite, Letter(n)) in m && m[FistFile(sprite, Letter(n))] == View(cam, Swung(LOADED_ARM, FistPose(Letter(n))))
    ensures forall f :: 'A' <= f <= 'I' ==> FistAngle('E') <= FistAngle(f) <= FistAngle('B')
    ensures FistAngle('I') == FistAngle('C')
  {
    var ps := FistPictures(sprite, cam);
    FistNames(sprite, cam);
    forall n | 0 <= n < FIST_FRAMES
      ensures FistFile(sprite, Letter(n)) in PictureMap(ps)
      ensures PictureMap(ps)[FistFile(sprite, Letter(n))] == View(cam, Swung(LOADED_ARM, FistPose(Letter(n))))
    {
      assert ps[n] == Picture(FistFile(sprite, Letter(n)), View(cam, Swung(LOADED_ARM, FistPose(Letter(n)))));
      forall j | n < j < |ps| ensures ps[j].file != ps[n].file {
        assert Names(ps)[n] != Names(ps)[j];
      }
      PictureMapLast(ps, n);
    }
  }

  /** The fist camera looks from behind: half a revolution about the
      origin from the camera it was given, then 28 units further along
      negative z, away from the arm. */
  lemma FistCameraBehind(cam: Camera)
    requires Normal(cam)
    ensures FistCamera(cam).yaw == Wrap(cam.yaw + 4)
    ensures Where(FistCamera(cam)) == PositionSub(AtZ(-FIST_DELTA), Where(cam))
  {
    HalfTurnThenMove(cam, -FIST_DELTA);
  }

  /** Another half turn restores the yaw of the camera the fist camera was
      made from. */
  lemma FistCameraTurnsBack(cam: Camera)
    requires Normal(cam)
    ensures Orbit(FistCamera(cam), 4).yaw == cam.yaw
  {
    OrbitAdds(cam, 4, 4);
    OrbitAdds(cam, 1, 0);
    assert Orbit(FistCamera(cam), 4).yaw == Orbit(Orbit(cam, 4), 4).yaw;
  }

  /** After a mugshot, whose camera has moved 10 units away from the
      figure to z = 45 units, the fist camera looks back along positive z
      from z = -73 units. */
  lemma FistCameraAfterMugshot()
    ensures FistCamera(Translate(Canonical, 100)).yaw == 4
    ensures Where(FistCamera(Translate(Canonical, 100))) == AtZ(-730)
  {
    OnTheAxis(RENDERING_DEPTH, 100);
    OnTheAxis(450, -FIST_DELTA);
    OnTheAxis(730, 0);
  }
}
