/** `render_skin` and `render_skin_with_crouch` (`src/rendering.rs`): the
    frame schedules of the player sprites. Each is specified by the list of
    pictures it saves, built from the pose functions of `Puppet`; the
    properties of the schedules are lemmas about those lists. */
module SkinRenders {
  import opened Common
  import opened Patches
  import opened Geometry
  import opened Textures
  import opened Puppet
  import opened Cameras
  import opened Disks
  import opened Sprites

  /** The frame letters run `'A'..='W'` for a standing player (walk,
      attack, pain, death, extreme death) and `'A'..='G'` for a crouched
      one (walk, attack, pain). */
  function FrameCount(crouched: bool): nat
  {
    if crouched then 7 else 23
  }

  /** The death sequences turn the whole body about this point, in
      tenths. */
  const DEATH_PIVOT := Vec(0, -110, 0)
  /** The saturation of the pain frame. */
  const PAIN_SATURATION: byte := 70

  /** The number of frames with eight rotations; the later ones are
      rendered from the front only. */
  const ROTATED_FRAMES := 7

  /** The death turn of frame `f`: `(90 / 7) * (f - 'H' + 1)` degrees for
      `H..=N`, `(90 / 9) * (f - 'O' + 1)` for `O..=W`, about `-z`. */
  function DeathTurn(f: char): Turn
    requires 'H' <= f <= 'W'
  {
    if f <= 'N' then Turn(NegZ, Angle(90 * (OffsetFrom(f, 'H') + 1), 7))
    else Turn(NegZ, Angle(90 * (OffsetFrom(f, 'O') + 1), 9))
  }

  /** The pose change `render_skin` makes before capturing frame `f`
      (letters outside `A..=W` reach `unreachable!()`). */
  function SkinOp(s: SkinState, f: char): (r: SkinState)
    requires WellFormed(s) && 'A' <= f <= 'W'
    ensures WellFormed(r)
  {
    if f == 'A' || f == 'C' then ResetSpec(s)
    else if f == 'B' then FlapRightSpec(s)
    else if f == 'D' then FlapLeftSpec(s)
    else if f == 'E' || f == 'F' then PunchSpec(s, f)
    else if f == 'G' then ApplyRedSpec(s, PAIN_SATURATION)
    else RotateSpec(s, DEATH_PIVOT, DeathTurn(f))
  }

  /** The pose change `render_skin_with_crouch` makes before capturing
      crouched frame `f`. */
  function CrouchOp(s: SkinState, f: char): (r: SkinState)
    requires WellFormed(s) && 'A' <= f <= 'G'
    ensures WellFormed(r)
  {
    if f == 'A' || f == 'C' then ResetCrouchedSpec(s)
    else if f == 'B' then FlapRightCrouchedSpec(s)
    else if f == 'D' then FlapLeftCrouchedSpec(s)
    else if f == 'E' || f == 'F' then PunchCrouchedSpec(s, f)
    else ApplyRedCrouchedSpec(s, PAIN_SATURATION)
  }

  function FrameOp(s: SkinState, crouched: bool, n: nat): (r: SkinState)
    requires WellFormed(s) && n < FrameCount(crouched)
    ensures WellFormed(r)
  {
    if crouched then CrouchOp(s, Letter(n)) else SkinOp(s, Letter(n))
  }

  /** The skin after the pose changes of the first `n` frames. */
  function SkinAfter(s0: SkinState, crouched: bool, n: nat): (r: SkinState)
    requires WellFormed(s0) && n <= FrameCount(crouched)
    ensures WellFormed(r)
  {
    if n == 0 then s0 else FrameOp(SkinAfter(s0, crouched, n - 1), crouched, n - 1)
  }

  /** `{sprite}{frame_index}{rotation}.png`. */
  function FrameFile(sprite: string, f: char, rotation: nat): string
  {
    sprite + [f] + NatToString(rotation) + ".png"
  }

  /** The captures of frame `n`: with rotations, eight pictures numbered
      1 to 8, the camera orbiting an eighth turn clockwise after each;
      otherwise one picture numbered 0 from the unmoved camera. */
  function FramePictures(sprite: string, f: char, rotated: bool, s: SkinState, cam: Camera): (r: seq<Picture>)
    ensures |r| == if rotated then 8 else 1
  {
    if rotated then seq(8, k requires 0 <= k < 8 => Picture(FrameFile(sprite, f, k + 1), View(Orbit(cam, -k), Body(s))))
    else [Picture(FrameFile(sprite, f, 0), View(cam, Body(s)))]
  }

  predicate Rotated(crouched: bool, n: nat)
  {
    crouched || n < ROTATED_FRAMES
  }

  /** Every picture saved by the first `n` frames, in order. */
  function SkinPictures(sprite: string, s0: SkinState, crouched: bool, cam: Camera, n: nat): (r: seq<Picture>)
    requires WellFormed(s0) && n <= FrameCount(crouched)
  {
    if n == 0 then [] else
      SkinPictures(sprite, s0, crouched, cam, n - 1)
      + FramePictures(sprite, Letter(n - 1), Rotated(crouched, n - 1), SkinAfter(s0, crouched, n), cam)
  }

  /** All pictures of one pass. */
  function AllSkinPictures(sprite: string, s0: SkinState, crouched: bool, cam: Camera): seq<Picture>
    requires WellFormed(s0)
  {
    SkinPictures(sprite, s0, crouched, cam, FrameCount(crouched))
  }

  /** The frame-`f` dispatch of `render_skin`. */
  method SkinFrame(skin: Skin, f: char)
    requires skin.Valid() && 'A' <= f <= 'W'
    modifies skin.limbs, skin.trims
    ensures skin.Valid() && skin.State() == SkinOp(old(skin.State()), f)
  {
    if f == 'A' || f == 'C' {
      skin.Reset();
    } else if f == 'B' {
      skin.FlapRightArmAndLeg();
    } else if f == 'D' {
      skin.FlapLeftArmAndLeg();
    } else if f == 'E' || f == 'F' {
      skin.Punch(f);
    } else if f == 'G' {
      skin.ApplyRed(PAIN_SATURATION);
    } else if f <= 'N' {
      skin.RotateAround(DEATH_PIVOT, NegZ, Angle(90 * (f as int - 'H' as int + 1), 7));
    } else {
      skin.RotateAround(DEATH_PIVOT, NegZ, Angle(90 * (f as int - 'O' as int + 1), 9));
    }
  }

  /** The frame-`f` dispatch of `render_skin_with_crouch`. */
  method CrouchFrame(skin: Skin, f: char)
    requires skin.Valid() && 'A' <= f <= 'G'
    modifies skin.limbs, skin.trims
    ensures skin.Valid() && skin.State() == CrouchOp(old(skin.State()), f)
  {
    if f == 'A' || f == 'C' {
      skin.ResetCrouched();
    } else if f == 'B' {
      skin.FlapRightArmAndLegCrouched();
    } else if f == 'D' {
      skin.FlapLeftArmAndLegCrouched();
    } else if f == 'E' || f == 'F' {
      skin.PunchCrouched(f);
    } else {
      skin.ApplyRedCrouched(PAIN_SATURATION);
    }
  }

  /** `render_skin_frame` / `render_crouched_skin_frame`: capture the whole
      skin from the current camera into `folder`. */
  method SaveSkinFrame(skin: Skin, sprite: string, f: char, rotation: nat, rendering: Rendering, folder: Folder)
    requires skin.Valid() && folder.Valid()
    modifies folder
    ensures folder.Valid()
    ensures folder.views == old(folder.views)[FrameFile(sprite, f, rotation) := View(rendering.camera, Body(skin.State()))]
  {
    folder.Save(sprite + [f] + NatToString(rotation) + ".png", View(rendering.camera, Body(skin.State())));
  }

  /** Saving rotation `k + 1` of a rotated frame extends the directory by
      the next picture of `FramePictures`. */
  lemma RotationStep(before: seq<Picture>, sprite: string, f: char, s: SkinState, cam: Camera, k: nat)
    requires k < 8
    ensures var shots := FramePictures(sprite, f, true, s, cam);
      PictureMap(before + shots[..k + 1])
      == PictureMap(before + shots[..k])[FrameFile(sprite, f, k + 1) := View(Orbit(cam, -(k as int)), Body(s))]
  {
    var shots := FramePictures(sprite, f, true, s, cam);
    assert before + shots[..k + 1] == (before + shots[..k]) + [shots[k]];
    PictureMapSnoc(before + shots[..k], shots[k]);
  }

  /** Capture `k + 1` of a rotated frame. */
  method SaveRotation(skin: Skin, sprite: string, f: char, rendering: Rendering, folder: Folder, ghost before: seq<Picture>,
                      ghost s: SkinState, ghost cam: Camera, k: nat)
    requires k < 8 && skin.Valid() && skin.State() == s && folder.Valid() && rendering.camera == Orbit(cam, -(k as int))
    requires folder.views == PictureMap(before + FramePictures(sprite, f, true, s, cam)[..k])
    modifies folder
    ensures folder.Valid()
    ensures folder.views == PictureMap(before + FramePictures(sprite, f, true, s, cam)[..k + 1])
  {
    SaveSkinFrame(skin, sprite, f, k + 1, rendering, folder);
    RotationStep(before, sprite, f, s, cam, k);
  }

  /** The camera turned one eighth further back. */
  method TurnBack(rendering: Rendering, ghost cam: Camera, k: nat)
    requires Normal(cam) && rendering.camera == Orbit(cam, -(k as int))
    modifies rendering
    ensures rendering.camera == Orbit(cam, -(k as int + 1))
  {
    OrbitAdds(cam, -(k as int), -1);
    rendering.OrbitCamera(-1);
  }

  /** The eight captures of a rotated frame; the camera ends where it
      started. */
  method SaveRotations(skin: Skin, sprite: string, f: char, rendering: Rendering, folder: Folder, ghost before: seq<Picture>)
    requires skin.Valid() && folder.Valid() && Normal(rendering.camera)
    requires folder.views == PictureMap(before)
    modifies folder, rendering
    ensures folder.Valid() && rendering.camera == old(rendering.camera)
    ensures folder.views == PictureMap(before + FramePictures(sprite, f, true, skin.State(), old(rendering.camera)))
  {
    ghost var cam, s := rendering.camera, skin.State();
    ghost var shots := FramePictures(sprite, f, true, s, cam);
    assert before + shots[..0] == before;
    OrbitAdds(cam, 0, 0);
    for k := 0 to 8
      invariant folder.Valid() && rendering.camera == Orbit(cam, -(k as int))
      invariant folder.views == PictureMap(before + shots[..k])
    {
      SaveRotation(skin, sprite, f, rendering, folder, before, s, cam, k);
      TurnBack(rendering, cam, k);
    }
    assert shots[..8] == shots;
    OrbitAdds(cam, -1, 0);
  }

  /** The pose change of frame number `n` of either pass. */
  method PoseFrame(skin: Skin, crouched: bool, n: nat)
    requires n < FrameCount(crouched) && skin.Valid()
    modifies skin.limbs, skin.trims
    ensures skin.Valid() && skin.State() == FrameOp(old(skin.State()), crouched, n)
  {
    var f := ('A' as int + n) as char;
    if crouched {
      CrouchFrame(skin, f);
    } else {
      SkinFrame(skin, f);
    }
  }

  /** The captures of frame number `n`: eight rotations for the rotated
      frames, one front view for the others. */
  method CaptureFrame(skin: Skin, sprite: string, crouched: bool, n: nat, rendering: Rendering, folder: Folder, ghost before: seq<Picture>)
    requires n < FrameCount(crouched) && skin.Valid() && folder.Valid() && Normal(rendering.camera)
    requires folder.views == PictureMap(before)
    modifies folder, rendering
    ensures folder.Valid() && rendering.camera == old(rendering.camera)
    ensures skin.Valid() && skin.State() == old(skin.State())
    ensures folder.views == PictureMap(before + FramePictures(sprite, Letter(n), Rotated(crouched, n), skin.State(), old(rendering.camera)))
  {
    var f := ('A' as int + n) as char;
    if crouched || n < ROTATED_FRAMES {
      SaveRotations(skin, sprite, f, rendering, folder, before);
    } else {
      SaveSkinFrame(skin, sprite, f, 0, rendering, folder);
      PictureMapSnoc(before, Picture(FrameFile(sprite, f, 0), View(rendering.camera, Body(skin.State()))));
    }
  }

  /** The frame loop after `n` frames: the skin posed for frame `n` and
      the folder holding what it held before the loop (`before`) followed
      by the first `n` frames' pictures. */
  ghost predicate FramesDone(skin: Skin, sprite: string, crouched: bool, n: nat, rendering: Rendering, folder: Folder,
                             before: seq<Picture>, s0: SkinState, cam: Camera)
    reads skin, skin.limbs, skin.trims, rendering, folder
  {
    n <= FrameCount(crouched) && WellFormed(s0) && Normal(cam)
    && skin.Valid() && folder.Valid() && rendering.camera == cam
    && skin.State() == SkinAfter(s0, crouched, n)
    && folder.views == PictureMap(before + SkinPictures(sprite, s0, crouched, cam, n))
  }

  /** One iteration of the frame loop. */
  method RenderFrame(skin: Skin, sprite: string, crouched: bool, n: nat, rendering: Rendering, folder: Folder,
                     ghost before: seq<Picture>, ghost s0: SkinState, ghost cam: Camera)
    requires n < FrameCount(crouched) && FramesDone(skin, sprite, crouched, n, rendering, folder, before, s0, cam)
    modifies skin.limbs, skin.trims, folder, rendering
    ensures FramesDone(skin, sprite, crouched, n + 1, rendering, folder, before, s0, cam)
  {
    ghost var done := SkinPictures(sprite, s0, crouched, cam, n);
    PoseFrame(skin, crouched, n);
    CaptureFrame(skin, sprite, crouched, n, rendering, folder, before + done);
    AppendAssoc(before, done, FramePictures(sprite, Letter(n), Rotated(crouched, n), SkinAfter(s0, crouched, n + 1), cam));
  }

  /** Before the first frame the folder holds what it held. */
  lemma NoFramesYet(before: seq<Picture>, sprite: string, s0: SkinState, crouched: bool, cam: Camera)
    requires WellFormed(s0)
    ensures before + SkinPictures(sprite, s0, crouched, cam, 0) == before
  {
    assert SkinPictures(sprite, s0, crouched, cam, 0) == [];
  }

  /** The frame loop shared by both passes: the pictures are saved after
      those `before` that the folder already holds. */
  method RenderFrames(skin: Skin, sprite: string, crouched: bool, rendering: Rendering, folder: Folder, ghost before: seq<Picture>)
    requires skin.Valid() && folder.Valid() && folder.views == PictureMap(before) && Normal(rendering.camera)
    modifies skin.limbs, skin.trims, folder, rendering
    ensures skin.Valid() && folder.Valid() && rendering.camera == old(rendering.camera)
    ensures folder.views == PictureMap(before + AllSkinPictures(sprite, old(skin.State()), crouched, old(rendering.camera)))
  {
    ghost var s0 := skin.State();
    ghost var cam := rendering.camera;
    NoFramesYet(before, sprite, s0, crouched, cam);
    var count := if crouched then 7 else 23;
    var n := 0;
    while n < count
      invariant count == FrameCount(crouched) && n <= count
      invariant FramesDone(skin, sprite, crouched, n, rendering, folder, before, s0, cam)
    {
      RenderFrame(skin, sprite, crouched, n, rendering, folder, before, s0, cam);
      n := n + 1;
    }
  }

  /** The frame loop into a new, empty sub-directory. */
  method RenderInto(skin: Skin, sprite: string, crouched: bool, rendering: Rendering, folder: Folder)
    requires skin.Valid() && folder.Valid() && folder.views == map[] && Normal(rendering.camera)
    modifies skin.limbs, skin.trims, folder, rendering
    ensures skin.Valid() && folder.Valid() && rendering.camera == old(rendering.camera)
    ensures folder.views == PictureMap(AllSkinPictures(sprite, old(skin.State()), crouched, old(rendering.camera)))
  {
    ghost var pictures := AllSkinPictures(sprite, skin.State(), crouched, rendering.camera);
    RenderFrames(skin, sprite, crouched, rendering, folder, []);
    assert [] + pictures == pictures;
  }

  /** `render_skin`: load the skin, create `sprites{index}` and save the
      23 frames. Saving is not modelled as failing; creating the
      sub-directory fails when it exists. */
  method RenderSkin(atlas: Atlas, disk: Disk, prefix: string, rendering: Rendering, index: nat, gamma: Gamma) returns (r: Outcome)
    requires atlas.Length0 >= 64 && atlas.Length1 >= 64 && Normal(rendering.camera)
    modifies disk, rendering
    ensures rendering.camera == old(rendering.camera)
    ensures var d := "sprites" + NatToString(index);
      if d in old(disk.dirs) then r == Failed("subdirectory " + d) && disk.dirs == old(disk.dirs)
      else (r == Done && Filled(old(disk.dirs), disk.dirs, d, AllSkinPictures(SkinSprite(prefix), LoadedState(Slim(atlas)), false, old(rendering.camera)))
        && fresh(disk.dirs[d]))
  {
    var sprite := prefix + "]";
    var skin := new Skin.Load(atlas, sprite, gamma);
    var created := disk.CreateSubdir("sprites", index);
    if created.Err? {
      return Failed(created.msg);
    }
    RenderInto(skin, sprite, false, rendering, created.value);
    r := Done;
  }

  /** The second half of `render_skin_with_crouch`: the crouched skin into
      `crouch-sprites{index}`. */
  method RenderCrouch(atlas: Atlas, disk: Disk, prefix: string, rendering: Rendering, index: nat, gamma: Gamma) returns (r: Outcome)
    requires atlas.Length0 >= 64 && atlas.Length1 >= 64 && Normal(rendering.camera)
    modifies disk, rendering
    ensures rendering.camera == old(rendering.camera)
    ensures var c := "crouch-sprites" + NatToString(index);
      if c in old(disk.dirs) then r == Failed("subdirectory " + c) && disk.dirs == old(disk.dirs)
      else (r == Done && Filled(old(disk.dirs), disk.dirs, c, AllSkinPictures(CrouchedSkinSprite(prefix), CrouchedState(Slim(atlas)), true, old(rendering.camera)))
        && fresh(disk.dirs[c]))
  {
    var sprite := prefix + "[";
    var skin := Skin.LoadCrouched(atlas, sprite, gamma);
    var created := disk.CreateSubdir("crouch-sprites", index);
    if created.Err? {
      return Failed(created.msg);
    }
    RenderInto(skin, sprite, true, rendering, created.value);
    r := Done;
  }

  /** `render_skin_with_crouch`: `render_skin`, then the crouched pass; the
      first failure ends the call. */
  method RenderSkinWithCrouch(atlas: Atlas, disk: Disk, prefix: string, rendering: Rendering, index: nat, gamma: Gamma) returns (r: Outcome)
    requires atlas.Length0 >= 64 && atlas.Length1 >= 64 && Normal(rendering.camera)
    modifies disk, rendering
    ensures rendering.camera == old(rendering.camera)
    ensures var d, c := "sprites" + NatToString(index), "crouch-sprites" + NatToString(index);
      var standing := AllSkinPictures(SkinSprite(prefix), LoadedState(Slim(atlas)), false, old(rendering.camera));
      var crouching := AllSkinPictures(CrouchedSkinSprite(prefix), CrouchedState(Slim(atlas)), true, old(rendering.camera));
      if d in old(disk.dirs) then r == Failed("subdirectory " + d) && disk.dirs == old(disk.dirs)
      else if c in old(disk.dirs) then r == Failed("subdirectory " + c) && Filled(old(disk.dirs), disk.dirs, d, standing)
      else (r == Done && Filled(old(disk.dirs), disk.dirs - {c}, d, standing)
        && Filled(disk.dirs - {c}, disk.dirs, c, crouching))
  {
    r := RenderSkin(atlas, disk, prefix, rendering, index, gamma);
    if r.Failed? {
      return;
    }
    ghost var d := "sprites" + NatToString(index);
    ghost var c := "crouch-sprites" + NatToString(index);
    ghost var dirs := disk.dirs;
    assert c[0] != d[0];
    r := RenderCrouch(atlas, disk, prefix, rendering, index, gamma);
    if r.Done? {
      assert disk.dirs - {c} == dirs;
    }
  }
}

module SkinSchedules {
  import opened Common
  import opened Patches
  import opened Geometry
  import opened Puppet
  import opened Cameras
  import opened Disks
  import opened SkinRenders

  /** Seven frames of eight rotations each, then one picture per frame. */
  lemma {:induction false} SkinPicturesCount(sprite: string, s0: SkinState, crouched: bool, cam: Camera, n: nat)
    requires WellFormed(s0) && n <= FrameCount(crouched)
    ensures |SkinPictures(sprite, s0, crouched, cam, n)| == if crouched || n <= ROTATED_FRAMES then 8 * n else 8 * ROTATED_FRAMES + (n - ROTATED_FRAMES)
  {
    if n > 0 {
      SkinPicturesCount(sprite, s0, crouched, cam, n - 1);
    }
  }

  /** The files of one frame carry its letter right after the sprite, and
      the eight rotations have different digits after it. */
  lemma FramePicturesNames(sprite: string, f: char, rotated: bool, s: SkinState, cam: Camera)
    ensures var ps := FramePictures(sprite, f, rotated, s, cam);
      (forall i :: 0 <= i < |ps| ==> |ps[i].file| > |sprite| + 1 && ps[i].file[|sprite|] == f)
      && Distinct(Names(ps))
  {
    var ps := FramePictures(sprite, f, rotated, s, cam);
    forall i | 0 <= i < |ps|
      ensures |ps[i].file| > |sprite| + 1 && ps[i].file[|sprite|] == f
      ensures rotated ==> ps[i].file[|sprite| + 1] == DigitChar(i + 1)
    {
    }
    if rotated {
      forall i, j | 0 <= i < j < |ps| ensures Names(ps)[i] != Names(ps)[j] {
        DigitsApart(i + 1, j + 1);
        assert ps[i].file[|sprite| + 1] != ps[j].file[|sprite| + 1];
      }
    }
  }

  /** No two pictures of a pass share a file name: the letter after the
      sprite tells the frames apart, the rotation digit the pictures of one
      frame. */
  lemma {:induction false} SkinPicturesDistinct(sprite: string, s0: SkinState, crouched: bool, cam: Camera, n: nat)
    requires WellFormed(s0) && n <= FrameCount(crouched)
    ensures var ps := SkinPictures(sprite, s0, crouched, cam, n);
      (forall i :: 0 <= i < |ps| ==> |ps[i].file| > |sprite| && 'A' as int <= ps[i].file[|sprite|] as int < 'A' as int + n)
      && Distinct(Names(ps))
  {
    if n > 0 {
      var before := SkinPictures(sprite, s0, crouched, cam, n - 1);
      var last := FramePictures(sprite, Letter(n - 1), Rotated(crouched, n - 1), SkinAfter(s0, crouched, n), cam);
      var ps := SkinPictures(sprite, s0, crouched, cam, n);
      SkinPicturesDistinct(sprite, s0, crouched, cam, n - 1);
      FramePicturesNames(sprite, Letter(n - 1), Rotated(crouched, n - 1), SkinAfter(s0, crouched, n), cam);
      assert ps == before + last;
      JoinFrames(before, last, |sprite|, n);
    }
  }

  /** The pictures of frames `A` up to the `n`-th letter: those of the
      earlier frames, then those of the last one. Their names are told
      apart by the letter at position `k`. */
  lemma JoinFrames(before: seq<Picture>, last: seq<Picture>, k: nat, n: nat)
    requires 0 < n < 26 && Distinct(Names(before)) && Distinct(Names(last))
    requires forall i :: 0 <= i < |before| ==> |before[i].file| > k && 'A' as int <= before[i].file[k] as int < 'A' as int + n - 1
    requires forall i :: 0 <= i < |last| ==> |last[i].file| > k && last[i].file[k] == Letter(n - 1)
    ensures var ps := before + last;
      (forall i :: 0 <= i < |ps| ==> |ps[i].file| > k && 'A' as int <= ps[i].file[k] as int < 'A' as int + n)
      && Distinct(Names(ps))
  {
    var ps := before + last;
    forall i | 0 <= i < |ps| ensures |ps[i].file| > k && 'A' as int <= ps[i].file[k] as int < 'A' as int + n {
      if i >= |before| {
        assert ps[i] == last[i - |before|];
      }
    }
    forall i, j | 0 <= i < j < |ps| ensures Names(ps)[i] != Names(ps)[j] {
      if j < |before| {
        assert Names(before)[i] != Names(before)[j];
      } else if i >= |before| {
        assert Names(last)[i - |before|] != Names(last)[j - |before|];
      } else {
        assert ps[i].file[k] != ps[j].file[k];
      }
    }
  }

  /** `render_skin` leaves 72 files in `sprites{index}` and the crouched
      pass 56 in `crouch-sprites{index}`: nothing is overwritten. */
  lemma SkinDirectorySizes(sprite: string, s0: SkinState, cam: Camera)
    requires WellFormed(s0)
    ensures |AllSkinPictures(sprite, s0, false, cam)| == |PictureMap(AllSkinPictures(sprite, s0, false, cam))| == 72
    ensures |AllSkinPictures(sprite, s0, true, cam)| == |PictureMap(AllSkinPictures(sprite, s0, true, cam))| == 56
  {
    SkinPicturesCount(sprite, s0, false, cam, 23);
    SkinPicturesCount(sprite, s0, true, cam, 7);
    SkinPicturesDistinct(sprite, s0, false, cam, 23);
    SkinPicturesDistinct(sprite, s0, true, cam, 7);
    PictureMapSize(AllSkinPictures(sprite, s0, false, cam));
    PictureMapSize(AllSkinPictures(sprite, s0, true, cam));
  }

  /** Every part has colour `c`. */
  predicate Tinted(s: SkinState, c: Rgba)
    requires WellFormed(s)
  {
    forall k :: 0 <= k < 6 ==> s.limbs[k].color == c && s.trims[k].color == c
  }

  /** A standing frame's pose change keeps the bases; only `G` changes
      colours, and it tints every part. */
  lemma SkinOpColors(p: SkinState, f: char)
    requires WellFormed(p) && 'A' <= f <= 'W'
    ensures Bases(SkinOp(p, f).limbs) == Bases(p.limbs) && Bases(SkinOp(p, f).trims) == Bases(p.trims)
    ensures f != 'G' ==> SameFrame(SkinOp(p, f), p)
    ensures f == 'G' ==> Tinted(SkinOp(p, f), Red(PAIN_SATURATION))
  {
    if f == 'G' {
      assert SkinOp(p, f) == ApplyRedSpec(p, PAIN_SATURATION);
      ApplyRedTints(p, PAIN_SATURATION);
    } else if f == 'B' {
      assert SkinOp(p, f) == FlapRightSpec(p);
      FlapsKeepFrame(p);
    } else if f == 'D' {
      assert SkinOp(p, f) == FlapLeftSpec(p);
      FlapsKeepFrame(p);
    } else if f == 'A' || f == 'C' {
      assert SkinOp(p, f) == ResetSpec(p);
      PosesKeepFrame(p, Origin, Turn(X, Deg(0)));
    } else if f <= 'F' {
      assert SkinOp(p, f) == PunchSpec(p, f);
      PosesKeepFrame(p, Origin, Turn(X, Deg(0)));
    } else {
      assert SkinOp(p, f) == RotateSpec(p, DEATH_PIVOT, DeathTurn(f));
      PosesKeepFrame(p, DEATH_PIVOT, DeathTurn(f));
    }
  }

  /** The same for a crouched frame. */
  lemma CrouchOpColors(p: SkinState, f: char)
    requires WellFormed(p) && 'A' <= f <= 'G'
    ensures Bases(CrouchOp(p, f).limbs) == Bases(p.limbs) && Bases(CrouchOp(p, f).trims) == Bases(p.trims)
    ensures f != 'G' ==> SameFrame(CrouchOp(p, f), p)
    ensures f == 'G' ==> Tinted(CrouchOp(p, f), Red(PAIN_SATURATION))
  {
    if f == 'G' {
      assert CrouchOp(p, f) == ApplyRedCrouchedSpec(p, PAIN_SATURATION);
      ApplyRedTints(p, PAIN_SATURATION);
    } else if f == 'B' {
      assert CrouchOp(p, f) == FlapRightCrouchedSpec(p);
      FlapsKeepFrame(p);
    } else if f == 'D' {
      assert CrouchOp(p, f) == FlapLeftCrouchedSpec(p);
      FlapsKeepFrame(p);
    } else if f == 'A' || f == 'C' {
      assert CrouchOp(p, f) == ResetCrouchedSpec(p);
      PosesKeepFrame(p, Origin, Turn(X, Deg(0)));
    } else {
      assert CrouchOp(p, f) == PunchCrouchedSpec(p, f);
      PosesKeepFrame(p, Origin, Turn(X, Deg(0)));
    }
  }

  /** Keeping the colours keeps a tint. */
  lemma KeptTint(s: SkinState, t: SkinState, c: Rgba)
    requires WellFormed(s) && WellFormed(t) && SameFrame(t, s) && Tinted(s, c)
    ensures Tinted(t, c)
  {
    forall k | 0 <= k < 6 ensures t.limbs[k].color == c && t.trims[k].color == c {
      assert Colors(t.limbs)[k] == Colors(s.limbs)[k];
      assert Colors(t.trims)[k] == Colors(s.trims)[k];
    }
  }

  /** Every pose change keeps where the parts sit; the walk and attack
      frames keep their colours, and from the pain frame `G` on every part
      is tinted with saturation 70, so the death frames `H..=W` show the
      pain tint as well. */
  lemma {:induction false} SkinAfterColors(s0: SkinState, crouched: bool, n: nat)
    requires WellFormed(s0) && n <= FrameCount(crouched)
    ensures var s := SkinAfter(s0, crouched, n);
      Bases(s.limbs) == Bases(s0.limbs) && Bases(s.trims) == Bases(s0.trims)
      && (n < 7 ==> SameFrame(s, s0))
      && (n >= 7 ==> Tinted(s, Red(PAIN_SATURATION)))
  {
    if n > 0 {
      var p := SkinAfter(s0, crouched, n - 1);
      var s := SkinAfter(s0, crouched, n);
      SkinAfterColors(s0, crouched, n - 1);
      if crouched {
        CrouchOpColors(p, Letter(n - 1));
      } else {
        SkinOpColors(p, Letter(n - 1));
      }
      if n > 7 {
        KeptTint(p, s, Red(PAIN_SATURATION));
      }
    }
  }

  /** The death frames turn the body ever further about `-z`: the angle
      grows from frame to frame within `H..=N` and within `O..=W`, and both
      sequences end lying flat, at 90 degrees. */
  lemma DeathSequenceFalls(f: char, g: char)
    requires 'H' <= f < g <= 'W' && (g <= 'N' || 'O' <= f)
    ensures var a, b := DeathTurn(f).angle, DeathTurn(g).angle;
      a.num * b.den < b.num * a.den
    ensures SameAngle(DeathTurn('N').angle, Deg(90)) && SameAngle(DeathTurn('W').angle, Deg(90))
  {
  }

  /** The eight captures of a rotated frame see the figure from eight
      different directions, one per eighth turn. */
  lemma RotationsSeeAround(sprite: string, f: char, s: SkinState, cam: Camera)
    requires Normal(cam)
    ensures var ps := FramePictures(sprite, f, true, s, cam);
      forall i, j :: 0 <= i < j < 8 ==> ps[i].view.camera.yaw != ps[j].view.camera.yaw
  {
    var ps := FramePictures(sprite, f, true, s, cam);
    forall i, j | 0 <= i < j < 8 ensures ps[i].view.camera.yaw != ps[j].view.camera.yaw {
      assert ps[i].view.camera == Orbit(cam, -i) && ps[j].view.camera == Orbit(cam, -j);
    }
  }
}
