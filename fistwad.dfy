/** `src/fists.rs`: the first generation of the fist weapon. The arm and
    sleeve of `src/minecraft.rs` (no gamma) are swung through the same nine
    poses as `Fists`; the pictures go to the shared `fists` sub-directory
    under the sprite with its fourth character turned into `]`, and the
    fist WAD is closed by `finalize` with the weapon actors and the
    `PickFist` script. */
module FistWads {
  import opened Common
  import opened Geometry
  import opened Patches
  import opened Textures
  import opened Puppet
  import opened Cameras
  import opened Disks
  import opened Listings
  import opened Sprites
  import opened Producing
  import opened Fists
  import opened DoomWads

  /** One row of the item list: `SkinItem`. */
  datatype SkinItem = SkinItem(name: string, path: string, sprite: string, mugshot: string)

  /** How far the camera moves back, in tenths (`delta = 22.5`). */
  const FISTS_DELTA := 225

  /** `{sprite}{frame_index}0.png`, the sprite as it is. */
  function FistsFile(sprite: string, f: char): string
  {
    sprite + [f] + "0.png"
  }

  /** The camera of the fist frames: half a revolution, then back along z. */
  function FistsCamera(cam: Camera): Camera
  {
    Translate(Orbit(cam, 4), -FISTS_DELTA)
  }

  /** The nine captures, from `cam`. */
  function FistsPictures(sprite: string, cam: Camera): (r: seq<Picture>)
    ensures |r| == FIST_FRAMES
  {
    seq(FIST_FRAMES, n requires 0 <= n < FIST_FRAMES =>
      Picture(FistsFile(sprite, Letter(n)), View(cam, Swung(LOADED_ARM, FistPose(Letter(n))))))
  }

  /** One iteration of the `'A'..='I'` loop: arm and sleeve get the same
      rotation, then `render_fist` saves the capture. */
  method RenderFistsFrame(arm: Limb, sleeve: Trim, sprite: string, n: nat, rendering: Rendering, folder: Folder,
                          ghost before: seq<Picture>)
    requires n < FIST_FRAMES && arm.Valid() && sleeve.Valid() && folder.Valid()
    requires AtShoulder(PairOf(arm, sleeve))
    requires folder.views == PictureMap(before + FistsPictures(sprite, rendering.camera)[..n])
    modifies arm, sleeve, folder
    ensures arm.Valid() && sleeve.Valid() && folder.Valid()
    ensures AtShoulder(PairOf(arm, sleeve))
    ensures folder.views == PictureMap(before + FistsPictures(sprite, rendering.camera)[..n + 1])
  {
    var f := Letter(n);
    var rotation := [Turn(X, Deg(FistAngle(f))), Turn(Y, Deg(-115))];
    arm.RotateAround(Origin, rotation);
    sleeve.RotateAround(Origin, rotation);
    assert PairOf(arm, sleeve) == Swung(LOADED_ARM, FistPose(f));
    ghost var ps := FistsPictures(sprite, rendering.camera);
    assert ps[n] == Picture(FistsFile(sprite, f), View(rendering.camera, PairOf(arm, sleeve)));
    folder.Save(sprite + [f] + "0.png", View(rendering.camera, PairOf(arm, sleeve)));
    PictureMapStep(before, ps, n);
  }

  /** The frame loop of `render_fists`. */
  method RenderFistsFrames(arm: Limb, sleeve: Trim, sprite: string, rendering: Rendering, folder: Folder,
                           ghost before: seq<Picture>)
    requires arm.Valid() && sleeve.Valid() && folder.Valid() && folder.views == PictureMap(before)
    requires PairOf(arm, sleeve) == LOADED_ARM
    modifies arm, sleeve, folder
    ensures folder.Valid() && folder.views == PictureMap(before + FistsPictures(sprite, rendering.camera))
  {
    ghost var ps := FistsPictures(sprite, rendering.camera);
    assert before + ps[..0] == before;
    for n := 0 to FIST_FRAMES
      invariant arm.Valid() && sleeve.Valid() && folder.Valid()
      invariant AtShoulder(PairOf(arm, sleeve))
      invariant folder.views == PictureMap(before + ps[..n])
    {
      RenderFistsFrame(arm, sleeve, sprite, n, rendering, folder, before);
    }
    assert ps[..FIST_FRAMES] == ps;
  }

  /** Arm and sleeve of `render_fists`, cut from the image at `path` as it
      is, 3.5 units right of the origin. */
  method LoadArm(atlas: Atlas) returns (arm: Limb, sleeve: Trim)
    requires atlas.Length0 >= 64 && atlas.Length1 >= 64
    ensures fresh(arm) && fresh(sleeve) && arm.Valid() && sleeve.Valid()
    ensures PairOf(arm, sleeve) == LOADED_ARM
    ensures arm.LoadedFrom(atlas, "arm", RIGHT_ARM, Textures.Identity)
    ensures sleeve.LoadedFrom(atlas, "arm", RIGHT_SLEEVE, Textures.Identity)
  {
    assert forall p :: p in RenderingPatches() ==> NetInAtlas(p, 64, 64);
    FitsLarger(atlas, RIGHT_ARM);
    FitsLarger(atlas, RIGHT_SLEEVE);
    arm := new Limb.Load(atlas, "arm", RIGHT_ARM, FIST_POSITION, Textures.Identity);
    sleeve := new Trim.Load(atlas, "arm", RIGHT_SLEEVE, FIST_POSITION, Textures.Identity);
  }

  /** The camera moves of `render_fists` undo each other: moving forward
      and turning round again brings the fist camera back to where it
      started. */
  lemma FistsCameraReturns(cam: Camera)
    requires Normal(cam)
    ensures Orbit(Translate(FistsCamera(cam), FISTS_DELTA), 4) == cam
  {
    var turned := Orbit(cam, 4);
    TranslateAdds(turned, -FISTS_DELTA, FISTS_DELTA);
    assert Translate(FistsCamera(cam), FISTS_DELTA) == turned;
    OrbitAdds(cam, 4, 4);
    OrbitAdds(cam, 1, 0);
  }

  /** The frames from the fist camera, then the camera moved forward and
      turned round again. */
  method FramesAndBack(arm: Limb, sleeve: Trim, sprite: string, rendering: Rendering, folder: Folder,
                       ghost before: seq<Picture>)
    requires arm.Valid() && sleeve.Valid() && folder.Valid() && folder.views == PictureMap(before)
    requires PairOf(arm, sleeve) == LOADED_ARM
    modifies arm, sleeve, folder, rendering
    ensures folder.Valid() && folder.views == PictureMap(before + FistsPictures(sprite, old(rendering.camera)))
    ensures rendering.camera == Orbit(Translate(old(rendering.camera), FISTS_DELTA), 4)
  {
    RenderFistsFrames(arm, sleeve, sprite, rendering, folder, before);
    rendering.TranslateCamera(FISTS_DELTA);
    rendering.OrbitCamera(4);
  }

  /** `render_fists`: load arm and sleeve (an image that cannot be opened
      ends the call before anything moves), turn the camera round and move
      it back, capture the nine frames into `temp/fists`, then move the
      camera forward and turn it round again. Saving into a missing
      `fists` directory fails at the first frame, with the camera left
      turned. */
  method RenderFists(images: map<string, Atlas>, path: string, sprite: string, rendering: Rendering, disk: Disk,
                     ghost before: seq<Picture>) returns (r: Outcome)
    requires Sized(images) && Normal(rendering.camera)
    requires "fists" in disk.dirs ==> disk.dirs["fists"].Valid() && disk.dirs["fists"].views == PictureMap(before)
    modifies rendering, if "fists" in disk.dirs then {disk.dirs["fists"]} else {}
    ensures r == Done <==> path in images && "fists" in disk.dirs
    ensures path !in images ==> rendering.camera == old(rendering.camera)
    ensures path in images && "fists" !in disk.dirs ==> rendering.camera == FistsCamera(old(rendering.camera))
    ensures r == Done ==>
      rendering.camera == old(rendering.camera) && disk.dirs["fists"].Valid()
      && disk.dirs["fists"].views == PictureMap(before + FistsPictures(sprite, FistsCamera(old(rendering.camera))))
  {
    if path !in images {
      return Failed("cannot open " + path);
    }
    var arm, sleeve := LoadArm(images[path]);
    rendering.OrbitCamera(4);
    rendering.TranslateCamera(-FISTS_DELTA);
    if "fists" !in disk.dirs {
      return Failed("cannot save into fists");
    }
    FramesAndBack(arm, sleeve, sprite, rendering, disk.dirs["fists"], before);
    FistsCameraReturns(old(rendering.camera));
    r := Done;
  }

  /** `consume_fists`: `grab_into_wad` of `fists` with the fist anchor. */
  method ConsumeFists(wad: DoomWads.Wad, disk: Disk, ghost tree: Tree) returns (r: Outcome)
    requires tree == Files(disk)
    modifies wad
    ensures if "fists" in tree then r == Done && wad.lumps == old(wad.lumps) + Stems("fists", tree["fists"], FIST_ANCHOR)
      else r.Failed? && wad.lumps == old(wad.lumps)
  {
    r := wad.GrabIntoWad(disk, tree, "fists", FIST_ANCHOR);
  }

  /** `fists::convert`: the fist sprite, its nine frames, and every
      picture of `temp/fists` pushed into the fist WAD. */
  method Convert(path: string, sprite: string, wad: DoomWads.Wad, rendering: Rendering, images: map<string, Atlas>, disk: Disk,
                 ghost before: seq<Picture>) returns (r: Outcome)
    requires Replaceable(sprite, 3) && Sized(images) && Normal(rendering.camera)
    requires "fists" in disk.dirs ==> disk.dirs["fists"].Valid() && disk.dirs["fists"].views == PictureMap(before)
    modifies wad, rendering, if "fists" in disk.dirs then {disk.dirs["fists"]} else {}
    ensures r == Done <==> path in images && "fists" in disk.dirs
    ensures r.Failed? ==> wad.lumps == old(wad.lumps)
    ensures r == Done ==>
      rendering.camera == old(rendering.camera) && disk.dirs["fists"].Valid()
      && disk.dirs["fists"].views == PictureMap(before + FistsPictures(FistSpriteOf(sprite), FistsCamera(old(rendering.camera))))
      && wad.lumps == old(wad.lumps) + Stems("fists", SortSet(disk.dirs["fists"].files), FIST_ANCHOR)
  {
    var fist := ReplaceAt(sprite, 3, ']');
    r := RenderFists(images, path, fist, rendering, disk, before);
    if r.Failed? {
      return;
    }
    r := ConsumeFists(wad, disk, Files(disk));
  }

  /** The nine files sort in frame order: they share the sprite and
      differ first in the frame letter. */
  lemma FistsFilesSorted(sprite: string, cam: Camera)
    ensures StrictlySorted(Names(FistsPictures(sprite, cam)))
  {
    var names := Names(FistsPictures(sprite, cam));
    forall n | 0 <= n < FIST_FRAMES
      ensures names[n] == sprite + ([Letter(n)] + "0.png")
    {
      assert names[n] == FistsFile(sprite, Letter(n));
    }
    forall i, j | 0 <= i < j < |names| ensures Below(names[i], names[j]) {
      var a := [Letter(i)] + "0.png";
      var b := [Letter(j)] + "0.png";
      assert a[0] < b[0];
      BelowCommonPrefix(sprite, a, b);
    }
    PairwiseSorted(names);
  }

  /** The stem of frame `f`'s file: the sprite, the letter and `0`. */
  lemma FistsStem(sprite: string, f: char)
    ensures Stem(FistsFile(sprite, f)) == sprite + [f] + "0"
  {
    assert FistsFile(sprite, f) == (sprite + [f] + "0") + ".png";
    StemPng(sprite + [f] + "0");
  }

  /** Each of the nine files shows arm and sleeve turned together into
      that frame's pose. */
  lemma FistsViews(sprite: string, cam: Camera)
    ensures var m := PictureMap(FistsPictures(sprite, cam));
      |m| == FIST_FRAMES
      && forall n :: 0 <= n < FIST_FRAMES ==>
        FistsFile(sprite, Letter(n)) in m && m[FistsFile(sprite, Letter(n))] == View(cam, Swung(LOADED_ARM, FistPose(Letter(n))))
  {
    var ps := FistsPictures(sprite, cam);
    forall i, j | 0 <= i < j < FIST_FRAMES ensures Names(ps)[i] != Names(ps)[j] {
      assert Names(ps)[i] == sprite + ([Letter(i)] + "0.png");
      assert Names(ps)[j] == sprite + ([Letter(j)] + "0.png");
      assert Names(ps)[i][|sprite|] != Names(ps)[j][|sprite|];
    }
    PictureMapSize(ps);
    forall n | 0 <= n < FIST_FRAMES
      ensures FistsFile(sprite, Letter(n)) in PictureMap(ps)
      ensures PictureMap(ps)[FistsFile(sprite, Letter(n))] == View(cam, Swung(LOADED_ARM, FistPose(Letter(n))))
    {
      forall j | n < j < |ps| ensures ps[j].file != ps[n].file {
        assert Names(ps)[n] != Names(ps)[j];
      }
      PictureMapLast(ps, n);
    }
  }

  /** A `fists` directory that held nothing before gives nine lumps, frame
      `A` first, each named by the sprite, the letter and `0`. */
  lemma FistsLumps(sprite: string, cam: Camera)
    ensures var lumps := Stems("fists", SortSet(PictureMap([] + FistsPictures(sprite, cam)).Keys), FIST_ANCHOR);
      |lumps| == FIST_FRAMES
      && forall n :: 0 <= n < FIST_FRAMES ==>
        lumps[n] == Lump(sprite + [Letter(n)] + "0", Png("fists", FistsFile(sprite, Letter(n)), FIST_ANCHOR))
  {
    var listing := FistsListing(sprite, cam);
    forall n | 0 <= n < FIST_FRAMES
      ensures Stems("fists", listing, FIST_ANCHOR)[n]
        == Lump(sprite + [Letter(n)] + "0", Png("fists", FistsFile(sprite, Letter(n)), FIST_ANCHOR))
    {
      FistsStem(sprite, Letter(n));
    }
  }

  /** The sorted listing of the `fists` directory: the nine file names in
      frame order. */
  lemma FistsListing(sprite: string, cam: Camera) returns (listing: seq<string>)
    ensures listing == SortSet(PictureMap([] + FistsPictures(sprite, cam)).Keys)
    ensures |listing| == FIST_FRAMES && forall n :: 0 <= n < FIST_FRAMES ==> listing[n] == FistsFile(sprite, Letter(n))
  {
    var ps := FistsPictures(sprite, cam);
    assert [] + ps == ps;
    listing := SortSet(PictureMap(ps).Keys);
    FistsFilesSorted(sprite, cam);
    PictureMapKeys(ps);
    SortSetSorted(PictureMap(ps).Keys);
    SortedUnique(listing, Names(ps));
  }

  /** Quoting then turning character 4 into `]` is turning character 3
      into `]` then quoting: `finalize` names the same fist sprite as
      `convert` and `generate_players_wad`. */
  lemma QuotedFist(sprite: string)
    requires Replaceable(sprite, 3)
    ensures Replaceable(Quoted(sprite), 4)
    ensures ReplaceAt(Quoted(sprite), 4, ']') == Quoted(FistSpriteOf(sprite))
  {
    var q := Quoted(sprite);
    assert forall i :: 1 <= i <= 4 ==> q[i] == sprite[i - 1];
    assert forall i :: 0 <= i <= 4 ==> IsAscii(q[i]);
    var a := ReplaceAt(q, 4, ']');
    var b := Quoted(FistSpriteOf(sprite));
    assert |a| == |b|;
    forall i | 0 <= i < |a| ensures a[i] == b[i] {
      if 1 <= i < |a| - 1 {
        assert b[i] == FistSpriteOf(sprite)[i - 1];
      }
    }
  }

  /** The fist actors of `finalize`: item `i` gives `Fist_{i + 1}` with
      its quoted fist sprite. */
  function FistActors(items: seq<SkinItem>, t: Texts): (code: string)
    requires forall i :: 0 <= i < |items| ==> Replaceable(items[i].sprite, 3)
  {
    if items == [] then ""
    else FistActors(items[..|items| - 1], t) + t.fist(Quoted(FistSpriteOf(items[|items| - 1].sprite)), |items|)
  }

  /** The `code` loop of `finalize`. */
  method BuildFistActors(items: seq<SkinItem>, t: Texts) returns (code: string)
    requires forall i :: 0 <= i < |items| ==> Replaceable(items[i].sprite, 3)
    ensures code == FistActors(items, t)
  {
    code := "";
    for i := 0 to |items|
      invariant code == FistActors(items[..i], t)
    {
      var sprite := "\"" + items[i].sprite + "\"";
      QuotedFist(items[i].sprite);
      sprite := ReplaceAt(sprite, 4, ']');
      code := code + t.fist(sprite, i + 1);
      assert items[..i + 1][..i] == items[..i];
    }
    assert items[..|items|] == items;
  }

  /** The removal line of skin `i`. */
  function RemovalLine(i: nat): string
  {
    "\telse if (lastSkin == " + NatToString(i) + ") takeInventory(\"Fist_" + NatToString(i) + "\", 1);\n"
  }

  /** The retrieval line of skin `i`. */
  function RetrievalLine(i: nat): string
  {
    "\telse if (skin == " + NatToString(i) + ") giveInventory(\"Fist_" + NatToString(i) + "\", 1);\n"
  }

  /** `(1..=n).map(line).collect::<String>()`. */
  function Lines(n: nat, line: nat -> string): string
  {
    if n == 0 then "" else Lines(n - 1, line) + line(n)
  }

  /** The removal block: the plain fist for skin 0, then one line per
      skin `1..=n`. */
  function Removal(n: nat): string
  {
    "    if (lastSkin == 0) takeInventory(\"Fist\", 1);\n" + Lines(n, RemovalLine) + "\n"
  }

  /** The retrieval block, likewise. */
  function Retrieval(n: nat): string
  {
    "   if (skin == 0) giveInventory(\"Fist\", 1);\n" + Lines(n, RetrievalLine) + "\n"
  }

  /** Lines of different skins differ: the line's length fixes the width
      of the number, and the number sits at a fixed place. */
  lemma LinesApart(i: nat, j: nat)
    ensures RemovalLine(i) == RemovalLine(j) <==> i == j
    ensures RetrievalLine(i) == RetrievalLine(j) <==> i == j
  {
    var di, dj := NatToString(i), NatToString(j);
    var a, b, c := "\telse if (lastSkin == ", ") takeInventory(\"Fist_", "\", 1);\n";
    var a', b' := "\telse if (skin == ", ") giveInventory(\"Fist_";
    if RemovalLine(i) == RemovalLine(j) {
      NumberAt(a, di, b, c);
      NumberAt(a, dj, b, c);
      NatToStringInjective(i, j);
    }
    if RetrievalLine(i) == RetrievalLine(j) {
      NumberAt(a', di, b', c);
      NumberAt(a', dj, b', c);
      NatToStringInjective(i, j);
    }
  }

  /** A line `a + d + b + d + c` has its length grow with twice the width
      of `d`, and carries `d` right after `a`. */
  lemma NumberAt(a: string, d: string, b: string, c: string)
    ensures |a + d + b + d + c| == |a| + |b| + |c| + 2 * |d|
    ensures (a + d + b + d + c)[|a|..|a| + |d|] == d
  {
    assert a + d + b + d + c == a + d + (b + d + c);
  }

  /** The lines of `1..=m` open the lines of `1..=n`. */
  lemma {:induction false} LinesPrefix(m: nat, n: nat, line: nat -> string)
    requires m <= n
    ensures Lines(m, line) <= Lines(n, line)
    decreases n
  {
    if m < n {
      LinesPrefix(m, n - 1, line);
    }
  }

  /** The lumps `finalize` appends. */
  function Finished(items: seq<SkinItem>, t: Texts): seq<Lump>
    requires forall i :: 0 <= i < |items| ==> Replaceable(items[i].sprite, 3)
  {
    [Lump("S_END", EMPTY), Lump("DECORATE", Text(FistActors(items, t))), Lump("LANGUAGE", Text(LANGUAGE)),
     Lump("LOADACS", Text("pickfist")), Lump("A_START", EMPTY),
     Lump("PICKFIST", Raw(t.compile(t.acs(Removal(|items|), Retrieval(|items|))))), Lump("A_END", EMPTY)]
  }

  /** `finalize`: close the sprites, the actors, the language and loader
      lumps, and the compiled script between the ACS markers. The script
      source is written out, compiled and deleted; the model keeps what
      `acc` makes of it. */
  method Finalize(wad: DoomWads.Wad, items: seq<SkinItem>, t: Texts)
    requires forall i :: 0 <= i < |items| ==> Replaceable(items[i].sprite, 3)
    modifies wad
    ensures wad.lumps == old(wad.lumps) + Finished(items, t)
  {
    var code := BuildFistActors(items, t);
    var acs := t.acs(Removal(|items|), Retrieval(|items|));
    ghost var f := Finished(items, t);
    assert f[1] == Lump("DECORATE", Text(code)) && f[5] == Lump("PICKFIST", Raw(t.compile(acs)));
    wad.PushLump(EMPTY, "S_END");
    wad.PushLump(Text(code), "DECORATE");
    wad.PushLump(Text(LANGUAGE), "LANGUAGE");
    wad.PushLump(Text("pickfist"), "LOADACS");
    wad.PushLump(EMPTY, "A_START");
    wad.PushLump(Raw(t.compile(acs)), "PICKFIST");
    wad.PushLump(EMPTY, "A_END");
    SevenPushes(old(wad.lumps), f);
  }

  /** Seven single pushes append the seven lumps in order. */
  lemma SevenPushes(l: seq<Lump>, f: seq<Lump>)
    requires |f| == 7
    ensures l + [f[0]] + [f[1]] + [f[2]] + [f[3]] + [f[4]] + [f[5]] + [f[6]] == l + f
  {
    assert f == [f[0]] + [f[1]] + [f[2]] + [f[3]] + [f[4]] + [f[5]] + [f[6]];
  }

  /** Item `k` gives actor `Fist_{k + 1}` after the actors of the items
      before it, and the two script blocks carry line `k + 1` right after
      the lines of the skins before it. */
  lemma FinishedLayout(items: seq<SkinItem>, t: Texts, k: nat)
    requires forall i :: 0 <= i < |items| ==> Replaceable(items[i].sprite, 3)
    requires k < |items|
    ensures FistActors(items[..k], t) + t.fist(Quoted(FistSpriteOf(items[k].sprite)), k + 1) <= FistActors(items, t)
    ensures Lines(k, RemovalLine) + RemovalLine(k + 1) <= Lines(|items|, RemovalLine)
    ensures Lines(k, RetrievalLine) + RetrievalLine(k + 1) <= Lines(|items|, RetrievalLine)
  {
    assert items[..k + 1][..k] == items[..k];
    ActorsPrefix(items, t, k + 1);
    LinesPrefix(k + 1, |items|, RemovalLine);
    LinesPrefix(k + 1, |items|, RetrievalLine);
  }

  /** The actors of the first `m` items open the actors of all of them. */
  lemma {:induction false} ActorsPrefix(items: seq<SkinItem>, t: Texts, m: nat)
    requires forall i :: 0 <= i < |items| ==> Replaceable(items[i].sprite, 3)
    requires m <= |items|
    ensures FistActors(items[..m], t) <= FistActors(items, t)
    decreases |items|
  {
    if m < |items| {
      var init := items[..|items| - 1];
      assert init[..m] == items[..m];
      ActorsPrefix(init, t, m);
      assert FistActors(items, t) == FistActors(init, t) + t.fist(Quoted(FistSpriteOf(items[|items| - 1].sprite)), |items|);
    } else {
      assert items[..m] == items;
    }
  }
}
