/** What the WADs of `src/producing.rs` contain, stated against the lump
    sequences the producers are proved to save. */
module WadContents {
  import opened Common
  import opened Listings
  import opened Sprites
  import opened Producing

  /** `grab_from` pushes one lump per sorted file, in order: the `i`-th
      holds the `i`-th file under its stem, `^` turned back into `\`. */
  lemma {:induction false} GrabbedAt(dir: string, files: seq<string>, anchor: Anchor)
    ensures forall i :: 0 <= i < |files| ==>
      Grabbed(dir, files, anchor)[i] == Lump(LumpName(Stem(files[i])), Png(dir, files[i], anchor))
  {
    if files != [] {
      var init := files[..|files| - 1];
      GrabbedAt(dir, init, anchor);
      forall i | 0 <= i < |files|
        ensures Grabbed(dir, files, anchor)[i] == Lump(LumpName(Stem(files[i])), Png(dir, files[i], anchor))
      {
        if i < |init| {
          assert files[i] == init[i];
        }
      }
    }
  }

  /** A skin's block opens with its S_SKIN lump. */
  lemma SSkinLumpsHead(tree: Tree, name: string, prefix: string, index: nat)
    requires SkinDirs(tree, index)
    ensures Lump("S_SKIN", Text(SSkinText(name, prefix))) in SSkinLumps(tree, name, prefix, index)
  {
    var s := [Lump("S_SKIN", Text(SSkinText(name, prefix)))];
    var g1 := Group(tree, "sprites", index, SPRITE_ANCHOR);
    var g2 := Group(tree, "crouch-sprites", index, SPRITE_ANCHOR);
    var g3 := Group(tree, "mugshot", index, MUGSHOT_ANCHOR);
    assert (s + g1 + g2 + g3)[0] == s[0];
  }

  /** Every skin's S_SKIN lump is in the WAD, with the name and sprite
      prefix in the order the pair gives them. */
  lemma {:induction false} SSkinLumpIn(tree: Tree, pairs: seq<(string, string)>, n: nat, i: nat)
    requires i < n <= |pairs| && SkinDirsUpTo(tree, n)
    ensures Lump("S_SKIN", Text(SSkinText(pairs[i].0, pairs[i].1))) in SSkinBlocks(tree, pairs, n)
    decreases n
  {
    var before := SSkinBlocks(tree, pairs, n - 1);
    var block := SSkinLumps(tree, pairs[n - 1].0, pairs[n - 1].1, n - 1);
    if i == n - 1 {
      SSkinLumpsHead(tree, pairs[i].0, pairs[i].1, i);
    } else {
      SSkinLumpIn(tree, pairs, n - 1, i);
    }
    InEither(Lump("S_SKIN", Text(SSkinText(pairs[i].0, pairs[i].1))), before, block);
  }

  lemma InEither<T>(x: T, a: seq<T>, b: seq<T>)
    requires x in a || x in b
    ensures x in a + b
  {
  }

  /** `produce_s_skin_wad` hands each pair over swapped: its S_SKIN lumps
      give the sprite prefix as the skin's name, and name the sprites
      after the skin's name, whereas the WAD that also carries fists
      keeps them in order. */
  lemma SSkinWadSwapped(tree: Tree, pairs: seq<(string, string)>, i: nat)
    requires i < |pairs| && SkinDirsUpTo(tree, |pairs|)
    ensures Lump("S_SKIN", Text(SSkinText(pairs[i].1, pairs[i].0))) in SSkinBlocks(tree, Swapped(pairs), |pairs|)
    ensures Lump("S_SKIN", Text(SSkinText(pairs[i].0, pairs[i].1))) in SSkinBlocks(tree, pairs, |pairs|)
  {
    SSkinLumpIn(tree, Swapped(pairs), |pairs|, i);
    SSkinLumpIn(tree, pairs, |pairs|, i);
  }

  /** The player classes of the first `n` skins separated by `, `. */
  function JoinedClasses(n: nat): string
    requires n >= 1
  {
    if n == 1 then PlayerClass(0) else JoinedClasses(n - 1) + ", " + PlayerClass(n - 1)
  }

  lemma {:induction false} ClassListJoined(n: nat)
    requires n >= 1
    ensures ClassList(n) == JoinedClasses(n) + ", "
  {
    if n == 1 {
      assert ClassList(1) == "" + ClassEntry(0);
    } else {
      ClassListJoined(n - 1);
      AppendAssoc(JoinedClasses(n - 1) + ", ", PlayerClass(n - 1), ", ");
    }
  }

  /** MAPINFO lists the classes separated by `, ` with no separator
      after the last: the two popped characters are exactly the trailing
      `, `. With no skins, the pops eat
      `= ` instead. */
  lemma MapInfoJoined(n: nat)
    ensures n >= 1 ==> MapInfo(n) == MAPINFO_HEAD + JoinedClasses(n) + "\n}"
    ensures n == 0 ==> MapInfo(n) == "GameInfo {\n    PlayerClasses \n}"
  {
    if n >= 1 {
      ClassListJoined(n);
      var x := MAPINFO_HEAD + JoinedClasses(n);
      assert MAPINFO_HEAD + ClassList(n) == x + ", ";
      assert Pop(x + ", ") == x + ",";
      assert Pop(x + ",") == x;
    } else {
      assert MAPINFO_HEAD + ClassList(0) == MAPINFO_HEAD;
    }
  }

  /** With one `.` in the output path, the fist WAD is saved beside it
      under the stem followed by `-fist`; every further `.` would be
      replaced as well. */
  lemma FistWadPathOneDot(base: string, ext: string)
    requires '.' !in base && '.' !in ext
    ensures FistWadPath(base + "." + ext) == base + "-fist." + ext
  {
    ReplaceAppend(base + ".", ext, '.', "-fist.");
    ReplaceAppend(base, ".", '.', "-fist.");
    ReplaceFree(base, '.', "-fist.");
    ReplaceFree(ext, '.', "-fist.");
  }
}

/** The fist pictures as the fist WAD receives them: `render_fist`'s nine
    files, listed and sorted, become nine lumps named after the fist
    sprite and the frame letter, in frame order. */
module FistLumps {
  import opened Common
  import opened Patches
  import opened Cameras
  import opened Disks
  import opened Listings
  import opened Sprites
  import opened Fists
  import opened FistSchedules
  import opened Producing
  import opened WadContents

  /** The frames' files sort in frame order. */
  lemma FistFilesSorted(prefix: string, cam: Camera)
    requires '^' !in prefix
    ensures StrictlySorted(Names(FistPictures(FistSprite(prefix), cam)))
  {
    var ps := FistPictures(FistSprite(prefix), cam);
    var names := Names(ps);
    var escaped := Replace(prefix, '\\', "^");
    forall n | 0 <= n < FIST_FRAMES
      ensures names[n] == (escaped + "^") + ([Letter(n)] + "0.png")
    {
      FistFileEscaped(prefix, Letter(n));
      assert names[n] == FistFile(FistSprite(prefix), Letter(n));
    }
    forall i, j | 0 <= i < j < |names| ensures Below(names[i], names[j]) {
      var a := [Letter(i)] + "0.png";
      var b := [Letter(j)] + "0.png";
      assert a[0] < b[0];
      BelowCommonPrefix(escaped + "^", a, b);
    }
    PairwiseSorted(names);
  }

  /** The lump name of frame `f`: the stem, `^` turned back into `\`. */
  lemma FistLumpName(prefix: string, f: char)
    requires '^' !in prefix && 'A' <= f <= 'I'
    ensures LumpName(Stem(FistFile(FistSprite(prefix), f))) == FistSprite(prefix) + [f] + "0"
  {
    FistFileEscaped(prefix, f);
    FistSpriteEscape(prefix);
    var head := Replace(prefix, '\\', "^") + "^";
    var stem := head + [f] + "0";
    assert "0" + ".png" == "0.png";
    AppendAssoc(head + [f], "0", ".png");
    StemPng(stem);
    ReplaceAppend(head + [f], "0", '^', "\\");
    ReplaceAppend(head, [f], '^', "\\");
    ReplaceFree([f], '^', "\\");
    ReplaceFree("0", '^', "\\");
  }

  /** Grabbing a fist directory that holds exactly `render_fist`'s frames
      pushes nine lumps, frame `A` first, each named after the fist sprite,
      the frame letter and `0`. */
  lemma FistGroupLumps(prefix: string, cam: Camera, d: string, listing: seq<string>)
    requires '^' !in prefix
    requires listing == SortSet(PictureMap(FistPictures(FistSprite(prefix), cam)).Keys)
    ensures |Grabbed(d, listing, FIST_ANCHOR)| == FIST_FRAMES
    ensures forall n :: 0 <= n < FIST_FRAMES ==>
      Grabbed(d, listing, FIST_ANCHOR)[n]
        == Lump(FistSprite(prefix) + [Letter(n)] + "0", Png(d, FistFile(FistSprite(prefix), Letter(n)), FIST_ANCHOR))
  {
    var ps := FistPictures(FistSprite(prefix), cam);
    var names := Names(ps);
    FistFilesSorted(prefix, cam);
    PictureMapKeys(ps);
    SortSetSorted(PictureMap(ps).Keys);
    SortedUnique(listing, names);
    GrabbedAt(d, listing, FIST_ANCHOR);
    forall n | 0 <= n < FIST_FRAMES
      ensures Grabbed(d, listing, FIST_ANCHOR)[n]
        == Lump(FistSprite(prefix) + [Letter(n)] + "0", Png(d, FistFile(FistSprite(prefix), Letter(n)), FIST_ANCHOR))
    {
      assert listing[n] == FistFile(FistSprite(prefix), Letter(n));
      FistLumpName(prefix, Letter(n));
    }
  }
}
