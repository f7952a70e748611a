/** `src/producing.rs`: reading the rendered pictures back into WAD
    archives. A WAD is modelled as its sequence of lumps (name, contents);
    `tinywad`'s encoding is not. The contents of a grabbed lump are not
    read either: a lump records which file of which directory it holds and
    the anchor `putpng::grab::grab_all` wrote into it before
    `putpng::crop::crop_all` cropped it. */
module Producing {
  import opened Common
  import opened Disks
  import opened Listings
  import opened Sprites

  /** The `grAb` offsets handed to `grab_all`, as the expressions it
      evaluates. */
  datatype Anchor = Anchor(x: string, y: string)

  /** What a lump holds: raw bytes, the UTF-8 bytes of a text, or a
      rendered picture after grab and crop. */
  datatype Payload = Raw(bytes: seq<byte>) | Text(text: string) | Png(dir: string, file: string, anchor: Anchor)

  datatype Lump = Lump(name: string, data: Payload)

  /** One `Wad::save`: where, and the lumps in order. */
  datatype Saved = Saved(path: string, lumps: seq<Lump>)

  const SPRITE_ANCHOR := Anchor("w / 2", "h - 15")
  const MUGSHOT_ANCHOR := Anchor("w / 2 - 18", "h / 2 - 17")
  const FIST_ANCHOR := Anchor("-w / 2 - 15", "-h / 2 + 3")

  const EMPTY := Raw([])
  const LANGUAGE := "[enu default]\nFIST = \"Fist\";\0"
  const MAPINFO_HEAD := "GameInfo {\n    PlayerClasses = "

  /** The texts the model does not spell out: the DECORATE player actor
      of a skin (from its name, sprite prefix and index), the fist weapon
      actor (from the fist sprite and index), the `PickFist` ACS source
      (from the number of skins), and the object code `acc` compiles from
      it. */
  datatype Templates = Templates(
    player: (string, string, nat) -> string,
    fist: (string, nat) -> string,
    acs: nat -> string,
    pickfistObject: seq<byte>)

  /** The name `push_lump` stores: every `^` turned back into `\`. */
  function LumpName(name: string): string
  {
    Replace(name, '^', "\\")
  }

  /** The lumps `grab_from` pushes for the sorted file names `files` of
      directory `dir`: one per file, named by its stem. */
  function Grabbed(dir: string, files: seq<string>, anchor: Anchor): (r: seq<Lump>)
    ensures |r| == |files|
  {
    if files == [] then []
    else
      var last := files[|files| - 1];
      Grabbed(dir, files[..|files| - 1], anchor) + [Lump(LumpName(Stem(last)), Png(dir, last, anchor))]
  }

  /** The rendered directory as the producers see it: each
      sub-directory's file names, in sorted order. */
  type Tree = map<string, seq<string>>

  ghost function Files(disk: Disk): (t: Tree)
    reads disk, disk.dirs.Values
    ensures t.Keys == disk.dirs.Keys
  {
    map d | d in disk.dirs :: SortSet(disk.dirs[d].files)
  }

  /** `grab_from(rendered_dir, subdir, index, ..)` when the directory
      exists. */
  ghost function Group(tree: Tree, subdir: string, index: nat, anchor: Anchor): seq<Lump>
    requires Has(tree, subdir, index)
  {
    var d := subdir + NatToString(index);
    Grabbed(d, tree[d], anchor)
  }

  /** The S_SKIN lump text as `populate_s_skin(.., name, sprite_prefix, ..)`
      writes it: the sprite fields hold the prefix it is handed verbatim,
      and unlike a lump name the text is never passed through
      `LumpName`. */
  function SSkinText(name: string, prefix: string): string
  {
    "name = \"" + name + "\"\nsprite = " + SkinSprite(prefix) + "\ncrouchsprite = " + CrouchedSkinSprite(prefix)
      + "\nface = " + MugshotSprite(prefix) + "\nscale = 0.5"
  }

  /** A backslash in the sprite prefix, which the sprite validation of the
      front end admits, reaches the lump names of the skin's frames but not
      an S_SKIN text handed the escaped prefix: for `AB\C` the standing
      frames are pushed as `AB\C]…` while the text asks for `AB^C]`. The
      same holds for every prefix with a backslash. */
  lemma SSkinEscapeKept(name: string, p: string)
    ensures Replace("AB\\C", '\\', "^") == "AB^C"
    ensures LumpName(SkinSprite("AB\\C")) == SkinSprite("AB\\C") != SkinSprite("AB^C")
    ensures '\\' in p ==> SSkinText(name, Replace(p, '\\', "^")) != SSkinText(name, p)
  {
    EscapedExample();
    assert SkinSprite("AB\\C")[2] != SkinSprite("AB^C")[2];
    ReplaceFree(SkinSprite("AB\\C"), '^', "\\");
    if '\\' in p {
      var i :| 0 <= i < |p| && p[i] == '\\';
      ReplaceCharAt(p, '\\', '^');
      var e := Replace(p, '\\', "^");
      SpriteFieldAt(name, e, i);
      SpriteFieldAt(name, p, i);
    }
  }

  /** Character `i` of the `sprite = ` field of the text. */
  lemma SpriteFieldAt(name: string, x: string, i: nat)
    requires i < |x|
    ensures var at := |"name = \"" + name + "\"\nsprite = "|;
      at + i < |SSkinText(name, x)| && SSkinText(name, x)[at + i] == x[i]
  {
    var head := "name = \"" + name + "\"\nsprite = " + SkinSprite(x);
    var k := |"name = \"" + name + "\"\nsprite = "| + i;
    assert head[k] == x[i];
    var t1 := head + "\ncrouchsprite = ";
    assert t1[k] == x[i];
    var t2 := t1 + CrouchedSkinSprite(x);
    assert t2[k] == x[i];
    var t3 := t2 + "\nface = ";
    assert t3[k] == x[i];
    var t4 := t3 + MugshotSprite(x);
    assert t4[k] == x[i];
    assert SSkinText(name, x) == t4 + "\nscale = 0.5";
  }

  /** A prefix without `^`, which is every prefix the sprite validation
      admits, is what `push_lump` reads back from its escaped form, and
      the standing, crouched and mugshot sprites an S_SKIN text handed it
      are exactly the names the skin's lumps carry. */
  lemma SSkinNamesSkinSprites(p: string)
    requires '^' !in p
    ensures LumpName(Replace(p, '\\', "^")) == p
    ensures LumpName(SkinSprite(p)) == SkinSprite(p) && LumpName(CrouchedSkinSprite(p)) == CrouchedSkinSprite(p)
    ensures LumpName(MugshotSprite(p)) == MugshotSprite(p)
  {
    ReplaceRoundTrip(p, '\\', '^');
    ReplaceFree(SkinSprite(p), '^', "\\");
    ReplaceFree(CrouchedSkinSprite(p), '^', "\\");
    ReplaceFree(p, '^', "\\");
  }

  /** Sub-directory `{subdir}{index}` exists. */
  predicate Has(tree: Tree, subdir: string, index: nat)
  {
    subdir + NatToString(index) in tree
  }

  /** The three directories `populate_s_skin` reads for skin `index`. */
  predicate SkinDirs(tree: Tree, index: nat)
  {
    Has(tree, "sprites", index) && Has(tree, "crouch-sprites", index) && Has(tree, "mugshot", index)
  }

  /** The skin directories of every skin before `n`. */
  predicate SkinDirsUpTo(tree: Tree, n: nat)
  {
    forall i :: 0 <= i < n ==> SkinDirs(tree, i)
  }

  /** The fist directories of every skin before `n`. */
  predicate FistDirsUpTo(tree: Tree, n: nat)
  {
    forall i :: 0 <= i < n ==> Has(tree, "fist", i)
  }

  lemma SkinDirsExtend(tree: Tree, n: nat)
    requires SkinDirsUpTo(tree, n) && SkinDirs(tree, n)
    ensures SkinDirsUpTo(tree, n + 1)
  {
  }

  lemma FistDirsExtend(tree: Tree, n: nat)
    requires FistDirsUpTo(tree, n) && Has(tree, "fist", n)
    ensures FistDirsUpTo(tree, n + 1)
  {
  }

  /** What `populate_s_skin` appends. */
  ghost function SSkinLumps(tree: Tree, name: string, prefix: string, index: nat): seq<Lump>
    requires SkinDirs(tree, index)
  {
    [Lump("S_SKIN", Text(SSkinText(name, prefix)))] + Group(tree, "sprites", index, SPRITE_ANCHOR)
      + Group(tree, "crouch-sprites", index, SPRITE_ANCHOR) + Group(tree, "mugshot", index, MUGSHOT_ANCHOR)
  }

  /** The S_SKIN blocks of the first `n` (name, sprite prefix) pairs. */
  ghost function SSkinBlocks(tree: Tree, pairs: seq<(string, string)>, n: nat): seq<Lump>
    requires n <= |pairs| && SkinDirsUpTo(tree, n)
  {
    if n == 0 then []
    else SSkinBlocks(tree, pairs, n - 1) + SSkinLumps(tree, pairs[n - 1].0, pairs[n - 1].1, n - 1)
  }

  /** Each pair with its name and sprite prefix exchanged: the argument
      order in which `produce_s_skin_wad` hands them to `populate_s_skin`. */
  function Swapped(pairs: seq<(string, string)>): (r: seq<(string, string)>)
    ensures |r| == |pairs|
    ensures forall i :: 0 <= i < |pairs| ==> r[i] == (pairs[i].1, pairs[i].0)
  {
    seq(|pairs|, i requires 0 <= i < |pairs| => (pairs[i].1, pairs[i].0))
  }

  /** The fist groups of the first `n` skins. */
  ghost function FistGroups(tree: Tree, n: nat): seq<Lump>
    requires FistDirsUpTo(tree, n)
  {
    if n == 0 then [] else FistGroups(tree, n - 1) + Group(tree, "fist", n - 1, FIST_ANCHOR)
  }

  /** `generate_fist_decorate` as `produce_s_skin_and_fist_wads` calls it,
      with the fist sprite of the prefix it is handed. */
  function FistActor(t: Templates, prefix: string, index: nat): string
  {
    t.fist(FistSprite(prefix), index)
  }

  /** Escaping `AB\C` gives `AB^C`. */
  lemma EscapedExample()
    ensures Replace("AB\\C", '\\', "^") == "AB^C"
  {
    assert Replace("C", '\\', "^") == "C" + Replace([], '\\', "^");
    assert Replace("\\C", '\\', "^") == "^" + Replace("C", '\\', "^");
    assert Replace("B\\C", '\\', "^") == "B" + Replace("\\C", '\\', "^");
    assert Replace("AB\\C", '\\', "^") == "A" + Replace("B\\C", '\\', "^");
  }

  /** For a prefix with a backslash, the escaped prefix gives the actor a
      fist sprite that differs from the one the fist lumps carry (`AB^C\`
      against `AB\C\`); the prefix itself gives it that very sprite, which
      is what `push_lump` reads back from the escaped fist file names. */
  lemma FistActorEscape(p: string)
    ensures FistSprite(Replace("AB\\C", '\\', "^")) == "AB^C\\" != FistSprite("AB\\C")
    ensures '\\' in p ==> FistSprite(Replace(p, '\\', "^")) != FistSprite(p)
    ensures '^' !in p ==> LumpName(Replace(FistSprite(p), '\\', "^")) == FistSprite(p)
  {
    EscapedExample();
    assert "AB^C\\"[2] != "AB\\C\\"[2];
    if '\\' in p {
      var i :| 0 <= i < |p| && p[i] == '\\';
      ReplaceCharAt(p, '\\', '^');
      assert FistSprite(Replace(p, '\\', "^"))[i] != FistSprite(p)[i];
    }
    if '^' !in p {
      FistSpriteEscape(p);
    }
  }

  /** `generate_player_decorate`. */
  function PlayerActor(t: Templates, name: string, prefix: string, index: nat): string
  {
    t.player(name, prefix, index)
  }

  /** The fist weapon actors of the first `n` skins, before the final
      `pop`. */
  function FistActors(pairs: seq<(string, string)>, n: nat, t: Templates): string
    requires n <= |pairs|
  {
    if n == 0 then "" else FistActors(pairs, n - 1, t) + FistActor(t, pairs[n - 1].1, n - 1)
  }

  /** The fist WAD of `produce_s_skin_and_fist_wads`. */
  ghost function FistWadLumps(tree: Tree, pairs: seq<(string, string)>, t: Templates): seq<Lump>
    requires SkinDirsUpTo(tree, |pairs|) && FistDirsUpTo(tree, |pairs|)
  {
    [Lump("S_START", EMPTY)] + FistGroups(tree, |pairs|)
      + [Lump("S_END", EMPTY), Lump("DECORATE", Text(Pop(FistActors(pairs, |pairs|, t)))),
         Lump("PICKFIST", Text(t.acs(|pairs|))), Lump("LOADACS", Text("PICKFIST")), Lump("A_START", EMPTY),
         Lump("PICKFIST", Raw(t.pickfistObject)), Lump("A_END", EMPTY), Lump("LANGUAGE", Text(LANGUAGE))]
  }

  /** Where the fist WAD goes: every `.` of the output path becomes
      `-fist.`. */
  function FistWadPath(path: string): string
  {
    Replace(path, '.', "-fist.")
  }

  /** The four picture groups of skin `index`, for the DECORATE WAD. */
  ghost function PlayerBlock(tree: Tree, index: nat): seq<Lump>
    requires SkinDirs(tree, index) && Has(tree, "fist", index)
  {
    Group(tree, "sprites", index, SPRITE_ANCHOR) + Group(tree, "crouch-sprites", index, SPRITE_ANCHOR)
      + Group(tree, "mugshot", index, MUGSHOT_ANCHOR) + Group(tree, "fist", index, FIST_ANCHOR)
  }

  /** The picture groups of the first `n` skins, for the DECORATE WAD. */
  ghost function PlayerGroups(tree: Tree, n: nat): seq<Lump>
    requires SkinDirsUpTo(tree, n) && FistDirsUpTo(tree, n)
  {
    if n == 0 then [] else PlayerGroups(tree, n - 1) + PlayerBlock(tree, n - 1)
  }

  /** The DECORATE text of the first `n` skins, before the final `pop`:
      each skin's player actor followed by its fist actor. */
  function PlayerActors(pairs: seq<(string, string)>, n: nat, t: Templates): string
    requires n <= |pairs|
  {
    if n == 0 then ""
    else
      var (name, prefix) := pairs[n - 1];
      PlayerActors(pairs, n - 1, t) + PlayerActor(t, name, prefix, n - 1) + FistActor(t, prefix, n - 1)
  }

  /** `"Crafter{index}"`. */
  function PlayerClass(index: nat): string
  {
    "\"Crafter" + NatToString(index) + "\""
  }

  /** What the loop appends to MAPINFO for skin `index`: its class and
      `, `. */
  function ClassEntry(index: nat): string
  {
    PlayerClass(index) + ", "
  }

  /** The player classes as the loop appends them. */
  function ClassList(n: nat): string
  {
    if n == 0 then "" else ClassList(n - 1) + ClassEntry(n - 1)
  }

  /** The MAPINFO text: the head and the classes, two characters popped,
      and the closing line. */
  function MapInfo(n: nat): string
  {
    Pop(Pop(MAPINFO_HEAD + ClassList(n))) + "\n}"
  }

  /** The DECORATE WAD of `produce_decorate_wad`. */
  ghost function DecorateWadLumps(tree: Tree, pairs: seq<(string, string)>, t: Templates): seq<Lump>
    requires SkinDirsUpTo(tree, |pairs|) && FistDirsUpTo(tree, |pairs|)
  {
    [Lump("S_START", EMPTY)] + PlayerGroups(tree, |pairs|)
      + [Lump("S_END", EMPTY), Lump("DECORATE", Text(Pop(PlayerActors(pairs, |pairs|, t)))),
         Lump("MAPINFO", Text(MapInfo(|pairs|)))]
  }

  /** A WAD being assembled (`tinywad::wad::Wad` behind the `Archive`
      trait). */
  class Wad {
    var lumps: seq<Lump>

    /** `new_archive`: an empty PWAD. */
    constructor NewArchive()
      ensures lumps == []
    {
      lumps := [];
    }

    /** `push_lump`: append at the back, `^` in the name turned into `\`. */
    method PushLump(data: Payload, name: string)
      modifies this
      ensures lumps == old(lumps) + [Lump(LumpName(name), data)]
    {
      lumps := lumps + [Lump(Replace(name, '^', "\\"), data)];
    }

    /** `push_lump` of a marker or text lump whose name has no `^`. */
    method PushPlain(data: Payload, name: string)
      requires '^' !in name
      modifies this
      ensures lumps == old(lumps) + [Lump(name, data)]
    {
      ReplaceFree(name, '^', "\\");
      PushLump(data, name);
    }

    /** The loop of `grab_from` over the sorted paths of directory `d`. */
    method PushPictures(d: string, paths: seq<string>, anchor: Anchor)
      modifies this
      ensures lumps == old(lumps) + Grabbed(d, paths, anchor)
    {
      for i := 0 to |paths|
        invariant lumps == old(lumps) + Grabbed(d, paths[..i], anchor)
      {
        PushLump(Png(d, paths[i], anchor), Stem(paths[i]));
        assert paths[..i + 1][..i] == paths[..i];
      }
      assert paths[..|paths|] == paths;
    }

    /** `grab_from`: list `{subdir}{index}`, sort, grab and crop every
        picture, and push each as a lump named by its file stem. */
    method GrabFrom(disk: Disk, ghost tree: Tree, subdir: string, index: nat, anchor: Anchor) returns (r: Outcome)
      requires tree == Files(disk)
      modifies this
      ensures var d := subdir + NatToString(index);
        if d in tree then r == Done && lumps == old(lumps) + Group(tree, subdir, index, anchor)
        else r == Failed("subdirectory " + d) && lumps == old(lumps)
    {
      var listed := disk.OpenSubdir(subdir, index);
      if listed.Err? {
        return Failed(listed.msg);
      }
      var d := subdir + NatToString(index);
      var folder := listed.value;
      var names := folder.ReadDir();
      var paths := SortPaths(names);
      SortSetSorted(folder.files);
      SortedUnique(paths, SortSet(folder.files));
      assert paths == tree[d];
      PushPictures(d, paths, anchor);
      r := Done;
    }

    /** `populate_s_skin`: the S_SKIN lump, then the sprites, crouch
        sprites and mugshots; the first missing directory ends the call. */
    method PopulateSSkin(disk: Disk, ghost tree: Tree, name: string, prefix: string, index: nat) returns (r: Outcome)
      requires tree == Files(disk)
      modifies this
      ensures r == Done <==> SkinDirs(tree, index)
      ensures r == Done ==> lumps == old(lumps) + SSkinLumps(tree, name, prefix, index)
    {
      ghost var s := [Lump("S_SKIN", Text(SSkinText(name, prefix)))];
      PushPlain(Text(SSkinText(name, prefix)), "S_SKIN");
      r := GrabFrom(disk, tree, "sprites", index, SPRITE_ANCHOR);
      if r.Failed? {
        return;
      }
      ghost var g1 := Group(tree, "sprites", index, SPRITE_ANCHOR);
      assert lumps == old(lumps) + s + g1;
      r := GrabFrom(disk, tree, "crouch-sprites", index, SPRITE_ANCHOR);
      if r.Failed? {
        return;
      }
      ghost var g2 := Group(tree, "crouch-sprites", index, SPRITE_ANCHOR);
      assert lumps == old(lumps) + s + g1 + g2;
      r := GrabFrom(disk, tree, "mugshot", index, MUGSHOT_ANCHOR);
      if r.Failed? {
        return;
      }
      AppendAssoc4(old(lumps), s, g1, g2, Group(tree, "mugshot", index, MUGSHOT_ANCHOR));
    }
  }

  /** One iteration of `produce_s_skin_wad`'s loop: the block of skin
      `index`, its name and sprite prefix handed over swapped. */
  method SSkinWadStep(wad: Wad, disk: Disk, ghost tree: Tree, pairs: seq<(string, string)>, index: nat) returns (r: Outcome)
    requires tree == Files(disk) && index < |pairs| && SkinDirsUpTo(tree, index)
    requires wad.lumps == SSkinBlocks(tree, Swapped(pairs), index)
    modifies wad
    ensures r == Done <==> SkinDirs(tree, index)
    ensures r == Done ==> SkinDirsUpTo(tree, index + 1) && wad.lumps == SSkinBlocks(tree, Swapped(pairs), index + 1)
  {
    var (name, prefix) := pairs[index];
    r := wad.PopulateSSkin(disk, tree, prefix, name, index);
    if r.Failed? {
      return;
    }
    SkinDirsExtend(tree, index);
  }

  /** `produce_s_skin_wad`: one S_SKIN block per skin, in order, saved
      under `path`; nothing is saved when a directory is missing. */
  method ProduceSSkinWad(disk: Disk, ghost tree: Tree, pairs: seq<(string, string)>, path: string) returns (r: Outcome, saved: seq<Saved>)
    requires tree == Files(disk)
    ensures r == Done <==> SkinDirsUpTo(tree, |pairs|)
    ensures r == Done ==> saved == [Saved(path, SSkinBlocks(tree, Swapped(pairs), |pairs|))]
    ensures r.Failed? ==> saved == []
  {
    var wad := new Wad.NewArchive();
    r := FillSSkinWad(wad, disk, tree, pairs);
    if r.Failed? {
      return r, [];
    }
    return Done, [Saved(path, wad.lumps)];
  }

  /** The loop of `produce_s_skin_wad`. */
  method FillSSkinWad(wad: Wad, disk: Disk, ghost tree: Tree, pairs: seq<(string, string)>) returns (r: Outcome)
    requires tree == Files(disk) && wad.lumps == []
    modifies wad
    ensures r == Done <==> SkinDirsUpTo(tree, |pairs|)
    ensures r == Done ==> wad.lumps == SSkinBlocks(tree, Swapped(pairs), |pairs|)
  {
    for index := 0 to |pairs|
      invariant tree == Files(disk) && SkinDirsUpTo(tree, index)
      invariant wad.lumps == SSkinBlocks(tree, Swapped(pairs), index)
    {
      r := SSkinWadStep(wad, disk, tree, pairs, index);
      if r.Failed? {
        return;
      }
    }
    r := Done;
  }

  /** One iteration of `produce_s_skin_and_fist_wads`' loop: the S_SKIN
      block of skin `index` (in order), its fist pictures, and its fist
      actor appended to `decorate`. */
  method SSkinAndFistStep(wad: Wad, fistWad: Wad, disk: Disk, ghost tree: Tree, pairs: seq<(string, string)>, index: nat,
                          t: Templates, decorate: string)
    returns (r: Outcome, decorate': string)
    requires wad != fistWad && tree == Files(disk) && index < |pairs|
    requires SkinDirsUpTo(tree, index) && FistDirsUpTo(tree, index)
    requires wad.lumps == SSkinBlocks(tree, pairs, index)
    requires fistWad.lumps == [Lump("S_START", EMPTY)] + FistGroups(tree, index)
    requires decorate == FistActors(pairs, index, t)
    modifies wad, fistWad
    ensures r == Done <==> SkinDirs(tree, index) && Has(tree, "fist", index)
    ensures r == Done ==> SkinDirsUpTo(tree, index + 1) && FistDirsUpTo(tree, index + 1)
    ensures r == Done ==> wad.lumps == SSkinBlocks(tree, pairs, index + 1)
    ensures r == Done ==> fistWad.lumps == [Lump("S_START", EMPTY)] + FistGroups(tree, index + 1)
    ensures r == Done ==> decorate' == FistActors(pairs, index + 1, t)
  {
    decorate' := decorate;
    var (name, prefix) := pairs[index];
    r := wad.PopulateSSkin(disk, tree, name, prefix, index);
    if r.Failed? {
      return;
    }
    r := fistWad.GrabFrom(disk, tree, "fist", index, FIST_ANCHOR);
    if r.Failed? {
      return;
    }
    decorate' := decorate + FistActor(t, prefix, index);
    SkinDirsExtend(tree, index);
    FistDirsExtend(tree, index);
    AppendAssoc([Lump("S_START", EMPTY)], FistGroups(tree, index), Group(tree, "fist", index, FIST_ANCHOR));
  }

  /** The closing lumps of the fist WAD. */
  method FinishFistWad(fistWad: Wad, decorate: string, index: nat, t: Templates)
    modifies fistWad
    ensures fistWad.lumps == old(fistWad.lumps)
      + [Lump("S_END", EMPTY), Lump("DECORATE", Text(decorate)),
         Lump("PICKFIST", Text(t.acs(index))), Lump("LOADACS", Text("PICKFIST")), Lump("A_START", EMPTY),
         Lump("PICKFIST", Raw(t.pickfistObject)), Lump("A_END", EMPTY), Lump("LANGUAGE", Text(LANGUAGE))]
  {
    fistWad.PushPlain(EMPTY, "S_END");
    fistWad.PushPlain(Text(decorate), "DECORATE");
    fistWad.PushPlain(Text(t.acs(index)), "PICKFIST");
    fistWad.PushPlain(Text("PICKFIST"), "LOADACS");
    fistWad.PushPlain(EMPTY, "A_START");
    fistWad.PushPlain(Raw(t.pickfistObject), "PICKFIST");
    fistWad.PushPlain(EMPTY, "A_END");
    fistWad.PushPlain(Text(LANGUAGE), "LANGUAGE");
  }

  /** The loop of `produce_s_skin_and_fist_wads`: for each skin in order
      its S_SKIN block into one WAD, its fist pictures into the other, and
      its fist actor onto the DECORATE text. */
  method FillSSkinAndFistWads(wad: Wad, fistWad: Wad, disk: Disk, ghost tree: Tree, pairs: seq<(string, string)>, t: Templates)
    returns (r: Outcome, decorate: string)
    requires wad != fistWad && tree == Files(disk)
    requires wad.lumps == [] && fistWad.lumps == [Lump("S_START", EMPTY)]
    modifies wad, fistWad
    ensures r == Done <==> SkinDirsUpTo(tree, |pairs|) && FistDirsUpTo(tree, |pairs|)
    ensures r == Done ==> wad.lumps == SSkinBlocks(tree, pairs, |pairs|)
    ensures r == Done ==> fistWad.lumps == [Lump("S_START", EMPTY)] + FistGroups(tree, |pairs|)
    ensures r == Done ==> decorate == FistActors(pairs, |pairs|, t)
  {
    decorate := "";
    assert [Lump("S_START", EMPTY)] + FistGroups(tree, 0) == [Lump("S_START", EMPTY)];
    for index := 0 to |pairs|
      invariant tree == Files(disk) && SkinDirsUpTo(tree, index) && FistDirsUpTo(tree, index)
      invariant wad.lumps == SSkinBlocks(tree, pairs, index)
      invariant fistWad.lumps == [Lump("S_START", EMPTY)] + FistGroups(tree, index)
      invariant decorate == FistActors(pairs, index, t)
    {
      r, decorate := SSkinAndFistStep(wad, fistWad, disk, tree, pairs, index, t, decorate);
      if r.Failed? {
        return;
      }
    }
    r := Done;
  }

  /** `produce_s_skin_and_fist_wads`: the S_SKIN WAD (here with the
      arguments in order) and a second WAD with the fist sprites, their
      weapon actors and the `PickFist` script; both are saved only when
      every directory was found. */
  method ProduceSSkinAndFistWads(disk: Disk, ghost tree: Tree, pairs: seq<(string, string)>, path: string, t: Templates)
    returns (r: Outcome, saved: seq<Saved>)
    requires tree == Files(disk)
    ensures r == Done <==> SkinDirsUpTo(tree, |pairs|) && FistDirsUpTo(tree, |pairs|)
    ensures r == Done ==> saved == [Saved(path, SSkinBlocks(tree, pairs, |pairs|)),
      Saved(FistWadPath(path), FistWadLumps(tree, pairs, t))]
    ensures r.Failed? ==> saved == []
  {
    var wad := new Wad.NewArchive();
    var fistWad := new Wad.NewArchive();
    fistWad.PushPlain(EMPTY, "S_START");
    assert tree == Files(disk);
    var decorate;
    r, decorate := FillSSkinAndFistWads(wad, fistWad, disk, tree, pairs, t);
    if r.Failed? {
      return r, [];
    }
    decorate := Pop(decorate);
    FinishFistWad(fistWad, decorate, |pairs|, t);
    return Done, [Saved(path, wad.lumps), Saved(Replace(path, '.', "-fist."), fistWad.lumps)];
  }

  /** The four `grab_from` calls of one skin in `produce_decorate_wad`. */
  method GrabPlayer(wad: Wad, disk: Disk, ghost tree: Tree, index: nat) returns (r: Outcome)
    requires tree == Files(disk)
    modifies wad
    ensures r == Done <==> SkinDirs(tree, index) && Has(tree, "fist", index)
    ensures r == Done ==> wad.lumps == old(wad.lumps) + PlayerBlock(tree, index)
  {
    r := wad.GrabFrom(disk, tree, "sprites", index, SPRITE_ANCHOR);
    if r.Failed? {
      return;
    }
    ghost var g1 := Group(tree, "sprites", index, SPRITE_ANCHOR);
    r := wad.GrabFrom(disk, tree, "crouch-sprites", index, SPRITE_ANCHOR);
    if r.Failed? {
      return;
    }
    ghost var g2 := Group(tree, "crouch-sprites", index, SPRITE_ANCHOR);
    assert wad.lumps == old(wad.lumps) + g1 + g2;
    r := wad.GrabFrom(disk, tree, "mugshot", index, MUGSHOT_ANCHOR);
    if r.Failed? {
      return;
    }
    ghost var g3 := Group(tree, "mugshot", index, MUGSHOT_ANCHOR);
    assert wad.lumps == old(wad.lumps) + g1 + g2 + g3;
    r := wad.GrabFrom(disk, tree, "fist", index, FIST_ANCHOR);
    if r.Failed? {
      return;
    }
    ghost var g4 := Group(tree, "fist", index, FIST_ANCHOR);
    AppendAssoc4(old(wad.lumps), g1, g2, g3, g4);
  }

  /** The closing lumps of the DECORATE WAD. */
  method FinishDecorateWad(wad: Wad, decorate: string, mapinfo: string)
    modifies wad
    ensures wad.lumps == old(wad.lumps) + [Lump("S_END", EMPTY), Lump("DECORATE", Text(decorate)), Lump("MAPINFO", Text(mapinfo))]
  {
    wad.PushPlain(EMPTY, "S_END");
    wad.PushPlain(Text(decorate), "DECORATE");
    wad.PushPlain(Text(mapinfo), "MAPINFO");
  }

  /** One iteration of `produce_decorate_wad`'s loop: the player and
      fist actors of skin `index` onto the DECORATE text, its class onto
      MAPINFO, then its four picture groups. */
  method DecorateStep(wad: Wad, disk: Disk, ghost tree: Tree, pairs: seq<(string, string)>, index: nat,
                      t: Templates, decorate: string, mapinfo: string)
    returns (r: Outcome, decorate': string, mapinfo': string)
    requires tree == Files(disk) && index < |pairs| && SkinDirsUpTo(tree, index) && FistDirsUpTo(tree, index)
    requires wad.lumps == [Lump("S_START", EMPTY)] + PlayerGroups(tree, index)
    requires decorate == PlayerActors(pairs, index, t) && mapinfo == MAPINFO_HEAD + ClassList(index)
    modifies wad
    ensures r == Done <==> SkinDirs(tree, index) && Has(tree, "fist", index)
    ensures r == Done ==> SkinDirsUpTo(tree, index + 1) && FistDirsUpTo(tree, index + 1)
    ensures r == Done ==> wad.lumps == [Lump("S_START", EMPTY)] + PlayerGroups(tree, index + 1)
    ensures decorate' == PlayerActors(pairs, index + 1, t) && mapinfo' == MAPINFO_HEAD + ClassList(index + 1)
  {
    var (name, prefix) := pairs[index];
    decorate' := decorate + PlayerActor(t, name, prefix, index);
    decorate' := decorate' + FistActor(t, prefix, index);
    AppendAssoc(MAPINFO_HEAD, ClassList(index), ClassEntry(index));
    mapinfo' := mapinfo + ClassEntry(index);
    r := GrabPlayer(wad, disk, tree, index);
    if r.Failed? {
      return;
    }
    SkinDirsExtend(tree, index);
    FistDirsExtend(tree, index);
    AppendAssoc([Lump("S_START", EMPTY)], PlayerGroups(tree, index), PlayerBlock(tree, index));
  }

  /** `produce_decorate_wad`: every skin's four picture groups between
      S_START and S_END, then the DECORATE text of all player and fist
      actors with its last character popped, then MAPINFO. */
  method ProduceDecorateWad(disk: Disk, ghost tree: Tree, pairs: seq<(string, string)>, path: string, t: Templates)
    returns (r: Outcome, saved: seq<Saved>)
    requires tree == Files(disk)
    ensures r == Done <==> SkinDirsUpTo(tree, |pairs|) && FistDirsUpTo(tree, |pairs|)
    ensures r == Done ==> saved == [Saved(path, DecorateWadLumps(tree, pairs, t))]
    ensures r.Failed? ==> saved == []
  {
    var wad := new Wad.NewArchive();
    wad.PushPlain(EMPTY, "S_START");
    var decorate, mapinfo;
    r, decorate, mapinfo := FillDecorateWad(wad, disk, tree, pairs, t);
    if r.Failed? {
      return r, [];
    }
    decorate := Pop(decorate);
    mapinfo := Pop(mapinfo);
    mapinfo := Pop(mapinfo);
    mapinfo := mapinfo + "\n}";
    FinishDecorateWad(wad, decorate, mapinfo);
    return Done, [Saved(path, wad.lumps)];
  }

  /** The loop of `produce_decorate_wad`. */
  method FillDecorateWad(wad: Wad, disk: Disk, ghost tree: Tree, pairs: seq<(string, string)>, t: Templates)
    returns (r: Outcome, decorate: string, mapinfo: string)
    requires tree == Files(disk) && wad.lumps == [Lump("S_START", EMPTY)]
    modifies wad
    ensures r == Done <==> SkinDirsUpTo(tree, |pairs|) && FistDirsUpTo(tree, |pairs|)
    ensures r == Done ==> wad.lumps == [Lump("S_START", EMPTY)] + PlayerGroups(tree, |pairs|)
    ensures r == Done ==> decorate == PlayerActors(pairs, |pairs|, t) && mapinfo == MAPINFO_HEAD + ClassList(|pairs|)
  {
    decorate := "";
    mapinfo := MAPINFO_HEAD;
    assert [Lump("S_START", EMPTY)] + PlayerGroups(tree, 0) == [Lump("S_START", EMPTY)];
    for index := 0 to |pairs|
      invariant tree == Files(disk) && SkinDirsUpTo(tree, index) && FistDirsUpTo(tree, index)
      invariant wad.lumps == [Lump("S_START", EMPTY)] + PlayerGroups(tree, index)
      invariant decorate == PlayerActors(pairs, index, t)
      invariant mapinfo == MAPINFO_HEAD + ClassList(index)
    {
      r, decorate, mapinfo := DecorateStep(wad, disk, tree, pairs, index, t, decorate, mapinfo);
      if r.Failed? {
        return;
      }
    }
    r := Done;
  }
}
