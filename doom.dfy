/** `src/doom.rs`: the first generation of the WAD assembly. The archive is
    the sequence of its lumps, as in `Producing`; the difference is that
    `PushLump::push_lump` stores the name it is given, with no `^` to `\`
    mapping, and that the pictures are read from four fixed
    sub-directories of the temporary directory (`sprites`,
    `crouch_sprites`, `mugshots`, `fists`) instead of per-skin ones. */
module DoomWads {
  import opened Common
  import opened Disks
  import opened Listings
  import opened Producing
  import opened Sprites

  /** The texts the model does not spell out: the DECORATE player actor
      (from the name, mugshot, crouch sprite, sprite and index), the fist
      weapon actor of `fists::generate_fist` (from the quoted fist sprite
      and index), the `PickFist` ACS source of `fists::finalize` (from its
      removal and retrieval blocks), and what `acc` compiles from a
      source. */
  datatype Texts = Texts(
    player: (string, string, string, string, nat) -> string,
    fist: (string, nat) -> string,
    acs: (string, string) -> string,
    compile: string -> seq<byte>)

  /** Bytes `k..k + 1` of the UTF-8 string are exactly its character `k`
      when the first `k + 1` characters are ASCII, so `replace_range`
      neither panics nor cuts a character. */
  predicate Replaceable(s: string, k: nat)
  {
    k < |s| && forall i :: 0 <= i <= k ==> IsAscii(s[i])
  }

  /** `replace_range(k..k + 1, c)`. */
  function ReplaceAt(s: string, k: nat, c: char): (r: string)
    requires Replaceable(s, k)
    ensures |r| == |s| && r[k] == c
    ensures forall i :: 0 <= i < |s| && i != k ==> r[i] == s[i]
  {
    s[..k] + [c] + s[k + 1..]
  }

  /** The crouch sprite of `consume_images`: the fourth character turned
      into `[`. */
  function CrouchSprite(sprite: string): string
    requires Replaceable(sprite, 3)
  {
    ReplaceAt(sprite, 3, '[')
  }

  /** The fist sprite of `generate_players_wad` and `fists::convert`: the
      fourth character turned into `]`. */
  function FistSpriteOf(sprite: string): string
    requires Replaceable(sprite, 3)
  {
    ReplaceAt(sprite, 3, ']')
  }

  /** The two derived sprites keep the length and the other characters of
      the sprite and never coincide; each equals the sprite exactly when
      its fourth character already was its marker. */
  lemma DerivedSprites(sprite: string)
    requires Replaceable(sprite, 3)
    ensures |CrouchSprite(sprite)| == |FistSpriteOf(sprite)| == |sprite|
    ensures CrouchSprite(sprite) != FistSpriteOf(sprite)
    ensures CrouchSprite(sprite)[..3] == FistSpriteOf(sprite)[..3] == sprite[..3]
    ensures CrouchSprite(sprite)[4..] == FistSpriteOf(sprite)[4..] == sprite[4..]
    ensures CrouchSprite(sprite) == sprite <==> sprite[3] == '['
    ensures FistSpriteOf(sprite) == sprite <==> sprite[3] == ']'
  {
    assert CrouchSprite(sprite)[3] != FistSpriteOf(sprite)[3];
    if sprite[3] == '[' {
      assert CrouchSprite(sprite) == sprite;
    }
    if sprite[3] == ']' {
      assert FistSpriteOf(sprite) == sprite;
    }
  }

  /** The lumps `grab_into_wad` pushes for the sorted file names `files`
      of sub-directory `d`: one per file, named by its stem as it is. */
  function Stems(d: string, files: seq<string>, anchor: Anchor): (r: seq<Lump>)
    ensures |r| == |files|
    ensures forall i :: 0 <= i < |files| ==> r[i] == Lump(Stem(files[i]), Png(d, files[i], anchor))
  {
    if files == [] then []
    else
      var last := files[|files| - 1];
      Stems(d, files[..|files| - 1], anchor) + [Lump(Stem(last), Png(d, last, anchor))]
  }

  /** The two generations push the same lumps for file stems without a
      `^`, where the later `push_lump`'s mapping has nothing to do. */
  lemma {:induction false} StemsAgree(d: string, files: seq<string>, anchor: Anchor)
    requires forall f :: f in files ==> '^' !in Stem(f)
    ensures Stems(d, files, anchor) == Grabbed(d, files, anchor)
  {
    if files != [] {
      var init := files[..|files| - 1];
      assert forall f :: f in init ==> f in files;
      StemsAgree(d, init, anchor);
      ReplaceFree(Stem(files[|files| - 1]), '^', "\\");
    }
  }

  /** A `tinywad::wad::Wad` with `PushLump`. */
  class Wad {
    var lumps: seq<Lump>

    /** `Wad::new(WadKind::Pwad)`: no lumps. */
    constructor ()
      ensures lumps == []
    {
      lumps := [];
    }

    /** `push_lump`: append at the back, under the name as given. */
    method PushLump(data: Payload, name: string)
      modifies this
      ensures lumps == old(lumps) + [Lump(name, data)]
    {
      lumps := lumps + [Lump(name, data)];
    }

    /** The loop of `grab_into_wad` over the sorted paths of `d`. */
    method PushPictures(d: string, paths: seq<string>, anchor: Anchor)
      modifies this
      ensures lumps == old(lumps) + Stems(d, paths, anchor)
    {
      for i := 0 to |paths|
        invariant lumps == old(lumps) + Stems(d, paths[..i], anchor)
      {
        PushLump(Png(d, paths[i], anchor), Stem(paths[i]));
        assert paths[..i + 1][..i] == paths[..i];
      }
      assert paths[..|paths|] == paths;
    }

    /** `grab_into_wad(subpath, x, y, ..)`: list `temp/{subpath}`, sort,
        grab with the anchor and crop every picture, and push each as a
        lump named by its file stem. The listed paths all start with
        `temp/{subpath}/`, so they sort as their file names
        (`Listings.BelowCommonPrefix`). */
    method GrabIntoWad(disk: Disk, ghost tree: Tree, subpath: string, anchor: Anchor) returns (r: Outcome)
      requires tree == Files(disk)
      modifies this
      ensures if subpath in tree then r == Done && lumps == old(lumps) + Stems(subpath, tree[subpath], anchor)
        else r.Failed? && lumps == old(lumps)
    {
      var listed := disk.OpenDir(subpath);
      if listed.Err? {
        return Failed(listed.msg);
      }
      var folder := listed.value;
      var names := folder.ReadDir();
      var paths := SortPaths(names);
      SortSetSorted(folder.files);
      SortedUnique(paths, SortSet(folder.files));
      PushPictures(subpath, paths, anchor);
      r := Done;
    }
  }

  /** The S_SKIN text of `generate_skins_wad`. */
  function SkinText(name: string, sprite: string, crouch: string, mugshot: string): string
  {
    "name = \"" + name + "\"\nsprite = " + sprite + "\ncrouchsprite = " + crouch + "\nface = " + mugshot + "\nscale = 0.5"
  }

  /** The DECORATE text of `generate_players_wad`: the player actor, a
      newline, and the fist actor of the quoted fist sprite. */
  function PlayersText(name: string, sprite: string, mugshot: string, index: nat, t: Texts): string
    requires Replaceable(sprite, 3)
  {
    t.player(name, mugshot, CrouchSprite(sprite), sprite, index) + "\n" + t.fist(Quoted(FistSpriteOf(sprite)), index)
  }

  /** The name of the DECORATE lump of skin `index`. */
  function DecorateName(index: nat): string
  {
    "DEC_M" + NatToString(index)
  }

  /** Different skins have different DECORATE lumps. */
  lemma DecorateNamesApart(i: nat, j: nat)
    ensures DecorateName(i) == DecorateName(j) <==> i == j
  {
    if DecorateName(i) == DecorateName(j) {
      assert DecorateName(i)[5..] == NatToString(i) && DecorateName(j)[5..] == NatToString(j);
      NatToStringInjective(i, j);
    }
  }

  /** The sub-directories `consume_images` reads: the fists only when it
      is not making skins. */
  predicate Consumable(tree: Tree, asSkins: bool)
  {
    "sprites" in tree && "crouch_sprites" in tree && "mugshots" in tree && (!asSkins ==> "fists" in tree)
  }

  /** The sprites, crouch sprites and mugshots groups. */
  function Groups(tree: Tree): seq<Lump>
    requires Consumable(tree, true)
  {
    Stems("sprites", tree["sprites"], SPRITE_ANCHOR) + Stems("crouch_sprites", tree["crouch_sprites"], SPRITE_ANCHOR)
      + Stems("mugshots", tree["mugshots"], MUGSHOT_ANCHOR)
  }

  /** Everything `consume_images` appends when every directory it reads
      is there. */
  function Consumed(tree: Tree, name: string, sprite: string, mugshot: string, asSkins: bool, index: nat, t: Texts): seq<Lump>
    requires Replaceable(sprite, 3) && Consumable(tree, asSkins)
  {
    if asSkins then
      [Lump("S_SKIN", Text(SkinText(name, sprite, CrouchSprite(sprite), mugshot)))] + Groups(tree)
    else
      [Lump(DecorateName(index), Text(PlayersText(name, sprite, mugshot, index, t))), Lump("S_Start", EMPTY)]
        + Groups(tree) + Stems("fists", tree["fists"], FIST_ANCHOR) + [Lump("S_END", EMPTY)]
  }

  /** A grabbed picture of directory `d`. */
  predicate PictureOf(l: Lump, d: string)
  {
    l.data.Png? && l.data.dir == d
  }

  /** The three groups: one picture lump per listed file, in order, each
      from its own directory. */
  lemma GroupsLayout(tree: Tree)
    requires Consumable(tree, true)
    ensures var g := Groups(tree);
      var a := |tree["sprites"]|;
      var b := a + |tree["crouch_sprites"]|;
      |g| == b + |tree["mugshots"]|
      && (forall i :: 0 <= i < a ==> PictureOf(g[i], "sprites") && g[i].data.anchor == SPRITE_ANCHOR)
      && (forall i :: a <= i < b ==> PictureOf(g[i], "crouch_sprites") && g[i].data.anchor == SPRITE_ANCHOR)
      && (forall i :: b <= i < |g| ==> PictureOf(g[i], "mugshots") && g[i].data.anchor == MUGSHOT_ANCHOR)
  {
    var s := Stems("sprites", tree["sprites"], SPRITE_ANCHOR);
    var c := Stems("crouch_sprites", tree["crouch_sprites"], SPRITE_ANCHOR);
    var m := Stems("mugshots", tree["mugshots"], MUGSHOT_ANCHOR);
    var g := Groups(tree);
    assert g == s + c + m;
    forall i | |s| <= i < |s| + |c| ensures g[i] == c[i - |s|] { }
    forall i | |s| + |c| <= i < |g| ensures g[i] == m[i - |s| - |c|] { }
  }

  /** The skins layout is S_SKIN and the three groups: no fists and no
      S_END. The players layout is the DECORATE lump and `S_Start`, the
      same three groups, the fists, and `S_END` last; its only lumps that
      are not pictures are those three markers. */
  lemma ConsumedLayout(tree: Tree, name: string, sprite: string, mugshot: string, index: nat, t: Texts)
    requires Replaceable(sprite, 3) && Consumable(tree, false)
    ensures var skins := Consumed(tree, name, sprite, mugshot, true, index, t);
      var players := Consumed(tree, name, sprite, mugshot, false, index, t);
      var n := |Groups(tree)|;
      var f := |tree["fists"]|;
      |skins| == 1 + n && skins[0].name == "S_SKIN" && skins[1..] == Groups(tree)
      && (forall i :: 1 <= i < |skins| ==> !PictureOf(skins[i], "fists"))
      && |players| == 3 + n + f && players[0].name == DecorateName(index) && players[1] == Lump("S_Start", EMPTY)
      && players[2..2 + n] == skins[1..]
      && (forall i :: 2 + n <= i < 2 + n + f ==> PictureOf(players[i], "fists") && players[i].data.anchor == FIST_ANCHOR)
      && players[|players| - 1] == Lump("S_END", EMPTY)
  {
    var g := Groups(tree);
    var fs := Stems("fists", tree["fists"], FIST_ANCHOR);
    var players := Consumed(tree, name, sprite, mugshot, false, index, t);
    GroupsLayout(tree);
    var head := [Lump(DecorateName(index), Text(PlayersText(name, sprite, mugshot, index, t))), Lump("S_Start", EMPTY)];
    assert players == head + g + fs + [Lump("S_END", EMPTY)];
    assert players[2..2 + |g|] == g;
    forall i | 2 + |g| <= i < 2 + |g| + |fs| ensures players[i] == fs[i - 2 - |g|] { }
  }

  /** `generate_skins_wad`. */
  method GenerateSkinsWad(name: string, sprite: string, crouch: string, mugshot: string, wad: Wad)
    modifies wad
    ensures wad.lumps == old(wad.lumps) + [Lump("S_SKIN", Text(SkinText(name, sprite, crouch, mugshot)))]
  {
    wad.PushLump(Text("name = \"" + name + "\"\nsprite = " + sprite + "\ncrouchsprite = " + crouch + "\nface = " + mugshot
      + "\nscale = 0.5"), "S_SKIN");
  }

  /** `generate_players_wad`: the player and fist actors under
      `DEC_M{index}`, then the `S_Start` marker. */
  method GeneratePlayersWad(name: string, sprite: string, crouch: string, mugshot: string, wad: Wad, index: nat, t: Texts)
    requires Replaceable(sprite, 3) && crouch == CrouchSprite(sprite)
    modifies wad
    ensures wad.lumps == old(wad.lumps) + [Lump(DecorateName(index), Text(PlayersText(name, sprite, mugshot, index, t))), Lump("S_Start", EMPTY)]
  {
    var decorate := t.player(name, mugshot, crouch, sprite, index);
    decorate := decorate + "\n";
    var fist := ReplaceAt(sprite, 3, ']');
    fist := "\"" + fist + "\"";
    decorate := decorate + t.fist(fist, index);
    wad.PushLump(Text(decorate), "DEC_M" + NatToString(index));
    wad.PushLump(EMPTY, "S_Start");
  }

  /** The three groups both layouts share; the first missing directory
      ends the call. */
  method GrabGroups(wad: Wad, disk: Disk, ghost tree: Tree) returns (r: Outcome)
    requires tree == Files(disk)
    modifies wad
    ensures r == Done <==> Consumable(tree, true)
    ensures old(wad.lumps) <= wad.lumps
    ensures r == Done ==> wad.lumps == old(wad.lumps) + Groups(tree)
  {
    r := wad.GrabIntoWad(disk, tree, "sprites", SPRITE_ANCHOR);
    if r.Failed? {
      return;
    }
    ghost var s := Stems("sprites", tree["sprites"], SPRITE_ANCHOR);
    r := wad.GrabIntoWad(disk, tree, "crouch_sprites", SPRITE_ANCHOR);
    if r.Failed? {
      return;
    }
    ghost var c := Stems("crouch_sprites", tree["crouch_sprites"], SPRITE_ANCHOR);
    r := wad.GrabIntoWad(disk, tree, "mugshots", MUGSHOT_ANCHOR);
    if r.Failed? {
      return;
    }
    AppendAssoc(old(wad.lumps), s + c, Stems("mugshots", tree["mugshots"], MUGSHOT_ANCHOR));
    AppendAssoc(old(wad.lumps), s, c);
  }

  /** `consume_images`: the skin or player header, the three groups, and
      for players the fists and `S_END`. A missing directory ends the
      call with an error, keeping what was pushed before it. */
  method ConsumeImages(name: string, sprite: string, mugshot: string, wad: Wad, disk: Disk, ghost tree: Tree,
                       asSkins: bool, index: nat, t: Texts) returns (r: Outcome)
    requires Replaceable(sprite, 3) && tree == Files(disk)
    modifies wad
    ensures r == Done <==> Consumable(tree, asSkins)
    ensures old(wad.lumps) <= wad.lumps
    ensures r == Done ==> wad.lumps == old(wad.lumps) + Consumed(tree, name, sprite, mugshot, asSkins, index, t)
  {
    var crouch := ReplaceAt(sprite, 3, '[');
    if asSkins {
      GenerateSkinsWad(name, sprite, crouch, mugshot, wad);
    } else {
      GeneratePlayersWad(name, sprite, crouch, mugshot, wad, index, t);
    }
    ghost var header := wad.lumps[|old(wad.lumps)|..];
    assert wad.lumps == old(wad.lumps) + header;
    r := GrabGroups(wad, disk, tree);
    if r.Failed? {
      return;
    }
    if !asSkins {
      ghost var g := Groups(tree);
      r := wad.GrabIntoWad(disk, tree, "fists", FIST_ANCHOR);
      if r.Failed? {
        return;
      }
      ghost var fs := Stems("fists", tree["fists"], FIST_ANCHOR);
      wad.PushLump(EMPTY, "S_END");
      AppendAssoc4(old(wad.lumps), header, g, fs, [Lump("S_END", EMPTY)]);
    } else {
      AppendAssoc(old(wad.lumps), header, Groups(tree));
    }
  }
}
