/** `Format::methods` (`src/converting.rs`): which renders each output format
    runs for every skin, which producer reads their output back, and what
    the rendered directory holds once all skins are through. */
module Formats {
  import opened Common
  import opened Cameras
  import opened Disks
  import opened Puppet
  import opened Sprites
  import opened SkinRenders
  import opened Mugshots
  import opened Fists
  import opened Listings
  import opened Producing

  datatype Format = SSkinWad | SSkinAndFistWads | DecorateWad

  /** The entries of the `Render` table. */
  datatype Render = SkinPass | MugshotPass | FistPass

  /** The entries of the `Produce` table. */
  datatype Produce = SSkinProducer | SSkinAndFistProducer | DecorateProducer

  /** `Format::methods`: the renders in the order they run, and the
      producer. */
  function Methods(format: Format): (r: (seq<Render>, Produce))
  {
    match format
    case SSkinWad => ([SkinPass, MugshotPass], SSkinProducer)
    case SSkinAndFistWads => ([SkinPass, MugshotPass, FistPass], SSkinAndFistProducer)
    case DecorateWad => ([SkinPass, MugshotPass, FistPass], DecorateProducer)
  }

  /** The four sub-directory names a render can create. */
  const SUBDIRS: set<string> := {"sprites", "crouch-sprites", "mugshot", "fist"}

  /** The sub-directories one render creates for its skin. */
  function Subdirs(render: Render): (r: set<string>)
    ensures r <= SUBDIRS
  {
    match render
    case SkinPass => {"sprites", "crouch-sprites"}
    case MugshotPass => {"mugshot"}
    case FistPass => {"fist"}
  }

  /** The sub-directories a list of renders creates. */
  function Writes(renders: seq<Render>): (r: set<string>)
    ensures r <= SUBDIRS
  {
    if renders == [] then {} else Writes(renders[..|renders| - 1]) + Subdirs(renders[|renders| - 1])
  }

  /** What a producer needs in order to succeed on `n` skins (the
      conditions under which the `produce_*` methods return `Ok`). */
  ghost predicate Ready(produce: Produce, tree: Tree, n: nat)
  {
    SkinDirsUpTo(tree, n) && (produce != SSkinProducer ==> FistDirsUpTo(tree, n))
  }

  /** Every directory the renders create exists for each of `n` skins. */
  ghost predicate Covered(tree: Tree, renders: seq<Render>, n: nat)
  {
    forall s, i :: s in Writes(renders) && 0 <= i < n ==> Has(tree, s, i)
  }

  /** The renders of each format create exactly the directories its
      producer reads: skins and mugshots always, fists exactly when the
      producer is not the plain S_SKIN one. */
  lemma MethodsFeedProducer(format: Format, tree: Tree, n: nat)
    ensures Covered(tree, Methods(format).0, n) <==> Ready(Methods(format).1, tree, n)
    ensures Methods(format).0[..2] == [SkinPass, MugshotPass]
    ensures FistPass in Methods(format).0 <==> Methods(format).1 != SSkinProducer
  {
    var (renders, produce) := Methods(format);
    assert renders[..2] == [SkinPass, MugshotPass];
    assert Writes(renders[..1]) == {"sprites", "crouch-sprites"};
    assert Writes(renders[..2]) == {"sprites", "crouch-sprites", "mugshot"};
    if format == SSkinWad {
      assert renders[..2] == renders;
    } else {
      assert renders[..3] == renders;
      assert Writes(renders) == SUBDIRS;
    }
    if Ready(produce, tree, n) {
      forall s, i | s in Writes(renders) && 0 <= i < n ensures Has(tree, s, i) {
        assert SkinDirs(tree, i);
      }
    }
    if Covered(tree, renders, n) {
      forall i | 0 <= i < n ensures SkinDirs(tree, i) {
        assert "sprites" in Writes(renders) && "crouch-sprites" in Writes(renders) && "mugshot" in Writes(renders);
      }
      if produce != SSkinProducer {
        forall i | 0 <= i < n ensures Has(tree, "fist", i) {
          assert "fist" in Writes(renders);
        }
      }
    }
  }

  /** The camera a render leaves behind: the skin passes restore it, the
      mugshot moves it in, the fist turns it round and moves it back. */
  function CameraAfter(render: Render, cam: Camera): Camera
  {
    match render
    case SkinPass => cam
    case MugshotPass => Translate(cam, MUGSHOT_ZOOM)
    case FistPass => FistCamera(cam)
  }

  /** The camera after a list of renders. */
  function CameraThrough(renders: seq<Render>, cam: Camera): Camera
  {
    if renders == [] then cam else CameraAfter(renders[|renders| - 1], CameraThrough(renders[..|renders| - 1], cam))
  }

  /** What a render saved into one sub-directory: the frames of the
      standing or the crouched skin, the mugshots or the fists, with the
      sprite prefix and the camera they were captured from. */
  datatype Dir =
    | SkinDir(prefix: string, slim: bool, cam: Camera)
    | CrouchDir(prefix: string, slim: bool, cam: Camera)
    | MugshotDir(prefix: string, cam: Camera)
    | FistDir(prefix: string, cam: Camera)

  /** The pictures saved into a sub-directory, in order. */
  function Pictures(dir: Dir): seq<Picture>
  {
    match dir
    case SkinDir(prefix, slim, cam) => AllSkinPictures(SkinSprite(prefix), LoadedState(slim), false, cam)
    case CrouchDir(prefix, slim, cam) => AllSkinPictures(CrouchedSkinSprite(prefix), CrouchedState(slim), true, cam)
    case MugshotDir(prefix, cam) => AllMugshotPictures(MugshotSprite(prefix), cam)
    case FistDir(prefix, cam) => FistPictures(FistSprite(prefix), cam)
  }

  /** The rendered directory: what was saved into each sub-directory. */
  type Contents = map<string, Dir>

  /** The sub-directories one render of skin `index` creates, from camera
      `cam`, for a skin whose arms are slim or not. */
  function RenderDirs(render: Render, prefix: string, slim: bool, cam: Camera, index: nat): Contents
  {
    var n := NatToString(index);
    match render
    case SkinPass => map["sprites" + n := SkinDir(prefix, slim, cam), "crouch-sprites" + n := CrouchDir(prefix, slim, cam)]
    case MugshotPass => map["mugshot" + n := MugshotDir(prefix, Translate(cam, MUGSHOT_ZOOM))]
    case FistPass => map["fist" + n := FistDir(prefix, FistCamera(cam))]
  }

  /** What the renders of one skin save, in order, the camera carried from
      one render to the next. */
  function SkinContents(renders: seq<Render>, prefix: string, slim: bool, cam: Camera, index: nat): Contents
  {
    if renders == [] then map[]
    else
      var init := renders[..|renders| - 1];
      SkinContents(init, prefix, slim, cam, index) + RenderDirs(renders[|renders| - 1], prefix, slim, CameraThrough(init, cam), index)
  }

  /** The directory after the first `n` skins, each given by its sprite
      prefix and whether its arms are slim, each started from the canonical
      camera. */
  function Rendered(skins: seq<(string, bool)>, renders: seq<Render>, n: nat): Contents
    requires n <= |skins|
  {
    if n == 0 then map[]
    else Rendered(skins, renders, n - 1) + SkinContents(renders, skins[n - 1].0, skins[n - 1].1, Canonical, n - 1)
  }

  /** What each sub-directory shows, by sub-directory name. */
  type Views = map<string, map<string, View>>

  /** What one sub-directory shows. */
  function Shows(dir: Dir): map<string, View>
  {
    PictureMap(Pictures(dir))
  }

  /** `g` applied to every value of `m`. */
  function MapValues<V, W>(m: map<string, V>, g: V -> W): (r: map<string, W>)
    ensures r.Keys == m.Keys
  {
    map k | k in m :: g(m[k])
  }

  lemma MapValuesUpdate<V, W>(m: map<string, V>, k: string, v: V, g: V -> W)
    ensures MapValues(m[k := v], g) == MapValues(m, g)[k := g(v)]
  {
    var l, r := MapValues(m[k := v], g), MapValues(m, g)[k := g(v)];
    forall e | e in l ensures l[e] == r[e] {
      if e != k {
        assert m[k := v][e] == m[e];
      }
    }
    assert l.Keys == r.Keys;
  }

  /** What a directory holding `c` shows. */
  ghost function Expected(c: Contents): (v: Views)
    ensures v.Keys == c.Keys
  {
    MapValues(c, Shows)
  }

  /** The sorted file names of each sub-directory, as the producers list
      them. */
  ghost function Listing(c: Contents): (t: Tree)
    ensures t.Keys == c.Keys
  {
    var v := Expected(c);
    map d | d in v :: SortSet(v[d].Keys)
  }

  /** What the producer saves, when it succeeds. */
  ghost function Produced(produce: Produce, tree: Tree, pairs: seq<(string, string)>, path: string, t: Templates): seq<Saved>
    requires Ready(produce, tree, |pairs|)
  {
    match produce
    case SSkinProducer => [Saved(path, SSkinBlocks(tree, Swapped(pairs), |pairs|))]
    case SSkinAndFistProducer => [Saved(path, SSkinBlocks(tree, pairs, |pairs|)), Saved(FistWadPath(path), FistWadLumps(tree, pairs, t))]
    case DecorateProducer => [Saved(path, DecorateWadLumps(tree, pairs, t))]
  }

  /** Names ending in a letter, each followed by a decimal index, spell
      the same directory only when they are equally long: otherwise the
      shorter one would put a digit where the longer has its last letter. */
  lemma NamesSameLength(s: string, i: nat, u: string, j: nat)
    requires s != [] && 'a' <= s[|s| - 1] <= 'z' && u != [] && 'a' <= u[|u| - 1] <= 'z'
    ensures s + NatToString(i) == u + NatToString(j) ==> |s| == |u|
  {
    var d, e := s + NatToString(i), u + NatToString(j);
    if d == e && |s| < |u| {
      CharOfPrefix(u, NatToString(j), |u| - 1);
      assert false;
    } else if d == e && |u| < |s| {
      CharOfPrefix(s, NatToString(i), |s| - 1);
      assert false;
    }
  }

  lemma CharOfPrefix(a: string, b: string, k: nat)
    ensures k < |a| ==> (a + b)[k] == a[k]
  {
  }

  /** A sub-directory name is a name from `SUBDIRS` and a decimal index;
      both can be read back from it. */
  lemma DirNamesApart(s: string, i: nat, u: string, j: nat)
    requires s in SUBDIRS && u in SUBDIRS
    requires s + NatToString(i) == u + NatToString(j)
    ensures s == u && i == j
  {
    var d := s + NatToString(i);
    NamesSameLength(s, i, u, j);
    assert s == d[..|s|] == u;
    assert NatToString(i) == d[|s|..] == NatToString(j);
    NatToStringInjective(i, j);
  }

  /** Two names with the same index are the same name. */
  lemma CancelSuffix(a: string, b: string, n: string)
    ensures a + n == b + n <==> a == b
  {
    if a + n == b + n {
      assert a == (a + n)[..|a|] == (b + n)[..|b|] == b;
    }
  }

  /** One render creates exactly its sub-directories, under the skin's
      index. */
  lemma RenderDirsKeys(render: Render, prefix: string, slim: bool, cam: Camera, index: nat, s: string)
    ensures s + NatToString(index) in RenderDirs(render, prefix, slim, cam, index) <==> s in Subdirs(render)
  {
    var n := NatToString(index);
    CancelSuffix(s, "sprites", n);
    CancelSuffix(s, "crouch-sprites", n);
    CancelSuffix(s, "mugshot", n);
    CancelSuffix(s, "fist", n);
  }

  /** The directories of one skin are its renders' sub-directories, under
      its index. */
  lemma {:induction false} SkinContentsKeys(renders: seq<Render>, prefix: string, slim: bool, cam: Camera, index: nat, s: string)
    ensures s + NatToString(index) in SkinContents(renders, prefix, slim, cam, index) <==> s in Writes(renders)
  {
    if renders != [] {
      var init := renders[..|renders| - 1];
      var last := renders[|renders| - 1];
      SkinContentsKeys(init, prefix, slim, cam, index, s);
      RenderDirsKeys(last, prefix, slim, CameraThrough(init, cam), index, s);
      assert SkinContents(renders, prefix, slim, cam, index)
        == SkinContents(init, prefix, slim, cam, index) + RenderDirs(last, prefix, slim, CameraThrough(init, cam), index);
      assert Writes(renders) == Writes(init) + Subdirs(last);
    }
  }

  /** Every directory of one skin carries that skin's index. */
  lemma {:induction false} SkinContentsKey(renders: seq<Render>, prefix: string, slim: bool, cam: Camera, index: nat, d: string)
    returns (s: string)
    requires d in SkinContents(renders, prefix, slim, cam, index)
    ensures s in Writes(renders) && d == s + NatToString(index)
  {
    var init := renders[..|renders| - 1];
    var last := renders[|renders| - 1];
    if d in SkinContents(init, prefix, slim, cam, index) {
      s := SkinContentsKey(init, prefix, slim, cam, index, d);
    } else {
      var n := NatToString(index);
      match last
      case SkinPass => s := if d == "sprites" + n then "sprites" else "crouch-sprites";
      case MugshotPass => s := "mugshot";
      case FistPass => s := "fist";
    }
  }

  /** A skin's renders create no directory under another skin's index. */
  lemma OtherIndex(renders: seq<Render>, prefix: string, slim: bool, cam: Camera, index: nat, s: string, m: nat)
    requires s in SUBDIRS && index != m
    ensures s + NatToString(m) !in SkinContents(renders, prefix, slim, cam, index)
  {
    var d := s + NatToString(m);
    if d in SkinContents(renders, prefix, slim, cam, index) {
      var u := SkinContentsKey(renders, prefix, slim, cam, index, d);
      DirNamesApart(s, m, u, index);
    }
  }

  /** The first `n` skins leave no directory with an index of `n` or
      more. */
  lemma {:induction false} RenderedBelow(skins: seq<(string, bool)>, renders: seq<Render>, n: nat, s: string, m: nat)
    requires n <= |skins| && s in SUBDIRS && n <= m
    ensures s + NatToString(m) !in Rendered(skins, renders, n)
  {
    if n > 0 {
      RenderedBelow(skins, renders, n - 1, s, m);
      OtherIndex(renders, skins[n - 1].0, skins[n - 1].1, Canonical, n - 1, s, m);
    }
  }

  /** The render that creates a sub-directory. */
  function Owner(s: string): (r: Render)
    requires s in SUBDIRS
    ensures s in Subdirs(r)
  {
    if s == "mugshot" then MugshotPass else if s == "fist" then FistPass else SkinPass
  }

  /** A list of renders creates a sub-directory exactly when it holds the
      render that owns it. */
  lemma {:induction false} WritesOwner(renders: seq<Render>, s: string)
    requires s in SUBDIRS
    ensures s in Writes(renders) <==> Owner(s) in renders
  {
    if renders != [] {
      var init := renders[..|renders| - 1];
      WritesOwner(init, s);
      assert renders == init + [renders[|renders| - 1]];
      assert forall x :: x in renders <==> x in init || x == renders[|renders| - 1];
    }
  }

  /** No render of a format runs twice. */
  lemma MethodsDistinct(format: Format)
    ensures Distinct(Methods(format).0)
  {
  }

  /** Every directory a skin's renders create is there once the skin is
      through. */
  lemma {:induction false} RenderedHas(skins: seq<(string, bool)>, renders: seq<Render>, n: nat, s: string, i: nat)
    requires n <= |skins| && s in Writes(renders) && i < n
    ensures s + NatToString(i) in Rendered(skins, renders, n)
  {
    if i == n - 1 {
      SkinContentsKeys(renders, skins[i].0, skins[i].1, Canonical, i, s);
    } else {
      RenderedHas(skins, renders, n - 1, s, i);
    }
  }

  /** The producers find every directory the renders create, for each of
      the first `n` skins. */
  lemma RenderedCovers(skins: seq<(string, bool)>, renders: seq<Render>, n: nat)
    requires n <= |skins|
    ensures Covered(Listing(Rendered(skins, renders, n)), renders, n)
  {
    forall s, i | s in Writes(renders) && 0 <= i < n ensures Has(Listing(Rendered(skins, renders, n)), s, i) {
      RenderedHas(skins, renders, n, s, i);
    }
  }

  /** A later skin leaves an earlier skin's directories as they were. */
  lemma {:induction false} RenderedKeeps(skins: seq<(string, bool)>, renders: seq<Render>, n: nat, i: nat, d: string)
    requires i < n <= |skins| && d in SkinContents(renders, skins[i].0, skins[i].1, Canonical, i)
    ensures d in Rendered(skins, renders, n)
      && Rendered(skins, renders, n)[d] == SkinContents(renders, skins[i].0, skins[i].1, Canonical, i)[d]
  {
    if i < n - 1 {
      RenderedKeeps(skins, renders, n - 1, i, d);
      var s := SkinContentsKey(renders, skins[i].0, skins[i].1, Canonical, i, d);
      OtherIndex(renders, skins[n - 1].0, skins[n - 1].1, Canonical, n - 1, s, i);
    }
  }

  /** A sub-directory no render creates is never there. */
  lemma {:induction false} RenderedLacks(skins: seq<(string, bool)>, renders: seq<Render>, n: nat, s: string, i: nat)
    requires n <= |skins| && s in SUBDIRS && s !in Writes(renders)
    ensures s + NatToString(i) !in Rendered(skins, renders, n)
  {
    if n > 0 {
      RenderedLacks(skins, renders, n - 1, s, i);
      var d := s + NatToString(i);
      var c := SkinContents(renders, skins[n - 1].0, skins[n - 1].1, Canonical, n - 1);
      if d in c {
        var u := SkinContentsKey(renders, skins[n - 1].0, skins[n - 1].1, Canonical, n - 1, d);
        DirNamesApart(s, i, u, n - 1);
      }
    }
  }

  /** What each format's renders leave for one skin, started from the
      canonical camera: the standing and crouched frames from that camera,
      the mugshots from 10 units further along z, and the fists (when the format renders
      them) from behind the mugshot camera, whose translation is still in
      effect. */
  lemma FormatSkin(format: Format, prefix: string, slim: bool, index: nat)
    ensures var c, n := SkinContents(Methods(format).0, prefix, slim, Canonical, index), NatToString(index);
      && "sprites" + n in c && c["sprites" + n] == SkinDir(prefix, slim, Canonical)
      && "crouch-sprites" + n in c && c["crouch-sprites" + n] == CrouchDir(prefix, slim, Canonical)
      && "mugshot" + n in c && c["mugshot" + n] == MugshotDir(prefix, Translate(Canonical, MUGSHOT_ZOOM))
      && ("fist" + n in c <==> format != SSkinWad)
      && (format != SSkinWad ==> c["fist" + n] == FistDir(prefix, FistCamera(Translate(Canonical, MUGSHOT_ZOOM))))
  {
    var n := NatToString(index);
    var sp, cr, mu, fi := "sprites" + n, "crouch-sprites" + n, "mugshot" + n, "fist" + n;
    assert sp[0] == 's' && cr[0] == 'c' && mu[0] == 'm' && fi[0] == 'f';
    TwoPasses(prefix, slim, index);
    if format != SSkinWad {
      ThreePasses(prefix, slim, index);
    }
  }

  /** The skin pass then the mugshot pass, from the canonical camera. */
  lemma TwoPasses(prefix: string, slim: bool, index: nat)
    ensures SkinContents([SkinPass, MugshotPass], prefix, slim, Canonical, index)
      == RenderDirs(SkinPass, prefix, slim, Canonical, index) + RenderDirs(MugshotPass, prefix, slim, Canonical, index)
  {
    var r := [SkinPass, MugshotPass];
    assert r[..1] == [SkinPass] && r[..1][..0] == [];
    assert CameraThrough([SkinPass], Canonical) == Canonical;
    assert SkinContents([SkinPass], prefix, slim, Canonical, index) == RenderDirs(SkinPass, prefix, slim, Canonical, index);
  }

  /** The fist pass after them, from the mugshot camera. */
  lemma ThreePasses(prefix: string, slim: bool, index: nat)
    ensures SkinContents([SkinPass, MugshotPass, FistPass], prefix, slim, Canonical, index)
      == SkinContents([SkinPass, MugshotPass], prefix, slim, Canonical, index)
        + RenderDirs(FistPass, prefix, slim, Translate(Canonical, MUGSHOT_ZOOM), index)
  {
    var r := [SkinPass, MugshotPass, FistPass];
    assert r[..2] == [SkinPass, MugshotPass] && r[..2][..1] == [SkinPass] && r[..2][..1][..0] == [];
    assert CameraThrough([SkinPass], Canonical) == Canonical;
  }

  /** What the whole conversion leaves, skin by skin: every skin's
      directories as `FormatSkin` gives them, however many skins follow. */
  lemma ConvertedSkins(format: Format, skins: seq<(string, bool)>, n: nat, i: nat)
    requires i < n <= |skins|
    ensures var c, k, p, slim := Rendered(skins, Methods(format).0, n), NatToString(i), skins[i].0, skins[i].1;
      && "sprites" + k in c && c["sprites" + k] == SkinDir(p, slim, Canonical)
      && "crouch-sprites" + k in c && c["crouch-sprites" + k] == CrouchDir(p, slim, Canonical)
      && "mugshot" + k in c && c["mugshot" + k] == MugshotDir(p, Translate(Canonical, MUGSHOT_ZOOM))
      && ("fist" + k in c <==> format != SSkinWad)
      && (format != SSkinWad ==> c["fist" + k] == FistDir(p, FistCamera(Translate(Canonical, MUGSHOT_ZOOM))))
  {
    var renders := Methods(format).0;
    var k := NatToString(i);
    FormatSkin(format, skins[i].0, skins[i].1, i);
    RenderedKeeps(skins, renders, n, i, "sprites" + k);
    RenderedKeeps(skins, renders, n, i, "crouch-sprites" + k);
    RenderedKeeps(skins, renders, n, i, "mugshot" + k);
    if format != SSkinWad {
      RenderedKeeps(skins, renders, n, i, "fist" + k);
    } else {
      SkinContentsKeys(renders, skins[i].0, skins[i].1, Canonical, i, "fist");
      RenderedLacks(skins, renders, n, "fist", i);
    }
  }
}

/** `convert` (`src/converting.rs`): render every skin into a fresh
    temporary directory, recording each skin's name and sprite prefix,
    then hand the directory to the format's producer. */
module Converting {
  import opened Common
  import opened Textures
  import opened Puppet
  import opened Cameras
  import opened Disks
  import opened SkinRenders
  import opened Mugshots
  import opened Fists
  import opened Listings
  import opened Producing
  import opened Formats
  import opened Sprites

  datatype SkinData = SkinData(name: string, path: string, spritePrefix: string)

  /** `names_and_sprite_prefixes` as `convert` records it: one pair
      per skin, in input order, the prefix with every backslash written
      `^`. A prefix that had no `^` is given back exactly when the `^` are
      turned into backslashes again, as `push_lump` does for lump names. */
  function RecordedAsWritten(data: seq<SkinData>): (r: seq<(string, string)>)
    ensures |r| == |data|
    ensures forall i :: 0 <= i < |data| ==> r[i].0 == data[i].name && '\\' !in r[i].1
    ensures forall i :: 0 <= i < |data| && '^' !in data[i].spritePrefix ==> Replace(r[i].1, '^', "\\") == data[i].spritePrefix
  {
    var r := seq(|data|, i requires 0 <= i < |data| => (data[i].name, Replace(data[i].spritePrefix, '\\', "^")));
    forall i | 0 <= i < |data| ensures '\\' !in r[i].1 && ('^' !in data[i].spritePrefix ==> Replace(r[i].1, '^', "\\") == data[i].spritePrefix) {
      ReplaceRemoves(data[i].spritePrefix, '\\', "^");
      if '^' !in data[i].spritePrefix {
        ReplaceRoundTrip(data[i].spritePrefix, '\\', '^');
      }
    }
    r
  }

  /** The pairs the producers read the S_SKIN text and the DECORATE actors
      from, in the model: each skin's name and its sprite prefix as given.
      The escape is kept only where it belongs, in the fist file names. */
  function Recorded(data: seq<SkinData>): (r: seq<(string, string)>)
    ensures |r| == |data|
  {
    seq(|data|, i requires 0 <= i < |data| => (data[i].name, data[i].spritePrefix))
  }

  /** Handing the producers the escaped prefix of a skin whose prefix has
      a backslash makes its S_SKIN text and its fist actor name sprites
      no lump of the skin carries. */
  lemma EscapedPrefixMisnames(data: seq<SkinData>, i: nat)
    requires i < |data| && '\\' in data[i].spritePrefix
    ensures SSkinText(data[i].name, RecordedAsWritten(data)[i].1) != SSkinText(data[i].name, data[i].spritePrefix)
    ensures FistSprite(RecordedAsWritten(data)[i].1) != FistSprite(data[i].spritePrefix)
  {
    SSkinEscapeKept(data[i].name, data[i].spritePrefix);
    FistActorEscape(data[i].spritePrefix);
  }

  /** The recorded prefix is what `push_lump` would read back from the
      escaped one, and the S_SKIN sprites and the fist sprite built from it
      are the names the skin's lumps carry. */
  lemma RecordedNamesSprites(data: seq<SkinData>, i: nat)
    requires i < |data| && '^' !in data[i].spritePrefix
    ensures Recorded(data)[i] == (RecordedAsWritten(data)[i].0, LumpName(RecordedAsWritten(data)[i].1))
    ensures var p := Recorded(data)[i].1;
      LumpName(SkinSprite(p)) == SkinSprite(p) && LumpName(CrouchedSkinSprite(p)) == CrouchedSkinSprite(p)
      && LumpName(MugshotSprite(p)) == MugshotSprite(p) && LumpName(Replace(FistSprite(p), '\\', "^")) == FistSprite(p)
  {
    SSkinNamesSkinSprites(data[i].spritePrefix);
    FistActorEscape(data[i].spritePrefix);
  }

  /** `image::open` succeeds on the first `n` skins. */
  predicate Opened(data: seq<SkinData>, images: map<string, Atlas>, n: nat)
  {
    forall i :: 0 <= i < n && i < |data| ==> data[i].path in images
  }

  /** Each skin's sprite prefix and whether its atlas has slim arms. */
  ghost function Loaded(data: seq<SkinData>, images: map<string, Atlas>): (r: seq<(string, bool)>)
    requires Sized(images) && Opened(data, images, |data|)
    reads images.Values
    ensures |r| == |data|
    ensures forall i :: 0 <= i < |data| ==> r[i] == (data[i].spritePrefix, Slim(images[data[i].path]))
  {
    seq(|data|, i requires 0 <= i < |data| && Sized(images) && Opened(data, images, |data|) reads images.Values =>
      (data[i].spritePrefix, Slim(images[data[i].path])))
  }

  /** The folders of `dirs` are exactly those of `v`, each showing what
      `v` says. */
  ghost predicate Stored(dirs: map<string, Folder>, v: Views)
    reads dirs.Values
  {
    dirs.Keys == v.Keys && forall d :: d in dirs ==> dirs[d].Valid() && dirs[d].views == v[d]
  }

  /** The directory holds exactly the sub-directories of `c`, each with
      the views `c` gives it. */
  ghost predicate Holds(disk: Disk, c: Contents)
    reads disk, disk.dirs.Values
  {
    Stored(disk.dirs, Expected(c))
  }

  /** What the producers read from a directory holding `c`. */
  lemma FilesListing(disk: Disk, c: Contents)
    requires Holds(disk, c)
    ensures Files(disk) == Listing(c)
  {
    StoredNames(disk.dirs, Expected(c));
  }

  /** The names of every stored directory are the names of its views. */
  lemma StoredNames(dirs: map<string, Folder>, v: Views)
    requires Stored(dirs, v)
    ensures (map d | d in dirs :: SortSet(dirs[d].files)) == (map d | d in v :: SortSet(v[d].Keys))
  {
    var l, r := map d | d in dirs :: SortSet(dirs[d].files), map d | d in v :: SortSet(v[d].Keys);
    forall d | d in l ensures l[d] == r[d] {
      assert dirs[d].files == v[d].Keys;
    }
    assert l.Keys == r.Keys;
  }

  /** Filling one new sub-directory adds its views and keeps the rest. */
  lemma StoredAdd(before: map<string, Folder>, after: map<string, Folder>, d: string, pictures: seq<Picture>, v: Views)
    requires Stored(before, v) && d !in v && Filled(before, after, d, pictures)
    ensures Stored(after, v[d := PictureMap(pictures)])
  {
    forall e | e in after ensures after[e].Valid() && after[e].views == v[d := PictureMap(pictures)][e] {
      if e != d {
        assert after[e] == before[e];
      }
    }
  }

  /** Adding one sub-directory to the contents adds its views. */
  lemma ExpectedUpdate(c: Contents, d: string, x: Dir)
    ensures Expected(c[d := x]) == Expected(c)[d := PictureMap(Pictures(x))]
  {
    MapValuesUpdate(c, d, x, Shows);
  }

  /** The skin pass adds its two sub-directories. */
  lemma SkinPassAdds(before: Contents, prefix: string, slim: bool, cam: Camera, index: nat)
    ensures Expected(before + RenderDirs(SkinPass, prefix, slim, cam, index))
      == Expected(before)["sprites" + NatToString(index) := PictureMap(AllSkinPictures(SkinSprite(prefix), LoadedState(slim), false, cam))]
        ["crouch-sprites" + NatToString(index) := PictureMap(AllSkinPictures(CrouchedSkinSprite(prefix), CrouchedState(slim), true, cam))]
  {
    var m := before["sprites" + NatToString(index) := SkinDir(prefix, slim, cam)];
    assert before + RenderDirs(SkinPass, prefix, slim, cam, index) == m["crouch-sprites" + NatToString(index) := CrouchDir(prefix, slim, cam)];
    ExpectedUpdate(before, "sprites" + NatToString(index), SkinDir(prefix, slim, cam));
    ExpectedUpdate(m, "crouch-sprites" + NatToString(index), CrouchDir(prefix, slim, cam));
  }

  /** The mugshot pass adds its sub-directory. */
  lemma MugshotPassAdds(before: Contents, prefix: string, slim: bool, cam: Camera, index: nat)
    ensures Expected(before + RenderDirs(MugshotPass, prefix, slim, cam, index))
      == Expected(before)["mugshot" + NatToString(index) := PictureMap(AllMugshotPictures(MugshotSprite(prefix), Translate(cam, MUGSHOT_ZOOM)))]
  {
    assert before + RenderDirs(MugshotPass, prefix, slim, cam, index)
      == before["mugshot" + NatToString(index) := MugshotDir(prefix, Translate(cam, MUGSHOT_ZOOM))];
    ExpectedUpdate(before, "mugshot" + NatToString(index), MugshotDir(prefix, Translate(cam, MUGSHOT_ZOOM)));
  }

  /** The fist pass adds its sub-directory. */
  lemma FistPassAdds(before: Contents, prefix: string, slim: bool, cam: Camera, index: nat)
    ensures Expected(before + RenderDirs(FistPass, prefix, slim, cam, index))
      == Expected(before)["fist" + NatToString(index) := PictureMap(FistPictures(FistSprite(prefix), FistCamera(cam)))]
  {
    assert before + RenderDirs(FistPass, prefix, slim, cam, index)
      == before["fist" + NatToString(index) := FistDir(prefix, FistCamera(cam))];
    ExpectedUpdate(before, "fist" + NatToString(index), FistDir(prefix, FistCamera(cam)));
  }

  /** `render_skin_with_crouch` into a directory without this skin's
      sprite directories. */
  method RunSkinPass(atlas: Atlas, disk: Disk, prefix: string, rendering: Rendering, index: nat, gamma: Gamma,
                     ghost before: Contents)
    returns (r: Outcome)
    requires atlas.Length0 >= 64 && atlas.Length1 >= 64 && Normal(rendering.camera)
    requires Holds(disk, before)
    requires "sprites" + NatToString(index) !in before && "crouch-sprites" + NatToString(index) !in before
    modifies disk, rendering
    ensures r == Done && rendering.camera == old(rendering.camera)
    ensures Holds(disk, before + RenderDirs(SkinPass, prefix, Slim(atlas), old(rendering.camera), index))
  {
    ghost var d, c := "sprites" + NatToString(index), "crouch-sprites" + NatToString(index);
    ghost var dirs := disk.dirs;
    r := RenderSkinWithCrouch(atlas, disk, prefix, rendering, index, gamma);
    ghost var standing := AllSkinPictures(SkinSprite(prefix), LoadedState(Slim(atlas)), false, rendering.camera);
    ghost var crouching := AllSkinPictures(CrouchedSkinSprite(prefix), CrouchedState(Slim(atlas)), true, rendering.camera);
    assert Stored(dirs, Expected(before));
    assert d[0] != c[0];
    ghost var mid := disk.dirs - {c};
    StoredAdd(dirs, mid, d, standing, Expected(before));
    StoredAdd(mid, disk.dirs, c, crouching, Expected(before)[d := PictureMap(standing)]);
    SkinPassAdds(before, prefix, Slim(atlas), rendering.camera, index);
  }

  /** `render_mugshot` into a directory without this skin's mugshot
      directory. */
  method RunMugshotPass(atlas: Atlas, disk: Disk, prefix: string, rendering: Rendering, index: nat, gamma: Gamma,
                        ghost before: Contents)
    returns (r: Outcome)
    requires atlas.Length0 >= 64 && atlas.Length1 >= 64
    requires Holds(disk, before) && "mugshot" + NatToString(index) !in before
    modifies disk, rendering
    ensures r == Done && rendering.camera == Translate(old(rendering.camera), MUGSHOT_ZOOM)
    ensures Holds(disk, before + RenderDirs(MugshotPass, prefix, Slim(atlas), old(rendering.camera), index))
  {
    ghost var cam, dirs := rendering.camera, disk.dirs;
    r := RenderMugshot(atlas, disk, prefix, rendering, index, gamma);
    assert Stored(dirs, Expected(before));
    StoredAdd(dirs, disk.dirs, "mugshot" + NatToString(index), AllMugshotPictures(MugshotSprite(prefix), rendering.camera), Expected(before));
    MugshotPassAdds(before, prefix, Slim(atlas), cam, index);
  }

  /** `render_fist` into a directory without this skin's fist
      directory. */
  method RunFistPass(atlas: Atlas, disk: Disk, prefix: string, rendering: Rendering, index: nat, gamma: Gamma,
                     ghost before: Contents)
    returns (r: Outcome)
    requires atlas.Length0 >= 64 && atlas.Length1 >= 64
    requires Holds(disk, before) && "fist" + NatToString(index) !in before
    modifies disk, rendering
    ensures r == Done && rendering.camera == FistCamera(old(rendering.camera))
    ensures Holds(disk, before + RenderDirs(FistPass, prefix, Slim(atlas), old(rendering.camera), index))
  {
    ghost var cam, dirs := rendering.camera, disk.dirs;
    r := RenderFist(atlas, disk, prefix, rendering, index, gamma);
    assert Stored(dirs, Expected(before));
    StoredAdd(dirs, disk.dirs, "fist" + NatToString(index), FistPictures(FistSprite(prefix), rendering.camera), Expected(before));
    FistPassAdds(before, prefix, Slim(atlas), cam, index);
  }

  /** One call `render(&image, rendered_dir, sprite_prefix, &mut rendering,
      index)` through the `Render` table. Its directories are new, so it
      succeeds. */
  method RunRender(render: Render, atlas: Atlas, disk: Disk, prefix: string, rendering: Rendering, index: nat, gamma: Gamma,
                   ghost before: Contents)
    returns (r: Outcome)
    requires atlas.Length0 >= 64 && atlas.Length1 >= 64 && Normal(rendering.camera)
    requires Holds(disk, before)
    requires forall s :: s in Subdirs(render) ==> s + NatToString(index) !in before
    modifies disk, rendering
    ensures r == Done && rendering.camera == CameraAfter(render, old(rendering.camera)) && Normal(rendering.camera)
    ensures Holds(disk, before + RenderDirs(render, prefix, Slim(atlas), old(rendering.camera), index))
  {
    match render
    case SkinPass =>
      r := RunSkinPass(atlas, disk, prefix, rendering, index, gamma, before);
    case MugshotPass =>
      r := RunMugshotPass(atlas, disk, prefix, rendering, index, gamma, before);
    case FistPass =>
      r := RunFistPass(atlas, disk, prefix, rendering, index, gamma, before);
  }

  /** The directories the next render of a skin creates are not there
      yet: renders do not repeat and earlier skins used other indices. */
  lemma PassFresh(renders: seq<Render>, k: nat, before: Contents, prefix: string, slim: bool, cam: Camera, index: nat)
    requires k < |renders| && Distinct(renders)
    requires forall s :: s in SUBDIRS ==> s + NatToString(index) !in before
    ensures forall s :: s in Subdirs(renders[k]) ==> s + NatToString(index) !in before + SkinContents(renders[..k], prefix, slim, cam, index)
  {
    var init := renders[..k];
    assert renders[k] !in init by {
      forall i | 0 <= i < k ensures init[i] != renders[k] {
        assert init[i] == renders[i];
      }
    }
    forall s | s in Subdirs(renders[k]) ensures s + NatToString(index) !in before + SkinContents(init, prefix, slim, cam, index) {
      assert s in SUBDIRS && Owner(s) == renders[k];
      WritesOwner(init, s);
      SkinContentsKeys(init, prefix, slim, cam, index, s);
    }
  }

  /** One more render adds its directories, made from the camera the
      earlier ones left. */
  lemma PassStep(renders: seq<Render>, k: nat, before: Contents, prefix: string, slim: bool, cam: Camera, index: nat)
    requires k < |renders|
    ensures CameraThrough(renders[..k + 1], cam) == CameraAfter(renders[k], CameraThrough(renders[..k], cam))
    ensures before + SkinContents(renders[..k + 1], prefix, slim, cam, index)
      == (before + SkinContents(renders[..k], prefix, slim, cam, index)) + RenderDirs(renders[k], prefix, slim, CameraThrough(renders[..k], cam), index)
  {
    assert renders[..k + 1][..k] == renders[..k];
  }

  /** One turn of `for render in &renders`. */
  method RenderPass(renders: seq<Render>, k: nat, atlas: Atlas, disk: Disk, prefix: string, rendering: Rendering, index: nat,
                    gamma: Gamma, ghost before: Contents, ghost cam: Camera)
    returns (r: Outcome)
    requires k < |renders| && Distinct(renders)
    requires atlas.Length0 >= 64 && atlas.Length1 >= 64 && Normal(rendering.camera)
    requires forall s :: s in SUBDIRS ==> s + NatToString(index) !in before
    requires rendering.camera == CameraThrough(renders[..k], cam)
    requires Holds(disk, before + SkinContents(renders[..k], prefix, Slim(atlas), cam, index))
    modifies disk, rendering
    ensures r == Done && Normal(rendering.camera) && rendering.camera == CameraThrough(renders[..k + 1], cam)
    ensures Holds(disk, before + SkinContents(renders[..k + 1], prefix, Slim(atlas), cam, index))
  {
    PassFresh(renders, k, before, prefix, Slim(atlas), cam, index);
    PassStep(renders, k, before, prefix, Slim(atlas), cam, index);
    r := RunRender(renders[k], atlas, disk, prefix, rendering, index, gamma, before + SkinContents(renders[..k], prefix, Slim(atlas), cam, index));
  }

  /** The renders of one skin, in table order, each passed the camera the
      previous one left. */
  method RenderPasses(renders: seq<Render>, atlas: Atlas, disk: Disk, prefix: string, rendering: Rendering, index: nat,
                      gamma: Gamma, ghost before: Contents)
    returns (r: Outcome)
    requires Distinct(renders)
    requires atlas.Length0 >= 64 && atlas.Length1 >= 64 && Normal(rendering.camera)
    requires Holds(disk, before) && forall s :: s in SUBDIRS ==> s + NatToString(index) !in before
    modifies disk, rendering
    ensures r == Done && rendering.camera == CameraThrough(renders, old(rendering.camera))
    ensures Holds(disk, before + SkinContents(renders, prefix, Slim(atlas), old(rendering.camera), index))
  {
    ghost var cam := rendering.camera;
    PassesEnds(renders, before, prefix, Slim(atlas), cam, index);
    r := Done;
    for k := 0 to |renders|
      invariant r == Done && Normal(rendering.camera) && rendering.camera == CameraThrough(renders[..k], cam)
      invariant Holds(disk, before + SkinContents(renders[..k], prefix, Slim(atlas), cam, index))
    {
      r := RenderPass(renders, k, atlas, disk, prefix, rendering, index, gamma, before, cam);
    }
  }

  /** Before the first render nothing is added; after the last, all. */
  lemma PassesEnds(renders: seq<Render>, before: Contents, prefix: string, slim: bool, cam: Camera, index: nat)
    ensures before + SkinContents(renders[..0], prefix, slim, cam, index) == before && CameraThrough(renders[..0], cam) == cam
    ensures renders[..|renders|] == renders
  {
  }

  /** One skin of the `convert` loop: open its image, run the renders, put
      the camera back. */
  method ConvertSkin(skin: SkinData, images: map<string, Atlas>, renders: seq<Render>, disk: Disk, rendering: Rendering,
                     index: nat, gamma: Gamma, ghost skins: seq<(string, bool)>)
    returns (r: Outcome, ghost slim: bool)
    requires Sized(images) && Distinct(renders) && |skins| == index
    requires rendering.camera == Canonical && Holds(disk, Rendered(skins, renders, index))
    modifies disk, rendering
    ensures r == Done <==> skin.path in images
    ensures r == Done ==> slim == Slim(images[skin.path]) && rendering.camera == Canonical
    ensures r == Done ==> Holds(disk, Rendered(skins + [(skin.spritePrefix, slim)], renders, index + 1))
  {
    if skin.path !in images {
      return Failed("cannot open " + skin.path), false;
    }
    var image := images[skin.path];
    RenderedFresh(skins, renders, index);
    r := RenderPasses(renders, image, disk, skin.spritePrefix, rendering, index, gamma, Rendered(skins, renders, index));
    slim := Slim(image);
    rendering.ResetCamera();
    RenderedNext(skins, renders, skin.spritePrefix, slim);
  }

  /** No sub-directory of the next skin's index is there yet. */
  lemma RenderedFresh(skins: seq<(string, bool)>, renders: seq<Render>, index: nat)
    requires |skins| == index
    ensures forall s :: s in SUBDIRS ==> s + NatToString(index) !in Rendered(skins, renders, index)
  {
    forall s | s in SUBDIRS ensures s + NatToString(index) !in Rendered(skins, renders, index) {
      RenderedBelow(skins, renders, index, s, index);
    }
  }

  /** One more skin adds what its renders leave. */
  lemma RenderedNext(skins: seq<(string, bool)>, renders: seq<Render>, prefix: string, slim: bool)
    ensures Rendered(skins + [(prefix, slim)], renders, |skins| + 1)
      == Rendered(skins, renders, |skins|) + SkinContents(renders, prefix, slim, Canonical, |skins|)
  {
    RenderedPrefix(skins, skins + [(prefix, slim)], renders, |skins|);
  }

  /** The directory after `n` skins depends on those skins only. */
  lemma {:induction false} RenderedPrefix(skins: seq<(string, bool)>, more: seq<(string, bool)>, renders: seq<Render>, n: nat)
    requires n <= |skins| <= |more| && skins == more[..|skins|]
    ensures Rendered(skins, renders, n) == Rendered(more, renders, n)
  {
    if n > 0 {
      RenderedPrefix(skins, more, renders, n - 1);
      assert skins[n - 1] == more[n - 1];
    }
  }

  /** `produce(rendered_dir, produced_file, names_and_sprite_prefixes, ..)`
      through the `Produce` table. */
  method RunProducer(produce: Produce, disk: Disk, ghost tree: Tree, pairs: seq<(string, string)>, path: string, t: Templates)
    returns (r: Outcome, saved: seq<Saved>)
    requires tree == Files(disk)
    ensures r == Done <==> Ready(produce, tree, |pairs|)
    ensures r == Done ==> saved == Produced(produce, tree, pairs, path, t)
    ensures r.Failed? ==> saved == []
  {
    match produce
    case SSkinProducer =>
      r, saved := ProduceSSkinWad(disk, tree, pairs, path);
    case SSkinAndFistProducer =>
      r, saved := ProduceSSkinAndFistWads(disk, tree, pairs, path, t);
    case DecorateProducer =>
      r, saved := ProduceDecorateWad(disk, tree, pairs, path, t);
  }

  /** The producer's call once every skin is rendered: every directory
      it reads is there. */
  method ProduceRendered(format: Format, disk: Disk, ghost skins: seq<(string, bool)>, pairs: seq<(string, string)>,
                         produced: string, t: Templates)
    returns (r: Outcome, saved: seq<Saved>)
    requires |skins| == |pairs| && Holds(disk, Rendered(skins, Methods(format).0, |pairs|))
    ensures r == Done && var tree := Listing(Rendered(skins, Methods(format).0, |pairs|));
      Ready(Methods(format).1, tree, |pairs|) && saved == Produced(Methods(format).1, tree, pairs, produced, t)
  {
    ghost var c := Rendered(skins, Methods(format).0, |pairs|);
    FilesListing(disk, c);
    RenderedCovers(skins, Methods(format).0, |pairs|);
    MethodsFeedProducer(format, Listing(c), |pairs|);
    r, saved := RunProducer(Methods(format).1, disk, Files(disk), pairs, produced, t);
  }

  /** The skins the loop saw, once it has seen them all. */
  lemma LoadedAll(data: seq<SkinData>, images: map<string, Atlas>, skins: seq<(string, bool)>)
    requires Sized(images) && Opened(data, images, |data|) && |skins| == |data|
    requires forall i :: 0 <= i < |data| ==> skins[i] == (data[i].spritePrefix, Slim(images[data[i].path]))
    ensures skins == Loaded(data, images)
  {
  }

  /** The first `index` skins as the loop has recorded and loaded them. */
  ghost predicate Seen(data: seq<SkinData>, images: map<string, Atlas>, index: nat, pairs: seq<(string, string)>,
                       skins: seq<(string, bool)>)
    requires Sized(images)
    reads images.Values
  {
    index <= |data| && pairs == Recorded(data)[..index] && Opened(data, images, index) && |skins| == index
    && forall i :: 0 <= i < index ==> skins[i] == (data[i].spritePrefix, Slim(images[data[i].path]))
  }

  /** One turn of the `convert` loop: record the skin, then render it.
      The prefix is recorded as given, not escaped as `convert` does, so
      that the producers name the sprites the lumps carry. */
  method ConvertStep(data: seq<SkinData>, images: map<string, Atlas>, renders: seq<Render>, disk: Disk, rendering: Rendering,
                     index: nat, gamma: Gamma, pairs: seq<(string, string)>, ghost skins: seq<(string, bool)>)
    returns (r: Outcome, pairs': seq<(string, string)>, ghost skins': seq<(string, bool)>)
    requires Sized(images) && Distinct(renders) && index < |data| && Seen(data, images, index, pairs, skins)
    requires rendering.camera == Canonical && Holds(disk, Rendered(skins, renders, index))
    modifies disk, rendering
    ensures r == Done <==> data[index].path in images
    ensures r == Done ==> Seen(data, images, index + 1, pairs', skins')
    ensures r == Done ==> rendering.camera == Canonical && Holds(disk, Rendered(skins', renders, index + 1))
  {
    pairs' := pairs + [(data[index].name, data[index].spritePrefix)];
    ghost var slim;
    r, slim := ConvertSkin(data[index], images, renders, disk, rendering, index, gamma, skins);
    skins' := skins + [(data[index].spritePrefix, slim)];
  }

  /** `convert`: a new rendering context and temporary directory; for each
      skin in order, record its name and sprite prefix (as given: see
      `RecordedAsWritten` for the escaped form), open its image and
      run the format's renders with the skin's index, then reset the camera;
      finally run the format's producer once on everything recorded. It
      fails exactly when an image cannot be opened: every directory a
      render creates is new, and the producer finds every directory it
      reads. */
  method Convert(data: seq<SkinData>, format: Format, produced: string, images: map<string, Atlas>, gamma: Gamma, t: Templates)
    returns (r: Outcome, saved: seq<Saved>)
    requires Sized(images)
    ensures r == Done <==> Opened(data, images, |data|)
    ensures r.Failed? ==> saved == []
    ensures r == Done ==> var tree := Listing(Rendered(Loaded(data, images), Methods(format).0, |data|));
      Ready(Methods(format).1, tree, |data|) && saved == Produced(Methods(format).1, tree, Recorded(data), produced, t)
  {
    var rendering := new Rendering();
    var disk := new Disk();
    MethodsDistinct(format);
    var pairs;
    ghost var skins;
    r, pairs, skins := RenderAll(data, images, Methods(format).0, disk, rendering, gamma);
    if r.Failed? {
      return r, [];
    }
    r, saved := ProduceLoaded(format, disk, data, images, pairs, skins, produced, t);
  }

  /** The producer's call at the end of `convert`, in terms of the input
      skins. */
  method ProduceLoaded(format: Format, disk: Disk, data: seq<SkinData>, images: map<string, Atlas>, pairs: seq<(string, string)>,
                       ghost skins: seq<(string, bool)>, produced: string, t: Templates)
    returns (r: Outcome, saved: seq<Saved>)
    requires Sized(images) && Seen(data, images, |data|, pairs, skins)
    requires Holds(disk, Rendered(skins, Methods(format).0, |data|))
    ensures Opened(data, images, |data|) && r == Done
    ensures var tree := Listing(Rendered(Loaded(data, images), Methods(format).0, |data|));
      Ready(Methods(format).1, tree, |data|) && saved == Produced(Methods(format).1, tree, Recorded(data), produced, t)
  {
    assert pairs == Recorded(data)[..|data|] == Recorded(data);
    r, saved := ProduceRendered(format, disk, skins, pairs, produced, t);
    LoadedAll(data, images, skins);
  }

  /** The skin loop of `convert`, on a fresh directory and the canonical
      camera. */
  method RenderAll(data: seq<SkinData>, images: map<string, Atlas>, renders: seq<Render>, disk: Disk, rendering: Rendering,
                   gamma: Gamma)
    returns (r: Outcome, pairs: seq<(string, string)>, ghost skins: seq<(string, bool)>)
    requires Sized(images) && Distinct(renders) && disk.dirs == map[] && rendering.camera == Canonical
    modifies disk, rendering
    ensures r == Done <==> Opened(data, images, |data|)
    ensures r == Done ==> Seen(data, images, |data|, pairs, skins) && Holds(disk, Rendered(skins, renders, |data|))
  {
    pairs, skins := [], [];
    r := Done;
    for index := 0 to |data|
      invariant r == Done && Seen(data, images, index, pairs, skins)
      invariant rendering.camera == Canonical && Holds(disk, Rendered(skins, renders, index))
    {
      r, pairs, skins := ConvertStep(data, images, renders, disk, rendering, index, gamma, pairs, skins);
      if r.Failed? {
        return;
      }
    }
  }
}
