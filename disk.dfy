/** The temporary directory the renders write into and the producers read
    back. Each sub-directory holds a set of file names; the pixels of a
    saved picture are not modelled, only what it shows: the camera and the
    pose of the parts in front of it at the moment of the capture. */
module Disks {
  import opened Common
  import opened Cameras
  import opened Geometry
  import opened Puppet

  /** `anyhow::Result<()>`: success, or the context message of the error. */
  datatype Outcome = Done | Failed(msg: string)

  /** What a capture shows: a whole skin, or one limb with its trim (the
      head and helmet of a mugshot, the arm and sleeve of a fist), or the
      six prisms of `src/convert.rs` by their transformations. */
  datatype Shot = Body(skin: SkinState) | Pair(part: PartState, trim: PartState) | Figure(prisms: seq<Placement>)

  /** What a capture of one limb and its trim shows: the head and helmet
      of a mugshot, or the arm and sleeve of a fist. */
  ghost function PairOf(part: Limb, trim: Trim): (r: Shot)
    reads part, trim
    ensures r.Pair? && r.part == part.State() && r.trim == trim.State()
  {
    Pair(part.State(), trim.State())
  }

  datatype View = View(camera: Camera, shot: Shot)

  /** One `save` call: the file name and what the picture shows. */
  datatype Picture = Picture(file: string, view: View)

  /** The directory contents after saving `ps` in order into an empty
      directory: a later file of the same name replaces an earlier one. */
  function PictureMap(ps: seq<Picture>): map<string, View>
  {
    if ps == [] then map[] else PictureMap(ps[..|ps| - 1])[ps[|ps| - 1].file := ps[|ps| - 1].view]
  }

  function Names(ps: seq<Picture>): (r: seq<string>)
    ensures |r| == |ps| && forall i :: 0 <= i < |ps| ==> r[i] == ps[i].file
  {
    seq(|ps|, i requires 0 <= i < |ps| => ps[i].file)
  }

  /** Saving one more picture adds (or replaces) one file. */
  lemma PictureMapSnoc(ps: seq<Picture>, p: Picture)
    ensures PictureMap(ps + [p]) == PictureMap(ps)[p.file := p.view]
  {
    assert (ps + [p])[..|ps|] == ps;
  }

  /** Saving picture `i` of `ps` after `before` and the first `i` ones. */
  lemma PictureMapStep(before: seq<Picture>, ps: seq<Picture>, i: nat)
    requires i < |ps|
    ensures PictureMap(before + ps[..i + 1]) == PictureMap(before + ps[..i])[ps[i].file := ps[i].view]
  {
    assert before + ps[..i + 1] == (before + ps[..i]) + [ps[i]];
    PictureMapSnoc(before + ps[..i], ps[i]);
  }

  /** The saved files are exactly the pictures' names. */
  lemma {:induction false} PictureMapKeys(ps: seq<Picture>)
    ensures forall f :: f in PictureMap(ps) <==> f in Names(ps)
  {
    if ps != [] {
      var init := ps[..|ps| - 1];
      PictureMapKeys(init);
      assert Names(ps) == Names(init) + [ps[|ps| - 1].file];
    }
  }

  /** A file shows the last picture saved under its name. */
  lemma {:induction false} PictureMapLast(ps: seq<Picture>, i: nat)
    requires i < |ps|
    requires forall j :: i < j < |ps| ==> ps[j].file != ps[i].file
    ensures ps[i].file in PictureMap(ps) && PictureMap(ps)[ps[i].file] == ps[i].view
  {
    if i < |ps| - 1 {
      var init := ps[..|ps| - 1];
      PictureMapLast(init, i);
    }
  }

  /** With distinct names no picture is overwritten: the directory holds as
      many files as pictures were saved. */
  lemma {:induction false} PictureMapSize(ps: seq<Picture>)
    requires Distinct(Names(ps))
    ensures |PictureMap(ps)| == |ps|
  {
    if ps != [] {
      var init := ps[..|ps| - 1];
      assert Names(ps) == Names(init) + [ps[|ps| - 1].file];
      assert Distinct(Names(init)) by {
        forall i, j | 0 <= i < j < |init| ensures Names(init)[i] != Names(init)[j] {
          assert Names(ps)[i] != Names(ps)[j];
        }
      }
      PictureMapSize(init);
      PictureMapKeys(init);
      assert ps[|ps| - 1].file !in Names(init);
    }
  }

  /** A render filled the sub-directory `name` with exactly what saving
      `pictures` in order leaves behind; no other sub-directory changed. */
  ghost predicate Filled(before: map<string, Folder>, after: map<string, Folder>, name: string, pictures: seq<Picture>)
    reads if name in after then {after[name]} else {}
  {
    name in after && after == before[name := after[name]]
    && after[name].Valid() && after[name].views == PictureMap(pictures)
  }

  /** One sub-directory: the names of its files, and what each shows. */
  class Folder {
    var files: set<string>
    ghost var views: map<string, View>

    ghost predicate Valid()
      reads this
    {
      files == views.Keys
    }

    /** A directory just made by `std::fs::create_dir`: empty. */
    constructor ()
      ensures Valid() && views == map[]
    {
      files := {};
      views := map[];
    }

    /** `three_d_asset::io::save` of one capture into this directory; a
        file of the same name is replaced. */
    method Save(file: string, ghost view: View)
      requires Valid()
      modifies this
      ensures Valid() && views == old(views)[file := view]
    {
      files := files + {file};
      views := views[file := view];
    }

    /** `std::fs::read_dir`: the names of the files, each once, in an
        order the program does not rely on. */
    method ReadDir() returns (names: seq<string>)
      ensures Distinct(names) && forall f :: f in names <==> f in files
    {
      var rest := files;
      names := [];
      while rest != {}
        invariant forall f :: f in names ==> f !in rest
        invariant forall f :: f in files <==> f in rest || f in names
        invariant Distinct(names)
        decreases |rest|
      {
        var name :| name in rest;
        names := names + [name];
        rest := rest - {name};
      }
    }
  }

  /** The temporary directory: its sub-directories by name. */
  class Disk {
    var dirs: map<string, Folder>

    /** `tempdir()`: an empty directory. */
    constructor ()
      ensures dirs == map[]
    {
      dirs := map[];
    }

    /** `create_subdir`: `std::fs::create_dir` of `{subdir}{index}`, which
        fails when the directory already exists. */
    method CreateSubdir(subdir: string, index: nat) returns (r: Result<Folder>)
      modifies this
      ensures var d := subdir + NatToString(index);
        if d in old(dirs) then r == Err("subdirectory " + d) && dirs == old(dirs)
        else r.Ok? && fresh(r.value) && r.value.Valid() && r.value.views == map[] && dirs == old(dirs)[d := r.value]
    {
      var d := subdir + NatToString(index);
      if d in dirs {
        r := Err("subdirectory " + d);
      } else {
        var folder := new Folder();
        dirs := dirs[d := folder];
        r := Ok(folder);
      }
    }

    /** The `read_dir` of `{subdir}{index}` with its error context. */
    method OpenSubdir(subdir: string, index: nat) returns (r: Result<Folder>)
      ensures var d := subdir + NatToString(index);
        if d in dirs then r == Ok(dirs[d]) else r == Err("subdirectory " + d)
    {
      var d := subdir + NatToString(index);
      if d in dirs {
        r := Ok(dirs[d]);
      } else {
        r := Err("subdirectory " + d);
      }
    }

    /** `std::fs::read_dir` of the sub-directory `d` itself, whose error
        carries no context. */
    method OpenDir(d: string) returns (r: Result<Folder>)
      ensures if d in dirs then r == Ok(dirs[d]) else r.Err?
    {
      if d in dirs {
        r := Ok(dirs[d]);
      } else {
        r := Err("No such file or directory (os error 2)");
      }
    }
  }
}
