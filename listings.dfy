/** Directory listings as the producers read them back: `read_dir`, then
    `Vec::sort` on the paths (Rust's `String` order, lexicographic), then
    `Path::file_stem` of each. */
module Listings {
  import opened Common

  /** `a < b` in Rust's `str` order: compare character by character, a
      proper prefix comes first. (On `char` this is the order of code
      points, which is also the order of their UTF-8 bytes.) */
  predicate Below(a: string, b: string)
    decreases |a|
  {
    if a == [] then b != []
    else b != [] && (a[0] < b[0] || (a[0] == b[0] && Below(a[1..], b[1..])))
  }

  lemma {:induction false} BelowIrreflexive(a: string)
    ensures !Below(a, a)
    decreases |a|
  {
    if a != [] {
      BelowIrreflexive(a[1..]);
    }
  }

  lemma {:induction false} BelowTransitive(a: string, b: string, c: string)
    requires Below(a, b) && Below(b, c)
    ensures Below(a, c)
    decreases |a|
  {
    if a != [] && a[0] == b[0] && b[0] == c[0] {
      BelowTransitive(a[1..], b[1..], c[1..]);
    }
  }

  /** Any two different strings are ordered one way or the other. */
  lemma {:induction false} BelowTotal(a: string, b: string)
    requires a != b
    ensures Below(a, b) || Below(b, a)
    decreases |a|
  {
    if a != [] && b != [] && a[0] == b[0] {
      assert a == [a[0]] + a[1..] && b == [b[0]] + b[1..];
      BelowTotal(a[1..], b[1..]);
    }
  }

  lemma BelowAsymmetric(a: string, b: string)
    requires Below(a, b)
    ensures !Below(b, a)
  {
    if Below(b, a) {
      BelowTransitive(a, b, a);
      BelowIrreflexive(a);
    }
  }

  /** `read_dir` yields full paths, all starting with the same directory;
      sorting them orders them as their file names. */
  lemma {:induction false} BelowCommonPrefix(p: string, a: string, b: string)
    ensures Below(p + a, p + b) <==> Below(a, b)
    decreases |p|
  {
    if p != [] {
      assert (p + a)[0] == (p + b)[0] == p[0];
      assert (p + a)[1..] == p[1..] + a && (p + b)[1..] == p[1..] + b;
      BelowCommonPrefix(p[1..], a, b);
    } else {
      assert p + a == a && p + b == b;
    }
  }

  /** Strictly increasing, hence without repetition: the head is below
      everything after it, and so on down the sequence. */
  predicate StrictlySorted(s: seq<string>)
    decreases |s|
  {
    s == [] || ((forall y :: y in s[1..] ==> Below(s[0], y)) && StrictlySorted(s[1..]))
  }

  /** A sequence whose every element is below every later one is
      strictly sorted. */
  lemma {:induction false} PairwiseSorted(s: seq<string>)
    requires forall i, j :: 0 <= i < j < |s| ==> Below(s[i], s[j])
    ensures StrictlySorted(s)
    decreases |s|
  {
    if s != [] {
      forall y | y in s[1..] ensures Below(s[0], y) {
        var k :| 0 <= k < |s[1..]| && s[1..][k] == y;
        assert s[k + 1] == y;
      }
      PairwiseSorted(s[1..]);
    }
  }

  /** `x` inserted before the first element that is not below it. */
  function Insert(x: string, s: seq<string>): seq<string>
  {
    if s == [] then [x]
    else if Below(s[0], x) then [s[0]] + Insert(x, s[1..])
    else [x] + s
  }

  /** Inserting a new element into a strictly sorted sequence keeps it
      strictly sorted and adds exactly that element. */
  lemma {:induction false} InsertSorted(x: string, s: seq<string>)
    requires StrictlySorted(s) && x !in s
    ensures StrictlySorted(Insert(x, s))
    ensures forall y :: y in Insert(x, s) <==> y == x || y in s
  {
    if s != [] {
      assert s == [s[0]] + s[1..];
      if Below(s[0], x) {
        InsertSorted(x, s[1..]);
        assert Insert(x, s)[1..] == Insert(x, s[1..]);
      } else {
        BelowTotal(x, s[0]);
        forall y | y in s[1..] ensures Below(x, y) {
          BelowTransitive(x, s[0], y);
        }
        assert Insert(x, s)[1..] == s;
      }
    }
  }

  lemma HeadIn(s: seq<string>)
    requires s != []
    ensures s[0] in s
  {
  }

  /** Two strictly sorted sequences with the same elements are equal: the
      sorted listing of a directory does not depend on the order
      `read_dir` produced. */
  lemma {:induction false} SortedUnique(a: seq<string>, b: seq<string>)
    requires StrictlySorted(a) && StrictlySorted(b)
    requires forall x :: x in a <==> x in b
    ensures a == b
    decreases |a|
  {
    if a != [] && b != [] {
      assert a == [a[0]] + a[1..] && b == [b[0]] + b[1..];
      assert a[0] in a && b[0] in b;
      if a[0] != b[0] {
        assert a[0] in b[1..] && b[0] in a[1..];
        BelowAsymmetric(a[0], b[0]);
      }
      forall x ensures x in a[1..] <==> x in b[1..] {
        BelowIrreflexive(a[0]);
        if x in a[1..] {
          assert x in b && x != b[0];
        }
        if x in b[1..] {
          assert x in a && x != a[0];
        }
      }
      SortedUnique(a[1..], b[1..]);
    } else if a != [] {
      HeadIn(a);
    } else if b != [] {
      HeadIn(b);
    }
  }

  /** The files of a directory in sorted order. */
  ghost function SortSet(files: set<string>): (r: seq<string>)
    decreases |files|
  {
    if files == {} then []
    else
      var x :| x in files;
      Insert(x, SortSet(files - {x}))
  }

  /** `SortSet` lists every file exactly once, in increasing order. */
  lemma {:induction false} SortSetSorted(files: set<string>)
    ensures StrictlySorted(SortSet(files))
    ensures forall f :: f in SortSet(files) <==> f in files
    decreases |files|
  {
    if files != {} {
      var x :| x in files && SortSet(files) == Insert(x, SortSet(files - {x}));
      SortSetSorted(files - {x});
      InsertSorted(x, SortSet(files - {x}));
    }
  }

  /** `paths.sort()` on the names `read_dir` returned, which never repeat. */
  method SortPaths(a: seq<string>) returns (b: seq<string>)
    requires Distinct(a)
    ensures StrictlySorted(b) && forall x :: x in b <==> x in a
  {
    b := [];
    for i := 0 to |a|
      invariant StrictlySorted(b) && forall x :: x in b <==> x in a[..i]
    {
      assert a[..i + 1] == a[..i] + [a[i]];
      assert a[i] !in a[..i];
      InsertSorted(a[i], b);
      b := Insert(a[i], b);
    }
    assert a[..|a|] == a;
  }

  /** The position of the last `'.'`, if any. */
  function LastDot(s: string): (r: Option<nat>)
    ensures r.Some? ==> r.value < |s| && s[r.value] == '.' && '.' !in s[r.value + 1..]
    ensures r.None? ==> '.' !in s
  {
    if s == [] then None
    else if s[|s| - 1] == '.' then Some(|s| - 1)
    else
      var r := LastDot(s[..|s| - 1]);
      assert s == s[..|s| - 1] + [s[|s| - 1]];
      if r.Some? then
        assert s[r.value + 1..] == s[..|s| - 1][r.value + 1..] + [s[|s| - 1]];
        r
      else r
  }

  /** `Path::file_stem` of a plain file name: everything before the last
      `'.'`, or the whole name when it has no `'.'` or only a leading one. */
  function Stem(file: string): string
  {
    match LastDot(file)
    case None => file
    case Some(k) => if k == 0 then file else file[..k]
  }

  /** The stem of `{base}.png` is `base`, when `base` is not empty. */
  lemma StemPng(base: string)
    requires base != []
    ensures Stem(base + ".png") == base
  {
    var f := base + ".png";
    var k := |base|;
    assert f[k] == '.' && f[k + 1..] == "png";
    assert LastDot(f) == Some(k) by {
      assert f[..|f| - 1] == base + ".pn" && f[..|f| - 2] == base + ".p" && f[..|f| - 3] == base + ".";
    }
    assert f[..k] == base;
  }
}
