/** `SpritePrefix` (`src/converting.rs`): the sprite names each render
    derives from the four-character prefix a user gives a skin. */
module Sprites {
  import opened Common

  /** The sprite of the standing skin frames. */
  function SkinSprite(prefix: string): (r: string)
    ensures |r| == |prefix| + 1 && r[..|prefix|] == prefix && r[|prefix|] == ']'
  {
    prefix + "]"
  }

  /** The sprite of the crouched skin frames. */
  function CrouchedSkinSprite(prefix: string): (r: string)
    ensures |r| == |prefix| + 1 && r[..|prefix|] == prefix && r[|prefix|] == '['
  {
    prefix + "["
  }

  /** The mugshots are named by the bare prefix. */
  function MugshotSprite(prefix: string): (r: string)
    ensures r == prefix
  {
    prefix
  }

  /** The sprite of the fist frames. */
  function FistSprite(prefix: string): (r: string)
    ensures |r| == |prefix| + 1 && r[..|prefix|] == prefix && r[|prefix|] == '\\'
  {
    prefix + "\\"
  }

  /** The prefix between double quotes, as the `S_SKIN` lumps write it. */
  function Quoted(s: string): (r: string)
    ensures |r| == |s| + 2 && r[0] == '"' && r[|r| - 1] == '"' && r[1..|r| - 1] == s
  {
    "\"" + s + "\""
  }

  /** Each sprite family is a different sprite, and within a family the
      prefix can be read back: two prefixes give the same sprite only when
      they are equal. */
  lemma SpritesApart(p: string, q: string)
    ensures SkinSprite(p) != CrouchedSkinSprite(q) && SkinSprite(p) != FistSprite(q) && CrouchedSkinSprite(p) != FistSprite(q)
    ensures SkinSprite(p) == SkinSprite(q) ==> p == q
    ensures CrouchedSkinSprite(p) == CrouchedSkinSprite(q) ==> p == q
    ensures FistSprite(p) == FistSprite(q) ==> p == q
  {
    if |p| == |q| {
      assert SkinSprite(p)[|p|] != CrouchedSkinSprite(q)[|q|];
      assert SkinSprite(p)[|p|] != FistSprite(q)[|q|];
      assert CrouchedSkinSprite(p)[|p|] != FistSprite(q)[|q|];
    }
  }

  /** The file names of the fists carry `^` wherever the fist sprite has a
      backslash, its own and any in the prefix; the WAD producers map each
      `^` back. For any prefix free of `^` the escape is undone exactly and
      no backslash reaches the file system. */
  lemma FistSpriteEscape(prefix: string)
    requires '^' !in prefix
    ensures Replace(FistSprite(prefix), '\\', "^") == Replace(prefix, '\\', "^") + "^"
    ensures '\\' !in Replace(FistSprite(prefix), '\\', "^")
    ensures Replace(Replace(FistSprite(prefix), '\\', "^"), '^', "\\") == FistSprite(prefix)
  {
    ReplaceAppend(prefix, "\\", '\\', "^");
    assert Replace("\\", '\\', "^") == "^" + Replace([], '\\', "^");
    ReplaceRemoves(FistSprite(prefix), '\\', "^");
    assert '^' !in FistSprite(prefix);
    ReplaceRoundTrip(FistSprite(prefix), '\\', '^');
  }

  /** A string without the pattern is left as it is. */
  lemma {:induction false} ReplaceFree(s: string, from: char, to: string)
    requires from !in s
    ensures Replace(s, from, to) == s
  {
    if s != [] {
      assert from !in s[1..] by {
        forall i | 0 <= i < |s[1..]| ensures s[1..][i] != from { assert s[1..][i] == s[i + 1]; }
      }
      ReplaceFree(s[1..], from, to);
      assert s == [s[0]] + s[1..];
    }
  }
}
