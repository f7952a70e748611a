/** The atlas-region algebra of a Minecraft skin: a `Patch` names the front
    face of a cuboid inside the 64x64 skin atlas, and the other five faces are
    found by fixed offsets from it. The same arithmetic appears in
    `src/rendering.rs`, `src/minecraft.rs` and `src/convert.rs`; it is defined
    once here, with one constant table per file. */
module Patches {

  /** The six faces of a cuboid, in the order every loader visits them. */
  datatype Direction = Front | Right | Back | Left | Top | Bottom

  const Directions: seq<Direction> := [Front, Right, Back, Left, Top, Bottom]

  /** A rectangle `(x, y, width, height)` of the atlas together with the
      extent `depth` of the cuboid along the face normal. The fields are
      `u32` in the program. */
  datatype Patch = Patch(x: nat, y: nat, width: nat, height: nat, depth: nat)

  /** The `u32` subtractions of `as_left`, `as_top` and `as_bottom` stay
      non-negative exactly when this holds. */
  predicate Unfoldable(p: Patch)
  {
    p.x >= p.depth && p.y >= p.depth
  }

  function AsRight(p: Patch): Patch
  {
    Patch(p.x + p.width, p.y, p.depth, p.height, p.width)
  }

  function AsBack(p: Patch): Patch
  {
    Patch(p.x + p.width + p.depth, p.y, p.width, p.height, p.depth)
  }

  function AsLeft(p: Patch): Patch
    requires p.x >= p.depth
  {
    Patch(p.x - p.depth, p.y, p.depth, p.height, p.width)
  }

  function AsTop(p: Patch): Patch
    requires p.y >= p.depth
  {
    Patch(p.x, p.y - p.depth, p.width, p.depth, p.height)
  }

  function AsBottom(p: Patch): Patch
    requires p.y >= p.depth
  {
    Patch(p.x + p.width, p.y - p.depth, p.width, p.depth, p.height)
  }

  /** The atlas rectangle of one face: the patch itself for the front, and
      the derived patch for the others. */
  function FacePatch(p: Patch, dir: Direction): Patch
    requires Unfoldable(p)
  {
    match dir
    case Front => p
    case Right => AsRight(p)
    case Back => AsBack(p)
    case Left => AsLeft(p)
    case Top => AsTop(p)
    case Bottom => AsBottom(p)
  }

  /** The rectangle of `p` lies inside a `w` by `h` atlas. */
  predicate InAtlas(p: Patch, w: nat, h: nat)
  {
    p.x + p.width <= w && p.y + p.height <= h
  }

  /** All six face rectangles lie inside a `w` by `h` atlas. */
  predicate NetInAtlas(p: Patch, w: nat, h: nat)
  {
    Unfoldable(p) && forall dir :: InAtlas(FacePatch(p, dir), w, h)
  }

  /** Two rectangles share no atlas cell. */
  predicate Disjoint(a: Patch, b: Patch)
  {
    a.x + a.width <= b.x || b.x + b.width <= a.x || a.y + a.height <= b.y || b.y + b.height <= a.y
  }

  /** The derived faces unfold the cuboid into the standard skin net:
      left, front, right and back tile one contiguous row of height
      `height`, top and bottom sit side by side directly above the front and
      the right face, and every face has the extents of the cuboid side it
      covers (its `depth` is the cuboid extent along its normal). */
  lemma NetLayout(p: Patch)
    requires Unfoldable(p)
    ensures var l, r, b := AsLeft(p), AsRight(p), AsBack(p);
      l.x + l.width == p.x && r.x == p.x + p.width && b.x == r.x + r.width
      && l.y == p.y == r.y == b.y && l.height == p.height == r.height == b.height
      && l.width == r.width == p.depth && b.width == p.width
      && l.depth == r.depth == p.width && b.depth == p.depth
    ensures var t, m := AsTop(p), AsBottom(p);
      t.y + t.height == p.y && m.y == t.y && t.x == p.x && m.x == t.x + t.width
      && t.width == m.width == p.width && t.height == m.height == p.depth
      && t.depth == m.depth == p.height
  {
  }

  /** The six rectangles of a net are pairwise disjoint, so no atlas cell
      is painted onto two faces of one cuboid. */
  lemma NetDisjoint(p: Patch, d1: Direction, d2: Direction)
    requires Unfoldable(p) && p.width > 0 && p.height > 0 && p.depth > 0
    requires d1 != d2
    ensures Disjoint(FacePatch(p, d1), FacePatch(p, d2))
  {
  }

  /** A face of a net has as many cells as the cuboid side it covers. */
  lemma FaceArea(p: Patch, dir: Direction)
    requires Unfoldable(p)
    ensures var f := FacePatch(p, dir);
      f.width * f.height == match dir
        case Front => p.width * p.height
        case Back => p.width * p.height
        case Right => p.depth * p.height
        case Left => p.depth * p.height
        case Top => p.width * p.depth
        case Bottom => p.width * p.depth
  {
  }

  // The constants of `src/rendering.rs`.
  const HEAD := Patch(8, 8, 8, 8, 8)
  const TORSO := Patch(20, 20, 8, 12, 4)
  const RIGHT_LEG := Patch(4, 20, 4, 12, 4)
  const RIGHT_ARM := Patch(44, 20, 4, 12, 4)
  const SLIM_RIGHT_ARM := Patch(44, 20, 3, 12, 4)
  const LEFT_LEG := Patch(20, 52, 4, 12, 4)
  const LEFT_ARM := Patch(36, 52, 4, 12, 4)
  const SLIM_LEFT_ARM := Patch(36, 52, 3, 12, 4)

  const HELMET := Patch(40, 8, 8, 8, 8)
  const SHIRT := Patch(20, 36, 8, 12, 4)
  const RIGHT_PANTS := Patch(4, 36, 4, 12, 4)
  const RIGHT_SLEEVE := Patch(44, 36, 4, 12, 4)
  const SLIM_RIGHT_SLEEVE := Patch(44, 36, 3, 12, 4)
  const LEFT_PANTS := Patch(4, 52, 4, 12, 4)
  const LEFT_SLEEVE := Patch(52, 52, 4, 12, 4)
  const SLIM_LEFT_SLEEVE := Patch(52, 52, 3, 12, 4)

  /** `src/convert.rs` calls the torso `BODY`; its rectangle is `TORSO`'s. */
  const BODY := Patch(20, 20, 8, 12, 4)

  /** Every patch constant of `src/rendering.rs`, slim ones included: each
      unfolds without underflow and its whole net lies in a 64x64 atlas. */
  function RenderingPatches(): (ps: seq<Patch>)
    ensures |ps| == 16
    ensures forall p :: p in ps ==> NetInAtlas(p, 64, 64)
  {
    [HEAD, TORSO, RIGHT_LEG, RIGHT_ARM, SLIM_RIGHT_ARM, LEFT_LEG, LEFT_ARM, SLIM_LEFT_ARM,
     HELMET, SHIRT, RIGHT_PANTS, RIGHT_SLEEVE, SLIM_RIGHT_SLEEVE, LEFT_PANTS, LEFT_SLEEVE, SLIM_LEFT_SLEEVE]
  }

  /** The twelve constants of `src/minecraft.rs` (no slim variants), with
      the same guarantees. */
  function MinecraftPatches(): (ps: seq<Patch>)
    ensures |ps| == 12
    ensures forall p :: p in ps ==> NetInAtlas(p, 64, 64)
    ensures forall p :: p in ps ==> p in RenderingPatches()
  {
    [HEAD, TORSO, RIGHT_LEG, RIGHT_ARM, LEFT_LEG, LEFT_ARM,
     HELMET, SHIRT, RIGHT_PANTS, RIGHT_SLEEVE, LEFT_PANTS, LEFT_SLEEVE]
  }

  /** The six constants of `src/convert.rs`, with the same guarantees. */
  function ConvertPatches(): (ps: seq<Patch>)
    ensures |ps| == 6
    ensures forall p :: p in ps ==> NetInAtlas(p, 64, 64)
    ensures forall p :: p in ps ==> p in RenderingPatches()
  {
    [HEAD, BODY, LEFT_LEG, LEFT_ARM, RIGHT_LEG, RIGHT_ARM]
  }

  /** A slim arm or sleeve is its regular counterpart one cell narrower. */
  lemma SlimIsNarrower()
    ensures SLIM_RIGHT_ARM == RIGHT_ARM.(width := RIGHT_ARM.width - 1)
    ensures SLIM_LEFT_ARM == LEFT_ARM.(width := LEFT_ARM.width - 1)
    ensures SLIM_RIGHT_SLEEVE == RIGHT_SLEEVE.(width := RIGHT_SLEEVE.width - 1)
    ensures SLIM_LEFT_SLEEVE == LEFT_SLEEVE.(width := LEFT_SLEEVE.width - 1)
  {
  }

  /** `letter_offset`: a frame letter's distance from `'A'`. The `u32`
      subtraction needs the letter to be at least `'A'`. */
  function LetterOffset(c: char): (r: nat)
    requires c >= 'A'
    ensures r as int + 'A' as int == c as int
  {
    c as int - 'A' as int
  }

  /** `offset_from`: the distance between two letters, `self` not before
      `other`. */
  function OffsetFrom(c: char, other: char): (r: nat)
    requires 'A' <= other <= c
    ensures r as int + other as int == c as int
  {
    LetterOffset(c) - LetterOffset(other)
  }

  /** The `n`-th letter of a frame range starting at `'A'` (`'A'..='W'`,
      `'A'..='I'`). */
  function Letter(n: nat): (f: char)
    requires n < 26
    ensures 'A' <= f <= 'Z' && f as int == 'A' as int + n
  {
    ('A' as int + n) as char
  }

  /** `letter_offset` numbers the capitals from zero: it undoes `Letter`
      and is undone by it, and later letters have larger offsets. */
  lemma LetterRoundTrip(n: nat, c: char)
    requires n < 26 && 'A' <= c <= 'Z'
    ensures LetterOffset(Letter(n)) == n
    ensures Letter(LetterOffset(c)) == c
    ensures LetterOffset(c) < 26
    ensures Letter(n) < c <==> n < LetterOffset(c)
  {
  }

  /** `offset_from` measures distances along the alphabet: a letter is no
      distance from itself, distances from `'A'` are offsets, and
      distances along a chain of letters add up. */
  lemma OffsetsChain(a: char, b: char, c: char)
    requires 'A' <= c <= b <= a
    ensures OffsetFrom(a, a) == 0 && OffsetFrom(a, 'A') == LetterOffset(a)
    ensures OffsetFrom(a, c) == OffsetFrom(a, b) + OffsetFrom(b, c)
    ensures OffsetFrom(a, c) == 0 <==> a == c
  {
  }
}
