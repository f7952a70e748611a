/** What a limb face and a trim texel take from the skin atlas.

    A limb face (`Face::new`) is textured with the whole derived rectangle,
    row by row, with `correct_gamma` applied to the colour channels. A trim
    (`Trim::load`) walks each derived rectangle column by column and turns
    every fully opaque pixel into a one-cell quad ("texel") standing off the
    face at 1.1 times the face's distance from the centre of the cuboid,
    0.05 units per unit of depth beyond the face. Texel positions are kept in half-units of the
    trim grid (`UNIT = 1.1` is two of them), so every coordinate is an
    integer. `correct_gamma` is a parameter: `src/rendering.rs` passes its
    sRGB curve, `src/minecraft.rs` and `src/convert.rs` use the raw bytes,
    which is the identity. */
module Textures {
  import opened Common
  import opened Patches
  import opened Geometry

  /** The skin image, indexed `[x, y]`: `Length0` is its width. */
  type Atlas = array2<Rgba>

  /** A per-channel byte map such as `correct_gamma`. */
  type Gamma = byte -> byte

  function Identity(b: byte): byte
  {
    b
  }

  /** `image::open` as a map from path to image: every image it can open
      is at least 64x64. */
  predicate Sized(images: map<string, Atlas>)
  {
    forall p :: p in images ==> images[p].Length0 >= 64 && images[p].Length1 >= 64
  }

  /** `correct_gamma` on red, green and blue; alpha is copied. */
  function Corrected(c: Rgba, gamma: Gamma): Rgba
  {
    Rgba(gamma(c.r), gamma(c.g), gamma(c.b), c.a)
  }

  /** `ALPHA_MIN` is 255: only fully opaque trim pixels become texels. */
  const ALPHA_MIN: byte := 255

  predicate Opaque(c: Rgba)
  {
    c.a >= ALPHA_MIN
  }

  /** Every face rectangle of `p` can be read from the atlas without going
      out of bounds (`get_pixel` panics otherwise). */
  predicate Readable(atlas: Atlas, p: Patch)
  {
    NetInAtlas(p, atlas.Length0, atlas.Length1)
  }

  // ---------------------------------------------------------------------
  // Face textures (`Face::new`)

  /** Row `j` of the cropped rectangle `q`, gamma-corrected. */
  function CroppedRow(atlas: Atlas, q: Patch, gamma: Gamma, j: nat): seq<Rgba>
    requires InAtlas(q, atlas.Length0, atlas.Length1) && j < q.height
    reads atlas
  {
    seq(q.width, i requires 0 <= i < q.width reads atlas => Corrected(atlas[q.x + i, q.y + j], gamma))
  }

  /** The first `n` rows of the cropped rectangle, in the row-major order
      of `sub_image.pixels()`. */
  function Cropped(atlas: Atlas, q: Patch, gamma: Gamma, n: nat): seq<Rgba>
    requires InAtlas(q, atlas.Length0, atlas.Length1) && n <= q.height
    reads atlas
  {
    if n == 0 then [] else Cropped(atlas, q, gamma, n - 1) + CroppedRow(atlas, q, gamma, n - 1)
  }

  /** The texture of a face has `width * height` pixels, and pixel
      `(i, j)` of it is the gamma-corrected atlas pixel `(x + i, y + j)`. */
  lemma {:induction false} CroppedAt(atlas: Atlas, q: Patch, gamma: Gamma, n: nat, i: nat, j: nat)
    requires InAtlas(q, atlas.Length0, atlas.Length1) && n <= q.height
    ensures |Cropped(atlas, q, gamma, n)| == n * q.width
    ensures i < q.width && j < n ==>
      Cropped(atlas, q, gamma, n)[j * q.width + i] == Corrected(atlas[q.x + i, q.y + j], gamma)
  {
    if n > 0 {
      CroppedAt(atlas, q, gamma, n - 1, i, j);
      MulStep(n - 1, q.width);
      if i < q.width && j < n - 1 {
        MulBelow(j, n - 1, q.width, i);
      }
    }
  }

  lemma MulStep(n: nat, w: nat)
    ensures (n + 1) * w == n * w + w
  {
  }

  /** Position `i` of row `j` comes before row `m` when `j < m`. */
  lemma MulBelow(j: nat, m: nat, w: nat, i: nat)
    requires j < m && i < w
    ensures j * w + i < m * w
  {
    var k: nat := m - j - 1;
    assert m * w == j * w + w + k * w;
  }

  /** The pixel loop of `Face::new`: crop the rectangle and correct each
      pixel, row by row. */
  method CropTexture(atlas: Atlas, q: Patch, gamma: Gamma) returns (pixels: seq<Rgba>)
    requires InAtlas(q, atlas.Length0, atlas.Length1)
    ensures pixels == Cropped(atlas, q, gamma, q.height)
  {
    pixels := [];
    var j := 0;
    while j < q.height
      invariant j <= q.height
      invariant pixels == Cropped(atlas, q, gamma, j)
    {
      var i := 0;
      while i < q.width
        invariant i <= q.width
        invariant pixels == Cropped(atlas, q, gamma, j) + CroppedRow(atlas, q, gamma, j)[..i]
      {
        pixels := pixels + [Corrected(atlas[q.x + i, q.y + j], gamma)];
        i := i + 1;
      }
      assert CroppedRow(atlas, q, gamma, j)[..i] == CroppedRow(atlas, q, gamma, j);
      j := j + 1;
    }
  }

  // ---------------------------------------------------------------------
  // Trim texels (`Trim::load`, `Texel::new`)

  /** A texel: the face it belongs to, the position of its lower corner in
      half-units, and its (corrected) colour. */
  datatype Texel = Texel(dir: Direction, position: Vec, pixel: Rgba)

  /** The position `Trim::load` computes for cell `(px, py)` of the derived
      rectangle `q` of face `dir`. `q`'s own width, height and depth are
      used, with `i32` division (exact here, as the operands are
      non-negative). */
  function TexelPosition(q: Patch, dir: Direction, px: int, py: int): Vec
  {
    var w: int, h: int, d: int := q.width, q.height, q.depth;
    match dir
    case Front => Vec(2 * (px - w / 2), 2 * (h / 2 - 1 - py), d)
    case Right => Vec(d, 2 * (h / 2 - 1 - py), 2 * (w / 2 - 1 - px))
    case Back => Vec(2 * (w / 2 - 1 - px), 2 * (h / 2 - 1 - py), -d)
    case Left => Vec(-d, 2 * (h / 2 - 1 - py), 2 * (px - w / 2))
    case Top => Vec(2 * (px - w / 2), d, 2 * (py - h / 2))
    case Bottom => Vec(2 * (px - w / 2), -d, 2 * (h / 2 - 1 - py))
  }

  /** Different cells of one face never share a position. */
  lemma TexelPositionInjective(q: Patch, dir: Direction, px1: int, py1: int, px2: int, py2: int)
    requires TexelPosition(q, dir, px1, py1) == TexelPosition(q, dir, px2, py2)
    ensures px1 == px2 && py1 == py2
  {
  }

  /** The texel `Trim::load` would make from cell `(px, py)` of `q`. */
  function MkTexel(atlas: Atlas, q: Patch, dir: Direction, gamma: Gamma, px: nat, py: nat): Texel
    requires px < q.width && py < q.height && InAtlas(q, atlas.Length0, atlas.Length1)
    reads atlas
  {
    Texel(dir, TexelPosition(q, dir, px, py), Corrected(atlas[q.x + px, q.y + py], gamma))
  }

  /** The texels of column `px` from the cells `py < n`, top to bottom. */
  function Column(atlas: Atlas, q: Patch, dir: Direction, gamma: Gamma, px: nat, n: nat): seq<Texel>
    requires px < q.width && n <= q.height && InAtlas(q, atlas.Length0, atlas.Length1)
    reads atlas
  {
    if n == 0 then []
    else
      Column(atlas, q, dir, gamma, px, n - 1)
      + (if Opaque(atlas[q.x + px, q.y + n - 1]) then [MkTexel(atlas, q, dir, gamma, px, n - 1)] else [])
  }

  /** The texels of the first `m` columns: `px` outer, `py` inner. */
  function Columns(atlas: Atlas, q: Patch, dir: Direction, gamma: Gamma, m: nat): seq<Texel>
    requires m <= q.width && InAtlas(q, atlas.Length0, atlas.Length1)
    reads atlas
  {
    if m == 0 then [] else Columns(atlas, q, dir, gamma, m - 1) + Column(atlas, q, dir, gamma, m - 1, q.height)
  }

  /** All texels of one face rectangle. */
  function FaceTexels(atlas: Atlas, q: Patch, dir: Direction, gamma: Gamma): seq<Texel>
    requires InAtlas(q, atlas.Length0, atlas.Length1)
    reads atlas
  {
    Columns(atlas, q, dir, gamma, q.width)
  }

  /** All texels of a trim, face after face in the order Front, Right, Back,
      Left, Top, Bottom. */
  function TrimTexels(atlas: Atlas, p: Patch, gamma: Gamma): seq<Texel>
    requires Readable(atlas, p)
    reads atlas
  {
    FaceTexels(atlas, FacePatch(p, Front), Front, gamma)
    + FaceTexels(atlas, FacePatch(p, Right), Right, gamma)
    + FaceTexels(atlas, FacePatch(p, Back), Back, gamma)
    + FaceTexels(atlas, FacePatch(p, Left), Left, gamma)
    + FaceTexels(atlas, FacePatch(p, Top), Top, gamma)
    + FaceTexels(atlas, FacePatch(p, Bottom), Bottom, gamma)
  }

  /** A texel of a column comes from an opaque cell of that column. */
  lemma {:induction false} InColumn(atlas: Atlas, q: Patch, dir: Direction, gamma: Gamma, px: nat, n: nat, t: Texel)
    requires px < q.width && n <= q.height && InAtlas(q, atlas.Length0, atlas.Length1)
    ensures t in Column(atlas, q, dir, gamma, px, n) <==>
      exists py :: 0 <= py < n && Opaque(atlas[q.x + px, q.y + py]) && t == MkTexel(atlas, q, dir, gamma, px, py)
  {
    if n > 0 {
      InColumn(atlas, q, dir, gamma, px, n - 1, t);
    }
  }

  /** A texel of the first `m` columns comes from an opaque cell of them,
      and every opaque cell there gives one. */
  lemma {:induction false} InColumns(atlas: Atlas, q: Patch, dir: Direction, gamma: Gamma, m: nat, t: Texel)
    requires m <= q.width && InAtlas(q, atlas.Length0, atlas.Length1)
    ensures t in Columns(atlas, q, dir, gamma, m) <==>
      exists px, py :: 0 <= px < m && 0 <= py < q.height && Opaque(atlas[q.x + px, q.y + py])
        && t == MkTexel(atlas, q, dir, gamma, px, py)
  {
    if m > 0 {
      InColumns(atlas, q, dir, gamma, m - 1, t);
      InColumn(atlas, q, dir, gamma, m - 1, q.height, t);
    }
  }

  /** Exactly the opaque cells give texels: the texel of cell `(px, py)`
      is among the face's texels if and only if that atlas pixel has alpha
      255, so alpha 254 gives none. */
  lemma FaceTexelMembership(atlas: Atlas, q: Patch, dir: Direction, gamma: Gamma, px: nat, py: nat)
    requires InAtlas(q, atlas.Length0, atlas.Length1) && px < q.width && py < q.height
    ensures MkTexel(atlas, q, dir, gamma, px, py) in FaceTexels(atlas, q, dir, gamma)
        <==> atlas[q.x + px, q.y + py].a == 255
  {
    var t := MkTexel(atlas, q, dir, gamma, px, py);
    InColumns(atlas, q, dir, gamma, q.width, t);
    if t in FaceTexels(atlas, q, dir, gamma) {
      var px', py' :| 0 <= px' < q.width && 0 <= py' < q.height && Opaque(atlas[q.x + px', q.y + py'])
        && t == MkTexel(atlas, q, dir, gamma, px', py');
      TexelPositionInjective(q, dir, px, py, px', py');
    }
  }

  /** Every texel of a face is tagged with that face, lies in a plane
      parallel to the face at 1.1 times its distance from the centre (one
      trim half-unit, 0.55, per unit of depth), and keeps the opaque alpha of
      its pixel. */
  lemma FaceTexelShape(atlas: Atlas, q: Patch, dir: Direction, gamma: Gamma, t: Texel)
    requires InAtlas(q, atlas.Length0, atlas.Length1)
    requires t in FaceTexels(atlas, q, dir, gamma)
    ensures t.dir == dir && t.pixel.a == 255
    ensures NormalOffset(t.position, dir) == q.depth
  {
    InColumns(atlas, q, dir, gamma, q.width, t);
  }

  /** Cells of different columns give different texels. */
  lemma {:induction false} ColumnsDistinct(atlas: Atlas, q: Patch, dir: Direction, gamma: Gamma, m: nat)
    requires m <= q.width && InAtlas(q, atlas.Length0, atlas.Length1)
    ensures Distinct(Columns(atlas, q, dir, gamma, m))
  {
    if m > 0 {
      ColumnsDistinct(atlas, q, dir, gamma, m - 1);
      ColumnDistinct(atlas, q, dir, gamma, m - 1, q.height);
      var a := Columns(atlas, q, dir, gamma, m - 1);
      var b := Column(atlas, q, dir, gamma, m - 1, q.height);
      forall i, j | 0 <= i < |a| && 0 <= j < |b| ensures a[i] != b[j] {
        InColumns(atlas, q, dir, gamma, m - 1, a[i]);
        InColumn(atlas, q, dir, gamma, m - 1, q.height, b[j]);
        var px, py :| 0 <= px < m - 1 && 0 <= py < q.height && Opaque(atlas[q.x + px, q.y + py])
          && a[i] == MkTexel(atlas, q, dir, gamma, px, py);
        var py' :| 0 <= py' < q.height && Opaque(atlas[q.x + m - 1, q.y + py'])
          && b[j] == MkTexel(atlas, q, dir, gamma, m - 1, py');
        if a[i] == b[j] {
          TexelPositionInjective(q, dir, px, py, m - 1, py');
        }
      }
      DistinctAppend(a, b);
    }
  }

  lemma {:induction false} ColumnDistinct(atlas: Atlas, q: Patch, dir: Direction, gamma: Gamma, px: nat, n: nat)
    requires px < q.width && n <= q.height && InAtlas(q, atlas.Length0, atlas.Length1)
    ensures Distinct(Column(atlas, q, dir, gamma, px, n))
  {
    if n > 0 {
      ColumnDistinct(atlas, q, dir, gamma, px, n - 1);
      var a := Column(atlas, q, dir, gamma, px, n - 1);
      var b := if Opaque(atlas[q.x + px, q.y + n - 1]) then [MkTexel(atlas, q, dir, gamma, px, n - 1)] else [];
      forall i, j | 0 <= i < |a| && 0 <= j < |b| ensures a[i] != b[j] {
        InColumn(atlas, q, dir, gamma, px, n - 1, a[i]);
        var py :| 0 <= py < n - 1 && Opaque(atlas[q.x + px, q.y + py])
          && a[i] == MkTexel(atlas, q, dir, gamma, px, py);
        if a[i] == b[j] {
          TexelPositionInjective(q, dir, px, py, px, n - 1);
        }
      }
      DistinctAppend(a, b);
    }
  }

  lemma DistinctAppend<T>(a: seq<T>, b: seq<T>)
    requires Distinct(a) && Distinct(b)
    requires forall i, j :: 0 <= i < |a| && 0 <= j < |b| ==> a[i] != b[j]
    ensures Distinct(a + b)
  {
    forall i, j | 0 <= i < j < |a + b| ensures (a + b)[i] != (a + b)[j] {
      if j < |a| {
      } else if i >= |a| {
        assert (a + b)[i] == b[i - |a|] && (a + b)[j] == b[j - |a|];
      } else {
        assert (a + b)[i] == a[i] && (a + b)[j] == b[j - |a|];
      }
    }
  }

  /** No texel of a face is emitted twice: with membership, this gives
      exactly one texel per opaque pixel. */
  lemma FaceTexelsDistinct(atlas: Atlas, q: Patch, dir: Direction, gamma: Gamma)
    requires InAtlas(q, atlas.Length0, atlas.Length1)
    ensures Distinct(FaceTexels(atlas, q, dir, gamma))
  {
    ColumnsDistinct(atlas, q, dir, gamma, q.width);
  }

  /** The inner loop of `Trim::load` for one column. */
  method CollectColumn(atlas: Atlas, q: Patch, dir: Direction, gamma: Gamma, px: nat, texels: seq<Texel>)
    returns (out: seq<Texel>)
    requires px < q.width && InAtlas(q, atlas.Length0, atlas.Length1)
    ensures out == texels + Column(atlas, q, dir, gamma, px, q.height)
  {
    out := texels;
    var py := 0;
    while py < q.height
      invariant py <= q.height
      invariant out == texels + Column(atlas, q, dir, gamma, px, py)
    {
      var pixel := atlas[q.x + px, q.y + py];
      if pixel.a >= ALPHA_MIN {
        out := out + [Texel(dir, TexelPosition(q, dir, px, py), Corrected(pixel, gamma))];
      }
      py := py + 1;
    }
  }

  /** One of the six nested loops of `Trim::load`: walk the face rectangle
      column by column and push a texel for every opaque pixel. */
  method CollectFace(atlas: Atlas, q: Patch, dir: Direction, gamma: Gamma, texels: seq<Texel>)
    returns (out: seq<Texel>)
    requires InAtlas(q, atlas.Length0, atlas.Length1)
    ensures out == texels + FaceTexels(atlas, q, dir, gamma)
  {
    out := texels;
    var px := 0;
    while px < q.width
      invariant px <= q.width
      invariant out == texels + Columns(atlas, q, dir, gamma, px)
    {
      out := CollectColumn(atlas, q, dir, gamma, px, out);
      px := px + 1;
    }
  }

  /** The texel list of `Trim::load`. */
  method LoadTexels(atlas: Atlas, p: Patch, gamma: Gamma) returns (texels: seq<Texel>)
    requires Readable(atlas, p)
    ensures texels == TrimTexels(atlas, p, gamma)
  {
    assert InAtlas(FacePatch(p, Front), atlas.Length0, atlas.Length1);
    texels := CollectFace(atlas, p, Front, gamma, []);
    ghost var acc := FaceTexels(atlas, FacePatch(p, Front), Front, gamma);
    assert texels == acc;
    assert InAtlas(FacePatch(p, Right), atlas.Length0, atlas.Length1);
    texels := CollectFace(atlas, AsRight(p), Right, gamma, texels);
    acc := acc + FaceTexels(atlas, FacePatch(p, Right), Right, gamma);
    assert texels == acc;
    assert InAtlas(FacePatch(p, Back), atlas.Length0, atlas.Length1);
    texels := CollectFace(atlas, AsBack(p), Back, gamma, texels);
    acc := acc + FaceTexels(atlas, FacePatch(p, Back), Back, gamma);
    assert texels == acc;
    assert InAtlas(FacePatch(p, Left), atlas.Length0, atlas.Length1);
    texels := CollectFace(atlas, AsLeft(p), Left, gamma, texels);
    acc := acc + FaceTexels(atlas, FacePatch(p, Left), Left, gamma);
    assert texels == acc;
    assert InAtlas(FacePatch(p, Top), atlas.Length0, atlas.Length1);
    texels := CollectFace(atlas, AsTop(p), Top, gamma, texels);
    acc := acc + FaceTexels(atlas, FacePatch(p, Top), Top, gamma);
    assert texels == acc;
    assert InAtlas(FacePatch(p, Bottom), atlas.Length0, atlas.Length1);
    texels := CollectFace(atlas, AsBottom(p), Bottom, gamma, texels);
    acc := acc + FaceTexels(atlas, FacePatch(p, Bottom), Bottom, gamma);
    assert texels == acc;
  }

  /** The texels of a trim tagged with face `dir` are exactly that face's
      texels: the six runs never mix. */
  lemma TrimTexelsByFace(atlas: Atlas, p: Patch, gamma: Gamma, dir: Direction, t: Texel)
    requires Readable(atlas, p)
    ensures t in TrimTexels(atlas, p, gamma) && t.dir == dir
        <==> t in FaceTexels(atlas, FacePatch(p, dir), dir, gamma)
  {
    forall d | d in Directions {
      InColumns(atlas, FacePatch(p, d), d, gamma, FacePatch(p, d).width, t);
    }
  }

  /** The four corners of a texel quad (`Texel::new`), one `UNIT` (two
      half-units) wide, in the face's plane. */
  function TexelCorners(t: Texel): seq<Vec>
  {
    var (x, y, z) := (t.position.x, t.position.y, t.position.z);
    match t.dir
    case Front => [Vec(x, y, z), Vec(x + 2, y, z), Vec(x + 2, y + 2, z), Vec(x, y + 2, z)]
    case Right => [Vec(x, y, z + 2), Vec(x, y, z), Vec(x, y + 2, z), Vec(x, y + 2, z + 2)]
    case Back => [Vec(x + 2, y, z), Vec(x, y, z), Vec(x, y + 2, z), Vec(x + 2, y + 2, z)]
    case Left => [Vec(x, y, z), Vec(x, y, z + 2), Vec(x, y + 2, z + 2), Vec(x, y + 2, z)]
    case Top => [Vec(x, y, z + 2), Vec(x + 2, y, z + 2), Vec(x + 2, y, z), Vec(x, y, z)]
    case Bottom => [Vec(x, y, z), Vec(x + 2, y, z), Vec(x + 2, y, z + 2), Vec(x, y, z + 2)]
  }

  /** A texel quad is a unit square lying flat in its face's plane: its
      four corners are distinct, share the texel's normal coordinate, and
      differ from the texel position by 0 or one `UNIT` along the other two
      axes. */
  lemma TexelQuadFlat(t: Texel)
    ensures var c := TexelCorners(t);
      |c| == 4
      && (forall i, j :: 0 <= i < j < 4 ==> c[i] != c[j])
      && forall i :: 0 <= i < 4 ==>
        NormalOffset(c[i], t.dir) == NormalOffset(t.position, t.dir)
        && c[i].x - t.position.x in {0, 2} && c[i].y - t.position.y in {0, 2}
        && c[i].z - t.position.z in {0, 2}
  {
  }
}
