/** Symbolic geometry. The program builds `Mat4` values from translations
    and axis-angle rotations; the model keeps those matrices as descriptors
    (which translation, which rotations about which pivot) instead of
    floating-point products. Lengths are integers in tenths of a world unit,
    so 5.5 is 55 and 1.8 is 18. */
module Geometry {
  import opened Patches

  /** A `Vec3`, in tenths. */
  datatype Vec = Vec(x: int, y: int, z: int)

  const Origin := Vec(0, 0, 0)

  function Add(a: Vec, b: Vec): Vec
  {
    Vec(a.x + b.x, a.y + b.y, a.z + b.z)
  }

  /** The rotation axes the program uses: `Vec3::unit_x()`, `unit_y()`,
      `unit_z()`, and `-Vec3::unit_z()` for the death sequences. */
  datatype Axis = X | Y | Z | NegZ

  /** An angle in degrees, kept as the exact quotient `num / den`, so that
      `(90.0 / 7.0) * k` is not rounded. */
  datatype Angle = Angle(num: int, den: nat)

  function Deg(d: int): Angle
  {
    Angle(d, 1)
  }

  /** Two angle descriptors denote the same number of degrees. */
  predicate SameAngle(a: Angle, b: Angle)
  {
    a.num * b.den == b.num * a.den
  }

  function Negated(a: Angle): Angle
  {
    Angle(-a.num, a.den)
  }

  /** One `(axis, angle)` pair of an `axes_angles` slice. */
  datatype Turn = Turn(axis: Axis, angle: Angle)

  function NegatedTurn(t: Turn): Turn
  {
    Turn(t.axis, Negated(t.angle))
  }

  /** A transformation handed to `set_transformation`: the identity, or
      `T(pivot) * R(turns[0]) * ... * R(turns[n-1]) * T(-pivot)` as built by
      `rotate_around`. */
  datatype Pose = Identity | Around(pivot: Vec, turns: seq<Turn>)

  /** The transformation a model has been given. `Unset` is the state of a
      freshly built `Gm`, whose transformation was never assigned.
      `Placed(pose, base)` is `pose * T(base)`, what `Limb`/`Trim`
      `set_transformation` store; `Based(base, pose)` is `T(base) * pose`,
      what `Prism::set_transformation` in `src/convert.rs` stores. */
  datatype Placement = Unset | Placed(pose: Pose, base: Vec) | Based(base: Vec, pose: Pose)

  /** `half_size` of a patch, in tenths: half of each extent. */
  function HalfSize(p: Patch): Vec
  {
    Vec(5 * p.width, 5 * p.height, 5 * p.depth)
  }

  /** The four corners of one face of a cuboid of size `p` centred at the
      origin, in the order the `Face::new_*` constructors list them. */
  function LocalCorners(p: Patch, dir: Direction): seq<Vec>
  {
    var h := HalfSize(p);
    var (x, y, z) := (h.x, h.y, h.z);
    match dir
    case Front => [Vec(-x, -y, z), Vec(x, -y, z), Vec(x, y, z), Vec(-x, y, z)]
    case Right => [Vec(x, -y, z), Vec(x, -y, -z), Vec(x, y, -z), Vec(x, y, z)]
    case Back => [Vec(x, -y, -z), Vec(-x, -y, -z), Vec(-x, y, -z), Vec(x, y, -z)]
    case Left => [Vec(-x, -y, -z), Vec(-x, -y, z), Vec(-x, y, z), Vec(-x, y, -z)]
    case Top => [Vec(-x, y, z), Vec(x, y, z), Vec(x, y, -z), Vec(-x, y, -z)]
    case Bottom => [Vec(-x, -y, -z), Vec(x, -y, -z), Vec(x, -y, z), Vec(-x, -y, z)]
  }

  /** The corners shifted by `center`; `src/rendering.rs` always uses the
      origin, `src/convert.rs` passes a per-prism centre. */
  function FaceCorners(p: Patch, dir: Direction, center: Vec): seq<Vec>
  {
    var l := LocalCorners(p, dir);
    [Add(l[0], center), Add(l[1], center), Add(l[2], center), Add(l[3], center)]
  }

  /** The signed offset of a face's plane from the centre along its normal:
      +z for the front, +x for the right, and so on. */
  function NormalOffset(v: Vec, dir: Direction): int
  {
    match dir
    case Front => v.z
    case Back => -v.z
    case Right => v.x
    case Left => -v.x
    case Top => v.y
    case Bottom => -v.y
  }

  /** Each face's corners are corners of the box `center +- half_size`: every
      coordinate is off the centre by exactly the half extent, all four lie
      in the face's own plane on the outward side, and they are four
      different points. */
  lemma FaceCornersOnBox(p: Patch, dir: Direction, center: Vec)
    ensures var r, h := FaceCorners(p, dir, center), HalfSize(p);
      forall i :: 0 <= i < 4 ==>
        (r[i].x - center.x == h.x || r[i].x - center.x == -h.x)
        && (r[i].y - center.y == h.y || r[i].y - center.y == -h.y)
        && (r[i].z - center.z == h.z || r[i].z - center.z == -h.z)
        && NormalOffset(r[i], dir) - NormalOffset(center, dir)
           == match dir case Front => h.z case Back => h.z case Right => h.x case Left => h.x case Top => h.y case Bottom => h.y
    ensures var r := FaceCorners(p, dir, center);
      p.width > 0 && p.height > 0 && p.depth > 0 ==>
        forall i, j :: 0 <= i < j < 4 ==> r[i] != r[j]
  {
  }

  /** Opposite faces lie in parallel planes a full extent apart. */
  lemma OppositeFacesApart(p: Patch, center: Vec)
    ensures FaceCorners(p, Front, center)[0].z - FaceCorners(p, Back, center)[0].z == 10 * p.depth
    ensures FaceCorners(p, Right, center)[0].x - FaceCorners(p, Left, center)[0].x == 10 * p.width
    ensures FaceCorners(p, Top, center)[0].y - FaceCorners(p, Bottom, center)[0].y == 10 * p.height
  {
  }
}
