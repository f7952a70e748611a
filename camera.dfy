/** The cameras of the renderers, exact up to the perspective parameters,
    which never change and are not represented. A camera only ever moves
    along the world z axis or orbits about a vertical axis by whole
    eighths of a revolution, so it stays in the horizontal plane `y = 0`
    and its position is kept as a `Position` (below); its orientation is
    the number of eighth turns it has been orbited. */
module Cameras {

  /** A point of the plane `y = 0`, in tenths, as integer coefficients of
      four directions: `e0` is the unit z vector and `e1`, `e2`, `e3` are
      it turned one, two and three eighths of a revolution about the
      vertical axis (turned four eighths it is `-e0`). The four directions
      are independent over the integers, so two positions are the same
      point exactly when their coefficients agree. */
  datatype Position = Position(e0: int, e1: int, e2: int, e3: int)

  /** The point at `z` tenths on the world z axis. */
  function AtZ(z: int): Position
  {
    Position(z, 0, 0, 0)
  }

  function PositionAdd(p: Position, q: Position): Position
  {
    Position(p.e0 + q.e0, p.e1 + q.e1, p.e2 + q.e2, p.e3 + q.e3)
  }

  function PositionSub(p: Position, q: Position): Position
  {
    Position(p.e0 - q.e0, p.e1 - q.e1, p.e2 - q.e2, p.e3 - q.e3)
  }

  /** `p` turned `n` eighths of a revolution about the vertical axis
      through the origin: each direction becomes the one `n` eighths on,
      and four eighths on is the opposite direction. */
  function Turned(p: Position, n: int): Position
    requires 0 <= n < 8
  {
    if n == 0 then p
    else if n == 1 then Position(-p.e3, p.e0, p.e1, p.e2)
    else if n == 2 then Position(-p.e2, -p.e3, p.e0, p.e1)
    else if n == 3 then Position(-p.e1, -p.e2, -p.e3, p.e0)
    else if n == 4 then Position(-p.e0, -p.e1, -p.e2, -p.e3)
    else if n == 5 then Position(p.e3, -p.e0, -p.e1, -p.e2)
    else if n == 6 then Position(p.e2, p.e3, -p.e0, -p.e1)
    else Position(p.e1, p.e2, p.e3, -p.e0)
  }

  /** The sum of two turns in `0..8`, brought back into `0..8`. */
  function Wrap(t: int): (r: int)
    requires 0 <= t < 16
    ensures 0 <= r < 8 && r == t % 8
  {
    if t >= 8 then t - 8 else t
  }

  /** One more eighth turn; after the seventh the position is back. */
  lemma TurnedStep(p: Position, n: int)
    requires 0 <= n < 8
    ensures Turned(Turned(p, n), 1) == Turned(p, Wrap(n + 1))
  {
  }

  /** Turns of a position add up, eight eighths being a whole revolution. */
  lemma {:induction false} TurnedAdds(p: Position, m: int, n: int)
    requires 0 <= m < 8 && 0 <= n < 8
    ensures Turned(Turned(p, m), n) == Turned(p, Wrap(m + n))
    decreases n
  {
    if n > 0 {
      TurnedAdds(p, m, n - 1);
      var k := Wrap(m + n - 1);
      TurnedStep(p, k);
      TurnedStep(Turned(p, m), n - 1);
      assert Wrap(k + 1) == Wrap(m + n);
    }
  }

  /** Turning is linear: it commutes with adding and subtracting. */
  lemma TurnedLinear(p: Position, q: Position, n: int)
    requires 0 <= n < 8
    ensures Turned(PositionAdd(p, q), n) == PositionAdd(Turned(p, n), Turned(q, n))
    ensures Turned(PositionSub(p, q), n) == PositionSub(Turned(p, n), Turned(q, n))
  {
  }

  /** A camera: `yaw`, the eighth turns it has been orbited from looking
      down the negative z axis, and `frame`, its position before those
      turns. It stands at `Where(c)`, which is `frame` turned `yaw`
      eighths; keeping the turn apart makes an orbit about the origin a
      change of `yaw` alone. */
  datatype Camera = Camera(yaw: int, frame: Position)

  /** The yaw is kept in `0..8`: eight eighth turns are a full revolution. */
  predicate Normal(c: Camera)
  {
    0 <= c.yaw < 8
  }

  /** Where the camera stands, in tenths. */
  function Where(c: Camera): Position
    requires Normal(c)
  {
    Turned(c.frame, c.yaw)
  }

  /** `Rendering::DEPTH`: 35 units, in tenths. */
  const RENDERING_DEPTH := 350

  /** `Camera::new_perspective` of `Rendering` (`src/converting.rs`): at
      `Vec3::unit_z() * DEPTH`, looking at the origin. */
  const Canonical := Camera(0, AtZ(RENDERING_DEPTH))

  /** An orbit by `eighths` eighth turns about the vertical axis through
      the origin: `-1` is `rotate_around_with_fixed_up(Vec3::zero(), -PI /
      4, ..)`, `4` is `rotate_around(Vec3::zero(), PI, ..)`. */
  function Orbit(c: Camera, eighths: int): (r: Camera)
    ensures Normal(r)
  {
    c.(yaw := (c.yaw + eighths) % 8)
  }

  /** `camera.translate(Vec3::unit_z() * dz)`, `dz` in tenths: the camera
      moves along the world z axis, whichever way it looks, so the move is
      turned back by the yaw before it is added to the frame. */
  function Translate(c: Camera, dz: int): (r: Camera)
    ensures r.yaw == c.yaw
  {
    c.(frame := PositionAdd(c.frame, Turned(AtZ(dz), Unturn(c.yaw))))
  }

  /** The turn that undoes `yaw` eighth turns. */
  function Unturn(yaw: int): (r: int)
    ensures 0 <= r < 8 && r == (-yaw) % 8
  {
    (-yaw) % 8
  }

  /** An orbit turns where the camera stands about the origin. */
  lemma OrbitTurns(c: Camera, eighths: int)
    requires Normal(c)
    ensures Where(Orbit(c, eighths)) == Turned(Where(c), eighths % 8)
  {
    YawAdds(c.yaw, eighths, 0);
    assert Wrap(c.yaw + eighths % 8) == (c.yaw + eighths) % 8;
    TurnedAdds(c.frame, c.yaw, eighths % 8);
  }

  /** A move along z moves where the camera stands by `dz` along z, and
      keeps the direction it looks in. */
  lemma TranslateMoves(c: Camera, dz: int)
    requires Normal(c)
    ensures Translate(c, dz).yaw == c.yaw
    ensures Where(Translate(c, dz)) == PositionAdd(Where(c), AtZ(dz))
  {
    var back := Unturn(c.yaw);
    TurnedLinear(c.frame, Turned(AtZ(dz), back), c.yaw);
    TurnedAdds(AtZ(dz), back, c.yaw);
    assert Wrap(back + c.yaw) == 0;
  }

  /** Two cameras that look the same way from the same place are equal. */
  lemma WhereDetermines(c: Camera, d: Camera)
    requires Normal(c) && Normal(d) && c.yaw == d.yaw && Where(c) == Where(d)
    ensures c == d
  {
    TurnedAdds(c.frame, c.yaw, Wrap(8 - c.yaw));
    TurnedAdds(d.frame, d.yaw, Wrap(8 - d.yaw));
  }

  /** Orbits compose by adding their turns, and a whole number of
      revolutions changes nothing. */
  lemma OrbitAdds(c: Camera, a: int, b: int)
    requires Normal(c)
    ensures Orbit(Orbit(c, a), b) == Orbit(c, a + b)
    ensures Orbit(c, 8 * a) == c
  {
    YawAdds(c.yaw, a, b);
  }

  /** The yaw after two orbits, and after whole revolutions. */
  lemma YawAdds(y: int, a: int, b: int)
    requires 0 <= y < 8
    ensures ((y + a) % 8 + b) % 8 == (y + a + b) % 8
    ensures (y + 8 * a) % 8 == y
    ensures (y + a % 8) % 8 == (y + a) % 8
  {
    assert (y + a) % 8 + b == (y + a + b) + 8 * -((y + a) / 8);
    ModShift(y + a + b, -((y + a) / 8));
    ModShift(y, a);
    assert y + a % 8 == (y + a) + 8 * -(a / 8);
    ModShift(y + a, -(a / 8));
  }

  /** Whole revolutions do not change an eighth. */
  lemma ModShift(z: int, k: int)
    ensures (z + 8 * k) % 8 == z % 8
  {
  }

  /** Moves along z add up, a zero move changes nothing, and each is
      undone by the opposite move. */
  lemma TranslateAdds(c: Camera, a: int, b: int)
    ensures Translate(Translate(c, a), b) == Translate(c, a + b)
    ensures Translate(c, 0) == c
    ensures Translate(Translate(c, a), -a) == c
  {
    TranslateTwice(c, a, b);
    TranslateTwice(c, a, -a);
    FrameMoves(c.frame, Unturn(c.yaw), 0, 0);
  }

  /** Two moves along z are one move by their sum. */
  lemma TranslateTwice(c: Camera, a: int, b: int)
    ensures Translate(Translate(c, a), b) == Translate(c, a + b)
  {
    FrameMoves(c.frame, Unturn(c.yaw), a, b);
  }

  /** Turned moves along z, added to a frame, add up like the moves. */
  lemma FrameMoves(f: Position, n: int, a: int, b: int)
    requires 0 <= n < 8
    ensures PositionAdd(PositionAdd(f, Turned(AtZ(a), n)), Turned(AtZ(b), n)) == PositionAdd(f, Turned(AtZ(a + b), n))
    ensures PositionAdd(f, Turned(AtZ(0), n)) == f
  {
  }

  /** A move along z and an orbit about the origin do not commute: a move
      made before a half turn ends up on the other side of the origin from
      the same move made after it, `2 dz` away along z. */
  lemma OrderMatters(c: Camera, dz: int)
    requires Normal(c)
    ensures Where(Orbit(Translate(c, dz), 4)) == PositionSub(Where(Translate(Orbit(c, 4), dz)), AtZ(2 * dz))
    ensures dz != 0 ==> Orbit(Translate(c, dz), 4) != Translate(Orbit(c, 4), dz)
  {
    TranslateMoves(c, dz);
    OrbitTurns(Translate(c, dz), 4);
    OrbitTurns(c, 4);
    TranslateMoves(Orbit(c, 4), dz);
    TurnedLinear(Where(c), AtZ(dz), 4);
  }

  /** Half a revolution and then a move along z: the camera stands
      opposite where it stood, moved by `dz`. */
  lemma HalfTurnThenMove(c: Camera, dz: int)
    requires Normal(c)
    ensures Where(Translate(Orbit(c, 4), dz)) == PositionSub(AtZ(dz), Where(c))
  {
    TurnedAdds(c.frame, c.yaw, 4);
    assert Orbit(c, 4).yaw == Wrap(c.yaw + 4);
    TranslateMoves(Orbit(c, 4), dz);
    OppositeMove(Where(c), dz);
  }

  /** A half-turned point moved by `dz`. */
  lemma OppositeMove(p: Position, dz: int)
    ensures PositionAdd(Turned(p, 4), AtZ(dz)) == PositionSub(AtZ(dz), p)
  {
  }

  /** On the z axis, before any orbit: a move along z changes the place
      on the axis; after half a revolution the camera looks back along
      positive z, from the other side of the origin, and the same move
      takes it the other way along its frame. */
  lemma OnTheAxis(z: int, dz: int)
    ensures Translate(Camera(0, AtZ(z)), dz) == Camera(0, AtZ(z + dz))
    ensures Orbit(Camera(0, AtZ(z)), 4) == Camera(4, AtZ(z))
    ensures Translate(Camera(4, AtZ(z)), dz) == Camera(4, AtZ(z - dz))
    ensures Where(Camera(4, AtZ(z))) == AtZ(-z)
  {
    assert Unturn(0) == 0 && Unturn(4) == 4;
  }

  /** The GPU context and the camera the renders share. */
  class Rendering {
    const width: nat
    const height: nat
    var camera: Camera

    /** `Rendering::new`: a 204x128 viewport and the canonical camera. */
    constructor ()
      ensures width == 204 && height == 128 && camera == Canonical
    {
      width := 204;
      height := 128;
      camera := Canonical;
    }

    method OrbitCamera(eighths: int)
      modifies this
      ensures camera == Orbit(old(camera), eighths)
    {
      camera := Orbit(camera, eighths);
    }

    method TranslateCamera(dz: int)
      modifies this
      ensures camera == Translate(old(camera), dz)
    {
      camera := Translate(camera, dz);
    }

    /** The camera reassignment at the end of each skin in `convert`. */
    method ResetCamera()
      modifies this
      ensures camera == Canonical
    {
      camera := Canonical;
    }
  }
}
