/** The moving-platform controller of GameLevel::doMovingPlatformLogic as
    functions on the platform table. A kinematic body is a record of
    position and velocity held in its platform's record; `Update` is the
    whole call: the button gate pass, then the boundary pass, which reads
    back the velocities the gate pass wrote. */
module Platforms {
  import Tiles

  datatype Vec2 = Vec2(x: real, y: real)

  const Zero: Vec2 := Vec2(0.0, 0.0)

  /** Component-wise product (direction times speed). */
  function Times(a: Vec2, b: Vec2): Vec2
  {
    Vec2(a.x * b.x, a.y * b.y)
  }

  /** The part of a Box2D kinematic body the controller reads and writes. */
  datatype KinematicBody = KinematicBody(position: Vec2, velocity: Vec2)

  /** GameLevel::MPDirections; any other int can come from the map file. */
  const NotSet: int := 0
  const Horizontal: int := 1
  const Vertical: int := 2
  const Diagonal: int := 3

  /** Half of a platform's one-metre width: its position is its centre. */
  const HalfExtent: real := 0.5

  /** A MovingPlatform record. xBounds is (left, right); yBounds is (top,
      bottom) in world units, where y grows upwards. */
  datatype MovingPlatform = MovingPlatform(
    tilesetGid: int,
    spriteRect: Tiles.Rect,
    body: KinematicBody,
    movementType: int,
    usesButton: bool,
    active: bool,
    xBounds: Vec2,
    yBounds: Vec2,
    speed: Vec2,
    direction: Vec2)

  /** What `movingPlatforms[id]` inserts for an id without a platform: every
      field zero, no button, inactive (its body pointer would be null). */
  function DefaultPlatform(): MovingPlatform
  {
    MovingPlatform(0, Tiles.Rect(0, 0, 0, 0), KinematicBody(Zero, Zero), NotSet,
                   false, false, Zero, Zero, Zero, Zero)
  }

  /** `movingPlatforms[id]` read as a value. */
  function Lookup(ps: map<int, MovingPlatform>, id: int): MovingPlatform
  {
    if id in ps then ps[id] else DefaultPlatform()
  }

  predicate HorizontalType(movementType: int)
  {
    movementType == Horizontal || movementType == Diagonal
  }

  predicate VerticalType(movementType: int)
  {
    movementType == Vertical || movementType == Diagonal
  }

  predicate MovesHorizontally(p: MovingPlatform)
  {
    HorizontalType(p.movementType)
  }

  predicate MovesVertically(p: MovingPlatform)
  {
    VerticalType(p.movementType)
  }

  /** The platform invariant: an active platform moves at direction times
      speed, an inactive one stands still, and the direction is +1 or -1
      on each axis the platform moves along and 0 on the others. */
  ghost predicate PlatformInv(p: MovingPlatform)
  {
    && (p.active ==> p.body.velocity == Times(p.direction, p.speed))
    && (!p.active ==> p.body.velocity == Zero)
    && (if MovesHorizontally(p) then p.direction.x == 1.0 || p.direction.x == -1.0 else p.direction.x == 0.0)
    && (if MovesVertically(p) then p.direction.y == 1.0 || p.direction.y == -1.0 else p.direction.y == 0.0)
  }

  ghost predicate TableInv(ps: map<int, MovingPlatform>)
  {
    forall id :: id in ps ==> PlatformInv(ps[id])
  }

  // ---------------------------------------------------------------------
  // The gate pass

  /** One entry (id, count) of the button table applied to the platform of
      that id: platforms without a button are skipped. */
  function GateStep(p: MovingPlatform, count: int): MovingPlatform
  {
    if !p.usesButton then p
    else if count < 1 then p.(body := p.body.(velocity := Zero), active := false)
    else p.(body := p.body.(velocity := Times(p.direction, p.speed)), active := true)
  }

  /** The first loop, over every entry of the button table: each named
      platform gets an entry (inserted if missing) and is gated; the others
      are left alone. */
  function GatePass(ps: map<int, MovingPlatform>, buttons: map<int, int>): map<int, MovingPlatform>
  {
    map id | id in ps.Keys + buttons.Keys ::
      if id in buttons then GateStep(Lookup(ps, id), buttons[id]) else ps[id]
  }

  // ---------------------------------------------------------------------
  // The boundary pass

  /** The horizontal check of one active platform: left boundary first. */
  function HorizontalCheck(p: MovingPlatform, velocityX: real): (real, real)
  {
    if !MovesHorizontally(p) then (velocityX, p.direction.x)
    else if p.body.position.x - HalfExtent <= p.xBounds.x then (p.speed.x, 1.0)
    else if p.body.position.x + HalfExtent >= p.xBounds.y then (-1.0 * p.speed.x, -1.0)
    else (velocityX, p.direction.x)
  }

  /** The vertical check of one active platform: top boundary first. */
  function VerticalCheck(p: MovingPlatform, velocityY: real): (real, real)
  {
    if !MovesVertically(p) then (velocityY, p.direction.y)
    else if p.body.position.y + HalfExtent >= p.yBounds.x then (-1.0 * p.speed.y, -1.0)
    else if p.body.position.y - HalfExtent <= p.yBounds.y then (p.speed.y, 1.0)
    else (velocityY, p.direction.y)
  }

  /** The second loop's body for one platform: inactive platforms are skipped;
      an active one gets both checks and its velocity written back. */
  function BoundaryStep(p: MovingPlatform): MovingPlatform
  {
    if !p.active then p
    else
      var (vx, dx) := HorizontalCheck(p, p.body.velocity.x);
      var (vy, dy) := VerticalCheck(p, p.body.velocity.y);
      p.(body := p.body.(velocity := Vec2(vx, vy)), direction := Vec2(dx, dy))
  }

  /** The second loop, over every platform of the table. */
  function BoundaryPass(ps: map<int, MovingPlatform>): map<int, MovingPlatform>
  {
    map id | id in ps :: BoundaryStep(ps[id])
  }

  /** doMovingPlatformLogic(buttons) on the platform table. */
  function Update(ps: map<int, MovingPlatform>, buttons: map<int, int>): map<int, MovingPlatform>
  {
    BoundaryPass(GatePass(ps, buttons))
  }

  // ---------------------------------------------------------------------
  // Properties

  /** The gate pass and the boundary pass each keep the platform invariant. */
  lemma {:induction false} StepsKeepInv(p: MovingPlatform, count: int)
    requires PlatformInv(p)
    ensures PlatformInv(GateStep(p, count))
    ensures PlatformInv(BoundaryStep(p))
  {
    if p.active {
      var q := BoundaryStep(p);
      assert q.body.velocity.x == q.direction.x * q.speed.x;
      assert q.body.velocity.y == q.direction.y * q.speed.y;
    }
  }

  /** A platform that keeps the invariant moves only along its own axes. */
  lemma StaysOnItsAxes(p: MovingPlatform)
    requires PlatformInv(p)
    ensures !MovesHorizontally(p) ==> p.body.velocity.x == 0.0
    ensures !MovesVertically(p) ==> p.body.velocity.y == 0.0
  {
  }

  /** The platform added for a button id without a platform keeps it too. */
  lemma DefaultPlatformInv()
    ensures PlatformInv(DefaultPlatform())
  {
  }

  /** A whole update keeps the invariant of every platform in the table. */
  lemma {:induction false} UpdateKeepsInv(ps: map<int, MovingPlatform>, buttons: map<int, int>)
    requires TableInv(ps)
    ensures TableInv(Update(ps, buttons))
  {
    var g := GatePass(ps, buttons);
    forall id | id in g
      ensures PlatformInv(g[id])
    {
      DefaultPlatformInv();
      if id in buttons {
        StepsKeepInv(Lookup(ps, id), buttons[id]);
      }
    }
    forall id | id in Update(ps, buttons)
      ensures PlatformInv(Update(ps, buttons)[id])
    {
      StepsKeepInv(g[id], 0);
    }
  }

  /** The table only grows: every button id gets an entry. */
  lemma UpdateKeys(ps: map<int, MovingPlatform>, buttons: map<int, int>)
    ensures Update(ps, buttons).Keys == ps.Keys + buttons.Keys
  {
  }

  /** A button id without a platform gets a zero platform that uses no button
      and is inactive, so both passes skip it. */
  lemma PhantomPlatform(ps: map<int, MovingPlatform>, buttons: map<int, int>, id: int)
    requires id in buttons && id !in ps
    ensures id in Update(ps, buttons)
    ensures Update(ps, buttons)[id] == DefaultPlatform()
    ensures !Update(ps, buttons)[id].usesButton && !Update(ps, buttons)[id].active
  {
  }

  /** A gated platform whose button count is below 1 ends the update inactive
      and at rest, whatever its velocity was; its direction is kept. */
  lemma UnpressedStops(ps: map<int, MovingPlatform>, buttons: map<int, int>, id: int)
    requires id in ps && ps[id].usesButton
    requires id in buttons && buttons[id] < 1
    ensures !Update(ps, buttons)[id].active
    ensures Update(ps, buttons)[id].body.velocity == Zero
    ensures Update(ps, buttons)[id].direction == ps[id].direction
  {
  }

  /** A gated platform whose button is pressed ends the update active and
      moving at its (possibly reversed) direction times its speed. */
  lemma PressedRuns(ps: map<int, MovingPlatform>, buttons: map<int, int>, id: int)
    requires id in ps && ps[id].usesButton
    requires id in buttons && buttons[id] >= 1
    ensures Update(ps, buttons)[id].active
    ensures Update(ps, buttons)[id].body.velocity == Times(Update(ps, buttons)[id].direction, ps[id].speed)
  {
  }

  /** A platform without a button, or whose id is not in the table, only
      goes through the boundary pass: its active flag never changes. */
  lemma UngatedOnlyBounces(ps: map<int, MovingPlatform>, buttons: map<int, int>, id: int)
    requires id in ps && (!ps[id].usesButton || id !in buttons)
    ensures Update(ps, buttons)[id] == BoundaryStep(ps[id])
    ensures Update(ps, buttons)[id].active == ps[id].active
  {
  }

  /** The boundary pass leaves inactive platforms exactly as they are. */
  lemma InactiveUntouched(p: MovingPlatform)
    requires !p.active
    ensures BoundaryStep(p) == p
  {
  }

  /** Re-evaluating the boundaries changes nothing: a platform sitting on its
      boundary does not oscillate. */
  lemma BoundaryIdempotent(p: MovingPlatform)
    ensures BoundaryStep(BoundaryStep(p)) == BoundaryStep(p)
  {
  }

  /** An active platform at or past a boundary heads back into its range:
      left (checked first) sends it right, right sends it left, top (checked
      first) sends it down, bottom sends it up; an axis without a hit keeps
      its velocity and direction. */
  lemma BoundaryReversal(p: MovingPlatform)
    requires p.active
    ensures var q := BoundaryStep(p);
      && q.active == p.active && q.body.position == p.body.position
      && (MovesHorizontally(p) && p.body.position.x - HalfExtent <= p.xBounds.x ==>
            q.direction.x == 1.0 && q.body.velocity.x == p.speed.x)
      && (MovesHorizontally(p) && p.body.position.x - HalfExtent > p.xBounds.x && p.body.position.x + HalfExtent >= p.xBounds.y ==>
            q.direction.x == -1.0 && q.body.velocity.x == -p.speed.x)
      && (!MovesHorizontally(p) || (p.xBounds.x < p.body.position.x - HalfExtent && p.body.position.x + HalfExtent < p.xBounds.y) ==>
            q.direction.x == p.direction.x && q.body.velocity.x == p.body.velocity.x)
      && (MovesVertically(p) && p.body.position.y + HalfExtent >= p.yBounds.x ==>
            q.direction.y == -1.0 && q.body.velocity.y == -p.speed.y)
      && (MovesVertically(p) && p.body.position.y + HalfExtent < p.yBounds.x && p.body.position.y - HalfExtent <= p.yBounds.y ==>
            q.direction.y == 1.0 && q.body.velocity.y == p.speed.y)
      && (!MovesVertically(p) || (p.yBounds.y < p.body.position.y - HalfExtent && p.body.position.y + HalfExtent < p.yBounds.x) ==>
            q.direction.y == p.direction.y && q.body.velocity.y == p.body.velocity.y)
  {
  }
}
