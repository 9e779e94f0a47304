/** The contact aggregator's rules as functions on a state value.
    `Begin` and `End` say what CollisionListener::BeginContact and
    CollisionListener::EndContact do to the listener's fields for one
    contact; the class in collision_listener.dfy is proved to do exactly
    this. Bodies and fixtures are opaque ids. */
module ContactRules {
  import opened Wrappers
  import opened Tags

  type BodyId = int
  type FixtureId = int

  /** One contact as Box2D reports it: tag, owning body and fixture of each side. */
  datatype Contact = Contact(tagA: int, bodyA: BodyId, fixtureA: FixtureId,
                             tagB: int, bodyB: BodyId, fixtureB: FixtureId)

  /** The listener's gameplay state (all its fields except the player body). */
  datatype ContactState = ContactState(
    groundContacts: int,
    dangerContacts: int,
    ladderContacts: int,
    finishContacts: int,
    levelEntranceNum: int,
    movingPlatforms: set<BodyId>,
    entityFixturesUnderfoot: set<FixtureId>,
    buttons: map<int, int>)

  /** The state after construction and after clear(). */
  function Cleared(): ContactState
  {
    ContactState(0, 0, 0, 0, -1, {}, {}, map[])
  }

  /** How many things press the button of platform `id`; a missing entry reads
      as 0, which is also what `buttons[id]` inserts before it is changed. */
  function PressCount(buttons: map<int, int>, id: int): int
  {
    if id in buttons then buttons[id] else 0
  }

  /** The moving-platform body under the foot sensor, when one side is the
      sensor and the other a moving platform. */
  function PlatformUnderfoot(c: Contact): Option<BodyId>
  {
    if c.tagA == PlayerSensor && c.tagB == MovingPlatform then Some(c.bodyB)
    else if c.tagA == MovingPlatform && c.tagB == PlayerSensor then Some(c.bodyA)
    else None
  }

  /** Which branch of the ladder / danger / finish / button else-if chain fires. */
  datatype Rule = LadderRule | DangerRule | FinishRule | ButtonRule(id: int) | NoRule

  predicate Touches(c: Contact, tag: int, other: int)
  {
    (c.tagA == tag && c.tagB == other) || (c.tagB == tag && c.tagA == other)
  }

  /** The chain of BeginContact: finish points and buttons are recognised by
      their decoded category. */
  function BeginRule(c: Contact): Rule
  {
    if Touches(c, Ladder, PlayerBody) then LadderRule
    else if Touches(c, DangerousTile, PlayerBody) then DangerRule
    else if CategoryOf(c.tagA) == FinishPoint && c.tagB == PlayerBody then FinishRule
    else if CategoryOf(c.tagB) == FinishPoint && c.tagA == PlayerBody then FinishRule
    else if c.tagA != PlayerSensor && CategoryOf(c.tagB) == Button then ButtonRule(PayloadOf(c.tagB, Button))
    else if CategoryOf(c.tagA) == Button && c.tagB != PlayerSensor then ButtonRule(PayloadOf(c.tagA, Button))
    else NoRule
  }

  /** The exit level a finish-point begin stores: the payload of the side
      whose category is FinishPoint (side A is tested first). */
  function FinishEntrance(c: Contact): int
  {
    if CategoryOf(c.tagA) == FinishPoint && c.tagB == PlayerBody then PayloadOf(c.tagA, FinishPoint)
    else PayloadOf(c.tagB, FinishPoint)
  }

  /** The chain of EndContact: the finish point is compared by raw equality
      with the category constant, buttons by decoded category. */
  function EndRule(c: Contact): Rule
  {
    if Touches(c, Ladder, PlayerBody) then LadderRule
    else if Touches(c, DangerousTile, PlayerBody) then DangerRule
    else if Touches(c, FinishPoint, PlayerBody) then FinishRule
    else if c.tagA != PlayerSensor && CategoryOf(c.tagB) == Button then ButtonRule(PayloadOf(c.tagB, Button))
    else if CategoryOf(c.tagA) == Button && c.tagB != PlayerSensor then ButtonRule(PayloadOf(c.tagA, Button))
    else NoRule
  }

  /** The ground test, identical in begin and end: one side is the foot sensor
      and the other is no ladder, no danger tile and a tag below 100000. */
  predicate IsGroundContact(c: Contact)
  {
    (c.tagA == PlayerSensor && c.tagB != Ladder && c.tagB != DangerousTile && c.tagB < SmallTagLimit) ||
    (c.tagB == PlayerSensor && c.tagA != Ladder && c.tagA != DangerousTile && c.tagA < SmallTagLimit)
  }

  /** The entity fixture of a ground contact (side A is tested first). */
  function EntityUnderfoot(c: Contact): Option<FixtureId>
  {
    if c.tagA == Entity then Some(c.fixtureA)
    else if c.tagB == Entity then Some(c.fixtureB)
    else None
  }

  /** Applies one fired chain branch with `delta` = +1 (begin) or -1 (end). */
  function ApplyRule(s: ContactState, r: Rule, delta: int): ContactState
  {
    match r
    case LadderRule => s.(ladderContacts := s.ladderContacts + delta)
    case DangerRule => s.(dangerContacts := s.dangerContacts + delta)
    case FinishRule => s.(finishContacts := s.finishContacts + delta)
    case ButtonRule(id) => s.(buttons := s.buttons[id := PressCount(s.buttons, id) + delta])
    case NoRule => s
  }

  /** BeginContact on the listener's state. */
  function Begin(s: ContactState, c: Contact): ContactState
  {
    var s1 := match PlatformUnderfoot(c)
              case Some(p) => s.(movingPlatforms := s.movingPlatforms + {p})
              case None => s;
    var s2 := ApplyRule(s1, BeginRule(c), 1);
    var s3 := if BeginRule(c) == FinishRule then s2.(levelEntranceNum := FinishEntrance(c)) else s2;
    if IsGroundContact(c) then
      var s4 := s3.(groundContacts := s3.groundContacts + 1);
      match EntityUnderfoot(c)
      case Some(f) => s4.(entityFixturesUnderfoot := s4.entityFixturesUnderfoot + {f})
      case None => s4
    else s3
  }

  /** EndContact on the listener's state. */
  function End(s: ContactState, c: Contact): ContactState
  {
    var s1 := match PlatformUnderfoot(c)
              case Some(p) => s.(movingPlatforms := s.movingPlatforms - {p})
              case None => s;
    var s2 := ApplyRule(s1, EndRule(c), -1);
    if IsGroundContact(c) then
      var s3 := s2.(groundContacts := s2.groundContacts - 1);
      match EntityUnderfoot(c)
      case Some(f) => s3.(entityFixturesUnderfoot := s3.entityFixturesUnderfoot - {f})
      case None => s3
    else s2
  }

  /** The player's gravity scale after a begin that leaves `ladderContacts`. */
  function GravityAfterBegin(ladderContacts: int, scale: real): real
  {
    if ladderContacts > 0 then 0.0 else scale
  }

  /** The player's gravity scale after an end that leaves `ladderContacts`. */
  function GravityAfterEnd(ladderContacts: int, scale: real): real
  {
    if ladderContacts < 1 then 1.0 else scale
  }

  /** The gravity scale the player should have for a ladder count. */
  function LadderGravity(ladderContacts: int): real
  {
    if ladderContacts > 0 then 0.0 else 1.0
  }

  // ---------------------------------------------------------------------
  // Properties of a single contact

  /** Gravity is level-triggered: once the player's gravity scale agrees with
      the ladder count, every begin and every end keeps it in agreement. */
  lemma GravityTracksLadder(s: ContactState, c: Contact, scale: real)
    requires scale == LadderGravity(s.ladderContacts)
    ensures GravityAfterBegin(Begin(s, c).ladderContacts, scale) == LadderGravity(Begin(s, c).ladderContacts)
    ensures GravityAfterEnd(End(s, c).ladderContacts, scale) == LadderGravity(End(s, c).ladderContacts)
  {
  }

  /** Ladder, danger, finish and buttons form one else-if chain: a begin
      changes at most one of them, and so does an end. */
  lemma AtMostOneChainUpdate(s: ContactState, c: Contact)
    ensures var t := Begin(s, c);
      (if t.ladderContacts != s.ladderContacts then 1 else 0) +
      (if t.dangerContacts != s.dangerContacts then 1 else 0) +
      (if t.finishContacts != s.finishContacts then 1 else 0) +
      (if t.buttons != s.buttons then 1 else 0) <= 1
    ensures var t := End(s, c);
      (if t.ladderContacts != s.ladderContacts then 1 else 0) +
      (if t.dangerContacts != s.dangerContacts then 1 else 0) +
      (if t.finishContacts != s.finishContacts then 1 else 0) +
      (if t.buttons != s.buttons then 1 else 0) <= 1
  {
  }

  /** A begin of an encoded finish point `5000000 + level` against the
      player body, in either order, counts one more finish contact and
      records `level` as the entrance to go to. */
  lemma FinishBeginRecordsEntrance(s: ContactState, c: Contact, level: int)
    requires 0 <= level < PayloadBase
    requires Touches(c, Encode(FinishPoint, level), PlayerBody)
    ensures Begin(s, c).finishContacts == s.finishContacts + 1
    ensures Begin(s, c).levelEntranceNum == level
  {
    RoundTrip(FinishPoint, level);
  }

  /** The end of that same contact compares with the raw constant 5, which an
      encoded finish tag never equals: the finish count is not decremented. */
  lemma FinishEndKeepsCount(s: ContactState, c: Contact, level: int)
    requires 0 <= level < PayloadBase
    requires Touches(c, Encode(FinishPoint, level), PlayerBody)
    ensures EndRule(c) == NoRule
    ensures End(s, c).finishContacts == s.finishContacts
    ensures End(Begin(s, c), c).finishContacts == s.finishContacts + 1
  {
    RoundTrip(FinishPoint, level);
  }

  /** A button tag `7000000 + id` touching anything but the foot sensor (and
      not another button) presses button `id` once on begin, creating the
      entry at 0 first, and releases it once on end. */
  lemma ButtonPressAndRelease(s: ContactState, c: Contact, id: int, other: int)
    requires 0 <= id < PayloadBase
    requires other != PlayerSensor && CategoryOf(other) != Button
    requires Touches(c, Encode(Button, id), other)
    ensures BeginRule(c) == ButtonRule(id) && EndRule(c) == ButtonRule(id)
    ensures id in Begin(s, c).buttons
    ensures PressCount(Begin(s, c).buttons, id) == PressCount(s.buttons, id) + 1
    ensures PressCount(End(s, c).buttons, id) == PressCount(s.buttons, id) - 1
  {
    RoundTrip(Button, id);
  }

  /** The foot sensor on a button is no press. */
  lemma SensorDoesNotPress(s: ContactState, c: Contact, id: int)
    requires 0 <= id < PayloadBase
    requires Touches(c, Encode(Button, id), PlayerSensor)
    ensures BeginRule(c) == NoRule && EndRule(c) == NoRule
    ensures Begin(s, c).buttons == s.buttons && End(s, c).buttons == s.buttons
  {
    RoundTrip(Button, id);
  }

  /** What counts as ground under the foot sensor: plain ground, entities and
      moving platforms do; ladders, danger tiles and every encoded finish or
      button tag do not. */
  lemma GroundCategories(c: Contact, other: int)
    requires Touches(c, PlayerSensor, other)
    ensures other in {DefaultTag, Entity, MovingPlatform} ==> IsGroundContact(c)
    ensures other in {Ladder, DangerousTile} ==> !IsGroundContact(c)
    ensures (CategoryOf(other) == FinishPoint || CategoryOf(other) == Button) && other >= 0 ==> !IsGroundContact(c)
  {
  }

  /** A begin followed by the end of the same contact restores the ground,
      ladder and danger counts and every button's press count. */
  lemma MatchedPairRestores(s: ContactState, c: Contact)
    ensures var t := End(Begin(s, c), c);
      && t.groundContacts == s.groundContacts
      && t.ladderContacts == s.ladderContacts
      && t.dangerContacts == s.dangerContacts
      && forall id :: PressCount(t.buttons, id) == PressCount(s.buttons, id)
  {
  }

  /** movingPlatforms and entityFixturesUnderfoot are sets: after two begins
      of the same contact a single end removes the element. */
  lemma SingleEndErases(s: ContactState, c: Contact)
    requires PlatformUnderfoot(c).Some?
    ensures PlatformUnderfoot(c).value in Begin(Begin(s, c), c).movingPlatforms
    ensures PlatformUnderfoot(c).value !in End(Begin(Begin(s, c), c), c).movingPlatforms
  {
  }

  lemma SingleEndErasesEntity(s: ContactState, c: Contact)
    requires IsGroundContact(c) && EntityUnderfoot(c).Some?
    ensures EntityUnderfoot(c).value in Begin(Begin(s, c), c).entityFixturesUnderfoot
    ensures EntityUnderfoot(c).value !in End(Begin(Begin(s, c), c), c).entityFixturesUnderfoot
  {
  }

  // ---------------------------------------------------------------------
  // Runs of contact events

  datatype Event = BeginEvent(contact: Contact) | EndEvent(contact: Contact)

  function Step(s: ContactState, e: Event): ContactState
  {
    match e
    case BeginEvent(c) => Begin(s, c)
    case EndEvent(c) => End(s, c)
  }

  /** The state after the physics engine delivers `events` in order. */
  function Run(s: ContactState, events: seq<Event>): ContactState
    decreases |events|
  {
    if events == [] then s else Run(Step(s, events[0]), events[1..])
  }

  /** Begins whose chain fires `r`, minus ends whose chain fires `r`. */
  function Tally(events: seq<Event>, r: Rule): int
    decreases |events|
  {
    if events == [] then 0
    else
      var d := match events[0]
               case BeginEvent(c) => if BeginRule(c) == r then 1 else 0
               case EndEvent(c) => if EndRule(c) == r then -1 else 0;
      d + Tally(events[1..], r)
  }

  /** Ground begins minus ground ends. */
  function GroundTally(events: seq<Event>): int
    decreases |events|
  {
    if events == [] then 0
    else
      var d := if IsGroundContact(events[0].contact) then (if events[0].BeginEvent? then 1 else -1) else 0;
      d + GroundTally(events[1..])
  }

  /** Every counter is exactly its begins minus its ends, never clamped, over
      any run of events; each button's press count likewise. */
  lemma {:induction false} RunCounters(s: ContactState, events: seq<Event>)
    ensures var t := Run(s, events);
      && t.groundContacts == s.groundContacts + GroundTally(events)
      && t.ladderContacts == s.ladderContacts + Tally(events, LadderRule)
      && t.dangerContacts == s.dangerContacts + Tally(events, DangerRule)
      && t.finishContacts == s.finishContacts + Tally(events, FinishRule)
    decreases |events|
  {
    if events != [] {
      RunCounters(Step(s, events[0]), events[1..]);
    }
  }

  lemma {:induction false} RunPressCount(s: ContactState, events: seq<Event>, id: int)
    ensures PressCount(Run(s, events).buttons, id) == PressCount(s.buttons, id) + Tally(events, ButtonRule(id))
    decreases |events|
  {
    if events != [] {
      RunPressCount(Step(s, events[0]), events[1..], id);
    }
  }

  /** The exit recorded is the one of the last finish-point begin: a run
      that ends with such a begin leaves its level, whatever came before. */
  lemma {:induction false} LastFinishWins(s: ContactState, events: seq<Event>, c: Contact, level: int)
    requires 0 <= level < PayloadBase
    requires Touches(c, Encode(FinishPoint, level), PlayerBody)
    ensures Run(s, events + [BeginEvent(c)]).levelEntranceNum == level
    decreases |events|
  {
    if events == [] {
      assert events + [BeginEvent(c)] == [BeginEvent(c)];
      FinishBeginRecordsEntrance(s, c, level);
    } else {
      assert (events + [BeginEvent(c)])[1..] == events[1..] + [BeginEvent(c)];
      LastFinishWins(Step(s, events[0]), events[1..], c, level);
    }
  }
}
