/** Properties that span the loader, the contact listener and the platform
    controller: the tags createHitboxes writes are the ones the listener
    decodes, and a button press reaches the platform it gates on the next
    doMovingPlatformLogic. */
module Scenarios {
  import opened Tags
  import opened ContactRules
  import P = Platforms
  import opened Loader

  /** A button object loaded with a platform id in [0, 100000): when any
      fixture other than the foot sensor or another button begins touching
      it, the listener raises that platform's press count by one, and the
      matching end lowers it again. */
  lemma {:induction false} LoadedButtonPresses(props: Properties, s: ContactState, other: int,
                                               bodyA: BodyId, fixtureA: FixtureId, bodyB: BodyId, fixtureB: FixtureId)
    requires "platformID" in props && 0 <= props["platformID"].intValue < SmallTagLimit
    requires other != PlayerSensor && CategoryOf(other) != Button
    ensures var c := Contact(HitboxTag("button", props), bodyA, fixtureA, other, bodyB, fixtureB);
      var id := props["platformID"].intValue;
      && BeginRule(c) == ButtonRule(id)
      && PressCount(Begin(s, c).buttons, id) == PressCount(s.buttons, id) + 1
      && End(Begin(s, c), c).buttons == Begin(s, c).buttons[id := PressCount(s.buttons, id)]
  {
    var c := Contact(HitboxTag("button", props), bodyA, fixtureA, other, bodyB, fixtureB);
    var id := props["platformID"].intValue;
    ButtonTagRoundTrip(props);
    ButtonPressAndRelease(s, c, id, other);
    ButtonPressAndRelease(Begin(s, c), c, id, other);
  }

  /** A finish object loaded with a level in [0, 1000000): the player body
      touching it records that level as the exit; and since its tag is never
      the bare category 5, the end of that contact never lowers the finish
      count again. */
  lemma {:induction false} LoadedFinishRecordsLevel(props: Properties, s: ContactState,
                                                    bodyA: BodyId, fixtureA: FixtureId, bodyB: BodyId, fixtureB: FixtureId)
    requires "level" in props ==> 0 <= props["level"].intValue < PayloadBase
    ensures var c := Contact(HitboxTag("finish", props), bodyA, fixtureA, PlayerBody, bodyB, fixtureB);
      var level := if "level" in props then props["level"].intValue else 0;
      && Begin(s, c).levelEntranceNum == level
      && Begin(s, c).finishContacts == s.finishContacts + 1
      && End(Begin(s, c), c).finishContacts == s.finishContacts + 1
  {
    var c := Contact(HitboxTag("finish", props), bodyA, fixtureA, PlayerBody, bodyB, fixtureB);
    var level := if "level" in props then props["level"].intValue else 0;
    FinishBeginRecordsEntrance(s, c, level);
    FinishEndKeepsCount(s, c, level);
  }

  /** A button object without a usable platform id keeps tag 0 and is a
      sensor, so the foot sensor standing in it counts as standing on
      ground. */
  lemma InvalidButtonIsGround(props: Properties, bodyA: BodyId, fixtureA: FixtureId, bodyB: BodyId, fixtureB: FixtureId)
    requires "platformID" !in props || props["platformID"].intValue >= SmallTagLimit
    ensures IsGroundContact(Contact(PlayerSensor, bodyA, fixtureA, HitboxTag("button", props), bodyB, fixtureB))
  {
    InvalidButtonIsDefault(props);
  }

  /** An entity stepping onto the button of a gated platform that nothing
      pressed before starts that platform on the next update, moving at its
      direction times its speed; stepping off again stops it, at rest, on
      the update after. */
  lemma {:induction false} ButtonDrivesPlatform(s: ContactState, c: Contact, id: int, other: int,
                                                ps: map<int, P.MovingPlatform>)
    requires 0 <= id < SmallTagLimit
    requires other != PlayerSensor && CategoryOf(other) != Button
    requires Touches(c, Encode(Button, id), other)
    requires PressCount(s.buttons, id) == 0
    requires id in ps && ps[id].usesButton
    ensures var ps1 := P.Update(ps, Begin(s, c).buttons);
      && id in ps1 && ps1[id].active
      && ps1[id].body.velocity == P.Times(ps1[id].direction, ps[id].speed)
    ensures var ps1 := P.Update(ps, Begin(s, c).buttons);
      var ps2 := P.Update(ps1, End(Begin(s, c), c).buttons);
      && id in ps2 && !ps2[id].active
      && ps2[id].body.velocity == P.Zero
      && ps2[id].direction == ps1[id].direction
  {
    var pressed := Begin(s, c);
    ButtonPressAndRelease(s, c, id, other);
    ButtonPressAndRelease(pressed, c, id, other);
    assert id in pressed.buttons && pressed.buttons[id] == 1;
    P.PressedRuns(ps, pressed.buttons, id);
    var ps1 := P.Update(ps, pressed.buttons);
    P.UpdateKeys(ps, pressed.buttons);
    assert ps1[id].usesButton;
    var released := End(pressed, c);
    assert id in released.buttons && released.buttons[id] == 0;
    P.UnpressedStops(ps1, released.buttons, id);
  }

  /** The foot sensor on a moving platform and on plain ground at once, then
      leaving the platform: the platform's tag 6 is below 100000, so leaving
      it also takes one ground contact away, leaving one. */
  lemma LeavingPlatformLeavesOneGround(platformBody: BodyId, groundBody: BodyId)
    requires platformBody != groundBody
    ensures var onPlatform := Contact(PlayerSensor, 1, 10, MovingPlatform, platformBody, 20);
      var onGround := Contact(PlayerSensor, 1, 10, DefaultTag, groundBody, 30);
      var t := Run(Cleared(), [BeginEvent(onPlatform), BeginEvent(onGround), EndEvent(onPlatform)]);
      && Run(Cleared(), [BeginEvent(onPlatform), BeginEvent(onGround)]).groundContacts == 2
      && t.groundContacts == 1
      && t.movingPlatforms == {}
  {
    var onPlatform := Contact(PlayerSensor, 1, 10, MovingPlatform, platformBody, 20);
    var onGround := Contact(PlayerSensor, 1, 10, DefaultTag, groundBody, 30);
    var s1 := Begin(Cleared(), onPlatform);
    assert s1.groundContacts == 1 && s1.movingPlatforms == {platformBody};
    var s2 := Begin(s1, onGround);
    assert s2.groundContacts == 2 && s2.movingPlatforms == {platformBody};
    var s3 := End(s2, onPlatform);
    assert s3.groundContacts == 1 && s3.movingPlatforms == {};
    var events := [BeginEvent(onPlatform), BeginEvent(onGround), EndEvent(onPlatform)];
    assert events[1..] == [BeginEvent(onGround), EndEvent(onPlatform)];
    assert events[1..][1..] == [EndEvent(onPlatform)];
    assert Run(s2, events[1..][1..]) == s3;
    assert Run(s1, events[1..]) == s3;
    assert Run(Cleared(), events) == s3;
    var two := [BeginEvent(onPlatform), BeginEvent(onGround)];
    assert two[1..] == [BeginEvent(onGround)];
    assert Run(s1, two[1..]) == s2;
    assert Run(Cleared(), two) == s2;
  }
}
