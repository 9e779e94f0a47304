/** The Box2D contact listener of Box2dOverrides.cpp as a class whose fields
    the contact callbacks update in place. Each method is proved to leave
    the fields as the functions of ContactRules say. */
module Listener {
  import opened Wrappers
  import opened Tags
  import opened ContactRules

  /** The part of a Box2D body the listener writes: its gravity scale.
      Box2D creates every body with scale 1. */
  class Body {
    var gravityScale: real

    constructor ()
      ensures gravityScale == 1.0
    {
      gravityScale := 1.0;
    }
  }

  class CollisionListener {
    var playerGroundContacts: int
    var playerDangerContacts: int
    var playerLadderContacts: int
    var playerFinishPointContacts: int
    var levelEntranceNum: int
    var movingPlatforms: set<BodyId>
    var entityFixturesUnderfoot: set<FixtureId>
    var buttons: map<int, int>
    var playerBody: Body?

    /** The listener's gameplay state as one value. */
    function State(): ContactState
      reads this
    {
      ContactState(playerGroundContacts, playerDangerContacts, playerLadderContacts,
                   playerFinishPointContacts, levelEntranceNum, movingPlatforms,
                   entityFixturesUnderfoot, buttons)
    }

    /** The player's gravity agrees with the ladder count. */
    ghost predicate GravityConsistent()
      reads this, playerBody
    {
      playerBody != null ==> playerBody.gravityScale == LadderGravity(playerLadderContacts)
    }

    /** Counters start at 0 (their in-class initialisers), the entrance at -1,
        no player body. */
    constructor ()
      ensures State() == Cleared()
      ensures playerBody == null
    {
      playerGroundContacts := 0;
      playerDangerContacts := 0;
      playerLadderContacts := 0;
      playerFinishPointContacts := 0;
      movingPlatforms := {};
      entityFixturesUnderfoot := {};
      buttons := map[];
      playerBody := null;
      levelEntranceNum := -1;
    }

    method SetPlayerBody(body: Body?)
      modifies this
      ensures playerBody == body
      ensures State() == old(State())
    {
      playerBody := body;
    }

    method NullPlayerBody()
      modifies this
      ensures playerBody == null
      ensures State() == old(State())
    {
      playerBody := null;
    }

    /** Resets every counter, the entrance, the sets and the button table,
        and forgets the player body. */
    method Clear()
      modifies this
      ensures State() == Cleared()
      ensures playerBody == null
    {
      playerGroundContacts := 0;
      playerDangerContacts := 0;
      playerLadderContacts := 0;
      playerFinishPointContacts := 0;
      levelEntranceNum := -1;
      movingPlatforms := {};
      buttons := map[];
      entityFixturesUnderfoot := {};
      playerBody := null;
    }

    method BeginContact(c: Contact)
      modifies this, playerBody
      ensures State() == Begin(old(State()), c)
      ensures playerBody == old(playerBody)
      ensures playerBody != null ==>
        playerBody.gravityScale == GravityAfterBegin(playerLadderContacts, old(playerBody.gravityScale))
      ensures old(GravityConsistent()) ==> GravityConsistent()
    {
      var a, b := c.tagA, c.tagB;
      ghost var s0 := State();

      if a == PlayerSensor && b == MovingPlatform {
        movingPlatforms := movingPlatforms + {c.bodyB};
      } else if a == MovingPlatform && b == PlayerSensor {
        movingPlatforms := movingPlatforms + {c.bodyA};
      }

      if (a == Ladder && b == PlayerBody) || (b == Ladder && a == PlayerBody) {
        playerLadderContacts := playerLadderContacts + 1;
      } else if (a == DangerousTile && b == PlayerBody) || (b == DangerousTile && a == PlayerBody) {
        playerDangerContacts := playerDangerContacts + 1;
      } else if CategoryOf(a) == FinishPoint && b == PlayerBody {
        playerFinishPointContacts := playerFinishPointContacts + 1;
        levelEntranceNum := a - FinishPoint * PayloadBase;
      } else if CategoryOf(b) == FinishPoint && a == PlayerBody {
        playerFinishPointContacts := playerFinishPointContacts + 1;
        levelEntranceNum := b - FinishPoint * PayloadBase;
      } else if a != PlayerSensor && CategoryOf(b) == Button {
        var id := b - Button * PayloadBase;
        buttons := buttons[id := PressCount(buttons, id) + 1];
      } else if CategoryOf(a) == Button && b != PlayerSensor {
        var id := a - Button * PayloadBase;
        buttons := buttons[id := PressCount(buttons, id) + 1];
      }

      if (a == PlayerSensor && b != Ladder && b != DangerousTile && b < SmallTagLimit) ||
         (b == PlayerSensor && a != Ladder && a != DangerousTile && a < SmallTagLimit) {
        playerGroundContacts := playerGroundContacts + 1;
        if a == Entity {
          entityFixturesUnderfoot := entityFixturesUnderfoot + {c.fixtureA};
        } else if b == Entity {
          entityFixturesUnderfoot := entityFixturesUnderfoot + {c.fixtureB};
        }
      }

      if playerLadderContacts > 0 && playerBody != null {
        playerBody.gravityScale := 0.0;
      }
      GravityTracksLadder(s0, c, LadderGravity(s0.ladderContacts));
    }

    method EndContact(c: Contact)
      modifies this, playerBody
      ensures State() == End(old(State()), c)
      ensures playerBody == old(playerBody)
      ensures playerBody != null ==>
        playerBody.gravityScale == GravityAfterEnd(playerLadderContacts, old(playerBody.gravityScale))
      ensures old(GravityConsistent()) ==> GravityConsistent()
    {
      var a, b := c.tagA, c.tagB;
      ghost var s0 := State();

      if a == PlayerSensor && b == MovingPlatform {
        movingPlatforms := movingPlatforms - {c.bodyB};
      } else if a == MovingPlatform && b == PlayerSensor {
        movingPlatforms := movingPlatforms - {c.bodyA};
      }

      if (a == Ladder && b == PlayerBody) || (b == Ladder && a == PlayerBody) {
        playerLadderContacts := playerLadderContacts - 1;
      } else if (a == DangerousTile && b == PlayerBody) || (b == DangerousTile && a == PlayerBody) {
        playerDangerContacts := playerDangerContacts - 1;
      } else if (a == FinishPoint && b == PlayerBody) || (b == FinishPoint && a == PlayerBody) {
        playerFinishPointContacts := playerFinishPointContacts - 1;
      } else if a != PlayerSensor && CategoryOf(b) == Button {
        var id := b - Button * PayloadBase;
        buttons := buttons[id := PressCount(buttons, id) - 1];
      } else if CategoryOf(a) == Button && b != PlayerSensor {
        var id := a - Button * PayloadBase;
        buttons := buttons[id := PressCount(buttons, id) - 1];
      }

      if (a == PlayerSensor && b != Ladder && b != DangerousTile && b < SmallTagLimit) ||
         (b == PlayerSensor && a != Ladder && a != DangerousTile && a < SmallTagLimit) {
        playerGroundContacts := playerGroundContacts - 1;
        if a == Entity {
          entityFixturesUnderfoot := entityFixturesUnderfoot - {c.fixtureA};
        } else if b == Entity {
          entityFixturesUnderfoot := entityFixturesUnderfoot - {c.fixtureB};
        }
      }

      if playerLadderContacts < 1 && playerBody != null {
        playerBody.gravityScale := 1.0;
      }
      GravityTracksLadder(s0, c, LadderGravity(s0.ladderContacts));
    }
  }
}
