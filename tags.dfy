/** Fixture tags: the single integer every Box2D fixture carries as user data.
    Plain categories are the small constants below; finish points and buttons
    pack a payload as `category * 1000000 + payload`. */
module Tags {

  const PlayerBody: int := 1
  const PlayerSensor: int := 2
  const DangerousTile: int := 3
  const Ladder: int := 4
  const FinishPoint: int := 5
  const MovingPlatform: int := 6
  const Button: int := 7
  const Entity: int := 8

  /** Plain ground and buttons without a usable platform id keep the default user data. */
  const DefaultTag: int := 0

  /** The multiplier separating a category from its payload. */
  const PayloadBase: int := 1000000

  /** Only tags below this bound count as ground under the foot sensor;
      it also bounds the platform ids a button may carry. */
  const SmallTagLimit: int := 100000

  /** C++ `tag / 1000000` on a signed int: the quotient truncated toward zero. */
  function CategoryOf(tag: int): (c: int)
    ensures tag >= 0 ==> 0 <= c && c * PayloadBase <= tag < c * PayloadBase + PayloadBase
    ensures tag < 0 ==> c <= 0 && c * PayloadBase - PayloadBase < tag <= c * PayloadBase
  {
    if tag >= 0 then tag / PayloadBase else -((-tag) / PayloadBase)
  }

  /** What the listener reads back as the payload once it has matched `category`. */
  function PayloadOf(tag: int, category: int): int
  {
    tag - category * PayloadBase
  }

  /** What the level loader writes for a finish point or a button. */
  function Encode(category: int, payload: int): int
  {
    category * PayloadBase + payload
  }

  /** Decoding an encoded tag gives back category and payload whenever the
      payload lies in [0, 1000000). */
  lemma {:induction false} RoundTrip(category: int, payload: int)
    requires 0 <= category && 0 <= payload < PayloadBase
    ensures CategoryOf(Encode(category, payload)) == category
    ensures PayloadOf(Encode(category, payload), category) == payload
  {
  }

  /** Conversely every non-negative tag is the encoding of its category and a
      payload in [0, 1000000): the split is unique. */
  lemma {:induction false} DecodeEncode(tag: int)
    requires tag >= 0
    ensures 0 <= PayloadOf(tag, CategoryOf(tag)) < PayloadBase
    ensures Encode(CategoryOf(tag), PayloadOf(tag, CategoryOf(tag))) == tag
  {
  }

  /** A payload that is negative leaks into the category below: a button
      tag built from platform id -5 decodes as category 6. */
  lemma NegativePayloadChangesCategory()
    ensures Encode(Button, -5) == 6999995
    ensures CategoryOf(Encode(Button, -5)) == MovingPlatform
  {
  }

  /** Every encoded finish or button tag with a non-negative payload is at
      least 5000000, so it is never below the ground bound and never equal to
      any plain category. */
  lemma {:induction false} EncodedTagsAreLarge(category: int, payload: int)
    requires category == FinishPoint || category == Button
    requires payload >= 0
    ensures Encode(category, payload) >= SmallTagLimit
    ensures Encode(category, payload) !in {PlayerBody, PlayerSensor, DangerousTile, Ladder, FinishPoint, MovingPlatform, Button, Entity, DefaultTag}
  {
  }
}
