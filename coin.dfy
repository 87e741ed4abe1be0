/** Coins (coin.py): collectibles that fall to the ground. */
module Coins {
  import opened Geometry
  import opened Dicts
  import opened Settings

  const CoinSize := 40
  /** Per-frame gravity of a coin. */
  const CoinGravity := 0.5

  /** `collected` is part of the saved state; no code in the game sets it. */
  datatype Coin = Coin(rect: Rect, value: int, collected: bool, velocityY: real)

  /** Coin(x, y, value): a 40x40 coin at rest at (x, y). */
  function NewCoin(x: int, y: int, value: int): (c: Coin)
    ensures WellFormed(c) && c.rect.x == x && c.rect.y == y
    ensures c.value == value && !c.collected && c.velocityY == 0.0
  {
    Coin(Rect(x, y, CoinSize, CoinSize), value, false, 0.0)
  }

  predicate WellFormed(c: Coin)
  {
    c.rect.w == CoinSize && c.rect.h == CoinSize
  }

  /** update: a collected coin stays put; otherwise it falls one frame and comes to rest
      on the ground. */
  function Update(c: Coin): (r: Coin)
    ensures c.collected ==> r == c
    ensures !c.collected ==> r == c.(rect := c.rect.(y := r.rect.y), velocityY := r.velocityY)
    ensures !c.collected ==> r.rect.Bottom() <= GroundLevel
    ensures !c.collected ==>
      (r.rect.Bottom() == GroundLevel && r.velocityY == 0.0) ||
      (r.velocityY == c.velocityY + CoinGravity && r.rect.y == ToRectInt(c.rect.y as real + r.velocityY))
    ensures !c.collected ==>
      var lands := ToRectInt(c.rect.y as real + (c.velocityY + CoinGravity)) + c.rect.h >= GroundLevel;
      (lands ==> r.rect.Bottom() == GroundLevel && r.velocityY == 0.0)
      && (!lands ==> r.velocityY == c.velocityY + CoinGravity && r.rect.y == ToRectInt(c.rect.y as real + r.velocityY))
  {
    if c.collected then c
    else
      var (r1, v1, _) := Fall(c.rect, c.velocityY, CoinGravity);
      c.(rect := r1, velocityY := v1)
  }

  /** coins.update(): every coin of the group, in order. */
  function UpdateAll(cs: seq<Coin>): (r: seq<Coin>)
    ensures |r| == |cs| && forall i :: 0 <= i < |cs| ==> r[i] == Update(cs[i])
  {
    seq(|cs|, i requires 0 <= i < |cs| => Update(cs[i]))
  }

  /** A coin left alone comes to rest on the ground: once there with zero velocity, an
      update leaves it unchanged. */
  lemma RestingCoinStays(c: Coin)
    requires c.rect.Bottom() == GroundLevel && c.velocityY == 0.0
    ensures Update(c) == c
  {
  }

  datatype CoinRecord = CoinRecord(x: Option<int>, y: Option<int>, value: Option<int>,
                                   collected: Option<bool>, velocityY: Option<real>) {
    predicate IsEmpty() { x.None? && y.None? && value.None? && collected.None? && velocityY.None? }
  }

  function ToDict(c: Coin): (d: CoinRecord)
    ensures !d.IsEmpty()
    ensures d.x == Some(c.rect.x) && d.y == Some(c.rect.y) && d.value == Some(c.value)
    ensures d.collected == Some(c.collected) && d.velocityY == Some(c.velocityY)
  {
    CoinRecord(Some(c.rect.x), Some(c.rect.y), Some(c.value), Some(c.collected), Some(c.velocityY))
  }

  /** from_dict: missing keys keep the current values, except velocity_y, which falls back
      to 0.0. */
  function FromDict(c: Coin, d: CoinRecord): (r: Coin)
    ensures r.rect.x == d.x.GetOr(c.rect.x) && r.rect.y == d.y.GetOr(c.rect.y)
    ensures r.value == d.value.GetOr(c.value) && r.collected == d.collected.GetOr(c.collected)
    ensures r.velocityY == d.velocityY.GetOr(0.0)
    ensures r.rect.w == c.rect.w && r.rect.h == c.rect.h
  {
    c.(rect := c.rect.(x := d.x.GetOr(c.rect.x), y := d.y.GetOr(c.rect.y)),
       value := d.value.GetOr(c.value),
       collected := d.collected.GetOr(c.collected),
       velocityY := d.velocityY.GetOr(0.0))
  }

  /** Coin(0, 0, initial_data=d), as the environment rebuilds a saved coin. */
  function Restore(d: CoinRecord): (c: Coin)
    ensures WellFormed(c)
  {
    var c := NewCoin(0, 0, 1);
    if d.IsEmpty() then c else FromDict(c, d)
  }

  /** All five saved fields come back exactly. */
  lemma RoundTrip(c: Coin)
    requires WellFormed(c)
    ensures Restore(ToDict(c)) == c
  {
  }

  /** A missing velocity_y resets the velocity; any other missing key keeps its field. */
  lemma MissingKeys(c: Coin, d: CoinRecord)
    ensures d.velocityY.None? ==> FromDict(c, d).velocityY == 0.0
    ensures d.x.None? ==> FromDict(c, d).rect.x == c.rect.x
    ensures d.y.None? ==> FromDict(c, d).rect.y == c.rect.y
    ensures d.value.None? ==> FromDict(c, d).value == c.value
    ensures d.collected.None? ==> FromDict(c, d).collected == c.collected
  {
  }
}
