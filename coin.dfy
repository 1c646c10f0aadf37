/** The collectible coin (coin.js) as a value: the state the player's pickup and
    the level's reset reason about. */
module CoinSpec {
  import opened Utils

  const COIN_SIZE: real := 20.0
  const FLOAT_SPEED: real := 0.05
  const FLOAT_AMPLITUDE: real := 5.0

  datatype CoinState = CoinState(
    x: real, y: real, originalY: real, floatOffset: real,
    isActive: bool, collected: bool)

  function Bounds(c: CoinState): Rect
  {
    Rect(c.x, c.y, COIN_SIZE, COIN_SIZE)
  }

  /** The coin invariant: a collected coin is out of play. */
  predicate Consistent(c: CoinState)
  {
    c.collected ==> !c.isActive
  }

  /** A new coin: active, not collected, floating round the height it was put at. */
  function Spawn(x: real, y: real): (c: CoinState)
    ensures c.x == x && c.y == y && c.originalY == y
    ensures c.isActive && !c.collected && Consistent(c)
  {
    CoinState(x, y, y, 0.0, true, false)
  }

  /** `collect`: the first call takes the coin out of play, later calls do nothing. */
  function Collect(c: CoinState): (r: CoinState)
    ensures r.collected
    ensures c.collected ==> r == c
    ensures !c.collected ==> !r.isActive
    ensures r.(isActive := c.isActive, collected := c.collected) == c
  {
    if c.collected then c else c.(collected := true, isActive := false)
  }

  /** `update`: an active coin bobs `wave * 5` round its original height, where
      `wave` is the sine of the clock; nothing else about the coin changes. */
  function Float(c: CoinState, wave: real): (r: CoinState)
    ensures !c.isActive ==> r == c
    ensures r.x == c.x && r.originalY == c.originalY
    ensures r.isActive == c.isActive && r.collected == c.collected
    ensures c.isActive && -1.0 <= wave <= 1.0 ==> -FLOAT_AMPLITUDE <= r.y - r.originalY <= FLOAT_AMPLITUDE
  {
    if !c.isActive then c
    else
      var offset := wave * FLOAT_AMPLITUDE;
      c.(floatOffset := offset, y := c.originalY + offset)
  }

  lemma CollectIsIdempotent(c: CoinState)
    ensures Collect(Collect(c)) == Collect(c)
  {
  }

  /** Every coin transition keeps the invariant `collected ==> !isActive`. */
  lemma TransitionsKeepConsistent(c: CoinState, wave: real)
    requires Consistent(c)
    ensures Consistent(Collect(c)) && Consistent(Float(c, wave))
  {
  }
}

/** The coin object, whose methods update its fields in place. */
module Coins {
  import opened Utils
  import opened CoinSpec

  class Coin {
    const width: real := COIN_SIZE
    const height: real := COIN_SIZE
    const floatSpeed: real := FLOAT_SPEED
    var x: real
    var y: real
    var originalY: real
    var floatOffset: real
    var isActive: bool
    var collected: bool

    function State(): CoinState
      reads this
    {
      CoinState(x, y, originalY, floatOffset, isActive, collected)
    }

    function GetBounds(): (r: Rect)
      reads this
      ensures r == Bounds(State())
    {
      Rect(x, y, width, height)
    }

    constructor (x: real, y: real)
      ensures State() == Spawn(x, y)
    {
      this.x := x;
      this.y := y;
      originalY := y;
      floatOffset := 0.0;
      isActive := true;
      collected := false;
    }

    method Collect()
      modifies this
      ensures State() == CoinSpec.Collect(old(State()))
    {
      if collected {
        return;
      }
      collected := true;
      isActive := false;
    }

    /** `sin` stands for `Math.sin` and `now` for `Date.now()`; the frame time is unused. */
    method Update(deltaTime: real, sin: real -> real, now: real)
      modifies this
      ensures State() == Float(old(State()), sin(now * FLOAT_SPEED))
    {
      if !isActive {
        return;
      }
      var wave := sin(now * floatSpeed);
      assert wave == sin(now * FLOAT_SPEED);
      floatOffset := wave * FLOAT_AMPLITUDE;
      y := originalY + floatOffset;
    }
  }

  /** The states of a list of coins, in order. */
  function States(cs: seq<Coin>): (r: seq<CoinState>)
    reads cs
    ensures |r| == |cs|
  {
    if cs == [] then [] else [cs[0].State()] + States(cs[1..])
  }

  /** The i-th state is the state of the i-th coin. */
  lemma {:induction false} StatesAt(cs: seq<Coin>)
    ensures forall i :: 0 <= i < |cs| ==> States(cs)[i] == cs[i].State()
  {
    if cs != [] {
      StatesAt(cs[1..]);
      forall i | 1 <= i < |cs|
        ensures States(cs)[i] == cs[i].State()
      {
        assert cs[1..][i - 1] == cs[i];
      }
    }
  }
}
