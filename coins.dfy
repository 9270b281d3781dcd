/** Coin pickup, run whenever the player changes: every uncollected coin within reach of
    the player on both axes is marked collected, and each one adds COIN_VALUE (10) to
    the score as the list is mapped. Products with the value are written with the
    literal 10, which keeps the arithmetic linear for the solver. */
module Coins {
  import opened World

  const PICKUP_REACH: real := 30.0
  const COIN_VALUE: int := 10

  predicate InReach(p: Player, c: Coin) {
    Abs(p.x - c.x) < PICKUP_REACH && Abs(p.y - c.y) < PICKUP_REACH
  }

  /** Two coins are the same spawned coin: they differ at most in the collected flag. */
  predicate SameCoin(a: Coin, b: Coin) {
    a.id == b.id && a.x == b.x && a.y == b.y
  }

  /** How many coins are collected. */
  function CountCollected(cs: seq<Coin>): nat {
    if cs == [] then 0 else (if cs[0].collected then 1 else 0) + CountCollected(cs[1..])
  }

  /** How many positions hold a coin that is collected in `after` but was not in `before`. */
  function NewlyCollected(before: seq<Coin>, after: seq<Coin>): nat
    requires |before| == |after|
  {
    if before == [] then 0
    else (if !before[0].collected && after[0].collected then 1 else 0)
         + NewlyCollected(before[1..], after[1..])
  }

  /** The coin list and the score after a pickup. */
  datatype Pickup = Pickup(coins: seq<Coin>, score: int)

  /** The pickup as the source maps the list front to back, bumping the score once per
      coin it marks. */
  function Collect(p: Player, cs: seq<Coin>, score: int): (r: Pickup)
    // same coins, same order, same positions
    ensures |r.coins| == |cs|
    ensures forall i :: 0 <= i < |cs| ==> SameCoin(r.coins[i], cs[i])
    // a collected coin stays collected; an uncollected one becomes collected iff in reach
    ensures forall i :: 0 <= i < |cs| && cs[i].collected ==> r.coins[i].collected
    ensures forall i :: 0 <= i < |cs| && !cs[i].collected ==> (r.coins[i].collected <==> InReach(p, cs[i]))
    // the score rises by exactly COIN_VALUE per newly collected coin
    ensures r.score == score + 10 * NewlyCollected(cs, r.coins)
    decreases |cs|
  {
    if cs == [] then Pickup([], score)
    else
      var c := cs[0];
      var take := !c.collected && InReach(p, c);
      var rest := Collect(p, cs[1..], if take then score + COIN_VALUE else score);
      assert ([if take then c.(collected := true) else c] + rest.coins)[1..] == rest.coins;
      Pickup([if take then c.(collected := true) else c] + rest.coins, rest.score)
  }

  lemma {:induction false} NothingNewlyCollected(cs: seq<Coin>)
    ensures NewlyCollected(cs, cs) == 0
    decreases |cs|
  {
    if cs != [] {
      NothingNewlyCollected(cs[1..]);
    }
  }

  /** A second pickup at the same position collects nothing and leaves the score alone:
      each coin is collected, and paid for, at most once. */
  lemma CollectTwice(p: Player, cs: seq<Coin>, score: int, later: int)
    ensures Collect(p, Collect(p, cs, score).coins, later) == Pickup(Collect(p, cs, score).coins, later)
  {
    var once := Collect(p, cs, score).coins;
    var twice := Collect(p, once, later);
    assert twice.coins == once by {
      forall i | 0 <= i < |once| ensures twice.coins[i] == once[i] {
        assert SameCoin(once[i], cs[i]);
      }
    }
    NothingNewlyCollected(once);
  }

  /** When no coin loses its flag, the collected count grows by the newly collected ones. */
  lemma {:induction false} CollectedGrowth(before: seq<Coin>, after: seq<Coin>)
    requires |before| == |after|
    requires forall i :: 0 <= i < |before| && before[i].collected ==> after[i].collected
    ensures CountCollected(after) == CountCollected(before) + NewlyCollected(before, after)
    decreases |before|
  {
    if before != [] {
      CollectedGrowth(before[1..], after[1..]);
    }
  }

  /** The collected count of a concatenation. */
  lemma {:induction false} CountCollectedAppend(a: seq<Coin>, b: seq<Coin>)
    ensures CountCollected(a + b) == CountCollected(a) + CountCollected(b)
    decreases |a|
  {
    if a == [] {
      assert a + b == b;
    } else {
      assert (a + b)[1..] == a[1..] + b;
      CountCollectedAppend(a[1..], b);
    }
  }

  /** A list of uncollected coins (a freshly generated batch) adds nothing to the count. */
  lemma {:induction false} NoneCollected(cs: seq<Coin>)
    requires forall i :: 0 <= i < |cs| ==> !cs[i].collected
    ensures CountCollected(cs) == 0
    decreases |cs|
  {
    if cs != [] {
      NoneCollected(cs[1..]);
    }
  }

  /** So a pickup keeps the score equal to COIN_VALUE times the collected coins. */
  lemma ScoreTracksCoins(p: Player, cs: seq<Coin>, score: int)
    requires score == 10 * CountCollected(cs)
    ensures Collect(p, cs, score).score == 10 * CountCollected(Collect(p, cs, score).coins)
  {
    CollectedGrowth(cs, Collect(p, cs, score).coins);
  }
}
