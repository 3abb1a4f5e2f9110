/** Random placement of a new enemy by rejection sampling (`random_spawn`,
    written out three times in the source for the random-walk, chasing and
    drunk-bouncy enemies). The `random` module is an oracle: the model receives
    the sequence of (x, y) pairs that successive `randint` calls would return. */
module Spawn {

  /** One pair of `randint(0, width)`, `randint(0, height)` results. */
  type Draw = (int, int)

  /** What `randint` promises: both ends of each range are included. */
  predicate InCanvas(d: Draw, width: int, height: int)
  {
    0 <= d.0 <= width && 0 <= d.1 <= height
  }

  /** The loop condition of `random_spawn`: the draw lies within 100 of the
      player (exclusive) on the x axis OR on the y axis. */
  predicate Rejected(d: Draw, px: real, py: real)
  {
    (px - 100.0 < d.0 as real < px + 100.0) ||
    (py - 100.0 < d.1 as real < py + 100.0)
  }

  /** The oracle is usable: it only yields what `randint` may yield, and it
      eventually yields a draw the loop accepts. */
  predicate Feasible(draws: seq<Draw>, px: real, py: real, width: int, height: int)
  {
    (forall k :: 0 <= k < |draws| ==> InCanvas(draws[k], width, height)) &&
    exists k :: 0 <= k < |draws| && !Rejected(draws[k], px, py)
  }

  /** The draw `random_spawn` settles on: the first one the loop does not reject. */
  function FirstAccepted(draws: seq<Draw>, px: real, py: real): (d: Draw)
    requires exists k :: 0 <= k < |draws| && !Rejected(draws[k], px, py)
    ensures d in draws && !Rejected(d, px, py)
  {
    if !Rejected(draws[0], px, py) then draws[0]
    else
      assert exists k :: 0 <= k < |draws[1..]| && !Rejected(draws[1..][k], px, py) by {
        var k :| 0 <= k < |draws| && !Rejected(draws[k], px, py);
        assert k > 0 && draws[1..][k - 1] == draws[k];
      }
      FirstAccepted(draws[1..], px, py)
  }

  /** An accepted draw is at least 100 away from the player on BOTH axes. */
  lemma AcceptedIsFar(d: Draw, px: real, py: real)
    ensures !Rejected(d, px, py) <==>
            (d.0 as real <= px - 100.0 || d.0 as real >= px + 100.0) &&
            (d.1 as real <= py - 100.0 || d.1 as real >= py + 100.0)
  {
  }

  /** `random_spawn`: draw until the position is not within 100 of the player
      on either axis, and return that position. */
  method RandomSpawn(px: real, py: real, width: int, height: int, draws: seq<Draw>)
    returns (x: int, y: int)
    requires Feasible(draws, px, py, width, height)
    ensures (x, y) == FirstAccepted(draws, px, py)
    ensures 0 <= x <= width && 0 <= y <= height
    ensures !Rejected((x, y), px, py)
    ensures exists k :: 0 <= k < |draws| && draws[k] == (x, y) &&
                        forall j :: 0 <= j < k ==> Rejected(draws[j], px, py)
  {
    var k := 0;
    x, y := draws[0].0, draws[0].1;
    while Rejected((x, y), px, py)
      invariant 0 <= k < |draws| && (x, y) == draws[k]
      invariant forall j :: 0 <= j < k ==> Rejected(draws[j], px, py)
      invariant FirstAccepted(draws[k..], px, py) == FirstAccepted(draws, px, py)
      decreases |draws| - k
    {
      assert draws[k..][1..] == draws[k + 1..];
      k := k + 1;
      x, y := draws[k].0, draws[k].1;
    }
    assert draws[k..][0] == draws[k];
  }
}
