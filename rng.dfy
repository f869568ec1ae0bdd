/**
 * The shared random stream `window.rng`. Its definition is not part of this model; what the
 * pipeline relies on is that each call returns the next number of a fixed stream, every number
 * in [0, 1). The stream is a function from draw index to value, and `cursor` counts the draws
 * made so far.
 *
 * Every scene object's `randRange(low, high)` is `low + rng() * (high - low)`: one draw,
 * `AbstractCanvasTexture.RandRange` applied to it.
 */
module Rng {
  import AbstractCanvasTexture

  /** Every number of the stream lies in [0, 1). */
  ghost predicate UnitStream(s: nat -> real)
  {
    forall n: nat :: 0.0 <= s(n) < 1.0
  }

  /** `randRange(low, high)` made with draw `k` of stream `s`. */
  function Draw(s: nat -> real, k: nat, low: real, high: real): (x: real)
    requires UnitStream(s)
    ensures low < high ==> low <= x < high
    ensures high < low ==> high < x <= low
    ensures low == high ==> x == low
  {
    AbstractCanvasTexture.RandRange(low, high, s(k))
  }

  /** Two streams that agree on the draws `k .. k + n - 1`. */
  ghost predicate AgreeOn(s: nat -> real, t: nat -> real, k: nat, n: nat)
  {
    forall j: nat :: k <= j < k + n ==> s(j) == t(j)
  }

  class Rng {
    /** The numbers `window.rng()` returns, in order. */
    const stream: nat -> real
    /** How many numbers have been drawn. */
    var cursor: nat

    ghost predicate Valid()
    {
      UnitStream(stream)
    }

    constructor (stream: nat -> real)
      requires UnitStream(stream)
      ensures Valid() && this.stream == stream && cursor == 0
    {
      this.stream := stream;
      cursor := 0;
    }

    /** `window.rng()`. */
    method Next() returns (r: real)
      requires Valid()
      modifies this
      ensures r == stream(old(cursor)) && cursor == old(cursor) + 1
      ensures 0.0 <= r < 1.0
    {
      r := stream(cursor);
      cursor := cursor + 1;
    }

    /** `randRange(low, high)`: one draw, scaled into the range. */
    method RandRange(low: real, high: real) returns (x: real)
      requires Valid()
      modifies this
      ensures x == Draw(stream, old(cursor), low, high) && cursor == old(cursor) + 1
    {
      var r := Next();
      var range := high - low;
      var n := r * range;
      x := low + n;
    }

    /** `n` draws consumed by code this model does not follow (a canvas painter). */
    method Skip(n: nat)
      modifies this
      ensures cursor == old(cursor) + n
    {
      cursor := cursor + n;
    }
  }
}
