/** The random source. A generator is a fixed tape of raw values read from a
    position that only draws move; a checkpoint is that position. Because every
    theorem ranges over all tapes, every in-range outcome of every draw is covered. */
module Randomness {
  import opened Base

  /** A fraction of the way from lo to hi, never all of it. */
  function Scale(fraction: real, lo: real, hi: real): (r: real)
    requires 0.0 <= fraction < 1.0 && lo <= hi
    ensures lo <= r <= hi && (lo < hi ==> r < hi)
  {
    var width := hi - lo;
    ProductNonNegative(fraction, width);
    assert lo < hi ==> (1.0 - fraction) * width > 0.0;
    assert (1.0 - fraction) * width == width - fraction * width;
    lo + fraction * width
  }

  datatype Tape = Tape(ints: nat -> int, reals: nat -> real) {

    /** The draw at position `pos`: uniform in the program, here any value of [lo, hi]. */
    function Int(pos: nat, lo: int, hi: int): (r: int)
      requires lo <= hi
      ensures lo <= r <= hi
    {
      lo + ints(pos) % (hi - lo + 1)
    }

    /** A fractional draw: any value of [lo, hi), or the one value of an empty range. */
    function Real(pos: nat, lo: real, hi: real): (r: real)
      requires lo <= hi
      ensures lo <= r <= hi && (lo < hi ==> r < hi)
    {
      Scale(reals(pos) - reals(pos).Floor as real, lo, hi)
    }

    /** The answers to requests made one after another from `pos` on. */
    function Draws(pos: nat, requests: seq<Request>): (r: seq<Draw>)
      requires forall i :: 0 <= i < |requests| ==> requests[i].Valid()
      ensures |r| == |requests|
    {
      if |requests| == 0 then []
      else
        var n := |requests| - 1;
        Draws(pos, requests[..n]) + [Answer(pos + n, requests[n])]
    }

    function Answer(pos: nat, request: Request): Draw
      requires request.Valid()
    {
      match request
      case IntIn(lo, hi) => DrawnInt(Int(pos, lo, hi))
      case RealIn(lo, hi) => DrawnReal(Real(pos, lo, hi))
    }
  }

  /** Every value of a range is some tape's draw, so quantifying over tapes is
      quantifying over every outcome the source may return. */
  lemma EveryIntIsDrawn(pos: nat, lo: int, hi: int, v: int)
    requires lo <= v <= hi
    ensures exists tape: Tape :: tape.Int(pos, lo, hi) == v
  {
    var tape := Tape((n: nat) => v - lo, (n: nat) => 0.0);
    assert tape.Int(pos, lo, hi) == v;
  }

  /** What is asked of the source: an integer or a fraction of a range. */
  datatype Request = IntIn(low: int, high: int) | RealIn(lowest: real, highest: real) {
    predicate Valid() {
      match this
      case IntIn(lo, hi) => lo <= hi
      case RealIn(lo, hi) => lo <= hi
    }
  }

  datatype Draw = DrawnInt(whole: int) | DrawnReal(fraction: real)

  class Random {
    const tape: Tape
    var pos: nat

    constructor (tape: Tape)
      ensures this.tape == tape && pos == 0
    {
      this.tape := tape;
      pos := 0;
    }

    method IntInclusive(lo: int, hi: int) returns (r: int)
      requires lo <= hi
      modifies this
      ensures r == tape.Int(old(pos), lo, hi) && pos == old(pos) + 1
    {
      r := tape.Int(pos, lo, hi);
      pos := pos + 1;
    }

    method FloatRange(lo: real, hi: real) returns (r: real)
      requires lo <= hi
      modifies this
      ensures r == tape.Real(old(pos), lo, hi) && pos == old(pos) + 1
    {
      r := tape.Real(pos, lo, hi);
      pos := pos + 1;
    }

    method MarshalBinary() returns (checkpoint: nat)
      ensures checkpoint == pos
    {
      checkpoint := pos;
    }

    method UnmarshalBinary(checkpoint: nat)
      modifies this
      ensures pos == checkpoint
    {
      pos := checkpoint;
    }

    /** Answers one request after another. */
    method DrawAll(requests: seq<Request>) returns (draws: seq<Draw>)
      requires forall i :: 0 <= i < |requests| ==> requests[i].Valid()
      modifies this
      ensures draws == tape.Draws(old(pos), requests) && pos == old(pos) + |requests|
    {
      draws := [];
      for i := 0 to |requests|
        invariant pos == old(pos) + i && draws == tape.Draws(old(pos), requests[..i])
      {
        assert requests[..i + 1][..i] == requests[..i];
        match requests[i]
        case IntIn(lo, hi) =>
          var whole := IntInclusive(lo, hi);
          draws := draws + [DrawnInt(whole)];
        case RealIn(lo, hi) =>
          var fraction := FloatRange(lo, hi);
          draws := draws + [DrawnReal(fraction)];
      }
      assert requests[..|requests|] == requests;
    }

    /** Restoring a checkpoint makes the source repeat the draws that followed it, whatever was drawn since. */
    method Replay(requests: seq<Request>, between: seq<Request>) returns (first: seq<Draw>, again: seq<Draw>)
      requires forall i :: 0 <= i < |requests| ==> requests[i].Valid()
      requires forall i :: 0 <= i < |between| ==> between[i].Valid()
      modifies this
      ensures again == first == tape.Draws(old(pos), requests) && pos == old(pos) + |requests|
    {
      var checkpoint := MarshalBinary();
      first := DrawAll(requests);
      var _ := DrawAll(between);
      UnmarshalBinary(checkpoint);
      again := DrawAll(requests);
    }
  }
}
