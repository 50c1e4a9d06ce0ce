/** The multiprocessing queues between producers and their consumer loops.
    A queue's history is the sequence of everything put on it; producers end
    it with the "EOF" marker, and each consumer loop handles the records it
    takes off the queue until it meets that marker. */
module Queues {

  datatype Msg<+T> = Item(value: T) | Eof

  function Items<T>(xs: seq<T>): (q: seq<Msg<T>>)
    ensures |q| == |xs|
    ensures forall i :: 0 <= i < |xs| ==> q[i] == Item(xs[i])
  {
    seq(|xs|, i requires 0 <= i < |xs| => Item(xs[i]))
  }

  /** The records a consumer loop handles: those before the first "EOF". */
  function BeforeEof<T>(q: seq<Msg<T>>): seq<T>
  {
    if q == [] || q[0].Eof? then [] else [q[0].value] + BeforeEof(q[1..])
  }

  ghost predicate HasEof<T>(q: seq<Msg<T>>)
  {
    exists i :: 0 <= i < |q| && q[i].Eof?
  }

  /** The `while True: get(); if "EOF": break` loop shared by every consumer.
      `sawEof` is false when the history ends without the marker, i.e. when
      the consumer would still be blocked in `get()`. */
  method ConsumeUntilEof<T>(q: seq<Msg<T>>) returns (handled: seq<T>, sawEof: bool)
    ensures handled == BeforeEof(q)
    ensures sawEof <==> HasEof(q)
  {
    handled, sawEof := [], false;
    var i := 0;
    while i < |q| && !sawEof
      invariant 0 <= i <= |q|
      invariant !sawEof ==> handled + BeforeEof(q[i..]) == BeforeEof(q)
      invariant !sawEof ==> forall j :: 0 <= j < i ==> q[j].Item?
      invariant sawEof ==> handled == BeforeEof(q) && 0 < i && q[i - 1].Eof?
    {
      assert q[i..] == [q[i]] + q[i + 1..];
      if q[i].Eof? {
        sawEof := true;
      } else {
        handled := handled + [q[i].value];
      }
      i := i + 1;
    }
    if !sawEof {
      assert q[i..] == [];
    }
  }

  /** What a producer emits, `[records..., "EOF"]`, is handled back in full. */
  lemma {:induction false} ConsumeRoundTrip<T>(xs: seq<T>, rest: seq<Msg<T>>)
    ensures BeforeEof(Items(xs) + [Eof] + rest) == xs
    ensures HasEof(Items(xs) + [Eof] + rest)
  {
    var q := Items(xs) + [Eof] + rest;
    assert q[|xs|].Eof?;
    if xs != [] {
      ConsumeRoundTrip(xs[1..], rest);
      assert q[1..] == Items(xs[1..]) + [Eof] + rest;
    }
  }

  /** A history a producer stopped before its "EOF": the consumer handles
      every record and then stays blocked. */
  lemma {:induction false} ConsumeWithoutEof<T>(xs: seq<T>)
    ensures BeforeEof(Items(xs)) == xs
    ensures !HasEof(Items(xs))
  {
    if xs != [] {
      ConsumeWithoutEof(xs[1..]);
      assert Items(xs)[1..] == Items(xs[1..]);
    }
  }
}
