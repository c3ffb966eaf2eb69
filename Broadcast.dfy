/** The trace of `xs.forEach(x => call(x))`, where each call makes exactly one
    logged interaction, and what that trace contains. */
module Broadcast {
  import opened Env

  /** The events logged by calling `call` on every element of `xs`, front to back. */
  function ForEachCall<T>(xs: seq<T>, call: T -> Event): (r: seq<Event>)
    ensures |r| == |xs|
  {
    if xs == [] then [] else [call(xs[0])] + ForEachCall(xs[1..], call)
  }

  /** Appending one element extends the trace by that element's call, and by nothing else. */
  lemma {:induction false} ForEachCallSnoc<T>(xs: seq<T>, x: T, call: T -> Event)
    ensures ForEachCall(xs + [x], call) == ForEachCall(xs, call) + [call(x)]
  {
    if xs == [] {
      assert [x][1..] == [];
    } else {
      assert (xs + [x])[1..] == xs[1..] + [x];
      ForEachCallSnoc(xs[1..], x, call);
    }
  }

  /** The i-th event is the call on the i-th element: one call per element, in order. */
  lemma {:induction false} ForEachCallAt<T>(xs: seq<T>, call: T -> Event, i: nat)
    requires i < |xs|
    ensures ForEachCall(xs, call)[i] == call(xs[i])
  {
    if i > 0 {
      ForEachCallAt(xs[1..], call, i - 1);
    }
  }

  /** An event is in the trace exactly when it is the call on some element. */
  lemma ForEachCallOnly<T>(xs: seq<T>, call: T -> Event, e: Event)
    ensures e in ForEachCall(xs, call) <==> exists i :: 0 <= i < |xs| && call(xs[i]) == e
  {
    var r := ForEachCall(xs, call);
    if e in r {
      var k :| 0 <= k < |r| && r[k] == e;
      ForEachCallAt(xs, call, k);
    }
    if exists i :: 0 <= i < |xs| && call(xs[i]) == e {
      var k :| 0 <= k < |xs| && call(xs[k]) == e;
      ForEachCallAt(xs, call, k);
      assert r[k] == e;
    }
  }
}
