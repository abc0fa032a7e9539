/** Small datatypes and integer ranges shared by every module. */
module Basics {
  datatype Option<+T> = None | Some(value: T)

  datatype Result<+T, +E> = Ok(value: T) | Err(error: E)

  const TWO_TO_THE_64: nat := 0x1_0000_0000_0000_0000

  type U64 = n: int | 0 <= n < TWO_TO_THE_64

  type Byte = b: int | 0 <= b < 256

  /** Every event of a run was fine after the events before it. */
  ghost predicate AtEvery<E(!new)>(fine: (seq<E>, E) -> bool, events: seq<E>) {
    forall i :: 0 <= i < |events| ==> fine(events[..i], events[i])
  }

  lemma AtEveryNext<E(!new)>(fine: (seq<E>, E) -> bool, events: seq<E>, n: nat)
    requires |events| == n + 1
    ensures AtEvery(fine, events) <==> AtEvery(fine, events[..n]) && fine(events[..n], events[n])
  {
    var before := events[..n];
    assert forall i :: 0 <= i < n ==> before[..i] == events[..i] && before[i] == events[i];
  }
}
