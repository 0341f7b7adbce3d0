/**
 * Values and sequence facts shared by the other modules: an optional value,
 * and the regroupings of concatenations that the proofs use to join the
 * pieces of a scan or a run without unfolding them.
 */
module Seqs {

  datatype Option<T> = None | Some(value: T)

  lemma AppendAssoc<T>(a: seq<T>, b: seq<T>, c: seq<T>)
    ensures a + (b + c) == (a + b) + c
  {
  }

  /** x is y, and y then r is whole: x then r is whole. */
  lemma Rewrite<T>(x: seq<T>, y: seq<T>, r: seq<T>, whole: seq<T>)
    requires x == y
    requires y + r == whole
    ensures x + r == whole
  {
  }

  /** whole is done then rest, and rest is e then after: whole is done, e, then after. */
  lemma Shift<T>(done: seq<T>, rest: seq<T>, whole: seq<T>, e: seq<T>, after: seq<T>)
    requires done + rest == whole
    requires rest == e + after
    ensures (done + e) + after == whole
  {
  }

  /** x is p followed by y, and y is q followed by z: x is pq followed by z. */
  lemma Cat<T>(x: seq<T>, y: seq<T>, z: seq<T>, p: seq<T>, q: seq<T>, pq: seq<T>)
    requires x == p + y && y == q + z && pq == p + q
    ensures x == pq + z
  {
  }
}
