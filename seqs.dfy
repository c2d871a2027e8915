/** The shape shared by the two movement loops of a tick: every element is
    advanced, and those that left the arena are spliced out. */
module Seqs {

  /** Each element of s mapped by f, keeping only those results that satisfy keep,
      in their original order. */
  function MapFilter<T>(s: seq<T>, f: T -> T, keep: T -> bool): (r: seq<T>)
    ensures |r| <= |s|
    ensures forall y :: y in r ==> keep(y)
  {
    if s == [] then []
    else (if keep(f(s[0])) then [f(s[0])] else []) + MapFilter(s[1..], f, keep)
  }

  /** The positions i >= from of s whose mapped element is kept, in increasing order. */
  function KeptIndices<T>(s: seq<T>, f: T -> T, keep: T -> bool, from: nat): seq<nat>
    requires from <= |s|
    decreases |s| - from
  {
    if from == |s| then []
    else (if keep(f(s[from])) then [from] else []) + KeptIndices(s, f, keep, from + 1)
  }

  /** The kept positions of the suffix s[from..] index the result one to one,
      in increasing order, and a position is kept exactly when its mapped
      element satisfies keep. */
  lemma {:induction false} MapFilterFrom<T>(s: seq<T>, f: T -> T, keep: T -> bool, from: nat)
    requires from <= |s|
    ensures var r, idx := MapFilter(s[from..], f, keep), KeptIndices(s, f, keep, from);
            |idx| == |r| &&
            (forall j :: 0 <= j < |idx| ==> from <= idx[j] < |s| && r[j] == f(s[idx[j]])) &&
            (forall j, k :: 0 <= j < k < |idx| ==> idx[j] < idx[k]) &&
            (forall m :: from <= m < |s| ==> (m in idx <==> keep(f(s[m]))))
    decreases |s| - from
  {
    if from < |s| {
      MapFilterFrom(s, f, keep, from + 1);
      assert s[from..][0] == s[from];
      assert s[from..][1..] == s[from + 1..];
    }
  }

  /** MapFilter removes an element exactly when its image fails keep, maps every
      survivor by f, and keeps the survivors in their original relative order. */
  lemma MapFilterMeaning<T>(s: seq<T>, f: T -> T, keep: T -> bool)
    ensures var r, idx := MapFilter(s, f, keep), KeptIndices(s, f, keep, 0);
            |idx| == |r| &&
            (forall j :: 0 <= j < |idx| ==> idx[j] < |s| && r[j] == f(s[idx[j]])) &&
            (forall j, k :: 0 <= j < k < |idx| ==> idx[j] < idx[k]) &&
            (forall m :: 0 <= m < |s| ==> (m in idx <==> keep(f(s[m]))))
  {
    MapFilterFrom(s, f, keep, 0);
    assert s[0..] == s;
  }

  /** One step of the loop that walks s backwards from its last index while
      splicing: with s[i + 1..] already walked, writing f(s[i]) at i and then
      either keeping it or splicing it out leaves s[i..] walked. */
  lemma BackwardStep<T>(s: seq<T>, f: T -> T, keep: T -> bool, i: nat, cur: seq<T>)
    requires i < |s|
    requires cur == s[..i + 1] + MapFilter(s[i + 1..], f, keep)
    ensures i < |cur| && cur[i] == s[i]
    ensures var c := cur[i := f(s[i])];
            (keep(f(s[i])) ==> c == s[..i] + MapFilter(s[i..], f, keep)) &&
            (!keep(f(s[i])) ==> c[..i] + c[i + 1..] == s[..i] + MapFilter(s[i..], f, keep))
  {
    assert s[i..][0] == s[i];
    assert s[i..][1..] == s[i + 1..];
    assert s[..i + 1] == s[..i] + [s[i]];
    var c := cur[i := f(s[i])];
    assert c == s[..i] + [f(s[i])] + MapFilter(s[i + 1..], f, keep);
  }
}
