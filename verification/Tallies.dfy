/** Counting the members of a sequence that carry a given id. */
module Tallies {
  function Tally<T>(carries: (T, nat) -> bool, xs: seq<T>, id: nat): nat
  {
    if xs == [] then 0 else One(carries(xs[0], id)) + Tally(carries, xs[1..], id)
  }

  function One(b: bool): nat { if b then 1 else 0 }

  lemma {:induction false} TallyConcat<T>(carries: (T, nat) -> bool, a: seq<T>, b: seq<T>, id: nat)
    ensures Tally(carries, a + b, id) == Tally(carries, a, id) + Tally(carries, b, id)
  {
    if a == [] {
      assert a + b == b;
    } else {
      assert (a + b)[1..] == a[1..] + b;
      TallyConcat(carries, a[1..], b, id);
    }
  }

  /** One more member, at either end. */
  lemma TallyAppend<T>(carries: (T, nat) -> bool, xs: seq<T>, x: T, id: nat)
    ensures Tally(carries, xs + [x], id) == Tally(carries, xs, id) + One(carries(x, id))
    ensures Tally(carries, [x] + xs, id) == Tally(carries, xs, id) + One(carries(x, id))
  {
    TallyConcat(carries, xs, [x], id);
    TallyConcat(carries, [x], xs, id);
  }

  lemma TallySplit<T>(carries: (T, nat) -> bool, xs: seq<T>, i: nat, id: nat)
    requires i < |xs|
    ensures Tally(carries, xs, id)
      == Tally(carries, xs[..i], id) + One(carries(xs[i], id)) + Tally(carries, xs[i + 1..], id)
  {
    assert xs == xs[..i] + ([xs[i]] + xs[i + 1..]);
    TallyConcat(carries, xs[..i], [xs[i]] + xs[i + 1..], id);
    TallyAppend(carries, xs[i + 1..], xs[i], id);
  }

  lemma TallyUpdate<T>(carries: (T, nat) -> bool, xs: seq<T>, i: nat, x: T, id: nat)
    requires i < |xs|
    ensures Tally(carries, xs[i := x], id) + One(carries(xs[i], id)) == Tally(carries, xs, id) + One(carries(x, id))
  {
    var ys := xs[i := x];
    TallySplit(carries, xs, i, id);
    TallySplit(carries, ys, i, id);
    assert ys[..i] == xs[..i] && ys[i + 1..] == xs[i + 1..];
  }

  /** Two members that carry the id count for two. */
  lemma TallyPair<T>(carries: (T, nat) -> bool, xs: seq<T>, i: nat, j: nat, id: nat)
    requires i < |xs| && j < |xs| && i != j && carries(xs[i], id) && carries(xs[j], id)
    ensures Tally(carries, xs, id) >= 2
  {
    var lo, hi := if i < j then i else j, if i < j then j else i;
    TallySplit(carries, xs, lo, id);
    TallySplit(carries, xs[lo + 1..], hi - lo - 1, id);
  }
}
