/** Small shared vocabulary: Go's error value, optional values, and facts about lists without duplicates. */
module Basics {

  datatype Option<+T> = None | Some(value: T)

  /** Go's `error`: nil, or an error value. */
  datatype Err = Nil | Error(reason: string)

  ghost function Elems<T>(xs: seq<T>): set<T> {
    set x | x in xs
  }

  ghost predicate NoDup<T>(xs: seq<T>) {
    forall i, j :: 0 <= i < j < |xs| ==> xs[i] != xs[j]
  }

  lemma {:induction false} NoDupCard<T>(xs: seq<T>)
    requires NoDup(xs)
    ensures |Elems(xs)| == |xs|
  {
    if xs == [] {
    } else {
      var front, last := xs[..|xs| - 1], xs[|xs| - 1];
      NoDupCard(front);
      assert last !in front;
      assert Elems(xs) == Elems(front) + {last};
    }
  }

  lemma TwiceCounted<T>(ys: seq<T>, i: nat, j: nat)
    requires i < j < |ys| && ys[i] == ys[j]
    ensures multiset(ys)[ys[i]] >= 2
  {
    assert ys == ys[..j] + [ys[j]] + ys[j + 1..];
    assert ys[i] == ys[..j][i];
    assert ys[i] in multiset(ys[..j]);
  }

  /** The elements of xs that do not occur in ys, in the order of xs. */
  function Unlisted(xs: seq<string>, ys: seq<string>): (r: seq<string>)
    ensures forall x :: x in r <==> x in xs && x !in ys
  {
    if xs == [] then []
    else if xs[0] in ys then Unlisted(xs[1..], ys)
    else [xs[0]] + Unlisted(xs[1..], ys)
  }

  /** Appending one element on the right of the filtered list. */
  lemma {:induction false} UnlistedSnoc(xs: seq<string>, x: string, ys: seq<string>)
    ensures Unlisted(xs + [x], ys) == Unlisted(xs, ys) + (if x in ys then [] else [x])
  {
    if xs == [] {
      assert [] + [x] == [x];
    } else {
      assert (xs + [x])[1..] == xs[1..] + [x];
      UnlistedSnoc(xs[1..], x, ys);
    }
  }
}
