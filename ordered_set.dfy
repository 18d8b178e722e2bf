/**
 * A JavaScript Set of strings: no repetitions, iterated (and turned into an array by
 * Array.from) in the order in which elements were first added.
 */
module OrderedSet {
  import opened StringOrder

  /** Set.prototype.add: appends x unless it is already present. */
  function Add(s: seq<string>, x: string): (r: seq<string>)
    ensures Distinct(s) ==> Distinct(r)
    ensures forall y :: y in r <==> y in s || y == x
    ensures x in s ==> r == s
    ensures x !in s ==> r == s + [x]
  {
    if x in s then s else s + [x]
  }

  /** Set.prototype.delete: removes x wherever it occurs. */
  function Delete(s: seq<string>, x: string): (r: seq<string>)
    ensures Distinct(s) ==> Distinct(r)
    ensures forall y :: y in r <==> y in s && y != x
    ensures |r| <= |s|
  {
    if s == [] then []
    else
      var rest := Delete(s[1..], x);
      assert Distinct(s) ==> s[0] !in s[1..];
      if s[0] == x then rest else [s[0]] + rest
  }

  /** Array.from(new Set(xs)): the first occurrence of each element, in order. */
  function FromSeq(xs: seq<string>): (r: seq<string>)
  {
    if xs == [] then [] else Add(FromSeq(xs[..|xs| - 1]), xs[|xs| - 1])
  }

  lemma {:induction false} FromSeqDistinct(xs: seq<string>)
    ensures Distinct(FromSeq(xs))
    ensures forall y :: y in FromSeq(xs) <==> y in xs
  {
    if xs != [] {
      FromSeqDistinct(xs[..|xs| - 1]);
      assert xs == xs[..|xs| - 1] + [xs[|xs| - 1]];
    }
  }

  /** A set built from a sequence without repetitions keeps that sequence as it is. */
  lemma {:induction false} FromSeqOfDistinct(xs: seq<string>)
    requires Distinct(xs)
    ensures FromSeq(xs) == xs
  {
    if xs != [] {
      FromSeqOfDistinct(xs[..|xs| - 1]);
      assert xs == xs[..|xs| - 1] + [xs[|xs| - 1]];
    }
  }
}
