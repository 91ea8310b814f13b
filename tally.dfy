/**
 * Counting occurrences, as a dictionary from each value seen to the number
 * of times it was seen, and the ratio of the smallest count to the
 * largest. Generic in the value counted.
 */
module Tallies {

  /** How often each element occurs, keyed by the elements that occur. */
  function Tally<T(==,!new)>(xs: seq<T>): map<T, nat>
    decreases |xs|
  {
    if xs == [] then map[]
    else
      var before := Tally(xs[..|xs| - 1]);
      var x := xs[|xs| - 1];
      before[x := (if x in before then before[x] else 0) + 1]
  }

  /** The keys of a tally are exactly the elements that occur, each mapped to its number of occurrences. */
  lemma {:induction false} TallyCounts<T(!new)>(xs: seq<T>)
    ensures forall x :: x in Tally(xs) <==> x in xs
    ensures forall x :: x in Tally(xs) ==> Tally(xs)[x] == multiset(xs)[x]
    decreases |xs|
  {
    if xs != [] {
      var prefix := xs[..|xs| - 1];
      TallyCounts(prefix);
      assert xs == prefix + [xs[|xs| - 1]];
    }
  }

  /** Tallying one more element adds one to its count. */
  lemma TallySnoc<T(!new)>(xs: seq<T>, x: T)
    ensures Tally(xs + [x]) == Tally(xs)[x := (if x in Tally(xs) then Tally(xs)[x] else 0) + 1]
  {
    assert (xs + [x])[..|xs|] == xs;
  }

  /** Counting the element at position `i` extends the tally of the first `i` elements to the first `i + 1`. */
  lemma TallyExtend<T(!new)>(xs: seq<T>, i: nat, counts: map<T, nat>)
    requires i < |xs| && counts == Tally(xs[..i])
    ensures counts[xs[i] := (if xs[i] in counts then counts[xs[i]] else 0) + 1] == Tally(xs[..i + 1])
  {
    assert xs[..i + 1] == xs[..i] + [xs[i]];
    TallySnoc(xs[..i], xs[i]);
  }

  /** A tally has at least one key for a non-empty sequence and never more keys than elements. */
  lemma {:induction false} TallyKeysBound<T(!new)>(xs: seq<T>)
    ensures |Tally(xs).Keys| <= |xs|
    ensures xs != [] ==> 1 <= |Tally(xs).Keys|
    decreases |xs|
  {
    if xs != [] {
      var prefix := xs[..|xs| - 1];
      var x := xs[|xs| - 1];
      TallyKeysBound(prefix);
      assert Tally(xs).Keys == Tally(prefix).Keys + {x};
    }
  }

  /** Counts every element of `xs`, one at a time. */
  method CountOccurrences<T(==,!new)>(xs: seq<T>) returns (counts: map<T, nat>)
    ensures counts == Tally(xs)
  {
    counts := map[];
    var i := 0;
    while i < |xs|
      invariant 0 <= i <= |xs|
      invariant counts == Tally(xs[..i])
    {
      var x := xs[i];
      TallyExtend(xs, i, counts);
      counts := counts[x := (if x in counts then counts[x] else 0) + 1];
      i := i + 1;
    }
    assert xs[..|xs|] == xs;
  }

  /** The smallest count of the elements of `xs`. */
  function MinCount<T>(counts: map<T, nat>, xs: seq<T>): nat
    requires xs != [] && forall i :: 0 <= i < |xs| ==> xs[i] in counts
    decreases |xs|
  {
    var last := xs[|xs| - 1];
    if |xs| == 1 then counts[last]
    else
      var before := MinCount(counts, xs[..|xs| - 1]);
      assert forall i :: 0 <= i < |xs| - 1 ==> xs[..|xs| - 1][i] == xs[i];
      if counts[last] < before then counts[last] else before
  }

  /** The largest count of the elements of `xs`. */
  function MaxCount<T>(counts: map<T, nat>, xs: seq<T>): nat
    requires xs != [] && forall i :: 0 <= i < |xs| ==> xs[i] in counts
    decreases |xs|
  {
    var last := xs[|xs| - 1];
    if |xs| == 1 then counts[last]
    else
      var before := MaxCount(counts, xs[..|xs| - 1]);
      assert forall i :: 0 <= i < |xs| - 1 ==> xs[..|xs| - 1][i] == xs[i];
      if before < counts[last] then counts[last] else before
  }

  /** The smallest and the largest count bound every count, and each is the count of some element. */
  lemma {:induction false} MinMaxCountBounds<T>(counts: map<T, nat>, xs: seq<T>)
    requires xs != [] && forall i :: 0 <= i < |xs| ==> xs[i] in counts
    ensures forall i :: 0 <= i < |xs| ==> MinCount(counts, xs) <= counts[xs[i]] <= MaxCount(counts, xs)
    ensures exists i :: 0 <= i < |xs| && MinCount(counts, xs) == counts[xs[i]]
    ensures exists i :: 0 <= i < |xs| && MaxCount(counts, xs) == counts[xs[i]]
    decreases |xs|
  {
    if |xs| > 1 {
      var prefix := xs[..|xs| - 1];
      assert forall i :: 0 <= i < |prefix| ==> prefix[i] == xs[i];
      MinMaxCountBounds(counts, prefix);
      var a :| 0 <= a < |prefix| && MinCount(counts, prefix) == counts[prefix[a]];
      var b :| 0 <= b < |prefix| && MaxCount(counts, prefix) == counts[prefix[b]];
      assert prefix[a] == xs[a] && prefix[b] == xs[b];
      var last := |xs| - 1;
      assert MinCount(counts, xs) == if counts[xs[last]] < counts[xs[a]] then counts[xs[last]] else counts[xs[a]];
      assert MaxCount(counts, xs) == if counts[xs[b]] < counts[xs[last]] then counts[xs[last]] else counts[xs[b]];
      if counts[xs[last]] < counts[xs[a]] {
        assert MinCount(counts, xs) == counts[xs[last]];
      } else {
        assert MinCount(counts, xs) == counts[xs[a]];
      }
      if counts[xs[b]] < counts[xs[last]] {
        assert MaxCount(counts, xs) == counts[xs[last]];
      } else {
        assert MaxCount(counts, xs) == counts[xs[b]];
      }
    } else {
      assert MinCount(counts, xs) == counts[xs[0]] == MaxCount(counts, xs);
    }
  }

  /** For the tally of `xs`, every count lies between the smallest and the largest, and the smallest is at least 1. */
  lemma CountsBetween<T(!new)>(counts: map<T, nat>, xs: seq<T>)
    requires xs != [] && counts == Tally(xs)
    ensures forall i :: 0 <= i < |xs| ==> xs[i] in counts
    ensures 1 <= MinCount(counts, xs) <= MaxCount(counts, xs)
    ensures forall x :: x in counts ==> MinCount(counts, xs) <= counts[x] <= MaxCount(counts, xs)
  {
    TallyCounts(xs);
    assert xs[0] in counts;
    MinMaxCountBounds(counts, xs);
    forall x | x in counts
      ensures MinCount(counts, xs) <= counts[x] <= MaxCount(counts, xs)
    {
      var k :| 0 <= k < |xs| && xs[k] == x;
    }
    var i :| 0 <= i < |xs| && MinCount(counts, xs) == counts[xs[i]];
    assert xs[i] in multiset(xs);
  }

  /** A ratio of two counts lies in (0, 1] when the first is positive and does not exceed the second, and is 1 exactly when they agree. */
  lemma RatioInUnit(part: nat, whole: nat)
    requires 1 <= part <= whole
    ensures 0.0 < part as real / whole as real <= 1.0
    ensures part as real / whole as real == 1.0 <==> part == whole
  {
    var r := part as real / whole as real;
    assert r * whole as real == part as real;
  }

  /** The smallest count over the largest count in the tally of `xs`; 1.0 for no elements. */
  function Balance<T(==,!new)>(xs: seq<T>): real
  {
    if xs == [] then 1.0
    else
      var counts := Tally(xs);
      CountsBetween(counts, xs);
      MinCount(counts, xs) as real / MaxCount(counts, xs) as real
  }

  /**
   * The balance lies in (0, 1]; it is 1.0 for no elements, and otherwise
   * exactly when every element that occurs occurs equally often.
   */
  lemma BalanceProperties<T(!new)>(xs: seq<T>)
    ensures 0.0 < Balance(xs) <= 1.0
    ensures xs == [] ==> Balance(xs) == 1.0
    ensures var counts := Tally(xs);
      Balance(xs) == 1.0 <==> forall a, b :: a in counts && b in counts ==> counts[a] == counts[b]
  {
    if xs != [] {
      var counts := Tally(xs);
      CountsBetween(counts, xs);
      var least := MinCount(counts, xs);
      var most := MaxCount(counts, xs);
      MinMaxCountBounds(counts, xs);
      RatioInUnit(least, most);
      if least != most {
        var i :| 0 <= i < |xs| && least == counts[xs[i]];
        var j :| 0 <= j < |xs| && most == counts[xs[j]];
        assert xs[i] in counts && xs[j] in counts && counts[xs[i]] != counts[xs[j]];
      }
    }
  }

  /** The smallest count over the largest, found in one pass over `xs`. */
  method BalanceOf<T(==,!new)>(xs: seq<T>, counts: map<T, nat>) returns (balance: real)
    requires counts == Tally(xs)
    ensures balance == Balance(xs)
  {
    if |xs| == 0 {
      return 1.0;
    }
    CountsBetween(counts, xs);
    var least := counts[xs[0]];
    var most := least;
    var i := 1;
    while i < |xs|
      invariant 1 <= i <= |xs|
      invariant least == MinCount(counts, xs[..i])
      invariant most == MaxCount(counts, xs[..i])
    {
      var count := counts[xs[i]];
      assert xs[..i + 1][..i] == xs[..i];
      if count < least {
        least := count;
      }
      if most < count {
        most := count;
      }
      i := i + 1;
    }
    assert xs[..|xs|] == xs;
    balance := least as real / most as real;
  }
}
