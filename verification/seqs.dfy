/** Small facts about sequences used as insertion-ordered key lists (a JavaScript `Map`'s keys). */
module Seqs {

  predicate Distinct<T(==)>(xs: seq<T>) {
    forall i, j :: 0 <= i < j < |xs| ==> xs[i] != xs[j]
  }

  lemma DistinctCons<T>(a: T, t: seq<T>)
    requires Distinct(t) && a !in t
    ensures Distinct([a] + t)
  {
    forall i, j | 0 <= i < j < |[a] + t| ensures ([a] + t)[i] != ([a] + t)[j] {
      if i > 0 {
        assert ([a] + t)[i] == t[i - 1];
      }
      assert ([a] + t)[j] == t[j - 1];
    }
  }

  lemma DistinctSnoc<T>(t: seq<T>, a: T)
    requires Distinct(t) && a !in t
    ensures Distinct(t + [a])
  {
    forall i, j | 0 <= i < j < |t + [a]| ensures (t + [a])[i] != (t + [a])[j] {
      assert (t + [a])[i] == t[i];
      if j < |t| {
        assert (t + [a])[j] == t[j];
      }
    }
  }

  lemma DistinctTail<T>(xs: seq<T>)
    requires |xs| > 0 && Distinct(xs)
    ensures Distinct(xs[1..]) && xs[0] !in xs[1..]
  {
    forall i, j | 0 <= i < j < |xs[1..]| ensures xs[1..][i] != xs[1..][j] {
      assert xs[1..][i] == xs[i + 1] && xs[1..][j] == xs[j + 1];
    }
    forall j | 0 <= j < |xs[1..]| ensures xs[1..][j] != xs[0] {
      assert xs[1..][j] == xs[j + 1];
    }
  }

  /** `xs` with `x` removed, order kept: `Map.prototype.delete` on the key list. */
  function Without<T(==,!new)>(xs: seq<T>, x: T): (r: seq<T>)
    ensures forall y :: y in r <==> y in xs && y != x
    ensures x !in xs ==> r == xs
    ensures Distinct(xs) ==> Distinct(r)
    ensures x in xs && Distinct(xs) ==> |r| == |xs| - 1
  {
    if |xs| == 0 then []
    else
      var tail := Without(xs[1..], x);
      if xs[0] == x then
        assert Distinct(xs) ==> x !in xs[1..] by {
          if Distinct(xs) {
            DistinctTail(xs);
          }
        }
        tail
      else
        assert xs == [xs[0]] + xs[1..];
        assert Distinct(xs) ==> Distinct([xs[0]] + tail) by {
          if Distinct(xs) {
            DistinctTail(xs);
            DistinctCons(xs[0], tail);
          }
        }
        [xs[0]] + tail
  }

  /** The integers `lo, lo + 1, ..., hi - 1`. */
  function Range(lo: nat, hi: nat): (r: seq<nat>)
    requires lo <= hi
    ensures |r| == hi - lo
    ensures forall i :: 0 <= i < |r| ==> r[i] == lo + i
    decreases hi - lo
  {
    if lo == hi then [] else [lo] + Range(lo + 1, hi)
  }

  /** Appending `lo` and then the rest of the range is appending the whole range. */
  lemma AppendRangeFront(xs: seq<nat>, lo: nat, hi: nat)
    requires lo < hi
    ensures xs + [lo] + Range(lo + 1, hi) == xs + Range(lo, hi)
  {
    assert Range(lo, hi) == [lo] + Range(lo + 1, hi);
  }
}
