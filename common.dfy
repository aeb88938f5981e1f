/** Small shared vocabulary: an optional value, used wherever the source has `None`. */
module Common {

  datatype Option<T> = None | Some(value: T)

  /** True when no element occurs twice in `s`. */
  predicate Distinct<T(==)>(s: seq<T>)
  {
    forall i, j :: 0 <= i < j < |s| ==> s[i] != s[j]
  }

  /** The elements of `s`, as a set. */
  function Elements<T>(s: seq<T>): set<T>
  {
    set x | x in s
  }

  /** Concatenation regroups. */
  lemma AppendAssoc<T>(x: seq<T>, y: seq<T>, z: seq<T>)
    ensures x + (y + z) == x + y + z
  {
  }

  /** An element of a non-empty sequence is in its front part or is its last element. */
  lemma InSnoc<T>(s: seq<T>, x: T)
    requires |s| > 0
    ensures x in s <==> x in s[..|s| - 1] || x == s[|s| - 1]
  {
    assert s == s[..|s| - 1] + [s[|s| - 1]];
  }

  /** The elements of a non-empty sequence are its first element and the elements of the rest. */
  lemma ElementsCons<T>(s: seq<T>)
    requires |s| > 0
    ensures Elements(s) == {s[0]} + Elements(s[1..])
  {
    assert s == [s[0]] + s[1..];
  }

  /** A sequence without repetition has as many elements as its set. */
  lemma {:induction false} DistinctCard<T>(s: seq<T>)
    requires Distinct(s)
    ensures |Elements(s)| == |s|
  {
    if |s| > 0 {
      var init := s[..|s| - 1];
      assert Distinct(init);
      DistinctCard(init);
      assert s[|s| - 1] !in init;
      assert Elements(s) == Elements(init) + {s[|s| - 1]} by {
        assert s == init + [s[|s| - 1]];
      }
    }
  }

  /** `f` applied to the first `n` elements of `s`, in order. */
  function MapPrefix<T, U>(f: T -> U, s: seq<T>, n: nat): (r: seq<U>)
    requires n <= |s|
    ensures |r| == n
  {
    if n == 0 then [] else MapPrefix(f, s, n - 1) + [f(s[n - 1])]
  }

  /** Element `k` of the mapped prefix is `f` of element `k`. */
  lemma {:induction false} MapPrefixAt<T, U>(f: T -> U, s: seq<T>, n: nat, k: nat)
    requires k < n <= |s|
    ensures MapPrefix(f, s, n)[k] == f(s[k])
  {
    if k < n - 1 {
      MapPrefixAt(f, s, n - 1, k);
    }
  }

  /** How many leading elements of `s` satisfy `keep`: where a loop guarded by `keep` stops. */
  function CountWhile<T>(keep: T -> bool, s: seq<T>): (n: nat)
    ensures n <= |s|
    ensures n < |s| ==> !keep(s[n])
  {
    if |s| == 0 || !keep(s[0]) then 0
    else
      var rest := CountWhile(keep, s[1..]);
      assert rest < |s| - 1 ==> s[1..][rest] == s[rest + 1];
      1 + rest
  }

  /** Every element before the stopping point satisfies `keep`. */
  lemma {:induction false} CountWhileHolds<T>(keep: T -> bool, s: seq<T>, k: nat)
    requires k < CountWhile(keep, s)
    ensures keep(s[k])
  {
    if k > 0 {
      CountWhileHolds(keep, s[1..], k - 1);
      assert s[1..][k - 1] == s[k];
    }
  }

  /** An element satisfying `keep` at or before the stopping point lies before it. */
  lemma CountWhileStep<T>(keep: T -> bool, s: seq<T>, j: nat)
    requires j < |s| && keep(s[j]) && j <= CountWhile(keep, s)
    ensures j + 1 <= CountWhile(keep, s)
  {
  }

  /** `f` of every element of `s`, in order, up to the first one `keep` rejects. */
  method MapWhile<T, U>(s: seq<T>, keep: T -> bool, f: T -> U) returns (r: seq<U>)
    ensures r == MapPrefix(f, s, CountWhile(keep, s))
  {
    ghost var stop := CountWhile(keep, s);
    r := [];
    var j := 0;
    while j < |s| && keep(s[j])
      invariant j <= stop
      invariant r == MapPrefix(f, s, j)
    {
      CountWhileStep(keep, s, j);
      r := r + [f(s[j])];
      j := j + 1;
    }
    if j < stop {
      CountWhileHolds(keep, s, j);
    }
  }
}
