/**
 * The whole-list transformations every ledger applies to its state: each
 * handler builds a new array with `map`, `filter` or a spread and assigns it
 * to its state cell. Records are matched by a key function given as a value
 * (the record's `id`, its `settled` flag, or the value itself).
 */
module RecordList {

  /** The key of a list of plain values: the value itself. */
  function Identity<T>(x: T): T { x }

  /** `s.map(x => key(x) === k ? f(x) : x)`. */
  function UpdateMatching<T, K(==)>(s: seq<T>, key: T -> K, k: K, f: T -> T): (r: seq<T>)
    ensures |r| == |s|
    ensures forall i :: 0 <= i < |s| ==> r[i] == if key(s[i]) == k then f(s[i]) else s[i]
  {
    if s == [] then []
    else [if key(s[0]) == k then f(s[0]) else s[0]] + UpdateMatching(s[1..], key, k, f)
  }

  /** `s.map(x => key(x) === k ? y : x)`: every record with key `k` becomes `y`. */
  function ReplaceMatching<T, K(==)>(s: seq<T>, key: T -> K, k: K, y: T): (r: seq<T>)
    ensures |r| == |s|
    ensures forall i :: 0 <= i < |s| ==> r[i] == if key(s[i]) == k then y else s[i]
  {
    UpdateMatching(s, key, k, _ => y)
  }

  /** No record of `s` has key `k`. */
  predicate NoneMatch<T, K(==)>(s: seq<T>, key: T -> K, k: K) {
    forall i :: 0 <= i < |s| ==> key(s[i]) != k
  }

  /** `s.filter(x => key(x) !== k)`. */
  function RemoveMatching<T, K(==)>(s: seq<T>, key: T -> K, k: K): (r: seq<T>)
    ensures |r| <= |s|
    ensures forall i :: 0 <= i < |r| ==> r[i] in s && key(r[i]) != k
    ensures forall i :: 0 <= i < |s| && key(s[i]) != k ==> s[i] in r
    ensures |r| == |s| <==> NoneMatch(s, key, k)
  {
    if s == [] then []
    else
      assert forall i :: 0 <= i < |s| - 1 ==> s[1..][i] == s[i + 1];
      (if key(s[0]) == k then [] else [s[0]]) + RemoveMatching(s[1..], key, k)
  }

  /** Removal keeps relative order: it distributes over concatenation. */
  lemma {:induction false} RemoveMatchingConcat<T, K>(a: seq<T>, b: seq<T>, key: T -> K, k: K)
    ensures RemoveMatching(a + b, key, k) == RemoveMatching(a, key, k) + RemoveMatching(b, key, k)
  {
    if a == [] {
      assert a + b == b;
    } else {
      assert (a + b)[1..] == a[1..] + b;
      RemoveMatchingConcat(a[1..], b, key, k);
    }
  }

  /** Removal leaves the list as it was exactly when no record has the key. */
  lemma {:induction false} RemoveMatchingIdentity<T, K>(s: seq<T>, key: T -> K, k: K)
    ensures RemoveMatching(s, key, k) == s <==> NoneMatch(s, key, k)
  {
    if NoneMatch(s, key, k) && s != [] {
      assert NoneMatch(s[1..], key, k) by {
        forall i | 0 <= i < |s[1..]| ensures key(s[1..][i]) != k { assert s[1..][i] == s[i + 1]; }
      }
      RemoveMatchingIdentity(s[1..], key, k);
      assert [s[0]] + s[1..] == s;
    }
    if RemoveMatching(s, key, k) == s {
      forall i | 0 <= i < |s| ensures key(s[i]) != k { assert s[i] in RemoveMatching(s, key, k); }
    }
  }

  /** Adding a record with a key no other record has, then removing that key, restores the list. */
  lemma PrependThenRemove<T, K>(y: T, s: seq<T>, key: T -> K)
    requires NoneMatch(s, key, key(y))
    ensures RemoveMatching([y] + s, key, key(y)) == s
  {
    RemoveMatchingConcat([y], s, key, key(y));
    RemoveMatchingIdentity(s, key, key(y));
  }

  /** As PrependThenRemove, for a record added at the end. */
  lemma AppendThenRemove<T, K>(s: seq<T>, y: T, key: T -> K)
    requires NoneMatch(s, key, key(y))
    ensures RemoveMatching(s + [y], key, key(y)) == s
  {
    RemoveMatchingConcat(s, [y], key, key(y));
    RemoveMatchingIdentity(s, key, key(y));
  }

  /** Removing the key of the one record that carries it leaves the records around it, in order. */
  lemma RemoveMatchingOne<T, K>(a: seq<T>, y: T, b: seq<T>, key: T -> K)
    requires NoneMatch(a, key, key(y)) && NoneMatch(b, key, key(y))
    ensures RemoveMatching(a + [y] + b, key, key(y)) == a + b
  {
    AppendThenRemove(a, y, key);
    RemoveMatchingConcat(a + [y], b, key, key(y));
    RemoveMatchingIdentity(b, key, key(y));
  }

  /** Updating with a key-preserving involution twice restores the list. */
  lemma UpdateMatchingTwice<T, K>(s: seq<T>, key: T -> K, k: K, f: T -> T)
    requires forall x :: key(x) == k ==> key(f(x)) == k && f(f(x)) == x
    ensures UpdateMatching(UpdateMatching(s, key, k, f), key, k, f) == s
  {
    var r := UpdateMatching(UpdateMatching(s, key, k, f), key, k, f);
    assert forall i :: 0 <= i < |s| ==> r[i] == s[i];
  }

  /** Updating distributes over concatenation. */
  lemma UpdateMatchingConcat<T, K>(a: seq<T>, b: seq<T>, key: T -> K, k: K, f: T -> T)
    ensures UpdateMatching(a + b, key, k, f) == UpdateMatching(a, key, k, f) + UpdateMatching(b, key, k, f)
  {
    var l, ua, ub := UpdateMatching(a + b, key, k, f), UpdateMatching(a, key, k, f), UpdateMatching(b, key, k, f);
    forall i | 0 <= i < |l| ensures l[i] == (ua + ub)[i] {
      if i < |a| {
        assert (a + b)[i] == a[i] && (ua + ub)[i] == ua[i];
      } else {
        assert (a + b)[i] == b[i - |a|] && (ua + ub)[i] == ub[i - |a|];
      }
    }
    assert l == ua + ub;
  }

  /** A list no record of which has the key is left as it was. */
  lemma UpdateMatchingNone<T, K>(s: seq<T>, key: T -> K, k: K, f: T -> T)
    requires NoneMatch(s, key, k)
    ensures UpdateMatching(s, key, k, f) == s
  {
    var r := UpdateMatching(s, key, k, f);
    assert forall i :: 0 <= i < |s| ==> r[i] == s[i];
  }

  predicate Distinct<T(==)>(s: seq<T>) {
    forall i, j :: 0 <= i < j < |s| ==> s[i] != s[j]
  }

  /** Removing records from a list without repeats leaves a list without repeats. */
  lemma {:induction false} RemoveMatchingDistinct<T, K>(s: seq<T>, key: T -> K, k: K)
    requires Distinct(s)
    ensures Distinct(RemoveMatching(s, key, k))
  {
    if s != [] {
      var rest := RemoveMatching(s[1..], key, k);
      assert Distinct(s[1..]) by {
        forall i, j | 0 <= i < j < |s[1..]| ensures s[1..][i] != s[1..][j] { assert s[1..][i] == s[i + 1] && s[1..][j] == s[j + 1]; }
      }
      RemoveMatchingDistinct(s[1..], key, k);
      assert s[0] !in s[1..];
      assert forall i :: 0 <= i < |rest| ==> rest[i] != s[0];
    }
  }
}
