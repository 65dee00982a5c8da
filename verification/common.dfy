/** Shared vocabulary of the model: optional values, order-preserving
    subsequences, and the keyed-list operations (JavaScript `find`/`findIndex`,
    replace-at-index and `filter` by key) that the reducers and the storage
    helpers are built from. Keys are compared with `==`, as the source compares
    ids with `===`. */
module Common {

  /** A value that may be absent (`undefined`/`null` in the source). */
  datatype Option<+T> = None | Some(value: T)

  /** `a` is obtained from `b` by deleting elements, keeping the order of the rest. */
  ghost predicate Subseq<T>(a: seq<T>, b: seq<T>)
    decreases |a| + |b|
  {
    if |a| == 0 then true
    else if |b| == 0 then false
    else (a[0] == b[0] && Subseq(a[1..], b[1..])) || Subseq(a, b[1..])
  }

  lemma {:induction false} SubseqRefl<T>(s: seq<T>)
    ensures Subseq(s, s)
    decreases |s|
  {
    if |s| > 0 {
      SubseqRefl(s[1..]);
    }
  }

  /** No two elements share a key ("at most one line per product id"). */
  ghost predicate UniqueKeys<T, K>(s: seq<T>, key: T -> K)
  {
    forall i, j :: 0 <= i < j < |s| ==> key(s[i]) != key(s[j])
  }

  /** Number of elements whose key is `k`. */
  function CountKey<T, K(==)>(s: seq<T>, key: T -> K, k: K): nat
  {
    if |s| == 0 then 0
    else (if key(s[0]) == k then 1 else 0) + CountKey(s[1..], key, k)
  }

  /** `findIndex(e => key(e) === k)`: the first position holding key `k`, or -1. */
  function FindIndex<T, K(==)>(s: seq<T>, key: T -> K, k: K): (r: int)
    ensures -1 <= r < |s|
    ensures r == -1 <==> forall i :: 0 <= i < |s| ==> key(s[i]) != k
    ensures 0 <= r ==> key(s[r]) == k && forall i :: 0 <= i < r ==> key(s[i]) != k
  {
    if |s| == 0 then -1
    else if key(s[0]) == k then 0
    else
      var j := FindIndex(s[1..], key, k);
      if j == -1 then -1 else j + 1
  }

  /** `s[findIndex(e => e.id === x.id)] = x` guarded by `index !== -1`:
      the first element with `x`'s key is replaced by `x`. */
  function ReplaceFirst<T, K(==)>(s: seq<T>, key: T -> K, x: T): (r: seq<T>)
    ensures |r| == |s|
    ensures (forall i :: 0 <= i < |s| ==> key(s[i]) != key(x)) ==> r == s
    ensures forall i :: 0 <= i < |s| ==> key(r[i]) == key(s[i])
    ensures forall i :: 0 <= i < |s| && r[i] != s[i] ==> r[i] == x
    ensures forall i :: 0 <= i < |s| && key(s[i]) == key(x) && (forall j :: 0 <= j < i ==> key(s[j]) != key(x)) ==> r[i] == x
  {
    var i := FindIndex(s, key, key(x));
    if i == -1 then s else s[i := x]
  }

  /** `s.filter(e => (key(e) === k) === keep)`: with `keep` false this drops every
      element keyed `k`, with `keep` true it keeps exactly those. */
  function FilterKey<T, K(==)>(s: seq<T>, key: T -> K, k: K, keep: bool): (r: seq<T>)
    ensures forall i :: 0 <= i < |r| ==> r[i] in s && (key(r[i]) == k) == keep
    ensures forall i :: 0 <= i < |s| && (key(s[i]) == k) == keep ==> s[i] in r
    ensures Subseq(r, s)
    ensures |r| == if keep then CountKey(s, key, k) else |s| - CountKey(s, key, k)
    ensures !keep && (forall i :: 0 <= i < |s| ==> key(s[i]) != k) ==> r == s
  {
    if |s| == 0 then []
    else
      var rest := FilterKey(s[1..], key, k, keep);
      assert s == [s[0]] + s[1..];
      if (key(s[0]) == k) == keep then
        var r := [s[0]] + rest;
        assert r[1..] == rest;
        r
      else
        rest
  }

  /** Filtering is a homomorphism over concatenation: it keeps the order of what it keeps. */
  lemma {:induction false} FilterKeyAppend<T, K>(a: seq<T>, b: seq<T>, key: T -> K, k: K, keep: bool)
    ensures FilterKey(a + b, key, k, keep) == FilterKey(a, key, k, keep) + FilterKey(b, key, k, keep)
    decreases |a|
  {
    if |a| == 0 {
      assert a + b == b;
    } else {
      assert (a + b)[1..] == a[1..] + b;
      assert (a + b)[0] == a[0];
      FilterKeyAppend(a[1..], b, key, k, keep);
    }
  }

  /** Filtering by key keeps keys unique. */
  lemma {:induction false} FilterKeyUnique<T, K>(s: seq<T>, key: T -> K, k: K, keep: bool)
    requires UniqueKeys(s, key)
    ensures UniqueKeys(FilterKey(s, key, k, keep), key)
    decreases |s|
  {
    if |s| > 0 {
      var rest := FilterKey(s[1..], key, k, keep);
      assert UniqueKeys(s[1..], key) by {
        forall i, j | 0 <= i < j < |s[1..]| ensures key(s[1..][i]) != key(s[1..][j]) {
          assert s[1..][i] == s[i + 1] && s[1..][j] == s[j + 1];
        }
      }
      FilterKeyUnique(s[1..], key, k, keep);
      if (key(s[0]) == k) == keep {
        HeadKeyFresh(s, key, rest);
        var r := [s[0]] + rest;
        forall i, j | 0 <= i < j < |r| ensures key(r[i]) != key(r[j]) {
          assert r[j] == rest[j - 1];
          if i > 0 {
            assert r[i] == rest[i - 1];
          }
        }
      }
    }
  }

  /** With unique keys, nothing drawn from the tail shares the head's key. */
  lemma HeadKeyFresh<T, K>(s: seq<T>, key: T -> K, rest: seq<T>)
    requires |s| > 0 && UniqueKeys(s, key)
    requires forall i :: 0 <= i < |rest| ==> rest[i] in s[1..]
    ensures forall i :: 0 <= i < |rest| ==> key(rest[i]) != key(s[0])
  {
    forall i | 0 <= i < |rest| ensures key(rest[i]) != key(s[0]) {
      var m :| 0 <= m < |s[1..]| && s[1..][m] == rest[i];
      assert s[m + 1] == rest[i];
    }
  }

  /** Replacing an element by one with the same key keeps keys unique. */
  lemma ReplaceFirstUnique<T, K>(s: seq<T>, key: T -> K, x: T)
    requires UniqueKeys(s, key)
    ensures UniqueKeys(ReplaceFirst(s, key, x), key)
  {
    var r := ReplaceFirst(s, key, x);
    forall i, j | 0 <= i < j < |r| ensures key(r[i]) != key(r[j]) {
      assert key(r[i]) == key(s[i]) && key(r[j]) == key(s[j]);
    }
  }

  /** Appending an element whose key is new keeps keys unique. */
  lemma AppendFreshUnique<T, K>(s: seq<T>, key: T -> K, x: T)
    requires UniqueKeys(s, key)
    requires forall i :: 0 <= i < |s| ==> key(s[i]) != key(x)
    ensures UniqueKeys(s + [x], key)
  {
    var r := s + [x];
    forall i, j | 0 <= i < j < |r| ensures key(r[i]) != key(r[j]) {
      assert r[i] == s[i];
      if j < |s| { assert r[j] == s[j]; }
    }
  }

  /** With unique keys the first match is the only match. */
  lemma UniqueFindIndex<T, K>(s: seq<T>, key: T -> K, i: int)
    requires UniqueKeys(s, key)
    requires 0 <= i < |s|
    ensures FindIndex(s, key, key(s[i])) == i
  {
  }

  /** The same, for every position at once and without a precondition. */
  lemma UniqueFindIndexAll<T, K>(s: seq<T>, key: T -> K)
    ensures UniqueKeys(s, key) ==> forall k :: 0 <= k < |s| ==> FindIndex(s, key, key(s[k])) == k
  {
    if UniqueKeys(s, key) {
      forall k | 0 <= k < |s| ensures FindIndex(s, key, key(s[k])) == k {
        UniqueFindIndex(s, key, k);
      }
    }
  }

  /** Subsequences compose: deleting from a subsequence deletes from the original. */
  lemma {:induction false} SubseqTrans<T>(a: seq<T>, b: seq<T>, c: seq<T>)
    requires Subseq(a, b) && Subseq(b, c)
    ensures Subseq(a, c)
    decreases |a| + |b| + |c|
  {
    if |a| > 0 {
      if b[0] == c[0] && Subseq(b[1..], c[1..]) {
        if a[0] == b[0] && Subseq(a[1..], b[1..]) {
          SubseqTrans(a[1..], b[1..], c[1..]);
        } else {
          SubseqTrans(a, b[1..], c[1..]);
        }
      } else {
        SubseqTrans(a, b, c[1..]);
      }
    }
  }

  /** `s.filter(f)`: the elements satisfying `f`, in their original order. */
  function Keep<T>(s: seq<T>, f: T -> bool): (r: seq<T>)
    ensures forall i :: 0 <= i < |r| ==> f(r[i])
    ensures Subseq(r, s)
    ensures |r| == CountIf(s, f) <= |s|
    ensures (forall i :: 0 <= i < |s| ==> f(s[i])) ==> r == s
  {
    if |s| == 0 then []
    else
      var rest := Keep(s[1..], f);
      assert s == [s[0]] + s[1..];
      if f(s[0]) then
        var r := [s[0]] + rest;
        assert r[1..] == rest;
        r
      else
        rest
  }

  /** Membership both ways: every kept element is from `s`, and every element
      of `s` satisfying `f` is kept. Stated apart from `Keep` so that proofs
      unfolding `Keep` do not chase membership back and forth. */
  lemma {:induction false} KeepMembers<T>(s: seq<T>, f: T -> bool)
    ensures forall i :: 0 <= i < |Keep(s, f)| ==> Keep(s, f)[i] in s
    ensures forall i :: 0 <= i < |s| && f(s[i]) ==> s[i] in Keep(s, f)
  {
    if |s| > 0 {
      KeepMembers(s[1..], f);
      KeepCons(s, f);
      assert forall x :: x in s[1..] ==> x in s;
    }
  }

  /** Number of elements satisfying `f`. */
  function CountIf<T>(s: seq<T>, f: T -> bool): (r: nat)
    ensures r <= |s|
  {
    if |s| == 0 then 0 else (if f(s[0]) then 1 else 0) + CountIf(s[1..], f)
  }

  /** A subsequence whose elements all satisfy `f` has at most as many elements
      as satisfy `f` in the whole. */
  lemma {:induction false} SubseqCountBound<T>(r: seq<T>, s: seq<T>, f: T -> bool)
    requires Subseq(r, s)
    requires forall i :: 0 <= i < |r| ==> f(r[i])
    ensures |r| <= CountIf(s, f)
    decreases |r| + |s|
  {
    if |r| > 0 {
      assert forall i :: 0 <= i < |r[1..]| ==> f(r[1..][i]) by {
        forall i | 0 <= i < |r[1..]| ensures f(r[1..][i]) {
          assert r[1..][i] == r[i + 1];
        }
      }
      if r[0] == s[0] && Subseq(r[1..], s[1..]) {
        SubseqCountBound(r[1..], s[1..], f);
      } else {
        SubseqCountBound(r, s[1..], f);
      }
    }
  }

  /** `Keep` is the only order-preserving selection of the elements satisfying
      `f` that keeps all of them: a subsequence of `s` whose elements satisfy `f`
      and which is as long as their count is `Keep(s, f)`. */
  lemma {:induction false} KeepExact<T>(r: seq<T>, s: seq<T>, f: T -> bool)
    requires Subseq(r, s)
    requires forall i :: 0 <= i < |r| ==> f(r[i])
    requires |r| == CountIf(s, f)
    ensures r == Keep(s, f)
    decreases |s|
  {
    if |s| > 0 && |r| > 0 {
      assert forall i :: 0 <= i < |r[1..]| ==> f(r[1..][i]) by {
        forall i | 0 <= i < |r[1..]| ensures f(r[1..][i]) {
          assert r[1..][i] == r[i + 1];
        }
      }
      if f(s[0]) {
        assert r[0] == s[0] && Subseq(r[1..], s[1..]) by {
          if !(r[0] == s[0] && Subseq(r[1..], s[1..])) {
            SubseqCountBound(r, s[1..], f);
          }
        }
        KeepExact(r[1..], s[1..], f);
        assert r == [r[0]] + r[1..];
      } else {
        assert Subseq(r, s[1..]);
        KeepExact(r, s[1..], f);
      }
    }
  }

  /** One step of `Keep`: the head is kept or dropped on its own. */
  lemma KeepCons<T>(s: seq<T>, f: T -> bool)
    requires |s| > 0
    ensures Keep(s, f) == (if f(s[0]) then [s[0]] + Keep(s[1..], f) else Keep(s[1..], f))
  {
  }

  /** Filtering twice is filtering once by the conjunction. */
  lemma {:induction false} KeepKeep<T>(s: seq<T>, f: T -> bool, g: T -> bool, h: T -> bool)
    requires forall x :: h(x) == (f(x) && g(x))
    ensures Keep(Keep(s, f), g) == Keep(s, h)
    decreases |s|
  {
    if |s| > 0 {
      KeepKeep(s[1..], f, g, h);
      if f(s[0]) {
        var t := Keep(s, f);
        assert t == [s[0]] + Keep(s[1..], f);
        assert t[0] == s[0] && t[1..] == Keep(s[1..], f);
      }
    }
  }

  /** `FilterKey` is `Keep` with the key test as the predicate. */
  lemma {:induction false} FilterKeyIsKeep<T, K>(s: seq<T>, key: T -> K, k: K, keep: bool, f: T -> bool)
    requires forall x :: f(x) == ((key(x) == k) == keep)
    ensures FilterKey(s, key, k, keep) == Keep(s, f)
    decreases |s|
  {
    if |s| > 0 {
      FilterKeyIsKeep(s[1..], key, k, keep, f);
    }
  }

  /** The contract of `FilterKey` determines its result: an order-preserving
      selection of the elements whose key test is `keep`, as long as their
      count, is the filter. */
  lemma FilterKeyExact<T, K>(r: seq<T>, s: seq<T>, key: T -> K, k: K, keep: bool)
    requires Subseq(r, s)
    requires forall i :: 0 <= i < |r| ==> (key(r[i]) == k) == keep
    requires |r| == if keep then CountKey(s, key, k) else |s| - CountKey(s, key, k)
    ensures r == FilterKey(s, key, k, keep)
  {
    var f := (x: T) => (key(x) == k) == keep;
    FilterKeyIsKeep(s, key, k, keep, f);
    KeepExact(r, s, f);
  }
}
