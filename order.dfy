/**
 * A deterministic rendering order for registry keys: ascending by Go's
 * string comparison (byte-wise on UTF-8, which orders code points the same
 * way as comparing characters one by one).
 */
module StringOrder {

  /** `a <= b` in lexicographic order. */
  predicate Below(a: string, b: string) {
    a == [] || (b != [] && (a[0] < b[0] || (a[0] == b[0] && Below(a[1..], b[1..]))))
  }

  /** `a < b` in lexicographic order. */
  predicate Precedes(a: string, b: string) {
    Below(a, b) && a != b
  }

  lemma {:induction false} BelowReflexive(a: string)
    ensures Below(a, a)
    decreases |a|
  {
    if a != [] {
      BelowReflexive(a[1..]);
    }
  }

  lemma {:induction false} BelowAntisymmetric(a: string, b: string)
    requires Below(a, b) && Below(b, a)
    ensures a == b
    decreases |a|
  {
    if a != [] {
      BelowAntisymmetric(a[1..], b[1..]);
      assert a == [a[0]] + a[1..] && b == [b[0]] + b[1..];
    }
  }

  lemma {:induction false} BelowTransitive(a: string, b: string, c: string)
    requires Below(a, b) && Below(b, c)
    ensures Below(a, c)
    decreases |a|
  {
    if a != [] && a[0] == b[0] == c[0] {
      BelowTransitive(a[1..], b[1..], c[1..]);
    }
  }

  lemma {:induction false} BelowTotal(a: string, b: string)
    ensures Below(a, b) || Below(b, a)
    decreases |a|
  {
    if a != [] && b != [] && a[0] == b[0] {
      BelowTotal(a[1..], b[1..]);
    }
  }

  lemma BelowAntisymmetricAll()
    ensures forall a: string, b: string :: Below(a, b) && Below(b, a) ==> a == b
  {
    forall a: string, b: string | Below(a, b) && Below(b, a) ensures a == b {
      BelowAntisymmetric(a, b);
    }
  }

  /** Strings that agree up to their first difference are ordered by it. */
  lemma {:induction false} PrecedesAtFirstDifference(prefix: string, a: string, b: string)
    requires a != [] && b != [] && a[0] < b[0]
    ensures Precedes(prefix + a, prefix + b)
    decreases |prefix|
  {
    if prefix != [] {
      PrecedesAtFirstDifference(prefix[1..], a, b);
      assert (prefix + a)[1..] == prefix[1..] + a;
      assert (prefix + b)[1..] == prefix[1..] + b;
    }
  }

  /** Every non-empty finite set of keys has a least element. */
  lemma {:induction false} LeastKeyExists(keys: set<string>)
    requires keys != {}
    ensures exists k :: k in keys && forall y :: y in keys ==> Below(k, y)
    decreases |keys|
  {
    var x :| x in keys;
    var rest := keys - {x};
    if rest == {} {
      BelowReflexive(x);
      assert keys == {x};
      assert forall y :: y in keys ==> Below(x, y);
    } else {
      LeastKeyExists(rest);
      var m :| m in rest && forall y :: y in rest ==> Below(m, y);
      var least := LesserOfTwo(x, m, rest);
      assert keys == rest + {x};
    }
  }

  /** If `m` is least in `rest`, the lesser of `x` and `m` is least in `rest + {x}`. */
  lemma LesserOfTwo(x: string, m: string, rest: set<string>) returns (least: string)
    requires m in rest && forall y :: y in rest ==> Below(m, y)
    ensures least in rest + {x} && forall y :: y in rest + {x} ==> Below(least, y)
  {
    BelowTotal(x, m);
    BelowReflexive(x);
    if Below(x, m) {
      least := x;
      forall y | y in rest ensures Below(x, y) {
        BelowTransitive(x, m, y);
      }
    } else {
      least := m;
    }
  }

  /** The least key of a non-empty set. */
  function LeastKey(keys: set<string>): (k: string)
    requires keys != {}
    ensures k in keys && forall y :: y in keys ==> Below(k, y)
  {
    LeastKeyExists(keys);
    BelowAntisymmetricAll();
    var k :| k in keys && forall y :: y in keys ==> Below(k, y);
    k
  }

  predicate StrictlySorted(s: seq<string>) {
    forall i, j :: 0 <= i < j < |s| ==> Precedes(s[i], s[j])
  }

  /** The keys of a set in ascending order, each exactly once. */
  function SortedKeys(keys: set<string>): (r: seq<string>)
    ensures |r| == |keys|
    ensures forall k :: k in r <==> k in keys
    ensures StrictlySorted(r)
    decreases |keys|
  {
    if keys == {} then []
    else
      var k := LeastKey(keys);
      [k] + SortedKeys(keys - {k})
  }

  /** A strictly ascending sequence is determined by the set of its elements. */
  lemma {:induction false} StrictlySortedUnique(a: seq<string>, b: seq<string>)
    requires StrictlySorted(a) && StrictlySorted(b)
    requires forall k :: k in a <==> k in b
    ensures a == b
    decreases |a|
  {
    if a == [] {
      assert forall i :: 0 <= i < |b| ==> b[i] in b;
      assert b == [];
    } else {
      assert b != [] by { assert a[0] in b; }
      assert a[0] == b[0] by {
        assert a[0] in b && b[0] in a;
        var i :| 0 <= i < |b| && b[i] == a[0];
        var j :| 0 <= j < |a| && a[j] == b[0];
        if a[0] != b[0] {
          assert i > 0 && j > 0;
          assert Precedes(b[0], b[i]) && Precedes(a[0], a[j]);
          BelowAntisymmetric(a[0], b[0]);
        }
      }
      forall k ensures k in a[1..] <==> k in b[1..] {
        if k in a[1..] {
          var i :| 1 <= i < |a| && a[i] == k;
          assert Precedes(a[0], a[i]);
          assert k in b;
        }
        if k in b[1..] {
          var i :| 1 <= i < |b| && b[i] == k;
          assert Precedes(b[0], b[i]);
          assert k in a;
        }
      }
      StrictlySortedUnique(a[1..], b[1..]);
      assert a == [a[0]] + a[1..] && b == [b[0]] + b[1..];
    }
  }

  /** The keys strictly before `k`, and those strictly after it. */
  function KeysBefore(keys: set<string>, k: string): set<string> {
    set x | x in keys && Precedes(x, k)
  }

  function KeysAfter(keys: set<string>, k: string): set<string> {
    set x | x in keys && Precedes(k, x)
  }

  /** Every key sits between the keys before it and the keys after it. */
  lemma SortedKeysSplit(keys: set<string>, k: string)
    requires k in keys
    ensures SortedKeys(keys) == SortedKeys(KeysBefore(keys, k)) + [k] + SortedKeys(KeysAfter(keys, k))
  {
    var s := SortedKeys(KeysBefore(keys, k)) + [k] + SortedKeys(KeysAfter(keys, k));
    AroundKeySorted(SortedKeys(KeysBefore(keys, k)), k, SortedKeys(KeysAfter(keys, k)));
    forall x ensures x in s <==> x in keys {
      if x in keys && x != k {
        BelowTotal(x, k);
      }
    }
    StrictlySortedUnique(SortedKeys(keys), s);
  }

  /** Ascending keys below `k`, then `k`, then ascending keys above it, are ascending. */
  lemma AroundKeySorted(lo: seq<string>, k: string, hi: seq<string>)
    requires StrictlySorted(lo) && StrictlySorted(hi)
    requires forall x :: x in lo ==> Precedes(x, k)
    requires forall x :: x in hi ==> Precedes(k, x)
    ensures StrictlySorted(lo + [k] + hi)
  {
    var s := lo + [k] + hi;
    forall i, j | 0 <= i < j < |s| ensures Precedes(s[i], s[j]) {
      if i < |lo| {
        assert s[i] == lo[i] && lo[i] in lo;
      }
      if j > |lo| {
        assert s[j] == hi[j - |lo| - 1] && hi[j - |lo| - 1] in hi;
      }
      if i < |lo| && j > |lo| {
        BelowTransitive(s[i], k, s[j]);
        if s[i] == s[j] { BelowAntisymmetric(s[i], k); }
      } else if j < |lo| {
        assert s[j] == lo[j];
      } else if i > |lo| {
        assert s[i] == hi[i - |lo| - 1];
      }
    }
  }
}
