/** The key order of Rust's `BTreeMap<String, _>`, which fixes both the order in which
    `merge_inputs` visits an `extra` map and the order in which it is serialised. */
module Ordered {
  import opened Crds

  /** Lexicographic order by scalar value, which is the byte order of the UTF-8 forms. */
  predicate Less(a: string, b: string) {
    b != "" && (a == "" || a[0] < b[0] || (a[0] == b[0] && Less(a[1..], b[1..])))
  }

  /** Up to position n the two texts are equal, and there a ends or has the smaller character. */
  predicate LessAt(a: string, b: string, n: nat) {
    && n <= |a| && n < |b| && a[..n] == b[..n]
    && (n < |a| ==> a[n] < b[n])
  }

  lemma LessAtStep(a: string, b: string, n: nat)
    requires LessAt(a, b, n) && a != ""
    ensures a[0] < b[0] || (n > 0 && a[0] == b[0] && LessAt(a[1..], b[1..], n - 1))
  {
    if n > 0 {
      assert a[..n][0] == b[..n][0];
      assert a[1..][..n - 1] == a[..n][1..] && b[1..][..n - 1] == b[..n][1..];
    }
  }

  lemma {:induction false} LessMeans(a: string, b: string)
    ensures Less(a, b) <==> exists n: nat :: LessAt(a, b, n)
  {
    if b != "" {
      if a == "" || a[0] < b[0] {
        assert LessAt(a, b, 0);
      } else if a[0] == b[0] {
        LessMeans(a[1..], b[1..]);
        if n: nat :| LessAt(a[1..], b[1..], n) {
          assert a[..n + 1] == [a[0]] + a[1..][..n] && b[..n + 1] == [b[0]] + b[1..][..n];
          assert LessAt(a, b, n + 1);
        }
      }
      if n: nat :| LessAt(a, b, n) && a != "" { LessAtStep(a, b, n); }
    }
  }

  lemma {:induction false} LessTotal(a: string, b: string)
    ensures a == b || Less(a, b) || Less(b, a)
  {
    if a != "" && b != "" && a[0] == b[0] {
      LessTotal(a[1..], b[1..]);
      if a[1..] == b[1..] {
        assert a == [a[0]] + a[1..] && b == [b[0]] + b[1..];
      }
    }
  }

  lemma {:induction false} LessAsymmetric(a: string, b: string)
    requires Less(a, b)
    ensures !Less(b, a) && a != b
  {
    if a != "" && a[0] == b[0] {
      LessAsymmetric(a[1..], b[1..]);
    }
  }

  lemma {:induction false} LessTransitive(a: string, b: string, c: string)
    requires Less(a, b) && Less(b, c)
    ensures Less(a, c)
  {
    if a != "" && a[0] == b[0] == c[0] {
      LessTransitive(a[1..], b[1..], c[1..]);
    }
  }

  predicate IsLeast(k: string, keys: set<string>) {
    k in keys && forall j :: j in keys ==> j == k || Less(k, j)
  }

  lemma {:induction false} LeastExists(keys: set<string>)
    requires keys != {}
    ensures exists k :: IsLeast(k, keys)
    decreases |keys|
  {
    var x :| x in keys;
    var rest := keys - {x};
    if rest == {} {
      assert keys == {x};
      assert IsLeast(x, keys);
    } else {
      LeastExists(rest);
      var k :| IsLeast(k, rest);
      LessTotal(x, k);
      if Less(k, x) {
        assert IsLeast(k, keys);
      } else {
        forall j | j in keys ensures j == x || Less(x, j) {
          if j != x && j != k { LessTransitive(x, k, j); }
        }
        assert IsLeast(x, keys);
      }
    }
  }

  lemma LeastUnique(keys: set<string>, a: string, b: string)
    requires IsLeast(a, keys) && IsLeast(b, keys)
    ensures a == b
  {
    if a != b { LessAsymmetric(a, b); }
  }

  /** The least key of a non-empty set. */
  function Least(keys: set<string>): (k: string)
    requires keys != {}
    ensures IsLeast(k, keys)
  {
    LeastExists(keys);
    assert forall a, b | IsLeast(a, keys) && IsLeast(b, keys) :: a == b by {
      forall a, b | IsLeast(a, keys) && IsLeast(b, keys) ensures a == b { LeastUnique(keys, a, b); }
    }
    var k :| IsLeast(k, keys);
    k
  }

  /** The keys of a map in iteration order. */
  function Sorted(keys: set<string>): (s: seq<string>)
    ensures |s| == |keys| && forall k :: k in s <==> k in keys
    decreases |keys|
  {
    if keys == {} then []
    else
      var k := Least(keys);
      [k] + Sorted(keys - {k})
  }

  lemma LeastIsFirst(keys: set<string>, x: string)
    requires keys != {} && x in keys - {Least(keys)}
    ensures Less(Least(keys), x) && Least(keys) != x
  {
    LessAsymmetric(Least(keys), x);
  }

  lemma {:induction false} SortedIsSorted(keys: set<string>, i: nat, j: nat)
    requires i < j < |keys|
    ensures Less(Sorted(keys)[i], Sorted(keys)[j]) && Sorted(keys)[i] != Sorted(keys)[j]
    decreases |keys|
  {
    var k := Least(keys);
    var rest := Sorted(keys - {k});
    assert Sorted(keys) == [k] + rest;
    if i == 0 {
      LeastIsFirst(keys, rest[j - 1]);
    } else {
      SortedIsSorted(keys - {k}, i - 1, j - 1);
    }
  }

  lemma SortedDistinct(keys: set<string>)
    ensures forall i, j :: 0 <= i < j < |Sorted(keys)| ==> Sorted(keys)[i] != Sorted(keys)[j]
  {
    forall i, j | 0 <= i < j < |Sorted(keys)| ensures Sorted(keys)[i] != Sorted(keys)[j] { SortedIsSorted(keys, i, j); }
  }

  /** The least key of `keys` that also lies in `taken`. */
  function FirstShared(keys: set<string>, taken: set<string>): Option<string> {
    if keys * taken == {} then None else Some(Least(keys * taken))
  }

  /** It is the first one the iteration meets. */
  lemma FirstSharedAt(keys: set<string>, taken: set<string>, i: nat)
    requires i < |Sorted(keys)| && Sorted(keys)[i] in taken
    requires forall j :: 0 <= j < i ==> Sorted(keys)[j] !in taken
    ensures FirstShared(keys, taken) == Some(Sorted(keys)[i])
  {
    var s := Sorted(keys);
    var both := keys * taken;
    assert s[i] in both;
    forall j | j in both ensures j == s[i] || Less(s[i], j) {
      var n :| 0 <= n < |s| && s[n] == j;
      if i < n { SortedIsSorted(keys, i, n); }
    }
    assert IsLeast(s[i], both);
    LeastUnique(both, s[i], Least(both));
  }

  lemma NoneShared(keys: set<string>, taken: set<string>)
    requires forall j :: 0 <= j < |Sorted(keys)| ==> Sorted(keys)[j] !in taken
    ensures FirstShared(keys, taken) == None
  {
    forall k | k in keys ensures k !in taken { assert k in Sorted(keys); }
  }
}
