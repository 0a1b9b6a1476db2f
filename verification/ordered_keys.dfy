/**
  The keys of a Python dict in insertion order. A dict keeps each key once; assigning to an
  existing key keeps its position, a new key goes to the end, and `del` removes one key while
  the others keep their relative order.
 */
module OrderedKeys {

  /** No key occurs twice. */
  ghost predicate Distinct<K>(ks: seq<K>) {
    forall i, j :: 0 <= i < j < |ks| ==> ks[i] != ks[j]
  }

  /** The key order after `d[k] = v`. */
  function Insert<K(==,!new)>(ks: seq<K>, k: K): (r: seq<K>)
    ensures forall x :: x in r <==> x in ks || x == k
    ensures Distinct(ks) ==> Distinct(r)
    ensures k !in ks ==> |r| == |ks| + 1 && r[..|ks|] == ks && r[|ks|] == k
    ensures k in ks ==> |r| == |ks| && forall i :: 0 <= i < |ks| ==> r[i] == ks[i]
  {
    if k in ks then ks else ks + [k]
  }

  /** The key order after `del d[k]`. */
  function Delete<K(==,!new)>(ks: seq<K>, k: K): (r: seq<K>)
    ensures forall x :: x in r <==> x in ks && x != k
    ensures Distinct(ks) ==> Distinct(r)
    ensures k !in ks ==> |r| == |ks|
    ensures Distinct(ks) && k in ks ==> |r| == |ks| - 1
    decreases |ks|
  {
    if |ks| == 0 then []
    else
      var rest := Delete(ks[1..], k);
      assert Distinct(ks) ==> Distinct(ks[1..]) && ks[0] !in ks[1..];
      if ks[0] == k then rest else [ks[0]] + rest
  }

  /** Deleting one key of a dict leaves the keys before it and the keys after it, in order. */
  lemma {:induction false} DeleteSplits<K(!new)>(a: seq<K>, k: K, b: seq<K>)
    requires k !in a && k !in b
    ensures Delete(a + [k] + b, k) == a + b
    decreases |a|
  {
    if |a| == 0 {
      assert a + [k] + b == [k] + b;
      DeleteAbsent(b, k);
    } else {
      assert (a + [k] + b)[1..] == a[1..] + [k] + b;
      DeleteSplits(a[1..], k, b);
      assert a + b == [a[0]] + (a[1..] + b);
    }
  }

  /** Deleting a key that is absent changes nothing. */
  lemma {:induction false} DeleteAbsent<K(!new)>(ks: seq<K>, k: K)
    requires k !in ks
    ensures Delete(ks, k) == ks
    decreases |ks|
  {
    if |ks| > 0 {
      DeleteAbsent(ks[1..], k);
      assert ks == [ks[0]] + ks[1..];
    }
  }

  /**
    `list(d.keys())[0]` after a `del`: when the deleted key was not the first, the first key
    stays first; when it was, the second key moves up.
   */
  lemma FirstAfterDelete<K(!new)>(ks: seq<K>, k: K)
    requires Distinct(ks) && k in ks && |ks| > 1
    ensures ks[0] != k ==> Delete(ks, k)[0] == ks[0]
    ensures ks[0] == k ==> Delete(ks, k)[0] == ks[1]
  {
    if ks[0] == k {
      assert k !in ks[1..];
      DeleteAbsent(ks[1..], k);
    }
  }

  /** With distinct keys, `del` removes the key at its one position and keeps the rest in order. */
  lemma DeleteKeepsOrder<K(!new)>(ks: seq<K>, k: K, i: nat)
    requires Distinct(ks) && i < |ks| && ks[i] == k
    ensures Delete(ks, k) == ks[..i] + ks[i + 1..]
  {
    assert ks == ks[..i] + [k] + ks[i + 1..];
    assert k !in ks[..i] && k !in ks[i + 1..];
    DeleteSplits(ks[..i], k, ks[i + 1..]);
  }
}
