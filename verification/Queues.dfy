/**
  Queue contents as values: what the intrusive lists of `core/common.c` hold, told as sequences
  of addresses.  Every layer above states its lists with these functions.
 */
module Queues {

  datatype Option<+T> = None | Some(value: T)

  ghost predicate Distinct(s: seq<nat>) {
    forall i, j :: 0 <= i < j < |s| ==> s[i] != s[j]
  }

  /** Where `x` first stands in `s`. */
  function IndexOf(s: seq<nat>, x: nat): (k: nat)
    requires x in s
    ensures k < |s| && s[k] == x && x !in s[..k]
  {
    if s[0] == x then 0 else 1 + IndexOf(s[1..], x)
  }

  /** `s` without the first occurrence of `x`; `s` itself when `x` is not there. */
  function Delete(s: seq<nat>, x: nat): (r: seq<nat>)
    ensures x !in s ==> r == s
    ensures x in s ==> |r| == |s| - 1
    ensures forall y :: y != x ==> (y in r <==> y in s)
    ensures Distinct(s) ==> Distinct(r) && x !in r
  {
    if x !in s then s else
    var k := IndexOf(s, x);
    assert s == s[..k] + [x] + s[k + 1..];
    s[..k] + s[k + 1..]
  }

  /** Deleting the element at position `k` of a duplicate-free queue closes the gap there. */
  lemma DeleteAt(s: seq<nat>, k: nat)
    requires Distinct(s) && k < |s|
    ensures Delete(s, s[k]) == s[..k] + s[k + 1..]
  {
    assert IndexOf(s, s[k]) == k;
  }

  /** The least position whose value is greater than `v`, or the length. */
  function FirstAbove(vals: seq<nat>, v: nat): (k: nat)
    ensures k <= |vals|
    ensures forall i :: 0 <= i < k ==> vals[i] <= v
    ensures k < |vals| ==> vals[k] > v
  {
    if vals == [] || vals[0] > v then 0 else 1 + FirstAbove(vals[1..], v)
  }

  lemma FirstAboveIs(vals: seq<nat>, v: nat, k: nat)
    requires k <= |vals| && (forall i :: 0 <= i < k ==> vals[i] <= v) && (k < |vals| ==> vals[k] > v)
    ensures FirstAbove(vals, v) == k
  {
    var k' := FirstAbove(vals, v);
    assert !(k < k') && !(k' < k);
  }

  function KeysOf(s: seq<nat>, key: map<nat, nat>): (vals: seq<nat>)
    requires forall x :: x in s ==> x in key
    ensures |vals| == |s| && forall i :: 0 <= i < |s| ==> vals[i] == key[s[i]]
  {
    seq(|s|, i requires 0 <= i < |s| => key[s[i]])
  }

  /** `x` placed before the first element with a greater key. */
  function InsertOrdered(s: seq<nat>, x: nat, key: map<nat, nat>): (r: seq<nat>)
    requires x in key && forall y :: y in s ==> y in key
    ensures |r| == |s| + 1
    ensures forall y :: y in r <==> y == x || y in s
    ensures x !in s && Distinct(s) ==> Distinct(r)
  {
    var k := FirstAbove(KeysOf(s, key), key[x]);
    s[..k] + [x] + s[k..]
  }

  ghost predicate Sorted(s: seq<nat>, key: map<nat, nat>) {
    (forall x :: x in s ==> x in key) &&
    forall i, j :: 0 <= i < j < |s| ==> key[s[i]] <= key[s[j]]
  }

  lemma SortedAt(s: seq<nat>, x: nat, k: nat, key: map<nat, nat>)
    requires x in key && Sorted(s, key) && k <= |s| && forall i :: 0 <= i < |s| ==> (i < k <==> key[s[i]] <= key[x])
    ensures Sorted(s[..k] + [x] + s[k..], key)
  {
    var r := s[..k] + [x] + s[k..];
    assert forall i :: 0 <= i < |r| && i != k ==> r[i] == s[if i < k then i else i - 1];
  }

  /** On a sorted queue the insertion keeps the order, and the newcomer stands behind every
      element of equal or smaller key and before every element of greater key. */
  lemma {:induction false} InsertOrderedStable(s: seq<nat>, x: nat, key: map<nat, nat>)
    requires x in key && Sorted(s, key)
    ensures Sorted(InsertOrdered(s, x, key), key)
    ensures exists k :: 0 <= k <= |s| && InsertOrdered(s, x, key) == s[..k] + [x] + s[k..] &&
                        forall i :: 0 <= i < |s| ==> (i < k <==> key[s[i]] <= key[x])
  {
    var vals := KeysOf(s, key);
    var k := FirstAbove(vals, key[x]);
    forall i | 0 <= i < |s|
      ensures i < k <==> key[s[i]] <= key[x]
    {
      assert vals[i] == key[s[i]] && (k <= i ==> vals[k] == key[s[k]]);
    }
    SortedAt(s, x, k, key);
    assert InsertOrdered(s, x, key) == s[..k] + [x] + s[k..];
  }

  lemma InsertSorted(s: seq<nat>, x: nat, key: map<nat, nat>)
    requires x in key && Sorted(s, key)
    ensures Sorted(InsertOrdered(s, x, key), key)
  {
    InsertOrderedStable(s, x, key);
  }

  lemma DeleteSorted(s: seq<nat>, x: nat, key: map<nat, nat>)
    requires Sorted(s, key)
    ensures Sorted(Delete(s, x), key)
  {
  }

  lemma SortedBySame(s: seq<nat>, key: map<nat, nat>, key': map<nat, nat>)
    requires Sorted(s, key) && forall x :: x in s ==> x in key' && key'[x] == key[x]
    ensures Sorted(s, key')
  {
  }

  // ----- queues that only lose elements

  /** `b` is `a` with some elements left out, the others in the order they had. */
  ghost predicate Thinned(a: seq<nat>, b: seq<nat>) {
    Distinct(b) && (forall x :: x in b ==> x in a) &&
    forall i, j :: 0 <= i < j < |b| ==> IndexOf(a, b[i]) < IndexOf(a, b[j])
  }

  lemma IndexAt(s: seq<nat>, i: nat)
    requires Distinct(s) && i < |s|
    ensures IndexOf(s, s[i]) == i
  {
  }

  lemma ThinnedSelf(s: seq<nat>)
    requires Distinct(s)
    ensures Thinned(s, s)
  {
    forall i, j | 0 <= i < j < |s|
      ensures IndexOf(s, s[i]) < IndexOf(s, s[j])
    {
      IndexAt(s, i);
      IndexAt(s, j);
    }
  }

  lemma DeleteThins(s: seq<nat>, x: nat)
    requires Distinct(s)
    ensures Thinned(s, Delete(s, x))
  {
    var r := Delete(s, x);
    if x in s {
      var k := IndexOf(s, x);
      DeleteAt(s, k);
      forall i, j | 0 <= i < j < |r|
        ensures IndexOf(s, r[i]) < IndexOf(s, r[j])
      {
        IndexAt(s, if i < k then i else i + 1);
        IndexAt(s, if j < k then j else j + 1);
      }
    } else {
      ThinnedSelf(s);
    }
  }

  lemma ThinnedTwice(a: seq<nat>, b: seq<nat>, c: seq<nat>)
    requires Distinct(a) && Thinned(a, b) && Thinned(b, c)
    ensures Thinned(a, c)
  {
    forall i, j | 0 <= i < j < |c|
      ensures IndexOf(a, c[i]) < IndexOf(a, c[j])
    {
      var k, m := IndexOf(b, c[i]), IndexOf(b, c[j]);
      assert k < m && b[k] == c[i] && b[m] == c[j];
    }
  }

  // ----- places in a queue

  lemma {:induction false} FoundAt(q: seq<nat>, t: nat, k: nat)
    requires k < |q| && q[k] == t && t !in q[..k]
    ensures IndexOf(q, t) == k
  {
    if k != 0 {
      assert q[0] in q[..k];
      assert q[1..][..k - 1] == q[..k][1..];
      FoundAt(q[1..], t, k - 1);
    }
  }

  lemma AppendKeepsPlace(q: seq<nat>, x: nat, t: nat)
    requires t in q
    ensures t in q + [x] && IndexOf(q + [x], t) == IndexOf(q, t)
  {
    var k := IndexOf(q, t);
    FoundAt(q + [x], t, k);
  }

  lemma DeleteKeepsPlace(q: seq<nat>, x: nat, t: nat)
    requires t in q && x != t
    ensures t in Delete(q, x)
    ensures IndexOf(Delete(q, x), t) == IndexOf(q, t) - if x in q && IndexOf(q, x) < IndexOf(q, t) then 1 else 0
  {
    if x in q {
      var k, i := IndexOf(q, x), IndexOf(q, t);
      var r := q[..k] + q[k + 1..];
      if k < i {
        assert r[..i - 1] == q[..k] + q[k + 1..i] && q[..i] == q[..k] + [x] + q[k + 1..i];
        FoundAt(r, t, i - 1);
      } else {
        assert r[..i] == q[..i];
        FoundAt(r, t, i);
      }
    }
  }

  lemma FirstDeleted(s: seq<nat>)
    requires s != []
    ensures Delete(s, s[0]) == s[1..]
  {
    assert IndexOf(s, s[0]) == 0;
  }
}
