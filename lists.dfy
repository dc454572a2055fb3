/** The behaviour of the `java.util.ArrayList` operations the chat server relies
    on, stated over sequences: membership is `in`, `add` is `+ [x]`, and
    `remove(Object)` deletes the first equal element, if there is one. */
module Lists {

  /** No element occurs twice. */
  ghost predicate Distinct<T>(s: seq<T>)
  {
    forall i, j :: 0 <= i < j < |s| ==> s[i] != s[j]
  }

  /** The position of the first `x` in `s`, or `|s|` when there is none. */
  function FirstIndex<T(==)>(s: seq<T>, x: T): (k: nat)
    ensures k <= |s|
    ensures x !in s[..k]
    ensures k < |s| ==> s[k] == x
    ensures k == |s| <==> x !in s
  {
    if |s| == 0 then 0
    else if s[0] == x then 0
    else
      var k := FirstIndex(s[1..], x);
      assert s[..k + 1] == [s[0]] + s[1..][..k];
      k + 1
  }

  /** The position of the first element satisfying `p`, or `|s|` when none
      does. */
  function FirstWhere<T>(s: seq<T>, p: T -> bool): (k: nat)
    ensures k <= |s|
    ensures forall j :: 0 <= j < k ==> !p(s[j])
    ensures k < |s| ==> p(s[k])
  {
    if |s| == 0 then 0
    else if p(s[0]) then 0
    else 1 + FirstWhere(s[1..], p)
  }

  /** A search that stops at `k` has found exactly `FirstWhere`. */
  lemma FirstWhereIs<T>(s: seq<T>, p: T -> bool, k: nat)
    requires k <= |s|
    requires forall j :: 0 <= j < k ==> !p(s[j])
    requires k < |s| ==> p(s[k])
    ensures FirstWhere(s, p) == k
  {
  }

  /** A search that stops at an occurrence of `x` with none before it has
      found exactly `FirstIndex`. */
  lemma FirstIndexIs<T>(s: seq<T>, x: T, k: nat)
    requires k < |s| && s[k] == x && x !in s[..k]
    ensures FirstIndex(s, x) == k
  {
    assert s[k] in s;
  }

  /** `ArrayList.remove(Object)`: the first occurrence of `x` is taken out and
      every other element keeps its relative order; without an occurrence the
      list is left as it is. */
  function RemoveFirst<T(==)>(s: seq<T>, x: T): (r: seq<T>)
    ensures x !in s ==> r == s
    ensures x in s ==> r == s[..FirstIndex(s, x)] + s[FirstIndex(s, x) + 1..]
  {
    if |s| == 0 then []
    else if s[0] == x then s[1..]
    else
      var rest := RemoveFirst(s[1..], x);
      assert x in s[1..] ==> [s[0]] + rest == s[..FirstIndex(s, x)] + s[FirstIndex(s, x) + 1..] by {
        if x in s[1..] {
          var k := FirstIndex(s[1..], x);
          assert FirstIndex(s, x) == k + 1;
          AppendAssoc([s[0]], s[1..][..k], s[1..][k + 1..]);
          assert s[..k + 1] == [s[0]] + s[1..][..k];
          assert s[k + 2..] == s[1..][k + 1..];
        }
      }
      assert x !in s[1..] ==> [s[0]] + rest == s;
      [s[0]] + rest
  }

  /** Concatenation is associative. */
  lemma AppendAssoc<T>(a: seq<T>, b: seq<T>, c: seq<T>)
    ensures a + b + c == a + (b + c)
  {
  }

  /** Appending an element that is not yet present keeps a list duplicate-free. */
  lemma AppendDistinct<T>(s: seq<T>, x: T)
    requires Distinct(s) && x !in s
    ensures Distinct(s + [x])
  {
    forall i, j | 0 <= i < j < |s + [x]|
      ensures (s + [x])[i] != (s + [x])[j]
    {
      if j == |s| {
        assert (s + [x])[i] == s[i];
      }
    }
  }

  /** Removing an element that was just appended, and was not there before,
      restores the list: `add` followed by `remove` is the identity. */
  lemma RemoveAppended<T>(s: seq<T>, x: T)
    requires x !in s
    ensures RemoveFirst(s + [x], x) == s
  {
    assert (s + [x])[..|s|] == s;
    FirstIndexIs(s + [x], x, |s|);
    assert (s + [x])[|s| + 1..] == [];
  }

  /** Removing from a duplicate-free list keeps it duplicate-free, and the
      removed element is then absent. */
  lemma RemoveFirstDistinct<T>(s: seq<T>, x: T)
    requires Distinct(s)
    ensures Distinct(RemoveFirst(s, x))
    ensures x !in RemoveFirst(s, x)
  {
    if x in s {
      var k := FirstIndex(s, x);
      var r := RemoveFirst(s, x);
      assert |r| == |s| - 1;
      // every position of the result comes from one position of the input
      forall i | 0 <= i < |r| ensures r[i] == s[if i < k then i else i + 1] {
        if i < k { assert r[i] == s[..k][i]; } else { assert r[i] == s[k + 1..][i - k]; }
      }
      forall i, j | 0 <= i < j < |r| ensures r[i] != r[j] {
        assert r[i] == s[if i < k then i else i + 1];
        assert r[j] == s[if j < k then j else j + 1];
      }
      forall i | 0 <= i < |r| ensures r[i] != x {
        assert r[i] == s[if i < k then i else i + 1];
      }
    }
  }
}
