/** The few JavaScript array built-ins the engine relies on (`includes`, `indexOf`,
    `push`, `splice(i, 1)`), stated on sequences. `includes` is Dafny's `in`, and
    `push` is `+ [x]`. */
module JsArray {

  /** No element occurs twice. */
  predicate Distinct<T(==)>(s: seq<T>) {
    forall i, j :: 0 <= i < j < |s| ==> s[i] != s[j]
  }

  /** `Array.prototype.indexOf`: the first index that holds `x`, or -1 when there is none. */
  function IndexOf<T(==)>(s: seq<T>, x: T): (i: int)
    ensures -1 <= i < |s|
    ensures i == -1 <==> x !in s
    ensures 0 <= i ==> s[i] == x && x !in s[..i]
  {
    if |s| == 0 then -1
    else if s[0] == x then 0
    else
      var k := IndexOf(s[1..], x);
      if k == -1 then -1
      else
        assert s[..k + 1] == [s[0]] + s[1..][..k];
        k + 1
  }

  /** `Array.prototype.splice(i, 1)`: drop the element at index `i`. Putting it back
      where it was gives the original sequence, so exactly that element goes and the
      others keep their order. */
  function RemoveAt<T>(s: seq<T>, i: nat): (r: seq<T>)
    requires i < |s|
    ensures |r| == |s| - 1
    ensures s == r[..i] + [s[i]] + r[i..]
  {
    s[..i] + s[i + 1..]
  }

  /** Appending an element that is absent keeps a duplicate-free sequence
      duplicate-free. */
  lemma AppendDistinct<T>(s: seq<T>, x: T)
    requires x !in s
    ensures Distinct(s) ==> Distinct(s + [x])
  {
    if Distinct(s) {
      forall i, j | 0 <= i < j < |s + [x]|
        ensures (s + [x])[i] != (s + [x])[j]
      {
        if j == |s| {
          assert (s + [x])[i] == s[i] && s[i] in s;
        }
      }
    }
  }

  /** Index `k` of the shortened sequence is index `k` or `k + 1` of the original. */
  lemma RemoveAtIndex<T>(s: seq<T>, i: nat, k: nat)
    requires i < |s| && k < |s| - 1
    ensures RemoveAt(s, i)[k] == s[if k < i then k else k + 1]
  {
  }

  /** Removing one element of a duplicate-free sequence removes every occurrence of
      it, keeps all the other elements, and leaves the sequence duplicate-free. */
  lemma RemoveAtDistinct<T>(s: seq<T>, i: nat)
    requires i < |s|
    ensures Distinct(s) ==> Distinct(RemoveAt(s, i))
    ensures Distinct(s) ==> forall y :: y in RemoveAt(s, i) <==> y in s && y != s[i]
  {
    if Distinct(s) {
      var r := RemoveAt(s, i);
      forall a, b | 0 <= a < b < |r|
        ensures r[a] != r[b]
      {
        RemoveAtIndex(s, i, a);
        RemoveAtIndex(s, i, b);
      }
      forall y | y in r
        ensures y in s && y != s[i]
      {
        var k :| 0 <= k < |r| && r[k] == y;
        RemoveAtIndex(s, i, k);
      }
      forall y | y in s && y != s[i]
        ensures y in r
      {
        var k :| 0 <= k < |s| && s[k] == y;
        var k' := if k < i then k else k - 1;
        RemoveAtIndex(s, i, k');
      }
    }
  }
}
