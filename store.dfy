/** The document store as the controllers see it: a collection of records in insertion
    order, queried by filter or by id, and whose calls may throw. */
module Store {
  import opened Options

  /** Which store call of a handler throws, if any, and the message of the error it throws.
      Every call before the failing one succeeds; the failing call writes nothing. */
  datatype Fault<C> = NoFault | FailAt(call: C, message: string)

  predicate FailsAt<C(==)>(f: Fault<C>, c: C) {
    f.FailAt? && f.call == c
  }

  /** r is s with some records left out, the others kept in their order. */
  predicate Subsequence<T(==)>(r: seq<T>, s: seq<T>)
    decreases |s|
  {
    r == [] || (s != [] && ((r[0] == s[0] && Subsequence(r[1..], s[1..])) || Subsequence(r, s[1..])))
  }

  /** `Model.find(filter)`: the records that satisfy the filter, in store order. */
  function Filter<T(!new)>(p: T -> bool, s: seq<T>): (r: seq<T>)
    ensures |r| <= |s|
    ensures forall k :: 0 <= k < |r| ==> r[k] in s && p(r[k])
    ensures forall k :: 0 <= k < |s| && p(s[k]) ==> s[k] in r
    ensures forall x {:trigger multiset(r)[x]} :: multiset(r)[x] == if p(x) then multiset(s)[x] else 0
    ensures Subsequence(r, s)
  {
    if s == [] then []
    else
      assert s == [s[0]] + s[1..];
      if p(s[0]) then
        var r := [s[0]] + Filter(p, s[1..]);
        assert r[1..] == Filter(p, s[1..]);
        r
      else Filter(p, s[1..])
  }

  /** Filtering distributes over concatenation, so a filter keeps store order. */
  lemma {:induction false} FilterConcat<T(!new)>(p: T -> bool, a: seq<T>, b: seq<T>)
    ensures Filter(p, a + b) == Filter(p, a) + Filter(p, b)
  {
    if a == [] {
      assert a + b == b;
    } else {
      assert (a + b)[0] == a[0];
      assert (a + b)[1..] == a[1..] + b;
      FilterConcat(p, a[1..], b);
    }
  }

  /** A filter that every record passes returns the whole collection. */
  lemma {:induction false} FilterAll<T(!new)>(p: T -> bool, s: seq<T>)
    requires forall j :: 0 <= j < |s| ==> p(s[j])
    ensures Filter(p, s) == s
  {
    if s != [] {
      FilterAll(p, s[1..]);
    }
  }

  /** The position of the first record that satisfies `p` (`findOne`, `findByIdAndDelete`). */
  function IndexWhere<T>(p: T -> bool, s: seq<T>): (r: Option<nat>)
    ensures r.Some? ==> r.value < |s| && p(s[r.value]) && forall j :: 0 <= j < r.value ==> !p(s[j])
    ensures r.None? ==> forall j :: 0 <= j < |s| ==> !p(s[j])
  {
    if s == [] then None
    else if p(s[0]) then Some(0)
    else
      match IndexWhere(p, s[1..])
      case None => None
      case Some(k) => Some(k + 1)
  }

  /** The collection without its record at position k. */
  function RemoveAt<T>(s: seq<T>, k: nat): (r: seq<T>)
    requires k < |s|
    ensures |r| == |s| - 1
    ensures forall j :: 0 <= j < k ==> r[j] == s[j]
    ensures forall j :: k <= j < |r| ==> r[j] == s[j + 1]
  {
    s[..k] + s[k + 1..]
  }

  /** Deleting the one record that fails `p` is the same as keeping the records that pass it. */
  lemma {:induction false} RemoveAtIsFilter<T(!new)>(p: T -> bool, s: seq<T>, k: nat)
    requires k < |s| && !p(s[k])
    requires forall j :: 0 <= j < |s| && j != k ==> p(s[j])
    ensures Filter(p, s) == RemoveAt(s, k)
  {
    if k == 0 {
      assert Filter(p, s) == Filter(p, s[1..]);
      FilterAll(p, s[1..]);
      assert RemoveAt(s, 0) == s[1..];
    } else {
      assert Filter(p, s) == [s[0]] + Filter(p, s[1..]);
      RemoveAtIsFilter(p, s[1..], k - 1);
      assert RemoveAt(s, k) == [s[0]] + RemoveAt(s[1..], k - 1);
    }
  }


  /** The length of the longest id among the records. */
  function LongestId<T>(s: seq<T>, id: T -> string): (m: nat)
    ensures forall k :: 0 <= k < |s| ==> |id(s[k])| <= m
  {
    if s == [] then 0
    else
      var rest := LongestId(s[1..], id);
      if |id(s[0])| > rest then |id(s[0])| else rest
  }

  /** The id the store generates for a new record: non-empty and unlike the id of every
      record already stored. */
  function FreshId<T>(s: seq<T>, id: T -> string): (r: string)
    ensures r != "" && forall k :: 0 <= k < |s| ==> id(s[k]) != r
  {
    seq(LongestId(s, id) + 1, _ => '0')
  }
}
