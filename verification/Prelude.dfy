/** Option, Result and the sequence vocabulary the other modules share. */
module Prelude {

  datatype Option<+T> = None | Some(value: T)

  datatype Result<+T, +E> = Ok(value: T) | Err(error: E)

  function OrElse<T>(v: Option<T>, default: Option<T>): Option<T> {
    if v.Some? then v else default
  }

  /** No element occurs twice. */
  ghost predicate NoDup<T>(s: seq<T>) {
    forall i, j :: 0 <= i < j < |s| ==> s[i] != s[j]
  }

  /** The distinct elements of `s`, each at the place of its first occurrence. */
  function FirstOccurrences<T(==, !new)>(s: seq<T>): (r: seq<T>)
    ensures NoDup(r)
    ensures forall x :: x in r <==> x in s
  {
    if s == [] then []
    else
      var r := FirstOccurrences(s[..|s|-1]);
      if s[|s|-1] in r then r else r + [s[|s|-1]]
  }

  lemma {:induction false} FirstOccurrencesExtended<T(!new)>(s: seq<T>, x: T)
    ensures FirstOccurrences(s + [x]) == FirstOccurrences(s) + if x in s then [] else [x]
  {
    assert (s + [x])[..|s|] == s;
  }

  /** The first index of `x` in `s`, or |s| when it does not occur. */
  function FirstIndex<T(==)>(s: seq<T>, x: T): (k: nat)
    ensures k <= |s|
    ensures k < |s| ==> s[k] == x
    ensures forall j :: 0 <= j < k ==> s[j] != x
  {
    if s == [] then 0
    else if s[0] == x then 0
    else 1 + FirstIndex(s[1..], x)
  }

  /** The last index of `x` in `s`, or -1 when it does not occur. */
  function LastIndex<T(==)>(s: seq<T>, x: T): (k: int)
    ensures -1 <= k < |s|
    ensures k >= 0 ==> s[k] == x
    ensures forall j :: k < j < |s| ==> s[j] != x
  {
    if s == [] then -1
    else if s[|s|-1] == x then |s| - 1
    else LastIndex(s[..|s|-1], x)
  }

  lemma {:induction false} FirstIndexOfPrefix<T>(s: seq<T>, t: seq<T>, x: T)
    requires x in s
    ensures FirstIndex(s + t, x) == FirstIndex(s, x) < |s|
  {
    var k :| 0 <= k < |s| && s[k] == x;
    assert (s + t)[FirstIndex(s, x)] == x;
    assert forall j :: 0 <= j < |s| ==> (s + t)[j] == s[j];
  }

  /** `FirstOccurrences` keeps the order in which elements first appear. */
  lemma {:induction false} FirstOccurrencesOrder<T(!new)>(s: seq<T>)
    ensures forall i, j :: 0 <= i < j < |FirstOccurrences(s)| ==>
              FirstIndex(s, FirstOccurrences(s)[i]) < FirstIndex(s, FirstOccurrences(s)[j])
  {
    if s != [] {
      var p, x := s[..|s|-1], s[|s|-1];
      assert s == p + [x];
      FirstOccurrencesOrder(p);
      var q, r := FirstOccurrences(p), FirstOccurrences(s);
      forall i, j | 0 <= i < j < |r|
        ensures FirstIndex(s, r[i]) < FirstIndex(s, r[j])
      {
        assert r[i] == q[i] && q[i] in q;
        FirstIndexOfPrefix(p, [x], r[i]);
        if j < |q| {
          assert r[j] == q[j] && q[j] in q;
          FirstIndexOfPrefix(p, [x], r[j]);
        } else {
          assert r[j] == x && x !in p;
          assert FirstIndex(s, x) >= |p|;
        }
      }
    }
  }
}
