/** Sequence helpers standing for the store's `.limit(n)` and for the
    equality filters of its queries. */
module Seqs {

  /** The first `n` elements of `s`, or all of `s` when it is shorter:
      what a query's `.limit(n)` keeps. */
  function Take<T>(s: seq<T>, n: nat): (r: seq<T>)
    ensures |r| == if |s| <= n then |s| else n
    ensures r == s[..|r|]
  {
    if |s| <= n then s else s[..n]
  }

  /** The elements of `s` that satisfy `keep`, in their original order. */
  function Filter<T(!new)>(keep: T -> bool, s: seq<T>): (r: seq<T>)
    ensures |r| <= |s|
    ensures forall x :: x in r <==> x in s && keep(x)
  {
    if s == [] then []
    else if keep(s[0]) then [s[0]] + Filter(keep, s[1..])
    else Filter(keep, s[1..])
  }

  /** The head of a filtered sequence is the first element that passes. */
  lemma {:induction false} FilterHead<T(!new)>(keep: T -> bool, s: seq<T>)
    ensures Filter(keep, s) != [] <==> exists i :: 0 <= i < |s| && keep(s[i])
    ensures Filter(keep, s) != [] ==>
      exists i :: 0 <= i < |s| && keep(s[i]) && Filter(keep, s)[0] == s[i] &&
        forall j :: 0 <= j < i ==> !keep(s[j])
  {
    if s != [] {
      if !keep(s[0]) {
        FilterHead(keep, s[1..]);
        if Filter(keep, s) != [] {
          var i :| 0 <= i < |s[1..]| && keep(s[1..][i]) && Filter(keep, s[1..])[0] == s[1..][i] &&
            forall j :: 0 <= j < i ==> !keep(s[1..][j]);
          assert keep(s[i + 1]) && Filter(keep, s)[0] == s[i + 1];
          forall j | 0 <= j < i + 1 ensures !keep(s[j]) {
            if j > 0 { assert s[j] == s[1..][j - 1]; }
          }
        } else {
          forall i | 0 <= i < |s| ensures !keep(s[i]) {
            if i > 0 { assert s[i] == s[1..][i - 1]; }
          }
        }
      } else {
        assert keep(s[0]) && Filter(keep, s)[0] == s[0];
      }
    }
  }

  /** The element at a first passing index heads the filtered sequence. */
  lemma FilterFirst<T(!new)>(keep: T -> bool, s: seq<T>, i: nat)
    requires i < |s| && keep(s[i])
    requires forall j :: 0 <= j < i ==> !keep(s[j])
    ensures Filter(keep, s) != [] && Filter(keep, s)[0] == s[i]
  {
    FilterHead(keep, s);
    var k :| 0 <= k < |s| && keep(s[k]) && Filter(keep, s)[0] == s[k] &&
      forall j :: 0 <= j < k ==> !keep(s[j]);
    assert k == i;
  }
}
