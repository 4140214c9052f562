/** Row selection on an ordered table, as pandas does it with a boolean mask:
    `df[mask]` keeps, in their original order, exactly the rows whose mask
    entry is true. */
module Frame {

  /** `s` can be obtained from `t` by deleting elements, keeping the order. */
  predicate IsSubsequence<X(==)>(s: seq<X>, t: seq<X>)
    decreases |t|
  {
    if s == [] then true
    else if t == [] then false
    else (s[0] == t[0] && IsSubsequence(s[1..], t[1..])) || IsSubsequence(s, t[1..])
  }

  /** `s[p(s)]`: the rows of `s` that satisfy `p`, in table order. */
  function Filter<X(==,!new)>(s: seq<X>, p: X -> bool): (r: seq<X>)
    ensures |r| <= |s|
    ensures forall x :: x in r <==> x in s && p(x)
    ensures IsSubsequence(r, s)
  {
    if s == [] then []
    else
      var rest := Filter(s[1..], p);
      assert s == [s[0]] + s[1..];
      if p(s[0]) then
        var r := [s[0]] + rest;
        assert r[1..] == rest;
        r
      else rest
  }

  /** A masked table holds each row as often as the table does when the mask
      accepts the row, and never otherwise. */
  lemma {:induction false} FilterMultiplicity<X(!new)>(s: seq<X>, p: X -> bool)
    ensures forall x :: multiset(Filter(s, p))[x] == if p(x) then multiset(s)[x] else 0
  {
    if s != [] {
      FilterMultiplicity(s[1..], p);
      assert s == [s[0]] + s[1..];
      if p(s[0]) {
        assert Filter(s, p) == [s[0]] + Filter(s[1..], p);
      }
    }
  }

  /** Masking twice is masking once with the conjunction of the two masks. */
  lemma {:induction false} FilterFilter<X(!new)>(s: seq<X>, p: X -> bool, q: X -> bool, pq: X -> bool)
    requires forall x :: pq(x) == (p(x) && q(x))
    ensures Filter(Filter(s, p), q) == Filter(s, pq)
  {
    if s != [] {
      FilterFilter(s[1..], p, q, pq);
      if p(s[0]) {
        assert Filter(s, p) == [s[0]] + Filter(s[1..], p);
        assert Filter(s, p)[1..] == Filter(s[1..], p);
      }
    }
  }

  /** A mask that is true on every row keeps the whole table. */
  lemma {:induction false} FilterKeepsAll<X(!new)>(s: seq<X>, p: X -> bool)
    requires forall x :: x in s ==> p(x)
    ensures Filter(s, p) == s
  {
    if s != [] {
      assert s[0] in s;
      assert forall x :: x in s[1..] ==> x in s;
      FilterKeepsAll(s[1..], p);
      assert s == [s[0]] + s[1..];
    }
  }
}
