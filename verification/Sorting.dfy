/** Python's `sorted` on distinct strings. */
module Sorting {
  import opened Text

  predicate StrictlySorted(s: seq<string>) {
    forall i, j :: 0 <= i < j < |s| ==> Less(s[i], s[j])
  }

  /** Insertion into a strictly sorted sequence; a string already there is not repeated. */
  function Insert(x: string, s: seq<string>): seq<string> {
    if s == [] then [x]
    else if x == s[0] then s
    else if Less(x, s[0]) then [x] + s
    else [s[0]] + Insert(x, s[1..])
  }

  /** `sorted(set(s))` */
  function SortDistinct(s: seq<string>): seq<string> {
    if s == [] then [] else Insert(s[0], SortDistinct(s[1..]))
  }

  lemma {:induction false} InsertKeeps(x: string, s: seq<string>)
    requires StrictlySorted(s)
    ensures StrictlySorted(Insert(x, s))
    ensures forall y :: y in Insert(x, s) <==> y == x || y in s
  {
    if s != [] {
      LessTrichotomy(x, s[0]);
      if x == s[0] {
      } else if Less(x, s[0]) {
        forall i | 0 < i < |s|
          ensures Less(x, s[i])
        {
          LessTransitive(x, s[0], s[i]);
        }
      } else {
        InsertKeeps(x, s[1..]);
        var rest := Insert(x, s[1..]);
        forall i | 0 <= i < |rest|
          ensures Less(s[0], rest[i])
        {
          assert rest[i] in rest;
          if rest[i] != x {
            assert rest[i] in s[1..];
          }
        }
      }
    }
  }

  lemma {:induction false} SortDistinctSorts(s: seq<string>)
    ensures StrictlySorted(SortDistinct(s))
    ensures forall y :: y in SortDistinct(s) <==> y in s
  {
    if s != [] {
      SortDistinctSorts(s[1..]);
      InsertKeeps(s[0], SortDistinct(s[1..]));
      assert forall y :: y in s <==> y == s[0] || y in s[1..];
    }
  }

  /** A set of strings has only one strictly sorted arrangement. */
  lemma {:induction false} SortedIsUnique(a: seq<string>, b: seq<string>)
    requires StrictlySorted(a) && StrictlySorted(b)
    requires forall y :: y in a <==> y in b
    ensures a == b
  {
    if a == [] {
      assert forall i :: 0 <= i < |b| ==> b[i] in b;
    } else {
      assert a[0] in a && b != [];
      HeadIsLeast(a);
      HeadIsLeast(b);
      assert b[0] in b;
      LessTrichotomy(a[0], b[0]);
      assert a[0] == b[0];
      forall y
        ensures y in a[1..] <==> y in b[1..]
      {
        LessTrichotomy(a[0], a[0]);
        assert y in a <==> y == a[0] || y in a[1..];
        assert y in b <==> y == b[0] || y in b[1..];
        assert a[0] !in a[1..] && b[0] !in b[1..];
      }
      SortedIsUnique(a[1..], b[1..]);
      assert a == [a[0]] + a[1..] && b == [b[0]] + b[1..];
    }
  }

  lemma HeadIsLeast(a: seq<string>)
    requires StrictlySorted(a) && a != []
    ensures forall y :: y in a ==> y == a[0] || Less(a[0], y)
    ensures forall y :: y in a[1..] ==> Less(a[0], y)
  {
  }

  lemma SortDependsOnElementsOnly(a: seq<string>, b: seq<string>)
    requires forall y :: y in a <==> y in b
    ensures SortDistinct(a) == SortDistinct(b)
  {
    SortDistinctSorts(a);
    SortDistinctSorts(b);
    SortedIsUnique(SortDistinct(a), SortDistinct(b));
  }
}
