/** Insertion sorting, and the order of text by code point. */
module Sorting {
  /** Order of names by code point. */
  predicate NameLeq(a: string, b: string) {
    a == [] || (b != [] && (a[0] < b[0] || (a[0] == b[0] && NameLeq(a[1..], b[1..]))))
  }

  function Insert<T>(x: T, s: seq<T>, earlier: (T, T) -> bool): seq<T> {
    if s == [] then [x]
    else if earlier(x, s[0]) then [x] + s
    else [s[0]] + Insert(x, s[1..], earlier)
  }

  function Sorted<T>(s: seq<T>, earlier: (T, T) -> bool): seq<T> {
    if s == [] then [] else Insert(s[|s| - 1], Sorted(s[..|s| - 1], earlier), earlier)
  }

  lemma {:induction false} InsertAdds<T>(x: T, s: seq<T>, earlier: (T, T) -> bool)
    ensures multiset(Insert(x, s, earlier)) == multiset(s) + multiset{x}
  {
    if s != [] && !earlier(x, s[0]) {
      InsertAdds(x, s[1..], earlier);
      assert s == [s[0]] + s[1..];
    }
  }

  /** Sorting loses and invents nothing. */
  lemma {:induction false} SortedPermutes<T>(s: seq<T>, earlier: (T, T) -> bool)
    ensures multiset(Sorted(s, earlier)) == multiset(s) && |Sorted(s, earlier)| == |s|
  {
    if s != [] {
      var most, last := s[..|s| - 1], s[|s| - 1];
      SortedPermutes(most, earlier);
      InsertAdds(last, Sorted(most, earlier), earlier);
      assert s == most + [last];
    }
    assert |Sorted(s, earlier)| == |multiset(Sorted(s, earlier))| == |multiset(s)|;
  }

  ghost predicate Orders<T(!new)>(earlier: (T, T) -> bool) {
    && (forall a, b :: earlier(a, b) || earlier(b, a))
    && (forall a, b, c | earlier(a, b) && earlier(b, c) :: earlier(a, c))
  }

  ghost predicate InOrder<T>(s: seq<T>, earlier: (T, T) -> bool) { forall i, j | 0 <= i < j < |s| :: earlier(s[i], s[j]) }

  lemma {:induction false} InsertKeepsOrder<T(!new)>(x: T, s: seq<T>, earlier: (T, T) -> bool)
    requires Orders(earlier) && InOrder(s, earlier)
    ensures InOrder(Insert(x, s, earlier), earlier)
  {
    if s != [] {
      if earlier(x, s[0]) {
        assert forall j | 0 < j < |s| :: earlier(s[0], s[j]);
      } else {
        InsertKeepsOrder(x, s[1..], earlier);
        InsertAdds(x, s[1..], earlier);
        var rest := Insert(x, s[1..], earlier);
        forall j | 0 <= j < |rest| ensures earlier(s[0], rest[j]) {
          assert rest[j] in multiset(s[1..]) + multiset{x} by { assert rest[j] in multiset(rest); }
        }
      }
    }
  }

  /** Sorting by a total order puts everything in that order. */
  lemma {:induction false} SortedIsInOrder<T(!new)>(s: seq<T>, earlier: (T, T) -> bool)
    requires Orders(earlier)
    ensures InOrder(Sorted(s, earlier), earlier)
  {
    if s != [] {
      SortedIsInOrder(s[..|s| - 1], earlier);
      InsertKeepsOrder(s[|s| - 1], Sorted(s[..|s| - 1], earlier), earlier);
    }
  }

  lemma {:induction false} NamesCompare(a: string, b: string)
    ensures NameLeq(a, b) || NameLeq(b, a)
    ensures NameLeq(a, b) && NameLeq(b, a) ==> a == b
  {
    if a != [] && b != [] && a[0] == b[0] {
      NamesCompare(a[1..], b[1..]);
      assert a == [a[0]] + a[1..] && b == [b[0]] + b[1..];
    }
  }

  lemma {:induction false} NamesChain(a: string, b: string, c: string)
    requires NameLeq(a, b) && NameLeq(b, c)
    ensures NameLeq(a, c)
  {
    if a != [] && a[0] == b[0] && b[0] == c[0] { NamesChain(a[1..], b[1..], c[1..]); }
  }

  lemma SameBeginning(a: string, b: string, k: nat)
    requires k <= |a| && k <= |b| && a[..k] == b[..k]
    ensures k > 0 ==> a[0] == b[0]
  {
    if k > 0 { assert a[..k][0] == a[0] && b[..k][0] == b[0]; }
  }

  /** A name comes before another exactly if it is a proper beginning of it or
      has the lower character where they first differ. */
  lemma {:induction false} NamesExactly(a: string, b: string)
    ensures NameLeq(a, b) <==>
              a <= b || exists k | 0 <= k < |a| && k < |b| :: a[..k] == b[..k] && a[k] < b[k]
  {
    if a != [] && b != [] {
      if a[0] == b[0] {
        NamesExactly(a[1..], b[1..]);
        assert a <= b <==> a[1..] <= b[1..] by { assert a == [a[0]] + a[1..] && b == [b[0]] + b[1..]; }
        if k :| 0 <= k < |a[1..]| && k < |b[1..]| && a[1..][..k] == b[1..][..k] && a[1..][k] < b[1..][k] {
          assert a[..k + 1] == [a[0]] + a[1..][..k] && b[..k + 1] == [b[0]] + b[1..][..k];
          assert a[k + 1] < b[k + 1];
        }
        if k :| 0 <= k < |a| && k < |b| && a[..k] == b[..k] && a[k] < b[k] {
          assert k > 0 && a[1..][..k - 1] == a[..k][1..] && b[1..][..k - 1] == b[..k][1..];
        }
      } else {
        if a[0] < b[0] { assert a[..0] == b[..0]; }
        if k :| 0 <= k < |a| && k < |b| && a[..k] == b[..k] && a[k] < b[k] {
          SameBeginning(a, b, k);
        }
      }
    }
  }

  lemma NamesAreOrdered()
    ensures Orders(NameLeq)
  {
    forall a, b ensures NameLeq(a, b) || NameLeq(b, a) { NamesCompare(a, b); }
    forall a, b, c | NameLeq(a, b) && NameLeq(b, c) ensures NameLeq(a, c) { NamesChain(a, b, c); }
  }
}
