// Sorting by a total order, as sort.Strings and sort.Slice are used by the store.
module Sorting {
  import opened Common

  ghost predicate TotalOn<T(!new)>(s: set<T>, le: (T, T) -> bool) {
    && (forall a, b :: a in s && b in s ==> le(a, b) || le(b, a))
    && (forall a, b, c :: a in s && b in s && c in s && le(a, b) && le(b, c) ==> le(a, c))
  }

  ghost predicate SortedBy<T>(r: seq<T>, le: (T, T) -> bool) {
    forall i, j :: 0 <= i < j < |r| ==> le(r[i], r[j])
  }

  lemma InsertSorted<T(!new)>(r: seq<T>, le: (T, T) -> bool, x: T, i: nat, s: set<T>)
    requires TotalOn(s, le) && x in s && Elems(r) <= s && SortedBy(r, le) && Distinct(r) && x !in r && i <= |r|
    requires forall j :: 0 <= j < i ==> le(r[j], x)
    requires i < |r| ==> !le(r[i], x)
    ensures var q := r[..i] + [x] + r[i..];
            SortedBy(q, le) && Distinct(q) && Elems(q) == Elems(r) + {x}
  {
  }

  method SortSet<T(==, !new)>(s: set<T>, le: (T, T) -> bool) returns (r: seq<T>)
    requires TotalOn(s, le)
    ensures SortedBy(r, le) && Distinct(r) && Elems(r) == s
  {
    r := [];
    var rest := s;
    while rest != {}
      invariant rest <= s && SortedBy(r, le) && Distinct(r) && Elems(r) == s - rest
      decreases |rest|
    {
      var x :| x in rest;
      rest := rest - {x};
      var i := 0;
      while i < |r| && le(r[i], x)
        invariant 0 <= i <= |r| && forall j :: 0 <= j < i ==> le(r[j], x)
      {
        i := i + 1;
      }
      InsertSorted(r, le, x, i, s);
      r := r[..i] + [x] + r[i..];
    }
  }

  // Byte order on strings.
  predicate StringLe(a: string, b: string) {
    a == "" || (b != "" && (a[0] < b[0] || (a[0] == b[0] && StringLe(a[1..], b[1..]))))
  }

  lemma {:induction false} StringLeTotal(a: string, b: string)
    ensures StringLe(a, b) || StringLe(b, a)
    ensures StringLe(a, b) && StringLe(b, a) ==> a == b
  {
    if a != "" && b != "" && a[0] == b[0] {
      StringLeTotal(a[1..], b[1..]);
      assert a == [a[0]] + a[1..] && b == [b[0]] + b[1..];
    }
  }

  lemma {:induction false} StringLeTrans(a: string, b: string, c: string)
    requires StringLe(a, b) && StringLe(b, c)
    ensures StringLe(a, c)
    decreases a
  {
    if a != "" && a[0] == b[0] == c[0] {
      StringLeTrans(a[1..], b[1..], c[1..]);
    }
  }

  lemma StringsTotal(s: set<string>)
    ensures TotalOn(s, StringLe)
  {
    forall a, b | a in s && b in s
      ensures StringLe(a, b) || StringLe(b, a)
    {
      StringLeTotal(a, b);
    }
    forall a, b, c | a in s && b in s && c in s && StringLe(a, b) && StringLe(b, c)
      ensures StringLe(a, c)
    {
      StringLeTrans(a, b, c);
    }
  }
}
