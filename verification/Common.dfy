module Common {
  datatype Option<+T> = None | Some(value: T)

  // The lifecycle of a job (conformance/state_machine.yaml).
  datatype JobState =
    | Pending | Scheduled | Available | Running | Retryable
    | Completed | Archived | Cancelled | Quarantined | Undecodable

  lemma {:induction false} SubsetSize<T>(small: set<T>, big: set<T>)
    requires small <= big
    ensures |small| <= |big|
    decreases |small|
  {
    if small != {} {
      var x :| x in small;
      SubsetSize(small - {x}, big - {x});
    }
  }

  lemma ProperSubset<T>(small: set<T>, big: set<T>) returns (x: T)
    requires small <= big && small != big
    ensures x in big - small && |small| < |big|
  {
    assert big == small + (big - small);
    x :| x in big - small;
    SubsetSize(small + {x}, big);
    assert |small + {x}| == |small| + 1;
  }

  // The last element, or a default where there is none.
  function LastOr<T>(x: T, s: seq<T>): T {
    if s == [] then x else s[|s| - 1]
  }

  lemma TakeSnoc<T>(s: seq<T>, i: nat)
    requires i < |s|
    ensures s[..i + 1] == s[..i] + [s[i]] && s[..i + 1][..i] == s[..i]
  {
  }

  lemma TakeAll<T>(s: seq<T>)
    ensures s[..|s|] == s
  {
  }

  lemma AppendSnoc<T>(a: seq<T>, b: seq<T>, x: T)
    ensures a + (b + [x]) == (a + b) + [x]
  {
  }

  ghost predicate Distinct<T>(p: seq<T>) {
    forall i, j :: 0 <= i < j < |p| ==> p[i] != p[j]
  }

  ghost function Elems<T>(p: seq<T>): set<T> {
    set x | x in p
  }

  lemma {:induction false} DistinctSize<T>(p: seq<T>)
    requires Distinct(p)
    ensures |Elems(p)| == |p|
  {
    if p != [] {
      var init := p[..|p| - 1];
      DistinctSize(init);
      assert p == init + [p[|p| - 1]];
      assert Elems(p) == Elems(init) + {p[|p| - 1]};
    }
  }

  lemma MulLe(a: int, x: int, y: int)
    requires a >= 0 && x <= y
    ensures a * x <= a * y
  {
  }
}
