/** Strings as the store compares and trims them. */
module Text {

  predicate IsSpace(c: char) {
    || '\t' <= c <= '\r'
    || c in {' ', '\U{85}', '\U{A0}', '\U{1680}', '\U{2028}', '\U{2029}', '\U{202F}', '\U{205F}', '\U{3000}'}
    || '\U{2000}' <= c <= '\U{200A}'
  }

  function TrimLeft(s: string): string {
    if s != "" && IsSpace(s[0]) then TrimLeft(s[1..]) else s
  }

  function TrimRight(s: string): string {
    if s != "" && IsSpace(s[|s| - 1]) then TrimRight(s[..|s| - 1]) else s
  }

  function TrimSpace(s: string): string {
    TrimRight(TrimLeft(s))
  }

  predicate Blank(s: string) {
    TrimSpace(s) == ""
  }

  /** Binary collation: code point by code point. */
  predicate Less(a: string, b: string) {
    if b == "" then false
    else if a == "" then true
    else if a[0] != b[0] then a[0] < b[0]
    else Less(a[1..], b[1..])
  }

  /** a comes before b where they first differ: a ends there, or has the lower code point. */
  predicate DiffersAt(a: string, b: string, n: nat) {
    && n <= |a| && n < |b| && a[..n] == b[..n]
    && (n == |a| || a[n] < b[n])
  }

  lemma {:induction false} LessIsLexicographic(a: string, b: string)
    ensures Less(a, b) <==> exists n: nat :: DiffersAt(a, b, n)
  {
    if a == "" || b == "" || a[0] != b[0] {
      assert a[..0] == b[..0];
      if Less(a, b) { assert DiffersAt(a, b, 0); }
      forall n: nat | DiffersAt(a, b, n) ensures n > 0 ==> a != "" && b != "" && a[0] == b[0] { if n > 0 { SharesFirst(a, b, n); } }
    } else {
      LessIsLexicographic(a[1..], b[1..]);
      forall n: nat ensures DiffersAt(a[1..], b[1..], n) <==> DiffersAt(a, b, n + 1) { DiffersLater(a, b, n); }
      if n: nat :| DiffersAt(a, b, n) { assert DiffersAt(a[1..], b[1..], n - 1); }
      if n: nat :| DiffersAt(a[1..], b[1..], n) { assert DiffersAt(a, b, n + 1); }
    }
  }

  lemma SharesFirst(a: string, b: string, n: nat)
    requires 0 < n <= |a| && n <= |b| && a[..n] == b[..n]
    ensures a[0] == b[0]
  {
    assert a[..n][0] == a[0] && b[..n][0] == b[0];
  }

  lemma DiffersLater(a: string, b: string, n: nat)
    requires a != "" && b != "" && a[0] == b[0]
    ensures DiffersAt(a[1..], b[1..], n) <==> DiffersAt(a, b, n + 1)
  {
    if n < |a| && n + 1 <= |b| {
      assert a[..n + 1] == [a[0]] + a[1..][..n];
      assert b[..n + 1] == [b[0]] + b[1..][..n];
      assert a[..n + 1][1..] == a[1..][..n] && b[..n + 1][1..] == b[1..][..n];
    }
  }

  predicate AllSpace(s: string) { forall i | 0 <= i < |s| :: IsSpace(s[i]) }

  /** mid is what is left of s when the space around it is taken away. */
  predicate IsTrimmed(s: string, mid: string) {
    && (mid == "" || (!IsSpace(mid[0]) && !IsSpace(mid[|mid| - 1])))
    && exists i | 0 <= i <= |s| - |mid| :: s[i..i + |mid|] == mid && AllSpace(s[..i]) && AllSpace(s[i + |mid|..])
  }

  lemma {:induction false} TrimmedLeft(s: string) returns (i: nat)
    ensures i <= |s| && TrimLeft(s) == s[i..] && AllSpace(s[..i]) && (i < |s| ==> !IsSpace(s[i]))
  {
    if s != "" && IsSpace(s[0]) {
      var j := TrimmedLeft(s[1..]);
      i := j + 1;
      assert s[..i] == [s[0]] + s[1..][..j] && s[1..][j..] == s[i..];
    } else {
      i := 0;
    }
  }

  lemma SplitLast(s: string, n: nat)
    requires n < |s|
    ensures var init := s[..|s| - 1]; s[n..] == init[n..] + [s[|s| - 1]] && init[..n] == s[..n]
  {
  }

  lemma {:induction false} TrimmedRight(s: string) returns (n: nat)
    ensures n <= |s| && TrimRight(s) == s[..n] && AllSpace(s[n..]) && (n > 0 ==> !IsSpace(s[n - 1]))
  {
    if s != "" && IsSpace(s[|s| - 1]) {
      var init := s[..|s| - 1];
      n := TrimmedRight(init);
      SplitLast(s, n);
    } else {
      n := |s|;
      assert s[..n] == s;
    }
  }

  lemma TrimSpaceIsTrimmed(s: string)
    ensures IsTrimmed(s, TrimSpace(s))
  {
    var i := TrimmedLeft(s);
    var n := TrimmedRight(s[i..]);
    assert s[i..][..n] == s[i..i + n] && s[i..][n..] == s[i + n..];
    assert n > 0 ==> s[i..][0] == s[i] && s[i..][n - 1] == s[i + n - 1];
  }

  lemma NothingLeft(s: string, i: nat)
    requires i <= |s| && AllSpace(s[..i]) && AllSpace(s[i..])
    ensures AllSpace(s)
  {
    forall j | 0 <= j < |s| ensures IsSpace(s[j]) {
      if j < i { assert IsSpace(s[..i][j]); } else { assert IsSpace(s[i..][j - i]); }
    }
  }

  lemma SomethingLeft(s: string, i: nat, mid: string)
    requires mid != "" && !IsSpace(mid[0]) && i + |mid| <= |s| && s[i..i + |mid|] == mid
    ensures !AllSpace(s)
  {
    assert s[i] == s[i..i + |mid|][0];
  }

  /** A string is blank exactly if it holds nothing but space. */
  lemma BlankIsSpace(s: string)
    ensures Blank(s) <==> AllSpace(s)
  {
    TrimSpaceIsTrimmed(s);
    var mid := TrimSpace(s);
    var i :| 0 <= i <= |s| - |mid| && s[i..i + |mid|] == mid && AllSpace(s[..i]) && AllSpace(s[i + |mid|..]);
    if mid == "" { NothingLeft(s, i); } else { SomethingLeft(s, i, mid); }
  }

  lemma {:induction false} LessIsAsymmetric(a: string, b: string)
    requires Less(a, b)
    ensures !Less(b, a) && a != b
  {
    if a != "" && a[0] == b[0] {
      LessIsAsymmetric(a[1..], b[1..]);
    }
  }

  lemma {:induction false} LessIsTotal(a: string, b: string)
    ensures a == b || Less(a, b) || Less(b, a)
  {
    if a != "" && b != "" && a[0] == b[0] {
      LessIsTotal(a[1..], b[1..]);
      assert a == [a[0]] + a[1..] && b == [b[0]] + b[1..];
    }
  }

  lemma {:induction false} LessIsTransitive(a: string, b: string, c: string)
    requires Less(a, b) && Less(b, c)
    ensures Less(a, c)
  {
    if a != "" && a[0] == b[0] == c[0] {
      LessIsTransitive(a[1..], b[1..], c[1..]);
    }
  }
}

/** ORDER BY over rows whose sort keys are pairwise distinct. */
module Ordering {

  ghost predicate StrictOrderOn<T(!new)>(less: (T, T) -> bool, items: set<T>) {
    && (forall a, b | a in items && b in items && less(a, b) :: !less(b, a))
    && (forall a, b | a in items && b in items && a != b :: less(a, b) || less(b, a))
    && (forall a, b, c | a in items && b in items && c in items && less(a, b) && less(b, c) :: less(a, c))
  }

  ghost predicate Sorted<T>(less: (T, T) -> bool, s: seq<T>) {
    forall i, j | 0 <= i < j < |s| :: less(s[i], s[j])
  }

  ghost predicate Enumerates<T(!new)>(s: seq<T>, items: set<T>) {
    && (forall x :: x in s <==> x in items)
    && (forall i, j | 0 <= i < j < |s| :: s[i] != s[j])
  }

  /** Rows come back in one order only: two sorted enumerations of one set agree. */
  lemma {:induction false} SortedEnumerationIsUnique<T(!new)>(less: (T, T) -> bool, items: set<T>, s: seq<T>, t: seq<T>)
    requires forall a, b | a in items && b in items && less(a, b) :: !less(b, a)
    requires Enumerates(s, items) && Sorted(less, s)
    requires Enumerates(t, items) && Sorted(less, t)
    ensures s == t
  {
    assert forall x :: x in s <==> x in t;
    assert t != [] ==> t[0] in s;
    if s != [] {
      assert s[0] in items;
      assert t[0] in items;
      assert t[0] in s;
      assert s[0] == t[0];
      var rest := items - {s[0]};
      forall x ensures x in s[1..] <==> x in rest {
        if x in rest { var i :| 0 <= i < |s| && s[i] == x; assert s[1..][i - 1] == x; }
      }
      forall x ensures x in t[1..] <==> x in rest {
        if x in rest { var i :| 0 <= i < |t| && t[i] == x; assert t[1..][i - 1] == x; }
      }
      SortedEnumerationIsUnique(less, rest, s[1..], t[1..]);
    }
  }

  lemma {:induction false} EnumerationLength<T(!new)>(s: seq<T>, items: set<T>)
    requires Enumerates(s, items)
    ensures |s| == |items|
  {
    if s == [] {
      assert items == {};
    } else {
      assert s[0] in items;
      forall x ensures x in s[1..] <==> x in items - {s[0]} {
        if x in items - {s[0]} { var i :| 0 <= i < |s| && s[i] == x; assert s[1..][i - 1] == x; }
      }
      EnumerationLength(s[1..], items - {s[0]});
    }
  }

  /** Where x goes in a sorted sequence that does not hold it. */
  method FindPlace<T(!new)>(s: seq<T>, x: T, less: (T, T) -> bool, ghost items: set<T>) returns (i: nat)
    requires StrictOrderOn(less, items) && x in items && Sorted(less, s)
    requires forall k | 0 <= k < |s| :: s[k] in items && s[k] != x
    ensures i <= |s|
    ensures Sorted(less, s[..i] + [x] + s[i..])
  {
    i := 0;
    while i < |s| && less(s[i], x)
      invariant 0 <= i <= |s|
      invariant forall k | 0 <= k < i :: less(s[k], x)
    {
      i := i + 1;
    }
    forall k | i <= k < |s| ensures less(x, s[k]) {
      assert s[i] in items && less(x, s[i]);
    }
  }

  /** The sort the database performs for an ORDER BY clause. */
  method OrderBy<T(==, !new)>(items: set<T>, less: (T, T) -> bool) returns (s: seq<T>)
    requires StrictOrderOn(less, items)
    ensures Enumerates(s, items) && Sorted(less, s)
  {
    s := [];
    var rest := items;
    while rest != {}
      invariant rest <= items
      invariant Enumerates(s, items - rest) && Sorted(less, s)
    {
      var x :| x in rest;
      assert forall k | 0 <= k < |s| :: s[k] in items - rest;
      var i := FindPlace(s, x, less, items);
      EnumeratesInserted(s, items - rest, x, i);
      s := s[..i] + [x] + s[i..];
      rest := rest - {x};
      assert items - rest == items - (rest + {x}) + {x};
    }
  }

  lemma EnumeratesInserted<T(!new)>(s: seq<T>, items: set<T>, x: T, i: nat)
    requires Enumerates(s, items) && x !in items && i <= |s|
    ensures Enumerates(s[..i] + [x] + s[i..], items + {x})
  {
    var u := s[..i] + [x] + s[i..];
    assert forall k | 0 <= k < |s| :: s[k] in items;
    forall y ensures y in u <==> y in items + {x} {
      if y in items {
        var k :| 0 <= k < |s| && s[k] == y;
        assert u[if k < i then k else k + 1] == y;
      } else if y == x {
        assert u[i] == y;
      }
    }
  }
}
