/**
 * Lexicographic order on strings, as Go's `sort.Strings` uses it. Go compares the
 * UTF-8 bytes of two strings; comparing code points one by one gives the same order,
 * because UTF-8 encoding preserves the order of code points.
 */
module Lexicographic {

  /** `a` sorts strictly before `b`. */
  predicate Below(a: string, b: string)
    decreases |a|
  {
    if |a| == 0 then |b| > 0
    else if |b| == 0 then false
    else if a[0] != b[0] then a[0] < b[0]
    else Below(a[1..], b[1..])
  }

  lemma {:induction false} BelowIrreflexive(a: string)
    ensures !Below(a, a)
    decreases |a|
  {
    if |a| > 0 {
      BelowIrreflexive(a[1..]);
    }
  }

  lemma {:induction false} BelowTransitive(a: string, b: string, c: string)
    requires Below(a, b) && Below(b, c)
    ensures Below(a, c)
    decreases |a|
  {
    if |a| > 0 && |b| > 0 && |c| > 0 && a[0] == b[0] && b[0] == c[0] {
      BelowTransitive(a[1..], b[1..], c[1..]);
    }
  }

  lemma {:induction false} BelowTotal(a: string, b: string)
    requires a != b
    ensures Below(a, b) || Below(b, a)
    decreases |a|
  {
    if |a| > 0 && |b| > 0 && a[0] == b[0] {
      assert a == [a[0]] + a[1..] && b == [b[0]] + b[1..];
      BelowTotal(a[1..], b[1..]);
    }
  }

  /** Every element strictly below every later one: sorted and without duplicates. */
  predicate StrictlySorted(s: seq<string>)
  {
    forall i, j :: 0 <= i < j < |s| ==> Below(s[i], s[j])
  }

  /** Puts `x` into its place in a strictly sorted sequence that does not hold it yet. */
  function Insert(s: seq<string>, x: string): (r: seq<string>)
    requires StrictlySorted(s) && x !in s
    ensures StrictlySorted(r)
    ensures forall y :: y in r <==> y in s || y == x
    ensures |r| == |s| + 1
  {
    if s == [] then [x]
    else if Below(x, s[0]) then
      LeastFirst(x, s);
      [x] + s
    else
      BelowTotal(x, s[0]);
      var rest := Insert(s[1..], x);
      AboveAll(s[0], rest, s);
      [s[0]] + rest
  }

  /** A string below the head of a sorted sequence is below all of it. */
  lemma LeastFirst(x: string, s: seq<string>)
    requires StrictlySorted(s) && s != [] && Below(x, s[0])
    ensures forall j :: 0 <= j < |s| ==> Below(x, s[j])
  {
    forall j | 1 <= j < |s| {
      BelowTransitive(x, s[0], s[j]);
    }
  }

  lemma AboveAll(h: string, rest: seq<string>, s: seq<string>)
    requires StrictlySorted(s) && s != [] && h == s[0]
    requires forall y :: y in rest ==> y in s[1..] || Below(h, y)
    ensures forall j :: 0 <= j < |rest| ==> Below(h, rest[j])
  {
    forall j | 0 <= j < |rest|
      ensures Below(h, rest[j])
    {
      if rest[j] in s[1..] {
        var k :| 0 <= k < |s[1..]| && s[1..][k] == rest[j];
        assert s[k + 1] == rest[j];
      }
    }
  }

  /**
   * A strictly sorted listing of a set is unique: two strictly sorted sequences
   * with the same elements are equal.
   */
  lemma {:induction false} SortedListingUnique(a: seq<string>, b: seq<string>)
    requires StrictlySorted(a) && StrictlySorted(b)
    requires forall x :: x in a <==> x in b
    ensures a == b
    decreases |a|
  {
    if a != [] {
      assert a[0] in a;
    }
    if b != [] {
      assert b[0] in b;
    }
    if a != [] && b != [] {
      var i :| 0 <= i < |b| && b[i] == a[0];
      var j :| 0 <= j < |a| && a[j] == b[0];
      if i != 0 && j != 0 {
        BelowTransitive(b[0], a[0], a[j]);
        BelowIrreflexive(b[0]);
      }
      assert a[0] == b[0] by {
        if i != 0 { BelowIrreflexive(a[0]); }
      }
      assert a == [a[0]] + a[1..] && b == [b[0]] + b[1..];
      forall x
        ensures x in a[1..] <==> x in b[1..]
      {
        if x in a[1..] {
          var k :| 0 <= k < |a[1..]| && a[1..][k] == x;
          assert Below(a[0], a[k + 1]);
          BelowIrreflexive(x);
          assert x in b && x != b[0];
        }
        if x in b[1..] {
          var k :| 0 <= k < |b[1..]| && b[1..][k] == x;
          assert Below(b[0], b[k + 1]);
          BelowIrreflexive(x);
          assert x in a && x != a[0];
        }
      }
      SortedListingUnique(a[1..], b[1..]);
    }
  }
}
