/** The sorted key vector: std::lower_bound / std::binary_search over a
    sorted vector of strings, and sort + unique + erase, which turns any
    vector into the strictly increasing vector of its distinct elements. */
module KeySet {
  import opened StringOrder

  /** First position whose element is not less than x (std::lower_bound). */
  method LowerBound(s: seq<string>, x: string) returns (i: nat)
    requires Sorted(s)
    ensures i <= |s|
    ensures forall j :: 0 <= j < i ==> Less(s[j], x)
    ensures forall j :: i <= j < |s| ==> !Less(s[j], x)
  {
    var lo, hi := 0, |s|;
    while lo < hi
      invariant 0 <= lo <= hi <= |s|
      invariant forall j :: 0 <= j < lo ==> Less(s[j], x)
      invariant forall j :: hi <= j < |s| ==> !Less(s[j], x)
    {
      var mid := (lo + hi) / 2;
      if Less(s[mid], x) {
        forall j | 0 <= j < mid
          ensures Less(s[j], x)
        {
          LessTotal(s[j], s[mid]);
          if s[j] != s[mid] {
            LessTransitive(s[j], s[mid], x);
          }
        }
        lo := mid + 1;
      } else {
        forall j | mid < j < |s|
          ensures !Less(s[j], x)
        {
          LessTotal(s[mid], s[j]);
          if Less(s[j], x) && s[mid] != s[j] {
            LessTransitive(s[mid], s[j], x);
          }
        }
        hi := mid;
      }
    }
    i := lo;
  }

  /** std::binary_search: lower_bound, then the element found there is x
      exactly when x is not less than it. */
  method BinarySearch(s: seq<string>, x: string) returns (found: bool)
    requires Sorted(s)
    ensures found <==> x in s
  {
    var i := LowerBound(s, x);
    found := i < |s| && !Less(x, s[i]);
    if found {
      LessTotal(x, s[i]);
    }
    if x in s {
      var j :| 0 <= j < |s| && s[j] == x;
      LessIrreflexive(x);
      assert i <= j;
    }
  }

  /** Adds x to a strictly increasing vector unless it is already there. */
  method InsertUnique(s: seq<string>, x: string) returns (r: seq<string>)
    requires StrictlySorted(s)
    ensures StrictlySorted(r)
    ensures Elems(r) == Elems(s) + {x}
  {
    StrictlySortedIsSorted(s);
    var i := LowerBound(s, x);
    if i < |s| && s[i] == x {
      r := s;
    } else {
      r := s[..i] + [x] + s[i..];
      forall j | i <= j < |s|
        ensures Less(x, s[j])
      {
        LessTotal(x, s[i]);
        if j > i {
          LessTransitive(x, s[i], s[j]);
        }
      }
      assert forall j :: 0 <= j < |r| ==> r[j] == (if j < i then s[j] else if j == i then x else s[j - 1]);
      forall a, b | 0 <= a < b < |r|
        ensures Less(r[a], r[b])
      {
        if a < i && b == i {
        } else if a < i && b > i {
          LessTransitive(s[a], x, s[b - 1]);
        }
      }
      assert s == s[..i] + s[i..];
    }
  }

  /** std::sort followed by erase(std::unique(...)): the strictly increasing
      vector holding exactly the elements of v. */
  method SortUnique(v: seq<string>) returns (r: seq<string>)
    ensures StrictlySorted(r)
    ensures Elems(r) == Elems(v)
  {
    r := [];
    for i := 0 to |v|
      invariant StrictlySorted(r)
      invariant Elems(r) == Elems(v[..i])
    {
      assert v[..i + 1] == v[..i] + [v[i]];
      r := InsertUnique(r, v[i]);
    }
    assert v[..|v|] == v;
  }

  /** A strictly increasing vector is determined by its set of elements, so
      sort + unique gives the same vector for any input with the same elements. */
  lemma {:induction false} StrictlySortedUnique(a: seq<string>, b: seq<string>)
    requires StrictlySorted(a) && StrictlySorted(b)
    requires Elems(a) == Elems(b)
    ensures a == b
  {
    assert |a| > 0 ==> a[0] in Elems(a);
    assert |b| > 0 ==> b[0] in Elems(b);
    if |a| > 0 && |b| > 0 {
      assert a[0] in Elems(b) && b[0] in Elems(a);
      if a[0] != b[0] {
        var j :| 0 <= j < |b| && b[j] == a[0];
        var k :| 0 <= k < |a| && a[k] == b[0];
        LessAsymmetric(b[0], a[0]);
        assert false;
      }
      forall x
        ensures x in Elems(a[1..]) <==> x in Elems(b[1..])
      {
        if x in a[1..] {
          var k :| 1 <= k < |a| && a[k] == x;
          LessIrreflexive(x);
          assert x in Elems(b);
          var m :| 0 <= m < |b| && b[m] == x;
          assert m != 0;
        }
        if x in b[1..] {
          var k :| 1 <= k < |b| && b[k] == x;
          LessIrreflexive(x);
          assert x in Elems(a);
          var m :| 0 <= m < |a| && a[m] == x;
          assert m != 0;
        }
      }
      StrictlySortedUnique(a[1..], b[1..]);
      assert a == [a[0]] + a[1..] && b == [b[0]] + b[1..];
    }
  }
}
