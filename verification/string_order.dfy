/**
 * Python's ordering of `str` values and its `sorted()` on a set of strings.
 *
 * Python compares strings code point by code point, and a proper prefix sorts first. On
 * product IDs this is not numeric order: "1" < "10" < "2".
 */
module StringOrder {
  import opened IntText

  /** `a < b` on Python strings: a string sorts after each of its proper prefixes, and never equals what it is less than. */
  predicate Less(a: string, b: string)
    ensures |a| < |b| && a == b[..|a|] ==> Less(a, b)
    ensures Less(a, b) ==> a != b
    decreases |a|
  {
    if a == [] then b != []
    else if b == [] then false
    else if a[0] != b[0] then a[0] < b[0]
    else Less(a[1..], b[1..])
  }

  /** Every element is smaller than every later one, so no element repeats. */
  predicate Ascending(s: seq<string>) {
    forall i, j :: 0 <= i < j < |s| ==> Less(s[i], s[j])
  }

  lemma {:induction false} LessIrreflexive(a: string)
    ensures !Less(a, a)
  {
    if a != [] {
      LessIrreflexive(a[1..]);
    }
  }

  lemma {:induction false} LessTransitive(a: string, b: string, c: string)
    requires Less(a, b) && Less(b, c)
    ensures Less(a, c)
  {
    if a != [] && a[0] == b[0] && b[0] == c[0] {
      LessTransitive(a[1..], b[1..], c[1..]);
    }
  }

  lemma {:induction false} LessTotal(a: string, b: string)
    ensures a == b || Less(a, b) || Less(b, a)
  {
    if a != [] && b != [] && a[0] == b[0] {
      LessTotal(a[1..], b[1..]);
      if a[1..] == b[1..] {
        assert a == [a[0]] + a[1..] && b == [b[0]] + b[1..];
      }
    }
  }

  /** Every non-empty finite set of strings has a least element. */
  lemma {:induction false} LeastExists(t: set<string>)
    requires t != {}
    ensures exists m :: m in t && forall y :: y in t && y != m ==> Less(m, y)
  {
    var x :| x in t;
    var rest := t - {x};
    if rest == {} {
      assert t == {x};
    } else {
      LeastExists(rest);
      var m :| m in rest && forall y :: y in rest && y != m ==> Less(m, y);
      LessTotal(m, x);
      if Less(m, x) {
        assert forall y :: y in t && y != m ==> Less(m, y);
      } else {
        forall y | y in t && y != x
          ensures Less(x, y)
        {
          if y != m {
            LessTransitive(x, m, y);
          }
        }
      }
    }
  }

  /** Product IDs, which are decimal strings, sort as strings and not as numbers. */
  lemma IdsSortAsStrings()
    ensures Less(DecimalString(1), DecimalString(10))
    ensures Less(DecimalString(10), DecimalString(2))
  {
    assert DecimalString(10) == "10";
  }

  /** `sorted(ids)`: the members of the set, each once, in ascending string order. */
  method Sorted(ids: set<string>) returns (s: seq<string>)
    ensures Ascending(s)
    ensures forall x :: x in s <==> x in ids
    ensures |s| == |ids|
  {
    s := [];
    var rest := ids;
    while rest != {}
      invariant rest <= ids
      invariant forall x :: x in ids <==> x in s || x in rest
      invariant forall x :: x in s ==> x !in rest
      invariant |s| + |rest| == |ids|
      invariant Ascending(s)
      invariant forall i, y :: 0 <= i < |s| && y in rest ==> Less(s[i], y)
      decreases |rest|
    {
      LeastExists(rest);
      var m :| m in rest && forall y :: y in rest && y != m ==> Less(m, y);
      s := s + [m];
      rest := rest - {m};
    }
  }
}
