/** The ordering `retrieveAllLocations` applies to the locations it reads: a
    sort by business name under `String.compareTo`, stable in the library
    (stability is not proved here). */
module LocationOrder {
  import opened Entities
  import opened JavaString

  /** Every location sorts no later than each one after it. */
  ghost predicate SortedByBusinessName(s: seq<Location>)
  {
    forall i, j :: 0 <= i < j < |s| ==> NotAfter(s[i].businessName, s[j].businessName)
  }

  /** A location that sorts no later than every location of a sorted sequence
      can go in front of it. */
  lemma PrependSorted(x: Location, s: seq<Location>)
    requires SortedByBusinessName(s)
    requires forall y :: y in s ==> NotAfter(x.businessName, y.businessName)
    ensures SortedByBusinessName([x] + s)
  {
    forall i, j | 0 <= i < j < |[x] + s|
      ensures NotAfter(([x] + s)[i].businessName, ([x] + s)[j].businessName)
    {
      assert ([x] + s)[j] == s[j - 1];
      if i > 0 { assert ([x] + s)[i] == s[i - 1]; }
    }
  }

  /** A location that sorts no later than the head of a sorted sequence sorts
      no later than all of it. */
  lemma NotAfterHead(x: Location, s: seq<Location>)
    requires SortedByBusinessName(s) && s != []
    requires NotAfter(x.businessName, s[0].businessName)
    ensures forall y :: y in s ==> NotAfter(x.businessName, y.businessName)
  {
    forall y | y in s ensures NotAfter(x.businessName, y.businessName) {
      var j :| 0 <= j < |s| && s[j] == y;
      if j > 0 { CompareToTransitive(x.businessName, s[0].businessName, s[j].businessName); }
    }
  }

  /** Inserts `x` before the first location that does not sort before it, so
      that `x` stays ahead of the locations with an equal name that follow it
      in the input (meant to make the sort stable; not proved). */
  function InsertByBusinessName(x: Location, s: seq<Location>): (r: seq<Location>)
    requires SortedByBusinessName(s)
    ensures SortedByBusinessName(r)
    ensures multiset(r) == multiset(s) + multiset{x}
  {
    if s == [] then [x]
    else if NotAfter(x.businessName, s[0].businessName) then
      NotAfterHead(x, s);
      PrependSorted(x, s);
      [x] + s
    else
      var rest := InsertByBusinessName(x, s[1..]);
      CompareToTotal(x.businessName, s[0].businessName);
      assert s == [s[0]] + s[1..];
      assert forall y :: y in rest ==> NotAfter(s[0].businessName, y.businessName) by {
        forall y | y in rest ensures NotAfter(s[0].businessName, y.businessName) {
          assert y in multiset(rest);
          if y != x {
            assert y in multiset(s[1..]);
            var j :| 0 <= j < |s[1..]| && s[1..][j] == y;
            assert s[j + 1] == y;
          }
        }
      }
      PrependSorted(s[0], rest);
      [s[0]] + rest
  }

  /** `stream().sorted(this::sortLocationByBusinessName)`: an insertion sort,
      meant, like the library sort, to keep locations with equal names in
      their input order (stability is not proved). */
  function SortByBusinessName(s: seq<Location>): (r: seq<Location>)
    ensures SortedByBusinessName(r)
    ensures multiset(r) == multiset(s)
  {
    if s == [] then []
    else
      assert s == [s[0]] + s[1..];
      InsertByBusinessName(s[0], SortByBusinessName(s[1..]))
  }
}
