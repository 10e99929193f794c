/** Directory listings: the names of a set in sorted order. */
module Listing {
  /** A file name, reduced to its place in the sort order of a directory listing. */
  type Name = int

  lemma {:induction false} LeastExists(s: set<Name>)
    requires |s| > 0
    ensures exists m :: m in s && forall x :: x in s ==> m <= x
    decreases |s|
  {
    assert (forall y :: y !in s) ==> s == {};
    var y :| y in s;
    var t := s - {y};
    if t == {} {
      assert forall x :: x in s ==> x == y || x in t;
    } else {
      LeastExists(t);
      var m :| m in t && forall x :: x in t ==> m <= x;
      var k := if y <= m then y else m;
      forall x | x in s ensures k <= x { assert x == y || x in t; }
      assert k in s;
    }
  }

  /** `readdirSync(..).filter(..).sort()`: the elements of `s` in ascending order. */
  function Ascending(s: set<Name>): (r: seq<Name>)
    ensures forall n :: n in r <==> n in s
    ensures forall i, j :: 0 <= i < j < |r| ==> r[i] < r[j]
  {
    if |s| == 0 then [] else
      LeastExists(s);
      var m :| m in s && forall x :: x in s ==> m <= x;
      var rest := Ascending(s - {m});
      assert forall x :: x in rest ==> x in s && x != m;
      assert forall i :: 0 <= i < |rest| ==> rest[i] in rest;
      [m] + rest
  }

  /** The names of a list, whatever their order. */
  function Names(ns: seq<Name>): set<Name> {
    set n | n in ns
  }

  lemma {:induction false} DistinctCount(names: seq<Name>)
    requires forall i, j :: 0 <= i < j < |names| ==> names[i] < names[j]
    ensures |Names(names)| == |names|
  {
    if names != [] {
      var k := |names| - 1;
      DistinctCount(names[..k]);
      assert names == names[..k] + [names[k]];
      assert Names(names) == Names(names[..k]) + {names[k]};
    }
  }

  /** `cut` holds the `k` first names of `all`. */
  ghost predicate FirstOf(cut: set<Name>, all: set<Name>, k: nat) {
    cut <= all && |cut| == k && forall x, y :: x in cut && y in all - cut ==> x < y
  }

  lemma ListingCounts(all: set<Name>)
    ensures |Ascending(all)| == |all| && Names(Ascending(all)) == all
  {
    assert Names(Ascending(all)) == all;
    DistinctCount(Ascending(all));
  }

  /** Names before the place `k` of an ascending list are less than those from there on. */
  lemma BeforeCut(names: seq<Name>, k: nat, x: Name, y: Name)
    requires k <= |names| && forall i, j :: 0 <= i < j < |names| ==> names[i] < names[j]
    requires x in names[..k] && y in names && y !in names[..k]
    ensures x < y
  {
    var j :| 0 <= j < |names| && names[j] == y;
    assert names == names[..k] + names[k..];
  }

  /** A listing cut after `k` names holds the first ones. */
  lemma ListingCut(all: set<Name>, k: nat)
    requires k <= |Ascending(all)|
    ensures FirstOf(Names(Ascending(all)[..k]), all, k)
  {
    var names := Ascending(all);
    DistinctCount(names[..k]);
    forall x, y | x in Names(names[..k]) && y in all - Names(names[..k]) ensures x < y {
      BeforeCut(names, k, x, y);
    }
  }
}
