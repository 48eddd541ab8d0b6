/** Ascending enumerations: of naturals, and of strings compared byte by byte. */
module Ordering {

  ghost predicate StrictlyAscending(s: seq<nat>) {
    forall i, j :: 0 <= i < j < |s| ==> s[i] < s[j]
  }

  function Elements<T>(s: seq<T>): set<T> {
    set x | x in s
  }

  predicate IsMin(m: nat, s: set<nat>) {
    m in s && forall x | x in s :: m <= x
  }

  lemma {:induction false} MinExists(s: set<nat>)
    requires s != {}
    ensures exists m :: IsMin(m, s)
    decreases s
  {
    var x :| x in s;
    if !IsMin(x, s) {
      var y :| y in s && y < x;
      var below := set z | z in s && z < x;
      assert y in below && x !in below;
      MinExists(below);
      var m :| IsMin(m, below);
      forall z | z in s
        ensures m <= z
      {
        if z < x {
          assert z in below;
        }
      }
      assert IsMin(m, s);
    }
  }

  function Min(s: set<nat>): (m: nat)
    requires s != {}
    ensures IsMin(m, s)
  {
    MinExists(s);
    var m :| IsMin(m, s);
    m
  }

  /** The ascending enumeration of a finite set. */
  function Ascending(s: set<nat>): (r: seq<nat>)
    ensures Elements(r) == s
    ensures StrictlyAscending(r)
    decreases s
  {
    if s == {} then []
    else
      var m := Min(s);
      var rest := Ascending(s - {m});
      assert forall x :: x in rest <==> x in Elements(rest);
      assert forall x :: x in [m] + rest <==> x == m || x in rest;
      [m] + rest
  }

  /** A set has one strictly ascending enumeration. */
  lemma {:induction false} AscendingUnique(r: seq<nat>, t: seq<nat>)
    requires StrictlyAscending(r) && StrictlyAscending(t)
    requires Elements(r) == Elements(t)
    ensures r == t
    decreases |r|
  {
    SameMembers(r, t);
    EmptyElements(r);
    EmptyElements(t);
    if r != [] {
      assert r[0] in r && t[0] in t;
      assert r[0] == t[0];
      TailElements(r);
      TailElements(t);
      AscendingUnique(r[1..], t[1..]);
      assert r == [r[0]] + r[1..];
      assert t == [t[0]] + t[1..];
    }
  }

  lemma EmptyElements<T>(r: seq<T>)
    ensures Elements(r) == {} <==> r == []
  {
    if r != [] {
      assert r[0] in Elements(r);
    }
  }

  lemma TailElements(r: seq<nat>)
    requires r != [] && StrictlyAscending(r)
    ensures Elements(r[1..]) == Elements(r) - {r[0]}
  {
    assert r == [r[0]] + r[1..];
  }

  lemma SameMembers<T>(r: seq<T>, t: seq<T>)
    requires Elements(r) == Elements(t)
    ensures forall x :: x in r <==> x in t
  {
    assert forall x :: x in r <==> x in Elements(r);
    assert forall x :: x in t <==> x in Elements(t);
  }

  // ----- pages --------------------------------------------------------------

  /** The first `limit` of a set, in ascending order. */
  function Page(ids: set<nat>, limit: nat): seq<nat> {
    var all := Ascending(ids);
    if |all| <= limit then all else all[..limit]
  }

  /** A page is ascending, drawn from the set, and everything it leaves out lies above it. */
  lemma PageExact(ids: set<nat>, limit: nat)
    ensures StrictlyAscending(Page(ids, limit))
    ensures |Ascending(ids)| <= limit ==> Elements(Page(ids, limit)) == ids
    ensures |Ascending(ids)| > limit ==> |Page(ids, limit)| == limit
    ensures forall x | x in Page(ids, limit) :: x in ids
    ensures forall x | x in ids && x !in Page(ids, limit) ::
              |Ascending(ids)| > limit && forall y | y in Page(ids, limit) :: y < x
  {
    var all, page := Ascending(ids), Page(ids, limit);
    assert forall x :: x in all <==> x in Elements(all);
    forall x | x in ids && x !in page
      ensures |all| > limit && forall y | y in page :: y < x
    {
      assert x in all;
      if |all| > limit {
        assert all == page + all[limit..];
        var k :| 0 <= k < |all| - limit && all[limit..][k] == x;
        assert all[limit + k] == x;
      }
    }
  }

  // ----- strings ------------------------------------------------------------

  predicate StringLess(a: string, b: string) {
    if b == "" then false
    else if a == "" then true
    else if a[0] != b[0] then a[0] < b[0]
    else StringLess(a[1..], b[1..])
  }

  lemma {:induction false} StringLessTransitive(a: string, b: string, c: string)
    requires StringLess(a, b) && StringLess(b, c)
    ensures StringLess(a, c)
  {
    if a != "" && a[0] == b[0] && b[0] == c[0] {
      StringLessTransitive(a[1..], b[1..], c[1..]);
    }
  }

  /** Exactly one of less, equal, greater holds. */
  lemma {:induction false} StringLessTotal(a: string, b: string)
    ensures a == b ==> !StringLess(a, b)
    ensures a != b ==> (StringLess(a, b) <==> !StringLess(b, a))
  {
    if a != "" && b != "" && a[0] == b[0] {
      StringLessTotal(a[1..], b[1..]);
      assert a == [a[0]] + a[1..];
      assert b == [b[0]] + b[1..];
    }
  }

  ghost predicate StringsAscending(s: seq<string>) {
    forall i, j :: 0 <= i < j < |s| ==> StringLess(s[i], s[j])
  }

  function InsertString(x: string, s: seq<string>): seq<string> {
    if s == [] || !StringLess(s[0], x) then [x] + s
    else [s[0]] + InsertString(x, s[1..])
  }

  /** What the library sort returns. */
  function SortStrings(s: seq<string>): seq<string> {
    if s == [] then [] else InsertString(s[0], SortStrings(s[1..]))
  }

  ghost predicate Distinct<T(!new)>(s: seq<T>) {
    forall i, j :: 0 <= i < j < |s| ==> s[i] != s[j]
  }

  lemma {:induction false} InsertStringAscends(x: string, s: seq<string>)
    requires StringsAscending(s) && x !in s
    ensures StringsAscending(InsertString(x, s))
    ensures Elements(InsertString(x, s)) == {x} + Elements(s)
  {
    if s == [] {
    } else if !StringLess(s[0], x) {
      StringLessTotal(s[0], x);
      forall j | 0 <= j < |s|
        ensures StringLess(x, s[j])
      {
        if j > 0 {
          StringLessTransitive(x, s[0], s[j]);
        }
      }
    } else {
      InsertStringAscends(x, s[1..]);
      var rest := InsertString(x, s[1..]);
      forall j | 0 <= j < |rest|
        ensures StringLess(s[0], rest[j])
      {
        assert rest[j] in Elements(rest);
        assert rest[j] == x || rest[j] in s[1..];
      }
      assert Elements(s) == {s[0]} + Elements(s[1..]);
    }
  }

  /** Sorting distinct strings gives an ascending list of the same strings. */
  lemma {:induction false} SortStringsAscends(s: seq<string>)
    requires Distinct(s)
    ensures StringsAscending(SortStrings(s))
    ensures Elements(SortStrings(s)) == Elements(s)
  {
    if s != [] {
      SortStringsAscends(s[1..]);
      assert s[0] !in s[1..];
      assert s[0] !in Elements(SortStrings(s[1..]));
      InsertStringAscends(s[0], SortStrings(s[1..]));
      assert Elements(s) == {s[0]} + Elements(s[1..]);
    }
  }

  /** An ascending list is already sorted. */
  lemma {:induction false} SortStringsFixed(s: seq<string>)
    requires StringsAscending(s)
    ensures SortStrings(s) == s
    ensures Distinct(s)
  {
    forall i, j | 0 <= i < j < |s|
      ensures s[i] != s[j]
    {
      StringLessTotal(s[i], s[j]);
    }
    if s != [] {
      SortStringsFixed(s[1..]);
      if |s| > 1 {
        StringLessTotal(s[0], s[1]);
      }
    }
  }
}
