/** The roster page's filtering (src/app/models/page.tsx): the specialty and
    location option lists, and the three-way filter on the roster by name
    search, specialty and location. The roster itself comes from a constants
    module and is a parameter here. */
module Roster {

  datatype Model = Model(id: string, name: string, specialty: string, location: string, imageUrl: string)

  /** The page's three filter fields. */
  datatype Filters = Filters(searchTerm: string, specialtyFilter: string, locationFilter: string)

  const AllOption := "all"

  /** The filter fields as the page starts. */
  const InitialFilters := Filters("", AllOption, AllOption)

  // ---------------------------------------------------------------------------
  // Lower case and substring search

  /** `toLowerCase` on one character, for the ASCII letters. */
  function LowerChar(c: char): (r: char)
    ensures 'A' <= c <= 'Z' ==> r as int == c as int + 32
    ensures !('A' <= c <= 'Z') ==> r == c
    ensures !('A' <= r <= 'Z')
  {
    if 'A' <= c <= 'Z' then (c as int + 32) as char else c
  }

  function Lower(s: string): (r: string)
    ensures |r| == |s|
    ensures forall i :: 0 <= i < |s| ==> r[i] == LowerChar(s[i])
  {
    seq(|s|, i requires 0 <= i < |s| => LowerChar(s[i]))
  }

  /** Lowering is idempotent. */
  lemma LowerIdempotent(s: string)
    ensures Lower(Lower(s)) == Lower(s)
  {
    assert forall i :: 0 <= i < |s| ==> LowerChar(LowerChar(s[i])) == LowerChar(s[i]);
  }

  ghost predicate OccursAt(hay: string, needle: string, k: int)
  {
    0 <= k && k + |needle| <= |hay| && hay[k..k + |needle|] == needle
  }

  /** `hay.includes(needle)`: does `needle` occur in `hay`, scanning from the left? */
  function Includes(hay: string, needle: string): bool
  {
    needle <= hay || (hay != [] && Includes(hay[1..], needle))
  }

  /** `Includes` holds exactly when the needle occurs at some position. */
  lemma {:induction false} IncludesIffOccurs(hay: string, needle: string)
    ensures Includes(hay, needle) <==> exists k :: OccursAt(hay, needle, k)
  {
    if needle <= hay {
      assert OccursAt(hay, needle, 0);
    } else if hay == [] {
    } else {
      IncludesIffOccurs(hay[1..], needle);
      if k :| OccursAt(hay[1..], needle, k) {
        assert hay[1..][k..k + |needle|] == hay[k + 1..k + 1 + |needle|];
        assert OccursAt(hay, needle, k + 1);
      }
      forall k | OccursAt(hay, needle, k) ensures OccursAt(hay[1..], needle, k - 1) {
        assert k != 0;
        assert hay[1..][k - 1..k - 1 + |needle|] == hay[k..k + |needle|];
      }
    }
  }

  // ---------------------------------------------------------------------------
  // The filter

  /** The three conditions of the filter's predicate. */
  predicate MatchesSearch(m: Model, f: Filters)
  {
    Includes(Lower(m.name), Lower(f.searchTerm))
  }

  predicate MatchesSpecialty(m: Model, f: Filters)
  {
    f.specialtyFilter == AllOption || m.specialty == f.specialtyFilter
  }

  predicate MatchesLocation(m: Model, f: Filters)
  {
    f.locationFilter == AllOption || m.location == f.locationFilter
  }

  predicate Matches(m: Model, f: Filters)
  {
    MatchesSearch(m, f) && MatchesSpecialty(m, f) && MatchesLocation(m, f)
  }

  /** `allModels.filter(...)`: the models that match, in roster order. */
  function FilteredModels(all: seq<Model>, f: Filters): (r: seq<Model>)
    ensures |r| <= |all|
    ensures forall m :: m in r <==> m in all && Matches(m, f)
  {
    if all == [] then []
    else
      var last := all[|all| - 1];
      FilteredModels(all[..|all| - 1], f) + (if Matches(last, f) then [last] else [])
  }

  /** The roster positions whose model matches, in increasing order. */
  function MatchingPositions(all: seq<Model>, f: Filters): seq<nat>
  {
    if all == [] then []
    else
      var n := |all| - 1;
      MatchingPositions(all[..n], f) + (if Matches(all[n], f) then [n] else [])
  }

  /** The matching positions lie inside the roster and strictly increase. */
  lemma {:induction false} PositionsIncrease(all: seq<Model>, f: Filters)
    ensures forall i :: 0 <= i < |MatchingPositions(all, f)| ==> MatchingPositions(all, f)[i] < |all|
    ensures forall i, j :: 0 <= i < j < |MatchingPositions(all, f)| ==>
              MatchingPositions(all, f)[i] < MatchingPositions(all, f)[j]
  {
    if all != [] {
      PositionsIncrease(all[..|all| - 1], f);
    }
  }

  /** A position is listed exactly when the model there matches. */
  lemma {:induction false} PositionsExact(all: seq<Model>, f: Filters)
    ensures forall k :: 0 <= k < |all| ==> (k in MatchingPositions(all, f) <==> Matches(all[k], f))
  {
    if all != [] {
      var n := |all| - 1;
      var pre := all[..n];
      PositionsExact(pre, f);
      PositionsIncrease(pre, f);
      assert n !in MatchingPositions(pre, f);
      assert forall k :: 0 <= k < n ==> pre[k] == all[k];
    }
  }

  /** The i-th filtered model is the roster's model at the i-th matching position. */
  lemma {:induction false} FilteredAtPositions(all: seq<Model>, f: Filters)
    ensures |MatchingPositions(all, f)| == |FilteredModels(all, f)|
    ensures forall i :: 0 <= i < |MatchingPositions(all, f)| ==>
              MatchingPositions(all, f)[i] < |all| && FilteredModels(all, f)[i] == all[MatchingPositions(all, f)[i]]
  {
    PositionsIncrease(all, f);
    if all != [] {
      var n := |all| - 1;
      var pre := all[..n];
      FilteredAtPositions(pre, f);
      assert forall k :: 0 <= k < n ==> pre[k] == all[k];
    }
  }

  /** The filtered list is an order-preserving subsequence of the roster: its
      i-th model is the roster's model at position `pos[i]`, the positions
      strictly increase, and they are exactly the positions of matching
      models, so each matching entry is kept once, in place. */
  lemma {:induction false} FilteredIsSubsequence(all: seq<Model>, f: Filters)
    ensures var r := FilteredModels(all, f);
            var pos := MatchingPositions(all, f);
            && |pos| == |r|
            && (forall i :: 0 <= i < |pos| ==> pos[i] < |all| && r[i] == all[pos[i]])
            && (forall i, j :: 0 <= i < j < |pos| ==> pos[i] < pos[j])
            && (forall k :: 0 <= k < |all| ==> (k in pos <==> Matches(all[k], f)))
  {
    FilteredAtPositions(all, f);
    PositionsIncrease(all, f);
    PositionsExact(all, f);
  }

  /** Soundness and completeness of the filter in terms of the page's three
      conditions. */
  lemma FilteredSoundAndComplete(all: seq<Model>, f: Filters, m: Model)
    ensures m in FilteredModels(all, f) <==>
              && m in all
              && Includes(Lower(m.name), Lower(f.searchTerm))
              && (f.specialtyFilter == "all" || m.specialty == f.specialtyFilter)
              && (f.locationFilter == "all" || m.location == f.locationFilter)
  {
  }

  /** The search ignores the case of the search term. */
  lemma SearchIgnoresCase(all: seq<Model>, f: Filters)
    ensures FilteredModels(all, f.(searchTerm := Lower(f.searchTerm))) == FilteredModels(all, f)
  {
    LowerIdempotent(f.searchTerm);
    assert forall m :: Matches(m, f.(searchTerm := Lower(f.searchTerm))) == Matches(m, f);
    FilteredDependsOnlyOnMatches(all, f.(searchTerm := Lower(f.searchTerm)), f);
  }

  lemma {:induction false} FilteredDependsOnlyOnMatches(all: seq<Model>, f: Filters, g: Filters)
    requires forall m :: Matches(m, f) == Matches(m, g)
    ensures FilteredModels(all, f) == FilteredModels(all, g)
  {
    if all != [] {
      FilteredDependsOnlyOnMatches(all[..|all| - 1], f, g);
    }
  }

  /** With the filters as the page starts, every model is shown, in order. */
  lemma {:induction false} InitialFiltersShowAll(all: seq<Model>)
    ensures FilteredModels(all, InitialFilters) == all
  {
    if all != [] {
      var n := |all| - 1;
      InitialFiltersShowAll(all[..n]);
      assert Lower("") == "";
      assert Matches(all[n], InitialFilters);
      assert all[..n] + [all[n]] == all;
    }
  }

  /** "No models match your criteria." is shown exactly when the list is empty. */
  predicate ShowsNoMatchMessage(all: seq<Model>, f: Filters)
  {
    |FilteredModels(all, f)| == 0
  }

  lemma NoMatchMessageIffNoModelMatches(all: seq<Model>, f: Filters)
    ensures ShowsNoMatchMessage(all, f) <==> forall m :: m in all ==> !Matches(m, f)
  {
    if |FilteredModels(all, f)| != 0 {
      assert FilteredModels(all, f)[0] in FilteredModels(all, f);
    }
  }

  // ---------------------------------------------------------------------------
  // Option lists

  /** `[...new Set(s)]`: each value once, at the place of its first occurrence. */
  function Distinct(s: seq<string>): (r: seq<string>)
    ensures forall x :: x in r <==> x in s
    ensures forall i, j :: 0 <= i < j < |r| ==> r[i] != r[j]
  {
    if s == [] then []
    else
      var d := Distinct(s[..|s| - 1]);
      var x := s[|s| - 1];
      if x in d then d else d + [x]
  }

  /** The position of the first occurrence of `x` in `s`. */
  function FirstIndex(s: seq<string>, x: string): (k: nat)
    requires x in s
    ensures k < |s| && s[k] == x
    ensures forall j :: 0 <= j < k ==> s[j] != x
  {
    if s[0] == x then 0 else 1 + FirstIndex(s[1..], x)
  }

  lemma FirstIndexUnique(s: seq<string>, x: string, k: nat)
    requires k < |s| && s[k] == x
    requires forall j :: 0 <= j < k ==> s[j] != x
    ensures FirstIndex(s, x) == k
  {
    var f := FirstIndex(s, x);
    assert !(f < k) && !(k < f);
  }

  /** The values of `r`, all taken from `s`, come in the order of their first
      occurrences in `s`. */
  ghost predicate InFirstOccurrenceOrder(r: seq<string>, s: seq<string>)
  {
    && (forall x :: x in r ==> x in s)
    && (forall i, j :: 0 <= i < j < |r| ==> FirstIndex(s, r[i]) < FirstIndex(s, r[j]))
  }

  /** The distinct values come in the order of their first occurrences. */
  lemma {:induction false} DistinctInFirstOccurrenceOrder(s: seq<string>)
    ensures InFirstOccurrenceOrder(Distinct(s), s)
  {
    if s != [] {
      var n := |s| - 1;
      var p := s[..n];
      var x := s[n];
      DistinctInFirstOccurrenceOrder(p);
      var d := Distinct(p);
      assert s == p + [x];
      // a value of the prefix has the same first occurrence in `s`
      forall y | y in p ensures FirstIndex(s, y) == FirstIndex(p, y) {
        FirstIndexUnique(s, y, FirstIndex(p, y));
      }
      if x !in d {
        FirstIndexUnique(s, x, n);
        var r := d + [x];
        forall i, j | 0 <= i < j < |r| ensures FirstIndex(s, r[i]) < FirstIndex(s, r[j]) {
          assert r[i] == d[i] && d[i] in p;
          assert FirstIndex(s, d[i]) == FirstIndex(p, d[i]);
          if j < |d| {
            assert r[j] == d[j] && d[j] in p;
            assert FirstIndex(s, d[j]) == FirstIndex(p, d[j]);
          } else {
            assert r[j] == x && FirstIndex(p, d[i]) < |p|;
          }
        }
      }
    }
  }

  /** The two fields a select filters on. */
  function SpecialtyOf(m: Model): string { m.specialty }

  function LocationOf(m: Model): string { m.location }

  /** `allModels.map(field)`: the values of one field of the roster, in roster order. */
  function FieldValues(all: seq<Model>, field: Model -> string): (r: seq<string>)
    ensures |r| == |all| && forall i :: 0 <= i < |all| ==> r[i] == field(all[i])
  {
    seq(|all|, i requires 0 <= i < |all| => field(all[i]))
  }

  /** `["all", ...new Set(allModels.map(field))]`: a select's options. */
  function Options(all: seq<Model>, field: Model -> string): seq<string>
  {
    [AllOption] + Distinct(FieldValues(all, field))
  }

  /** The specialty select's options, and the location select's. */
  function SpecialtyOptions(all: seq<Model>): seq<string>
  {
    Options(all, SpecialtyOf)
  }

  function LocationOptions(all: seq<Model>): seq<string>
  {
    Options(all, LocationOf)
  }

  /** A select's options: "all" first, then each model's value of the field
      exactly once, in the order the roster first uses it, and nothing else. */
  lemma OptionsProperties(all: seq<Model>, field: Model -> string)
    ensures var o := Options(all, field);
            && |o| >= 1 && o[0] == AllOption
            && (forall i, j :: 1 <= i < j < |o| ==> o[i] != o[j])
            && (forall i :: 1 <= i < |o| ==> exists m :: m in all && field(m) == o[i])
            && (forall m :: m in all ==> field(m) in o[1..])
            && (forall i, j :: 1 <= i < j < |o| ==>
                  FirstIndex(FieldValues(all, field), o[i]) < FirstIndex(FieldValues(all, field), o[j]))
  {
    var o := Options(all, field);
    var vs := FieldValues(all, field);
    assert o[1..] == Distinct(vs);
    DistinctInFirstOccurrenceOrder(vs);
    forall i | 1 <= i < |o| ensures exists m :: m in all && field(m) == o[i] {
      assert o[i] in Distinct(vs) by { assert o[i] == o[1..][i - 1]; }
      var k :| 0 <= k < |vs| && vs[k] == o[i];
      assert all[k] in all;
    }
    forall m | m in all ensures field(m) in o[1..] {
      var k :| 0 <= k < |all| && all[k] == m;
      assert vs[k] == field(m);
    }
  }

  /** The specialty options: "all" first, then each model's specialty exactly
      once, in first-occurrence order, and nothing else. */
  lemma SpecialtyOptionsProperties(all: seq<Model>)
    ensures var o := SpecialtyOptions(all);
            && |o| >= 1 && o[0] == AllOption
            && (forall i, j :: 1 <= i < j < |o| ==> o[i] != o[j])
            && (forall i :: 1 <= i < |o| ==> exists m :: m in all && m.specialty == o[i])
            && (forall m :: m in all ==> m.specialty in o[1..])
            && (forall i, j :: 1 <= i < j < |o| ==>
                  FirstIndex(FieldValues(all, SpecialtyOf), o[i]) < FirstIndex(FieldValues(all, SpecialtyOf), o[j]))
  {
    OptionsProperties(all, SpecialtyOf);
  }

  /** The same for the location options. */
  lemma LocationOptionsProperties(all: seq<Model>)
    ensures var o := LocationOptions(all);
            && |o| >= 1 && o[0] == AllOption
            && (forall i, j :: 1 <= i < j < |o| ==> o[i] != o[j])
            && (forall i :: 1 <= i < |o| ==> exists m :: m in all && m.location == o[i])
            && (forall m :: m in all ==> m.location in o[1..])
            && (forall i, j :: 1 <= i < j < |o| ==>
                  FirstIndex(FieldValues(all, LocationOf), o[i]) < FirstIndex(FieldValues(all, LocationOf), o[j]))
  {
    OptionsProperties(all, LocationOf);
  }
}
