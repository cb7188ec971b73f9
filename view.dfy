/** The list of units the page shows: the records selected by the active
    tab, the text filter and the startup-type filter, failed units first and
    then by name (`render` and `compareUnits`), as values.

    Names are compared with `Order.Leq`, character code by character code. */
module View {
  import opened Opt
  import opened Order
  import opened UnitNames
  import opened Units

  /** The active tab, the text typed into the filter box and the selected
      startup type ("all", "enabled", "disabled", "static", or empty for all). */
  datatype Filter = Filter(tab: string, text: string, typeFilter: string)

  /** A shown row: the unit name and its record. */
  type Entry = (string, Unit)

  /** The record a unit name leads to, if any: the name must map to a
      non-empty path that has a record. */
  function Lookup(st: Store, id: string): Option<Unit>
  {
    if id in st.pathById && st.pathById[id] != "" && st.pathById[id] in st.unitByPath
    then Some(st.unitByPath[st.pathById[id]]) else None
  }

  /** The text filter: empty, or found case-insensitively in the record's
      description or in the unit name. */
  predicate TextMatches(id: string, u: Unit, text: string)
  {
    var desc := StrProp(u.props, "Description");
    || text == ""
    || (desc.Some? && desc.value != "" && ContainsIgnoringCase(desc.value, text))
    || ContainsIgnoringCase(id, text)
  }

  /** The startup-type filter: "all" (also when empty) or the record's
      `AutomaticStartupKey`. */
  predicate TypeMatches(u: Unit, typeFilter: string)
  {
    var selected := if typeFilter == "" then "all" else typeFilter;
    selected == "all" || u.startupKey == Some(selected)
  }

  /** The name is shown on the page under the filter. */
  predicate Shown(st: Store, id: string, f: Filter)
  {
    && Lookup(st, id).Some?
    && var u := Lookup(st, id).value;
    && MatchesTab(IdOf(u), f.tab)
    && StrProp(u.props, "LoadState") != Some("not-found")
    && TextMatches(id, u, f.text)
    && TypeMatches(u, f.typeFilter)
  }

  /** `compareUnits(a, b) <= 0`: failed units first, then by name. */
  predicate Before(a: Entry, b: Entry)
  {
    (a.1.hasFailed && !b.1.hasFailed) || (a.1.hasFailed == b.1.hasFailed && Leq(a.0, b.0))
  }

  predicate SortedEntries(s: seq<Entry>)
  {
    forall i, j :: 0 <= i < j < |s| ==> Before(s[i], s[j])
  }

  lemma BeforeTotal(a: Entry, b: Entry)
    ensures Before(a, b) || Before(b, a)
  {
    LeqTotal(a.0, b.0);
  }

  lemma BeforeTransitive(a: Entry, b: Entry, c: Entry)
    requires Before(a, b) && Before(b, c)
    ensures Before(a, c)
  {
    if a.1.hasFailed == b.1.hasFailed && b.1.hasFailed == c.1.hasFailed {
      LeqTransitive(a.0, b.0, c.0);
    }
  }

  lemma BeforeAntisymmetric(a: Entry, b: Entry)
    requires Before(a, b) && Before(b, a)
    ensures a.0 == b.0
  {
    LeqAntisymmetric(a.0, b.0);
  }

  // The row sort follows the string sort of module Order step for step, with
  // `Before` in place of `Leq`. It is kept separate on purpose: one sort over
  // a comparator passed as a function would need quantified preconditions
  // on that function, which cost the solver more than the two short copies.

  lemma PrependEntrySorted(x: Entry, s: seq<Entry>)
    requires SortedEntries(s) && s != [] && Before(x, s[0])
    ensures SortedEntries([x] + s)
  {
    forall i, j | 0 <= i < j < |[x] + s| ensures Before(([x] + s)[i], ([x] + s)[j]) {
      if i == 0 && j > 1 { BeforeTransitive(x, s[0], s[j - 1]); }
    }
  }

  lemma EntriesTail(s: seq<Entry>)
    requires SortedEntries(s) && s != []
    ensures SortedEntries(s[1..])
    ensures forall y | y in multiset(s[1..]) :: Before(s[0], y)
  {
    forall y | y in multiset(s[1..]) ensures Before(s[0], y) {
      var k :| 0 <= k < |s[1..]| && s[1..][k] == y;
      assert s[k + 1] == y;
    }
  }

  lemma ConsEntrySorted(s: seq<Entry>, x: Entry, t: seq<Entry>)
    requires SortedEntries(s) && s != [] && !Before(x, s[0])
    requires SortedEntries(t) && multiset(t) == multiset(s[1..]) + multiset{x}
    ensures SortedEntries([s[0]] + t)
  {
    BeforeTotal(x, s[0]);
    EntriesTail(s);
    forall i, j | 0 <= i < j < |[s[0]] + t| ensures Before(([s[0]] + t)[i], ([s[0]] + t)[j]) {
      if i == 0 { assert t[j - 1] in multiset(t); }
    }
  }

  function InsertEntry(x: Entry, s: seq<Entry>): (r: seq<Entry>)
    ensures multiset(r) == multiset(s) + multiset{x}
    ensures SortedEntries(s) ==> SortedEntries(r)
  {
    if s == [] then [x]
    else if Before(x, s[0]) then
      assert SortedEntries(s) ==> SortedEntries([x] + s) by {
        if SortedEntries(s) { PrependEntrySorted(x, s); }
      }
      [x] + s
    else
      var t := InsertEntry(x, s[1..]);
      assert s == [s[0]] + s[1..];
      assert SortedEntries(s) ==> SortedEntries([s[0]] + t) by {
        if SortedEntries(s) {
          EntriesTail(s);
          ConsEntrySorted(s, x, t);
        }
      }
      [s[0]] + t
  }

  /** The sort of the shown rows, as a value. */
  function SortEntries(s: seq<Entry>): (r: seq<Entry>)
    ensures SortedEntries(r)
    ensures multiset(r) == multiset(s)
  {
    if s == [] then []
    else
      assert s == [s[0]] + s[1..];
      InsertEntry(s[0], SortEntries(s[1..]))
  }

  /** The rows of the names in `ids` that are shown, in the order of `ids`. */
  function Filtered(st: Store, ids: seq<string>, f: Filter): seq<Entry>
    decreases |ids|
  {
    if ids == [] then []
    else
      (if Shown(st, ids[0], f) then [(ids[0], Lookup(st, ids[0]).value)] else [])
      + Filtered(st, ids[1..], f)
  }

  /** The shown list, from an enumeration `ids` of the names the page knows. */
  function VisibleUnits(st: Store, ids: seq<string>, f: Filter): seq<Entry>
  {
    SortEntries(Filtered(st, ids, f))
  }

  // ---- properties ----------------------------------------------------------

  /** Each row comes from its name's record. */
  predicate Keyed(st: Store, s: seq<Entry>)
  {
    forall i :: 0 <= i < |s| ==> Lookup(st, s[i].0).Some? && s[i].1 == Lookup(st, s[i].0).value
  }

  lemma {:induction false} FilteredIff(st: Store, ids: seq<string>, f: Filter, e: Entry)
    ensures e in Filtered(st, ids, f) <==> e.0 in ids && Shown(st, e.0, f) && e.1 == Lookup(st, e.0).value
    decreases |ids|
  {
    if ids != [] {
      FilteredIff(st, ids[1..], f, e);
      assert ids == [ids[0]] + ids[1..];
    }
  }

  lemma {:induction false} FilteredDistinct(st: Store, ids: seq<string>, f: Filter)
    requires Distinct(ids)
    ensures Distinct(Filtered(st, ids, f))
    decreases |ids|
  {
    if ids != [] {
      assert Distinct(ids[1..]);
      FilteredDistinct(st, ids[1..], f);
      var rest := Filtered(st, ids[1..], f);
      if Shown(st, ids[0], f) {
        var e := (ids[0], Lookup(st, ids[0]).value);
        FilteredIff(st, ids[1..], f, e);
        assert ids[0] !in ids[1..];
        assert e !in rest;
        var r := [e] + rest;
        forall i, j | 0 <= i < j < |r| ensures r[i] != r[j] {
          if i == 0 { assert r[j] == rest[j - 1]; }
        }
      }
    }
  }

  /** A sequence without repeats has each member exactly once. */
  lemma {:induction false} DistinctCount<T>(s: seq<T>, x: T)
    requires Distinct(s)
    ensures multiset(s)[x] == if x in s then 1 else 0
    decreases |s|
  {
    if s != [] {
      assert s == [s[0]] + s[1..];
      assert Distinct(s[1..]);
      DistinctCount(s[1..], x);
      assert multiset(s) == multiset{s[0]} + multiset(s[1..]);
    }
  }

  lemma DistinctSameMembers<T>(a: seq<T>, b: seq<T>)
    requires Distinct(a) && Distinct(b)
    requires forall x :: x in a <==> x in b
    ensures multiset(a) == multiset(b)
  {
    forall x ensures multiset(a)[x] == multiset(b)[x] {
      DistinctCount(a, x);
      DistinctCount(b, x);
    }
  }

  lemma HeadFirst(a: seq<Entry>, y: Entry)
    requires SortedEntries(a) && a != [] && y in multiset(a)
    ensures Before(a[0], y)
  {
    var i :| 0 <= i < |a| && a[i] == y;
    if i == 0 { LeqReflexive(y.0); }
  }

  lemma KeyedTail(st: Store, a: seq<Entry>)
    requires Keyed(st, a) && a != []
    ensures Keyed(st, a[1..])
  {
    forall i | 0 <= i < |a[1..]| ensures Lookup(st, a[1..][i].0).Some? && a[1..][i].1 == Lookup(st, a[1..][i].0).value {
      assert a[1..][i] == a[i + 1];
    }
  }

  /** Rows of a keyed list with the same name are the same row. */
  lemma KeyedSameName(st: Store, a: seq<Entry>, x: Entry, y: Entry)
    requires Keyed(st, a) && x in a && y in a && x.0 == y.0
    ensures x == y
  {
    var i :| 0 <= i < |a| && a[i] == x;
    var j :| 0 <= j < |a| && a[j] == y;
  }

  lemma SameHead(st: Store, a: seq<Entry>, b: seq<Entry>)
    requires SortedEntries(a) && SortedEntries(b) && multiset(a) == multiset(b)
    requires Keyed(st, a) && a != []
    ensures b != [] && a[0] == b[0]
  {
    assert |b| == |a| by { assert |multiset(b)| == |multiset(a)|; }
    assert a[0] in multiset(a) && b[0] in multiset(b);
    HeadFirst(b, a[0]);
    HeadFirst(a, b[0]);
    BeforeAntisymmetric(a[0], b[0]);
    assert b[0] in multiset(a);
    KeyedSameName(st, a, a[0], b[0]);
  }

  lemma EntryMultisetTail(a: seq<Entry>, b: seq<Entry>)
    requires a != [] && b != [] && a[0] == b[0] && multiset(a) == multiset(b)
    ensures multiset(a[1..]) == multiset(b[1..])
  {
    assert a == [a[0]] + a[1..] && b == [b[0]] + b[1..];
    assert multiset(a[1..]) == multiset(a) - multiset([a[0]]);
    assert multiset(b[1..]) == multiset(b) - multiset([b[0]]);
  }

  /** Two sorted lists with the same rows, keyed by name, are the same list. */
  lemma {:induction false} SortedEntriesUnique(st: Store, a: seq<Entry>, b: seq<Entry>)
    requires SortedEntries(a) && SortedEntries(b) && multiset(a) == multiset(b)
    requires Keyed(st, a)
    ensures a == b
    decreases |a|
  {
    if a != [] {
      SameHead(st, a, b);
      EntryMultisetTail(a, b);
      EntriesTail(a);
      EntriesTail(b);
      KeyedTail(st, a);
      SortedEntriesUnique(st, a[1..], b[1..]);
    } else {
      assert |b| == 0 by { assert |multiset(b)| == |multiset(a)|; }
    }
  }

  /** The shown list holds exactly the shown names, each with its record. */
  lemma VisibleMembership(st: Store, ids: seq<string>, f: Filter, e: Entry)
    ensures e in VisibleUnits(st, ids, f) <==> e.0 in ids && Shown(st, e.0, f) && e.1 == Lookup(st, e.0).value
  {
    FilteredIff(st, ids, f, e);
    assert e in VisibleUnits(st, ids, f) <==> e in multiset(Filtered(st, ids, f));
  }

  /** Failed units come first, and within each group names ascend. */
  lemma VisibleOrder(st: Store, ids: seq<string>, f: Filter, i: int, j: int)
    requires 0 <= i < j < |VisibleUnits(st, ids, f)|
    ensures var v := VisibleUnits(st, ids, f);
      v[i].1.hasFailed || !v[j].1.hasFailed
    ensures var v := VisibleUnits(st, ids, f);
      v[i].1.hasFailed == v[j].1.hasFailed ==> Leq(v[i].0, v[j].0)
  {
  }

  /** The shown list does not depend on the order in which the page's names
      are enumerated. */
  lemma VisibleOrderIndependent(st: Store, ids1: seq<string>, ids2: seq<string>, f: Filter)
    requires Distinct(ids1) && Distinct(ids2)
    requires forall id :: id in ids1 <==> id in ids2
    ensures VisibleUnits(st, ids1, f) == VisibleUnits(st, ids2, f)
  {
    var a, b := Filtered(st, ids1, f), Filtered(st, ids2, f);
    FilteredDistinct(st, ids1, f);
    FilteredDistinct(st, ids2, f);
    forall e ensures e in a <==> e in b {
      FilteredIff(st, ids1, f, e);
      FilteredIff(st, ids2, f, e);
    }
    DistinctSameMembers(a, b);
    var va, vb := VisibleUnits(st, ids1, f), VisibleUnits(st, ids2, f);
    forall i | 0 <= i < |va| ensures Lookup(st, va[i].0).Some? && va[i].1 == Lookup(st, va[i].0).value {
      assert va[i] in multiset(a);
      FilteredIff(st, ids1, f, va[i]);
    }
    SortedEntriesUnique(st, va, vb);
  }

  /** An element that occurs at most once sits at one position only. */
  lemma SingleOccurrence<T>(s: seq<T>, i: int, j: int)
    requires 0 <= i < j < |s| && multiset(s)[s[i]] <= 1
    ensures s[i] != s[j]
  {
    assert s == s[..j] + s[j..];
    assert multiset(s) == multiset(s[..j]) + multiset(s[j..]);
    assert s[i] in multiset(s[..j]);
    assert s[j] in multiset(s[j..]);
  }

  /** The page enumerates the keys of its name index: every shown name is
      listed with its record, and no name is listed twice. */
  lemma ShownFromNameIndex(st: Store, ids: seq<string>, f: Filter, e: Entry)
    requires Distinct(ids) && forall id :: id in ids <==> id in st.pathById
    ensures e in VisibleUnits(st, ids, f) <==> Shown(st, e.0, f) && e.1 == Lookup(st, e.0).value
    ensures var v := VisibleUnits(st, ids, f);
      forall i, j :: 0 <= i < j < |v| ==> v[i].0 != v[j].0
  {
    VisibleMembership(st, ids, f, e);
    var a, v := Filtered(st, ids, f), VisibleUnits(st, ids, f);
    FilteredDistinct(st, ids, f);
    forall i, j | 0 <= i < j < |v| ensures v[i].0 != v[j].0 {
      assert v[i] in multiset(a) && v[j] in multiset(a);
      FilteredIff(st, ids, f, v[i]);
      FilteredIff(st, ids, f, v[j]);
      DistinctCount(a, v[i]);
      SingleOccurrence(v, i, j);
    }
  }

  /** A record whose load state is "not-found" is never shown. */
  lemma NotFoundHidden(st: Store, id: string, f: Filter)
    requires Lookup(st, id).Some? && StrProp(Lookup(st, id).value.props, "LoadState") == Some("not-found")
    ensures !Shown(st, id, f)
  {
  }

  /** The tab test follows the name's text, not its kind: a unit named
      "a.myservice" is shown on the "service" tab. */
  lemma UnhandledKindOnServiceTab(st: Store, id: string, f: Filter)
    requires Lookup(st, id).Some? && IdOf(Lookup(st, id).value) == "a.myservice"
    requires StrProp(Lookup(st, id).value.props, "LoadState") != Some("not-found")
    requires f == Filter("service", "", "all")
    ensures Shown(st, id, f)
  {
    TabRegexQuirk();
  }
}
