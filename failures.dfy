/** The failure summary of `processFailedUnits`, as values: which tabs show
    an error mark, and the page status listing the failed units. */
module Failures {
  import opened Opt
  import opened UnitNames
  import opened Units
  import opened Notifications

  /** A record counts as failed: its unit is in the "failed" active state
      and its unit file was found. */
  predicate IsFailedRecord(u: Unit)
  {
    StrProp(u.props, "ActiveState") == Some("failed") && StrProp(u.props, "LoadState") != Some("not-found")
  }

  /** A failed record of a kind the page has a tab for. */
  predicate Reported(u: Unit)
  {
    IsFailedRecord(u) && SuffixOf(IdOf(u)) in Suffixes
  }

  /** The scan of the records at `paths`, in that order: the names of the
      reported records, each once in order of first appearance, and the kinds
      that get an error mark. */
  function Scan(st: Store, paths: seq<string>): (seq<string>, set<string>)
    decreases |paths|
  {
    if paths == [] then ([], {})
    else
      var prev := Scan(st, paths[..|paths| - 1]);
      var p := paths[|paths| - 1];
      if p in st.unitByPath && Reported(st.unitByPath[p]) then
        var u := st.unitByPath[p];
        (if IdOf(u) in prev.0 then prev.0 else prev.0 + [IdOf(u)], prev.1 + {SuffixOf(IdOf(u))})
      else prev
  }

  /** The reported names, in the store's iteration order. */
  function FailedIds(st: Store): seq<string>
  {
    Scan(st, st.order).0
  }

  /** The kinds whose tab shows an error mark. */
  function TabErrors(st: Store): set<string>
  {
    Scan(st, st.order).1
  }

  /** The decimal digits of `n`. */
  function NatToString(n: nat): (r: string)
    ensures |r| >= 1
    decreases n
  {
    var digit := ['0', '1', '2', '3', '4', '5', '6', '7', '8', '9'][n % 10];
    if n < 10 then [digit] else NatToString(n / 10) + [digit]
  }

  /** The status title, with the untranslated English singular and plural. */
  function FailedTitle(n: nat): string
  {
    if n == 1 then NatToString(n) + " service has failed" else NatToString(n) + " services have failed"
  }

  /** The page status `processFailedUnits` sets: none when nothing failed. */
  function FailureStatus(st: Store): Option<Status>
  {
    var failed := FailedIds(st);
    if |failed| > 0 then Some(Status("error", FailedTitle(|failed|), failed)) else None
  }

  // ---- properties ----------------------------------------------------------

  /** The record at position `i` of `paths` is reported. */
  predicate ReportedAt(st: Store, paths: seq<string>, i: int)
  {
    0 <= i < |paths| && paths[i] in st.unitByPath && Reported(st.unitByPath[paths[i]])
  }

  function IdAt(st: Store, paths: seq<string>, i: int): string
    requires ReportedAt(st, paths, i)
  {
    IdOf(st.unitByPath[paths[i]])
  }

  lemma ReportedAtPrefix(st: Store, paths: seq<string>, i: int)
    requires paths != [] && 0 <= i < |paths| - 1
    ensures ReportedAt(st, paths, i) <==> ReportedAt(st, paths[..|paths| - 1], i)
    ensures ReportedAt(st, paths, i) ==> IdAt(st, paths, i) == IdAt(st, paths[..|paths| - 1], i)
  {
    assert paths[..|paths| - 1][i] == paths[i];
  }

  /** The scan lists each reported name once. */
  lemma {:induction false} ScanDistinct(st: Store, paths: seq<string>)
    ensures Distinct(Scan(st, paths).0)
    decreases |paths|
  {
    if paths != [] {
      ScanDistinct(st, paths[..|paths| - 1]);
    }
  }

  /** One step of the scan: the last path adds its name and kind when reported. */
  lemma ScanStep(st: Store, paths: seq<string>)
    requires paths != []
    ensures var prev := Scan(st, paths[..|paths| - 1]);
      var last := |paths| - 1;
      && (forall id :: id in Scan(st, paths).0 <==>
            id in prev.0 || (ReportedAt(st, paths, last) && IdAt(st, paths, last) == id))
      && (forall s :: s in Scan(st, paths).1 <==>
            s in prev.1 || (ReportedAt(st, paths, last) && SuffixOf(IdAt(st, paths, last)) == s))
  {
  }

  /** The scan lists exactly the names of the reported records among `paths`. */
  lemma {:induction false} ScanIds(st: Store, paths: seq<string>, id: string)
    ensures id in Scan(st, paths).0 <==> exists i :: ReportedAt(st, paths, i) && IdAt(st, paths, i) == id
    decreases |paths|
  {
    if paths != [] {
      var init := paths[..|paths| - 1];
      var last := |paths| - 1;
      ScanIds(st, init, id);
      ScanStep(st, paths);
      if exists i :: ReportedAt(st, paths, i) && IdAt(st, paths, i) == id {
        var i :| ReportedAt(st, paths, i) && IdAt(st, paths, i) == id;
        if i < last {
          ReportedAtPrefix(st, paths, i);
          assert id in Scan(st, init).0;
        }
      }
      if id in Scan(st, init).0 {
        var i :| ReportedAt(st, init, i) && IdAt(st, init, i) == id;
        ReportedAtPrefix(st, paths, i);
      }
    }
  }

  /** The scan marks exactly the kinds of the reported records among `paths`. */
  lemma {:induction false} ScanMarks(st: Store, paths: seq<string>, s: string)
    ensures s in Scan(st, paths).1 <==> exists i :: ReportedAt(st, paths, i) && SuffixOf(IdAt(st, paths, i)) == s
    decreases |paths|
  {
    if paths != [] {
      var init := paths[..|paths| - 1];
      var last := |paths| - 1;
      ScanMarks(st, init, s);
      ScanStep(st, paths);
      if exists i :: ReportedAt(st, paths, i) && SuffixOf(IdAt(st, paths, i)) == s {
        var i :| ReportedAt(st, paths, i) && SuffixOf(IdAt(st, paths, i)) == s;
        if i < last {
          ReportedAtPrefix(st, paths, i);
          assert s in Scan(st, init).1;
        }
      }
      if s in Scan(st, init).1 {
        var i :| ReportedAt(st, init, i) && SuffixOf(IdAt(st, init, i)) == s;
        ReportedAtPrefix(st, paths, i);
      }
    }
  }

  /** Under a consistent store, a record is reported at some position of
      `order` exactly when it is a stored reported record. */
  lemma ReportedInOrder(st: Store, p: string)
    requires Valid(st) && p in st.unitByPath && Reported(st.unitByPath[p])
    ensures exists i :: ReportedAt(st, st.order, i) && st.order[i] == p
  {
    assert p in st.order;
    var i :| 0 <= i < |st.order| && st.order[i] == p;
    assert ReportedAt(st, st.order, i);
  }

  /** The error marks: a kind is marked exactly when it is a handled kind
      and some stored record of that kind failed. */
  lemma TabErrorsIff(st: Store, s: string)
    requires Valid(st)
    ensures s in TabErrors(st) <==>
      s in Suffixes && exists p :: p in st.unitByPath && IsFailedRecord(st.unitByPath[p]) && SuffixOf(IdOf(st.unitByPath[p])) == s
  {
    ScanMarks(st, st.order, s);
    if exists p :: p in st.unitByPath && IsFailedRecord(st.unitByPath[p]) && SuffixOf(IdOf(st.unitByPath[p])) == s {
      var p :| p in st.unitByPath && IsFailedRecord(st.unitByPath[p]) && SuffixOf(IdOf(st.unitByPath[p])) == s;
      if s in Suffixes {
        ReportedInOrder(st, p);
      }
    }
    if s in TabErrors(st) {
      var i :| ReportedAt(st, st.order, i) && SuffixOf(IdAt(st, st.order, i)) == s;
    }
  }

  /** The failure list names each reported unit once, and exactly those. */
  lemma FailedIdsIff(st: Store, id: string)
    requires Valid(st)
    ensures Distinct(FailedIds(st))
    ensures id in FailedIds(st) <==>
      exists p :: p in st.unitByPath && Reported(st.unitByPath[p]) && IdOf(st.unitByPath[p]) == id
  {
    ScanDistinct(st, st.order);
    ScanIds(st, st.order, id);
    if exists p :: p in st.unitByPath && Reported(st.unitByPath[p]) && IdOf(st.unitByPath[p]) == id {
      var p :| p in st.unitByPath && Reported(st.unitByPath[p]) && IdOf(st.unitByPath[p]) == id;
      ReportedInOrder(st, p);
    }
    if id in FailedIds(st) {
      var i :| ReportedAt(st, st.order, i) && IdAt(st, st.order, i) == id;
    }
  }

  /** The page status is cleared exactly when no record is reported, and
      otherwise is an error titled with their count and listing their names. */
  lemma FailureStatusIff(st: Store)
    requires Valid(st)
    ensures FailureStatus(st).None? <==> forall p :: p in st.unitByPath ==> !Reported(st.unitByPath[p])
    ensures FailureStatus(st).Some? ==>
      && FailureStatus(st).value.kind == "error"
      && FailureStatus(st).value.title == FailedTitle(|FailedIds(st)|)
      && FailureStatus(st).value.details == FailedIds(st)
  {
    if exists p :: p in st.unitByPath && Reported(st.unitByPath[p]) {
      var p :| p in st.unitByPath && Reported(st.unitByPath[p]);
      FailedIdsIff(st, IdOf(st.unitByPath[p]));
    } else if FailedIds(st) != [] {
      FailedIdsIff(st, FailedIds(st)[0]);
    }
  }

  /** Every mark belongs to a handled kind and comes with a listed name. */
  lemma MarksMatchList(st: Store, s: string)
    requires Valid(st) && s in TabErrors(st)
    ensures s in Suffixes
    ensures exists id :: id in FailedIds(st) && SuffixOf(id) == s
  {
    ScanMarks(st, st.order, s);
    var i :| ReportedAt(st, st.order, i) && SuffixOf(IdAt(st, st.order, i)) == s;
    ScanIds(st, st.order, IdAt(st, st.order, i));
  }

  /** The title's two forms. */
  lemma TitleForms()
    ensures NatToString(1) == "1" && FailedTitle(1) == NatToString(1) + " service has failed"
    ensures NatToString(12) == "12" && FailedTitle(12) == NatToString(12) + " services have failed"
  {
    assert NatToString(12) == NatToString(1) + ['2'];
  }
}
