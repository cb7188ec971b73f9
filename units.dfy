/** The unit records of the services page and the merge of a property delta
    into them (`updateProperties` and `updateComputedProperties`), as values.

    A record is keyed by its bus object path; `pathById` maps unit names to
    paths; `order` lists the record paths in the order they were first stored,
    which is the iteration order of the page's `unit_by_path` object. */
module Units {
  import opened Opt
  import opened Order
  import opened UnitNames

  /** A property value as it arrives from the bus. */
  datatype Value = Str(s: string) | Strs(items: seq<string>) | Flag(b: bool) | Num(n: int)

  type Props = map<string, Value>

  datatype RunState = Running | FailedToStart | NotRunning

  /** The " (<load state>)" note of the combined state, shown when the load
      state is neither "loaded" nor "masked". */
  datatype LoadNote = NoNote | Note(loadState: Option<string>)

  datatype CombinedState = CombinedState(run: RunState, note: LoadNote)

  /** The `AutomaticStartup` text: none, one of three translated words, or
      the raw unit file state. */
  datatype Startup = NoStartup | EnabledStartup | DisabledStartup | StaticStartup | RawStartup(text: string)

  /** A time shown by the timer enrichment: "unknown" or a calendar rendering
      of a wall-clock time in microseconds. */
  datatype Display = Unknown | Calendar(usec: int)

  /** One entry of a socket's `Listen` property: its type and address. */
  datatype Endpoint = Endpoint(kind: string, address: string)

  datatype Unit = Unit(
    props: Props,              // the properties merged from the bus
    path: string,
    hasFailed: bool,
    combined: CombinedState,
    startup: Startup,
    startupKey: Option<string>,
    isSocket: bool,
    isTimer: bool,
    listen: Option<seq<Endpoint>>,
    lastTrigger: Option<Display>,
    nextRun: Option<Display>)

  datatype Store = Store(unitByPath: map<string, Unit>, order: seq<string>, pathById: map<string, string>)

  /** What `updateProperties` leaves for later: a socket or timer record whose
      extra properties are fetched once the bus proxy is ready. */
  datatype Enrichment = NoEnrichment | SocketFetch(unit: Unit) | TimerFetch(unit: Unit)

  datatype Applied = Applied(store: Store, committed: bool, scheduled: Enrichment)

  /** The property merge: the new record's properties, the stored record's
      properties after their arrays were sorted in place, and whether any
      field changed. */
  datatype Merged = Merged(props: Props, inPlace: Props, changed: bool)

  const EmptyStore := Store(map[], [], map[])

  /** The record `updateProperties` starts from for a path it has not seen. */
  function EmptyUnit(path: string): Unit
  {
    Unit(map[], path, false, CombinedState(NotRunning, NoNote), NoStartup, None, false, false, None, None, None)
  }

  predicate Distinct<T(==)>(s: seq<T>)
  {
    forall i, j :: 0 <= i < j < |s| ==> s[i] != s[j]
  }

  /** The store's consistency: every name points at a stored record, every
      record sits under its own path, and `order` lists each path once. */
  ghost predicate Valid(st: Store)
  {
    && (forall id :: id in st.pathById ==> st.pathById[id] in st.unitByPath)
    && (forall p :: p in st.unitByPath ==> st.unitByPath[p].path == p)
    && Distinct(st.order)
    && (forall p :: p in st.unitByPath <==> p in st.order)
  }

  function Get(m: Props, k: string): Option<Value>
  {
    if k in m then Some(m[k]) else None
  }

  /** A string-valued property, or None when absent or of another type. */
  function StrProp(m: Props, k: string): Option<string>
  {
    if k in m && m[k].Str? then Some(m[k].s) else None
  }

  function IdOf(u: Unit): string
  {
    StrProp(u.props, "Id").GetOr("")
  }

  // ---- derived fields (updateComputedProperties) ------------------------

  /** The load state counts against the unit unless it is "loaded", "masked"
      or empty (the code turns "loaded" into "" and then tests for "" and
      "masked"); an absent load state counts against it. */
  predicate AbnormalLoad(load: Option<string>)
  {
    load.None? || (load.value != "loaded" && load.value != "" && load.value != "masked")
  }

  function StartupOf(fileState: Option<string>, key: Option<string>): (Startup, Option<string>)
  {
    if fileState.None? || fileState.value == "" then (NoStartup, key)
    else if StartsWith(fileState.value, "enabled") then (EnabledStartup, Some("enabled"))
    else if StartsWith(fileState.value, "disabled") then (DisabledStartup, Some("disabled"))
    else if StartsWith(fileState.value, "static") then (StaticStartup, Some("static"))
    else (RawStartup(fileState.value), key)
  }

  /** The record with `HasFailed`, `CombinedState`, `AutomaticStartup` and
      `AutomaticStartupKey` recomputed from its properties. */
  function WithDerived(u: Unit): Unit
  {
    var load := StrProp(u.props, "LoadState");
    var active := StrProp(u.props, "ActiveState");
    var run := if active == Some("active") || active == Some("activating") then Running
               else if active == Some("failed") then FailedToStart
               else NotRunning;
    var startup := StartupOf(StrProp(u.props, "UnitFileState"), u.startupKey);
    u.(hasFailed := active == Some("failed") || AbnormalLoad(load),
       combined := CombinedState(run, if AbnormalLoad(load) then Note(load) else NoNote),
       startup := startup.0,
       startupKey := startup.1)
  }

  /** The derived fields agree with the properties they are computed from. */
  predicate DerivedFresh(u: Unit)
  {
    WithDerived(u) == u
  }

  // ---- the property merge -----------------------------------------------

  const LeadingProps: seq<string> :=
    ["Id", "Description", "Names", "LoadState", "LoadError", "ActiveState", "SubState"]

  // The properties after "UnitFileState", in four groups of six.
  const Trailing1: seq<string> := ["FragmentPath", "Requires", "Requisite", "Wants", "BindsTo", "PartOf"]
  const Trailing2: seq<string> := ["RequiredBy", "RequisiteOf", "WantedBy", "BoundBy", "ConsistsOf", "Conflicts"]
  const Trailing3: seq<string> := ["ConflictedBy", "Before", "After", "OnFailure", "Triggers", "TriggeredBy"]
  const Trailing4: seq<string> :=
    ["PropagatesReloadTo", "PropagatesReloadFrom", "JoinsNamespaceOf", "Conditions", "CanReload", "ActiveEnterTimestamp"]

  /** The properties `updateProperties` copies, in the order it visits them;
      "UnitFileState" only when the caller allows file-state updates. */
  function Tracked(updateFileState: bool): seq<string>
  {
    LeadingProps + (if updateFileState then ["UnitFileState"] else [])
    + Trailing1 + Trailing2 + Trailing3 + Trailing4
  }

  /** One visit of `prop(k)`: an array field is compared after sorting both
      arrays in place, any other field by equality; a changed field takes the
      delivered value. */
  function MergeStep(prev: Merged, delta: Props, k: string): Merged
  {
    if k !in delta then prev
    else
      var v := delta[k];
      if v.Strs? && k in prev.props && prev.props[k].Strs? then
        var sn := SortStrings(v.items);
        var so := SortStrings(prev.props[k].items);
        Merged(prev.props[k := Strs(sn)], prev.inPlace[k := Strs(so)], prev.changed || sn != so)
      else if !v.Strs? && k in prev.props && prev.props[k] == v then prev
      else Merged(prev.props[k := v], prev.inPlace, true)
  }

  function Merge(stored: Props, delta: Props, names: seq<string>): Merged
    decreases |names|
  {
    if names == [] then Merged(stored, stored, false)
    else MergeStep(Merge(stored, delta, names[..|names| - 1]), delta, names[|names| - 1])
  }

  /** The value a delivered field leaves in the new record. */
  function FieldValue(cur: Option<Value>, v: Value): Value
  {
    if v.Strs? && cur.Some? && cur.value.Strs? then Strs(SortStrings(v.items)) else v
  }

  /** The stored field after the comparison sorted it in place. */
  function FieldInPlace(cur: Option<Value>, v: Value): Option<Value>
  {
    if v.Strs? && cur.Some? && cur.value.Strs? then Some(Strs(SortStrings(cur.value.items))) else cur
  }

  /** A delivered field is a change: arrays differ as multisets, any other
      value differs from the stored one. */
  predicate FieldChanged(cur: Option<Value>, v: Value)
  {
    if v.Strs? && cur.Some? && cur.value.Strs? then multiset(v.items) != multiset(cur.value.items)
    else cur != Some(v)
  }

  // ---- updateProperties ---------------------------------------------------

  /** The name a delta binds to its path: a non-empty string `Id`. */
  function IdText(delta: Props): Option<string>
  {
    if "Id" in delta && delta["Id"].Str? && delta["Id"].s != "" then Some(delta["Id"].s) else None
  }

  /** `updateProperties` goes past its first guard: the path has a record or
      the delta carries an `Id`. */
  predicate Proceeds(st: Store, delta: Props, path: string)
  {
    path in st.unitByPath || "Id" in delta
  }

  function Base(st: Store, path: string): Unit
  {
    if path in st.unitByPath then st.unitByPath[path] else EmptyUnit(path)
  }

  /** The merged record before the commit decision: properties merged, path
      set, derived fields recomputed, socket and timer tags added. */
  function NewRecord(base: Unit, m: Merged, path: string): Unit
  {
    var computed := WithDerived(base.(props := m.props, path := path));
    var id := IdOf(computed);
    computed.(isSocket := computed.isSocket || EndsWith(id, "socket"),
              isTimer := computed.isTimer || EndsWith(id, "timer"))
  }

  /** The enrichment `updateProperties` schedules for an active socket or
      timer, whether or not anything changed. */
  function Schedule(u: Unit): Enrichment
  {
    var active := StrProp(u.props, "ActiveState") == Some("active");
    if EndsWith(IdOf(u), "socket") && active then SocketFetch(u)
    else if EndsWith(IdOf(u), "timer") && active then TimerFetch(u)
    else NoEnrichment
  }

  /** `updateProperties(delta, path, updateFileState)` on a store. */
  function ApplyDelta(st: Store, delta: Props, path: string, updateFileState: bool): Applied
  {
    if !Proceeds(st, delta, path) then Applied(st, false, NoEnrichment)
    else
      var pathById := if IdText(delta).Some? then st.pathById[IdText(delta).value := path] else st.pathById;
      var base := Base(st, path);
      var m := Merge(base.props, delta, Tracked(updateFileState));
      var unitNew := NewRecord(base, m, path);
      var unitByPath :=
        if m.changed then st.unitByPath[path := unitNew]
        else if path in st.unitByPath then st.unitByPath[path := base.(props := m.inPlace)]
        else st.unitByPath;
      var order := if m.changed && path !in st.unitByPath then st.order + [path] else st.order;
      Applied(Store(unitByPath, order, pathById), m.changed, Schedule(unitNew))
  }

  // ---- properties of the merge ------------------------------------------

  predicate Disjoint(a: seq<string>, b: seq<string>)
  {
    forall i :: 0 <= i < |a| ==> a[i] !in b
  }

  lemma DistinctConcat(a: seq<string>, b: seq<string>)
    requires Distinct(a) && Distinct(b) && Disjoint(a, b)
    ensures Distinct(a + b)
  {
    forall i, j | 0 <= i < j < |a + b| ensures (a + b)[i] != (a + b)[j] {
      if i < |a| <= j { assert (a + b)[j] == b[j - |a|]; }
    }
  }

  lemma DisjointConcat(a: seq<string>, b: seq<string>, c: seq<string>)
    requires Disjoint(a, c) && Disjoint(b, c)
    ensures Disjoint(a + b, c)
  {
    forall i | 0 <= i < |a + b| ensures (a + b)[i] !in c {
      if i >= |a| { assert (a + b)[i] == b[i - |a|]; }
    }
  }

  // Helpers for `TrackedFacts`: facts about the constant name groups, one
  // small lemma per pair of groups so that each proof stays cheap.

  lemma GroupsDistinct()
    ensures Distinct(LeadingProps) && Distinct(Trailing1) && Distinct(Trailing2)
    ensures Distinct(Trailing3) && Distinct(Trailing4)
  {
  }

  lemma LeadingDisjoint1()
    ensures Disjoint(LeadingProps, Trailing1)
  {
  }

  lemma LeadingDisjoint2()
    ensures Disjoint(LeadingProps, Trailing2)
  {
  }

  lemma LeadingDisjoint3()
    ensures Disjoint(LeadingProps, Trailing3)
  {
  }

  lemma LeadingDisjoint4()
    ensures Disjoint(LeadingProps, Trailing4)
  {
  }

  lemma GroupsDisjoint1()
    ensures Disjoint(LeadingProps, Trailing1) && Disjoint(LeadingProps, Trailing2)
    ensures Disjoint(LeadingProps, Trailing3) && Disjoint(LeadingProps, Trailing4)
  {
    LeadingDisjoint1();
    LeadingDisjoint2();
    LeadingDisjoint3();
    LeadingDisjoint4();
  }

  lemma TrailingDisjoint1()
    ensures Disjoint(Trailing1, Trailing2) && Disjoint(Trailing1, Trailing3) && Disjoint(Trailing1, Trailing4)
  {
  }

  lemma TrailingDisjoint2()
    ensures Disjoint(Trailing2, Trailing3) && Disjoint(Trailing2, Trailing4) && Disjoint(Trailing3, Trailing4)
  {
  }

  lemma GroupsDisjoint2()
    ensures Disjoint(Trailing1, Trailing2) && Disjoint(Trailing1, Trailing3) && Disjoint(Trailing1, Trailing4)
    ensures Disjoint(Trailing2, Trailing3) && Disjoint(Trailing2, Trailing4) && Disjoint(Trailing3, Trailing4)
  {
    TrailingDisjoint1();
    TrailingDisjoint2();
  }

  lemma FileStateDisjoint()
    ensures Disjoint(LeadingProps, ["UnitFileState"]) && Disjoint(["UnitFileState"], Trailing1)
    ensures Disjoint(["UnitFileState"], Trailing2) && Disjoint(["UnitFileState"], Trailing3)
    ensures Disjoint(["UnitFileState"], Trailing4)
  {
  }

  lemma TrackedFacts(updateFileState: bool)
    ensures Distinct(Tracked(updateFileState))
    ensures "Id" in Tracked(updateFileState)
    ensures "UnitFileState" in Tracked(updateFileState) <==> updateFileState
  {
    var u: seq<string> := if updateFileState then ["UnitFileState"] else [];
    GroupsDistinct();
    GroupsDisjoint1();
    GroupsDisjoint2();
    FileStateDisjoint();
    DistinctConcat(LeadingProps, u);
    DisjointConcat(LeadingProps, u, Trailing1);
    DistinctConcat(LeadingProps + u, Trailing1);
    DisjointConcat(LeadingProps, u, Trailing2);
    DisjointConcat(LeadingProps + u, Trailing1, Trailing2);
    DistinctConcat(LeadingProps + u + Trailing1, Trailing2);
    DisjointConcat(LeadingProps, u, Trailing3);
    DisjointConcat(LeadingProps + u, Trailing1, Trailing3);
    DisjointConcat(LeadingProps + u + Trailing1, Trailing2, Trailing3);
    DistinctConcat(LeadingProps + u + Trailing1 + Trailing2, Trailing3);
    DisjointConcat(LeadingProps, u, Trailing4);
    DisjointConcat(LeadingProps + u, Trailing1, Trailing4);
    DisjointConcat(LeadingProps + u + Trailing1, Trailing2, Trailing4);
    DisjointConcat(LeadingProps + u + Trailing1 + Trailing2, Trailing3, Trailing4);
    DistinctConcat(LeadingProps + u + Trailing1 + Trailing2 + Trailing3, Trailing4);
    var t := Tracked(updateFileState);
    assert t[0] == "Id";
    if updateFileState {
      assert t[|LeadingProps|] == "UnitFileState";
    } else {
      assert "UnitFileState" !in LeadingProps && "UnitFileState" !in Trailing1 && "UnitFileState" !in Trailing2;
      assert "UnitFileState" !in Trailing3 && "UnitFileState" !in Trailing4;
    }
  }

  lemma PropsEqual(a: Props, b: Props)
    requires forall k :: Get(a, k) == Get(b, k)
    ensures a == b
  {
    assert a.Keys == b.Keys by {
      forall k ensures k in a <==> k in b { assert Get(a, k).Some? <==> Get(b, k).Some?; }
    }
    forall k | k in a ensures a[k] == b[k] { assert Get(a, k) == Get(b, k); }
  }

  /** Field by field, the merge leaves every untracked or undelivered field as
      stored, and each delivered tracked field as `FieldValue` says; the stored
      record keeps its fields except for the arrays sorted in place. */
  lemma {:induction false} MergeAtProps(stored: Props, delta: Props, names: seq<string>, k: string)
    requires Distinct(names)
    ensures Get(Merge(stored, delta, names).props, k)
      == if k in names && k in delta then Some(FieldValue(Get(stored, k), delta[k])) else Get(stored, k)
    decreases |names|
  {
    if names != [] {
      var init, last := names[..|names| - 1], names[|names| - 1];
      assert names == init + [last];
      assert Distinct(init);
      assert last !in init;
      MergeAtProps(stored, delta, init, k);
      MergeAtProps(stored, delta, init, last);
    }
  }

  lemma {:induction false} MergeAtInPlace(stored: Props, delta: Props, names: seq<string>, k: string)
    requires Distinct(names)
    ensures Get(Merge(stored, delta, names).inPlace, k)
      == if k in names && k in delta then FieldInPlace(Get(stored, k), delta[k]) else Get(stored, k)
    decreases |names|
  {
    if names != [] {
      var init, last := names[..|names| - 1], names[|names| - 1];
      assert names == init + [last];
      assert Distinct(init);
      assert last !in init;
      MergeAtInPlace(stored, delta, init, k);
      MergeAtProps(stored, delta, init, last);
    }
  }

  /** Each field of the merge: a visited delivered field takes its new value
      (arrays sorted) and, in the stored record, its sorted old value; every
      other field keeps its stored value. */
  lemma MergeAt(stored: Props, delta: Props, names: seq<string>, k: string)
    requires Distinct(names)
    ensures Get(Merge(stored, delta, names).props, k)
      == if k in names && k in delta then Some(FieldValue(Get(stored, k), delta[k])) else Get(stored, k)
    ensures Get(Merge(stored, delta, names).inPlace, k)
      == if k in names && k in delta then FieldInPlace(Get(stored, k), delta[k]) else Get(stored, k)
  {
    MergeAtProps(stored, delta, names, k);
    MergeAtInPlace(stored, delta, names, k);
  }

  /** The merge reports a change exactly when some delivered tracked field
      changed, arrays being compared as multisets. */
  lemma {:induction false} MergeChanged(stored: Props, delta: Props, names: seq<string>)
    requires Distinct(names)
    ensures Merge(stored, delta, names).changed
      <==> exists k :: k in names && k in delta && FieldChanged(Get(stored, k), delta[k])
    decreases |names|
  {
    if names != [] {
      var init, last := names[..|names| - 1], names[|names| - 1];
      assert names == init + [last];
      assert Distinct(init);
      MergeChanged(stored, delta, init);
      MergeAt(stored, delta, init, last);
      var prev := Merge(stored, delta, init);
      if last in delta && delta[last].Strs? && last in prev.props && prev.props[last].Strs? {
        SortStringsEqualIff(delta[last].items, prev.props[last].items);
      }
      assert Merge(stored, delta, names).changed
        <==> prev.changed || (last in delta && FieldChanged(Get(stored, last), delta[last]));
    }
  }

  /** A field the merge does not visit can be dropped from the delta. */
  lemma {:induction false} MergeIgnores(stored: Props, delta: Props, names: seq<string>, k: string)
    requires k !in names
    ensures Merge(stored, delta, names) == Merge(stored, delta - {k}, names)
    decreases |names|
  {
    if names != [] {
      var init := names[..|names| - 1];
      assert names == init + [names[|names| - 1]];
      MergeIgnores(stored, delta, init, k);
    }
  }

  // ---- properties of updateProperties -------------------------------------

  /** Besides the record at `path` and the binding of the delta's name, the
      store is untouched; a path with no record and a delta with no `Id` leave
      it entirely unchanged; the store stays consistent. */
  /** Storing a record under its own path, binding at most one name to
      that path, keeps a store consistent. */
  lemma PutKeepsValid(st: Store, u: Unit, id: Option<string>)
    requires Valid(st)
    ensures Valid(Store(st.unitByPath[u.path := u],
                        if u.path in st.unitByPath then st.order else st.order + [u.path],
                        if id.Some? then st.pathById[id.value := u.path] else st.pathById))
  {
    if u.path !in st.unitByPath {
      var order := st.order + [u.path];
      assert u.path !in st.order;
      forall i, j | 0 <= i < j < |order| ensures order[i] != order[j] {
        if j == |st.order| { assert order[i] == st.order[i]; }
      }
    }
  }

  lemma ApplyFrame(st: Store, delta: Props, path: string, updateFileState: bool)
    requires Valid(st)
    ensures var r := ApplyDelta(st, delta, path, updateFileState);
      && Valid(r.store)
      && (!Proceeds(st, delta, path) ==> r.store == st && !r.committed)
      && r.store.unitByPath.Keys == st.unitByPath.Keys + (if Proceeds(st, delta, path) then {path} else {})
      && (forall p :: p in st.unitByPath && p != path ==> r.store.unitByPath[p] == st.unitByPath[p])
      && r.store.pathById
         == if Proceeds(st, delta, path) && IdText(delta).Some?
            then st.pathById[IdText(delta).value := path] else st.pathById
  {
    if Proceeds(st, delta, path) {
      ApplyLands(st, delta, path, updateFileState);
      var r := ApplyDelta(st, delta, path, updateFileState);
      PutKeepsValid(st, r.store.unitByPath[path], IdText(delta));
      assert r.store.unitByPath[path].path == path;
    }
  }

  /** Change detection: the record is committed exactly when some delivered
      tracked field differs from the stored one, arrays compared as multisets
      (so their order never counts) and everything else by equality. */
  lemma ApplyCommitsIffChanged(st: Store, delta: Props, path: string, updateFileState: bool)
    ensures ApplyDelta(st, delta, path, updateFileState).committed
      <==> Proceeds(st, delta, path)
           && exists k :: k in Tracked(updateFileState) && k in delta
                && FieldChanged(Get(Base(st, path).props, k), delta[k])
  {
    TrackedFacts(updateFileState);
    MergeChanged(Base(st, path).props, delta, Tracked(updateFileState));
  }

  /** An array delivered in another order than the stored one is no change:
      [a, b] after [b, a] commits nothing. */
  lemma ApplyReorderedArrayUnchanged(st: Store, path: string, k: string, stored: seq<string>, delivered: seq<string>)
    requires path in st.unitByPath && k in Tracked(false)
    requires Get(st.unitByPath[path].props, k) == Some(Strs(stored))
    requires multiset(delivered) == multiset(stored)
    ensures !ApplyDelta(st, map[k := Strs(delivered)], path, false).committed
  {
    var delta := map[k := Strs(delivered)];
    ApplyCommitsIffChanged(st, delta, path, false);
    assert forall j :: j in delta ==> j == k;
  }

  /** Without `updateFileState` a delivered "UnitFileState" has no effect at all. */
  lemma ApplyIgnoresFileState(st: Store, delta: Props, path: string)
    ensures ApplyDelta(st, delta, path, false) == ApplyDelta(st, delta - {"UnitFileState"}, path, false)
  {
    TrackedFacts(false);
    MergeIgnores(Base(st, path).props, delta, Tracked(false), "UnitFileState");
    assert ("Id" in delta) == ("Id" in delta - {"UnitFileState"});
    assert IdText(delta) == IdText(delta - {"UnitFileState"});
  }

  /** With `updateFileState` a differing "UnitFileState" is a change. */
  lemma ApplyTakesFileState(st: Store, path: string, fileState: string)
    requires path in st.unitByPath
    requires StrProp(st.unitByPath[path].props, "UnitFileState") != Some(fileState)
    ensures var r := ApplyDelta(st, map["UnitFileState" := Str(fileState)], path, true);
      r.committed && StrProp(r.store.unitByPath[path].props, "UnitFileState") == Some(fileState)
  {
    var delta := map["UnitFileState" := Str(fileState)];
    var base := Base(st, path);
    TrackedFacts(true);
    MergeChanged(base.props, delta, Tracked(true));
    assert FieldChanged(Get(base.props, "UnitFileState"), delta["UnitFileState"]);
    MergeAt(base.props, delta, Tracked(true), "UnitFileState");
  }

  predicate SameUpToOrder(a: Unit, b: Unit)
  {
    && a.(props := b.props) == b
    && a.props.Keys == b.props.Keys
    && forall k :: k in a.props ==>
         a.props[k] == b.props[k]
         || (a.props[k].Strs? && b.props[k].Strs? && multiset(a.props[k].items) == multiset(b.props[k].items))
  }

  lemma FieldValueStable(cur: Option<Value>, v: Value)
    ensures !FieldChanged(Some(FieldValue(cur, v)), v)
  {
  }

  lemma FieldInPlaceStable(cur: Option<Value>, v: Value)
    requires !FieldChanged(cur, v)
    ensures !FieldChanged(FieldInPlace(cur, v), v)
  {
  }

  lemma NewRecordProps(base: Unit, m: Merged, path: string)
    ensures NewRecord(base, m, path).props == m.props
  {
  }

  /** A delta that gets past the first guard always leaves a record at its
      path: a new path is only reached with an `Id`, which is a change. */
  lemma ApplyLands(st: Store, delta: Props, path: string, updateFileState: bool)
    requires Proceeds(st, delta, path)
    ensures path in ApplyDelta(st, delta, path, updateFileState).store.unitByPath
  {
    if path !in st.unitByPath {
      var base := Base(st, path);
      TrackedFacts(updateFileState);
      MergeChanged(base.props, delta, Tracked(updateFileState));
      assert FieldChanged(Get(base.props, "Id"), delta["Id"]);
    }
  }

  /** After `updateProperties` the record at `path` agrees with every
      delivered tracked field. */
  lemma ApplyAgrees(st: Store, delta: Props, path: string, updateFileState: bool)
    requires Proceeds(st, delta, path)
    ensures var r := ApplyDelta(st, delta, path, updateFileState);
      path in r.store.unitByPath
      && forall k :: k in Tracked(updateFileState) && k in delta ==>
           !FieldChanged(Get(r.store.unitByPath[path].props, k), delta[k])
  {
    var names := Tracked(updateFileState);
    TrackedFacts(updateFileState);
    ApplyLands(st, delta, path, updateFileState);
    var base := Base(st, path);
    var m1 := Merge(base.props, delta, names);
    var b1 := ApplyDelta(st, delta, path, updateFileState).store.unitByPath[path];
    assert b1.props == if m1.changed then m1.props else m1.inPlace;
    forall k | k in names && k in delta ensures !FieldChanged(Get(b1.props, k), delta[k]) {
      MergeAt(base.props, delta, names, k);
      if m1.changed {
        FieldValueStable(Get(base.props, k), delta[k]);
      } else {
        MergeChanged(base.props, delta, names);
        FieldInPlaceStable(Get(base.props, k), delta[k]);
      }
    }
  }

  /** Sorting a record's arrays in place keeps it the same up to array order. */
  lemma InPlaceSameUpToOrder(b: Unit, delta: Props, names: seq<string>)
    requires Distinct(names)
    ensures SameUpToOrder(b.(props := Merge(b.props, delta, names).inPlace), b)
  {
    var m := Merge(b.props, delta, names);
    forall k ensures (k in m.inPlace <==> k in b.props)
      && (k in b.props ==> (m.inPlace[k] == b.props[k]
           || (m.inPlace[k].Strs? && b.props[k].Strs?
               && multiset(m.inPlace[k].items) == multiset(b.props[k].items))))
    {
      MergeAt(b.props, delta, names, k);
    }
  }

  /** Applying the same delta a second time commits nothing and changes
      neither the name index nor the set of records; the record at `path` may
      only see its arrays sorted in place. */
  lemma ApplyTwice(st: Store, delta: Props, path: string, updateFileState: bool)
    ensures var r1 := ApplyDelta(st, delta, path, updateFileState);
      var r2 := ApplyDelta(r1.store, delta, path, updateFileState);
      && !r2.committed
      && r2.store.pathById == r1.store.pathById
      && r2.store.order == r1.store.order
      && r2.store.unitByPath.Keys == r1.store.unitByPath.Keys
      && (forall p :: p in r1.store.unitByPath && p != path ==> r2.store.unitByPath[p] == r1.store.unitByPath[p])
  {
    var r1 := ApplyDelta(st, delta, path, updateFileState);
    if Proceeds(st, delta, path) {
      ReapplyFindsNoChange(st, delta, path, updateFileState);
      ApplyBinds(st, delta, path, updateFileState);
      ApplyUncommitted(r1.store, delta, path, updateFileState);
    }
  }

  /** The second application only sorts the record's arrays in place. */
  lemma ApplyTwiceSorts(st: Store, delta: Props, path: string, updateFileState: bool)
    ensures var r1 := ApplyDelta(st, delta, path, updateFileState);
      var r2 := ApplyDelta(r1.store, delta, path, updateFileState);
      path in r1.store.unitByPath ==>
        path in r2.store.unitByPath && SameUpToOrder(r2.store.unitByPath[path], r1.store.unitByPath[path])
  {
    var r1 := ApplyDelta(st, delta, path, updateFileState);
    if path in r1.store.unitByPath {
      assert Proceeds(st, delta, path);
      ReapplyFindsNoChange(st, delta, path, updateFileState);
      ApplyUncommitted(r1.store, delta, path, updateFileState);
      TrackedFacts(updateFileState);
      InPlaceSameUpToOrder(r1.store.unitByPath[path], delta, Tracked(updateFileState));
    }
  }

  /** Merging the same delta into the record it produced finds no change. */
  lemma ReapplyFindsNoChange(st: Store, delta: Props, path: string, updateFileState: bool)
    requires Proceeds(st, delta, path)
    ensures var r1 := ApplyDelta(st, delta, path, updateFileState);
      path in r1.store.unitByPath && !Merge(r1.store.unitByPath[path].props, delta, Tracked(updateFileState)).changed
  {
    TrackedFacts(updateFileState);
    ApplyAgrees(st, delta, path, updateFileState);
    MergeChanged(ApplyDelta(st, delta, path, updateFileState).store.unitByPath[path].props, delta, Tracked(updateFileState));
  }

  /** The name in the delta ends up bound to the path. */
  lemma ApplyBinds(st: Store, delta: Props, path: string, updateFileState: bool)
    requires Proceeds(st, delta, path)
    ensures IdText(delta).Some? ==>
      ApplyDelta(st, delta, path, updateFileState).store.pathById == st.pathById[IdText(delta).value := path]
  {
  }

  /** An application that finds no change commits nothing, and only sorts
      the stored record's arrays in place. */
  lemma ApplyUncommitted(st: Store, delta: Props, path: string, updateFileState: bool)
    requires path in st.unitByPath
    requires !Merge(st.unitByPath[path].props, delta, Tracked(updateFileState)).changed
    ensures var r := ApplyDelta(st, delta, path, updateFileState);
      var m := Merge(st.unitByPath[path].props, delta, Tracked(updateFileState));
      && !r.committed
      && r.store.order == st.order
      && r.store.unitByPath == st.unitByPath[path := st.unitByPath[path].(props := m.inPlace)]
      && r.store.pathById == if IdText(delta).Some? then st.pathById[IdText(delta).value := path] else st.pathById
  {
  }

  /** An application that finds nothing to change and nothing to sort,
      with the name already bound to the path, leaves the store as it was. */
  lemma ApplyNoop(st: Store, delta: Props, path: string, updateFileState: bool)
    requires path in st.unitByPath
    requires var m := Merge(st.unitByPath[path].props, delta, Tracked(updateFileState));
      !m.changed && m.inPlace == st.unitByPath[path].props
    requires IdText(delta).Some? ==> IdText(delta).value in st.pathById && st.pathById[IdText(delta).value] == path
    ensures ApplyDelta(st, delta, path, updateFileState).store == st
  {
    var r := ApplyDelta(st, delta, path, updateFileState);
    assert r.store.unitByPath == st.unitByPath;
    assert r.store.pathById == st.pathById;
  }

  /** A third application of the same delta changes nothing at all: the
      arrays are already sorted. */
  lemma ApplyThrice(st: Store, delta: Props, path: string, updateFileState: bool)
    ensures var r2 := ApplyDelta(ApplyDelta(st, delta, path, updateFileState).store, delta, path, updateFileState);
      var r3 := ApplyDelta(r2.store, delta, path, updateFileState);
      !r3.committed && r3.store == r2.store
  {
    var names := Tracked(updateFileState);
    var r1 := ApplyDelta(st, delta, path, updateFileState);
    var r2 := ApplyDelta(r1.store, delta, path, updateFileState);
    ApplyTwice(r1.store, delta, path, updateFileState);
    if Proceeds(r2.store, delta, path) {
      assert Proceeds(st, delta, path);
      ApplyLands(st, delta, path, updateFileState);
      ApplyTwice(st, delta, path, updateFileState);
      ApplyTwiceSorts(st, delta, path, updateFileState);
      var b1 := r1.store.unitByPath[path];
      var m2 := Merge(b1.props, delta, names);
      var b2 := r2.store.unitByPath[path];
      assert b2 == b1.(props := m2.inPlace);
      var m3 := Merge(b2.props, delta, names);
      TrackedFacts(updateFileState);
      forall k ensures Get(m3.inPlace, k) == Get(b2.props, k) {
        MergeAt(b1.props, delta, names, k);
        MergeAt(b2.props, delta, names, k);
        if k in names && k in delta && delta[k].Strs? && k in b1.props && b1.props[k].Strs? {
          SortStringsIdempotent(b1.props[k].items);
        }
      }
      PropsEqual(m3.inPlace, b2.props);
      ApplyNoop(r2.store, delta, path, updateFileState);
    }
  }

  /** The three startup prefixes exclude one another. */
  lemma StartupPrefixesExclusive(s: string)
    ensures !(StartsWith(s, "enabled") && StartsWith(s, "disabled"))
    ensures !(StartsWith(s, "enabled") && StartsWith(s, "static"))
    ensures !(StartsWith(s, "disabled") && StartsWith(s, "static"))
  {
    if |s| > 0 {
      assert StartsWith(s, "enabled") ==> s[0] == 'e';
      assert StartsWith(s, "disabled") ==> s[0] == 'd';
      assert StartsWith(s, "static") ==> s[0] == 's';
    }
  }

  lemma WithDerivedIdempotent(u: Unit)
    ensures DerivedFresh(WithDerived(u))
  {
  }

  /** The derived fields read only the string values of three properties. */
  lemma WithDerivedReadsStrings(u: Unit, props: Props)
    requires DerivedFresh(u)
    requires StrProp(props, "LoadState") == StrProp(u.props, "LoadState")
    requires StrProp(props, "ActiveState") == StrProp(u.props, "ActiveState")
    requires StrProp(props, "UnitFileState") == StrProp(u.props, "UnitFileState")
    ensures DerivedFresh(u.(props := props))
  {
  }

  /** Derived fields never go stale: if every stored record agrees with its
      properties, so does every record after `updateProperties`. */
  lemma ApplyKeepsDerivedFresh(st: Store, delta: Props, path: string, updateFileState: bool)
    requires forall p :: p in st.unitByPath ==> DerivedFresh(st.unitByPath[p])
    ensures var r := ApplyDelta(st, delta, path, updateFileState);
      forall p :: p in r.store.unitByPath ==> DerivedFresh(r.store.unitByPath[p])
  {
    if Proceeds(st, delta, path) {
      var base := Base(st, path);
      var m := Merge(base.props, delta, Tracked(updateFileState));
      var r := ApplyDelta(st, delta, path, updateFileState);
      if m.changed {
        NewRecordFresh(base, m, path);
        assert r.store.unitByPath == st.unitByPath[path := NewRecord(base, m, path)];
      } else if path in st.unitByPath {
        InPlaceFresh(base, delta, updateFileState);
        assert r.store.unitByPath == st.unitByPath[path := base.(props := m.inPlace)];
      }
    }
  }

  lemma NewRecordFresh(base: Unit, m: Merged, path: string)
    ensures DerivedFresh(NewRecord(base, m, path))
  {
    WithDerivedIdempotent(base.(props := m.props, path := path));
  }

  /** Sorting the stored arrays in place leaves the derived fields fresh. */
  lemma InPlaceFresh(base: Unit, delta: Props, updateFileState: bool)
    requires DerivedFresh(base)
    ensures DerivedFresh(base.(props := Merge(base.props, delta, Tracked(updateFileState)).inPlace))
  {
    var names := Tracked(updateFileState);
    TrackedFacts(updateFileState);
    var m := Merge(base.props, delta, names);
    forall k ensures StrProp(m.inPlace, k) == StrProp(base.props, k) {
      MergeAt(base.props, delta, names, k);
    }
    WithDerivedReadsStrings(base, m.inPlace);
  }

  /** The derived-field rules, on the record `updateProperties` commits. */
  lemma CommittedRecordDerived(st: Store, delta: Props, path: string, updateFileState: bool)
    requires ApplyDelta(st, delta, path, updateFileState).committed
    ensures var u := ApplyDelta(st, delta, path, updateFileState).store.unitByPath[path];
      var load := StrProp(u.props, "LoadState");
      var active := StrProp(u.props, "ActiveState");
      var fileState := StrProp(u.props, "UnitFileState");
      var normalLoad := load == Some("loaded") || load == Some("masked") || load == Some("");
      && (u.hasFailed <==> active == Some("failed") || !normalLoad)
      && (u.combined.run == Running <==> active == Some("active") || active == Some("activating"))
      && (u.combined.run == FailedToStart <==> active == Some("failed"))
      && (u.combined.note == NoNote <==> normalLoad)
      && (!normalLoad ==> u.combined.note == Note(load))
      && (fileState.None? || fileState == Some("") ==> u.startup == NoStartup)
      && (fileState.Some? && StartsWith(fileState.value, "enabled") ==>
            u.startup == EnabledStartup && u.startupKey == Some("enabled"))
      && (fileState.Some? && StartsWith(fileState.value, "disabled") ==>
            u.startup == DisabledStartup && u.startupKey == Some("disabled"))
      && (fileState.Some? && StartsWith(fileState.value, "static") ==>
            u.startup == StaticStartup && u.startupKey == Some("static"))
      && (fileState.Some? && fileState.value != "" && !StartsWith(fileState.value, "enabled")
          && !StartsWith(fileState.value, "disabled") && !StartsWith(fileState.value, "static") ==>
            u.startup == RawStartup(fileState.value))
      && (u.startupKey != Base(st, path).startupKey ==>
            fileState.Some? && (StartsWith(fileState.value, "enabled") || StartsWith(fileState.value, "disabled")
                                || StartsWith(fileState.value, "static")))
  {
    assert Proceeds(st, delta, path);
    var fileState := StrProp(ApplyDelta(st, delta, path, updateFileState).store.unitByPath[path].props, "UnitFileState");
    if fileState.Some? {
      StartupPrefixesExclusive(fileState.value);
    }
  }

  /** `AutomaticStartupKey` is not reset when the unit file state loses its
      enabled, disabled or static prefix: an enabled unit that becomes
      "linked" still filters as enabled. */
  lemma StartupKeyIsSticky(st: Store, path: string)
    requires path in st.unitByPath && st.unitByPath[path].startupKey == Some("enabled")
    requires StrProp(st.unitByPath[path].props, "UnitFileState") != Some("linked")
    ensures var r := ApplyDelta(st, map["UnitFileState" := Str("linked")], path, true);
      && r.committed
      && r.store.unitByPath[path].startup == RawStartup("linked")
      && r.store.unitByPath[path].startupKey == Some("enabled")
  {
    ApplyTakesFileState(st, path, "linked");
    assert "linked"[0] != "static"[0];
  }
}
