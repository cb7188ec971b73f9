/** The services page's unit store as an object: the records, the name
    index, the seen paths, the loading flags and the tab error marks, updated
    in place by the page's methods and signal handlers. Each method is proved
    to do what the value-level definitions of `Units`, `Enrich` and `Sync`
    say. */
module Services {
  import opened Opt
  import opened Order
  import opened UnitNames
  import opened Units
  import opened Enrich
  import opened Failures
  import opened Notifications
  import opened Sync

  class ServicesPage {
    var unitByPath: map<string, Unit>
    var order: seq<string>
    var pathById: map<string, string>
    var seenPaths: set<string>
    var loadingUnits: bool
    var isFullyLoaded: bool
    var tabErrors: set<string>
    /** The page status object the failure summary is published through. */
    const status: PageStatus

    function Snapshot(): Store
      reads this
    {
      Store(unitByPath, order, pathById)
    }

    function Abstract(): Page
      reads this, status
    {
      Page(Snapshot(), seenPaths, loadingUnits, isFullyLoaded, tabErrors, status.curOwn, status.sent)
    }

    ghost predicate Valid()
      reads this
    {
      Units.Valid(Snapshot())
    }

    /** A fresh page: nothing stored, nothing seen, not loading, not loaded. */
    constructor(status: PageStatus)
      ensures this.status == status
      ensures Snapshot() == EmptyStore && seenPaths == {} && tabErrors == {}
      ensures !loadingUnits && !isFullyLoaded
      ensures Valid()
    {
      unitByPath := map[];
      order := [];
      pathById := map[];
      seenPaths := {};
      loadingUnits := false;
      isFullyLoaded := false;
      tabErrors := {};
      this.status := status;
    }

    /** The `prop(k)` loop of `updateProperties`: visits the tracked fields
        in `names` in turn and returns the merged properties, the stored ones
        with their arrays sorted in place, and whether any field changed. */
    method MergeFields(stored: Props, delta: Props, names: seq<string>) returns (m: Merged)
      ensures m == Merge(stored, delta, names)
    {
      var props, inPlace, changed := stored, stored, false;
      for i := 0 to |names|
        invariant Merged(props, inPlace, changed) == Merge(stored, delta, names[..i])
      {
        var k := names[i];
        if k in delta {
          var v := delta[k];
          if v.Strs? && k in props && props[k].Strs? {
            var sortedNew := SortStrings(v.items);
            var sortedOld := SortStrings(props[k].items);
            inPlace := inPlace[k := Strs(sortedOld)];
            props := props[k := Strs(sortedNew)];
            changed := changed || sortedNew != sortedOld;
          } else if !v.Strs? && k in props && props[k] == v {
          } else {
            props := props[k := v];
            changed := true;
          }
        }
        assert names[..i + 1][..i] == names[..i];
      }
      assert names[..|names|] == names;
      m := Merged(props, inPlace, changed);
    }

    /** `updateProperties(delta, path, updateFileState)`: returns the
        enrichment it schedules. */
    method UpdateProperties(delta: Props, path: string, updateFileState: bool) returns (scheduled: Enrichment)
      requires Valid()
      modifies this
      ensures Snapshot() == ApplyDelta(old(Snapshot()), delta, path, updateFileState).store
      ensures scheduled == ApplyDelta(old(Snapshot()), delta, path, updateFileState).scheduled
      ensures seenPaths == old(seenPaths) && loadingUnits == old(loadingUnits)
      ensures isFullyLoaded == old(isFullyLoaded) && tabErrors == old(tabErrors)
      ensures Valid()
    {
      ghost var st0 := Snapshot();
      ghost var r := ApplyDelta(st0, delta, path, updateFileState);
      if path !in unitByPath && "Id" !in delta {
        ApplyFrame(st0, delta, path, updateFileState);
        return NoEnrichment;
      }
      var id := IdText(delta);
      if id.Some? {
        pathById := pathById[id.value := path];
      }
      var base := if path in unitByPath then unitByPath[path] else EmptyUnit(path);
      assert base == Base(st0, path);
      var m := MergeFields(base.props, delta, Tracked(updateFileState));
      scheduled := StoreMerged(path, base, m);
      assert r.scheduled == scheduled && r.store == Snapshot() by {
        assert r.store.pathById == pathById;
        assert r.store.order == order;
        assert r.store.unitByPath == unitByPath;
      }
      ApplyFrame(st0, delta, path, updateFileState);
    }

    /** The end of `updateProperties`: the record built from `base` and the
        merge is stored when something changed; otherwise only the in-place
        sorting of the stored arrays shows. */
    method StoreMerged(path: string, base: Unit, m: Merged) returns (scheduled: Enrichment)
      modifies this
      ensures unitByPath == if m.changed then old(unitByPath)[path := NewRecord(base, m, path)]
                            else if path in old(unitByPath) then old(unitByPath)[path := base.(props := m.inPlace)]
                            else old(unitByPath)
      ensures order == if m.changed && path !in old(unitByPath) then old(order) + [path] else old(order)
      ensures scheduled == Schedule(NewRecord(base, m, path))
      ensures pathById == old(pathById) && seenPaths == old(seenPaths) && loadingUnits == old(loadingUnits)
      ensures isFullyLoaded == old(isFullyLoaded) && tabErrors == old(tabErrors)
    {
      var unitNew := NewRecord(base, m, path);
      scheduled := Schedule(unitNew);
      if m.changed {
        if path !in unitByPath {
          order := order + [path];
        }
        unitByPath := unitByPath[path := unitNew];
      } else if path in unitByPath {
        unitByPath := unitByPath[path := base.(props := m.inPlace)];
      }
    }

    /** `getUnitByPath(p)`: merges the `GetAll` reply when the call succeeds. */
    method GetUnitByPath(bus: Bus, p: string)
      requires Valid()
      modifies this
      ensures Snapshot() == Fetch(old(Snapshot()), bus, p)
      ensures seenPaths == old(seenPaths) && loadingUnits == old(loadingUnits)
      ensures isFullyLoaded == old(isFullyLoaded) && tabErrors == old(tabErrors)
      ensures Valid()
    {
      if p in bus.getAll {
        var _ := UpdateProperties(bus.getAll[p], p, false);
      }
    }

    /** `processFailedUnits`. */
    method ProcessFailedUnits()
      modifies this, status
      ensures Abstract() == ProcessFailed(old(Abstract()))
      ensures status.valid == old(status.valid) && status.changedEvents == old(status.changedEvents)
    {
      var failed: seq<string> := [];
      var marks: set<string> := {};
      for i := 0 to |order|
        invariant (failed, marks) == Scan(Snapshot(), order[..i])
      {
        var p := order[i];
        if p in unitByPath {
          var u := unitByPath[p];
          if StrProp(u.props, "ActiveState") == Some("failed") && StrProp(u.props, "LoadState") != Some("not-found") {
            var suffix := SuffixOf(IdOf(u));
            if suffix in Suffixes {
              marks := marks + {suffix};
              if IdOf(u) !in failed {
                failed := failed + [IdOf(u)];
              }
            }
          }
        }
        assert order[..i + 1][..i] == order[..i];
      }
      assert order[..|order|] == order;
      tabErrors := marks;
      if |failed| > 0 {
        status.SetOwn(Some(Status("error", FailedTitle(|failed|), failed)));
      } else {
        status.SetOwn(None);
      }
    }

    /** The end of `listUnits`: records not seen are deleted, and so are the
        names bound to them. */
    method PruneUnseen()
      requires Valid()
      modifies this
      ensures Snapshot() == Prune(old(Snapshot()), seenPaths)
      ensures seenPaths == old(seenPaths) && loadingUnits == old(loadingUnits)
      ensures isFullyLoaded == old(isFullyLoaded) && tabErrors == old(tabErrors)
      ensures Valid()
    {
      PruneFacts(Snapshot(), seenPaths);
      var pruned := PruneStore(Snapshot(), seenPaths);
      unitByPath, order, pathById := pruned.unitByPath, pruned.order, pruned.pathById;
    }

    /** `listFailedUnits`. */
    method ListFailedUnits(bus: Bus)
      requires Valid()
      modifies this, status
      ensures Abstract() == ListFailed(old(Abstract()), bus)
      ensures Valid()
    {
      if bus.listFailed.None? {
        return;
      }
      ListFailedRows(bus.listFailed.value);
      ProcessFailedUnits();
    }

    /** The rows of the `ListUnitsFiltered(["failed"])` reply. */
    method ListFailedRows(rows: seq<UnitRow>)
      requires Valid()
      modifies this
      ensures Listing(Snapshot(), seenPaths) == FailedRowPhase(old(Listing(Snapshot(), seenPaths)), rows)
      ensures loadingUnits == old(loadingUnits) && isFullyLoaded == old(isFullyLoaded)
      ensures tabErrors == old(tabErrors)
      ensures Valid()
    {
      ghost var start := Listing(Snapshot(), seenPaths);
      for i := 0 to |rows|
        invariant Valid()
        invariant Listing(Snapshot(), seenPaths) == FailedRowPhase(start, rows[..i])
        invariant loadingUnits == old(loadingUnits) && isFullyLoaded == old(isFullyLoaded)
        invariant tabErrors == old(tabErrors)
      {
        ghost var before := Listing(Snapshot(), seenPaths);
        var r := rows[i];
        if IsUnitHandled(r.id) && r.loadState != "not-found" {
          seenPaths := seenPaths + {r.path};
          var _ := UpdateProperties(RowDelta(r), r.path, false);
        }
        FailedRowPhaseStep(start, rows, i, before);
      }
      assert rows[..|rows|] == rows;
    }

    /** The `ListUnits` phase of `listUnits`. */
    method ListRuntimeUnits(rows: seq<UnitRow>)
      requires Valid()
      modifies this
      ensures Listing(Snapshot(), seenPaths) == RuntimePhase(old(Listing(Snapshot(), seenPaths)), rows)
      ensures loadingUnits == old(loadingUnits) && isFullyLoaded == old(isFullyLoaded)
      ensures tabErrors == old(tabErrors)
      ensures Valid()
    {
      ghost var start := Listing(Snapshot(), seenPaths);
      for i := 0 to |rows|
        invariant Valid()
        invariant Listing(Snapshot(), seenPaths) == RuntimePhase(start, rows[..i])
        invariant loadingUnits == old(loadingUnits) && isFullyLoaded == old(isFullyLoaded)
        invariant tabErrors == old(tabErrors)
      {
        ghost var before := Listing(Snapshot(), seenPaths);
        var r := rows[i];
        if IsUnitHandled(r.id) {
          seenPaths := seenPaths + {r.path};
          var _ := UpdateProperties(RowDelta(r), r.path, false);
        }
        RuntimePhaseStep(start, rows, i, before);
      }
      assert rows[..|rows|] == rows;
    }

    /** The `ListUnitFiles` phase of `listUnits`: returns the units left
        for `LoadUnit`. */
    method ListFileUnits(rows: seq<FileRow>) returns (queue: seq<Pending>)
      requires Valid()
      modifies this
      ensures FileScan(Listing(Snapshot(), seenPaths), queue)
              == FilePhase(FileScan(old(Listing(Snapshot(), seenPaths)), []), rows)
      ensures loadingUnits == old(loadingUnits) && isFullyLoaded == old(isFullyLoaded)
      ensures tabErrors == old(tabErrors)
      ensures Valid()
    {
      ghost var start := FileScan(Listing(Snapshot(), seenPaths), []);
      queue := [];
      for i := 0 to |rows|
        invariant Valid()
        invariant FileScan(Listing(Snapshot(), seenPaths), queue) == FilePhase(start, rows[..i])
        invariant loadingUnits == old(loadingUnits) && isFullyLoaded == old(isFullyLoaded)
        invariant tabErrors == old(tabErrors)
      {
        ghost var before := FileScan(Listing(Snapshot(), seenPaths), queue);
        queue := ListFileRow(rows[i], queue);
        FilePhaseStep(start, rows, i, before);
      }
      assert rows[..|rows|] == rows;
    }

    /** One row of the `ListUnitFiles` reply. */
    method ListFileRow(r: FileRow, queue: seq<Pending>) returns (queue': seq<Pending>)
      requires Valid()
      modifies this
      ensures FileScan(Listing(Snapshot(), seenPaths), queue')
              == FileStep(FileScan(old(Listing(Snapshot(), seenPaths)), queue), r)
      ensures loadingUnits == old(loadingUnits) && isFullyLoaded == old(isFullyLoaded)
      ensures tabErrors == old(tabErrors)
      ensures Valid()
    {
      queue' := queue;
      var id := BaseName(r.unitPath);
      if IsUnitHandled(id) && !IsTemplate(id) {
        if id in pathById && pathById[id] in seenPaths {
          var _ := UpdateProperties(FileDelta(id, r.fileState), pathById[id], true);
        } else {
          queue' := queue + [Pending(id, r.fileState)];
        }
      }
    }

    /** The `LoadUnit` replies of `listUnits`. */
    method LoadPending(queue: seq<Pending>, bus: Bus)
      requires Valid()
      modifies this
      ensures Listing(Snapshot(), seenPaths) == LoadPhase(old(Listing(Snapshot(), seenPaths)), queue, bus)
      ensures loadingUnits == old(loadingUnits) && isFullyLoaded == old(isFullyLoaded)
      ensures tabErrors == old(tabErrors)
      ensures Valid()
    {
      ghost var start := Listing(Snapshot(), seenPaths);
      for i := 0 to |queue|
        invariant Valid()
        invariant Listing(Snapshot(), seenPaths) == LoadPhase(start, queue[..i], bus)
        invariant loadingUnits == old(loadingUnits) && isFullyLoaded == old(isFullyLoaded)
        invariant tabErrors == old(tabErrors)
      {
        ghost var before := Listing(Snapshot(), seenPaths);
        var q := queue[i];
        if q.id in bus.loadUnit {
          var p := bus.loadUnit[q.id];
          var _ := UpdateProperties(FileDelta(q.id, q.fileState), p, true);
          seenPaths := seenPaths + {p};
          GetUnitByPath(bus, p);
        }
        LoadPhaseStep(start, queue, i, bus, before);
      }
      assert queue[..|queue|] == queue;
    }

    /** `listUnits`. */
    method ListUnits(bus: Bus, hidden: bool)
      requires Valid()
      modifies this, status
      ensures Abstract() == Sync.ListUnits(old(Abstract()), bus, hidden)
      ensures Valid()
    {
      if hidden {
        ListFailedUnits(bus);
        return;
      }
      loadingUnits := true;
      seenPaths := {};
      if bus.listUnits.None? {
        return;
      }
      ListRuntimeUnits(bus.listUnits.value);
      if bus.listUnitFiles.None? {
        return;
      }
      var queue := ListFileUnits(bus.listUnitFiles.value);
      LoadPending(queue, bus);
      PruneUnseen();
      loadingUnits := false;
      isFullyLoaded := true;
      ProcessFailedUnits();
    }

    /** The `PropertiesChanged` handler: returns the enrichment scheduled. */
    method OnPropertiesChanged(delta: Props, path: string) returns (scheduled: Enrichment)
      requires Valid()
      modifies this, status
      ensures Abstract() == Sync.OnPropertiesChanged(old(Abstract()), delta, path)
      ensures scheduled == if old(loadingUnits) then NoEnrichment
                           else ApplyDelta(old(Snapshot()), delta, path, false).scheduled
      ensures Valid()
    {
      if loadingUnits {
        return NoEnrichment;
      }
      scheduled := UpdateProperties(delta, path, false);
      ProcessFailedUnits();
    }

    /** The `JobNew`/`JobRemoved` handler for the unit named `unitId`. */
    method OnJobSignal(unitId: string, bus: Bus)
      requires Valid()
      modifies this, status
      ensures Abstract() == OnJob(old(Abstract()), unitId, bus)
      ensures Valid()
    {
      if unitId !in bus.loadUnit {
        return;
      }
      var p := bus.loadUnit[unitId];
      seenPaths := seenPaths + {p};
      GetUnitByPath(bus, p);
      ProcessFailedUnits();
    }

    /** The `Reloading` handler. */
    method OnReloadingSignal(reloading: bool, bus: Bus, hidden: bool)
      requires Valid()
      modifies this, status
      ensures Abstract() == OnReloading(old(Abstract()), reloading, bus, hidden)
      ensures Valid()
    {
      if !reloading && !loadingUnits {
        ListUnits(bus, hidden);
      }
    }

    /** The visibility handler. */
    method OnVisibility(hidden: bool, bus: Bus)
      requires Valid()
      modifies this, status
      ensures Abstract() == OnVisibilityChange(old(Abstract()), hidden, bus)
      ensures Valid()
    {
      if !hidden && !isFullyLoaded {
        ListUnits(bus, false);
      }
    }

    /** Stores an enriched record under its own path. */
    method CommitRecord(u: Unit)
      requires Valid()
      modifies this
      ensures Snapshot() == Commit(old(Snapshot()), u)
      ensures seenPaths == old(seenPaths) && loadingUnits == old(loadingUnits)
      ensures isFullyLoaded == old(isFullyLoaded) && tabErrors == old(tabErrors)
      ensures Valid()
    {
      CommitKeepsValid(Snapshot(), u);
      if u.path !in unitByPath {
        order := order + [u.path];
      }
      unitByPath := unitByPath[u.path := u];
    }

    /** `addSocketProperties`: `listen` is the socket's `Listen` property and
        `u` the record captured when the fetch was scheduled. */
    method AddSocketProperties(listen: seq<Endpoint>, u: Unit)
      requires Valid()
      modifies this
      ensures Snapshot() == AddSocket(old(Snapshot()), listen, u)
      ensures seenPaths == old(seenPaths) && loadingUnits == old(loadingUnits)
      ensures isFullyLoaded == old(isFullyLoaded) && tabErrors == old(tabErrors)
      ensures Valid()
    {
      var unit := u;
      var needsUpdate := false;
      if Some(listen) != unit.listen {
        unit := unit.(listen := Some(listen));
        needsUpdate := true;
      }
      if needsUpdate {
        CommitRecord(unit);
      }
    }

    /** `addTimerProperties`: `t` holds the timer's properties, `clock` the
        page's clock reference and `u` the record captured when the fetch
        was scheduled. */
    method AddTimerProperties(t: TimerProps, clock: ClockRef, u: Unit)
      requires Valid()
      modifies this
      ensures Snapshot() == AddTimer(old(Snapshot()), t, clock, u)
      ensures seenPaths == old(seenPaths) && loadingUnits == old(loadingUnits)
      ensures isFullyLoaded == old(isFullyLoaded) && tabErrors == old(tabErrors)
      ensures Valid()
    {
      var unit, lastChanged := RenderLastTrigger(t, u);
      var nextChanged;
      unit, nextChanged := RenderNextRun(t, clock, unit);
      if lastChanged || nextChanged {
        CommitRecord(unit);
      }
    }
  }

  /** The pruning loop of `listUnits`, on a copy of the records: walks the
      paths in order, dropping each unseen one together with the names bound
      to it, and collects the paths that stay. */
  method PruneLoop(st: Store, seen: set<string>) returns (records: map<string, Unit>, names: map<string, string>, kept: seq<string>)
    ensures forall p :: p in records <==> p in st.unitByPath && (p !in st.order || p in seen)
    ensures forall p :: p in records ==> records[p] == st.unitByPath[p]
    ensures forall id :: id in names <==> id in st.pathById && (st.pathById[id] !in st.order || st.pathById[id] in seen)
    ensures forall id :: id in names ==> names[id] == st.pathById[id]
    ensures kept == KeepSeen(st.order, seen)
  {
    var paths := st.order;
    records, names, kept := st.unitByPath, st.pathById, [];
    for i := 0 to |paths|
      invariant forall p :: p in records <==> p in st.unitByPath && (p !in paths[..i] || p in seen)
      invariant forall p :: p in records ==> records[p] == st.unitByPath[p]
      invariant forall id :: id in names <==>
                  id in st.pathById && (st.pathById[id] !in paths[..i] || st.pathById[id] in seen)
      invariant forall id :: id in names ==> names[id] == st.pathById[id]
      invariant kept == KeepSeen(paths[..i], seen)
    {
      var p := paths[i];
      assert paths[..i + 1] == paths[..i] + [p];
      if p !in seen {
        records := records - {p};
        names := map id | id in names && names[id] != p :: names[id];
      } else {
        kept := kept + [p];
      }
    }
    assert paths[..|paths|] == paths;
  }

  /** The pruned store of a consistent store is the one `Prune` describes. */
  method PruneStore(st: Store, seen: set<string>) returns (r: Store)
    requires Valid(st)
    ensures r == Prune(st, seen)
  {
    var records, names, kept := PruneLoop(st, seen);
    PrunedRecords(st, seen, records);
    PrunedNames(st, seen, names);
    r := Store(records, kept, names);
  }

  lemma PrunedRecords(st: Store, seen: set<string>, records: map<string, Unit>)
    requires Valid(st)
    requires forall p :: p in records <==> p in st.unitByPath && (p !in st.order || p in seen)
    requires forall p :: p in records ==> records[p] == st.unitByPath[p]
    ensures records == Prune(st, seen).unitByPath
  {
  }

  lemma PrunedNames(st: Store, seen: set<string>, names: map<string, string>)
    requires Valid(st)
    requires forall id :: id in names <==> id in st.pathById && (st.pathById[id] !in st.order || st.pathById[id] in seen)
    requires forall id :: id in names ==> names[id] == st.pathById[id]
    ensures names == Prune(st, seen).pathById
  {
  }

  /** The last-trigger half of `addTimerProperties`: renders the timer's
      last trigger and replaces it by "unknown" when the timer never fired.
      Reports whether the record changed, which it always does in the
      "unknown" case. */
  method RenderLastTrigger(t: TimerProps, u: Unit) returns (unit: Unit, changed: bool)
    ensures unit == u.(lastTrigger := Some(if NeverTriggered(t) then Unknown else Calendar(t.lastTriggerUSec)))
    ensures changed <==> u.lastTrigger != Some(Calendar(t.lastTriggerUSec)) || NeverTriggered(t)
  {
    unit, changed := u, false;
    var lastTriggerTime := Calendar(t.lastTriggerUSec);
    if Some(lastTriggerTime) != unit.lastTrigger {
      unit := unit.(lastTrigger := Some(lastTriggerTime));
      changed := true;
    }
    if t.lastTriggerUSec == -1 || t.lastTriggerUSec == 0 {
      if unit.lastTrigger != Some(Unknown) {
        unit := unit.(lastTrigger := Some(Unknown));
        changed := true;
      }
    }
  }

  /** The next-run half of `addTimerProperties`: renders the earlier
      deadline on the wall clock and replaces it by "unknown" when neither
      deadline is set. */
  method RenderNextRun(t: TimerProps, clock: ClockRef, u: Unit) returns (unit: Unit, changed: bool)
    ensures unit == u.(nextRun := Some(if NoDeadline(t) then Unknown else Calendar(NextRun(t, clock))))
    ensures changed <==> u.nextRun != Some(Calendar(NextRun(t, clock))) || NoDeadline(t)
  {
    unit, changed := u, false;
    var bootTime := clock.realtimeMs * 1000 - clock.monotonicUs;
    var nextRunTime := 0;
    if t.nextElapseRealtime == 0 {
      nextRunTime := t.nextElapseMonotonic + bootTime;
    } else if t.nextElapseMonotonic == 0 {
      nextRunTime := t.nextElapseRealtime;
    } else if t.nextElapseMonotonic + bootTime < t.nextElapseRealtime {
      nextRunTime := t.nextElapseMonotonic + bootTime;
    } else {
      nextRunTime := t.nextElapseRealtime;
    }
    if Some(Calendar(nextRunTime)) != unit.nextRun {
      unit := unit.(nextRun := Some(Calendar(nextRunTime)));
      changed := true;
    }
    if t.nextElapseMonotonic <= 0 && t.nextElapseRealtime <= 0 {
      if unit.nextRun != Some(Unknown) {
        unit := unit.(nextRun := Some(Unknown));
        changed := true;
      }
    }
  }
}
