/** The page's synchronisation with the service manager, as values: the
    full listing (`listUnits`: runtime units, unit files, loads of the files
    not yet seen, then the pruning of unseen records), the background listing
    of failed units (`listFailedUnits`), the failure summary
    (`processFailedUnits`) and the guards on the bus signals.

    Bus replies are inputs: a call that fails is `None` or a missing key. */
module Sync {
  import opened Opt
  import opened UnitNames
  import opened Units
  import opened Failures
  import opened Notifications

  /** A row of `ListUnits` or `ListUnitsFiltered`: name, description, load,
      active and sub state, and object path. */
  datatype UnitRow = UnitRow(id: string, description: string, loadState: string,
                             activeState: string, subState: string, path: string)

  /** A row of `ListUnitFiles`: the unit file's path and its state. */
  datatype FileRow = FileRow(unitPath: string, fileState: string)

  /** The bus replies a listing or signal handler sees: `None` for a failed
      call; `loadUnit` maps a unit name to its object path and `getAll` an
      object path to its properties, a missing key being a failed call. */
  datatype Bus = Bus(
    listUnits: Option<seq<UnitRow>>,
    listUnitFiles: Option<seq<FileRow>>,
    listFailed: Option<seq<UnitRow>>,
    loadUnit: map<string, string>,
    getAll: map<string, Props>)

  /** The store with the set of paths seen by the listing in progress. */
  datatype Listing = Listing(store: Store, seen: set<string>)

  /** A unit file left for `LoadUnit`: its name and file state. */
  datatype Pending = Pending(id: string, fileState: string)

  datatype FileScan = FileScan(listing: Listing, queue: seq<Pending>)

  /** Everything the page keeps: the store, the seen paths, the two loading
      flags, the tab error marks, and its page status with the notifications
      sent for it. */
  datatype Page = Page(
    store: Store,
    seen: set<string>,
    loading: bool,
    fullyLoaded: bool,
    tabErrors: set<string>,
    ownStatus: Option<Status>,
    sent: seq<Option<Status>>)

  function RowDelta(r: UnitRow): Props
  {
    map["Id" := Str(r.id), "Description" := Str(r.description), "LoadState" := Str(r.loadState),
        "ActiveState" := Str(r.activeState), "SubState" := Str(r.subState)]
  }

  function FileDelta(id: string, fileState: string): Props
  {
    map["Id" := Str(id), "UnitFileState" := Str(fileState)]
  }

  // ---- the listing phases --------------------------------------------------

  /** One `ListUnits` row: a handled unit is marked seen and merged. */
  function RuntimeStep(l: Listing, r: UnitRow): Listing
  {
    if !IsUnitHandled(r.id) then l
    else Listing(ApplyDelta(l.store, RowDelta(r), r.path, false).store, l.seen + {r.path})
  }

  function RuntimePhase(l: Listing, rows: seq<UnitRow>): Listing
    decreases |rows|
  {
    if rows == [] then l else RuntimeStep(RuntimePhase(l, rows[..|rows| - 1]), rows[|rows| - 1])
  }

  /** One `ListUnitsFiltered(["failed"])` row: as a `ListUnits` row, except
      that units whose file was not found are skipped. */
  function FailedRowStep(l: Listing, r: UnitRow): Listing
  {
    if !IsUnitHandled(r.id) || r.loadState == "not-found" then l
    else Listing(ApplyDelta(l.store, RowDelta(r), r.path, false).store, l.seen + {r.path})
  }

  function FailedRowPhase(l: Listing, rows: seq<UnitRow>): Listing
    decreases |rows|
  {
    if rows == [] then l else FailedRowStep(FailedRowPhase(l, rows[..|rows| - 1]), rows[|rows| - 1])
  }

  /** One `ListUnitFiles` row: unhandled kinds and templates are skipped; a
      unit whose path was already seen gets its file state at once; any
      other is left for `LoadUnit`. */
  function FileStep(fs: FileScan, r: FileRow): FileScan
  {
    var id := BaseName(r.unitPath);
    var st := fs.listing.store;
    if !IsUnitHandled(id) || IsTemplate(id) then fs
    else if id in st.pathById && st.pathById[id] in fs.listing.seen then
      FileScan(Listing(ApplyDelta(st, FileDelta(id, r.fileState), st.pathById[id], true).store, fs.listing.seen), fs.queue)
    else FileScan(fs.listing, fs.queue + [Pending(id, r.fileState)])
  }

  function FilePhase(fs: FileScan, rows: seq<FileRow>): FileScan
    decreases |rows|
  {
    if rows == [] then fs else FileStep(FilePhase(fs, rows[..|rows| - 1]), rows[|rows| - 1])
  }

  lemma FilePhaseStep(fs: FileScan, rows: seq<FileRow>, i: nat, before: FileScan)
    requires i < |rows| && before == FilePhase(fs, rows[..i])
    ensures FilePhase(fs, rows[..i + 1]) == FileStep(before, rows[i])
  {
    assert rows[..i + 1][..i] == rows[..i];
  }

  lemma RuntimePhaseStep(l: Listing, rows: seq<UnitRow>, i: nat, before: Listing)
    requires i < |rows| && before == RuntimePhase(l, rows[..i])
    ensures RuntimePhase(l, rows[..i + 1]) == RuntimeStep(before, rows[i])
  {
    assert rows[..i + 1][..i] == rows[..i];
  }

  lemma FailedRowPhaseStep(l: Listing, rows: seq<UnitRow>, i: nat, before: Listing)
    requires i < |rows| && before == FailedRowPhase(l, rows[..i])
    ensures FailedRowPhase(l, rows[..i + 1]) == FailedRowStep(before, rows[i])
  {
    assert rows[..i + 1][..i] == rows[..i];
  }

  /** `getUnitByPath(p)`: the `GetAll` reply merged, if the call succeeded. */
  function Fetch(st: Store, bus: Bus, p: string): Store
  {
    if p in bus.getAll then ApplyDelta(st, bus.getAll[p], p, false).store else st
  }

  /** One `LoadUnit` reply: the file state is merged under the path it
      names, the path is seen, and all its properties are fetched. */
  function LoadStep(l: Listing, q: Pending, bus: Bus): Listing
  {
    if q.id !in bus.loadUnit then l
    else
      var p := bus.loadUnit[q.id];
      Listing(Fetch(ApplyDelta(l.store, FileDelta(q.id, q.fileState), p, true).store, bus, p), l.seen + {p})
  }

  function LoadPhase(l: Listing, queue: seq<Pending>, bus: Bus): Listing
    decreases |queue|
  {
    if queue == [] then l else LoadStep(LoadPhase(l, queue[..|queue| - 1], bus), queue[|queue| - 1], bus)
  }

  lemma LoadPhaseStep(l: Listing, queue: seq<Pending>, i: nat, bus: Bus, before: Listing)
    requires i < |queue| && before == LoadPhase(l, queue[..i], bus)
    ensures LoadPhase(l, queue[..i + 1], bus) == LoadStep(before, queue[i], bus)
  {
    assert queue[..i + 1][..i] == queue[..i];
  }

  /** The paths of `order` that stay. */
  function KeepSeen(order: seq<string>, seen: set<string>): (r: seq<string>)
    ensures forall p :: p in r <==> p in order && p in seen
    decreases |order|
  {
    if order == [] then []
    else KeepSeen(order[..|order| - 1], seen)
         + (if order[|order| - 1] in seen then [order[|order| - 1]] else [])
  }

  /** The records the pruning removes: stored but not seen. */
  predicate Removed(st: Store, seen: set<string>, p: string)
  {
    p in st.unitByPath && p !in seen
  }

  /** The end of the full listing: unseen records are dropped, and so is
      every name bound to a dropped path. */
  function Prune(st: Store, seen: set<string>): Store
  {
    Store(map p | p in st.unitByPath && p in seen :: st.unitByPath[p],
          KeepSeen(st.order, seen),
          map id | id in st.pathById && !Removed(st, seen, st.pathById[id]) :: st.pathById[id])
  }

  /** `processFailedUnits`: the error marks and the page status. */
  function ProcessFailed(pg: Page): Page
  {
    var (own, notes) := SetOwnStep(pg.ownStatus, FailureStatus(pg.store));
    pg.(tabErrors := TabErrors(pg.store), ownStatus := own, sent := pg.sent + notes)
  }

  /** `listFailedUnits`. */
  function ListFailed(pg: Page, bus: Bus): Page
  {
    if bus.listFailed.None? then pg
    else
      var l := FailedRowPhase(Listing(pg.store, pg.seen), bus.listFailed.value);
      ProcessFailed(pg.(store := l.store, seen := l.seen))
  }

  /** `listUnits` with the page hidden or not. A failed `ListUnits` or
      `ListUnitFiles` call ends the listing where it is, still loading. */
  function ListUnits(pg: Page, bus: Bus, hidden: bool): Page
  {
    if hidden then ListFailed(pg, bus)
    else
      var start := Listing(pg.store, {});
      var loading := pg.(loading := true, seen := {});
      if bus.listUnits.None? then loading
      else
        var l1 := RuntimePhase(start, bus.listUnits.value);
        if bus.listUnitFiles.None? then loading.(store := l1.store, seen := l1.seen)
        else
          var f := FilePhase(FileScan(l1, []), bus.listUnitFiles.value);
          var l3 := LoadPhase(f.listing, f.queue, bus);
          ProcessFailed(pg.(store := Prune(l3.store, l3.seen), seen := l3.seen, loading := false, fullyLoaded := true))
  }

  // ---- the signal handlers -------------------------------------------------

  /** `PropertiesChanged` on a unit: ignored while a listing runs. */
  function OnPropertiesChanged(pg: Page, delta: Props, path: string): Page
  {
    if pg.loading then pg
    else ProcessFailed(pg.(store := ApplyDelta(pg.store, delta, path, false).store))
  }

  /** `JobNew`/`JobRemoved` for a unit: load it, mark it seen, fetch all its
      properties, and summarise failures even when the fetch failed. */
  function OnJob(pg: Page, unitId: string, bus: Bus): Page
  {
    if unitId !in bus.loadUnit then pg
    else
      var p := bus.loadUnit[unitId];
      ProcessFailed(pg.(store := Fetch(pg.store, bus, p), seen := pg.seen + {p}))
  }

  /** `Reloading(reloading)`: relist when the reload is over and no listing runs. */
  function OnReloading(pg: Page, reloading: bool, bus: Bus, hidden: bool): Page
  {
    if !reloading && !pg.loading then ListUnits(pg, bus, hidden) else pg
  }

  /** The page became visible or hidden: a page that was only listed in the
      background is listed fully once visible. */
  function OnVisibilityChange(pg: Page, hidden: bool, bus: Bus): Page
  {
    if !hidden && !pg.fullyLoaded then ListUnits(pg, bus, false) else pg
  }

  // ---- properties ----------------------------------------------------------

  /** `l2` extends `l1`: no record lost, no seen path forgotten, still consistent. */
  ghost predicate Grows(l1: Listing, l2: Listing)
  {
    && l1.store.unitByPath.Keys <= l2.store.unitByPath.Keys
    && l1.seen <= l2.seen
    && Valid(l2.store)
  }

  lemma GrowsTransitive(l1: Listing, l2: Listing, l3: Listing)
    requires Grows(l1, l2) && Grows(l2, l3)
    ensures Grows(l1, l3)
  {
  }

  lemma ApplyGrows(st: Store, delta: Props, path: string, updateFileState: bool)
    requires Valid(st)
    ensures Valid(ApplyDelta(st, delta, path, updateFileState).store)
    ensures st.unitByPath.Keys <= ApplyDelta(st, delta, path, updateFileState).store.unitByPath.Keys
  {
    ApplyFrame(st, delta, path, updateFileState);
  }

  /** The runtime phase keeps the store consistent and leaves every handled
      listed unit seen and stored. */
  lemma {:induction false} RuntimePhaseStores(l: Listing, rows: seq<UnitRow>)
    requires Valid(l.store)
    ensures Grows(l, RuntimePhase(l, rows))
    ensures forall i :: 0 <= i < |rows| && IsUnitHandled(rows[i].id) ==>
      rows[i].path in RuntimePhase(l, rows).seen && rows[i].path in RuntimePhase(l, rows).store.unitByPath
    decreases |rows|
  {
    if rows != [] {
      var init := rows[..|rows| - 1];
      var r := rows[|rows| - 1];
      RuntimePhaseStores(l, init);
      var mid := RuntimePhase(l, init);
      if IsUnitHandled(r.id) {
        ApplyGrows(mid.store, RowDelta(r), r.path, false);
        ApplyLands(mid.store, RowDelta(r), r.path, false);
      }
      forall i | 0 <= i < |rows| - 1 && IsUnitHandled(rows[i].id)
        ensures rows[i].path in RuntimePhase(l, rows).seen && rows[i].path in RuntimePhase(l, rows).store.unitByPath
      {
        assert rows[i] == init[i];
      }
    }
  }

  /** The background listing keeps the store consistent and leaves every
      handled failed unit whose file was found seen and stored. */
  lemma {:induction false} FailedRowPhaseStores(l: Listing, rows: seq<UnitRow>)
    requires Valid(l.store)
    ensures Grows(l, FailedRowPhase(l, rows))
    ensures forall i :: 0 <= i < |rows| && IsUnitHandled(rows[i].id) && rows[i].loadState != "not-found" ==>
      rows[i].path in FailedRowPhase(l, rows).seen && rows[i].path in FailedRowPhase(l, rows).store.unitByPath
    decreases |rows|
  {
    if rows != [] {
      var init := rows[..|rows| - 1];
      var r := rows[|rows| - 1];
      FailedRowPhaseStores(l, init);
      var mid := FailedRowPhase(l, init);
      if IsUnitHandled(r.id) && r.loadState != "not-found" {
        ApplyGrows(mid.store, RowDelta(r), r.path, false);
        ApplyLands(mid.store, RowDelta(r), r.path, false);
      }
      forall i | 0 <= i < |rows| - 1 && IsUnitHandled(rows[i].id) && rows[i].loadState != "not-found"
        ensures rows[i].path in FailedRowPhase(l, rows).seen && rows[i].path in FailedRowPhase(l, rows).store.unitByPath
      {
        assert rows[i] == init[i];
      }
    }
  }

  /** A failed row whose unit file was not found is skipped. */
  lemma NotFoundRowSkipped(l: Listing, r: UnitRow)
    requires r.loadState == "not-found"
    ensures FailedRowStep(l, r) == l
  {
  }

  /** `listFailedUnits`: a failed call changes nothing; otherwise the store
      only grows, nothing is pruned and no seen path is forgotten, the
      loading flags stay as they were, every handled failed unit whose file
      was found is stored, and the summary describes the new store. */
  lemma ListFailedOutcome(pg: Page, bus: Bus)
    requires Valid(pg.store)
    ensures bus.listFailed.None? ==> ListFailed(pg, bus) == pg
    ensures bus.listFailed.Some? ==>
      var r := ListFailed(pg, bus);
      && Valid(r.store)
      && pg.store.unitByPath.Keys <= r.store.unitByPath.Keys
      && pg.seen <= r.seen
      && r.loading == pg.loading && r.fullyLoaded == pg.fullyLoaded
      && r.tabErrors == TabErrors(r.store) && r.ownStatus == FailureStatus(r.store)
      && forall row :: row in bus.listFailed.value && IsUnitHandled(row.id) && row.loadState != "not-found" ==>
           row.path in r.store.unitByPath && row.path in r.seen
  {
    if bus.listFailed.Some? {
      var rows := bus.listFailed.value;
      FailedRowPhaseStores(Listing(pg.store, pg.seen), rows);
      forall row | row in rows && IsUnitHandled(row.id) && row.loadState != "not-found"
        ensures row.path in ListFailed(pg, bus).store.unitByPath && row.path in ListFailed(pg, bus).seen
      {
        var i :| 0 <= i < |rows| && rows[i] == row;
      }
    }
  }

  /** The file phase keeps the store consistent and only grows it. */
  lemma {:induction false} FilePhaseGrows(fs: FileScan, rows: seq<FileRow>)
    requires Valid(fs.listing.store)
    ensures Grows(fs.listing, FilePhase(fs, rows).listing)
    decreases |rows|
  {
    if rows != [] {
      var mid := FilePhase(fs, rows[..|rows| - 1]);
      FilePhaseGrows(fs, rows[..|rows| - 1]);
      var id := BaseName(rows[|rows| - 1].unitPath);
      var st := mid.listing.store;
      if IsUnitHandled(id) && !IsTemplate(id) && id in st.pathById && st.pathById[id] in mid.listing.seen {
        ApplyGrows(st, FileDelta(id, rows[|rows| - 1].fileState), st.pathById[id], true);
      }
    }
  }

  lemma FetchGrows(st: Store, bus: Bus, p: string)
    requires Valid(st)
    ensures Valid(Fetch(st, bus, p)) && st.unitByPath.Keys <= Fetch(st, bus, p).unitByPath.Keys
  {
    if p in bus.getAll { ApplyGrows(st, bus.getAll[p], p, false); }
  }

  /** The load phase keeps the store consistent, and every unit `LoadUnit`
      resolved is seen and stored. */
  lemma {:induction false} LoadPhaseStores(l: Listing, queue: seq<Pending>, bus: Bus)
    requires Valid(l.store)
    ensures Grows(l, LoadPhase(l, queue, bus))
    ensures forall i :: 0 <= i < |queue| && queue[i].id in bus.loadUnit ==>
      bus.loadUnit[queue[i].id] in LoadPhase(l, queue, bus).seen
      && bus.loadUnit[queue[i].id] in LoadPhase(l, queue, bus).store.unitByPath
    decreases |queue|
  {
    if queue != [] {
      var init := queue[..|queue| - 1];
      var q := queue[|queue| - 1];
      LoadPhaseStores(l, init, bus);
      var mid := LoadPhase(l, init, bus);
      if q.id in bus.loadUnit {
        var p := bus.loadUnit[q.id];
        ApplyGrows(mid.store, FileDelta(q.id, q.fileState), p, true);
        ApplyLands(mid.store, FileDelta(q.id, q.fileState), p, true);
        FetchGrows(ApplyDelta(mid.store, FileDelta(q.id, q.fileState), p, true).store, bus, p);
      }
      forall i | 0 <= i < |queue| - 1 && queue[i].id in bus.loadUnit
        ensures bus.loadUnit[queue[i].id] in LoadPhase(l, queue, bus).seen
          && bus.loadUnit[queue[i].id] in LoadPhase(l, queue, bus).store.unitByPath
      {
        assert queue[i] == init[i];
      }
    }
  }

  /** The pruning keeps exactly the seen records, untouched, drops exactly
      the names bound to dropped records, and keeps the store consistent. */
  lemma PruneFacts(st: Store, seen: set<string>)
    requires Valid(st)
    ensures var r := Prune(st, seen);
      && Valid(r)
      && (forall p :: p in r.unitByPath <==> p in st.unitByPath && p in seen)
      && (forall p :: p in r.unitByPath ==> r.unitByPath[p] == st.unitByPath[p])
      && (forall id :: id in r.pathById <==> id in st.pathById && st.pathById[id] in seen)
      && (forall id :: id in r.pathById ==> r.pathById[id] == st.pathById[id])
  {
    var r := Prune(st, seen);
    assert Distinct(r.order) by { KeepSeenDistinct(st.order, seen); }
  }

  lemma {:induction false} KeepSeenDistinct(order: seq<string>, seen: set<string>)
    requires Distinct(order)
    ensures Distinct(KeepSeen(order, seen))
    decreases |order|
  {
    if order != [] {
      var init := order[..|order| - 1];
      var last := order[|order| - 1];
      assert Distinct(init);
      KeepSeenDistinct(init, seen);
      assert last !in init;
      assert last !in KeepSeen(init, seen);
    }
  }

  /** A completed full listing: loading is over, the page counts as fully
      loaded, the store is consistent and holds only seen paths, every
      handled unit `ListUnits` reported and every unit file `LoadUnit`
      resolved is stored, and the error marks and page status describe the
      new store. */
  lemma ListingOutcome(pg: Page, bus: Bus)
    requires Valid(pg.store) && bus.listUnits.Some? && bus.listUnitFiles.Some?
    ensures var r := ListUnits(pg, bus, false);
      && !r.loading && r.fullyLoaded
      && Valid(r.store)
      && (forall p :: p in r.store.unitByPath ==> p in r.seen)
      && (forall row :: row in bus.listUnits.value && IsUnitHandled(row.id) ==> row.path in r.store.unitByPath)
      && (forall q :: q in FilePhase(FileScan(RuntimePhase(Listing(pg.store, {}), bus.listUnits.value), []),
                                     bus.listUnitFiles.value).queue && q.id in bus.loadUnit
                 ==> bus.loadUnit[q.id] in r.store.unitByPath)
      && r.tabErrors == TabErrors(r.store)
      && r.ownStatus == FailureStatus(r.store)
  {
    var rows := bus.listUnits.value;
    var l0 := Listing(pg.store, {});
    var l1 := RuntimePhase(l0, rows);
    RuntimePhaseStores(l0, rows);
    var f := FilePhase(FileScan(l1, []), bus.listUnitFiles.value);
    FilePhaseGrows(FileScan(l1, []), bus.listUnitFiles.value);
    var l3 := LoadPhase(f.listing, f.queue, bus);
    LoadPhaseStores(f.listing, f.queue, bus);
    PruneFacts(l3.store, l3.seen);
    forall row | row in rows && IsUnitHandled(row.id)
      ensures row.path in Prune(l3.store, l3.seen).unitByPath
    {
      var i :| 0 <= i < |rows| && rows[i] == row;
    }
    forall q | q in f.queue && q.id in bus.loadUnit
      ensures bus.loadUnit[q.id] in Prune(l3.store, l3.seen).unitByPath
    {
      var i :| 0 <= i < |f.queue| && f.queue[i] == q;
    }
  }

  /** A failed `ListUnits` call leaves the page loading, so every later
      `PropertiesChanged` is ignored and no `Reloading` relists it. */
  lemma ListingFailureKeepsLoading(pg: Page, bus: Bus, delta: Props, path: string, bus2: Bus, hidden: bool)
    requires bus.listUnits.None?
    ensures var r := ListUnits(pg, bus, false);
      && r.loading && r.store == pg.store && r.seen == {}
      && OnPropertiesChanged(r, delta, path) == r
      && OnReloading(r, false, bus2, hidden) == r
  {
  }

  /** Every handled runtime-listed unit is seen and stored, whatever its
      name looks like. */
  lemma RuntimeIngestsHandled(l: Listing, r: UnitRow)
    requires Valid(l.store) && IsUnitHandled(r.id)
    ensures RuntimeStep(l, r).store.unitByPath.Keys == l.store.unitByPath.Keys + {r.path}
    ensures r.path in RuntimeStep(l, r).seen
  {
    ApplyFrame(l.store, RowDelta(r), r.path, false);
  }

  /** Template unit files are skipped by the file phase. */
  lemma TemplateFilesSkipped(fs: FileScan, dir: string, name: string, fileState: string)
    requires '/' !in name && IsTemplate(name)
    ensures FileStep(fs, FileRow(dir + "/" + name, fileState)) == fs
  {
    BaseNameAfterDir(dir, name);
  }

  /** A runtime-listed template instance such as "foo@bar.service" is
      taken in. */
  lemma RuntimeTakesInstance(l: Listing, path: string)
    requires Valid(l.store)
    ensures path in RuntimeStep(l, UnitRow("foo@bar.service", "", "loaded", "active", "running", path)).store.unitByPath
  {
    var id := "foo@bar.service";
    assert id == "foo@bar" + "." + "service";
    HandledKinds("foo@bar", "service");
    RuntimeIngestsHandled(l, UnitRow(id, "", "loaded", "active", "running", path));
  }

  /** Unhandled kinds are skipped by both listings. */
  lemma UnhandledSkipped(l: Listing, fs: FileScan, r: UnitRow, f: FileRow)
    requires !IsUnitHandled(r.id) && !IsUnitHandled(BaseName(f.unitPath))
    ensures RuntimeStep(l, r) == l && FailedRowStep(l, r) == l && FileStep(fs, f) == fs
  {
  }

  /** A job signal for a unit `LoadUnit` resolves marks its path seen and
      refetches it, whatever the unit's kind: the store stays consistent and
      only grows, the unit is stored once its properties arrive with a name,
      the loading flags stay, and the summary describes the new store. A
      unit `LoadUnit` cannot resolve changes nothing. */
  lemma JobSignalOutcome(pg: Page, unitId: string, bus: Bus)
    requires Valid(pg.store)
    ensures unitId !in bus.loadUnit ==> OnJob(pg, unitId, bus) == pg
    ensures unitId in bus.loadUnit ==>
      var p := bus.loadUnit[unitId];
      var r := OnJob(pg, unitId, bus);
      && p in r.seen && pg.seen <= r.seen
      && Valid(r.store) && pg.store.unitByPath.Keys <= r.store.unitByPath.Keys
      && (p in bus.getAll && "Id" in bus.getAll[p] ==> p in r.store.unitByPath)
      && r.loading == pg.loading && r.fullyLoaded == pg.fullyLoaded
      && r.tabErrors == TabErrors(r.store) && r.ownStatus == FailureStatus(r.store)
  {
    if unitId in bus.loadUnit {
      var p := bus.loadUnit[unitId];
      FetchGrows(pg.store, bus, p);
      if p in bus.getAll && "Id" in bus.getAll[p] {
        ApplyLands(pg.store, bus.getAll[p], p, false);
      }
    }
  }

  /** A job signal takes in any unit, of any kind: the mount unit of a job
      whose properties are fetched is stored. */
  lemma JobSignalAdmitsAnyKind(pg: Page, bus: Bus, p: string)
    requires "foo.mount" in bus.loadUnit && bus.loadUnit["foo.mount"] == p
    requires p in bus.getAll && "Id" in bus.getAll[p] && bus.getAll[p]["Id"] == Str("foo.mount")
    ensures p in OnJob(pg, "foo.mount", bus).store.unitByPath
    ensures p in OnJob(pg, "foo.mount", bus).seen
    ensures !IsUnitHandled("foo.mount")
  {
    ApplyLands(pg.store, bus.getAll[p], p, false);
    MountIsNotHandled();
  }

  /** The failure summary is fresh after every handler that runs it, and the
      page status changes only through it. */
  lemma ProcessFailedDescribesStore(pg: Page)
    ensures ProcessFailed(pg).tabErrors == TabErrors(pg.store)
    ensures ProcessFailed(pg).ownStatus == FailureStatus(pg.store)
    ensures |ProcessFailed(pg).sent| <= |pg.sent| + 1
    ensures ProcessFailed(pg).store == pg.store && ProcessFailed(pg).seen == pg.seen
  {
  }

  /** Summarising twice sends nothing the second time. */
  lemma ProcessFailedIdempotent(pg: Page)
    ensures ProcessFailed(ProcessFailed(pg)) == ProcessFailed(pg)
  {
    var once := ProcessFailed(pg);
    var none: seq<Option<Status>> := [];
    assert once.sent + none == once.sent;
  }
}
