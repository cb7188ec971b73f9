/** The extra properties of active sockets and timers, fetched after
    `updateProperties` and written back into the store
    (`addSocketProperties`, `addTimerProperties`), as values.

    Times are integers: the wall clock in milliseconds, the monotonic clock
    and every timer value in microseconds. A displayed time is `Unknown` or
    `Calendar(t)`, standing for the calendar rendering of wall-clock time `t`
    microseconds. */
module Enrich {
  import opened Opt
  import opened Units

  /** The page's clock reference: wall-clock time in milliseconds and time
      since boot in microseconds. */
  datatype ClockRef = ClockRef(realtimeMs: int, monotonicUs: int)

  /** The timer properties the enrichment reads, in microseconds. */
  datatype TimerProps = TimerProps(lastTriggerUSec: int, nextElapseRealtime: int, nextElapseMonotonic: int)

  /** The wall-clock time of boot, in microseconds. */
  function BootTime(c: ClockRef): int
  {
    c.realtimeMs * 1000 - c.monotonicUs
  }

  /** The wall-clock time of the timer's next elapse: the monotonic deadline
      moved to the wall clock when there is no realtime deadline, the
      realtime deadline when there is no monotonic one, and otherwise the
      earlier of the two. */
  function NextRun(t: TimerProps, c: ClockRef): (r: int)
    ensures t.nextElapseRealtime == 0 ==> r == t.nextElapseMonotonic + BootTime(c)
    ensures t.nextElapseRealtime != 0 && t.nextElapseMonotonic == 0 ==> r == t.nextElapseRealtime
    ensures t.nextElapseRealtime != 0 && t.nextElapseMonotonic != 0 ==>
      && (r == t.nextElapseMonotonic + BootTime(c) || r == t.nextElapseRealtime)
      && r <= t.nextElapseMonotonic + BootTime(c) && r <= t.nextElapseRealtime
  {
    var mono := t.nextElapseMonotonic + BootTime(c);
    if t.nextElapseRealtime == 0 then mono
    else if t.nextElapseMonotonic == 0 then t.nextElapseRealtime
    else if mono < t.nextElapseRealtime then mono
    else t.nextElapseRealtime
  }

  /** The last trigger is unknown when the timer never fired. */
  predicate NeverTriggered(t: TimerProps)
  {
    t.lastTriggerUSec == -1 || t.lastTriggerUSec == 0
  }

  /** The next run is unknown when neither deadline is set. */
  predicate NoDeadline(t: TimerProps)
  {
    t.nextElapseMonotonic <= 0 && t.nextElapseRealtime <= 0
  }

  /** The record with the timer's two displayed times filled in. */
  function TimerFields(t: TimerProps, c: ClockRef, u: Unit): Unit
  {
    u.(lastTrigger := Some(if NeverTriggered(t) then Unknown else Calendar(t.lastTriggerUSec)),
       nextRun := Some(if NoDeadline(t) then Unknown else Calendar(NextRun(t, c))))
  }

  /** `addTimerProperties` decides to store the record: a displayed time
      differs from the freshly rendered one, or one of the two "unknown"
      cases applies (which always stores, since the rendered time is written
      first and then replaced by "unknown"). */
  predicate TimerNeedsUpdate(t: TimerProps, c: ClockRef, u: Unit)
  {
    || u.lastTrigger != Some(Calendar(t.lastTriggerUSec))
    || NeverTriggered(t)
    || u.nextRun != Some(Calendar(NextRun(t, c)))
    || NoDeadline(t)
  }

  /** `addSocketProperties` decides to store the record: its `Listen`
      differs from the socket's. */
  predicate SocketNeedsUpdate(listen: seq<Endpoint>, u: Unit)
  {
    u.listen != Some(listen)
  }

  /** Storing an enriched record: under its own path, appended to the order
      when the path has no record (any more). */
  function Commit(st: Store, u: Unit): (r: Store)
    ensures r.unitByPath == st.unitByPath[u.path := u] && r.pathById == st.pathById
  {
    Store(st.unitByPath[u.path := u], if u.path in st.unitByPath then st.order else st.order + [u.path], st.pathById)
  }

  /** `addTimerProperties(timer, path, u)` on a store. */
  function AddTimer(st: Store, t: TimerProps, c: ClockRef, u: Unit): Store
  {
    if TimerNeedsUpdate(t, c, u) then Commit(st, TimerFields(t, c, u)) else st
  }

  /** `addSocketProperties(socket, path, u)` on a store. */
  function AddSocket(st: Store, listen: seq<Endpoint>, u: Unit): Store
  {
    if SocketNeedsUpdate(listen, u) then Commit(st, u.(listen := Some(listen))) else st
  }

  // ---- properties ----------------------------------------------------------

  /** Storing a record keeps the store consistent and changes no other record. */
  lemma CommitKeepsValid(st: Store, u: Unit)
    requires Valid(st)
    ensures Valid(Commit(st, u))
    ensures forall p :: p in st.unitByPath && p != u.path ==> Commit(st, u).unitByPath[p] == st.unitByPath[p]
    ensures Commit(st, u).unitByPath.Keys == st.unitByPath.Keys + {u.path}
  {
    var r := Commit(st, u);
    if u.path !in st.unitByPath {
      assert u.path !in st.order;
      forall i, j | 0 <= i < j < |r.order| ensures r.order[i] != r.order[j] {
        if j == |st.order| { assert r.order[i] == st.order[i]; }
      }
    }
  }

  /** The enrichment only fills in the timer or socket fields: the derived
      fields of a record that agreed with its properties still do. */
  lemma EnrichmentKeepsDerivedFresh(t: TimerProps, c: ClockRef, listen: seq<Endpoint>, u: Unit)
    requires DerivedFresh(u)
    ensures DerivedFresh(TimerFields(t, c, u))
    ensures DerivedFresh(u.(listen := Some(listen)))
  {
  }

  /** The example of a timer with only a monotonic deadline 600 s after
      boot, on a machine booted 500 s before wall-clock time
      1700000000000 ms: its next run is 100 s after that time. */
  lemma MonotonicTimerExample()
    ensures NextRun(TimerProps(1, 0, 600000000), ClockRef(1700000000000, 500000000)) == 1700000100000000
  {
  }

  /** When both deadlines are set the earlier one wins, a tie going to the
      realtime deadline (the same instant). */
  lemma NextRunPicksEarlier(t: TimerProps, c: ClockRef)
    requires t.nextElapseRealtime != 0 && t.nextElapseMonotonic != 0
    ensures NextRun(t, c) == if t.nextElapseMonotonic + BootTime(c) < t.nextElapseRealtime
                             then t.nextElapseMonotonic + BootTime(c) else t.nextElapseRealtime
  {
  }

  /** A timer that never fired shows "unknown" as its last trigger and is
      always stored, even when it already showed "unknown". */
  lemma NeverTriggeredShowsUnknown(st: Store, t: TimerProps, c: ClockRef, u: Unit)
    requires NeverTriggered(t)
    ensures AddTimer(st, t, c, u) == Commit(st, TimerFields(t, c, u))
    ensures TimerFields(t, c, u).lastTrigger == Some(Unknown)
  {
  }

  /** A timer without deadlines shows "unknown" as its next run and is
      always stored. */
  lemma NoDeadlineShowsUnknown(st: Store, t: TimerProps, c: ClockRef, u: Unit)
    requires NoDeadline(t)
    ensures AddTimer(st, t, c, u) == Commit(st, TimerFields(t, c, u))
    ensures TimerFields(t, c, u).nextRun == Some(Unknown)
  {
  }

  /** Otherwise the enrichment is idempotent: a record that already shows
      the timer's times is not stored again. */
  lemma TimerEnrichmentIdempotent(st: Store, t: TimerProps, c: ClockRef, u: Unit)
    requires !NeverTriggered(t) && !NoDeadline(t)
    ensures AddTimer(st, t, c, TimerFields(t, c, u)) == st
  {
  }

  /** The socket's `Listen` is stored exactly when it differs, and then
      appears in the stored record; a second delivery stores nothing. */
  lemma SocketEnrichment(st: Store, listen: seq<Endpoint>, u: Unit)
    ensures AddSocket(st, listen, u) != st ==> SocketNeedsUpdate(listen, u)
    ensures SocketNeedsUpdate(listen, u) ==> AddSocket(st, listen, u).unitByPath[u.path].listen == Some(listen)
    ensures AddSocket(st, listen, u.(listen := Some(listen))) == st
  {
  }

  /** A fetch that completes after its record was pruned puts the record
      back: the store is written from the captured record, whatever the
      store now holds. */
  lemma LateEnrichmentReinserts(st: Store, t: TimerProps, c: ClockRef, u: Unit)
    requires u.path !in st.unitByPath && NeverTriggered(t)
    ensures u.path in AddTimer(st, t, c, u).unitByPath
    ensures AddTimer(st, t, c, u).order == st.order + [u.path]
  {
  }
}
