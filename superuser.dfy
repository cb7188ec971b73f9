/** The superuser permission state: whether the session may act as
    administrator, as a tri-state `allowed` (unknown, yes, no), with the
    choice between updating it and reloading the page when it changes. */
module Superuser {
  import opened Opt

  /** What the permission proxy reports: whether it is valid, and its
      `Current` value ("init", "none" or the name of a method). */
  datatype Proxy = Proxy(valid: bool, current: string)

  /** `compute_allowed`: unknown while the proxy is invalid or still
      initialising, otherwise whether superuser is in force. */
  function ComputeAllowed(p: Proxy): (r: Option<bool>)
    ensures r.None? <==> !p.valid || p.current == "init"
    ensures r.Some? ==> (r.value <==> p.current != "none")
  {
    if !p.valid || p.current == "init" then None else Some(p.current != "none")
  }

  /** What a change emits: the "changed" and "reconnect" events on the
      superuser object, or a reload of the whole page. */
  datatype Signal = ChangedEvent | ReconnectEvent | PageReload

  /** The state `changed` and `reload_page_on_change` work on. */
  datatype PermissionState = PermissionState(allowed: Option<bool>, reloadOnChange: bool)

  datatype Op = ReloadOnChange | Change(value: Option<bool>)

  /** `changed(v)` as a value: the new state and what it emits. */
  function ChangeStep(s: PermissionState, v: Option<bool>): (PermissionState, seq<Signal>)
  {
    if s.allowed == v then (s, [])
    else if s.allowed.Some? && s.reloadOnChange then (s, [PageReload])
    else (s.(allowed := v), [ChangedEvent] + (if s.allowed.Some? then [ReconnectEvent] else []))
  }

  function Step(s: PermissionState, op: Op): (PermissionState, seq<Signal>)
  {
    match op
    case ReloadOnChange => (s.(reloadOnChange := true), [])
    case Change(v) => ChangeStep(s, v)
  }

  /** A run of operations from a state: the final state and everything emitted. */
  function Run(s: PermissionState, ops: seq<Op>): (PermissionState, seq<Signal>)
    decreases |ops|
  {
    if ops == [] then (s, [])
    else
      var first := Step(s, ops[0]);
      var rest := Run(first.0, ops[1..]);
      (rest.0, first.1 + rest.1)
  }

  class SuperuserState {
    var allowed: Option<bool>
    var reloadOnChange: bool
    /** The events dispatched and reloads requested, oldest first. */
    var outbox: seq<Signal>

    function Snapshot(): PermissionState
      reads this
    {
      PermissionState(allowed, reloadOnChange)
    }

    /** Starts with the proxy's current answer and the reload flag off. */
    constructor(p: Proxy)
      ensures allowed == ComputeAllowed(p) && !reloadOnChange && outbox == []
    {
      allowed := ComputeAllowed(p);
      reloadOnChange := false;
      outbox := [];
    }

    /** `changed(v)`. */
    method Changed(v: Option<bool>)
      modifies this
      ensures Snapshot() == ChangeStep(old(Snapshot()), v).0
      ensures outbox == old(outbox) + ChangeStep(old(Snapshot()), v).1
    {
      if allowed != v {
        if allowed.Some? && reloadOnChange {
          outbox := outbox + [PageReload];
        } else {
          var prev := allowed;
          allowed := v;
          outbox := outbox + [ChangedEvent];
          if prev.Some? {
            outbox := outbox + [ReconnectEvent];
          }
        }
      }
    }

    /** `reload_page_on_change`. */
    method ReloadPageOnChange()
      modifies this
      ensures Snapshot() == old(Snapshot()).(reloadOnChange := true) && outbox == old(outbox)
    {
      reloadOnChange := true;
    }

    /** The proxy's "changed" event. */
    method OnProxyChanged(p: Proxy)
      modifies this
      ensures Snapshot() == ChangeStep(old(Snapshot()), ComputeAllowed(p)).0
      ensures outbox == old(outbox) + ChangeStep(old(Snapshot()), ComputeAllowed(p)).1
    {
      Changed(ComputeAllowed(p));
    }
  }

  // ---- properties ----------------------------------------------------------

  /** A change to the value already held is no change and emits nothing. */
  lemma ChangeToSameIsNoop(s: PermissionState, v: Option<bool>)
    requires s.allowed == v
    ensures ChangeStep(s, v) == (s, [])
  {
  }

  /** With a known value and the reload flag set, a different value reloads
      the page and leaves the state as it was. */
  lemma ChangeReloads(s: PermissionState, v: Option<bool>)
    requires s.allowed.Some? && s.reloadOnChange && s.allowed != v
    ensures ChangeStep(s, v) == (s, [PageReload])
  {
  }

  /** Otherwise a different value is taken over with one "changed" event,
      followed by "reconnect" exactly when the previous value was known. */
  lemma ChangeUpdates(s: PermissionState, v: Option<bool>)
    requires s.allowed != v && (s.allowed.None? || !s.reloadOnChange)
    ensures ChangeStep(s, v).0 == s.(allowed := v)
    ensures ChangeStep(s, v).1[0] == ChangedEvent
    ensures |ChangeStep(s, v).1| == (if s.allowed.Some? then 2 else 1)
    ensures ReconnectEvent in ChangeStep(s, v).1 <==> s.allowed.Some?
  {
  }

  /** Leaving the unknown state never reloads the page, flag or no flag. */
  lemma LeavingUnknownNeverReloads(s: PermissionState, v: Option<bool>)
    requires s.allowed.None?
    ensures PageReload !in ChangeStep(s, v).1
    ensures ChangeStep(s, v).0.allowed == v
  {
  }

  /** Once set, the reload flag stays set, whatever happens. */
  lemma {:induction false} ReloadFlagSticky(s: PermissionState, ops: seq<Op>)
    requires s.reloadOnChange
    ensures Run(s, ops).0.reloadOnChange
    decreases |ops|
  {
    if ops != [] {
      ReloadFlagSticky(Step(s, ops[0]).0, ops[1..]);
    }
  }

  /** With the flag set and a known value, the value never changes again and
      every change only reloads the page. */
  lemma {:induction false} KnownValueFrozenUnderReload(s: PermissionState, ops: seq<Op>)
    requires s.reloadOnChange && s.allowed.Some?
    ensures Run(s, ops).0 == s
    ensures forall i :: 0 <= i < |Run(s, ops).1| ==> Run(s, ops).1[i] == PageReload
    decreases |ops|
  {
    if ops != [] {
      assert Step(s, ops[0]).0 == s;
      KnownValueFrozenUnderReload(s, ops[1..]);
    }
  }

  /** The page as the services page sets it up: the flag is switched on at
      load, so once the permission is known every later change reloads. */
  lemma ServicesPageSetup(p: Proxy, v: Option<bool>, w: Option<bool>)
    requires ComputeAllowed(p).None? && v.Some? && w != v
    ensures var s1 := Step(PermissionState(ComputeAllowed(p), false), ReloadOnChange).0;
      Run(s1, [Change(v), Change(w)]) == (PermissionState(v, true), [ChangedEvent, PageReload])
  {
    var s1 := Step(PermissionState(ComputeAllowed(p), false), ReloadOnChange).0;
    assert [Change(v), Change(w)][1..] == [Change(w)];
    assert [Change(w)][1..] == [];
    var s2 := Step(s1, Change(v)).0;
    assert s2 == PermissionState(v, true);
    assert Step(s2, Change(w)) == (s2, [PageReload]);
    assert Run(s2, []) == (s2, []);
    assert [PageReload] + [] == [PageReload];
    assert Run(s2, [Change(w)]) == (s2, [PageReload]);
    assert [ChangedEvent] + [] == [ChangedEvent];
    assert Step(s1, Change(v)) == (s2, [ChangedEvent]);
    assert [ChangedEvent] + [PageReload] == [ChangedEvent, PageReload];
  }
}
