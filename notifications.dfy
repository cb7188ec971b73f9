/** The page status: the one status this page publishes about itself, sent
    to the shell only when it differs from the last one sent, and the lookup
    of the statuses pages have published, keyed by host and page. */
module Notifications {
  import opened Opt

  /** A page status: its type ("error", "warning", ...), its title and the
      list of details. */
  datatype Status = Status(kind: string, title: string, details: seq<string>)

  /** The session storage entry holding every page's status: not valid
      JSON, absent, or a map from host to page to status. */
  datatype Storage = Unparseable | Absent | Stored(byHost: map<string, map<string, Status>>)

  /** What `get` returns: `undefined`, `null`, or a status. */
  datatype Lookup = Undefined | Null | Found(status: Status)

  /** The key of the storage event that announces a change of statuses. */
  const StorageKey: string := "cockpit:page_status"

  /** `set_own(s)` as a value: the status then held and the notifications sent. */
  function SetOwnStep(cur: Option<Status>, s: Option<Status>): (Option<Status>, seq<Option<Status>>)
  {
    if s == cur then (cur, []) else (s, [s])
  }

  /** A sequence of `set_own` calls: the final status and every notification. */
  function SetOwnAll(cur: Option<Status>, calls: seq<Option<Status>>): (Option<Status>, seq<Option<Status>>)
    decreases |calls|
  {
    if calls == [] then (cur, [])
    else
      var first := SetOwnStep(cur, calls[0]);
      var rest := SetOwnAll(first.0, calls[1..]);
      (rest.0, first.1 + rest.1)
  }

  class PageStatus {
    var curOwn: Option<Status>
    var valid: bool
    /** The `notify` control messages sent to the shell, oldest first. */
    var sent: seq<Option<Status>>
    /** How many "changed" events have been dispatched. */
    var changedEvents: nat

    /** A new page status holds no status of its own and is not yet valid. */
    constructor()
      ensures curOwn == None && !valid && sent == [] && changedEvents == 0
    {
      curOwn := None;
      valid := false;
      sent := [];
      changedEvents := 0;
    }

    /** The transport became ready: lookups are valid from now on. */
    method TransportReady()
      modifies this
      ensures valid && changedEvents == old(changedEvents) + 1
      ensures curOwn == old(curOwn) && sent == old(sent)
    {
      valid := true;
      changedEvents := changedEvents + 1;
    }

    /** A storage event: only the page-status key announces a change. */
    method OnStorage(key: string)
      modifies this
      ensures changedEvents == old(changedEvents) + (if key == StorageKey then 1 else 0)
      ensures curOwn == old(curOwn) && valid == old(valid) && sent == old(sent)
    {
      if key == StorageKey {
        changedEvents := changedEvents + 1;
      }
    }

    /** `set_own(s)`. */
    method SetOwn(s: Option<Status>)
      modifies this
      ensures curOwn == SetOwnStep(old(curOwn), s).0
      ensures sent == old(sent) + SetOwnStep(old(curOwn), s).1
      ensures valid == old(valid) && changedEvents == old(changedEvents)
    {
      if s != curOwn {
        curOwn := s;
        sent := sent + [s];
      }
    }

    /** `get(page, host)`: the status stored for `page` on `host` (the
        transport's own host when none is given). */
    function Get(page: string, host: Option<string>, transportHost: string, storage: Storage): (r: Lookup)
      reads this
      ensures r == Undefined <==> !valid
      ensures r.Found? <==>
        valid && storage.Stored? && host.GetOr(transportHost) in storage.byHost
        && page in storage.byHost[host.GetOr(transportHost)]
      ensures r.Found? ==> r.status == storage.byHost[host.GetOr(transportHost)][page]
    {
      if !valid then Undefined
      else
        var h := host.GetOr(transportHost);
        match storage
        case Unparseable => Null
        case Absent => Null
        case Stored(byHost) =>
          if h in byHost && page in byHost[h] then Found(byHost[h][page]) else Null
    }
  }

  // ---- properties ----------------------------------------------------------

  /** A status equal to the one held sends nothing and changes nothing. */
  lemma SetOwnSameIsSilent(cur: Option<Status>, s: Option<Status>)
    requires s == cur
    ensures SetOwnStep(cur, s) == (cur, [])
  {
  }

  /** A different status is taken over and sent exactly once. */
  lemma SetOwnDifferentSendsOnce(cur: Option<Status>, s: Option<Status>)
    requires s != cur
    ensures SetOwnStep(cur, s) == (s, [s])
  {
  }

  /** The same status set twice sends at most one notification, and none
      when it was already held. */
  lemma SetOwnTwice(cur: Option<Status>, s: Option<Status>)
    ensures SetOwnAll(cur, [s, s]) == (s, if s == cur then [] else [s])
  {
    assert [s, s][1..] == [s];
    assert [s][1..] == [];
    var none: seq<Option<Status>> := [];
    assert SetOwnAll(s, []) == (s, none);
    assert SetOwnStep(s, s) == (s, none);
    assert none + none == none;
    assert SetOwnAll(s, [s]) == (s, none);
    var first := SetOwnStep(cur, s);
    assert first.1 + [] == first.1;
  }

  /** Whatever the calls, the notifications sent never repeat the status
      held before them, never repeat one another back to back, are each one
      of the statuses set, and the status held at the end is the last sent. */
  lemma {:induction false} SetOwnAllDeduplicates(cur: Option<Status>, calls: seq<Option<Status>>)
    ensures var (final, sent) := SetOwnAll(cur, calls);
      && |sent| <= |calls|
      && (sent != [] ==> sent[0] != cur && final == sent[|sent| - 1])
      && (sent == [] ==> final == cur)
      && (forall i :: 0 <= i < |sent| - 1 ==> sent[i] != sent[i + 1])
      && (forall x :: x in sent ==> x in calls)
    decreases |calls|
  {
    if calls != [] {
      var first := SetOwnStep(cur, calls[0]);
      SetOwnAllDeduplicates(first.0, calls[1..]);
      var rest := SetOwnAll(first.0, calls[1..]);
      var sent := first.1 + rest.1;
      forall x | x in sent ensures x in calls {
        if x in rest.1 { assert x in calls[1..]; }
      }
      if first.1 != [] && rest.1 != [] {
        forall i | 0 <= i < |sent| - 1 ensures sent[i] != sent[i + 1] {
          if i > 0 { assert sent[i] == rest.1[i - 1] && sent[i + 1] == rest.1[i]; }
        }
      }
    }
  }
}
