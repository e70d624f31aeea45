/** Status and history over whole runs of scans, successful and failed. */
module StatusHistory {
  import opened Prelude
  import opened Proxmox
  import opened Manifest
  import opened StatusRows

  /** The state that a snapshot shows for `k`. */
  function StateOf(snap: Snapshot, k: Key): Option<State> {
    if k in StateIndex(snap.rows) then Some(StateIndex(snap.rows)[k]) else None
  }

  // ---------------------------------------------------------------- runs

  datatype Pass =
    | Scanned(desired: seq<Resource>, plan: seq<Action>, now: Time, commit: string)
    | Aborted(now: Time)

  const EMPTY := Snapshot(0, false, false, "", false, [])

  ghost predicate IsPass(p: Pass, prev: Snapshot, snap: Snapshot, events: seq<Event>) {
    match p
    case Scanned(desired, plan, now, commit) =>
      IsRecorded(prev, desired, plan, now, commit, snap) && AreEvents(prev, snap, commit, events)
    case Aborted(now) => snap == Errored(prev, now) && events == []
  }

  /** Passes from an empty store on, each with the snapshot and the events it leaves; resource keys are unique. */
  ghost predicate IsRun(passes: seq<Pass>, snaps: seq<Snapshot>, logs: seq<seq<Event>>) {
    && |snaps| == |passes| + 1 && |logs| == |passes| && snaps[0] == EMPTY
    && (forall i :: 0 <= i < |passes| ==> IsPass(passes[i], snaps[i], snaps[i + 1], logs[i]))
    && (forall i :: 0 <= i < |passes| ==> passes[i].now > 0 && (passes[i].Scanned? ==> UniqueKeys(passes[i].desired)))
  }

  lemma {:induction false} KeysStayDistinct(passes: seq<Pass>, snaps: seq<Snapshot>, logs: seq<seq<Event>>, n: nat)
    requires IsRun(passes, snaps, logs) && n <= |passes|
    ensures DistinctKeys(snaps[n].rows)
  {
    hide IsRecorded, AreEvents, UniqueKeys, DistinctKeys;
    if n == 0 {
      assert DistinctKeys([]) by {
        NoRowsDistinct();
      }
    } else {
      KeysStayDistinct(passes, snaps, logs, n - 1);
      var p := passes[n - 1];
      assert IsPass(p, snaps[n - 1], snaps[n - 1 + 1], logs[n - 1]);
      if p.Scanned? {
        RecordedRows(snaps[n - 1], p.desired, p.plan, p.now, p.commit, snaps[n]);
      }
    }
  }

  lemma NoRowsDistinct()
    ensures DistinctKeys([])
  {
  }

  // ---------------------------------------------------------------- the status agrees with the plan

  /** The kinds that the three reconcilers plan for. */
  predicate Planned(a: Action) {
    a.kind.KindVirtualMachine? || a.kind.KindTemplate? || a.kind.KindIso?
  }

  ghost predicate HasAction(plan: seq<Action>, k: Key) {
    exists a :: a in plan && KeyOf(a) == k
  }

  /** The row names the type of an action under its key, and none when there is no such action. */
  ghost predicate ShowsAction(plan: seq<Action>, row: Row) {
    if row.action.None? then !HasAction(plan, row.key)
    else exists a :: a in plan && KeyOf(a) == row.key && a.typ == row.action.value
  }

  /** The one row of the declared resource `r`. */
  ghost predicate DeclaredRow(snap: Snapshot, plan: seq<Action>, r: Resource, row: Row) {
    && row in snap.rows && row.key == ResourceKey(r) && row.node == r.GetMeta().node && row.vmid == r.GetVMID()
    && (row.state.OutOfSync? <==> HasAction(plan, row.key))
  }

  /** Every declared resource has a row, which is out of sync exactly when an action has its key. */
  lemma DeclaredRows(prev: Snapshot, desired: seq<Resource>, plan: seq<Action>, now: Time, commit: string,
                     snap: Snapshot, r: Resource)
    returns (row: Row)
    requires IsRecorded(prev, desired, plan, now, commit, snap) && r in desired && Reported(r.GetKind())
    ensures DeclaredRow(snap, plan, r, row)
  {
    hide IsRecorded, ActionIndex, StateIndex, StampIndex;
    RecordedRows(prev, desired, plan, now, commit, snap);
    row := BasisOf(prev, plan, now).DesiredRow(r);
    ActionIndexMeaning(plan, row.key);
  }

  /** Every other action has an out-of-sync row under its key. */
  lemma OrphanRows(prev: Snapshot, desired: seq<Resource>, plan: seq<Action>, now: Time, commit: string,
                   snap: Snapshot, a: Action)
    returns (row: Row)
    requires IsRecorded(prev, desired, plan, now, commit, snap) && a in plan && Planned(a)
    requires forall r :: r in desired && Reported(r.GetKind()) ==> ResourceKey(r) != KeyOf(a)
    ensures row in snap.rows && row.key == KeyOf(a) && row.state.OutOfSync? && row.node == "" && row.vmid == 0
  {
    hide IsRecorded, ActionIndex, StateIndex, StampIndex, OrphanKeys;
    var b := BasisOf(prev, plan, now);
    RecordedRows(prev, desired, plan, now, commit, snap);
    ActionIndexMeaning(plan, KeyOf(a));
    OrphansUnseen(desired, b);
    row := b.OrphanRow(KeyOf(a));
  }

  /** There are no other rows. */
  lemma NoOtherRows(prev: Snapshot, desired: seq<Resource>, plan: seq<Action>, now: Time, commit: string,
                    snap: Snapshot, row: Row)
    requires IsRecorded(prev, desired, plan, now, commit, snap) && row in snap.rows
    ensures row.state.OutOfSync? <==> HasAction(plan, row.key)
    ensures ShowsAction(plan, row)
    ensures Declares(desired, row.key) || HasAction(plan, row.key)
  {
    hide IsRecorded, ActionIndex, StateIndex, StampIndex, OrphanKeys;
    var b := BasisOf(prev, plan, now);
    RecordedRows(prev, desired, plan, now, commit, snap);
    ActionIndexMeaning(plan, row.key);
    OrphansUnseen(desired, b);
  }

  /**
   One row for each declared resource and each other action's key, and no other rows; a row is out of sync exactly
   when an action has its key; and the snapshot is in sync exactly when all rows are.
   */
  ghost predicate Agrees(desired: seq<Resource>, plan: seq<Action>, snap: Snapshot) {
    && DistinctKeys(snap.rows)
    && (forall row :: row in snap.rows ==> (row.state.OutOfSync? <==> HasAction(plan, row.key)))
    && (forall row :: row in snap.rows ==> ShowsAction(plan, row))
    && (forall k :: HasRow(snap, k) <==> HasAction(plan, k) || Declares(desired, k))
    && (snap.inSync <==> forall row :: row in snap.rows ==> row.state.Synced?)
  }

  ghost predicate HasRow(snap: Snapshot, k: Key) {
    exists row :: row in snap.rows && row.key == k
  }

  ghost predicate Declares(desired: seq<Resource>, k: Key) {
    exists r :: r in desired && Reported(r.GetKind()) && ResourceKey(r) == k
  }

  /** With unique keys, the status agrees with the plan. */
  lemma StatusAgrees(prev: Snapshot, desired: seq<Resource>, plan: seq<Action>, now: Time, commit: string,
                     snap: Snapshot)
    requires IsRecorded(prev, desired, plan, now, commit, snap) && UniqueKeys(desired)
    requires forall a :: a in plan ==> Planned(a)
    ensures Agrees(desired, plan, snap)
  {
    hide DistinctKeys, UniqueKeys, IsRecorded, ShowsAction, BasisOf, OrphanKeys;
    RecordedRows(prev, desired, plan, now, commit, snap);
    forall row | row in snap.rows
      ensures row.state.OutOfSync? <==> HasAction(plan, row.key)
      ensures ShowsAction(plan, row)
      ensures Declares(desired, row.key) || HasAction(plan, row.key)
    {
      NoOtherRows(prev, desired, plan, now, commit, snap, row);
    }
    forall a | a in plan
      ensures exists row :: row in snap.rows && row.key == KeyOf(a) && row.state.OutOfSync?
    {
      ActionHasRow(prev, desired, plan, now, commit, snap, a);
    }
    forall r | r in desired && Reported(r.GetKind())
      ensures HasRow(snap, ResourceKey(r))
    {
      var row := DeclaredRows(prev, desired, plan, now, commit, snap, r);
    }
    InSyncMeaning(prev, desired, plan, now, commit, snap);
  }

  lemma ActionHasRow(prev: Snapshot, desired: seq<Resource>, plan: seq<Action>, now: Time, commit: string,
                     snap: Snapshot, a: Action)
    requires IsRecorded(prev, desired, plan, now, commit, snap) && a in plan && Planned(a)
    ensures exists row :: row in snap.rows && row.key == KeyOf(a) && row.state.OutOfSync?
  {
    hide IsRecorded;
    if r :| r in desired && Reported(r.GetKind()) && ResourceKey(r) == KeyOf(a) {
      var row := DeclaredRows(prev, desired, plan, now, commit, snap, r);
      assert HasAction(plan, row.key);
    } else {
      var row := OrphanRows(prev, desired, plan, now, commit, snap, a);
    }
  }

  lemma InSyncMeaning(prev: Snapshot, desired: seq<Resource>, plan: seq<Action>, now: Time, commit: string,
                      snap: Snapshot)
    requires IsRecorded(prev, desired, plan, now, commit, snap)
    requires forall row :: row in snap.rows ==> (row.state.OutOfSync? <==> HasAction(plan, row.key))
    requires forall a :: a in plan ==> exists row :: row in snap.rows && row.key == KeyOf(a) && row.state.OutOfSync?
    ensures snap.inSync <==> forall row :: row in snap.rows ==> row.state.Synced?
  {
  }

  // ---------------------------------------------------------------- what the latest pass leaves

  /** The commit of the last successful pass. */
  function LastCommit(passes: seq<Pass>, n: nat): string
    requires n <= |passes|
  {
    if n == 0 then "" else if passes[n - 1].Scanned? then passes[n - 1].commit else LastCommit(passes, n - 1)
  }

  /** A snapshot shows whether the latest pass failed, and that all is in sync only if it succeeded with nothing to do. */
  lemma {:induction false} LatestPassShown(passes: seq<Pass>, snaps: seq<Snapshot>, logs: seq<seq<Event>>, n: nat)
    requires IsRun(passes, snaps, logs) && n <= |passes|
    ensures snaps[n].commit == LastCommit(passes, n)
    ensures n > 0 ==>
              var pass, snap := passes[n - 1], snaps[n];
              && snap.updatedAt == pass.now && snap.configured
              && (snap.failed <==> pass.Aborted?)
              && (snap.inSync <==> pass.Scanned? && pass.plan == [])
              && (pass.Aborted? ==> snap.rows == snaps[n - 1].rows)
  {
    hide AreEvents, UniqueKeys, AreOrphanRows, DesiredRows, BasisOf;
    if n > 0 {
      LatestPassShown(passes, snaps, logs, n - 1);
      assert IsPass(passes[n - 1], snaps[n - 1], snaps[n - 1 + 1], logs[n - 1]);
    }
  }

  lemma {:induction false} RowEventCommits(rows: seq<Row>, states: map<Key, State>, commit: string)
    ensures forall e :: e in RowEvents(rows, states, commit) ==> e.commit == commit
  {
    if rows != [] {
      RowEventCommits(rows[..|rows| - 1], states, commit);
    }
  }

  /** Every event belongs to a successful pass and carries its commit. */
  lemma EventCommits(passes: seq<Pass>, snaps: seq<Snapshot>, logs: seq<seq<Event>>, i: nat, e: Event)
    requires IsRun(passes, snaps, logs) && i < |passes| && e in logs[i]
    ensures passes[i].Scanned? && e.commit == passes[i].commit
  {
    hide IsRecorded, UniqueKeys, RowEvents;
    var prev, snap, events := snaps[i], snaps[i + 1], logs[i];
    assert IsPass(passes[i], prev, snap, events);
    if passes[i].Scanned? {
      var states := StateIndex(prev.rows);
      var n := |RowEvents(snap.rows, states, passes[i].commit)|;
      RowEventCommits(snap.rows, states, passes[i].commit);
      assert events == events[..n] + events[n..];
    }
  }

  // ---------------------------------------------------------------- the events replay the states

  /** The types of the events about `k`, in order. */
  function TypesOf(events: seq<Event>, k: Key): seq<EventType> {
    if events == [] then []
    else
      var e := events[|events| - 1];
      TypesOf(events[..|events| - 1], k) + if e.key == k then [e.typ] else []
  }

  /** What the change of a key from one shown state to the next records. */
  function Edge(before: Option<State>, after: Option<State>): seq<EventType> {
    match (before, after)
    case (Some(OutOfSync), Some(Synced)) => [Resynced]
    case (Some(_), None) => [Removed]
    case (_, Some(OutOfSync)) => if before == after then [] else [Drifted]
    case _ => []
  }

  /** The changes of a key over the first `n` passes. */
  function Edges(snaps: seq<Snapshot>, k: Key, n: nat): seq<EventType>
    requires n < |snaps|
  {
    if n == 0 then [] else Edges(snaps, k, n - 1) + Edge(StateOf(snaps[n - 1], k), StateOf(snaps[n], k))
  }

  function History(logs: seq<seq<Event>>, n: nat): seq<Event>
    requires n <= |logs|
  {
    if n == 0 then [] else History(logs, n - 1) + logs[n - 1]
  }

  lemma {:induction false} TypesAppend(a: seq<Event>, b: seq<Event>, k: Key)
    ensures TypesOf(a + b, k) == TypesOf(a, k) + TypesOf(b, k)
  {
    if b == [] {
      assert a + b == a;
    } else {
      TypesAppend(a, b[..|b| - 1], k);
      assert (a + b)[..|a + b| - 1] == a + b[..|b| - 1];
    }
  }

  lemma {:induction false} NoTypes(events: seq<Event>, k: Key)
    requires forall e :: e in events ==> e.key != k
    ensures TypesOf(events, k) == []
  {
    if events != [] {
      NoTypes(events[..|events| - 1], k);
      assert events[|events| - 1] in events;
    }
  }

  /** A row with a key of its own contributes exactly the change of its key. */
  lemma RowEdge(row: Row, states: map<Key, State>, commit: string, k: Key)
    ensures TypesOf(RowEvent(row, states, commit), k)
         == if row.key == k then Edge(if k in states then Some(states[k]) else None, Some(row.state)) else []
  {
  }

  lemma {:induction false} RowsEdge(rows: seq<Row>, states: map<Key, State>, commit: string, k: Key)
    requires DistinctKeys(rows)
    ensures TypesOf(RowEvents(rows, states, commit), k)
         == if k in StateIndex(rows)
            then Edge(if k in states then Some(states[k]) else None, Some(StateIndex(rows)[k])) else []
  {
    if rows != [] {
      var front, last := rows[..|rows| - 1], rows[|rows| - 1];
      RowsEdge(front, states, commit, k);
      TypesAppend(RowEvents(front, states, commit), RowEvent(last, states, commit), k);
      RowEdge(last, states, commit, k);
      IndexMeaning(front, k);
    }
  }

  lemma {:induction false} SingleType(events: seq<Event>, k: Key, i: nat)
    requires i < |events| && events[i].key == k
    requires forall j :: 0 <= j < |events| && j != i ==> events[j].key != k
    ensures TypesOf(events, k) == [events[i].typ]
  {
    if i == |events| - 1 {
      NoTypes(events[..i], k);
    } else {
      SingleType(events[..|events| - 1], k, i);
    }
  }

  lemma RemovalTypes(events: seq<Event>, keys: set<Key>, commit: string, k: Key)
    requires AreRemovals(events, keys, commit)
    ensures TypesOf(events, k) == if k in keys then [Removed] else []
  {
    hide TypesOf;
    if k in keys {
      var i :| 0 <= i < |events| && events[i] == Event(k, Removed, commit);
      SingleType(events, k, i);
    } else {
      NoTypes(events, k);
    }
  }

  lemma ScanEdge(prev: Snapshot, snap: Snapshot, commit: string, events: seq<Event>, k: Key)
    requires AreEvents(prev, snap, commit, events) && DistinctKeys(snap.rows)
    ensures TypesOf(events, k) == Edge(StateOf(prev, k), StateOf(snap, k))
  {
    hide RowEvents, RowKeys, DistinctKeys, AreRemovals;
    var states := StateIndex(prev.rows);
    var n := |RowEvents(snap.rows, states, commit)|;
    assert events == events[..n] + events[n..];
    TypesAppend(events[..n], events[n..], k);
    RowsEdge(snap.rows, states, commit, k);
    RemovalTypes(events[n..], states.Keys - RowKeys(snap.rows), commit, k);
    IndexMeaning(snap.rows, k);
  }

  lemma PassEdge(p: Pass, prev: Snapshot, snap: Snapshot, events: seq<Event>, k: Key)
    requires IsPass(p, prev, snap, events) && DistinctKeys(snap.rows)
    ensures TypesOf(events, k) == Edge(StateOf(prev, k), StateOf(snap, k))
  {
    hide IsRecorded, AreEvents, DistinctKeys;
    if p.Scanned? {
      ScanEdge(prev, snap, p.commit, events, k);
    }
  }

  /** The history of a key is exactly the record of its state changes. */
  lemma {:induction false} EventReplay(passes: seq<Pass>, snaps: seq<Snapshot>, logs: seq<seq<Event>>, k: Key, n: nat)
    requires IsRun(passes, snaps, logs) && n <= |passes|
    ensures TypesOf(History(logs, n), k) == Edges(snaps, k, n)
  {
    hide IsPass, StateOf, UniqueKeys, DistinctKeys, Edge;
    if n > 0 {
      EventReplay(passes, snaps, logs, k, n - 1);
      KeysStayDistinct(passes, snaps, logs, n);
      assert IsPass(passes[n - 1], snaps[n - 1], snaps[n - 1 + 1], logs[n - 1]);
      TypesAppend(History(logs, n - 1), logs[n - 1], k);
      PassEdge(passes[n - 1], snaps[n - 1], snaps[n], logs[n - 1], k);
    }
  }

  /** Every resync comes right after a drift. */
  predicate ResyncsFollowDrifts(types: seq<EventType>) {
    forall i :: 0 <= i < |types| && types[i].Resynced? ==> i > 0 && types[i - 1].Drifted?
  }

  predicate EndsDrifted(types: seq<EventType>) {
    types != [] && types[|types| - 1].Drifted?
  }

  lemma EdgeShape(types: seq<EventType>, before: Option<State>, after: Option<State>)
    requires EndsDrifted(types) <==> before == Some(OutOfSync)
    requires ResyncsFollowDrifts(types)
    ensures EndsDrifted(types + Edge(before, after)) <==> after == Some(OutOfSync)
    ensures ResyncsFollowDrifts(types + Edge(before, after))
  {
  }

  lemma NoEdges()
    ensures !EndsDrifted([]) && ResyncsFollowDrifts([])
  {
  }

  lemma {:induction false} EdgesShape(snaps: seq<Snapshot>, k: Key, n: nat)
    requires n < |snaps| && StateOf(snaps[0], k).None?
    ensures EndsDrifted(Edges(snaps, k, n)) <==> StateOf(snaps[n], k) == Some(OutOfSync)
    ensures ResyncsFollowDrifts(Edges(snaps, k, n))
  {
    hide StateOf, EndsDrifted, ResyncsFollowDrifts, Edge;
    if n > 0 {
      EdgesShape(snaps, k, n - 1);
      EdgeShape(Edges(snaps, k, n - 1), StateOf(snaps[n - 1], k), StateOf(snaps[n], k));
    } else {
      NoEdges();
    }
  }

  /** The latest event of a key is a drift exactly when its row is out of sync, and every resync follows a drift. */
  lemma LatestEvent(passes: seq<Pass>, snaps: seq<Snapshot>, logs: seq<seq<Event>>, k: Key, n: nat)
    requires IsRun(passes, snaps, logs) && n <= |passes|
    ensures EndsDrifted(TypesOf(History(logs, n), k)) <==> StateOf(snaps[n], k) == Some(OutOfSync)
    ensures ResyncsFollowDrifts(TypesOf(History(logs, n), k))
  {
    EventReplay(passes, snaps, logs, k, n);
    EdgesShape(snaps, k, n);
  }

  // ---------------------------------------------------------------- the transition stamps

  /** Pass `p` is the first of those, up to pass `n`, over which `k` has been shown in state `st` without a break. */
  ghost predicate SinceFirst(passes: seq<Pass>, snaps: seq<Snapshot>, k: Key, st: State, p: nat, n: nat)
    requires |snaps| == |passes| + 1
  {
    && p < n <= |passes| && passes[p].Scanned?
    && StateOf(snaps[p], k) != Some(st)
    && forall q :: p < q <= n ==> StateOf(snaps[q], k) == Some(st)
  }

  lemma RecordedStamp(prev: Snapshot, desired: seq<Resource>, plan: seq<Action>, now: Time, commit: string,
                      snap: Snapshot, row: Row)
    requires IsRecorded(prev, desired, plan, now, commit, snap) && row in snap.rows
    ensures row.lastTransition == BasisOf(prev, plan, now).Transition(row.key, row.state)
  {
    hide IsRecorded, ActionIndex, StateIndex, StampIndex, OrphanKeys;
    RecordedRows(prev, desired, plan, now, commit, snap);
  }

  /** A row is stamped with the clock of the pass in which its key entered its current state. */
  lemma {:induction false} StampIsEntry(passes: seq<Pass>, snaps: seq<Snapshot>, logs: seq<seq<Event>>, row: Row,
                                        n: nat)
    returns (p: nat)
    requires IsRun(passes, snaps, logs) && n <= |passes| && row in snaps[n].rows
    ensures SinceFirst(passes, snaps, row.key, row.state, p, n) && row.lastTransition == passes[p].now
    decreases n
  {
    hide IsRecorded, AreEvents, StateIndex, StampIndex, UniqueKeys, DistinctKeys;
    KeysStayDistinct(passes, snaps, logs, n);
    IndexOfRow(snaps[n].rows, row);
    KeysStayDistinct(passes, snaps, logs, n - 1);
    var m, k := n - 1, row.key;
    var prev, pass := snaps[m], passes[m];
    assert IsPass(pass, prev, snaps[m + 1], logs[m]);
    IndexMeaning(prev.rows, k);
    if StateOf(prev, k) == Some(row.state) {
      var before :| before in prev.rows && before.key == k;
      IndexOfRow(prev.rows, before);
      p := StampIsEntry(passes, snaps, logs, before, m);
      StampKept(pass, prev, snaps[n], logs[m], row, before);
    } else {
      p := m;
      StampSet(pass, prev, snaps[n], logs[m], row);
    }
  }

  lemma StampKept(pass: Pass, prev: Snapshot, snap: Snapshot, events: seq<Event>, row: Row, before: Row)
    requires IsPass(pass, prev, snap, events) && DistinctKeys(prev.rows)
    requires row in snap.rows && before in prev.rows && before.key == row.key && before.state == row.state
    requires before.lastTransition > 0
    ensures row.lastTransition == before.lastTransition
  {
    hide IsRecorded, AreEvents, StateIndex, StampIndex;
    IndexOfRow(prev.rows, before);
    if pass.Scanned? {
      RecordedStamp(prev, pass.desired, pass.plan, pass.now, pass.commit, snap, row);
    } else {
      IndexOfRow(prev.rows, row);
      var i :| 0 <= i < |prev.rows| && prev.rows[i] == row;
      var j :| 0 <= j < |prev.rows| && prev.rows[j] == before;
    }
  }

  lemma StampSet(pass: Pass, prev: Snapshot, snap: Snapshot, events: seq<Event>, row: Row)
    requires IsPass(pass, prev, snap, events) && DistinctKeys(prev.rows)
    requires row in snap.rows && StateOf(prev, row.key) != Some(row.state)
    ensures pass.Scanned? && row.lastTransition == pass.now
  {
    hide IsRecorded, AreEvents, StateIndex, StampIndex;
    if pass.Scanned? {
      RecordedStamp(prev, pass.desired, pass.plan, pass.now, pass.commit, snap, row);
    } else {
      IndexOfRow(prev.rows, row);
    }
  }
}
