/** The status snapshot of a pass, and the history events that lead to it. */
module StatusRows {
  import opened Prelude
  import opened Proxmox
  import opened Manifest

  // 0 is the zero time.
  type Time = nat

  datatype State = Synced | OutOfSync

  datatype Row = Row(key: Key, node: string, vmid: int, state: State, action: Option<ActionType>, lastTransition: Time)

  datatype Snapshot = Snapshot(updatedAt: Time, inSync: bool, configured: bool, commit: string, failed: bool, rows: seq<Row>)

  datatype EventType = Drifted | Resynced | Removed

  datatype Event = Event(key: Key, typ: EventType, commit: string)

  /** reportedKinds */
  predicate Reported(kind: Kind) {
    kind.KindVirtualMachine? || kind.KindContainer? || kind.KindIso? || kind.KindTemplate?
  }

  function ResourceKey(r: Resource): Key {
    Key(r.GetKind(), r.GetMeta().name)
  }

  // ---------------------------------------------------------------- the maps of recordStatus

  /** prevState: a later row overrides an earlier one with the same key. */
  function StateIndex(rows: seq<Row>): map<Key, State> {
    if rows == [] then map[]
    else StateIndex(rows[..|rows| - 1])[rows[|rows| - 1].key := rows[|rows| - 1].state]
  }

  /** lastTransition */
  function StampIndex(rows: seq<Row>): map<Key, Time> {
    if rows == [] then map[]
    else StampIndex(rows[..|rows| - 1])[rows[|rows| - 1].key := rows[|rows| - 1].lastTransition]
  }

  /** actions: a later action overrides an earlier one with the same key. */
  function ActionIndex(plan: seq<Action>): map<Key, Action> {
    if plan == [] then map[]
    else ActionIndex(plan[..|plan| - 1])[KeyOf(plan[|plan| - 1]) := plan[|plan| - 1]]
  }

  // What the rows of a pass are computed from.
  datatype Basis = Basis(states: map<Key, State>, stamps: map<Key, Time>, actions: map<Key, Action>, now: Time) {
    /** transition: the previous stamp when the state is unchanged, else now. */
    function Transition(k: Key, state: State): Time {
      if k in states && states[k] == state && k in stamps && stamps[k] != 0 then stamps[k] else now
    }

    function DesiredRow(r: Resource): Row {
      var k := ResourceKey(r);
      var state := if k in actions then OutOfSync else Synced;
      Row(k, r.GetMeta().node, r.GetVMID(), state, if k in actions then Some(actions[k].typ) else None, Transition(k, state))
    }

    function OrphanRow(k: Key): Row
      requires k in actions
    {
      Row(k, "", 0, OutOfSync, Some(actions[k].typ), Transition(k, OutOfSync))
    }
  }

  function BasisOf(prev: Snapshot, plan: seq<Action>, now: Time): Basis {
    Basis(StateIndex(prev.rows), StampIndex(prev.rows), ActionIndex(plan), now)
  }

  /** The rows of the reported resources, in manifest order. */
  function DesiredRows(desired: seq<Resource>, b: Basis): seq<Row> {
    if desired == [] then []
    else
      var r := desired[|desired| - 1];
      DesiredRows(desired[..|desired| - 1], b) + if Reported(r.GetKind()) then [b.DesiredRow(r)] else []
  }

  /** seen */
  function SeenKeys(desired: seq<Resource>): set<Key> {
    if desired == [] then {}
    else
      var r := desired[|desired| - 1];
      SeenKeys(desired[..|desired| - 1]) + if Reported(r.GetKind()) then {ResourceKey(r)} else {}
  }

  function OrphanKeys(desired: seq<Resource>, b: Basis): set<Key> {
    set k | k in b.actions && k !in SeenKeys(desired) && Reported(k.kind)
  }

  ghost predicate DistinctKeys(rows: seq<Row>) {
    forall i, j :: 0 <= i < j < |rows| ==> rows[i].key != rows[j].key
  }

  /** One orphan row for each of `keys`, in any order. */
  ghost predicate AreOrphanRows(rows: seq<Row>, keys: set<Key>, b: Basis) {
    && DistinctKeys(rows)
    && (forall row :: row in rows ==> row.key in keys && row.key in b.actions && row == b.OrphanRow(row.key))
    && (forall k :: k in keys ==> exists row :: row in rows && row.key == k)
  }

  /** The snapshot that recordStatus stores: the declared resources in order, then the orphans in any order. */
  ghost predicate IsRecorded(prev: Snapshot, desired: seq<Resource>, plan: seq<Action>, now: Time, commit: string,
                             snap: Snapshot) {
    var b := BasisOf(prev, plan, now);
    var n := |DesiredRows(desired, b)|;
    && snap == Snapshot(now, plan == [], true, commit, false, snap.rows)
    && n <= |snap.rows| && snap.rows[..n] == DesiredRows(desired, b)
    && AreOrphanRows(snap.rows[n..], OrphanKeys(desired, b), b)
  }

  /** recordError: the rows stay. */
  function Errored(snap: Snapshot, now: Time): Snapshot {
    snap.(updatedAt := now, inSync := false, configured := true, failed := true)
  }

  // ---------------------------------------------------------------- the events

  /** What the change of one row records. */
  function RowEvent(row: Row, states: map<Key, State>, commit: string): seq<Event> {
    if row.key in states && states[row.key] != row.state && row.state.Synced? then [Event(row.key, Resynced, commit)]
    else if (row.key !in states || states[row.key] != row.state) && row.state.OutOfSync? then [Event(row.key, Drifted, commit)]
    else []
  }

  function RowEvents(rows: seq<Row>, states: map<Key, State>, commit: string): seq<Event> {
    if rows == [] then []
    else RowEvents(rows[..|rows| - 1], states, commit) + RowEvent(rows[|rows| - 1], states, commit)
  }

  function RowKeys(rows: seq<Row>): set<Key> {
    if rows == [] then {} else RowKeys(rows[..|rows| - 1]) + {rows[|rows| - 1].key}
  }

  /** One removal for each of `keys`, in any order. */
  ghost predicate AreRemovals(events: seq<Event>, keys: set<Key>, commit: string) {
    && (forall i, j :: 0 <= i < j < |events| ==> events[i].key != events[j].key)
    && (forall e :: e in events ==> e.key in keys && e == Event(e.key, Removed, commit))
    && (forall k :: k in keys ==> Event(k, Removed, commit) in events)
  }

  /** The events of a pass: the rows' changes in order, then the removals in any order. */
  ghost predicate AreEvents(prev: Snapshot, snap: Snapshot, commit: string, events: seq<Event>) {
    var states := StateIndex(prev.rows);
    var n := |RowEvents(snap.rows, states, commit)|;
    && n <= |events| && events[..n] == RowEvents(snap.rows, states, commit)
    && AreRemovals(events[n..], states.Keys - RowKeys(snap.rows), commit)
  }

  // ---------------------------------------------------------------- what the maps mean

  lemma {:induction false} IndexMeaning(rows: seq<Row>, k: Key)
    ensures k in RowKeys(rows) <==> k in StateIndex(rows)
    ensures k in StateIndex(rows) <==> k in StampIndex(rows)
    ensures k in StateIndex(rows) <==> exists row :: row in rows && row.key == k
  {
    if rows != [] {
      var front, last := rows[..|rows| - 1], rows[|rows| - 1];
      assert rows == front + [last];
      IndexMeaning(front, k);
      assert last in rows;
    }
  }

  lemma {:induction false} IndexOfRow(rows: seq<Row>, row: Row)
    requires DistinctKeys(rows) && row in rows
    ensures row.key in StateIndex(rows) && row.key in StampIndex(rows)
    ensures StateIndex(rows)[row.key] == row.state && StampIndex(rows)[row.key] == row.lastTransition
  {
    var front, last := rows[..|rows| - 1], rows[|rows| - 1];
    assert rows == front + [last];
    if row in front {
      var i :| 0 <= i < |front| && front[i] == row;
      assert rows[i].key != last.key;
      IndexOfRow(front, row);
    }
  }

  lemma {:induction false} ActionIndexMeaning(plan: seq<Action>, k: Key)
    ensures k in ActionIndex(plan) <==> exists a :: a in plan && KeyOf(a) == k
    ensures k in ActionIndex(plan) ==> ActionIndex(plan)[k] in plan && KeyOf(ActionIndex(plan)[k]) == k
  {
    if plan != [] {
      var front, last := plan[..|plan| - 1], plan[|plan| - 1];
      assert plan == front + [last];
      ActionIndexMeaning(front, k);
      assert last in plan;
    }
  }

  lemma {:induction false} DesiredRowsMeaning(desired: seq<Resource>, b: Basis)
    ensures forall row :: row in DesiredRows(desired, b) <==> exists r :: r in desired && Reported(r.GetKind()) && row == b.DesiredRow(r)
  {
    if desired != [] {
      var front, last := desired[..|desired| - 1], desired[|desired| - 1];
      assert desired == front + [last];
      DesiredRowsMeaning(front, b);
      assert last in desired;
    }
  }

  lemma {:induction false} SeenMeaning(desired: seq<Resource>)
    ensures forall k :: k in SeenKeys(desired) <==> exists r :: r in desired && Reported(r.GetKind()) && k == ResourceKey(r)
  {
    if desired != [] {
      var front, last := desired[..|desired| - 1], desired[|desired| - 1];
      assert desired == front + [last];
      SeenMeaning(front);
      assert last in desired;
    }
  }

  /** The reported resources have pairwise distinct keys. */
  ghost predicate UniqueKeys(desired: seq<Resource>) {
    forall i, j :: 0 <= i < j < |desired| && Reported(desired[i].GetKind()) && Reported(desired[j].GetKind())
      ==> ResourceKey(desired[i]) != ResourceKey(desired[j])
  }

  lemma {:induction false} DesiredRowsDistinct(desired: seq<Resource>, b: Basis)
    requires UniqueKeys(desired)
    ensures DistinctKeys(DesiredRows(desired, b))
  {
    if desired != [] {
      var front, last := desired[..|desired| - 1], desired[|desired| - 1];
      DesiredRowsDistinct(front, b);
      DesiredRowsMeaning(front, b);
      forall row | row in DesiredRows(front, b) && Reported(last.GetKind())
        ensures row.key != b.DesiredRow(last).key
      {
        var r :| r in front && Reported(r.GetKind()) && row == b.DesiredRow(r);
        var i :| 0 <= i < |front| && front[i] == r;
        assert desired[i] == r;
      }
    }
  }

  /** The rows of a recorded snapshot: one for each declared resource and each orphaned action. */
  lemma RecordedRows(prev: Snapshot, desired: seq<Resource>, plan: seq<Action>, now: Time, commit: string,
                     snap: Snapshot)
    requires IsRecorded(prev, desired, plan, now, commit, snap)
    ensures var b := BasisOf(prev, plan, now);
            forall row :: row in snap.rows <==>
              || (exists r :: r in desired && Reported(r.GetKind()) && row == b.DesiredRow(r))
              || (row.key in OrphanKeys(desired, b) && row == b.OrphanRow(row.key))
    ensures UniqueKeys(desired) ==> DistinctKeys(snap.rows)
  {
    hide DesiredRows, OrphanKeys, BasisOf, UniqueKeys;
    var b := BasisOf(prev, plan, now);
    var n := |DesiredRows(desired, b)|;
    var orphans := snap.rows[n..];
    assert snap.rows == DesiredRows(desired, b) + orphans;
    DesiredRowsMeaning(desired, b);
    OrphansUnseen(desired, b);
    if UniqueKeys(desired) {
      DesiredRowsDistinct(desired, b);
      forall i, j | 0 <= i < n && 0 <= j < |orphans|
        ensures snap.rows[i].key != orphans[j].key
      {
        assert snap.rows[i] in DesiredRows(desired, b) && orphans[j] in orphans;
      }
    }
  }

  lemma OrphansUnseen(desired: seq<Resource>, b: Basis)
    ensures forall k :: k in OrphanKeys(desired, b) <==>
              k in b.actions && Reported(k.kind) && !(exists r :: r in desired && Reported(r.GetKind()) && k == ResourceKey(r))
  {
    SeenMeaning(desired);
  }
}
