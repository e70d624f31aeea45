/** The engine: one pass plans, records the status and its history, and hands the actions to the dispatcher. */
module Engines {
  import opened Prelude
  import opened Proxmox
  import opened Manifest
  import opened Cluster
  import opened Policy
  import opened StatusRows
  import opened StatusHistory
  import Convergence
  import Controller
  import Dispatch
  import GuestPlanner
  import TemplatePlanner
  import IsoPlanner
  import Plans

  /** The combined plan of the three reconcilers; any failure fails it. */
  function FullPlan(site: Site, desired: seq<Resource>, obsT: Result<seq<Object>>, obsG: Result<seq<Object>>,
                    list: IsoPlanner.Listing): Result<seq<Action>>
  {
    match (obsT, obsG, IsoPlanner.IsoPlan(IsoPlanner.Isos(desired), list))
    case (Ok(t), Ok(g), Ok(isoPlan)) => Ok(Convergence.JointPlan(site, desired, t, g) + isoPlan)
    case _ => Err
  }

  /** Every declared ISO is listed at its place. */
  ghost predicate IsosPresent(desired: seq<Resource>, list: IsoPlanner.Listing) {
    forall iso :: IsoImage(iso) in desired ==> IsoPlanner.IsPresent(iso, list)
  }

  /** The combined plan is empty exactly when the guests are in sync with the declarations and every ISO is there. */
  lemma FullPlanEmptyExactly(site: Site, desired: seq<Resource>, obsT: seq<Object>, obsG: seq<Object>,
                             list: IsoPlanner.Listing, guests: Guests)
    requires Plans.DistinctVMIDs(desired) && Lists(obsT, guests) && Lists(obsG, guests)
    ensures FullPlan(site, desired, Ok(obsT), Ok(obsG), list) == Ok([])
       <==> Plans.InSync(site, desired, guests) && IsosPresent(desired, list)
  {
    hide Plans.InSync, TemplatePlanner.TemplatePlan, GuestPlanner.GuestPlan;
    Plans.EmptyPlanExactly(site, desired, obsT, obsG, guests);
    IsoPlanner.IsosMeaning(desired);
    IsoPlanner.EmptyIsoPlanExactly(IsoPlanner.Isos(desired), list);
  }

  /** The pass fails exactly when a guest listing fails or some declared ISO's place cannot be listed. */
  lemma FullPlanFailsExactly(site: Site, desired: seq<Resource>, obsT: Result<seq<Object>>, obsG: Result<seq<Object>>,
                             list: IsoPlanner.Listing)
    ensures FullPlan(site, desired, obsT, obsG, list).Err?
       <==> obsT.Err? || obsG.Err? || exists iso :: IsoImage(iso) in desired && list(IsoPlanner.PlaceOf(iso)).Err?
  {
    IsoPlanner.IsosMeaning(desired);
    IsoPlanner.IsoPlanFailsExactly(IsoPlanner.Isos(desired), list);
  }

  /** computePlan */
  method ComputePlan(site: Site, source: Result<seq<Resource>>, obsT: Result<seq<Object>>, obsG: Result<seq<Object>>,
                     list: IsoPlanner.Listing)
    returns (plan: Result<seq<Action>>)
    ensures plan == if source.Ok? then FullPlan(site, source.value, obsT, obsG, list) else Err
  {
    if source.Err? {
      return Err;
    }
    var desired := source.value;
    var full := TemplatePlanner.Plan(desired, obsT);
    if full.Err? {
      return Err;
    }
    var guests := GuestPlanner.Plan(site, desired, obsG);
    if guests.Err? {
      return Err;
    }
    var isos, _ := IsoPlanner.Plan(desired, list);
    if isos.Err? {
      return Err;
    }
    plan := Ok(full.value + guests.value + isos.value);
  }

  // ---------------------------------------------------------------- the kinds of planned actions

  lemma {:induction false} IsoKinds(isos: seq<Iso>, list: IsoPlanner.Listing)
    ensures var p := IsoPlanner.IsoPlan(isos, list); p.Ok? ==> forall a :: a in p.value ==> Planned(a)
  {
    if isos != [] {
      IsoKinds(isos[..|isos| - 1], list);
    }
  }

  lemma {:induction false} TemplateKinds(tpls: seq<Template>, observed: map<int, Object>)
    ensures forall a :: a in TemplatePlanner.TemplateSteps(tpls, observed) ==> Planned(a)
  {
    hide TemplatePlanner.BuildSpec;
    if tpls != [] {
      TemplateKinds(tpls[..|tpls| - 1], observed);
    }
  }

  lemma {:induction false} OrphanKinds(observed: seq<Object>, declared: set<int>)
    ensures forall a :: a in GuestPlanner.OrphanSteps(observed, declared) ==> Planned(a)
    ensures forall a :: a in TemplatePlanner.PruneSteps(observed, declared) ==> Planned(a)
  {
    if observed != [] {
      OrphanKinds(observed[..|observed| - 1], declared);
    }
  }

  lemma VmKind(site: Site, vm: VirtualMachine, obs: Option<Object>, ready: set<int>, names: map<string, int>)
    ensures forall a :: a in GuestPlanner.VmStep(site, vm, obs, ready, names) ==> Planned(a)
  {
  }

  lemma {:induction false} VmKinds(site: Site, order: seq<int>, vms: map<int, VirtualMachine>,
                                   observed: map<int, Object>,
                                   ready: set<int>, names: map<string, int>)
    requires forall v :: v in order ==> v in vms
    ensures forall a :: a in GuestPlanner.VmSteps(site, order, vms, observed, ready, names) ==> Planned(a)
  {
    hide GuestPlanner.VmStep;
    if order != [] {
      var v := order[|order| - 1];
      VmKinds(site, order[..|order| - 1], vms, observed, ready, names);
      VmKind(site, vms[v], if v in observed then Some(observed[v]) else None, ready, names);
    }
  }

  /** All actions of a plan are of reported kinds. */
  lemma PlanKinds(site: Site, desired: seq<Resource>, obsT: Result<seq<Object>>, obsG: Result<seq<Object>>,
                  list: IsoPlanner.Listing)
    requires FullPlan(site, desired, obsT, obsG, list).Ok?
    ensures forall a :: a in FullPlan(site, desired, obsT, obsG, list).value ==> Planned(a)
  {
    var vms, tpls := VMs(desired), Templates(desired);
    GuestPlanner.OrderIndexed(vms);
    IsoKinds(IsoPlanner.Isos(desired), list);
    TemplateKinds(tpls, TemplatePlanner.ByVMID(obsT.value));
    OrphanKinds(obsT.value, GuestPlanner.TemplateVMIDs(tpls));
    OrphanKinds(obsG.value, GuestPlanner.VmIndex(vms).Keys + GuestPlanner.TemplateVMIDs(tpls));
    VmKinds(site, GuestPlanner.Order(vms), GuestPlanner.VmIndex(vms), GuestPlanner.ObservedVMs(obsG.value),
            GuestPlanner.ReadyTemplates(obsG.value), GuestPlanner.TemplateIndex(tpls));
  }

  /** The status of a pass over the cluster agrees with its plan. */
  lemma ScanStatusAgrees(site: Site, desired: seq<Resource>, obsT: Result<seq<Object>>, obsG: Result<seq<Object>>,
                         list: IsoPlanner.Listing, prev: Snapshot, now: Time, commit: string, snap: Snapshot)
    requires FullPlan(site, desired, obsT, obsG, list).Ok? && UniqueKeys(desired)
    requires IsRecorded(prev, desired, FullPlan(site, desired, obsT, obsG, list).value, now, commit, snap)
    ensures Agrees(desired, FullPlan(site, desired, obsT, obsG, list).value, snap)
  {
    hide FullPlan, IsRecorded, UniqueKeys, Agrees;
    PlanKinds(site, desired, obsT, obsG, list);
    StatusAgrees(prev, desired, FullPlan(site, desired, obsT, obsG, list).value, now, commit, snap);
  }

  // ---------------------------------------------------------------- submissions

  function SubmitAll(site: Site, p: Dispatch.Pool, actions: seq<Action>): Dispatch.Pool {
    if actions == [] then p
    else Dispatch.Submitted(site, SubmitAll(site, p, actions[..|actions| - 1]), actions[|actions| - 1])
  }

  lemma SubmitNext(site: Site, p: Dispatch.Pool, actions: seq<Action>, a: Action)
    ensures SubmitAll(site, p, actions + [a]) == Dispatch.Submitted(site, SubmitAll(site, p, actions), a)
  {
  }

  /** The actions at `picks` are in flight, each with its whole program before it, numbered from `first` on. */
  ghost predicate Accepted(site: Site, q: Dispatch.Pool, actions: seq<Action>, picks: seq<nat>, first: nat) {
    && Convergence.Picks(picks, |actions|) && q.next == first + |picks|
    && (forall id :: id in q.jobs <==> first <= id < q.next)
    && (forall id :: first <= id < q.next ==>
          q.jobs[id] == Dispatch.Job(actions[picks[id - first]], Program(site, actions[picks[id - first]].apply), Dispatch.Applying))
  }

  /** What a pass over an idle dispatcher starts: some of its actions, in order, and at least one if there are any. */
  lemma {:induction false} AcceptedPicks(site: Site, p: Dispatch.Pool, actions: seq<Action>) returns (picks: seq<nat>)
    requires Dispatch.SlotsAndKeys(p) && p.jobs == map[] && p.limit > 0
    ensures Dispatch.SlotsAndKeys(SubmitAll(site, p, actions)) && SubmitAll(site, p, actions).limit == p.limit
    ensures Accepted(site, SubmitAll(site, p, actions), actions, picks, p.next)
  {
    hide Program, Dispatch.SlotsAndKeys;
    if actions == [] {
      picks := [];
    } else {
      var front, a := actions[..|actions| - 1], actions[|actions| - 1];
      var before := AcceptedPicks(site, p, front);
      var q := SubmitAll(site, p, front);
      Dispatch.SubmitSlots(site, q, a);
      var r := Dispatch.Submitted(site, q, a);
      if r == q {
        picks := before;
        SomethingAccepted(site, p, q, front, before, a);
      } else {
        picks := before + [|front|];
      }
    }
  }

  lemma SomethingAccepted(site: Site, p: Dispatch.Pool, q: Dispatch.Pool, front: seq<Action>, picks: seq<nat>,
                          a: Action)
    requires Dispatch.SlotsAndKeys(q) && q.limit > 0 && Accepted(site, q, front, picks, p.next)
    requires Dispatch.Submitted(site, q, a) == q
    ensures picks != []
  {
  }

  // ---------------------------------------------------------------- a scan in the whole loop

  lemma {:induction false} IsosDownload(isos: seq<Iso>, list: IsoPlanner.Listing)
    requires IsoPlanner.IsoPlan(isos, list).Ok?
    ensures forall a :: a in IsoPlanner.IsoPlan(isos, list).value ==> a.apply.DownloadISO?
  {
    if isos != [] {
      IsosDownload(isos[..|isos| - 1], list);
    }
  }

  lemma {:induction false} SubmitAllCons(site: Site, p: Dispatch.Pool, a: Action, rest: seq<Action>)
    ensures SubmitAll(site, p, [a] + rest) == SubmitAll(site, Dispatch.Submitted(site, p, a), rest)
  {
    hide Dispatch.Submitted;
    if rest == [] {
      assert [a] + rest == [] + [a];
      SubmitNext(site, p, [], a);
    } else {
      var front, last := rest[..|rest| - 1], rest[|rest| - 1];
      SubmitAllCons(site, p, a, front);
      assert [a] + rest == ([a] + front) + [last] && rest == front + [last];
      SubmitNext(site, p, [a] + front, last);
      SubmitNext(site, Dispatch.Submitted(site, p, a), front, last);
    }
  }

  /** The loop's state after it has submitted everything that is queued. */
  ghost function SubmitQueue(site: Site, s: Controller.Sys): Controller.Sys
    requires s.stage.Submitting?
    decreases |s.stage.queue|
  {
    if s.stage.queue == [] then s else SubmitQueue(site, Controller.Moved(site, s, Controller.SubmitNext))
  }

  lemma {:induction false} QueueSubmitted(site: Site, s: Controller.Sys)
    requires s.stage.Submitting?
    ensures SubmitQueue(site, s)
         == Controller.Sys(SubmitAll(site, s.pool, s.stage.queue), s.world, Controller.Submitting([]))
    decreases |s.stage.queue|
  {
    hide Dispatch.Submitted;
    var q := s.stage.queue;
    if q != [] {
      assert q == [q[0]] + q[1..];
      SubmitAllCons(site, s.pool, q[0], q[1..]);
      QueueSubmitted(site, Controller.Moved(site, s, Controller.SubmitNext));
    }
  }

  /** What a scan submits is what the moves of a scan submit in the whole loop, when nothing comes between them. */
  lemma ScanIsMoves(site: Site, s: Controller.Sys, desired: seq<Resource>, obsT: seq<Object>, obsG: seq<Object>,
                    list: IsoPlanner.Listing, opts: Options, commit: string)
    returns (m1: Controller.Move, s1: Controller.Sys, m2: Controller.Move, s2: Controller.Sys)
    requires s.stage == Controller.Submitting([]) && Lists(obsT, s.world.guests) && Lists(obsG, s.world.guests)
    requires FullPlan(site, desired, Ok(obsT), Ok(obsG), list).Ok?
    ensures Controller.CanMove(s, m1) && s1 == Controller.Moved(site, s, m1)
    ensures Controller.CanMove(s1, m2) && s2 == Controller.Moved(site, s1, m2) && s2.stage.Submitting?
    ensures (var plan := FullPlan(site, desired, Ok(obsT), Ok(obsG), list).value;
             SubmitQueue(site, s2)
             == s.(pool := SubmitAll(site, s.pool, Dispatched(opts, commit, plan)), stage := Controller.Submitting([])))
  {
    hide TemplatePlanner.TemplatePlan, GuestPlanner.GuestPlan, IsoPlanner.IsoPlan, Dispatched, SubmitAll, Lists;
    var isoPlan := IsoPlanner.IsoPlan(IsoPlanner.Isos(desired), list).value;
    IsosDownload(IsoPlanner.Isos(desired), list);
    m1 := Controller.PlanTemplates(desired, obsT);
    s1 := Controller.Moved(site, s, m1);
    m2 := Controller.PlanGuests(obsG, isoPlan, opts, commit);
    s2 := Controller.Moved(site, s1, m2);
    QueueSubmitted(site, s2);
  }

  lemma {:induction false} DispatchedAppend(opts: Options, commit: string, a: seq<Action>, b: seq<Action>)
    ensures Dispatched(opts, commit, a + b) == Dispatched(opts, commit, a) + Dispatched(opts, commit, b)
  {
    if b == [] {
      assert a + b == a;
    } else {
      DispatchedAppend(opts, commit, a, b[..|b| - 1]);
      assert (a + b)[..|a + b| - 1] == a + b[..|b| - 1];
    }
  }

  lemma {:induction false} SubmitAllAppend(site: Site, p: Dispatch.Pool, a: seq<Action>, b: seq<Action>)
    ensures SubmitAll(site, p, a + b) == SubmitAll(site, SubmitAll(site, p, a), b)
  {
    hide Dispatch.Submitted;
    if b == [] {
      assert a + b == a;
    } else {
      SubmitAllAppend(site, p, a, b[..|b| - 1]);
      assert (a + b)[..|a + b| - 1] == a + b[..|b| - 1];
    }
  }

  /**
   What a scan submits to an idle dispatcher is a pass of the convergence theorem: a selection of the guest and template
   actions, at least one if there are any, each started with its whole program; the ISO downloads come after them.
   */
  lemma ScanIsPass(site: Site, desired: seq<Resource>, obsT: seq<Object>, obsG: seq<Object>, list: IsoPlanner.Listing,
                   commit: string, schedule: seq<nat>, p: Dispatch.Pool)
    returns (pass: Convergence.Pass, downloads: seq<Action>)
    requires FullPlan(site, desired, Ok(obsT), Ok(obsG), list).Ok?
    requires Dispatch.SlotsAndKeys(p) && p.jobs == map[] && p.limit > 0
    ensures pass.obsT == obsT && pass.obsG == obsG && pass.schedule == schedule
    ensures forall a :: a in downloads ==> a.apply.DownloadISO?
    ensures (var actions := Convergence.Submitted(site, desired, pass);
             var plan := FullPlan(site, desired, Ok(obsT), Ok(obsG), list).value;
             && Accepted(site, SubmitAll(site, p, actions), actions, pass.picks, p.next)
             && SubmitAll(site, p, Dispatched(Convergence.AUTO, commit, plan))
                == SubmitAll(site, SubmitAll(site, p, actions), downloads))
  {
    hide TemplatePlanner.TemplatePlan, GuestPlanner.GuestPlan, IsoPlanner.IsoPlan, Dispatched, SubmitAll, Accepted;
    hide Dispatch.SlotsAndKeys;
    var isoPlan := IsoPlanner.IsoPlan(IsoPlanner.Isos(desired), list).value;
    var joint := Convergence.JointPlan(site, desired, obsT, obsG);
    var actions := Dispatched(Convergence.AUTO, commit, joint);
    downloads := Dispatched(Convergence.AUTO, commit, isoPlan);
    IsosDownload(IsoPlanner.Isos(desired), list);
    forall a | a in downloads
      ensures a.apply.DownloadISO?
    {
      DispatchedExactly(Convergence.AUTO, commit, isoPlan, a);
    }
    var picks := AcceptedPicks(site, p, actions);
    pass := Convergence.Pass(obsT, obsG, commit, picks, schedule);
    DispatchedAppend(Convergence.AUTO, commit, joint, isoPlan);
    SubmitAllAppend(site, p, actions, downloads);
  }

  lemma DispatchedNext(opts: Options, commit: string, plan: seq<Action>, i: nat)
    requires i < |plan| && opts.autoSync
    ensures Dispatched(opts, commit, plan[..i + 1])
         == Dispatched(opts, commit, plan[..i])
            + if plan[i].informational || (plan[i].typ.ActionDelete? && !opts.prune) || opts.dryRun then []
              else [plan[i].(commit := commit)]
  {
    assert plan[..i + 1][..i] == plan[..i];
  }

  // ---------------------------------------------------------------- the loops of recordStatus

  lemma OrphanAdded(rows: seq<Row>, keys: set<Key>, b: Basis, k: Key)
    requires AreOrphanRows(rows, keys, b) && k !in keys && k in b.actions
    ensures AreOrphanRows(rows + [b.OrphanRow(k)], keys + {k}, b)
  {
  }

  lemma RemovalAdded(events: seq<Event>, keys: set<Key>, commit: string, k: Key)
    requires AreRemovals(events, keys, commit) && k !in keys
    ensures AreRemovals(events + [Event(k, Removed, commit)], keys + {k}, commit)
  {
  }

  method IndexPrevious(rows: seq<Row>) returns (states: map<Key, State>, stamps: map<Key, Time>)
    ensures states == StateIndex(rows) && stamps == StampIndex(rows)
  {
    states, stamps := map[], map[];
    for i := 0 to |rows|
      invariant states == StateIndex(rows[..i]) && stamps == StampIndex(rows[..i])
    {
      assert rows[..i + 1][..i] == rows[..i];
      stamps := stamps[rows[i].key := rows[i].lastTransition];
      states := states[rows[i].key := rows[i].state];
    }
    assert rows[..|rows|] == rows;
  }

  method IndexActions(plan: seq<Action>) returns (actions: map<Key, Action>)
    ensures actions == ActionIndex(plan)
  {
    actions := map[];
    for i := 0 to |plan|
      invariant actions == ActionIndex(plan[..i])
    {
      assert plan[..i + 1][..i] == plan[..i];
      actions := actions[KeyOf(plan[i]) := plan[i]];
    }
    assert plan[..|plan|] == plan;
  }

  method ListDesired(desired: seq<Resource>, b: Basis) returns (rows: seq<Row>, seen: set<Key>)
    ensures rows == DesiredRows(desired, b) && seen == SeenKeys(desired)
  {
    rows, seen := [], {};
    for i := 0 to |desired|
      invariant rows == DesiredRows(desired[..i], b) && seen == SeenKeys(desired[..i])
    {
      assert desired[..i + 1][..i] == desired[..i];
      var r := desired[i];
      if Reported(r.GetKind()) {
        var k := ResourceKey(r);
        seen := seen + {k};
        var row := Row(k, r.GetMeta().node, r.GetVMID(), Synced, None, 0);
        if k in b.actions {
          row := row.(state := OutOfSync, action := Some(b.actions[k].typ));
        }
        row := row.(lastTransition := b.Transition(k, row.state));
        rows := rows + [row];
      }
    }
    assert desired[..|desired|] == desired;
  }

  /** The loop over the action map, in whatever order it is walked. */
  method ListOrphans(desired: seq<Resource>, seen: set<Key>, b: Basis) returns (rows: seq<Row>)
    requires seen == SeenKeys(desired)
    ensures AreOrphanRows(rows, OrphanKeys(desired, b), b)
  {
    rows := [];
    var left := b.actions.Keys;
    while left != {}
      invariant left <= b.actions.Keys
      invariant AreOrphanRows(rows, OrphanKeys(desired, b) - left, b)
      decreases |left|
    {
      hide AreOrphanRows, SeenKeys;
      var k :| k in left;
      ghost var done := OrphanKeys(desired, b) - left;
      left := left - {k};
      if !(k in seen || !Reported(k.kind)) {
        OrphanAdded(rows, done, b, k);
        assert OrphanKeys(desired, b) - left == done + {k};
        rows := rows + [b.OrphanRow(k)];
      } else {
        assert OrphanKeys(desired, b) - left == done;
      }
    }
    assert OrphanKeys(desired, b) - left == OrphanKeys(desired, b);
  }

  method ListChanges(rows: seq<Row>, states: map<Key, State>, commit: string) returns (events: seq<Event>, current: set<Key>)
    ensures events == RowEvents(rows, states, commit) && current == RowKeys(rows)
  {
    events, current := [], {};
    for i := 0 to |rows|
      invariant events == RowEvents(rows[..i], states, commit) && current == RowKeys(rows[..i])
    {
      assert rows[..i + 1][..i] == rows[..i];
      var r := rows[i];
      current := current + {r.key};
      var existed := r.key in states;
      if existed && states[r.key] != r.state && r.state == Synced {
        events := events + [Event(r.key, Resynced, commit)];
      } else if (!existed || states[r.key] != r.state) && r.state == OutOfSync {
        events := events + [Event(r.key, Drifted, commit)];
      }
    }
    assert rows[..|rows|] == rows;
  }

  /** The loop over the previous states, in whatever order the map is walked. */
  method ListRemovals(states: map<Key, State>, current: set<Key>, commit: string) returns (events: seq<Event>)
    ensures AreRemovals(events, states.Keys - current, commit)
  {
    events := [];
    var left := states.Keys;
    while left != {}
      invariant left <= states.Keys
      invariant AreRemovals(events, states.Keys - current - left, commit)
      decreases |left|
    {
      hide AreRemovals;
      var k :| k in left;
      ghost var done := states.Keys - current - left;
      left := left - {k};
      if k !in current {
        RemovalAdded(events, done, commit, k);
        assert states.Keys - current - left == done + {k};
        events := events + [Event(k, Removed, commit)];
      } else {
        assert states.Keys - current - left == done;
      }
    }
    assert states.Keys - current - left == states.Keys - current;
  }

  // ---------------------------------------------------------------- the engine itself

  class Engine {
    const opts: Options
    // whether a status store and an event sink are attached
    const reporting: bool
    const recording: bool
    var snap: Snapshot
    var history: seq<Event>

    constructor (opts: Options, reporting: bool, recording: bool)
      ensures this.opts == opts && this.reporting == reporting && this.recording == recording
      ensures snap == EMPTY && history == []
    {
      this.opts, this.reporting, this.recording := opts, reporting, recording;
      snap, history := EMPTY, [];
    }

    /** What a pass leaves behind: a snapshot when a store is attached, and events when a sink is attached, too. */
    twostate predicate Leaves(p: Pass)
      reads this
    {
      && old(history) <= history
      && (reporting && recording ==> IsPass(p, old(snap), snap, history[|old(history)|..]))
      && (reporting && p.Scanned? ==> IsRecorded(old(snap), p.desired, p.plan, p.now, p.commit, snap))
      && (reporting && p.Aborted? ==> snap == Errored(old(snap), p.now))
      && (!reporting ==> snap == old(snap))
      && (!reporting || !recording ==> history == old(history))
    }

    method RecordStatus(desired: seq<Resource>, plan: seq<Action>, now: Time, commit: string)
      modifies this
      ensures Leaves(Scanned(desired, plan, now, commit))
    {
      hide StateIndex, StampIndex, ActionIndex, DesiredRows, SeenKeys, OrphanKeys, AreOrphanRows, RowEvents, RowKeys, AreRemovals;
      if !reporting {
        return;
      }
      var states, stamps := IndexPrevious(snap.rows);
      var actions := IndexActions(plan);
      var b := Basis(states, stamps, actions, now);
      var rows, seen := ListDesired(desired, b);
      var orphans := ListOrphans(desired, seen, b);
      assert (rows + orphans)[|rows|..] == orphans;
      snap := Snapshot(now, plan == [], true, commit, false, rows + orphans);
      if !recording {
        return;
      }
      var events, current := ListChanges(snap.rows, states, commit);
      var removals := ListRemovals(states, current, commit);
      assert (events + removals)[|events|..] == removals;
      history := history + (events + removals);
      assert history[|old(history)|..] == events + removals;
    }

    method RecordError(now: Time)
      modifies this
      ensures Leaves(Aborted(now))
    {
      if !reporting {
        return;
      }
      snap := snap.(updatedAt := now, inSync := false, configured := true, failed := true);
    }

    /** One pass. What the source and the cluster answer during the pass are parameters, and so is the clock. */
    method Scan(site: Site, source: Result<seq<Resource>>, obsT: Result<seq<Object>>, obsG: Result<seq<Object>>,
                list: IsoPlanner.Listing, now: Time, commit: string, d: Dispatch.Dispatcher)
      returns (ok: bool)
      requires d.Valid()
      modifies this, d
      ensures d.Valid() && (ok <==> source.Ok? && FullPlan(site, source.value, obsT, obsG, list).Ok?)
      ensures !ok ==> Leaves(Aborted(now)) && d.View() == old(d.View())
      ensures ok ==>
                var plan := FullPlan(site, source.value, obsT, obsG, list).value;
                && Leaves(Scanned(source.value, plan, now, commit))
                && d.View() == SubmitAll(site, old(d.View()), Dispatched(opts, commit, plan))
    {
      hide FullPlan, Dispatch.Submitted, Dispatch.SlotsAndKeys, Dispatch.History, IsRecorded, IsPass, Errored;
      var plan := ComputePlan(site, source, obsT, obsG, list);
      if plan.Err? {
        RecordError(now);
        return false;
      }
      RecordStatus(source.value, plan.value, now, commit);
      label Recorded:
      assert plan.value[..|plan.value|] == plan.value;
      if plan.value == [] || !opts.autoSync {
        return true;
      }
      var actions := plan.value;
      for i := 0 to |actions|
        invariant d.Valid() && snap == old@Recorded(snap) && history == old@Recorded(history)
        invariant d.View() == SubmitAll(site, old(d.View()), Dispatched(opts, commit, actions[..i]))
      {
        hide SubmitAll, Dispatched;
        var a := actions[i];
        DispatchedNext(opts, commit, actions, i);
        assert Dispatched(opts, commit, actions[..i]) + [] == Dispatched(opts, commit, actions[..i]);
        if a.informational {
        } else if a.typ.ActionDelete? && !opts.prune {
        } else if opts.dryRun {
        } else {
          SubmitNext(site, old(d.View()), Dispatched(opts, commit, actions[..i]), a.(commit := commit));
          d.Submit(site, a.(commit := commit));
        }
      }
      return true;
    }
  }
}
