/**
 Mutual exclusion per VMID. The dispatcher only keeps two actions with the same kind and name apart; that no
 two actions in flight write the same guest follows from how the planners name their actions.
 */
module Exclusion {
  import opened Prelude
  import opened Proxmox
  import opened Manifest
  import opened Cluster
  import opened GuestPlanner
  import opened TemplatePlanner
  import opened Policy
  import opened Dispatch
  import opened Controller
  import opened Confinement
  import opened Plans
  import Naming
  import Ranking
  import Text

  // ---------------------------------------------------------------- the one key of a VMID

  function TemplateNameAt(tpls: seq<Template>, v: int): string {
    if tpls == [] then ""
    else if tpls[|tpls| - 1].spec.vmid == v then tpls[|tpls| - 1].meta.name
    else TemplateNameAt(tpls[..|tpls| - 1], v)
  }

  /** The key under which the planners act on `v`: the declared name, or the name its guest has had from the start. */
  function SlotKey(desired: seq<Resource>, start: Guests, v: int): Key {
    if v in VmVMIDs(desired) then Key(KindVirtualMachine, VmIndex(VMs(desired))[v].meta.name)
    else if v in TplVMIDs(desired) then Key(KindTemplate, TemplateNameAt(Templates(desired), v))
    else if v in start then Key(if start[v].isTemplate then KindTemplate else KindVirtualMachine, start[v].name)
    else Key(KindVirtualMachine, "")
  }

  ghost predicate Keyed(desired: seq<Resource>, start: Guests, a: Action) {
    ApplyTarget(a.apply).Some? ==> KeyOf(a) == SlotKey(desired, start, ApplyTarget(a.apply).value)
  }

  /** No declared VM's VMID is held by a template, and undeclared guests are those of the start, with their names. */
  ghost predicate Familiar(desired: seq<Resource>, start: Guests, v: int, g: Guest) {
    && (v in VmVMIDs(desired) ==> !g.isTemplate)
    && (v !in VmVMIDs(desired) + TplVMIDs(desired) ==>
          v in start && g.name == start[v].name && g.isTemplate == start[v].isTemplate)
  }

  ghost predicate AllFamiliar(desired: seq<Resource>, start: Guests, guests: Guests) {
    forall v :: v in guests ==> Familiar(desired, start, v, guests[v])
  }

  /** Changes made behind the loop's back may do anything but rename guests or bring in unknown ones. */
  ghost predicate NamesStable(desired: seq<Resource>, start: Guests, moves: seq<Move>) {
    forall m :: m in moves && m.Operator? && m.guest.Some? ==> Familiar(desired, start, m.vmid, m.guest.value)
  }

  ghost predicate StageKeyed(desired: seq<Resource>, start: Guests, stage: Stage) {
    match stage
    case Listed(_, plan) => forall a :: a in plan ==> Keyed(desired, start, a)
    case Submitting(queue) => forall a :: a in queue ==> Keyed(desired, start, a)
  }

  ghost predicate AllKeyed(desired: seq<Resource>, start: Guests, s: Sys) {
    && (forall id :: id in s.pool.jobs ==> Keyed(desired, start, s.pool.jobs[id].action))
    && StageKeyed(desired, start, s.stage)
    && AllFamiliar(desired, start, s.world.guests)
  }

  // ---------------------------------------------------------------- planned actions use that key

  lemma {:induction false} TemplateNamed(tpls: seq<Template>, tpl: Template)
    requires tpl in tpls && forall i, j :: 0 <= i < j < |tpls| ==> tpls[i].spec.vmid != tpls[j].spec.vmid
    ensures TemplateNameAt(tpls, tpl.spec.vmid) == tpl.meta.name
  {
    var last := tpls[|tpls| - 1];
    assert tpls == tpls[..|tpls| - 1] + [last];
    if tpl != last {
      TemplateNamed(tpls[..|tpls| - 1], tpl);
    }
  }

  lemma VmLineKeyed(site: Site, desired: seq<Resource>, start: Guests, obs: seq<Object>, a: Action,
                    vm: VirtualMachine, o: Option<Object>)
    requires VmLine(site, desired, obs, a, vm, o)
    ensures Keyed(desired, start, a)
  {
  }

  lemma TemplateLineKeyed(site: Site, desired: seq<Resource>, start: Guests, obs: seq<Object>, a: Action,
                          tpl: Template, o: Option<Object>)
    requires DistinctVMIDs(desired) && TemplateLine(desired, obs, a, tpl, o)
    ensures Keyed(desired, start, a)
  {
    hide TemplateStep, ActionConfined, TemplateNameAt, SlotKey;
    TemplateLineConfined(site, desired, obs, a, tpl, o);
    Ranking.DeclaredApart(desired);
    TemplateNamed(Templates(desired), tpl);
    TemplateSlot(desired, start, tpl.spec.vmid);
  }

  lemma TemplateSlot(desired: seq<Resource>, start: Guests, v: int)
    requires v in TplVMIDs(desired) && v !in VmVMIDs(desired)
    ensures SlotKey(desired, start, v) == Key(KindTemplate, TemplateNameAt(Templates(desired), v))
  {
  }

  lemma DeleteKeyed(desired: seq<Resource>, start: Guests, guests: Guests, obs: seq<Object>, a: Action, o: Object)
    requires AllFamiliar(desired, start, guests) && Lists(obs, guests) && o in obs
    requires a in OrphanStep(o, VmVMIDs(desired) + TplVMIDs(desired)) || a in PruneStep(o, TplVMIDs(desired))
    ensures Keyed(desired, start, a)
  {
  }

  lemma TemplatePlanKeyed(site: Site, desired: seq<Resource>, start: Guests, guests: Guests, obs: seq<Object>,
                          a: Action)
    requires DistinctVMIDs(desired) && AllFamiliar(desired, start, guests) && Lists(obs, guests)
    requires a in TemplatePlan(desired, obs)
    ensures Keyed(desired, start, a)
  {
    hide Keyed, TemplateLine, PruneStep, AllFamiliar, Lists;
    TemplatePlanOrigin(desired, obs, a);
    if tpl, o :| TemplateLine(desired, obs, a, tpl, o) {
      TemplateLineKeyed(site, desired, start, obs, a, tpl, o);
    } else {
      var o :| o in obs && a in PruneStep(o, TplVMIDs(desired));
      DeleteKeyed(desired, start, guests, obs, a, o);
    }
  }

  lemma GuestPlanKeyed(site: Site, desired: seq<Resource>, start: Guests, guests: Guests, obs: seq<Object>, a: Action)
    requires AllFamiliar(desired, start, guests) && Lists(obs, guests) && a in GuestPlan(site, desired, obs)
    ensures Keyed(desired, start, a)
  {
    hide Keyed, VmLine, OrphanStep, AllFamiliar, Lists;
    GuestPlanOrigin(site, desired, obs, a);
    if vm, o :| VmLine(site, desired, obs, a, vm, o) {
      VmLineKeyed(site, desired, start, obs, a, vm, o);
    } else {
      var o :| o in obs && a in OrphanStep(o, VmVMIDs(desired) + TplVMIDs(desired));
      DeleteKeyed(desired, start, guests, obs, a, o);
    }
  }

  lemma QueueKeyed(site: Site, desired: seq<Resource>, start: Guests, s: Sys, m: Move)
    requires DistinctVMIDs(desired) && AllKeyed(desired, start, s)
    requires m.PlanGuests? && CanMove(s, m) && s.stage.desired == desired
    ensures StageKeyed(desired, start, Moved(site, s, m).stage)
  {
    hide GuestPlan, Dispatched, SlotKey, AllFamiliar;
    var plan := s.stage.templatePlan + GuestPlan(site, desired, m.observed) + m.isoPlan;
    forall a | a in Moved(site, s, m).stage.queue
      ensures Keyed(desired, start, a)
    {
      DispatchedExactly(m.opts, m.commit, plan, a);
      var b :| b in plan && !b.informational && a == b.(commit := m.commit);
      if b in GuestPlan(site, desired, m.observed) {
        GuestPlanKeyed(site, desired, start, s.world.guests, m.observed, b);
      }
    }
  }

  // ---------------------------------------------------------------- every move keeps guests and keys apart

  lemma DeclaredDisjoint(desired: seq<Resource>)
    requires DistinctVMIDs(desired)
    ensures VmVMIDs(desired) !! TplVMIDs(desired)
  {
    VmIndexMeaning(VMs(desired));
    TemplateVMIDsMeaning(Templates(desired));
    forall v | v in VmVMIDs(desired)
      ensures v !in TplVMIDs(desired)
    {
      var vm := VmIndex(VMs(desired))[v];
      assert vm in VMs(desired) && vm.spec.vmid == v;
    }
  }

  lemma CallFamiliar(site: Site, desired: seq<Resource>, start: Guests, t: Option<int>, op: Op, rest: seq<Op>,
                     w: World, outcome: Outcome)
    requires AllFamiliar(desired, start, w.guests) && OpConfined(desired, t, op) && DistinctVMIDs(desired)
    ensures AllFamiliar(desired, start, Cluster.Step(site, op, rest, w, outcome).world.guests)
  {
    hide Cluster.Step, VmVMIDs, TplVMIDs, DistinctVMIDs;
    DeclaredDisjoint(desired);
    var w' := Cluster.Step(site, op, rest, w, outcome).world;
    forall v | v in w'.guests
      ensures Familiar(desired, start, v, w'.guests[v])
    {
      StepAt(site, op, rest, w, outcome, v);
      if v in w.guests {
        assert Familiar(desired, start, v, w.guests[v]);
      }
    }
  }

  lemma KeyedNext(site: Site, desired: seq<Resource>, start: Guests, s: Sys, m: Move)
    requires DistinctVMIDs(desired) && Confined(site, desired, s) && AllKeyed(desired, start, s) && CanMove(s, m)
    requires m.PlanTemplates? ==> m.desired == desired
    requires m.Operator? && m.guest.Some? ==> Familiar(desired, start, m.vmid, m.guest.value)
    ensures AllKeyed(desired, start, Moved(site, s, m))
  {
    hide SlotKey, TemplatePlan, GuestPlan, Dispatched, Familiar, OpConfined, Cluster.Step, Program;
    match m
    case PlanTemplates(_, observed) =>
      forall a | a in TemplatePlan(desired, observed)
        ensures Keyed(desired, start, a)
      {
        TemplatePlanKeyed(site, desired, start, s.world.guests, observed, a);
      }
    case PlanGuests(_, _, _, _) => QueueKeyed(site, desired, start, s, m);
    case Background(step) =>
      if step.Call? {
        var j := s.pool.jobs[step.id];
        assert JobConfined(desired, j) && j.rest[0] in j.rest;
        CallFamiliar(site, desired, start, ApplyTarget(j.action.apply), j.rest[0], j.rest[1..], s.world, step.outcome);
      }
    case _ =>
  }

  /** A run over one desired set with distinct VMIDs, in which names stay as they are. */
  ghost predicate FixedRun(site: Site, desired: seq<Resource>, run: seq<Sys>, moves: seq<Move>) {
    && IsRun(site, run, moves) && Steady(desired, moves) && DistinctVMIDs(desired)
    && (forall v :: v in run[0].world.guests && v in VmVMIDs(desired) ==> !run[0].world.guests[v].isTemplate)
    && NamesStable(desired, run[0].world.guests, moves)
  }

  lemma {:induction false} KeyedInRun(site: Site, desired: seq<Resource>, run: seq<Sys>, moves: seq<Move>, i: nat)
    requires FixedRun(site, desired, run, moves) && i <= |moves|
    ensures AllKeyed(desired, run[0].world.guests, run[i])
  {
    hide AllKeyed, Confined, Moved, CanMove, Familiar, DistinctVMIDs;
    if i == 0 {
      StartKeyed(desired, run[0]);
    } else {
      KeyedInRun(site, desired, run, moves, i - 1);
      ConfinedInRun(site, desired, run, moves, i - 1);
      var m := moves[i - 1];
      assert m in moves;
      assert CanMove(run[i - 1], m) && run[i - 1 + 1] == Moved(site, run[i - 1], m);
      KeyedNext(site, desired, run[0].world.guests, run[i - 1], m);
    }
  }

  lemma StartKeyed(desired: seq<Resource>, s: Sys)
    requires Starts(s) && forall v :: v in s.world.guests && v in VmVMIDs(desired) ==> !s.world.guests[v].isTemplate
    ensures AllKeyed(desired, s.world.guests, s)
  {
  }

  /** At no time do two actions in flight address the same guest, now or in a call still to come. */
  lemma OneWriterPerGuest(site: Site, desired: seq<Resource>, run: seq<Sys>, moves: seq<Move>, i: nat, j1: nat, j2: nat)
    requires FixedRun(site, desired, run, moves) && i <= |moves|
    requires j1 in run[i].pool.jobs && j2 in run[i].pool.jobs && j1 != j2
    ensures var a1, a2 := run[i].pool.jobs[j1].action, run[i].pool.jobs[j2].action;
            ApplyTarget(a1.apply).Some? ==> ApplyTarget(a1.apply) != ApplyTarget(a2.apply)
    ensures forall op1, op2 :: op1 in run[i].pool.jobs[j1].rest && op2 in run[i].pool.jobs[j2].rest && op1.Target().Some?
              ==> op1.Target() != op2.Target()
  {
    hide SlotKey, VmVMIDs, TplVMIDs, DistinctVMIDs;
    KeyedInRun(site, desired, run, moves, i);
    ConfinedInRun(site, desired, run, moves, i);
    SlotsInRun(site, run, moves, i);
    var p := run[i].pool;
    assert Keyed(desired, run[0].world.guests, p.jobs[j1].action) && Keyed(desired, run[0].world.guests, p.jobs[j2].action);
    assert p.jobs[j1].GetKey() != p.jobs[j2].GetKey();
    assert JobConfined(desired, p.jobs[j1]) && JobConfined(desired, p.jobs[j2]);
  }

  // ---------------------------------------------------------------- without stable names

  function OrphanDelete(v: int, g: Guest): Action {
    Action(ActionDelete, KindVirtualMachine, g.name, Apply.DeleteGuest(Observe(v, g)), false, "")
  }

  function ScanMoves(v: int, g: Guest): seq<Move> {
    [PlanTemplates([], [Observe(v, g)]), PlanGuests([Observe(v, g)], [], Options(true, false, true), ""), SubmitNext]
  }

  lemma OrphanPlans(site: Site, v: int, g: Guest)
    requires g.kind.Qemu? && !g.isTemplate && g.Owned()
    ensures TemplatePlan([], [Observe(v, g)]) == [] && GuestPlan(site, [], [Observe(v, g)]) == [OrphanDelete(v, g)]
  {
    hide Naming.Tags, Naming.ParseCidataHash;
    var o := Observe(v, g);
    assert [o][..|[o]| - 1] == [] && [o][|[o]| - 1] == o;
    assert VMs([]) == [] && Templates([]) == [];
    assert OrphanStep(o, {}) == [OrphanDelete(v, g)];
    assert OrphanSteps([o], {}) == OrphanSteps([], {}) + OrphanStep(o, {});
    assert VmIndex([]).Keys + TemplateVMIDs([]) == {};
    assert Order([]) == [];
    assert PruneSteps([o], {}) == PruneSteps([], {}) + PruneStep(o, {}) == [];
    assert VmSteps(site, [], map[], ObservedVMs([o]), ReadyTemplates([o]), map[]) == [];
  }

  /** A scan that finds nothing declared and the single guest `g` submits its deletion. */
  lemma OrphanScan(site: Site, v: int, g: Guest, s: Sys) returns (s1: Sys, s2: Sys, s3: Sys)
    requires g.kind.Qemu? && !g.isTemplate && g.Owned()
    requires s.stage == Submitting([]) && s.world.guests == map[v := g]
    ensures var m := ScanMoves(v, g);
            && CanMove(s, m[0]) && s1 == Moved(site, s, m[0])
            && CanMove(s1, m[1]) && s2 == Moved(site, s1, m[1])
            && CanMove(s2, m[2]) && s3 == Moved(site, s2, m[2])
            && s3 == Sys(Submitted(site, s.pool, OrphanDelete(v, g)), s.world, Submitting([]))
  {
    hide Naming.Tags, Naming.ParseCidataHash, Submitted, TemplatePlan, GuestPlan;
    var o, m := Observe(v, g), ScanMoves(v, g);
    OrphanPlans(site, v, g);
    s1, s2 := Moved(site, s, m[0]), s.(stage := Submitting([OrphanDelete(v, g)]));
    assert Dispatched(Options(true, false, true), "", [OrphanDelete(v, g)]) == [OrphanDelete(v, g)];
    assert [] + [OrphanDelete(v, g)] + [] == [OrphanDelete(v, g)];
    s3 := Moved(site, s2, m[2]);
  }

  /** A guest renamed between two scans may be deleted by two actions at once: their keys differ. */
  lemma RenamedGuestTwice(site: Site, v: int, g: Guest, name: string) returns (run: seq<Sys>, moves: seq<Move>)
    requires g.kind.Qemu? && !g.isTemplate && g.Owned() && name != g.name
    ensures IsRun(site, run, moves) && Steady([], moves)
    ensures var jobs := run[|moves|].pool.jobs;
            && 0 in jobs && 1 in jobs
            && ApplyTarget(jobs[0].action.apply) == ApplyTarget(jobs[1].action.apply) == Some(v)
            && ReadGuest(Observe(v, g)) in jobs[0].rest && ReadGuest(Observe(v, g.(name := name))) in jobs[1].rest
  {
    hide Naming.Tags, Naming.ParseCidataHash, Moved, CanMove;
    var h := g.(name := name);
    var s0 := Sys(Fresh(2), World(map[v := g], {}), Submitting([]));
    var s1, s2, s3 := OrphanScan(site, v, g, s0);
    var s4 := Sys(s3.pool, World(map[v := h], {}), Submitting([]));
    RenameMove(site, v, g, h, s3);
    var s5, s6, s7 := OrphanScan(site, v, h, s4);
    run := [s0, s1, s2, s3, s4, s5, s6, s7];
    moves := ScanMoves(v, g) + [Operator(v, Some(h))] + ScanMoves(v, h);
    assert Starts(s0);
  }

  lemma RenameMove(site: Site, v: int, g: Guest, h: Guest, s: Sys)
    requires s.world == World(map[v := g], {})
    ensures CanMove(s, Operator(v, Some(h)))
    ensures Moved(site, s, Operator(v, Some(h))) == s.(world := World(map[v := h], {}))
  {
  }
}
