/** The control loop settles: after boundedly many passes no action is left to dispatch. */
module Convergence {
  import opened Prelude
  import opened Proxmox
  import opened Manifest
  import opened Cluster
  import opened GuestPlanner
  import opened TemplatePlanner
  import opened Policy
  import opened Drift
  import opened Plans
  import opened Interleaving
  import opened Ranking
  import Naming
  import Text

  // Auto-sync and prune on, dry-run off.
  const AUTO := Options(true, false, true)

  function JointPlan(site: Site, desired: seq<Resource>, obsT: seq<Object>, obsG: seq<Object>): seq<Action> {
    TemplatePlan(desired, obsT) + GuestPlan(site, desired, obsG)
  }

  // ---------------------------------------------------------------- whom an action is about

  /** The clone sources of a pass: the declared templates that are ready. */
  function Sources(desired: seq<Resource>, guests: Guests): set<int> {
    TplVMIDs(desired) * Ready(guests)
  }

  /** The action's calls are about `v` alone, and copy ready declared templates only. */
  ghost predicate ActsOn(site: Site, desired: seq<Resource>, guests: Guests, a: Action, v: int) {
    && ApplyTarget(a.apply) == Some(v)
    && v in VmVMIDs(desired) + TplVMIDs(desired) + guests.Keys
    && v !in Sources(desired, guests)
    && About(Program(site, a.apply), v)
    && CopiesOnly(Program(site, a.apply), Sources(desired, guests))
  }

  lemma CreateOpsShape(site: Site, spec: GuestSpec, sources: set<int>)
    requires spec.clone.Some? ==> spec.clone.value.templateVMID in sources
    ensures About(CreateOps(site, spec), spec.vmid) && CopiesOnly(CreateOps(site, spec), sources)
  {
  }

  lemma BuildsShape(site: Site, spec: GuestSpec, sources: set<int>)
    requires spec.clone.Some? ==> spec.clone.value.templateVMID in sources
    ensures About(Program(site, CreateGuest(spec)), spec.vmid) && CopiesOnly(Program(site, CreateGuest(spec)), sources)
    ensures About(Program(site, BuildTemplate(spec)), spec.vmid) && CopiesOnly(Program(site, BuildTemplate(spec)), sources)
  {
    hide CreateOps;
    CreateOpsShape(site, spec, sources);
  }

  /** What a VM line runs: a create when the VM is absent and its template is ready, else calls on the VM itself. */
  lemma VmStepRuns(site: Site, vm: VirtualMachine, obs: Option<Object>, ready: set<int>, names: map<string, int>,
                   a: Action)
    requires obs.Some? ==> obs.value.vmid == vm.spec.vmid
    requires a in VmStep(site, vm, obs, ready, names) && !a.informational
    ensures ApplyTarget(a.apply) == Some(vm.spec.vmid)
    ensures a.apply.CreateGuest? ==>
              && a.apply.spec.vmid == vm.spec.vmid
              && (a.apply.spec.clone.Some? ==>
                    && vm.spec.fromTemplate.Some? && vm.spec.fromTemplate.value.name in names
                    && a.apply.spec.clone.value.templateVMID == names[vm.spec.fromTemplate.value.name]
                    && names[vm.spec.fromTemplate.value.name] in ready)
    ensures !a.apply.CreateGuest? ==>
              && About(Program(site, a.apply), vm.spec.vmid)
              && forall op :: op in Program(site, a.apply) ==> op.Source().None? && !op.Creates()
  {
    hide Naming.Tags, Naming.ParseCidataHash, CreateOps, GuestDrift;
  }

  lemma VmActionActs(site: Site, desired: seq<Resource>, guests: Guests, vm: VirtualMachine, a: Action)
    requires WellDeclared(desired) && vm in VMs(desired)
    requires a in VmActions(site, desired, guests, vm) && !a.informational
    ensures ActsOn(site, desired, guests, a, vm.spec.vmid)
  {
    hide VmStep, Program, Cluster.Observe;
    RankOfVm(site, desired, vm, None);
    VmStepRuns(site, vm, ObservedVm(guests, vm.spec.vmid), Ready(guests), TemplateIndex(Templates(desired)), a);
    if a.apply.CreateGuest? {
      if vm.spec.fromTemplate.Some? {
        NamesDeclared(desired, vm.spec.fromTemplate.value.name);
      }
      BuildsShape(site, a.apply.spec, Sources(desired, guests));
    }
  }

  /** What a template line runs: a build when the VMID is free, else the conversion. */
  lemma TemplateStepRuns(site: Site, tpl: Template, obs: Option<Object>, a: Action)
    requires a in TemplateStep(tpl, obs) && (obs.Some? ==> obs.value.vmid == tpl.spec.vmid)
    ensures !a.informational && ApplyTarget(a.apply) == Some(tpl.spec.vmid)
    ensures obs.Some? ==> !obs.value.isTemplate && a.apply == Apply.ConvertToTemplate(obs.value.node, tpl.spec.vmid)
    ensures obs.None? ==> a.apply.BuildTemplate? && a.apply.spec.vmid == tpl.spec.vmid && a.apply.spec.clone.None?
    ensures obs.Some? ==> About(Program(site, a.apply), tpl.spec.vmid) && CopiesOnly(Program(site, a.apply), {})
  {
  }

  lemma TemplateActionActs(site: Site, desired: seq<Resource>, guests: Guests, tpl: Template, a: Action)
    requires DistinctVMIDs(desired) && tpl in Templates(desired) && a in TemplateActions(guests, tpl)
    ensures ActsOn(site, desired, guests, a, tpl.spec.vmid)
  {
    hide TemplateStep, Program, Cluster.Observe;
    DeclaredApart(desired);
    TemplateStepRuns(site, tpl, ObservedGuest(guests, tpl.spec.vmid), a);
    if a.apply.BuildTemplate? {
      BuildsShape(site, a.apply.spec, Sources(desired, guests));
    }
  }

  /** The action acts on `v` alone, and its complete run brings `v` closer. */
  ghost predicate Helps(site: Site, desired: seq<Resource>, w: World, a: Action, v: int) {
    && ActsOn(site, desired, w.guests, a, v)
    && (RunAll(site, Program(site, a.apply), w).Some?
        ==> Lowers(site, desired, v, w, RunAll(site, Program(site, a.apply), w).value))
  }

  lemma VmHelps(site: Site, desired: seq<Resource>, w: World, vm: VirtualMachine, a: Action)
    requires site.Valid() && WellDeclared(desired) && Compatible(desired, w.guests) && vm in VMs(desired)
    requires a in VmActions(site, desired, w.guests, vm) && !a.informational
    ensures Helps(site, desired, w, a, vm.spec.vmid)
  {
    hide VmStep, TemplateStep, Program, RunAll, Lowers;
    VmActionActs(site, desired, w.guests, vm, a);
    var r := RunAll(site, Program(site, a.apply), w);
    if r.Some? {
      VmActionLowers(site, desired, vm, a, w, r.value);
    }
  }

  lemma OrphanRuns(desired: seq<Resource>, guests: Guests, v: int, a: Action)
    requires Compatible(desired, guests) && v in guests && a in OrphanActions(desired, guests, v)
    ensures a.apply == Apply.DeleteGuest(Observe(v, guests[v])) && ApplyTarget(a.apply) == Some(v)
    ensures v !in VmVMIDs(desired) && v !in TplVMIDs(desired)
  {
  }

  lemma OrphanHelps(site: Site, desired: seq<Resource>, w: World, v: int, a: Action)
    requires Compatible(desired, w.guests) && v in w.guests && a in OrphanActions(desired, w.guests, v)
    ensures Helps(site, desired, w, a, v)
  {
    hide Naming.Tags, Naming.ParseCidataHash, RunAll, Lowers;
    OrphanRuns(desired, w.guests, v, a);
    var r := RunAll(site, Program(site, a.apply), w);
    if r.Some? {
      OrphanActionLowers(site, desired, v, a, w, r.value);
    }
  }

  lemma TemplateHelps(site: Site, desired: seq<Resource>, w: World, tpl: Template, a: Action)
    requires DistinctVMIDs(desired) && Compatible(desired, w.guests) && tpl in Templates(desired)
    requires a in TemplateActions(w.guests, tpl)
    ensures Helps(site, desired, w, a, tpl.spec.vmid)
  {
    hide VmStep, TemplateStep, Program, RunAll, Lowers;
    TemplateActionActs(site, desired, w.guests, tpl, a);
    var r := RunAll(site, Program(site, a.apply), w);
    if r.Some? {
      TemplateActionLowers(site, desired, tpl, a, w, r.value);
    }
  }

  lemma TemplatePlanHelps(site: Site, desired: seq<Resource>, obs: seq<Object>, w: World, a: Action)
    requires DistinctVMIDs(desired) && Compatible(desired, w.guests) && Lists(obs, w.guests)
    requires a in TemplatePlan(desired, obs)
    ensures exists v :: Helps(site, desired, w, a, v)
  {
    hide VmStep, TemplateStep, Program, RunAll, Lowers, OrphanStep, PruneStep, Helps;
    TemplatePlanMembers(desired, obs, w.guests, a);
    if tpl :| tpl in Templates(desired) && a in TemplateActions(w.guests, tpl) {
      TemplateHelps(site, desired, w, tpl, a);
    } else {
      var v :| v in w.guests && a in PruneStep(Observe(v, w.guests[v]), TplVMIDs(desired));
      OrphanHelps(site, desired, w, v, a);
    }
  }

  lemma GuestPlanHelps(site: Site, desired: seq<Resource>, obs: seq<Object>, w: World, a: Action)
    requires site.Valid() && WellDeclared(desired) && Compatible(desired, w.guests) && Lists(obs, w.guests)
    requires a in GuestPlan(site, desired, obs) && !a.informational
    ensures exists v :: Helps(site, desired, w, a, v)
  {
    hide VmStep, TemplateStep, Program, RunAll, Lowers, OrphanStep, PruneStep, Helps;
    GuestPlanMembers(site, desired, obs, w.guests, a);
    if vm :| vm in VMs(desired) && a in VmActions(site, desired, w.guests, vm) {
      VmHelps(site, desired, w, vm, a);
    } else {
      var v :| v in w.guests && a in OrphanStep(Observe(v, w.guests[v]), VmVMIDs(desired) + TplVMIDs(desired));
      OrphanHelps(site, desired, w, v, a);
    }
  }

  // ---------------------------------------------------------------- no two actions of a plan share a VMID

  ghost predicate DistinctTargets(s: seq<Action>) {
    forall i, j :: 0 <= i < j < |s| && ApplyTarget(s[i].apply).Some? ==> ApplyTarget(s[i].apply) != ApplyTarget(s[j].apply)
  }

  predicate TargetsIn(s: seq<Action>, vs: set<int>) {
    forall a :: a in s && ApplyTarget(a.apply).Some? ==> ApplyTarget(a.apply).value in vs
  }

  lemma JoinTargets(s: seq<Action>, t: seq<Action>, vs: set<int>, us: set<int>)
    requires DistinctTargets(s) && DistinctTargets(t) && TargetsIn(s, vs) && TargetsIn(t, us) && vs !! us
    ensures DistinctTargets(s + t) && TargetsIn(s + t, vs + us)
  {
  }

  function Vmids(observed: seq<Object>): set<int> {
    set o | o in observed :: o.vmid
  }

  lemma {:induction false} OrphanTargets(observed: seq<Object>, declared: set<int>)
    requires forall i, j :: 0 <= i < j < |observed| ==> observed[i].vmid != observed[j].vmid
    ensures DistinctTargets(OrphanSteps(observed, declared)) && TargetsIn(OrphanSteps(observed, declared), Vmids(observed))
    ensures DistinctTargets(PruneSteps(observed, declared)) && TargetsIn(PruneSteps(observed, declared), Vmids(observed))
  {
    hide Naming.Tags, Naming.ParseCidataHash;
    if observed != [] {
      var front, o := observed[..|observed| - 1], observed[|observed| - 1];
      assert observed == front + [o];
      OrphanTargets(front, declared);
      assert o.vmid !in Vmids(front);
      JoinTargets(OrphanSteps(front, declared), OrphanStep(o, declared), Vmids(front), {o.vmid});
      JoinTargets(PruneSteps(front, declared), PruneStep(o, declared), Vmids(front), {o.vmid});
      assert Vmids(observed) == Vmids(front) + {o.vmid};
    }
  }

  lemma TemplateStepTargets(tpl: Template, obs: Option<Object>)
    requires obs.Some? ==> obs.value.vmid == tpl.spec.vmid
    ensures DistinctTargets(TemplateStep(tpl, obs)) && TargetsIn(TemplateStep(tpl, obs), {tpl.spec.vmid})
  {
  }

  lemma {:induction false} TemplateTargets(tpls: seq<Template>, observed: map<int, Object>)
    requires forall i, j :: 0 <= i < j < |tpls| ==> tpls[i].spec.vmid != tpls[j].spec.vmid
    requires forall v :: v in observed ==> observed[v].vmid == v
    ensures DistinctTargets(TemplateSteps(tpls, observed)) && TargetsIn(TemplateSteps(tpls, observed), TemplateVMIDs(tpls))
  {
    hide TemplateStep;
    if tpls != [] {
      var front, tpl := tpls[..|tpls| - 1], tpls[|tpls| - 1];
      assert tpls == front + [tpl];
      TemplateTargets(front, observed);
      TemplateVMIDsMeaning(front);
      assert tpl.spec.vmid !in TemplateVMIDs(front);
      var obs := if tpl.spec.vmid in observed then Some(observed[tpl.spec.vmid]) else None;
      TemplateStepTargets(tpl, obs);
      JoinTargets(TemplateSteps(front, observed), TemplateStep(tpl, obs), TemplateVMIDs(front), {tpl.spec.vmid});
      assert TemplateVMIDs(tpls) == TemplateVMIDs(front) + {tpl.spec.vmid};
    }
  }

  lemma VmStepTargets(site: Site, vm: VirtualMachine, obs: Option<Object>, ready: set<int>, names: map<string, int>)
    requires obs.Some? ==> obs.value.vmid == vm.spec.vmid
    ensures var s := VmStep(site, vm, obs, ready, names); DistinctTargets(s) && TargetsIn(s, {vm.spec.vmid})
  {
  }

  lemma {:induction false} VmTargets(site: Site, order: seq<int>, vms: map<int, VirtualMachine>,
                                     observed: map<int, Object>, ready: set<int>, names: map<string, int>)
    requires forall i, j :: 0 <= i < j < |order| ==> order[i] != order[j]
    requires forall v :: v in order ==> v in vms && vms[v].spec.vmid == v
    requires forall v :: v in observed ==> observed[v].vmid == v
    ensures DistinctTargets(VmSteps(site, order, vms, observed, ready, names))
    ensures TargetsIn(VmSteps(site, order, vms, observed, ready, names), set v | v in order)
  {
    hide Naming.Tags, Naming.ParseCidataHash, VmStep;
    if order != [] {
      var front, v := order[..|order| - 1], order[|order| - 1];
      assert order == front + [v];
      VmTargets(site, front, vms, observed, ready, names);
      var obs := if v in observed then Some(observed[v]) else None;
      VmStepTargets(site, vms[v], obs, ready, names);
      JoinTargets(VmSteps(site, front, vms, observed, ready, names), VmStep(site, vms[v], obs, ready, names),
                  set u | u in front, {v});
      assert (set u | u in order) == (set u | u in front) + {v};
    }
  }

  lemma GuestPlanTargets(site: Site, desired: seq<Resource>, obs: seq<Object>, guests: Guests)
    requires DistinctVMIDs(desired) && Lists(obs, guests)
    ensures DistinctTargets(GuestPlan(site, desired, obs))
  {
    var vms := VMs(desired);
    var order, idx, declared := Order(vms), VmIndex(vms), VmVMIDs(desired) + TplVMIDs(desired);
    VmIndexMeaning(vms);
    OrderIndexed(vms);
    ObservedVMsMeaning(obs);
    var steps := VmSteps(site, order, idx, ObservedVMs(obs), ReadyTemplates(obs), TemplateIndex(Templates(desired)));
    VmTargets(site, order, idx, ObservedVMs(obs), ReadyTemplates(obs), TemplateIndex(Templates(desired)));
    OrphanTargets(obs, declared);
    OrphansUndeclared(obs, declared);
    var vs := set v | v in order;
    JoinTargets(steps, OrphanSteps(obs, declared), vs, Vmids(obs) - declared);
  }

  lemma OrphansUndeclared(obs: seq<Object>, declared: set<int>)
    requires forall i, j :: 0 <= i < j < |obs| ==> obs[i].vmid != obs[j].vmid
    ensures TargetsIn(OrphanSteps(obs, declared), Vmids(obs) - declared)
    ensures TargetsIn(PruneSteps(obs, declared), Vmids(obs) - declared)
  {
  }

  lemma TemplatePlanTargets(desired: seq<Resource>, obs: seq<Object>, guests: Guests)
    requires DistinctVMIDs(desired) && Lists(obs, guests)
    ensures DistinctTargets(TemplatePlan(desired, obs))
  {
    ByVMIDMeaning(obs);
    TemplateTargets(Templates(desired), ByVMID(obs));
    OrphanTargets(obs, TplVMIDs(desired));
    OrphansUndeclared(obs, TplVMIDs(desired));
    JoinTargets(TemplateSteps(Templates(desired), ByVMID(obs)), PruneSteps(obs, TplVMIDs(desired)),
                TemplateVMIDs(Templates(desired)), Vmids(obs) - TplVMIDs(desired));
  }

  lemma TemplateTarget(guests: Guests, tpl: Template, a: Action)
    requires a in TemplateActions(guests, tpl)
    ensures ApplyTarget(a.apply) == Some(tpl.spec.vmid) && !a.informational
  {
  }

  lemma PruneTarget(v: int, g: Guest, declared: set<int>, a: Action)
    ensures a in PruneStep(Observe(v, g), declared) ==> ApplyTarget(a.apply) == Some(v) && g.isTemplate
    ensures a in OrphanStep(Observe(v, g), declared)
        ==> ApplyTarget(a.apply) == Some(v) && !g.isTemplate && v !in declared
  {
  }

  /** The targets of the template plan are declared templates or converted guests. */
  lemma TemplatePlanKind(desired: seq<Resource>, obs: seq<Object>, guests: Guests, a: Action)
    requires Compatible(desired, guests) && Lists(obs, guests) && a in TemplatePlan(desired, obs)
    ensures var t := ApplyTarget(a.apply);
            t.Some? && (t.value in TplVMIDs(desired) || (t.value in guests && guests[t.value].isTemplate && t.value !in VmVMIDs(desired)))
  {
    hide TemplateStep, Cluster.Observe;
    TemplateVMIDsMeaning(Templates(desired));
    TemplatePlanMembers(desired, obs, guests, a);
    if tpl :| tpl in Templates(desired) && a in TemplateActions(guests, tpl) {
      TemplateTarget(guests, tpl, a);
    } else {
      var v :| v in guests && a in PruneStep(Observe(v, guests[v]), TplVMIDs(desired));
      PruneTarget(v, guests[v], TplVMIDs(desired), a);
      assert Fits(desired, v, guests[v]);
    }
  }

  lemma VmTarget(site: Site, desired: seq<Resource>, guests: Guests, vm: VirtualMachine, a: Action)
    requires a in VmActions(site, desired, guests, vm)
    ensures ApplyTarget(a.apply) in {None, Some(vm.spec.vmid)}
  {
  }

  /** The targets of the guest plan are declared VMs or guests that are no template. */
  lemma GuestPlanKind(site: Site, desired: seq<Resource>, obs: seq<Object>, guests: Guests, a: Action)
    requires DistinctVMIDs(desired) && Lists(obs, guests) && a in GuestPlan(site, desired, obs)
    ensures var t := ApplyTarget(a.apply);
            t.Some? ==> t.value !in TplVMIDs(desired)
                        && (t.value in VmVMIDs(desired) || (t.value in guests && !guests[t.value].isTemplate))
  {
    hide VmStep, OrphanStep, Cluster.Observe;
    GuestPlanMembers(site, desired, obs, guests, a);
    DeclaredApart(desired);
    if vm :| vm in VMs(desired) && a in VmActions(site, desired, guests, vm) {
      VmTarget(site, desired, guests, vm, a);
    } else {
      var v :| v in guests && a in OrphanStep(Observe(v, guests[v]), VmVMIDs(desired) + TplVMIDs(desired));
      PruneTarget(v, guests[v], VmVMIDs(desired) + TplVMIDs(desired), a);
    }
  }

  lemma JointPlanTargets(site: Site, desired: seq<Resource>, obsT: seq<Object>, obsG: seq<Object>, guests: Guests)
    requires DistinctVMIDs(desired) && Compatible(desired, guests) && Lists(obsT, guests) && Lists(obsG, guests)
    ensures DistinctTargets(JointPlan(site, desired, obsT, obsG))
  {
    hide TemplatePlan, GuestPlan;
    var tp, gp := TemplatePlan(desired, obsT), GuestPlan(site, desired, obsG);
    TemplatePlanTargets(desired, obsT, guests);
    GuestPlanTargets(site, desired, obsG, guests);
    var ts := set a | a in tp && ApplyTarget(a.apply).Some? :: ApplyTarget(a.apply).value;
    var us := set a | a in gp && ApplyTarget(a.apply).Some? :: ApplyTarget(a.apply).value;
    forall v
      ensures !(v in ts && v in us)
    {
      if v in ts && v in us {
        var a :| a in tp && ApplyTarget(a.apply) == Some(v);
        var b :| b in gp && ApplyTarget(b.apply) == Some(v);
        TemplatePlanKind(desired, obsT, guests, a);
        GuestPlanKind(site, desired, obsG, guests, b);
        assert false;
      }
    }
    JoinTargets(tp, gp, ts, us);
  }

  lemma {:induction false} DispatchedTargets(commit: string, plan: seq<Action>)
    requires DistinctTargets(plan)
    ensures DistinctTargets(Dispatched(AUTO, commit, plan))
  {
    if plan != [] {
      var front, a := plan[..|plan| - 1], plan[|plan| - 1];
      DispatchedTargets(commit, front);
      var d := Dispatched(AUTO, commit, front);
      forall i | 0 <= i < |d| && ApplyTarget(d[i].apply).Some?
        ensures ApplyTarget(d[i].apply) != ApplyTarget(a.apply)
      {
        DispatchedExactly(AUTO, commit, front, d[i]);
        var b :| b in front && d[i] == b.(commit := commit);
        var k :| 0 <= k < |front| && front[k] == b;
        assert plan[k] == b;
      }
    }
  }

  // ---------------------------------------------------------------- one pass

  /**
   A pass: the listings the two reconcilers saw, which of the dispatched actions found room in the pool,
   and the order in which their API calls were made until all had finished.
   */
  datatype Pass = Pass(obsT: seq<Object>, obsG: seq<Object>, commit: string, picks: seq<nat>, schedule: seq<nat>)

  function Submitted(site: Site, desired: seq<Resource>, p: Pass): seq<Action> {
    Dispatched(AUTO, p.commit, JointPlan(site, desired, p.obsT, p.obsG))
  }

  ghost predicate Picks(picks: seq<nat>, n: nat) {
    && (forall i :: 0 <= i < |picks| ==> picks[i] < n)
    && (forall i, j :: 0 <= i < j < |picks| ==> picks[i] < picks[j])
    && (n > 0 ==> |picks| > 0)
  }

  function Programs(site: Site, s: seq<Action>, picks: seq<nat>): Jobs
    requires forall i :: 0 <= i < |picks| ==> picks[i] < |s|
  {
    seq(|picks|, i requires 0 <= i < |picks| => Program(site, s[picks[i]].apply))
  }

  /** A pass that starts with nothing in flight, in which every accepted action succeeds, and that waits for them. */
  ghost predicate ValidPass(site: Site, desired: seq<Resource>, w: World, p: Pass, w': World) {
    var s := Submitted(site, desired, p);
    && Lists(p.obsT, w.guests) && Lists(p.obsG, w.guests) && Picks(p.picks, |s|)
    && var end := Interleave(site, w, Programs(site, s, p.picks), p.schedule);
       end.Some? && end.value.world == w' && forall j :: j in end.value.jobs ==> j == []
  }

  function Targets(s: seq<Action>, picks: seq<nat>): seq<int>
    requires forall i :: 0 <= i < |picks| ==> picks[i] < |s| && ApplyTarget(s[picks[i]].apply).Some?
  {
    seq(|picks|, i requires 0 <= i < |picks| => ApplyTarget(s[picks[i]].apply).value)
  }

  /** Every accepted action of a pass helps its own VMID, alone. */
  lemma SubmittedHelps(site: Site, desired: seq<Resource>, w: World, p: Pass, a: Action)
    requires site.Valid() && WellDeclared(desired) && Compatible(desired, w.guests)
    requires Lists(p.obsT, w.guests) && Lists(p.obsG, w.guests) && a in Submitted(site, desired, p)
    ensures ApplyTarget(a.apply).Some? && Helps(site, desired, w, a, ApplyTarget(a.apply).value)
  {
    hide TemplatePlan, GuestPlan, Program, RunAll, Lowers;
    var plan := JointPlan(site, desired, p.obsT, p.obsG);
    DispatchedExactly(AUTO, p.commit, plan, a);
    var b :| b in plan && !b.informational && a == b.(commit := p.commit);
    if b in TemplatePlan(desired, p.obsT) {
      TemplatePlanHelps(site, desired, p.obsT, w, b);
    } else {
      GuestPlanHelps(site, desired, p.obsG, w, b);
    }
    var v :| Helps(site, desired, w, b, v);
    assert Helps(site, desired, w, a, v);
  }

  /** What a pass does to each VMID: the acted ones come closer, the others stay as they are. */
  lemma PassEffect(site: Site, desired: seq<Resource>, w: World, p: Pass, w': World)
    returns (targets: seq<int>)
    requires site.Valid() && WellDeclared(desired) && Compatible(desired, w.guests) && ValidPass(site, desired, w, p, w')
    ensures Submitted(site, desired, p) != [] ==> targets != []
    ensures Submitted(site, desired, p) == [] ==> targets == []
    ensures forall v :: v in targets ==>
              Lowers(site, desired, v, w, w') && v in VmVMIDs(desired) + TplVMIDs(desired) + w.guests.Keys
    ensures forall u :: u !in targets ==> Lookup(w'.guests, u) == Lookup(w.guests, u)
  {
    hide Interleave, Program, RunAll, Rank, Fits, JointPlan, Dispatched;
    var s := Submitted(site, desired, p);
    var jobs := Programs(site, s, p.picks);
    forall i | 0 <= i < |p.picks|
      ensures var a := s[p.picks[i]]; ApplyTarget(a.apply).Some? && Helps(site, desired, w, a, ApplyTarget(a.apply).value)
    {
      SubmittedHelps(site, desired, w, p, s[p.picks[i]]);
    }
    targets := Targets(s, p.picks);
    if |p.picks| > 0 {
      assert p.picks[0] < |s|;
    }
    JointPlanTargets(site, desired, p.obsT, p.obsG, w.guests);
    DispatchedTargets(p.commit, JointPlan(site, desired, p.obsT, p.obsG));
    InterleavedAsAlone(site, w, jobs, targets, Sources(desired, w.guests), p.schedule);
    forall v | v in targets
      ensures Lowers(site, desired, v, w, w') && v in VmVMIDs(desired) + TplVMIDs(desired) + w.guests.Keys
    {
      var i :| 0 <= i < |targets| && targets[i] == v;
      assert Helps(site, desired, w, s[p.picks[i]], v);
      assert LeavesAlone(site, jobs[i], targets[i], w, w');
    }
  }

  // ---------------------------------------------------------------- the measure

  /** The summed ranks of the VMIDs in `universe`. */
  function Measure(site: Site, desired: seq<Resource>, guests: Guests, universe: seq<int>): nat {
    if universe == [] then 0
    else Rank(site, desired, universe[0], Lookup(guests, universe[0])) + Measure(site, desired, guests, universe[1..])
  }

  ghost predicate Covers(universe: seq<int>, desired: seq<Resource>, guests: Guests) {
    forall v :: v in VmVMIDs(desired) + TplVMIDs(desired) + guests.Keys ==> v in universe
  }

  lemma {:induction false} MeasureLess(site: Site, desired: seq<Resource>, g: Guests, h: Guests, universe: seq<int>,
                                       low: set<int>)
    requires forall v :: v in low ==> Rank(site, desired, v, Lookup(h, v)) < Rank(site, desired, v, Lookup(g, v))
    requires forall u :: u !in low ==> Lookup(h, u) == Lookup(g, u)
    ensures Measure(site, desired, h, universe) <= Measure(site, desired, g, universe)
    ensures (exists v :: v in low && v in universe)
        ==> Measure(site, desired, h, universe) < Measure(site, desired, g, universe)
  {
    hide Rank;
    if universe != [] {
      assert universe == [universe[0]] + universe[1..];
      MeasureLess(site, desired, g, h, universe[1..], low);
    }
  }

  /** Nothing is dispatched, whatever the order in which the guests are listed. */
  ghost predicate Idle(site: Site, desired: seq<Resource>, guests: Guests) {
    forall obsT, obsG, commit :: Lists(obsT, guests) && Lists(obsG, guests)
      ==> Dispatched(AUTO, commit, JointPlan(site, desired, obsT, obsG)) == []
  }

  /** Whether a plan dispatches anything does not depend on the listing or the commit. */
  lemma IdleByOne(site: Site, desired: seq<Resource>, p: Pass, guests: Guests)
    requires DistinctVMIDs(desired) && Lists(p.obsT, guests) && Lists(p.obsG, guests)
    requires Submitted(site, desired, p) == []
    ensures Idle(site, desired, guests)
  {
    hide TemplatePlan, GuestPlan, VmStep, TemplateStep, OrphanStep, PruneStep;
    forall obsT, obsG, commit | Lists(obsT, guests) && Lists(obsG, guests)
      ensures Dispatched(AUTO, commit, JointPlan(site, desired, obsT, obsG)) == []
    {
      var d := Dispatched(AUTO, commit, JointPlan(site, desired, obsT, obsG));
      if d != [] {
        assert d[0] in d;
        DispatchedExactly(AUTO, commit, JointPlan(site, desired, obsT, obsG), d[0]);
        var b :| b in JointPlan(site, desired, obsT, obsG) && !b.informational;
        TemplatePlanMembers(desired, obsT, guests, b);
        TemplatePlanMembers(desired, p.obsT, guests, b);
        GuestPlanMembers(site, desired, obsG, guests, b);
        GuestPlanMembers(site, desired, p.obsG, guests, b);
        DispatchedExactly(AUTO, p.commit, JointPlan(site, desired, p.obsT, p.obsG), b.(commit := p.commit));
        assert false;
      }
    }
  }

  /** A pass that dispatches something lowers the measure; one that dispatches nothing changes no guest. */
  lemma PassLowers(site: Site, desired: seq<Resource>, w: World, p: Pass, w': World, universe: seq<int>)
    requires site.Valid() && WellDeclared(desired) && Compatible(desired, w.guests) && ValidPass(site, desired, w, p, w')
    requires Covers(universe, desired, w.guests)
    ensures Compatible(desired, w'.guests) && Covers(universe, desired, w'.guests)
    ensures Submitted(site, desired, p) != []
        ==> Measure(site, desired, w'.guests, universe) < Measure(site, desired, w.guests, universe)
    ensures Submitted(site, desired, p) == [] ==> w'.guests == w.guests
  {
    hide Rank, Interleave, Submitted, Measure;
    var targets := PassEffect(site, desired, w, p, w');
    var low := set v | v in targets;
    forall v | v in low
      ensures Rank(site, desired, v, Lookup(w'.guests, v)) < Rank(site, desired, v, Lookup(w.guests, v))
      ensures v in universe
    {
      assert Lowers(site, desired, v, w, w');
    }
    MeasureLess(site, desired, w.guests, w'.guests, universe, low);
    if targets != [] {
      var v := targets[0];
      assert v in low && v in universe;
    } else {
      SameGuests(w.guests, w'.guests);
    }
    PassFits(site, desired, w, w', targets, universe);
  }

  lemma PassFits(site: Site, desired: seq<Resource>, w: World, w': World, targets: seq<int>, universe: seq<int>)
    requires Compatible(desired, w.guests) && Covers(universe, desired, w.guests)
    requires forall v :: v in targets ==>
               Lowers(site, desired, v, w, w') && v in VmVMIDs(desired) + TplVMIDs(desired) + w.guests.Keys
    requires forall u :: u !in targets ==> Lookup(w'.guests, u) == Lookup(w.guests, u)
    ensures Compatible(desired, w'.guests) && Covers(universe, desired, w'.guests)
  {
    hide Rank, Fits;
    forall v | v in w'.guests
      ensures Fits(desired, v, w'.guests[v]) && v in universe
    {
      assert Lookup(w'.guests, v) == Some(w'.guests[v]);
      if v in targets {
        assert Lowers(site, desired, v, w, w');
      } else {
        assert Lookup(w.guests, v) == Some(w'.guests[v]);
      }
    }
  }

  /** A pass from an idle state changes nothing; any other pass lowers the measure. */
  lemma PassOutcome(site: Site, desired: seq<Resource>, w: World, p: Pass, w': World, universe: seq<int>)
    requires site.Valid() && WellDeclared(desired) && Compatible(desired, w.guests) && ValidPass(site, desired, w, p, w')
    requires Covers(universe, desired, w.guests)
    ensures Compatible(desired, w'.guests) && Covers(universe, desired, w'.guests)
    ensures if Idle(site, desired, w.guests) then w'.guests == w.guests
            else Measure(site, desired, w'.guests, universe) < Measure(site, desired, w.guests, universe)
  {
    hide Measure, Compatible, Covers, Interleave, JointPlan, Dispatched;
    PassLowers(site, desired, w, p, w', universe);
    if Submitted(site, desired, p) == [] {
      IdleByOne(site, desired, p, w.guests);
    }
  }

  lemma SameGuests(g: Guests, h: Guests)
    requires forall v :: Lookup(g, v) == Lookup(h, v)
    ensures g == h
  {
    forall v
      ensures v in g <==> v in h
      ensures v in g ==> g[v] == h[v]
    {
      assert Lookup(g, v) == Lookup(h, v);
    }
  }

  /** A run of passes over a fixed desired set, each waiting for its actions. */
  ghost predicate ValidRun(site: Site, desired: seq<Resource>, ws: seq<World>, ps: seq<Pass>) {
    && |ws| == |ps| + 1
    && forall i :: 0 <= i < |ps| ==> ValidPass(site, desired, ws[i], ps[i], ws[i + 1])
  }

  /** After i passes the loop is idle for good, or the measure has come down by i. */
  lemma {:induction false} RunDescends(site: Site, desired: seq<Resource>, ws: seq<World>, ps: seq<Pass>,
                                       universe: seq<int>, i: nat)
    requires site.Valid() && WellDeclared(desired) && ValidRun(site, desired, ws, ps)
    requires Compatible(desired, ws[0].guests) && Covers(universe, desired, ws[0].guests) && i <= |ps|
    ensures Compatible(desired, ws[i].guests) && Covers(universe, desired, ws[i].guests)
    ensures Idle(site, desired, ws[i].guests)
         || Measure(site, desired, ws[i].guests, universe) + i <= Measure(site, desired, ws[0].guests, universe)
    ensures i > 0 && Idle(site, desired, ws[i - 1].guests) ==> ws[i].guests == ws[i - 1].guests
  {
    hide Measure, Compatible, Covers, ValidPass, Idle;
    if i > 0 {
      RunDescends(site, desired, ws, ps, universe, i - 1);
      assert ValidPass(site, desired, ws[i - 1], ps[i - 1], ws[i - 1 + 1]);
      PassOutcome(site, desired, ws[i - 1], ps[i - 1], ws[i], universe);
    }
  }

  /** Once the passes have used up the initial rank, nothing is dispatched any more. */
  lemma IdleInTime(site: Site, desired: seq<Resource>, ws: seq<World>, ps: seq<Pass>, universe: seq<int>)
    requires site.Valid() && WellDeclared(desired) && ValidRun(site, desired, ws, ps)
    requires Compatible(desired, ws[0].guests) && Covers(universe, desired, ws[0].guests)
    requires Measure(site, desired, ws[0].guests, universe) < |ps|
    ensures Idle(site, desired, ws[Measure(site, desired, ws[0].guests, universe)].guests)
  {
    hide Measure, Compatible, Covers, ValidPass, Idle;
    var n := Measure(site, desired, ws[0].guests, universe);
    RunDescends(site, desired, ws, ps, universe, n);
    PassOutcome(site, desired, ws[n], ps[n], ws[n + 1], universe);
  }

  /**
   Convergence: within as many passes as the initial summed rank, the loop reaches a state in which no action
   is dispatched, and from there on the cluster does not change.
   */
  lemma {:induction false} Converges(site: Site, desired: seq<Resource>, ws: seq<World>, ps: seq<Pass>,
                                     universe: seq<int>, i: nat)
    requires site.Valid() && WellDeclared(desired) && ValidRun(site, desired, ws, ps)
    requires Compatible(desired, ws[0].guests) && Covers(universe, desired, ws[0].guests)
    requires Measure(site, desired, ws[0].guests, universe) < |ps|
    requires Measure(site, desired, ws[0].guests, universe) <= i <= |ps|
    ensures Idle(site, desired, ws[i].guests)
    ensures ws[i].guests == ws[Measure(site, desired, ws[0].guests, universe)].guests
    decreases i
  {
    hide Measure, Idle, Compatible, Covers, ValidPass;
    IdleInTime(site, desired, ws, ps, universe);
    if i > Measure(site, desired, ws[0].guests, universe) {
      Converges(site, desired, ws, ps, universe, i - 1);
      RunDescends(site, desired, ws, ps, universe, i);
    }
  }

  /** When every VM may be rebooted, the state the loop settles in is the declared one. */
  lemma IdleIsInSync(site: Site, desired: seq<Resource>, obsT: seq<Object>, obsG: seq<Object>, guests: Guests)
    requires DistinctVMIDs(desired) && Lists(obsT, guests) && Lists(obsG, guests) && Idle(site, desired, guests)
    requires forall vm :: vm in VMs(desired) ==> vm.spec.applyMode == APPLY_MODE_REBOOT
    ensures InSync(site, desired, guests)
  {
    var plan := JointPlan(site, desired, obsT, obsG);
    if plan != [] {
      var a := plan[0];
      assert a in plan;
      NoneInformational(site, desired, obsT, obsG, guests, a);
      DispatchedExactly(AUTO, "", plan, a.(commit := ""));
      assert false;
    }
    EmptyPlanExactly(site, desired, obsT, obsG, guests);
  }

  // ---------------------------------------------------------------- what the guests run with

  ghost predicate AllHonest(site: Site, desired: seq<Resource>, guests: Guests) {
    forall v :: Honest(site, desired, v, Lookup(guests, v))
  }

  lemma PassHonest(site: Site, desired: seq<Resource>, w: World, p: Pass, w': World)
    requires site.Valid() && WellDeclared(desired) && Compatible(desired, w.guests) && ValidPass(site, desired, w, p, w')
    requires AllHonest(site, desired, w.guests)
    ensures AllHonest(site, desired, w'.guests)
  {
    hide Honest, Rank, Fits, ValidPass, Submitted;
    var targets := PassEffect(site, desired, w, p, w');
    forall v
      ensures Honest(site, desired, v, Lookup(w'.guests, v))
    {
      assert Honest(site, desired, v, Lookup(w.guests, v));
      if v in targets {
        assert Lowers(site, desired, v, w, w');
      }
    }
  }

  lemma {:induction false} HonestInRun(site: Site, desired: seq<Resource>, ws: seq<World>, ps: seq<Pass>,
                                       universe: seq<int>, i: nat)
    requires site.Valid() && WellDeclared(desired) && ValidRun(site, desired, ws, ps)
    requires Compatible(desired, ws[0].guests) && Covers(universe, desired, ws[0].guests) && i <= |ps|
    requires AllHonest(site, desired, ws[0].guests)
    ensures AllHonest(site, desired, ws[i].guests)
  {
    hide AllHonest, Measure, Compatible, Covers, ValidPass, Idle;
    if i > 0 {
      HonestInRun(site, desired, ws, ps, universe, i - 1);
      RunDescends(site, desired, ws, ps, universe, i - 1);
      assert ValidPass(site, desired, ws[i - 1], ps[i - 1], ws[i - 1 + 1]);
      PassHonest(site, desired, ws[i - 1], ps[i - 1], ws[i]);
    }
  }

  /**
   Once the loop has settled, and reboots are allowed, every owned declared VM that runs was started with its declared
   user-data, provided no VM hid an unread seed at the start.
   */
  lemma SettledRunsDeclared(site: Site, desired: seq<Resource>, ws: seq<World>, ps: seq<Pass>, universe: seq<int>, i: nat,
                            vm: VirtualMachine)
    requires site.Valid() && WellDeclared(desired) && ValidRun(site, desired, ws, ps)
    requires Compatible(desired, ws[0].guests) && Covers(universe, desired, ws[0].guests)
    requires Measure(site, desired, ws[0].guests, universe) <= i < |ps|
    requires AllHonest(site, desired, ws[0].guests)
    requires forall vm :: vm in VMs(desired) ==> vm.spec.applyMode == APPLY_MODE_REBOOT
    requires vm in VMs(desired) && vm.spec.vmid in ws[i].guests && ws[i].guests[vm.spec.vmid].Owned()
    ensures var g := ws[i].guests[vm.spec.vmid];
            MatchesDeclared(vm, g) && SeedCurrent(site, vm, g) && StartedWithSeed(site, vm, g) && !RestartPending(g)
  {
    hide Measure, Compatible, Covers, Idle, WellDeclared, MatchesDeclared, SeedCurrent, StartedWithSeed, RestartPending, Honest;
    assert DistinctVMIDs(desired) by {
      WellDeclaredDistinct(desired);
    }
    Converges(site, desired, ws, ps, universe, i);
    HonestInRun(site, desired, ws, ps, universe, i);
    RunDescends(site, desired, ws, ps, universe, i);
    assert ValidPass(site, desired, ws[i], ps[i], ws[i + 1]);
    IdleIsInSync(site, desired, ps[i].obsT, ps[i].obsG, ws[i].guests);
    SettledVm(site, desired, ws[i].guests, vm);
  }

  lemma WellDeclaredDistinct(desired: seq<Resource>)
    requires WellDeclared(desired)
    ensures DistinctVMIDs(desired)
  {
  }

  lemma SettledVm(site: Site, desired: seq<Resource>, guests: Guests, vm: VirtualMachine)
    requires DistinctVMIDs(desired) && InSync(site, desired, guests) && Compatible(desired, guests)
    requires AllHonest(site, desired, guests)
    requires vm in VMs(desired) && vm.spec.vmid in guests && guests[vm.spec.vmid].Owned()
    ensures var g := guests[vm.spec.vmid];
            MatchesDeclared(vm, g) && SeedCurrent(site, vm, g) && StartedWithSeed(site, vm, g) && !RestartPending(g)
  {
    hide MatchesDeclared, SeedCurrent, StartedWithSeed, RestartPending, Honest;
    var v := vm.spec.vmid;
    DeclaredApart(desired);
    assert Fits(desired, v, guests[v]);
    assert VmSettled(site, desired, guests, vm);
    assert Honest(site, desired, v, Lookup(guests, v));
    HonestOfVm(site, desired, vm, guests[v]);
  }

  lemma NoneInformational(site: Site, desired: seq<Resource>, obsT: seq<Object>, obsG: seq<Object>, guests: Guests,
                          a: Action)
    requires DistinctVMIDs(desired) && Lists(obsT, guests) && Lists(obsG, guests)
    requires forall vm :: vm in VMs(desired) ==> vm.spec.applyMode == APPLY_MODE_REBOOT
    requires a in JointPlan(site, desired, obsT, obsG)
    ensures !a.informational
  {
    hide VmStep, TemplateStep, OrphanStep, PruneStep, Cluster.Observe;
    TemplatePlanMembers(desired, obsT, guests, a);
    GuestPlanMembers(site, desired, obsG, guests, a);
    if a in TemplatePlan(desired, obsT) {
      if tpl :| tpl in Templates(desired) && a in TemplateActions(guests, tpl) {
        TemplateTarget(guests, tpl, a);
      } else {
        var v :| v in guests && a in PruneStep(Observe(v, guests[v]), TplVMIDs(desired));
        DeletesApply(Observe(v, guests[v]), TplVMIDs(desired), a);
      }
    } else if vm :| vm in VMs(desired) && a in VmActions(site, desired, guests, vm) {
      RebootsApply(site, vm, ObservedVm(guests, vm.spec.vmid), Ready(guests), TemplateIndex(Templates(desired)), a);
    } else {
      var v :| v in guests && a in OrphanStep(Observe(v, guests[v]), VmVMIDs(desired) + TplVMIDs(desired));
      DeletesApply(Observe(v, guests[v]), VmVMIDs(desired) + TplVMIDs(desired), a);
    }
  }

  lemma RebootsApply(site: Site, vm: VirtualMachine, obs: Option<Object>, ready: set<int>, names: map<string, int>,
                     a: Action)
    requires vm.spec.applyMode == APPLY_MODE_REBOOT && a in VmStep(site, vm, obs, ready, names)
    ensures !a.informational
  {
  }

  lemma DeletesApply(o: Object, declared: set<int>, a: Action)
    requires a in PruneStep(o, declared) || a in OrphanStep(o, declared)
    ensures !a.informational
  {
  }
}
