/** With a fixed desired set, every action keeps to its own VMID, however scans and API calls interleave. */
module Confinement {
  import opened Prelude
  import opened Proxmox
  import opened Manifest
  import opened Cluster
  import opened GuestPlanner
  import opened TemplatePlanner
  import opened Policy
  import opened Dispatch
  import opened Controller
  import opened Plans
  import Naming
  import Text

  /**
   A call of an action on `t`: it addresses `t` or no guest; it creates declared guests only, converts declared
   templates only, removes no declared template, and clones from declared templates only.
   */
  ghost predicate OpConfined(desired: seq<Resource>, t: Option<int>, op: Op) {
    && (op.Target().None? || op.Target() == t)
    && (op.Creates() ==> t.Some? && t.value in VmVMIDs(desired) + TplVMIDs(desired))
    && (op.Convert? ==> t.Some? && t.value in TplVMIDs(desired))
    && (op.Destroy? || op.ReadGuest? ==> t.Some? && t.value !in TplVMIDs(desired))
    && (op.Source().Some? ==> op.Source().value in TplVMIDs(desired))
  }

  ghost predicate OpsConfined(desired: seq<Resource>, t: Option<int>, ops: seq<Op>) {
    forall op :: op in ops ==> OpConfined(desired, t, op)
  }

  ghost predicate ActionConfined(site: Site, desired: seq<Resource>, a: Action) {
    OpsConfined(desired, ApplyTarget(a.apply), Program(site, a.apply))
  }

  ghost predicate JobConfined(desired: seq<Resource>, j: Job) {
    OpsConfined(desired, ApplyTarget(j.action.apply), j.rest)
  }

  ghost predicate StageConfined(site: Site, desired: seq<Resource>, stage: Stage) {
    match stage
    case Listed(d, plan) => d == desired && forall a :: a in plan ==> ActionConfined(site, desired, a)
    case Submitting(queue) => forall a :: a in queue ==> ActionConfined(site, desired, a)
  }

  ghost predicate Confined(site: Site, desired: seq<Resource>, s: Sys) {
    && (forall id :: id in s.pool.jobs ==> JobConfined(desired, s.pool.jobs[id]))
    && StageConfined(site, desired, s.stage)
  }

  /** The desired set stays the same over the run. */
  ghost predicate Steady(desired: seq<Resource>, moves: seq<Move>) {
    forall m :: m in moves && m.PlanTemplates? ==> m.desired == desired
  }

  // ---------------------------------------------------------------- planned actions are confined

  lemma CreateConfined(site: Site, desired: seq<Resource>, spec: GuestSpec)
    requires spec.vmid in VmVMIDs(desired) + TplVMIDs(desired)
    requires spec.clone.Some? ==> spec.clone.value.templateVMID in TplVMIDs(desired)
    ensures OpsConfined(desired, Some(spec.vmid), CreateOps(site, spec))
  {
    hide Naming.Tags, Naming.ParseCidataHash, Text.Join, Naming.IsoVolume, Naming.CidataFilename, VmVMIDs, TplVMIDs;
    var t := Some(spec.vmid);
    var head := if spec.clone.Some? then [CloneVm(spec), FinishClone(spec)]
                else [NewVm(spec)] + if spec.image.Some? then [ImportImage(spec)] else [];
    assert OpsConfined(desired, t, head);
    assert OpsConfined(desired, t, SeedOps(site, spec));
    assert OpsConfined(desired, t, PowerOps(spec));
    assert CreateOps(site, spec) == head + SeedOps(site, spec) + PowerOps(spec);
  }

  lemma DeleteConfined(site: Site, desired: seq<Resource>, a: Action, o: Object)
    requires a in OrphanStep(o, VmVMIDs(desired) + TplVMIDs(desired)) || a in PruneStep(o, TplVMIDs(desired))
    ensures a.apply == Apply.DeleteGuest(o) && o.vmid !in TplVMIDs(desired) && ActionConfined(site, desired, a)
  {
  }

  /** What a VM line runs besides a create: calls on the VM that neither create, convert nor remove it. */
  lemma VmLineRuns(site: Site, vm: VirtualMachine, o: Option<Object>, ready: set<int>, names: map<string, int>,
                   a: Action)
    requires a in VmStep(site, vm, o, ready, names) && (o.Some? ==> o.value.vmid == vm.spec.vmid)
    ensures a.apply.NoApply? || ApplyTarget(a.apply) == Some(vm.spec.vmid)
    ensures KeyOf(a) == Key(KindVirtualMachine, vm.meta.name)
    ensures a.apply.CreateGuest? <==> o.None? && DesiredSpec(vm, names).Some?
    ensures a.apply.CreateGuest? ==>
              DesiredSpec(vm, names) == Some(a.apply.spec)
              && (vm.spec.fromTemplate.Some? ==> names[vm.spec.fromTemplate.value.name] in ready)
    ensures !a.apply.CreateGuest? ==> forall op :: op in Program(site, a.apply) ==>
              (op.Target() == Some(vm.spec.vmid) && op.Source().None? && !op.Creates() && !op.Convert? && !op.Destroy? && !op.ReadGuest?)
  {
  }

  lemma VmLineConfined(site: Site, desired: seq<Resource>, obs: seq<Object>, a: Action, vm: VirtualMachine,
                       o: Option<Object>)
    requires VmLine(site, desired, obs, a, vm, o)
    ensures ActionConfined(site, desired, a)
  {
    hide VmStep, VMs, VmIndex, OpConfined;
    var v, names := vm.spec.vmid, TemplateIndex(Templates(desired));
    VmLineRuns(site, vm, o, ReadyTemplates(obs), names, a);
    if a.apply.CreateGuest? {
      if vm.spec.fromTemplate.Some? {
        NamesDeclared(desired, vm.spec.fromTemplate.value.name);
      }
      CreateConfined(site, desired, a.apply.spec);
    } else {
      forall op | op in Program(site, a.apply)
        ensures OpConfined(desired, Some(v), op)
      {
        QuietConfined(desired, v, op);
      }
    }
  }

  lemma QuietConfined(desired: seq<Resource>, v: int, op: Op)
    requires op.Target() == Some(v) && op.Source().None? && !op.Creates() && !op.Convert? && !op.Destroy? && !op.ReadGuest?
    ensures OpConfined(desired, Some(v), op)
  {
  }

  lemma TemplateLineConfined(site: Site, desired: seq<Resource>, obs: seq<Object>, a: Action, tpl: Template,
                             o: Option<Object>)
    requires TemplateLine(desired, obs, a, tpl, o)
    ensures ActionConfined(site, desired, a)
    ensures ApplyTarget(a.apply) == Some(tpl.spec.vmid) && KeyOf(a) == Key(KindTemplate, tpl.meta.name)
    ensures tpl.spec.vmid in TplVMIDs(desired)
    ensures a.apply.BuildTemplate? || a.apply.ConvertToTemplate?
  {
    hide VmVMIDs, CreateOps, Naming.Tags;
    TemplateVMIDsMeaning(Templates(desired));
    if o.None? {
      CreateConfined(site, desired, BuildSpec(tpl));
    }
  }

  lemma TemplatePlanConfined(site: Site, desired: seq<Resource>, obs: seq<Object>, a: Action)
    requires a in TemplatePlan(desired, obs)
    ensures ActionConfined(site, desired, a)
  {
    hide ActionConfined, TemplateLine, PruneStep;
    TemplatePlanOrigin(desired, obs, a);
    if tpl, o :| TemplateLine(desired, obs, a, tpl, o) {
      TemplateLineConfined(site, desired, obs, a, tpl, o);
    } else {
      var o :| o in obs && a in PruneStep(o, TplVMIDs(desired));
      DeleteConfined(site, desired, a, o);
    }
  }

  lemma GuestPlanConfined(site: Site, desired: seq<Resource>, obs: seq<Object>, a: Action)
    requires a in GuestPlan(site, desired, obs)
    ensures ActionConfined(site, desired, a)
  {
    hide ActionConfined, VmLine, OrphanStep;
    GuestPlanOrigin(site, desired, obs, a);
    if vm, o :| VmLine(site, desired, obs, a, vm, o) {
      VmLineConfined(site, desired, obs, a, vm, o);
    } else {
      var o :| o in obs && a in OrphanStep(o, VmVMIDs(desired) + TplVMIDs(desired));
      DeleteConfined(site, desired, a, o);
    }
  }

  // ---------------------------------------------------------------- every move keeps them confined

  lemma QueueConfined(site: Site, s: Sys, m: Move)
    requires m.PlanGuests? && CanMove(s, m) && StageConfined(site, s.stage.desired, s.stage)
    ensures StageConfined(site, s.stage.desired, Moved(site, s, m).stage)
  {
    hide ActionConfined, GuestPlan, Dispatched;
    var desired := s.stage.desired;
    var plan := s.stage.templatePlan + GuestPlan(site, desired, m.observed) + m.isoPlan;
    forall a | a in Moved(site, s, m).stage.queue
      ensures ActionConfined(site, desired, a)
    {
      DispatchedExactly(m.opts, m.commit, plan, a);
      var b :| b in plan && !b.informational && a == b.(commit := m.commit);
      if b in m.isoPlan {
        DownloadConfined(site, desired, b);
      } else if b in GuestPlan(site, desired, m.observed) {
        GuestPlanConfined(site, desired, m.observed, b);
      }
      SameApply(site, desired, a, b);
    }
  }

  lemma DownloadConfined(site: Site, desired: seq<Resource>, a: Action)
    requires a.apply.DownloadISO?
    ensures ActionConfined(site, desired, a)
  {
  }

  lemma SameApply(site: Site, desired: seq<Resource>, a: Action, b: Action)
    requires a.apply == b.apply && ActionConfined(site, desired, b)
    ensures ActionConfined(site, desired, a)
  {
  }

  lemma CallConfined(site: Site, desired: seq<Resource>, t: Option<int>, op: Op, rest: seq<Op>, w: World,
                     outcome: Outcome)
    requires OpsConfined(desired, t, [op] + rest)
    ensures var r := Cluster.Step(site, op, rest, w, outcome); r.Next? ==> OpsConfined(desired, t, r.rest)
  {
    hide Cluster.Step, VmVMIDs, TplVMIDs;
    StepRest(site, op, rest, w, outcome);
    assert op in [op] + rest;
    assert forall o :: o in rest ==> o in [op] + rest;
  }

  lemma BackgroundConfined(site: Site, desired: seq<Resource>, s: Sys, step: Dispatch.Step)
    requires Confined(site, desired, s) && CanMove(s, Background(step))
    ensures Confined(site, desired, Moved(site, s, Background(step)))
  {
    hide OpsConfined, Cluster.Step, StageConfined;
    if step.Call? {
      var j := s.pool.jobs[step.id];
      assert JobConfined(desired, j) && j.rest == [j.rest[0]] + j.rest[1..];
      CallConfined(site, desired, ApplyTarget(j.action.apply), j.rest[0], j.rest[1..], s.world, step.outcome);
    }
  }

  lemma ConfinedNext(site: Site, desired: seq<Resource>, s: Sys, m: Move)
    requires Confined(site, desired, s) && CanMove(s, m) && (m.PlanTemplates? ==> m.desired == desired)
    ensures Confined(site, desired, Moved(site, s, m))
  {
    hide ActionConfined, OpsConfined, TemplatePlan, GuestPlan, Dispatched, After, Program;
    match m
    case PlanTemplates(_, observed) =>
      forall a | a in TemplatePlan(desired, observed)
        ensures ActionConfined(site, desired, a)
      {
        TemplatePlanConfined(site, desired, observed, a);
      }
    case PlanGuests(_, _, _, _) => QueueConfined(site, s, m);
    case SubmitNext => SubmitConfined(site, desired, s);
    case Background(step) => BackgroundConfined(site, desired, s, step);
    case _ =>
  }

  lemma SubmitConfined(site: Site, desired: seq<Resource>, s: Sys)
    requires Confined(site, desired, s) && CanMove(s, SubmitNext)
    ensures Confined(site, desired, Moved(site, s, SubmitNext))
  {
    hide OpsConfined, Program;
    var a := s.stage.queue[0];
    assert a in s.stage.queue && ActionConfined(site, desired, a);
  }

  lemma {:induction false} ConfinedInRun(site: Site, desired: seq<Resource>, run: seq<Sys>, moves: seq<Move>, i: nat)
    requires IsRun(site, run, moves) && Steady(desired, moves) && i <= |moves|
    ensures Confined(site, desired, run[i])
  {
    hide Confined, Moved, CanMove;
    if i == 0 {
      StartConfined(site, desired, run[0]);
    } else {
      ConfinedInRun(site, desired, run, moves, i - 1);
      var m := moves[i - 1];
      assert m in moves;
      assert CanMove(run[i - 1], m) && run[i - 1 + 1] == Moved(site, run[i - 1], m);
      ConfinedNext(site, desired, run[i - 1], m);
    }
  }

  lemma StartConfined(site: Site, desired: seq<Resource>, s: Sys)
    requires Starts(s)
    ensures Confined(site, desired, s)
  {
  }
}
