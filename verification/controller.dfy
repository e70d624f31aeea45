/**
 The whole loop as one step system: scans that list the guests and plan, submissions to the dispatcher, the
 API calls of the actions in flight, and changes made behind the loop's back, in any interleaving.
 */
module Controller {
  import opened Prelude
  import opened Proxmox
  import opened Manifest
  import opened Cluster
  import opened GuestPlanner
  import opened TemplatePlanner
  import opened Policy
  import opened Dispatch
  import Interleaving
  import Naming
  import Plans
  import Text

  // Listed: the template plan is made, the guest plan is not. Submitting: the actions a scan still has to submit.
  datatype Stage = Listed(desired: seq<Resource>, templatePlan: seq<Action>) | Submitting(queue: seq<Action>)

  datatype Sys = Sys(pool: Pool, world: World, stage: Stage)

  datatype Move =
    | PlanTemplates(desired: seq<Resource>, observed: seq<Object>)
    | PlanGuests(observed: seq<Object>, isoPlan: seq<Action>, opts: Options, commit: string)
    | Abort
    | SubmitNext
    | Background(step: Dispatch.Step)
    | Operator(vmid: int, guest: Option<Guest>)

  function StateOf(s: Sys): State {
    State(s.pool, s.world)
  }

  /** Each listing is accurate when it is made, and may be out of date when its plan is carried out. */
  ghost predicate CanMove(s: Sys, m: Move) {
    match m
    case PlanTemplates(_, observed) => s.stage == Submitting([]) && Lists(observed, s.world.guests)
    case PlanGuests(observed, isoPlan, _, _) =>
      s.stage.Listed? && Lists(observed, s.world.guests) && forall a :: a in isoPlan ==> a.apply.DownloadISO?
    case Abort => s.stage.Listed?
    case SubmitNext => s.stage.Submitting? && s.stage.queue != []
    case Background(step) => !step.Submit? && Enabled(StateOf(s), step)
    case Operator(_, _) => true
  }

  ghost function Moved(site: Site, s: Sys, m: Move): Sys
    requires CanMove(s, m)
  {
    match m
    case PlanTemplates(desired, observed) => s.(stage := Listed(desired, TemplatePlan(desired, observed)))
    case PlanGuests(observed, isoPlan, opts, commit) =>
      s.(stage := Submitting(Dispatched(opts, commit, s.stage.templatePlan + GuestPlan(site, s.stage.desired, observed) + isoPlan)))
    case Abort => s.(stage := Submitting([]))
    case SubmitNext => s.(pool := Submitted(site, s.pool, s.stage.queue[0]), stage := Submitting(s.stage.queue[1..]))
    case Background(step) =>
      var n := After(site, StateOf(s), step);
      Sys(n.pool, n.world, s.stage)
    case Operator(v, g) => s.(world := World(Put(s.world.guests, v, g), s.world.files))
  }

  /** The daemon at its start: nothing in flight, no scan under way. */
  ghost predicate Starts(s: Sys) {
    s.stage == Submitting([]) && exists limit :: s.pool == Fresh(limit)
  }

  /** The states of a run: each follows from the one before by the move of the same index. */
  ghost predicate IsRun(site: Site, run: seq<Sys>, moves: seq<Move>) {
    && |run| == |moves| + 1 && Starts(run[0])
    && forall i :: 0 <= i < |moves| ==> CanMove(run[i], moves[i]) && run[i + 1] == Moved(site, run[i], moves[i])
  }

  lemma {:induction false} SlotsInRun(site: Site, run: seq<Sys>, moves: seq<Move>, i: nat)
    requires IsRun(site, run, moves) && i <= |moves|
    ensures SlotsAndKeys(run[i].pool)
  {
    hide SlotsAndKeys, After, Submitted;
    if i == 0 {
      var limit :| run[0].pool == Fresh(limit);
      FreshSlots(limit);
    } else {
      SlotsInRun(site, run, moves, i - 1);
      var s, m := run[i - 1], moves[i - 1];
      assert CanMove(s, m) && run[i - 1 + 1] == Moved(site, s, m);
      if m.SubmitNext? {
        SubmitSlots(site, s.pool, s.stage.queue[0]);
      } else if m.Background? {
        SlotsPreserved(site, StateOf(s), m.step);
      }
    }
  }

  // ---------------------------------------------------------------- where planned actions come from

  /** The action is the line of the declared VM `vm`, seen as `o` in the listing. */
  ghost predicate VmLine(site: Site, desired: seq<Resource>, obs: seq<Object>, a: Action, vm: VirtualMachine,
                         o: Option<Object>) {
    && vm in VMs(desired)
    && vm.spec.vmid in VmIndex(VMs(desired)) && vm == VmIndex(VMs(desired))[vm.spec.vmid]
    && (o.Some? ==> o.value in obs && o.value.vmid == vm.spec.vmid && o.value.kind.Qemu? && !o.value.isTemplate)
    && a in VmStep(site, vm, o, ReadyTemplates(obs), TemplateIndex(Templates(desired)))
  }

  /** The action is the line of the declared template `tpl`, seen as `o` in the listing. */
  ghost predicate TemplateLine(desired: seq<Resource>, obs: seq<Object>, a: Action, tpl: Template, o: Option<Object>) {
    && tpl in Templates(desired)
    && (o.Some? ==> o.value in obs && o.value.vmid == tpl.spec.vmid)
    && (o.None? ==> forall x :: x in obs ==> x.vmid != tpl.spec.vmid)
    && a in TemplateStep(tpl, o)
  }

  lemma GuestPlanOrigin(site: Site, desired: seq<Resource>, obs: seq<Object>, a: Action)
    requires a in GuestPlan(site, desired, obs)
    ensures || (exists vm, o :: VmLine(site, desired, obs, a, vm, o))
            || (exists o :: o in obs && a in OrphanStep(o, Plans.VmVMIDs(desired) + Plans.TplVMIDs(desired)))
  {
    hide VmStep, OrphanStep, VMs, Templates;
    var vms, names := VMs(desired), TemplateIndex(Templates(desired));
    var idx, order, objs := VmIndex(vms), Order(vms), ObservedVMs(obs);
    OrderIndexed(vms);
    Plans.VmIndexMeaning(vms);
    Plans.ObservedVMsMeaning(obs);
    Plans.OrphanStepsMembers(obs, idx.Keys + TemplateVMIDs(Templates(desired)), a);
    Plans.VmStepsMembers(site, order, idx, objs, ReadyTemplates(obs), names, a);
    if a in VmSteps(site, order, idx, objs, ReadyTemplates(obs), names) {
      var v :| v in order && a in VmStep(site, idx[v], if v in objs then Some(objs[v]) else None, ReadyTemplates(obs), names);
      assert VmLine(site, desired, obs, a, idx[v], if v in objs then Some(objs[v]) else None);
    }
  }

  lemma TemplatePlanOrigin(desired: seq<Resource>, obs: seq<Object>, a: Action)
    requires a in TemplatePlan(desired, obs)
    ensures || (exists tpl, o :: TemplateLine(desired, obs, a, tpl, o))
            || (exists o :: o in obs && a in PruneStep(o, Plans.TplVMIDs(desired)))
  {
    hide TemplateStep, PruneStep, Templates;
    var tpls, objs := Templates(desired), ByVMID(obs);
    Plans.ByVMIDMeaning(obs);
    Plans.OrphanStepsMembers(obs, TemplateVMIDs(tpls), a);
    Plans.TemplateStepsMembers(tpls, objs, a);
    if a in TemplateSteps(tpls, objs) {
      var tpl :| tpl in tpls && a in TemplateStep(tpl, if tpl.spec.vmid in objs then Some(objs[tpl.spec.vmid]) else None);
      assert TemplateLine(desired, obs, a, tpl, if tpl.spec.vmid in objs then Some(objs[tpl.spec.vmid]) else None);
    }
  }

  // ---------------------------------------------------------------- what one API call does to one guest

  /** A call that does not destroy its target keeps its name, and unmakes no template. */
  lemma TargetKept(site: Site, op: Op, g: Guest, src: Option<Guest>)
    requires !op.Destroy?
    ensures var e := EffectOf(site, op, Some(g), src);
            e.Sets? ==> e.guest.Some? && e.guest.value.name == g.name && (g.isTemplate ==> e.guest.value.isTemplate)
                        && (e.guest.value.isTemplate && !g.isTemplate ==> op.Convert?)
  {
  }

  lemma TargetAppears(site: Site, op: Op, src: Option<Guest>)
    ensures var e := EffectOf(site, op, None, src);
            e.Sets? && e.guest.Some? ==> op.Creates() && !e.guest.value.isTemplate
  {
  }

  lemma DestroyRemoves(site: Site, op: Op, g: Option<Guest>, src: Option<Guest>)
    requires op.Destroy?
    ensures var e := EffectOf(site, op, g, src); e.Sets? ==> e.guest.None?
  {
  }

  lemma StepAt(site: Site, op: Op, rest: seq<Op>, w: World, outcome: Outcome, v: int)
    ensures var w' := Cluster.Step(site, op, rest, w, outcome).world;
            && (op.Target() != Some(v) ==> Lookup(w'.guests, v) == Lookup(w.guests, v))
            && (v in w.guests && !op.Destroy? ==>
                  && v in w'.guests && w'.guests[v].name == w.guests[v].name
                  && (w.guests[v].isTemplate ==> w'.guests[v].isTemplate)
                  && (w'.guests[v].isTemplate && !w.guests[v].isTemplate ==> op.Convert?))
            && (op.Destroy? && v in w'.guests ==> Lookup(w'.guests, v) == Lookup(w.guests, v))
            && (v !in w.guests && v in w'.guests ==> op.Creates() && !w'.guests[v].isTemplate)
  {
    hide EffectOf, ReseedOps;
    var src := Find(w, op.Source());
    if op.Target() == Some(v) {
      if v in w.guests {
        if op.Destroy? {
          DestroyRemoves(site, op, Some(w.guests[v]), src);
        } else {
          TargetKept(site, op, w.guests[v], src);
        }
      } else {
        TargetAppears(site, op, src);
      }
    }
  }

  /** Neither a conversion, nor the start of a deletion, nor a raised error. */
  predicate Plain(o: Op) {
    !o.Convert? && !o.ReadGuest? && !o.Raise?
  }

  /** What a call puts in front of the program it belongs to: no creates, no conversions, no clones. */
  lemma StepRest(site: Site, op: Op, rest: seq<Op>, w: World, outcome: Outcome)
    ensures var r := Cluster.Step(site, op, rest, w, outcome);
            r.Next? ==> forall o :: o in r.rest ==>
              o in rest || (Interleaving.Follows(o, op.Target()) && Plain(o) && (o.Destroy? ==> op.ReadGuest?))
  {
    if op.ReadSeed? {
      ReseedKinds(site, op.spec, "");
    }
    NextKinds(site, op, Find(w, op.Target()), Find(w, op.Source()));
  }

  lemma ReseedKinds(site: Site, spec: GuestSpec, ide0: string)
    ensures forall o :: o in ReseedOps(site, spec, ide0) ==> Plain(o) && !o.Destroy? && Interleaving.Follows(o, Some(spec.vmid))
  {
  }

  lemma DeleteKinds(obj: Object, g: Guest)
    ensures forall o :: o in DeleteOps(obj, g) ==> Plain(o) && Interleaving.Follows(o, Some(obj.vmid))
  {
  }

  lemma NextKinds(site: Site, op: Op, g: Option<Guest>, src: Option<Guest>)
    ensures var e := EffectOf(site, op, g, src);
            e.Sets? ==> forall o :: o in e.next ==>
              Interleaving.Follows(o, op.Target()) && Plain(o) && (o.Destroy? ==> op.ReadGuest?)
  {
    hide Naming.Tags, Naming.ParseCidataHash, Text.Join, Naming.IsoVolume, Naming.CidataFilename, ReseedOps, DeleteOps;
    if op.ReadSeed? {
      ReseedKinds(site, op.spec, if VmOn(g, op.spec.node) then g.value.ide0 else "");
    } else if op.ReadGuest? && g.Some? {
      DeleteKinds(op.obj, g.value);
    }
  }
}
