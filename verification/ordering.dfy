/** Templates and the clones made from them: a declared template is never taken away, neither half-built nor in use. */
module TemplateOrdering {
  import opened Prelude
  import opened Proxmox
  import opened Manifest
  import opened Cluster
  import opened GuestPlanner
  import opened TemplatePlanner
  import opened Policy
  import opened Dispatch
  import opened Controller
  import opened Confinement
  import opened Plans
  import Naming

  /** Whatever the listing shows at the VMID of a declared template, no plan deletes it. */
  lemma NeverPlannedForDeletion(site: Site, desired: seq<Resource>, obs: seq<Object>, a: Action)
    requires a in TemplatePlan(desired, obs) || a in GuestPlan(site, desired, obs)
    ensures a.apply.DeleteGuest? ==> a.apply.obj.vmid !in TplVMIDs(desired)
  {
    hide TplVMIDs, VmVMIDs, VmLine, TemplateLine, OrphanStep, PruneStep, ActionConfined;
    if a in TemplatePlan(desired, obs) {
      TemplatePlanOrigin(desired, obs, a);
      if tpl, o :| TemplateLine(desired, obs, a, tpl, o) {
        TemplateLineConfined(site, desired, obs, a, tpl, o);
      } else {
        var o :| o in obs && a in PruneStep(o, TplVMIDs(desired));
        DeleteConfined(site, desired, a, o);
      }
    } else {
      GuestPlanOrigin(site, desired, obs, a);
      if vm, o :| VmLine(site, desired, obs, a, vm, o) {
        VmLineDeletesNothing(site, desired, obs, a, vm, o);
      } else {
        var o :| o in obs && a in OrphanStep(o, VmVMIDs(desired) + TplVMIDs(desired));
        DeleteConfined(site, desired, a, o);
      }
    }
  }

  lemma VmLineDeletesNothing(site: Site, desired: seq<Resource>, obs: seq<Object>, a: Action, vm: VirtualMachine,
                             o: Option<Object>)
    requires VmLine(site, desired, obs, a, vm, o)
    ensures !a.apply.DeleteGuest?
  {
  }

  // ---------------------------------------------------------------- declared templates stay

  /** Nothing behind the loop's back takes away a guest at a declared template's VMID, or unmakes a template there. */
  ghost predicate TemplatesLeftAlone(desired: seq<Resource>, run: seq<Sys>, moves: seq<Move>)
    requires |run| == |moves| + 1
  {
    forall i :: 0 <= i < |moves| ==> LeavesTemplates(desired, run[i], moves[i])
  }

  ghost predicate LeavesTemplates(desired: seq<Resource>, s: Sys, m: Move) {
    m.Operator? && m.vmid in TplVMIDs(desired) && m.vmid in s.world.guests ==>
      m.guest.Some? && (s.world.guests[m.vmid].isTemplate ==> m.guest.value.isTemplate)
  }

  ghost predicate Stays(t: int, guests: Guests, guests': Guests) {
    t in guests ==> t in guests' && (guests[t].isTemplate ==> guests'[t].isTemplate)
  }

  lemma MoveKeepsTemplate(site: Site, desired: seq<Resource>, s: Sys, m: Move, t: int)
    requires Confined(site, desired, s) && CanMove(s, m) && LeavesTemplates(desired, s, m) && t in TplVMIDs(desired)
    ensures Stays(t, s.world.guests, Moved(site, s, m).world.guests)
  {
    hide TplVMIDs, VmVMIDs, TemplatePlan, GuestPlan, Cluster.Step, Dispatched, StageConfined;
    if m.Background? && m.step.Call? {
      var j := s.pool.jobs[m.step.id];
      assert JobConfined(desired, j) && j.rest[0] in j.rest;
      StepAt(site, j.rest[0], j.rest[1..], s.world, m.step.outcome, t);
    }
  }

  /** Once there is a guest at a declared template's VMID, it stays, and a finished template stays a template. */
  lemma {:induction false} TemplateStays(site: Site, desired: seq<Resource>, run: seq<Sys>, moves: seq<Move>, t: int,
                                         i: nat, j: nat)
    requires IsRun(site, run, moves) && Steady(desired, moves) && TemplatesLeftAlone(desired, run, moves)
    requires t in TplVMIDs(desired) && i <= j <= |moves|
    ensures Stays(t, run[i].world.guests, run[j].world.guests)
  {
    hide TplVMIDs, Moved, CanMove, Confined, LeavesTemplates;
    if i < j {
      TemplateStays(site, desired, run, moves, t, i, j - 1);
      ConfinedInRun(site, desired, run, moves, j - 1);
      assert CanMove(run[j - 1], moves[j - 1]) && run[j - 1 + 1] == Moved(site, run[j - 1], moves[j - 1]);
      assert LeavesTemplates(desired, run[j - 1], moves[j - 1]);
      MoveKeepsTemplate(site, desired, run[j - 1], moves[j - 1], t);
    }
  }

  // ---------------------------------------------------------------- clones have their template

  /** A clone's source is a declared template that is ready. */
  ghost predicate SourceReady(desired: seq<Resource>, guests: Guests, a: Action) {
    a.apply.CreateGuest? && a.apply.spec.clone.Some? ==>
      var t := a.apply.spec.clone.value.templateVMID;
      t in TplVMIDs(desired) && t in guests && guests[t].isTemplate
  }

  ghost predicate SourcesReady(desired: seq<Resource>, s: Sys) {
    && (forall id :: id in s.pool.jobs ==> SourceReady(desired, s.world.guests, s.pool.jobs[id].action))
    && (match s.stage
        case Listed(_, plan) => forall a :: a in plan ==> !a.apply.CreateGuest?
        case Submitting(queue) => forall a :: a in queue ==> SourceReady(desired, s.world.guests, a))
  }

  lemma VmLineReady(site: Site, desired: seq<Resource>, guests: Guests, obs: seq<Object>, a: Action,
                    vm: VirtualMachine, o: Option<Object>)
    requires Lists(obs, guests) && VmLine(site, desired, obs, a, vm, o)
    ensures SourceReady(desired, guests, a)
  {
    hide VmStep, VMs, VmIndex, TplVMIDs, Lists, Naming.Tags, Naming.ParseCidataHash;
    var names := TemplateIndex(Templates(desired));
    VmLineRuns(site, vm, o, ReadyTemplates(obs), names, a);
    if a.apply.CreateGuest? && vm.spec.fromTemplate.Some? {
      NamesDeclared(desired, vm.spec.fromTemplate.value.name);
      ReadyListed(obs, guests);
    }
  }

  lemma GuestPlanReady(site: Site, desired: seq<Resource>, guests: Guests, obs: seq<Object>, a: Action)
    requires Lists(obs, guests) && a in GuestPlan(site, desired, obs)
    ensures SourceReady(desired, guests, a)
  {
    hide VmLine, OrphanStep, Lists, ActionConfined;
    GuestPlanOrigin(site, desired, obs, a);
    if vm, o :| VmLine(site, desired, obs, a, vm, o) {
      VmLineReady(site, desired, guests, obs, a, vm, o);
    } else {
      var o :| o in obs && a in OrphanStep(o, VmVMIDs(desired) + TplVMIDs(desired));
      DeleteConfined(site, desired, a, o);
    }
  }

  lemma TemplatePlanNoClone(site: Site, desired: seq<Resource>, obs: seq<Object>, a: Action)
    requires a in TemplatePlan(desired, obs)
    ensures !a.apply.CreateGuest?
  {
    hide TemplateLine, PruneStep, ActionConfined;
    TemplatePlanOrigin(desired, obs, a);
    if tpl, o :| TemplateLine(desired, obs, a, tpl, o) {
      TemplateLineConfined(site, desired, obs, a, tpl, o);
    } else {
      var o :| o in obs && a in PruneStep(o, TplVMIDs(desired));
      DeleteConfined(site, desired, a, o);
    }
  }

  lemma QueueReady(site: Site, desired: seq<Resource>, s: Sys, m: Move)
    requires SourcesReady(desired, s) && m.PlanGuests? && CanMove(s, m) && s.stage.desired == desired
    ensures SourcesReady(desired, Moved(site, s, m))
  {
    hide GuestPlan, Dispatched, SourceReady;
    var plan := s.stage.templatePlan + GuestPlan(site, desired, m.observed) + m.isoPlan;
    forall a | a in Moved(site, s, m).stage.queue
      ensures SourceReady(desired, s.world.guests, a)
    {
      DispatchedExactly(m.opts, m.commit, plan, a);
      var b :| b in plan && !b.informational && a == b.(commit := m.commit);
      if b in GuestPlan(site, desired, m.observed) {
        GuestPlanReady(site, desired, s.world.guests, m.observed, b);
      }
      ReadyApply(desired, s.world.guests, a, b);
    }
  }

  lemma ReadyApply(desired: seq<Resource>, guests: Guests, a: Action, b: Action)
    requires a.apply == b.apply && (!b.apply.CreateGuest? || SourceReady(desired, guests, b))
    ensures SourceReady(desired, guests, a)
  {
  }

  lemma ReadyStays(desired: seq<Resource>, guests: Guests, guests': Guests, a: Action)
    requires SourceReady(desired, guests, a) && forall t :: t in TplVMIDs(desired) ==> Stays(t, guests, guests')
    ensures SourceReady(desired, guests', a)
  {
  }

  lemma ReadyNext(site: Site, desired: seq<Resource>, s: Sys, m: Move)
    requires Confined(site, desired, s) && SourcesReady(desired, s) && CanMove(s, m) && LeavesTemplates(desired, s, m)
    requires m.PlanTemplates? ==> m.desired == desired
    ensures SourcesReady(desired, Moved(site, s, m))
  {
    hide SourceReady, Stays, Confined, TplVMIDs, TemplatePlan, GuestPlan, Dispatched, Cluster.Step, Program;
    var s' := Moved(site, s, m);
    if m.PlanGuests? {
      assert s.stage.desired == desired by {
        StageOf(site, desired, s);
      }
      QueueReady(site, desired, s, m);
    } else if m.PlanTemplates? {
      forall a | a in s'.stage.templatePlan
        ensures !a.apply.CreateGuest?
      {
        TemplatePlanNoClone(site, desired, m.observed, a);
      }
    } else {
      forall t | t in TplVMIDs(desired)
        ensures Stays(t, s.world.guests, s'.world.guests)
      {
        MoveKeepsTemplate(site, desired, s, m, t);
      }
      forall a | SourceReady(desired, s.world.guests, a)
        ensures SourceReady(desired, s'.world.guests, a)
      {
        ReadyStays(desired, s.world.guests, s'.world.guests, a);
      }
    }
  }

  lemma StageOf(site: Site, desired: seq<Resource>, s: Sys)
    requires Confined(site, desired, s) && s.stage.Listed?
    ensures s.stage.desired == desired
  {
  }

  /** From planning to the end of the action, a clone's source is a declared, converted template. */
  lemma {:induction false} CloneSourceStays(site: Site, desired: seq<Resource>, run: seq<Sys>, moves: seq<Move>, i: nat)
    requires IsRun(site, run, moves) && Steady(desired, moves) && TemplatesLeftAlone(desired, run, moves) && i <= |moves|
    ensures SourcesReady(desired, run[i])
  {
    hide SourceReady, Moved, CanMove, Confined, LeavesTemplates;
    if i > 0 {
      CloneSourceStays(site, desired, run, moves, i - 1);
      ConfinedInRun(site, desired, run, moves, i - 1);
      var m := moves[i - 1];
      assert m in moves;
      assert CanMove(run[i - 1], m) && run[i - 1 + 1] == Moved(site, run[i - 1], m);
      assert LeavesTemplates(desired, run[i - 1], m);
      ReadyNext(site, desired, run[i - 1], m);
    }
  }
}
