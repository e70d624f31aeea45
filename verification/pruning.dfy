/** What an action's type says about what it does; and that with pruning off nothing is ever removed. */
module Pruning {
  import opened Prelude
  import opened Proxmox
  import opened Manifest
  import opened Cluster
  import opened GuestPlanner
  import opened TemplatePlanner
  import opened Policy
  import opened Dispatch
  import opened Controller
  import opened Plans
  import Interleaving
  import Naming
  import Text

  /** The action brings a resource into being, or fails trying. */
  predicate Making(apply: Apply) {
    apply.CreateGuest? || apply.BuildTemplate? || apply.SpecError? || apply.DownloadISO?
  }

  /** The type an action is reported and gated by is the type of what it does. */
  predicate TypedRight(a: Action) {
    && (a.typ.ActionDelete? <==> a.apply.DeleteGuest?)
    && (a.typ.ActionCreate? <==> Making(a.apply))
    && (a.informational <==> a.apply.NoApply?)
  }

  lemma VmLineTyped(site: Site, vm: VirtualMachine, o: Option<Object>, ready: set<int>, names: map<string, int>)
    ensures forall a :: a in VmStep(site, vm, o, ready, names) ==> TypedRight(a)
  {
    hide GuestDrift, DesiredSpec;
  }

  lemma TemplateLineTyped(tpl: Template, o: Option<Object>)
    ensures forall a :: a in TemplateStep(tpl, o) ==> TypedRight(a)
  {
  }

  lemma OrphanTyped(o: Object, declared: set<int>)
    ensures forall a :: a in OrphanStep(o, declared) ==> TypedRight(a) && a.typ.ActionDelete?
    ensures forall a :: a in PruneStep(o, declared) ==> TypedRight(a) && a.typ.ActionDelete?
  {
  }

  /** Whatever the listings show, every planned action is typed by what it does. */
  lemma PlanTyped(site: Site, desired: seq<Resource>, obs: seq<Object>, a: Action)
    requires a in TemplatePlan(desired, obs) || a in GuestPlan(site, desired, obs)
    ensures TypedRight(a)
  {
    hide VmStep, TemplateStep, OrphanStep, PruneStep, TypedRight;
    var declared := VmVMIDs(desired) + TplVMIDs(desired);
    if a in TemplatePlan(desired, obs) {
      TemplatePlanOrigin(desired, obs, a);
      if tpl, o :| TemplateLine(desired, obs, a, tpl, o) {
        TemplateLineTyped(tpl, o);
      } else {
        var o :| o in obs && a in PruneStep(o, TplVMIDs(desired));
        OrphanTyped(o, TplVMIDs(desired));
      }
    } else {
      GuestPlanOrigin(site, desired, obs, a);
      if vm, o :| VmLine(site, desired, obs, a, vm, o) {
        VmLineTyped(site, vm, o, ReadyTemplates(obs), TemplateIndex(Templates(desired)));
      } else {
        var o :| o in obs && a in OrphanStep(o, declared);
        OrphanTyped(o, declared);
      }
    }
  }

  // ---------------------------------------------------------------- the order of a plan

  /** Once a plan has come to its deletions, nothing else follows. */
  ghost predicate DeletesLast(plan: seq<Action>) {
    forall i, j :: 0 <= i < j < |plan| && plan[i].typ.ActionDelete? ==> plan[j].typ.ActionDelete?
  }

  lemma {:induction false} OrphansDelete(observed: seq<Object>, declared: set<int>)
    ensures forall a :: a in OrphanSteps(observed, declared) ==> a.typ.ActionDelete?
    ensures forall a :: a in PruneSteps(observed, declared) ==> a.typ.ActionDelete?
  {
    hide OrphanStep, PruneStep;
    if observed != [] {
      OrphansDelete(observed[..|observed| - 1], declared);
      OrphanTyped(observed[|observed| - 1], declared);
    }
  }

  lemma {:induction false} TemplateStepsMake(tpls: seq<Template>, observed: map<int, Object>)
    ensures forall a :: a in TemplateSteps(tpls, observed) ==> !a.typ.ActionDelete?
  {
    if tpls != [] {
      TemplateStepsMake(tpls[..|tpls| - 1], observed);
    }
  }

  lemma VmLineMakes(site: Site, vm: VirtualMachine, o: Option<Object>, ready: set<int>, names: map<string, int>)
    ensures var step := VmStep(site, vm, o, ready, names); |step| <= 1 && forall a :: a in step ==> !a.typ.ActionDelete?
  {
    hide GuestDrift, DesiredSpec;
  }

  lemma {:induction false} VmStepsMake(site: Site, order: seq<int>, vms: map<int, VirtualMachine>, observed: map<int, Object>,
                                       ready: set<int>, names: map<string, int>)
    requires forall v :: v in order ==> v in vms
    ensures forall a :: a in VmSteps(site, order, vms, observed, ready, names) ==> !a.typ.ActionDelete?
  {
    hide VmStep;
    if order != [] {
      var v := order[|order| - 1];
      VmStepsMake(site, order[..|order| - 1], vms, observed, ready, names);
      VmLineMakes(site, vms[v], if v in observed then Some(observed[v]) else None, ready, names);
    }
  }

  lemma Concatenated(a: seq<Action>, b: seq<Action>)
    requires (forall x :: x in a ==> !x.typ.ActionDelete?) && (forall x :: x in b ==> x.typ.ActionDelete?)
    ensures DeletesLast(a + b)
  {
    assert forall i :: 0 <= i < |a| ==> !a[i].typ.ActionDelete?;
    assert forall i :: 0 <= i < |b| ==> b[i].typ.ActionDelete?;
  }

  /** In either plan all creates and updates come before all deletes. */
  lemma PlansDeleteLast(site: Site, desired: seq<Resource>, obs: seq<Object>)
    ensures DeletesLast(TemplatePlan(desired, obs)) && DeletesLast(GuestPlan(site, desired, obs))
  {
    hide DeletesLast, VMs, Templates;
    var vms, tpls := VMs(desired), Templates(desired);
    OrderIndexed(vms);
    OrphansDelete(obs, VmIndex(vms).Keys + TemplateVMIDs(tpls));
    OrphansDelete(obs, TemplateVMIDs(tpls));
    TemplateStepsMake(tpls, ByVMID(obs));
    VmStepsMake(site, Order(vms), VmIndex(vms), ObservedVMs(obs), ReadyTemplates(obs), TemplateIndex(tpls));
    Concatenated(TemplateSteps(tpls, ByVMID(obs)), PruneSteps(obs, TemplateVMIDs(tpls)));
    Concatenated(VmSteps(site, Order(vms), VmIndex(vms), ObservedVMs(obs), ReadyTemplates(obs), TemplateIndex(tpls)),
                 OrphanSteps(obs, VmIndex(vms).Keys + TemplateVMIDs(tpls)));
  }

  /** The lines of the declared VMs come in the order of their VMIDs in `order`. */
  lemma {:induction false} VmStepsInOrder(site: Site, order: seq<int>, vms: map<int, VirtualMachine>,
                                          observed: map<int, Object>, ready: set<int>, names: map<string, int>, x: nat, y: nat)
    returns (i: nat, j: nat)
    requires forall v :: v in order ==> v in vms
    requires x < y < |VmSteps(site, order, vms, observed, ready, names)|
    ensures i < j < |order|
    ensures var s := VmSteps(site, order, vms, observed, ready, names);
            && s[x] in VmStep(site, vms[order[i]], if order[i] in observed then Some(observed[order[i]]) else None, ready, names)
            && s[y] in VmStep(site, vms[order[j]], if order[j] in observed then Some(observed[order[j]]) else None, ready, names)
  {
    hide VmStep;
    var n := |order| - 1;
    var front := VmSteps(site, order[..n], vms, observed, ready, names);
    var line := VmStep(site, vms[order[n]], if order[n] in observed then Some(observed[order[n]]) else None, ready, names);
    VmLineMakes(site, vms[order[n]], if order[n] in observed then Some(observed[order[n]]) else None, ready, names);
    if y < |front| {
      i, j := VmStepsInOrder(site, order[..n], vms, observed, ready, names, x, y);
    } else {
      i := VmStepFound(site, order[..n], vms, observed, ready, names, x);
      j := n;
      assert line[y - |front|] in line;
    }
  }

  lemma {:induction false} VmStepFound(site: Site, order: seq<int>, vms: map<int, VirtualMachine>, observed: map<int, Object>,
                                       ready: set<int>, names: map<string, int>, x: nat)
    returns (i: nat)
    requires forall v :: v in order ==> v in vms
    requires x < |VmSteps(site, order, vms, observed, ready, names)|
    ensures i < |order|
    ensures VmSteps(site, order, vms, observed, ready, names)[x]
         in VmStep(site, vms[order[i]], if order[i] in observed then Some(observed[order[i]]) else None, ready, names)
  {
    hide VmStep;
    var n := |order| - 1;
    var front := VmSteps(site, order[..n], vms, observed, ready, names);
    if x < |front| {
      i := VmStepFound(site, order[..n], vms, observed, ready, names, x);
    } else {
      i := n;
    }
  }

  // ---------------------------------------------------------------- runs with pruning off

  /** No call removes a guest, now or by what it brings along. */
  predicate Removes(op: Op) {
    op.Destroy? || op.ReadGuest?
  }

  ghost predicate Sparing(ops: seq<Op>) {
    forall op :: op in ops ==> !Removes(op)
  }

  lemma CreateSparing(site: Site, spec: GuestSpec)
    ensures Sparing(CreateOps(site, spec))
  {
    hide Naming.IsoVolume, Naming.CidataFilename;
  }

  lemma OnlyDeletesRemove(site: Site, apply: Apply)
    requires !apply.DeleteGuest?
    ensures Sparing(Program(site, apply))
  {
    hide CreateOps;
    if apply.CreateGuest? || apply.BuildTemplate? {
      CreateSparing(site, apply.spec);
    }
  }

  /** Nothing queued or in flight removes a guest; what is planned but not yet dispatched is typed right. */
  ghost predicate NothingRemoves(site: Site, s: Sys) {
    && (forall id :: id in s.pool.jobs ==> Sparing(s.pool.jobs[id].rest))
    && (match s.stage
        case Listed(_, plan) => forall a :: a in plan ==> TypedRight(a)
        case Submitting(queue) => forall a :: a in queue ==> !a.apply.DeleteGuest?)
  }

  lemma CallSparing(site: Site, op: Op, rest: seq<Op>, w: World, outcome: Outcome)
    requires Sparing([op] + rest)
    ensures var r := Cluster.Step(site, op, rest, w, outcome);
            && (r.Next? ==> Sparing(r.rest))
            && forall v :: v in w.guests ==> v in r.world.guests
  {
    hide Cluster.Step, Interleaving.Follows;
    assert op in [op] + rest && forall o :: o in rest ==> o in [op] + rest;
    StepRest(site, op, rest, w, outcome);
    forall v | v in w.guests
      ensures v in Cluster.Step(site, op, rest, w, outcome).world.guests
    {
      StepAt(site, op, rest, w, outcome, v);
    }
  }

  lemma PruneOffQueue(site: Site, s: Sys, m: Move)
    requires NothingRemoves(site, s) && m.PlanGuests? && CanMove(s, m) && !m.opts.prune
    ensures NothingRemoves(site, Moved(site, s, m))
  {
    hide GuestPlan, Dispatched, Making;
    var plan := s.stage.templatePlan + GuestPlan(site, s.stage.desired, m.observed) + m.isoPlan;
    forall a | a in Moved(site, s, m).stage.queue
      ensures !a.apply.DeleteGuest?
    {
      DispatchedExactly(m.opts, m.commit, plan, a);
      var b :| b in plan && Applicable(m.opts, b) && a == b.(commit := m.commit);
      if b in GuestPlan(site, s.stage.desired, m.observed) {
        PlanTyped(site, s.stage.desired, m.observed, b);
      }
    }
  }

  lemma BackgroundRemovesNothing(site: Site, s: Sys, step: Dispatch.Step)
    requires NothingRemoves(site, s) && CanMove(s, Background(step))
    ensures NothingRemoves(site, Moved(site, s, Background(step)))
    ensures forall v :: v in s.world.guests ==> v in Moved(site, s, Background(step)).world.guests
  {
    hide Cluster.Step, Sparing, TypedRight;
    if step.Call? {
      var j := s.pool.jobs[step.id];
      assert j.rest == [j.rest[0]] + j.rest[1..];
      CallSparing(site, j.rest[0], j.rest[1..], s.world, step.outcome);
    }
  }

  lemma PruneOffMove(site: Site, s: Sys, m: Move)
    requires NothingRemoves(site, s) && CanMove(s, m) && (m.PlanGuests? ==> !m.opts.prune)
    ensures NothingRemoves(site, Moved(site, s, m))
    ensures !m.Operator? ==> forall v :: v in s.world.guests ==> v in Moved(site, s, m).world.guests
  {
    hide TemplatePlan, GuestPlan, Dispatched, After, Program, Sparing, TypedRight;
    match m
    case PlanTemplates(desired, observed) =>
      forall a | a in TemplatePlan(desired, observed)
        ensures TypedRight(a)
      {
        PlanTyped(site, desired, observed, a);
      }
    case PlanGuests(_, _, _, _) => PruneOffQueue(site, s, m);
    case SubmitNext =>
      var a := s.stage.queue[0];
      assert a in s.stage.queue;
      OnlyDeletesRemove(site, a.apply);
    case Background(step) => BackgroundRemovesNothing(site, s, step);
    case _ =>
  }

  /** With pruning off, in every run, whatever the desired sets and outcomes, the loop removes no guest. */
  lemma {:induction false} PruneOffRemovesNothing(site: Site, run: seq<Sys>, moves: seq<Move>, i: nat)
    requires IsRun(site, run, moves) && i <= |moves|
    requires forall m :: m in moves && m.PlanGuests? ==> !m.opts.prune
    ensures NothingRemoves(site, run[i])
    ensures i > 0 && !moves[i - 1].Operator?
        ==> forall v :: v in run[i - 1].world.guests ==> v in run[i].world.guests
  {
    hide NothingRemoves, Moved, CanMove;
    if i == 0 {
      StartRemovesNothing(site, run[0]);
    } else {
      PruneOffRemovesNothing(site, run, moves, i - 1);
      var m := moves[i - 1];
      assert m in moves;
      assert CanMove(run[i - 1], m) && run[i - 1 + 1] == Moved(site, run[i - 1], m);
      PruneOffMove(site, run[i - 1], m);
    }
  }

  lemma StartRemovesNothing(site: Site, s: Sys)
    requires Starts(s)
    ensures NothingRemoves(site, s)
  {
  }
}
