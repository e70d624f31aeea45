/**
 Ownership over whole runs: whatever desired sets come and go, and however calls interleave and fail, no action
 of the loop changes or removes a guest that did not carry the ownership tag at the start.
 */
module Ownership {
  import opened Prelude
  import opened Proxmox
  import opened Manifest
  import opened Cluster
  import opened GuestPlanner
  import opened TemplatePlanner
  import opened Policy
  import opened Dispatch
  import opened Controller
  import opened Confinement
  import opened Plans
  import Naming
  import Text

  /** The call fails, without effect, as long as its target exists. */
  predicate FailsOnOccupied(op: Op) {
    op.Creates() || op.Raise?
  }

  /** The rest of an action's program leaves the guest `v` alone: its next call fails, or no call addresses it. */
  ghost predicate Spares(v: int, apply: Apply, running: bool, rest: seq<Op>) {
    if ApplyTarget(apply) == Some(v)
    then running ==> rest == [] || (rest[0].Target() == Some(v) && FailsOnOccupied(rest[0]))
    else forall op :: op in rest ==> op.Target() != Some(v)
  }

  ghost predicate ActionSpares(site: Site, v: int, a: Action) {
    Spares(v, a.apply, true, Program(site, a.apply))
  }

  ghost predicate JobSpares(v: int, j: Job) {
    Spares(v, j.action.apply, j.phase.Applying?, j.rest)
  }

  ghost predicate StageSpares(site: Site, v: int, stage: Stage) {
    match stage
    case Listed(_, plan) => forall a :: a in plan ==> ActionSpares(site, v, a)
    case Submitting(queue) => forall a :: a in queue ==> ActionSpares(site, v, a)
  }

  /** The guest `v` exists, is not owned, and nothing planned, queued or in flight can touch it. */
  ghost predicate Foreign(site: Site, v: int, s: Sys) {
    && v in s.world.guests && !s.world.guests[v].Owned()
    && (forall id :: id in s.pool.jobs ==> JobSpares(v, s.pool.jobs[id]))
    && StageSpares(site, v, s.stage)
  }

  // ---------------------------------------------------------------- planned actions spare the guest

  /** The listing shows `v`, without the tag. */
  ghost predicate ShowsForeign(obs: seq<Object>, v: int) {
    (exists o :: o in obs && o.vmid == v) && forall o :: o in obs && o.vmid == v ==> !o.Owned()
  }

  lemma ListedForeign(obs: seq<Object>, guests: Guests, v: int)
    requires Lists(obs, guests) && v in guests && !guests[v].Owned()
    ensures ShowsForeign(obs, v)
  {
  }

  lemma OtherTargetSpares(site: Site, desired: seq<Resource>, v: int, a: Action)
    requires ActionConfined(site, desired, a) && ApplyTarget(a.apply) != Some(v)
    ensures ActionSpares(site, v, a)
  {
  }

  lemma CreateSpares(site: Site, v: int, a: Action)
    requires a.apply.CreateGuest? || a.apply.BuildTemplate? || a.apply.SpecError?
    requires ApplyTarget(a.apply) == Some(v)
    ensures ActionSpares(site, v, a)
  {
  }

  /** A VM line at a foreign guest's VMID: nothing, or a create that will fail. */
  lemma VmLineForeign(site: Site, vm: VirtualMachine, o: Option<Object>, ready: set<int>, names: map<string, int>,
                      a: Action)
    requires a in VmStep(site, vm, o, ready, names) && (o.Some? ==> !o.value.Owned())
    ensures o.None? && (a.apply.CreateGuest? || a.apply.SpecError?)
  {
  }

  lemma VmLineSpares(site: Site, desired: seq<Resource>, obs: seq<Object>, v: int, a: Action, vm: VirtualMachine,
                     o: Option<Object>)
    requires ShowsForeign(obs, v) && VmLine(site, desired, obs, a, vm, o)
    ensures ActionSpares(site, v, a)
  {
    hide VmStep, VMs, VmIndex, ActionSpares, ActionConfined;
    VmLineConfined(site, desired, obs, a, vm, o);
    if ApplyTarget(a.apply) == Some(v) {
      VmLineRuns(site, vm, o, ReadyTemplates(obs), TemplateIndex(Templates(desired)), a);
      VmLineForeign(site, vm, o, ReadyTemplates(obs), TemplateIndex(Templates(desired)), a);
      CreateSpares(site, v, a);
    } else {
      OtherTargetSpares(site, desired, v, a);
    }
  }

  lemma TemplateLineSpares(site: Site, desired: seq<Resource>, obs: seq<Object>, v: int, a: Action, tpl: Template,
                           o: Option<Object>)
    requires ShowsForeign(obs, v) && TemplateLine(desired, obs, a, tpl, o)
    ensures ActionSpares(site, v, a)
  {
  }

  lemma DeleteSpares(site: Site, desired: seq<Resource>, obs: seq<Object>, v: int, a: Action, o: Object)
    requires ShowsForeign(obs, v) && o in obs
    requires a in OrphanStep(o, VmVMIDs(desired) + TplVMIDs(desired)) || a in PruneStep(o, TplVMIDs(desired))
    ensures ActionSpares(site, v, a)
  {
  }

  lemma TemplatePlanSpares(site: Site, desired: seq<Resource>, obs: seq<Object>, v: int, a: Action)
    requires ShowsForeign(obs, v) && a in TemplatePlan(desired, obs)
    ensures ActionSpares(site, v, a)
  {
    hide ActionSpares, TemplateLine, PruneStep, ShowsForeign;
    TemplatePlanOrigin(desired, obs, a);
    if tpl, o :| TemplateLine(desired, obs, a, tpl, o) {
      TemplateLineSpares(site, desired, obs, v, a, tpl, o);
    } else {
      var o :| o in obs && a in PruneStep(o, TplVMIDs(desired));
      DeleteSpares(site, desired, obs, v, a, o);
    }
  }

  lemma GuestPlanSpares(site: Site, desired: seq<Resource>, obs: seq<Object>, v: int, a: Action)
    requires ShowsForeign(obs, v) && a in GuestPlan(site, desired, obs)
    ensures ActionSpares(site, v, a)
  {
    hide ActionSpares, VmLine, OrphanStep, ShowsForeign;
    GuestPlanOrigin(site, desired, obs, a);
    if vm, o :| VmLine(site, desired, obs, a, vm, o) {
      VmLineSpares(site, desired, obs, v, a, vm, o);
    } else {
      var o :| o in obs && a in OrphanStep(o, VmVMIDs(desired) + TplVMIDs(desired));
      DeleteSpares(site, desired, obs, v, a, o);
    }
  }

  lemma DownloadSpares(site: Site, v: int, a: Action)
    requires a.apply.DownloadISO?
    ensures ActionSpares(site, v, a)
  {
  }

  lemma QueueSpares(site: Site, v: int, s: Sys, m: Move)
    requires Foreign(site, v, s) && m.PlanGuests? && CanMove(s, m)
    ensures StageSpares(site, v, Moved(site, s, m).stage)
  {
    hide GuestPlan, Dispatched, Program, Spares, Naming.Tags;
    var plan := s.stage.templatePlan + GuestPlan(site, s.stage.desired, m.observed) + m.isoPlan;
    ListedForeign(m.observed, s.world.guests, v);
    forall a | a in Moved(site, s, m).stage.queue
      ensures ActionSpares(site, v, a)
    {
      DispatchedExactly(m.opts, m.commit, plan, a);
      var b :| b in plan && !b.informational && a == b.(commit := m.commit);
      if b in m.isoPlan {
        DownloadSpares(site, v, b);
      } else if b in GuestPlan(site, s.stage.desired, m.observed) {
        GuestPlanSpares(site, s.stage.desired, m.observed, v, b);
      }
      assert ActionSpares(site, v, b);
    }
  }

  // ---------------------------------------------------------------- every move keeps it untouched

  lemma CallSpares(site: Site, v: int, j: Job, w: World, outcome: Outcome)
    requires v in w.guests && JobSpares(v, j) && j.phase.Applying? && j.rest != []
    ensures var r := Cluster.Step(site, j.rest[0], j.rest[1..], w, outcome);
            && Lookup(r.world.guests, v) == Lookup(w.guests, v)
            && (r.Next? ==> JobSpares(v, j.(rest := r.rest)))
  {
    var op, rest := j.rest[0], j.rest[1..];
    assert op in j.rest && forall o :: o in rest ==> o in j.rest;
    if ApplyTarget(j.action.apply) == Some(v) {
      OccupiedFails(site, op, rest, w, outcome, v);
    } else {
      OtherCall(site, op, rest, w, outcome, v);
    }
  }

  lemma OccupiedFails(site: Site, op: Op, rest: seq<Op>, w: World, outcome: Outcome, v: int)
    requires v in w.guests && op.Target() == Some(v) && FailsOnOccupied(op)
    ensures Cluster.Step(site, op, rest, w, outcome) == Failed(w)
  {
  }

  lemma OtherCall(site: Site, op: Op, rest: seq<Op>, w: World, outcome: Outcome, v: int)
    requires op.Target() != Some(v) && forall o :: o in rest ==> o.Target() != Some(v)
    ensures var r := Cluster.Step(site, op, rest, w, outcome);
            && Lookup(r.world.guests, v) == Lookup(w.guests, v)
            && (r.Next? ==> forall o :: o in r.rest ==> o.Target() != Some(v))
  {
    hide Cluster.Step;
    StepAt(site, op, rest, w, outcome, v);
    StepRest(site, op, rest, w, outcome);
  }

  /** Nobody removes or adopts the guest behind the loop's back. */
  predicate NotAdopted(v: int, m: Move) {
    m.Operator? && m.vmid == v ==> m.guest.Some? && !m.guest.value.Owned()
  }

  lemma BackgroundForeign(site: Site, v: int, s: Sys, step: Dispatch.Step)
    requires Foreign(site, v, s) && CanMove(s, Background(step))
    ensures var s' := Moved(site, s, Background(step));
            Foreign(site, v, s') && Lookup(s'.world.guests, v) == Lookup(s.world.guests, v)
  {
    hide Cluster.Step, StageSpares, Naming.Tags;
    if step.Call? {
      assert JobSpares(v, s.pool.jobs[step.id]);
      CallSpares(site, v, s.pool.jobs[step.id], s.world, step.outcome);
    }
  }

  lemma ForeignNext(site: Site, v: int, s: Sys, m: Move)
    requires Foreign(site, v, s) && CanMove(s, m) && NotAdopted(v, m)
    ensures Foreign(site, v, Moved(site, s, m))
    ensures !(m.Operator? && m.vmid == v) ==> Lookup(Moved(site, s, m).world.guests, v) == Lookup(s.world.guests, v)
  {
    hide TemplatePlan, GuestPlan, Dispatched, After, Program, Spares, Naming.Tags;
    match m
    case PlanTemplates(desired, observed) =>
      ListedForeign(observed, s.world.guests, v);
      forall a | a in TemplatePlan(desired, observed)
        ensures ActionSpares(site, v, a)
      {
        TemplatePlanSpares(site, desired, observed, v, a);
      }
    case PlanGuests(_, _, _, _) => QueueSpares(site, v, s, m);
    case SubmitNext =>
      var a := s.stage.queue[0];
      assert a in s.stage.queue && ActionSpares(site, v, a);
    case Background(step) => BackgroundForeign(site, v, s, step);
    case _ =>
  }

  /** A guest that exists untagged at the start changes in a run only by what is done behind the loop's back. */
  lemma {:induction false} ForeignInRun(site: Site, v: int, run: seq<Sys>, moves: seq<Move>, i: nat)
    requires IsRun(site, run, moves) && i <= |moves|
    requires v in run[0].world.guests && !run[0].world.guests[v].Owned()
    requires forall m :: m in moves ==> NotAdopted(v, m)
    ensures Foreign(site, v, run[i])
    ensures i > 0 && !(moves[i - 1].Operator? && moves[i - 1].vmid == v)
        ==> Lookup(run[i].world.guests, v) == Lookup(run[i - 1].world.guests, v)
  {
    hide Foreign, Moved, CanMove, Naming.Tags;
    if i == 0 {
      ForeignAtStart(site, v, run[0]);
    } else {
      ForeignInRun(site, v, run, moves, i - 1);
      var m := moves[i - 1];
      assert m in moves;
      assert CanMove(run[i - 1], m) && run[i - 1 + 1] == Moved(site, run[i - 1], m);
      ForeignNext(site, v, run[i - 1], m);
    }
  }

  lemma ForeignAtStart(site: Site, v: int, s: Sys)
    requires Starts(s) && v in s.world.guests && !s.world.guests[v].Owned()
    ensures Foreign(site, v, s)
  {
  }

  /** Left to the loop alone, such a guest is at every moment exactly what it was at the start. */
  lemma {:induction false} ForeignUntouched(site: Site, v: int, run: seq<Sys>, moves: seq<Move>, i: nat)
    requires IsRun(site, run, moves) && i <= |moves|
    requires v in run[0].world.guests && !run[0].world.guests[v].Owned()
    requires forall m :: m in moves ==> !(m.Operator? && m.vmid == v)
    ensures Lookup(run[i].world.guests, v) == Some(run[0].world.guests[v])
  {
    hide IsRun, Foreign, Naming.Tags;
    if i > 0 {
      ForeignUntouched(site, v, run, moves, i - 1);
      ForeignInRun(site, v, run, moves, i);
      assert moves[i - 1] in moves;
    }
  }
}
