/** templateReconciler: the plan for golden templates. */
module TemplatePlanner {
  import opened Prelude
  import opened Proxmox
  import opened Manifest
  import opened Cluster
  import GuestPlanner

  /** templateSpec */
  function BuildSpec(tpl: Template): GuestSpec {
    var s := tpl.spec;
    GuestSpec(tpl.meta.node, s.vmid, tpl.meta.name, s.cores, s.memory, s.cpu,
              if s.disks != [] then s.disks[0].storage else "", "", false,
              tpl.meta.tags + [MANAGED_TAG], s.image, None, true, None, "")
  }

  /** observedByVMID: every observed guest, whatever its kind. */
  function ByVMID(observed: seq<Object>): map<int, Object> {
    if observed == [] then map[]
    else ByVMID(observed[..|observed| - 1])[observed[|observed| - 1].vmid := observed[|observed| - 1]]
  }

  /** What Plan emits for one declared template. */
  function TemplateStep(tpl: Template, obs: Option<Object>): seq<Action> {
    if obs.None? then
      [Action(ActionCreate, KindTemplate, tpl.meta.name, BuildTemplate(BuildSpec(tpl)), false, "")]
    else if obs.value.Owned() && !obs.value.isTemplate then
      [Action(ActionUpdate, KindTemplate, tpl.meta.name,
              Apply.ConvertToTemplate(obs.value.node, obs.value.vmid), false, "")]
    else []
  }

  function TemplateSteps(tpls: seq<Template>, observed: map<int, Object>): seq<Action> {
    if tpls == [] then []
    else
      var tpl := tpls[|tpls| - 1];
      TemplateSteps(tpls[..|tpls| - 1], observed)
      + TemplateStep(tpl, if tpl.spec.vmid in observed then Some(observed[tpl.spec.vmid]) else None)
  }

  /** What Plan emits for an observed template that may be an orphan. */
  function PruneStep(o: Object, declared: set<int>): seq<Action> {
    if o.isTemplate && o.Owned() && o.vmid !in declared
    then [Action(ActionDelete, KindTemplate, o.name, Apply.DeleteGuest(o), false, "")]
    else []
  }

  function PruneSteps(observed: seq<Object>, declared: set<int>): seq<Action> {
    if observed == [] then []
    else PruneSteps(observed[..|observed| - 1], declared) + PruneStep(observed[|observed| - 1], declared)
  }

  function TemplatePlan(desired: seq<Resource>, observed: seq<Object>): seq<Action> {
    TemplateSteps(Templates(desired), ByVMID(observed))
    + PruneSteps(observed, GuestPlanner.TemplateVMIDs(Templates(desired)))
  }

  /** templateReconciler.Plan */
  method Plan(desired: seq<Resource>, listing: Result<seq<Object>>) returns (plan: Result<seq<Action>>)
    ensures plan == if listing.Ok? then Ok(TemplatePlan(desired, listing.value)) else Err
  {
    if listing.Err? {
      return Err;
    }
    var observedByVMID := IndexObserved(listing.value);
    var builds, declared := PlanDeclared(desired, observedByVMID);
    var prunes := PlanPrunes(listing.value, declared);
    plan := Ok(builds + prunes);
  }

  method IndexObserved(observed: seq<Object>) returns (byVMID: map<int, Object>)
    ensures byVMID == ByVMID(observed)
  {
    byVMID := map[];
    for i := 0 to |observed|
      invariant byVMID == ByVMID(observed[..i])
    {
      assert observed[..i + 1][..i] == observed[..i];
      byVMID := byVMID[observed[i].vmid := observed[i]];
    }
    assert observed[..|observed|] == observed;
  }

  lemma StepsNext(tpls: seq<Template>, tpl: Template, observed: map<int, Object>)
    ensures TemplateSteps(tpls + [tpl], observed)
         == TemplateSteps(tpls, observed)
            + TemplateStep(tpl, if tpl.spec.vmid in observed then Some(observed[tpl.spec.vmid]) else None)
  {
  }

  method PlanDeclared(desired: seq<Resource>, observed: map<int, Object>)
    returns (actions: seq<Action>, declared: set<int>)
    ensures actions == TemplateSteps(Templates(desired), observed)
    ensures declared == GuestPlanner.TemplateVMIDs(Templates(desired))
  {
    actions, declared := [], {};
    for i := 0 to |desired|
      invariant actions == TemplateSteps(Templates(desired[..i]), observed)
      invariant declared == GuestPlanner.TemplateVMIDs(Templates(desired[..i]))
    {
      hide Templates, TemplateSteps, TemplateStep, GuestPlanner.TemplateVMIDs;
      GuestPlanner.VMsNext(desired, i);
      if desired[i].Tpl? {
        var tpl := desired[i].tpl;
        GuestPlanner.TemplateIndexNext(Templates(desired[..i]), tpl);
        StepsNext(Templates(desired[..i]), tpl, observed);
        declared := declared + {tpl.spec.vmid};
        var obs := if tpl.spec.vmid in observed then Some(observed[tpl.spec.vmid]) else None;
        var step := PlanTemplate(tpl, obs);
        actions := actions + step;
      }
    }
    assert desired[..|desired|] == desired;
  }

  /** The body of Plan's first loop. */
  method PlanTemplate(tpl: Template, obs: Option<Object>) returns (actions: seq<Action>)
    ensures actions == TemplateStep(tpl, obs)
  {
    if obs.None? {
      var spec := BuildSpec(tpl);
      return [Action(ActionCreate, KindTemplate, tpl.meta.name, BuildTemplate(spec), false, "")];
    }
    if obs.value.Owned() && !obs.value.isTemplate {
      var apply := Apply.ConvertToTemplate(obs.value.node, obs.value.vmid);
      return [Action(ActionUpdate, KindTemplate, tpl.meta.name, apply, false, "")];
    }
    return [];
  }

  method PlanPrunes(observed: seq<Object>, declared: set<int>) returns (actions: seq<Action>)
    ensures actions == PruneSteps(observed, declared)
  {
    actions := [];
    for i := 0 to |observed|
      invariant actions == PruneSteps(observed[..i], declared)
    {
      assert observed[..i + 1][..i] == observed[..i];
      var o := observed[i];
      if !(!o.isTemplate || !o.Owned() || o.vmid in declared) {
        actions := actions + [Action(ActionDelete, KindTemplate, o.name, Apply.DeleteGuest(o), false, "")];
      }
    }
    assert observed[..|observed|] == observed;
  }
}
