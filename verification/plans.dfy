/** The plans as a function of the cluster: which actions they contain, and when they are empty. */
module Plans {
  import opened Prelude
  import opened Proxmox
  import opened Manifest
  import opened Cluster
  import opened GuestPlanner
  import opened TemplatePlanner
  import opened Drift
  import Naming

  // ---------------------------------------------------------------- the desired set

  /** No two declared guests share a VMID. */
  ghost predicate DistinctVMIDs(desired: seq<Resource>) {
    var vms, tpls := VMs(desired), Templates(desired);
    && (forall i, j :: 0 <= i < j < |vms| ==> vms[i].spec.vmid != vms[j].spec.vmid)
    && (forall i, j :: 0 <= i < j < |tpls| ==> tpls[i].spec.vmid != tpls[j].spec.vmid)
    && (forall vm, tpl :: vm in vms && tpl in tpls ==> vm.spec.vmid != tpl.spec.vmid)
  }

  function VmVMIDs(desired: seq<Resource>): set<int> {
    VmIndex(VMs(desired)).Keys
  }

  function TplVMIDs(desired: seq<Resource>): set<int> {
    TemplateVMIDs(Templates(desired))
  }

  // ---------------------------------------------------------------- what the listing shows

  function ObservedVm(guests: Guests, v: int): Option<Object> {
    if v in guests && guests[v].kind.Qemu? && !guests[v].isTemplate then Some(Observe(v, guests[v])) else None
  }

  function ObservedGuest(guests: Guests, v: int): Option<Object> {
    if v in guests then Some(Observe(v, guests[v])) else None
  }

  function Ready(guests: Guests): set<int> {
    set v | v in guests && guests[v].isTemplate
  }

  lemma {:induction false} ObservedVMsMeaning(s: seq<Object>)
    ensures forall v :: v in ObservedVMs(s) ==>
              var o := ObservedVMs(s)[v]; o in s && o.vmid == v && o.kind.Qemu? && !o.isTemplate
    ensures forall o :: o in s && o.kind.Qemu? && !o.isTemplate ==> o.vmid in ObservedVMs(s)
  {
    if s != [] {
      ObservedVMsMeaning(s[..|s| - 1]);
      assert s == s[..|s| - 1] + [s[|s| - 1]];
    }
  }

  lemma {:induction false} ByVMIDMeaning(s: seq<Object>)
    ensures forall v :: v in ByVMID(s) ==> ByVMID(s)[v] in s && ByVMID(s)[v].vmid == v
    ensures forall o :: o in s ==> o.vmid in ByVMID(s)
  {
    if s != [] {
      ByVMIDMeaning(s[..|s| - 1]);
      assert s == s[..|s| - 1] + [s[|s| - 1]];
    }
  }

  lemma {:induction false} ReadyMeaning(s: seq<Object>)
    ensures forall v :: v in ReadyTemplates(s) <==> exists o :: o in s && o.isTemplate && o.vmid == v
  {
    if s != [] {
      ReadyMeaning(s[..|s| - 1]);
      assert s == s[..|s| - 1] + [s[|s| - 1]];
    }
  }

  lemma {:induction false} VmIndexMeaning(vms: seq<VirtualMachine>)
    ensures forall v :: v in VmIndex(vms) ==> VmIndex(vms)[v] in vms && VmIndex(vms)[v].spec.vmid == v
    ensures forall vm :: vm in vms ==> vm.spec.vmid in VmIndex(vms)
  {
    if vms != [] {
      VmIndexMeaning(vms[..|vms| - 1]);
      assert vms == vms[..|vms| - 1] + [vms[|vms| - 1]];
    }
  }

  lemma {:induction false} TemplateVMIDsMeaning(tpls: seq<Template>)
    ensures forall v :: v in TemplateVMIDs(tpls) ==> exists tpl :: tpl in tpls && tpl.spec.vmid == v
    ensures forall tpl :: tpl in tpls ==> tpl.spec.vmid in TemplateVMIDs(tpls)
  {
    if tpls != [] {
      TemplateVMIDsMeaning(tpls[..|tpls| - 1]);
      assert tpls == tpls[..|tpls| - 1] + [tpls[|tpls| - 1]];
    }
  }

  lemma {:induction false} TemplateIndexMeaning(tpls: seq<Template>)
    ensures forall n :: n in TemplateIndex(tpls) ==>
              exists tpl :: tpl in tpls && tpl.meta.name == n && tpl.spec.vmid == TemplateIndex(tpls)[n]
    ensures forall tpl :: tpl in tpls ==> tpl.meta.name in TemplateIndex(tpls)
  {
    if tpls != [] {
      var last := tpls[|tpls| - 1];
      TemplateIndexMeaning(tpls[..|tpls| - 1]);
      assert tpls == tpls[..|tpls| - 1] + [last];
      forall n | n in TemplateIndex(tpls)
        ensures exists tpl :: tpl in tpls && tpl.meta.name == n && tpl.spec.vmid == TemplateIndex(tpls)[n]
      {
        if n == last.meta.name {
          assert last in tpls;
        } else {
          var tpl :| tpl in tpls[..|tpls| - 1] && tpl.meta.name == n && tpl.spec.vmid == TemplateIndex(tpls)[n];
          assert tpl in tpls;
        }
      }
    }
  }

  /** A template name resolves to the VMID of a declared template. */
  lemma NamesDeclared(desired: seq<Resource>, name: string)
    requires name in TemplateIndex(Templates(desired))
    ensures TemplateIndex(Templates(desired))[name] in TplVMIDs(desired)
  {
  }

  lemma ReadyListed(observed: seq<Object>, guests: Guests)
    requires Lists(observed, guests)
    ensures ReadyTemplates(observed) == Ready(guests)
  {
    ReadyMeaning(observed);
    forall v
      ensures v in ReadyTemplates(observed) <==> v in Ready(guests)
    {
      if v in guests {
        assert Observe(v, guests[v]) in observed;
      }
    }
  }

  /** Looking a guest up in an accurate listing gives the guest as observed. */
  lemma ListedLookups(observed: seq<Object>, guests: Guests)
    requires Lists(observed, guests)
    ensures forall v :: (if v in ObservedVMs(observed) then Some(ObservedVMs(observed)[v]) else None) == ObservedVm(guests, v)
    ensures forall v :: (if v in ByVMID(observed) then Some(ByVMID(observed)[v]) else None) == ObservedGuest(guests, v)
    ensures ReadyTemplates(observed) == Ready(guests)
  {
    ObservedVMsMeaning(observed);
    ByVMIDMeaning(observed);
    forall v
      ensures (if v in ObservedVMs(observed) then Some(ObservedVMs(observed)[v]) else None) == ObservedVm(guests, v)
      ensures (if v in ByVMID(observed) then Some(ByVMID(observed)[v]) else None) == ObservedGuest(guests, v)
    {
      if v in guests {
        var o := Observe(v, guests[v]);
        assert o in observed && o.vmid == v;
      }
    }
    ReadyListed(observed, guests);
  }

  // ---------------------------------------------------------------- the actions in a plan

  function VmActions(site: Site, desired: seq<Resource>, guests: Guests, vm: VirtualMachine): seq<Action> {
    VmStep(site, vm, ObservedVm(guests, vm.spec.vmid), Ready(guests), TemplateIndex(Templates(desired)))
  }

  function TemplateActions(guests: Guests, tpl: Template): seq<Action> {
    TemplateStep(tpl, ObservedGuest(guests, tpl.spec.vmid))
  }

  function OrphanActions(desired: seq<Resource>, guests: Guests, v: int): seq<Action>
    requires v in guests
  {
    OrphanStep(Observe(v, guests[v]), VmVMIDs(desired) + TplVMIDs(desired))
    + PruneStep(Observe(v, guests[v]), TplVMIDs(desired))
  }

  lemma {:induction false} VmStepsMembers(site: Site, order: seq<int>, vms: map<int, VirtualMachine>,
                                          observed: map<int, Object>, ready: set<int>, names: map<string, int>, a: Action)
    requires forall v :: v in order ==> v in vms
    ensures a in VmSteps(site, order, vms, observed, ready, names)
       <==> exists v :: v in order && a in VmStep(site, vms[v], if v in observed then Some(observed[v]) else None, ready, names)
  {
    if order != [] {
      var v := order[|order| - 1];
      assert order == order[..|order| - 1] + [v];
      VmStepsMembers(site, order[..|order| - 1], vms, observed, ready, names, a);
      assert v in order;
    }
  }

  lemma {:induction false} TemplateStepsMembers(tpls: seq<Template>, observed: map<int, Object>, a: Action)
    ensures a in TemplateSteps(tpls, observed)
       <==> exists tpl :: tpl in tpls && a in TemplateStep(tpl, if tpl.spec.vmid in observed then Some(observed[tpl.spec.vmid]) else None)
  {
    if tpls != [] {
      var tpl := tpls[|tpls| - 1];
      assert tpls == tpls[..|tpls| - 1] + [tpl];
      TemplateStepsMembers(tpls[..|tpls| - 1], observed, a);
      assert tpl in tpls;
    }
  }

  lemma {:induction false} OrphanStepsMembers(observed: seq<Object>, declared: set<int>, a: Action)
    ensures a in OrphanSteps(observed, declared) <==> exists o :: o in observed && a in OrphanStep(o, declared)
    ensures a in PruneSteps(observed, declared) <==> exists o :: o in observed && a in PruneStep(o, declared)
  {
    if observed != [] {
      var o := observed[|observed| - 1];
      assert observed == observed[..|observed| - 1] + [o];
      OrphanStepsMembers(observed[..|observed| - 1], declared, a);
      assert o in observed;
    }
  }

  lemma VmStepsListed(site: Site, desired: seq<Resource>, observed: seq<Object>, guests: Guests, a: Action)
    requires DistinctVMIDs(desired) && Lists(observed, guests)
    requires forall v :: v in Order(VMs(desired)) ==> v in VmIndex(VMs(desired))
    ensures a in VmSteps(site, Order(VMs(desired)), VmIndex(VMs(desired)), ObservedVMs(observed),
                         ReadyTemplates(observed), TemplateIndex(Templates(desired)))
       <==> exists vm :: vm in VMs(desired) && a in VmActions(site, desired, guests, vm)
  {
    var vms, names := VMs(desired), TemplateIndex(Templates(desired));
    var idx, order, obs := VmIndex(vms), Order(vms), ObservedVMs(observed);
    VmIndexMeaning(vms);
    OrderIndexed(vms);
    ListedLookups(observed, guests);
    forall vm | vm in vms
      ensures idx[vm.spec.vmid] == vm && vm.spec.vmid in order
    {
      assert idx[vm.spec.vmid] in vms && idx[vm.spec.vmid].spec.vmid == vm.spec.vmid;
    }
    VmStepsIndexed(site, desired, guests, order, idx, obs, a);
  }

  // The VM lines looked up by VMID and by manifest are the same lines.
  lemma VmStepsIndexed(site: Site, desired: seq<Resource>, guests: Guests, order: seq<int>,
                       idx: map<int, VirtualMachine>, obs: map<int, Object>, a: Action)
    requires forall v :: v in order ==> v in idx && idx[v] in VMs(desired) && idx[v].spec.vmid == v
    requires forall vm :: vm in VMs(desired) ==> vm.spec.vmid in order && idx[vm.spec.vmid] == vm
    requires forall v :: (if v in obs then Some(obs[v]) else None) == ObservedVm(guests, v)
    ensures a in VmSteps(site, order, idx, obs, Ready(guests), TemplateIndex(Templates(desired)))
       <==> exists vm :: vm in VMs(desired) && a in VmActions(site, desired, guests, vm)
  {
    var names := TemplateIndex(Templates(desired));
    VmStepsMembers(site, order, idx, obs, Ready(guests), names, a);
    forall v | v in order
      ensures VmActions(site, desired, guests, idx[v])
           == VmStep(site, idx[v], if v in obs then Some(obs[v]) else None, Ready(guests), names)
    {
    }
  }

  lemma OrphansListed(observed: seq<Object>, guests: Guests, declared: set<int>, a: Action)
    requires Lists(observed, guests)
    ensures a in OrphanSteps(observed, declared) <==> exists v :: v in guests && a in OrphanStep(Observe(v, guests[v]), declared)
    ensures a in PruneSteps(observed, declared) <==> exists v :: v in guests && a in PruneStep(Observe(v, guests[v]), declared)
  {
    OrphanStepsMembers(observed, declared, a);
    if o :| o in observed && a in OrphanStep(o, declared) {
      assert o.vmid in guests && o == Observe(o.vmid, guests[o.vmid]);
    }
    if o :| o in observed && a in PruneStep(o, declared) {
      assert o.vmid in guests && o == Observe(o.vmid, guests[o.vmid]);
    }
  }

  /** The guest plan holds the VM lines of the declared VMs and the deletions of the observed orphans. */
  lemma GuestPlanMembers(site: Site, desired: seq<Resource>, observed: seq<Object>, guests: Guests, a: Action)
    requires DistinctVMIDs(desired) && Lists(observed, guests)
    ensures a in GuestPlan(site, desired, observed)
       <==> || (exists vm :: vm in VMs(desired) && a in VmActions(site, desired, guests, vm))
            || (exists v :: v in guests && a in OrphanStep(Observe(v, guests[v]), VmVMIDs(desired) + TplVMIDs(desired)))
  {
    OrderIndexed(VMs(desired));
    VmStepsListed(site, desired, observed, guests, a);
    OrphansListed(observed, guests, VmVMIDs(desired) + TplVMIDs(desired), a);
  }

  /** The template plan holds the template lines of the declared templates and the pruned orphans. */
  lemma TemplatePlanMembers(desired: seq<Resource>, observed: seq<Object>, guests: Guests, a: Action)
    requires Lists(observed, guests)
    ensures a in TemplatePlan(desired, observed)
       <==> || (exists tpl :: tpl in Templates(desired) && a in TemplateActions(guests, tpl))
            || (exists v :: v in guests && a in PruneStep(Observe(v, guests[v]), TplVMIDs(desired)))
  {
    ListedLookups(observed, guests);
    TemplateStepsMembers(Templates(desired), ByVMID(observed), a);
    OrphansListed(observed, guests, TplVMIDs(desired), a);
    if tpl :| tpl in Templates(desired) && a in TemplateActions(guests, tpl) {
    }
  }

  // ---------------------------------------------------------------- the empty plan

  /** A declared template is finished, or its VMID belongs to somebody else's guest. */
  predicate TemplateSettled(guests: Guests, tpl: Template) {
    var v := tpl.spec.vmid;
    v in guests && (guests[v].isTemplate || !guests[v].Owned())
  }

  /** A declared VM is in its declared state, is somebody else's, or waits for a template it cannot have. */
  predicate VmSettled(site: Site, desired: seq<Resource>, guests: Guests, vm: VirtualMachine) {
    var v := vm.spec.vmid;
    var names := TemplateIndex(Templates(desired));
    if v in guests && guests[v].kind.Qemu? && !guests[v].isTemplate then
      !guests[v].Owned()
      || (MatchesDeclared(vm, guests[v]) && SeedCurrent(site, vm, guests[v]) && !RestartPending(guests[v]))
    else
      && vm.spec.fromTemplate.Some? && vm.spec.fromTemplate.value.name in names
      && var t := names[vm.spec.fromTemplate.value.name];
         t in guests && !guests[t].isTemplate && !guests[t].Owned()
  }

  ghost predicate InSync(site: Site, desired: seq<Resource>, guests: Guests) {
    && (forall tpl :: tpl in Templates(desired) ==> TemplateSettled(guests, tpl))
    && (forall vm :: vm in VMs(desired) ==> VmSettled(site, desired, guests, vm))
    && (forall v :: v in guests && guests[v].Owned() && guests[v].isTemplate ==> v in TplVMIDs(desired))
    && (forall v :: v in guests && guests[v].Owned() && guests[v].kind.Qemu? && !guests[v].isTemplate
                    ==> v in VmVMIDs(desired) + TplVMIDs(desired))
  }

  lemma VmQuiet(site: Site, desired: seq<Resource>, guests: Guests, vm: VirtualMachine)
    requires forall tpl :: tpl in Templates(desired) ==> TemplateSettled(guests, tpl)
    ensures VmActions(site, desired, guests, vm) == [] <==> VmSettled(site, desired, guests, vm)
  {
    var v, names := vm.spec.vmid, TemplateIndex(Templates(desired));
    TemplateIndexMeaning(Templates(desired));
    if ObservedVm(guests, v).Some? {
      VmStepQuiet(site, vm, v, guests[v], Ready(guests), names);
    }
  }

  lemma {:induction false} VmStepsEmpty(site: Site, order: seq<int>, vms: map<int, VirtualMachine>,
                                        observed: map<int, Object>, ready: set<int>, names: map<string, int>)
    requires forall v :: v in order ==> v in vms
    ensures VmSteps(site, order, vms, observed, ready, names) == []
       <==> forall v :: v in order ==>
              VmStep(site, vms[v], if v in observed then Some(observed[v]) else None, ready, names) == []
  {
    if order != [] {
      var v := order[|order| - 1];
      assert order == order[..|order| - 1] + [v];
      VmStepsEmpty(site, order[..|order| - 1], vms, observed, ready, names);
      assert v in order;
    }
  }

  lemma {:induction false} TemplateStepsEmpty(tpls: seq<Template>, observed: map<int, Object>)
    ensures TemplateSteps(tpls, observed) == []
       <==> forall tpl :: tpl in tpls ==>
              TemplateStep(tpl, if tpl.spec.vmid in observed then Some(observed[tpl.spec.vmid]) else None) == []
  {
    if tpls != [] {
      var tpl := tpls[|tpls| - 1];
      assert tpls == tpls[..|tpls| - 1] + [tpl];
      TemplateStepsEmpty(tpls[..|tpls| - 1], observed);
      assert tpl in tpls;
    }
  }

  lemma {:induction false} OrphanStepsEmpty(observed: seq<Object>, declared: set<int>)
    ensures OrphanSteps(observed, declared) == [] <==> forall o :: o in observed ==> OrphanStep(o, declared) == []
    ensures PruneSteps(observed, declared) == [] <==> forall o :: o in observed ==> PruneStep(o, declared) == []
  {
    if observed != [] {
      var o := observed[|observed| - 1];
      assert observed == observed[..|observed| - 1] + [o];
      OrphanStepsEmpty(observed[..|observed| - 1], declared);
      assert o in observed;
    }
  }

  lemma ListedForall(observed: seq<Object>, guests: Guests, declared: set<int>)
    requires Lists(observed, guests)
    ensures (forall o :: o in observed ==> OrphanStep(o, declared) == [])
       <==> forall v :: v in guests && guests[v].Owned() && guests[v].kind.Qemu? && !guests[v].isTemplate ==> v in declared
    ensures (forall o :: o in observed ==> PruneStep(o, declared) == [])
       <==> forall v :: v in guests && guests[v].Owned() && guests[v].isTemplate ==> v in declared
  {
  }

  lemma TemplateQuiet(guests: Guests, tpl: Template)
    ensures TemplateActions(guests, tpl) == [] <==> TemplateSettled(guests, tpl)
  {
  }

  lemma TemplatePlanEmpty(desired: seq<Resource>, observed: seq<Object>, guests: Guests)
    requires Lists(observed, guests)
    ensures TemplatePlan(desired, observed) == []
       <==> && (forall tpl :: tpl in Templates(desired) ==> TemplateSettled(guests, tpl))
            && (forall v :: v in guests && guests[v].Owned() && guests[v].isTemplate ==> v in TplVMIDs(desired))
  {
    hide TemplateStep, TemplateSettled, Cluster.Observe;
    ListedLookups(observed, guests);
    TemplateStepsEmpty(Templates(desired), ByVMID(observed));
    OrphanStepsEmpty(observed, TplVMIDs(desired));
    ListedForall(observed, guests, TplVMIDs(desired));
    forall tpl | tpl in Templates(desired)
      ensures TemplateActions(guests, tpl) == [] <==> TemplateSettled(guests, tpl)
    {
      TemplateQuiet(guests, tpl);
    }
  }

  lemma GuestPlanEmpty(site: Site, desired: seq<Resource>, observed: seq<Object>, guests: Guests)
    requires DistinctVMIDs(desired) && Lists(observed, guests)
    ensures GuestPlan(site, desired, observed) == []
       <==> && (forall vm :: vm in VMs(desired) ==> VmActions(site, desired, guests, vm) == [])
            && (forall v :: v in guests && guests[v].Owned() && guests[v].kind.Qemu? && !guests[v].isTemplate
                            ==> v in VmVMIDs(desired) + TplVMIDs(desired))
  {
    var vms, names := VMs(desired), TemplateIndex(Templates(desired));
    var idx, order, obs := VmIndex(vms), Order(vms), ObservedVMs(observed);
    VmIndexMeaning(vms);
    OrderIndexed(vms);
    ListedLookups(observed, guests);
    VmStepsEmpty(site, order, idx, obs, Ready(guests), names);
    OrphanStepsEmpty(observed, VmVMIDs(desired) + TplVMIDs(desired));
    ListedForall(observed, guests, VmVMIDs(desired) + TplVMIDs(desired));
    forall vm | vm in vms
      ensures idx[vm.spec.vmid] == vm && vm.spec.vmid in order
    {
      assert idx[vm.spec.vmid] in vms && idx[vm.spec.vmid].spec.vmid == vm.spec.vmid;
    }
    forall v | v in order
      ensures idx[v] in vms && VmStep(site, idx[v], if v in obs then Some(obs[v]) else None, Ready(guests), names)
           == VmActions(site, desired, guests, idx[v])
    {
    }
  }

  /** The joint plan is empty exactly when the cluster is in sync with the declarations. */
  lemma EmptyPlanExactly(site: Site, desired: seq<Resource>, obsT: seq<Object>, obsG: seq<Object>, guests: Guests)
    requires DistinctVMIDs(desired) && Lists(obsT, guests) && Lists(obsG, guests)
    ensures TemplatePlan(desired, obsT) + GuestPlan(site, desired, obsG) == [] <==> InSync(site, desired, guests)
  {
    TemplatePlanEmpty(desired, obsT, guests);
    GuestPlanEmpty(site, desired, obsG, guests);
    if TemplatePlan(desired, obsT) == [] || InSync(site, desired, guests) {
      forall vm | vm in VMs(desired)
        ensures VmActions(site, desired, guests, vm) == [] <==> VmSettled(site, desired, guests, vm)
      {
        VmQuiet(site, desired, guests, vm);
      }
    }
  }
}
