/** guestReconciler: the plan for virtual machines. */
module GuestPlanner {
  import opened Prelude
  import opened Proxmox
  import opened Manifest
  import opened Cluster

  /** normalizeIP */
  function NormalizeIP(ip: string): string {
    if ip != "" && '=' !in ip then "ip=" + ip else ip
  }

  const NO_CLOUD_INIT := CloudInit("", "", [], "", "", "")

  /** The cloud-init scalars that drifted, the others empty. */
  function CloudInitDrift(want: CloudInit, obs: Object): CloudInit {
    CloudInit(if want.user != obs.ciUser then want.user else "", "", [],
              if NormalizeIP(want.ip) != obs.ip then NormalizeIP(want.ip) else "",
              if want.nameserver != obs.nameserver then want.nameserver else "",
              if want.searchDomain != obs.searchDomain then want.searchDomain else "")
  }

  /** guestDrift, as a function: the update to apply, or None when nothing drifted. */
  function GuestDrift(vm: VirtualMachine, obs: Object): (upd: Option<GuestUpdate>)
    ensures upd.Some? ==> upd.value.vmid == obs.vmid && upd.value.node == obs.node
  {
    var s := vm.spec;
    var ci := if s.cloudInit.Some? then CloudInitDrift(s.cloudInit.value, obs) else NO_CLOUD_INIT;
    var cores := if s.cores > 0 then s.cores else obs.cores;
    var cpu := if s.cpu != "" then s.cpu else obs.cpu;
    var mem := if s.memory > 0 then s.memory else obs.memoryMB;
    var running := if s.state != "" then s.state == STATE_RUNNING else obs.running;
    if cores == obs.cores && cpu == obs.cpu && mem == obs.memoryMB && running == obs.running && ci == NO_CLOUD_INIT
    then None
    else Some(GuestUpdate(obs.node, obs.vmid, cores, mem, cpu, running, ci.user, ci.ip, ci.nameserver, ci.searchDomain))
  }

  /** guestDrift, as the code computes it: start from the observed values and overwrite what drifted. */
  method CompareGuest(vm: VirtualMachine, obs: Object) returns (upd: GuestUpdate, drifted: bool)
    ensures drifted == GuestDrift(vm, obs).Some?
    ensures drifted ==> upd == GuestDrift(vm, obs).value
  {
    upd := GuestUpdate(obs.node, obs.vmid, obs.cores, obs.memoryMB, obs.cpu, obs.running, "", "", "", "");
    drifted := false;
    if vm.spec.cores > 0 && vm.spec.cores != obs.cores {
      drifted, upd := true, upd.(cores := vm.spec.cores);
    }
    if vm.spec.cpu != "" && vm.spec.cpu != obs.cpu {
      drifted, upd := true, upd.(cpu := vm.spec.cpu);
    }
    if vm.spec.cloudInit.Some? {
      var ci := CompareCloudInit(vm.spec.cloudInit.value, obs);
      if ci != NO_CLOUD_INIT {
        drifted, upd := true, upd.(ciUser := ci.user, ip := ci.ip, nameserver := ci.nameserver,
                                   searchDomain := ci.searchDomain);
      }
    }
    if vm.spec.memory > 0 && vm.spec.memory != obs.memoryMB {
      drifted, upd := true, upd.(memoryMB := vm.spec.memory);
    }
    if vm.spec.state != "" {
      var wantRunning := vm.spec.state == STATE_RUNNING;
      if wantRunning != obs.running {
        drifted, upd := true, upd.(running := wantRunning);
      }
    }
  }

  /** The cloud-init scalars to set. */
  method CompareCloudInit(want: CloudInit, obs: Object) returns (ci: CloudInit)
    ensures ci == CloudInitDrift(want, obs)
  {
    ci := NO_CLOUD_INIT;
    if want.user != "" && want.user != obs.ciUser {
      ci := ci.(user := want.user);
    }
    var wantIP := NormalizeIP(want.ip);
    if want.ip != "" && wantIP != obs.ip {
      ci := ci.(ip := wantIP);
    }
    if want.nameserver != "" && want.nameserver != obs.nameserver {
      ci := ci.(nameserver := want.nameserver);
    }
    if want.searchDomain != "" && want.searchDomain != obs.searchDomain {
      ci := ci.(searchDomain := want.searchDomain);
    }
  }

  /** desiredSpec; None when fromTemplate names an undeclared template. */
  function DesiredSpec(vm: VirtualMachine, templateVMIDs: map<string, int>): Option<GuestSpec> {
    var s := vm.spec;
    if s.fromTemplate.Some? && s.fromTemplate.value.name !in templateVMIDs then None
    else
      Some(GuestSpec(
             vm.meta.node, s.vmid, vm.meta.name, s.cores, s.memory, s.cpu,
             if s.disks != [] then s.disks[0].storage else "", s.iso, s.state == STATE_RUNNING,
             vm.meta.tags + [MANAGED_TAG], s.image, s.cloudInit, false,
             if s.fromTemplate.Some?
             then Some(GuestClone(templateVMIDs[s.fromTemplate.value.name], !s.fromTemplate.value.linked))
             else None,
             s.userData))
  }

  // ---------------------------------------------------------------- the maps Plan builds

  /** desiredByVMID: a later VM overrides an earlier one with the same VMID. */
  function VmIndex(vms: seq<VirtualMachine>): map<int, VirtualMachine> {
    if vms == [] then map[]
    else VmIndex(vms[..|vms| - 1])[vms[|vms| - 1].spec.vmid := vms[|vms| - 1]]
  }

  function Order(vms: seq<VirtualMachine>): seq<int> {
    seq(|vms|, i requires 0 <= i < |vms| => vms[i].spec.vmid)
  }

  /** observedByVMID: the observed guests that are VMs and not templates. */
  function ObservedVMs(observed: seq<Object>): map<int, Object> {
    if observed == [] then map[]
    else
      var o := observed[|observed| - 1];
      var rest := ObservedVMs(observed[..|observed| - 1]);
      if o.kind.Qemu? && !o.isTemplate then rest[o.vmid := o] else rest
  }

  /** readyTemplateVMIDs */
  function ReadyTemplates(observed: seq<Object>): set<int> {
    if observed == [] then {}
    else
      var o := observed[|observed| - 1];
      ReadyTemplates(observed[..|observed| - 1]) + if o.isTemplate then {o.vmid} else {}
  }

  /** templateVMIDs: a later template overrides an earlier one with the same name. */
  function TemplateIndex(tpls: seq<Template>): map<string, int> {
    if tpls == [] then map[]
    else TemplateIndex(tpls[..|tpls| - 1])[tpls[|tpls| - 1].meta.name := tpls[|tpls| - 1].spec.vmid]
  }

  /** templateVMIDByID */
  function TemplateVMIDs(tpls: seq<Template>): set<int> {
    if tpls == [] then {}
    else TemplateVMIDs(tpls[..|tpls| - 1]) + {tpls[|tpls| - 1].spec.vmid}
  }

  // ---------------------------------------------------------------- the plan

  function VmAction(typ: ActionType, vm: VirtualMachine, apply: Apply): seq<Action> {
    [Action(typ, KindVirtualMachine, vm.meta.name, apply, apply.NoApply?, "")]
  }

  /** What Plan emits for one declared VM. */
  function VmStep(site: Site, vm: VirtualMachine, obs: Option<Object>, ready: set<int>,
                  names: map<string, int>): seq<Action> {
    var ft := vm.spec.fromTemplate;
    var spec := DesiredSpec(vm, names);
    var reboots := vm.spec.applyMode == APPLY_MODE_REBOOT;
    if obs.None? then
      if ft.Some? && ft.value.name in names && names[ft.value.name] !in ready then []
      else VmAction(ActionCreate, vm, if spec.Some? then CreateGuest(spec.value) else SpecError(vm.spec.vmid))
    else
      var o := obs.value;
      var drift := GuestDrift(vm, o);
      if !o.Owned() then []
      else if drift.Some? then VmAction(ActionUpdate, vm, UpdateGuest(drift.value))
      else if vm.spec.userData != "" && site.hash(vm.spec.userData) != o.cidataHash then
        VmAction(ActionUpdate, vm,
                 if o.running && !reboots then NoApply else ReseedGuest(spec, o.running, o.node, o.vmid))
      else if o.rebootPending then
        VmAction(ActionUpdate, vm, if reboots then Apply.RebootGuest(o.node, o.vmid) else NoApply)
      else []
  }

  function VmSteps(site: Site, order: seq<int>, vms: map<int, VirtualMachine>, observed: map<int, Object>,
                   ready: set<int>, names: map<string, int>): seq<Action>
    requires forall v :: v in order ==> v in vms
  {
    if order == [] then []
    else
      var v := order[|order| - 1];
      assert order == order[..|order| - 1] + [v];
      VmSteps(site, order[..|order| - 1], vms, observed, ready, names)
      + VmStep(site, vms[v], if v in observed then Some(observed[v]) else None, ready, names)
  }

  /** What Plan emits for an observed guest that may be an orphan. */
  function OrphanStep(o: Object, declared: set<int>): seq<Action> {
    if o.kind.Qemu? && !o.isTemplate && o.Owned() && o.vmid !in declared
    then [Action(ActionDelete, KindVirtualMachine, o.name, Apply.DeleteGuest(o), false, "")]
    else []
  }

  function OrphanSteps(observed: seq<Object>, declared: set<int>): seq<Action> {
    if observed == [] then []
    else OrphanSteps(observed[..|observed| - 1], declared) + OrphanStep(observed[|observed| - 1], declared)
  }

  lemma {:induction false} OrderIndexed(vms: seq<VirtualMachine>)
    ensures forall v :: v in Order(vms) <==> v in VmIndex(vms)
  {
    if vms != [] {
      OrderIndexed(vms[..|vms| - 1]);
      assert Order(vms) == Order(vms[..|vms| - 1]) + [vms[|vms| - 1].spec.vmid];
    }
  }

  function GuestPlan(site: Site, desired: seq<Resource>, observed: seq<Object>): seq<Action> {
    var vms, tpls := VMs(desired), Templates(desired);
    OrderIndexed(vms);
    VmSteps(site, Order(vms), VmIndex(vms), ObservedVMs(observed), ReadyTemplates(observed), TemplateIndex(tpls))
    + OrphanSteps(observed, VmIndex(vms).Keys + TemplateVMIDs(tpls))
  }

  /** guestReconciler.Plan */
  method Plan(site: Site, desired: seq<Resource>, listing: Result<seq<Object>>) returns (plan: Result<seq<Action>>)
    ensures plan == if listing.Ok? then Ok(GuestPlan(site, desired, listing.value)) else Err
  {
    if listing.Err? {
      return Err;
    }
    var desiredByVMID, order := IndexDesired(desired);
    var observedByVMID, ready := IndexObserved(listing.value);
    var templateVMIDs, templateVMIDByID := IndexTemplates(desired);
    OrderIndexed(VMs(desired));
    var steps := PlanDeclared(site, order, desiredByVMID, observedByVMID, ready, templateVMIDs);
    var orphans := PlanOrphans(listing.value, desiredByVMID, templateVMIDByID);
    plan := Ok(steps + orphans);
  }

  lemma VMsNext(desired: seq<Resource>, i: nat)
    requires i < |desired|
    ensures VMs(desired[..i + 1]) == if desired[i].VM? then VMs(desired[..i]) + [desired[i].vm] else VMs(desired[..i])
    ensures Templates(desired[..i + 1])
         == if desired[i].Tpl? then Templates(desired[..i]) + [desired[i].tpl] else Templates(desired[..i])
  {
    assert desired[..i + 1][..i] == desired[..i];
  }

  lemma IndexNext(vms: seq<VirtualMachine>, vm: VirtualMachine)
    ensures VmIndex(vms + [vm]) == VmIndex(vms)[vm.spec.vmid := vm]
    ensures Order(vms + [vm]) == Order(vms) + [vm.spec.vmid]
  {
  }

  lemma TemplateIndexNext(tpls: seq<Template>, tpl: Template)
    ensures TemplateIndex(tpls + [tpl]) == TemplateIndex(tpls)[tpl.meta.name := tpl.spec.vmid]
    ensures TemplateVMIDs(tpls + [tpl]) == TemplateVMIDs(tpls) + {tpl.spec.vmid}
  {
  }

  method IndexDesired(desired: seq<Resource>) returns (byVMID: map<int, VirtualMachine>, order: seq<int>)
    ensures byVMID == VmIndex(VMs(desired)) && order == Order(VMs(desired))
  {
    byVMID, order := map[], [];
    for i := 0 to |desired|
      invariant byVMID == VmIndex(VMs(desired[..i])) && order == Order(VMs(desired[..i]))
    {
      hide VMs, VmIndex, Order;
      VMsNext(desired, i);
      if desired[i].VM? {
        var vm := desired[i].vm;
        IndexNext(VMs(desired[..i]), vm);
        byVMID := byVMID[vm.spec.vmid := vm];
        order := order + [vm.spec.vmid];
      }
    }
    assert desired[..|desired|] == desired;
  }

  method IndexObserved(observed: seq<Object>) returns (byVMID: map<int, Object>, ready: set<int>)
    ensures byVMID == ObservedVMs(observed) && ready == ReadyTemplates(observed)
  {
    byVMID, ready := map[], {};
    for i := 0 to |observed|
      invariant byVMID == ObservedVMs(observed[..i]) && ready == ReadyTemplates(observed[..i])
    {
      assert observed[..i + 1][..i] == observed[..i];
      var o := observed[i];
      if o.kind.Qemu? && !o.isTemplate {
        byVMID := byVMID[o.vmid := o];
      }
      if o.isTemplate {
        ready := ready + {o.vmid};
      }
    }
    assert observed[..|observed|] == observed;
  }

  method IndexTemplates(desired: seq<Resource>) returns (byName: map<string, int>, claimed: set<int>)
    ensures byName == TemplateIndex(Templates(desired)) && claimed == TemplateVMIDs(Templates(desired))
  {
    byName, claimed := map[], {};
    for i := 0 to |desired|
      invariant byName == TemplateIndex(Templates(desired[..i]))
      invariant claimed == TemplateVMIDs(Templates(desired[..i]))
    {
      hide Templates, TemplateIndex, TemplateVMIDs;
      VMsNext(desired, i);
      if desired[i].Tpl? {
        var tpl := desired[i].tpl;
        TemplateIndexNext(Templates(desired[..i]), tpl);
        byName := byName[tpl.meta.name := tpl.spec.vmid];
        claimed := claimed + {tpl.spec.vmid};
      }
    }
    assert desired[..|desired|] == desired;
  }

  method PlanDeclared(site: Site, order: seq<int>, vms: map<int, VirtualMachine>, observed: map<int, Object>,
                      ready: set<int>, names: map<string, int>)
    returns (actions: seq<Action>)
    requires forall v :: v in order ==> v in vms
    ensures actions == VmSteps(site, order, vms, observed, ready, names)
  {
    actions := [];
    for i := 0 to |order|
      invariant actions == VmSteps(site, order[..i], vms, observed, ready, names)
    {
      assert order[..i + 1][..i] == order[..i];
      var v := order[i];
      assert v in order;
      var obs := if v in observed then Some(observed[v]) else None;
      var step := PlanVm(site, vms[v], obs, ready, names);
      actions := actions + step;
    }
    assert order[..|order|] == order;
  }

  method PlanOrphans(observed: seq<Object>, vms: map<int, VirtualMachine>, claimed: set<int>)
    returns (actions: seq<Action>)
    ensures actions == OrphanSteps(observed, vms.Keys + claimed)
  {
    actions := [];
    for i := 0 to |observed|
      invariant actions == OrphanSteps(observed[..i], vms.Keys + claimed)
    {
      assert observed[..i + 1][..i] == observed[..i];
      var o := observed[i];
      if !(o.kind.Lxc? || o.isTemplate || !o.Owned() || o.vmid in vms || o.vmid in claimed) {
        actions := actions + [Action(ActionDelete, KindVirtualMachine, o.name, Apply.DeleteGuest(o), false, "")];
      }
    }
    assert observed[..|observed|] == observed;
  }

  /** The body of Plan's first loop, with its early `continue`s. */
  method PlanVm(site: Site, vm: VirtualMachine, obs: Option<Object>, ready: set<int>, names: map<string, int>)
    returns (actions: seq<Action>)
    ensures actions == VmStep(site, vm, obs, ready, names)
  {
    var spec := DesiredSpec(vm, names);
    if obs.None? {
      if vm.spec.fromTemplate.Some? {
        var ft := vm.spec.fromTemplate.value;
        if ft.name in names && names[ft.name] !in ready {
          return [];
        }
      }
      var apply := if spec.Some? then CreateGuest(spec.value) else SpecError(vm.spec.vmid);
      return [Action(ActionCreate, KindVirtualMachine, vm.meta.name, apply, false, "")];
    }
    var o := obs.value;
    if !o.Owned() {
      return [];
    }
    var upd, drifted := CompareGuest(vm, o);
    if drifted {
      return [Action(ActionUpdate, KindVirtualMachine, vm.meta.name, UpdateGuest(upd), false, "")];
    }
    if vm.spec.userData != "" && site.hash(vm.spec.userData) != o.cidataHash {
      var reboot := o.running;
      if reboot && vm.spec.applyMode != APPLY_MODE_REBOOT {
        return [Action(ActionUpdate, KindVirtualMachine, vm.meta.name, NoApply, true, "")];
      }
      var apply := ReseedGuest(spec, reboot, o.node, o.vmid);
      return [Action(ActionUpdate, KindVirtualMachine, vm.meta.name, apply, false, "")];
    }
    if o.rebootPending {
      if vm.spec.applyMode == APPLY_MODE_REBOOT {
        var apply := Apply.RebootGuest(o.node, o.vmid);
        return [Action(ActionUpdate, KindVirtualMachine, vm.meta.name, apply, false, "")];
      }
      return [Action(ActionUpdate, KindVirtualMachine, vm.meta.name, NoApply, true, "")];
    }
    return [];
  }
}
