/** How far each VMID is from its declared state, and that every applied action brings it closer. */
module Ranking {
  import opened Prelude
  import opened Proxmox
  import opened Manifest
  import opened Cluster
  import opened GuestPlanner
  import opened TemplatePlanner
  import opened Programs
  import opened Drift
  import opened Plans
  import opened Interleaving
  import Naming
  import Text

  /** A valid desired set: distinct VMIDs, validated manifests, and every fromTemplate declared. */
  ghost predicate WellDeclared(desired: seq<Resource>) {
    && DistinctVMIDs(desired)
    && (forall vm :: vm in VMs(desired) ==> Validate(vm).None? && Resolves(desired, vm))
  }

  predicate Resolves(desired: seq<Resource>, vm: VirtualMachine) {
    vm.spec.fromTemplate.Some? ==> vm.spec.fromTemplate.value.name in TemplateIndex(Templates(desired))
  }

  /** No declared VMID is held by a container, no VM's VMID by a template, and every guest has one socket. */
  ghost predicate Compatible(desired: seq<Resource>, guests: Guests) {
    forall v :: v in guests ==> Fits(desired, v, guests[v])
  }

  predicate Fits(desired: seq<Resource>, v: int, g: Guest) {
    && (v in VmVMIDs(desired) ==> g.kind.Qemu? && !g.isTemplate)
    && (v in TplVMIDs(desired) ==> g.kind.Qemu?)
    && g.OneSocket()
  }

  // ---------------------------------------------------------------- the ranks

  /** absent > drifted > user-data stale > restart pending > settled */
  function VmRank(site: Site, vm: VirtualMachine, g: Option<Guest>): nat {
    if g.None? then 4
    else if !g.value.Owned() then 0
    else if !MatchesDeclared(vm, g.value) then 3
    else if !SeedCurrent(site, vm, g.value) then 2
    else if RestartPending(g.value) then 1
    else 0
  }

  /** absent > unconverted > ready */
  function TemplateRank(g: Option<Guest>): nat {
    if g.None? then 2 else if g.value.Owned() && !g.value.isTemplate then 1 else 0
  }

  /** present > gone, for an owned guest that nothing declares */
  function OrphanRank(g: Option<Guest>): nat {
    if g.Some? && g.value.Owned() && (g.value.kind.Qemu? || g.value.isTemplate) then 1 else 0
  }

  function Rank(site: Site, desired: seq<Resource>, v: int, g: Option<Guest>): nat {
    var vms := VmIndex(VMs(desired));
    if v in vms then VmRank(site, vms[v], g)
    else if v in TplVMIDs(desired) then TemplateRank(g)
    else OrphanRank(g)
  }

  // ---------------------------------------------------------------- one action at a time

  /** A declared VM that carries its declared seed and runs was started with it. */
  predicate Honest(site: Site, desired: seq<Resource>, v: int, g: Option<Guest>) {
    var vms := VmIndex(VMs(desired));
    v in vms && g.Some? && SeedCurrent(site, vms[v], g.value) ==> StartedWithSeed(site, vms[v], g.value)
  }

  /** An action for `v` that has run to its end brings `v` closer, and leaves a guest that fits and stays honest. */
  ghost predicate Lowers(site: Site, desired: seq<Resource>, v: int, w: World, w': World) {
    var g, h := Lookup(w.guests, v), Lookup(w'.guests, v);
    && Rank(site, desired, v, h) < Rank(site, desired, v, g)
    && (h.Some? ==> Fits(desired, v, h.value))
    && (Honest(site, desired, v, g) ==> Honest(site, desired, v, h))
  }

  lemma HonestOfVm(site: Site, desired: seq<Resource>, vm: VirtualMachine, g: Guest)
    requires DistinctVMIDs(desired) && vm in VMs(desired)
    ensures Honest(site, desired, vm.spec.vmid, Some(g)) <==> (SeedCurrent(site, vm, g) ==> StartedWithSeed(site, vm, g))
  {
    hide SeedCurrent, StartedWithSeed;
    DeclaredApart(desired);
  }

  /** Declared VMs and declared templates have disjoint VMIDs. */
  lemma DeclaredApart(desired: seq<Resource>)
    requires DistinctVMIDs(desired)
    ensures forall vm :: vm in VMs(desired) ==>
              var v := vm.spec.vmid; v in VmVMIDs(desired) && v !in TplVMIDs(desired) && VmIndex(VMs(desired))[v] == vm
    ensures forall tpl :: tpl in Templates(desired) ==>
              tpl.spec.vmid in TplVMIDs(desired) && tpl.spec.vmid !in VmVMIDs(desired)
  {
    VmIndexMeaning(VMs(desired));
    TemplateVMIDsMeaning(Templates(desired));
    forall vm | vm in VMs(desired)
      ensures VmIndex(VMs(desired))[vm.spec.vmid] == vm
    {
      var other := VmIndex(VMs(desired))[vm.spec.vmid];
      assert other in VMs(desired) && other.spec.vmid == vm.spec.vmid;
    }
  }

  lemma RankOfVm(site: Site, desired: seq<Resource>, vm: VirtualMachine, g: Option<Guest>)
    requires DistinctVMIDs(desired) && vm in VMs(desired)
    ensures vm.spec.vmid in VmVMIDs(desired) && vm.spec.vmid !in TplVMIDs(desired)
    ensures Rank(site, desired, vm.spec.vmid, g) == VmRank(site, vm, g)
  {
    hide VmRank, TemplateRank, OrphanRank;
    DeclaredApart(desired);
  }

  lemma RankOfTemplate(site: Site, desired: seq<Resource>, tpl: Template, g: Option<Guest>)
    requires DistinctVMIDs(desired) && tpl in Templates(desired)
    ensures tpl.spec.vmid in TplVMIDs(desired) && tpl.spec.vmid !in VmVMIDs(desired)
    ensures Rank(site, desired, tpl.spec.vmid, g) == TemplateRank(g)
  {
    hide VmRank, TemplateRank, OrphanRank;
    DeclaredApart(desired);
  }

  lemma RankOfOrphan(site: Site, desired: seq<Resource>, v: int, g: Option<Guest>)
    requires v !in VmVMIDs(desired) && v !in TplVMIDs(desired)
    ensures Rank(site, desired, v, g) == OrphanRank(g)
  {
  }

  lemma CreateLeaves(site: Site, vm: VirtualMachine, names: map<string, int>, w: World, w': World)
    requires site.Valid() && Validate(vm).None? && DesiredSpec(vm, names).Some?
    requires RunAll(site, Program(site, CreateGuest(DesiredSpec(vm, names).value)), w) == Some(w')
    requires vm.spec.fromTemplate.Some? && names[vm.spec.fromTemplate.value.name] in w.guests
             ==> w.guests[names[vm.spec.fromTemplate.value.name]].OneSocket()
    ensures var v := vm.spec.vmid;
            && v !in w.guests && v in w'.guests
            && w'.guests[v].kind.Qemu? && !w'.guests[v].isTemplate && w'.guests[v].OneSocket() && w'.guests[v].Owned()
  {
    hide Naming.Tags, Text.Join, Naming.IsoVolume, Naming.CidataFilename, Validate;
    var spec := DesiredSpec(vm, names).value;
    var src := Find(w, CloneSource(spec));
    assert CreateOps(site, spec) + [] == CreateOps(site, spec);
    RunCreate(site, spec, [], w);
    CreatedIsOwned(site, vm, names, src);
    assert w'.guests[vm.spec.vmid] == Created(site, spec, Built(spec, src).value);
  }

  lemma CreateLowers(site: Site, desired: seq<Resource>, vm: VirtualMachine, w: World, w': World)
    requires site.Valid() && WellDeclared(desired) && Compatible(desired, w.guests) && vm in VMs(desired)
    requires var spec := DesiredSpec(vm, TemplateIndex(Templates(desired)));
             spec.Some? && RunAll(site, Program(site, CreateGuest(spec.value)), w) == Some(w')
    ensures Lowers(site, desired, vm.spec.vmid, w, w')
  {
    hide RunAll, StartedWithSeed, SeedCurrent, MatchesDeclared, RestartPending, Validate, Rank, Honest, VmStep;
    var v, names := vm.spec.vmid, TemplateIndex(Templates(desired));
    if vm.spec.fromTemplate.Some? && names[vm.spec.fromTemplate.value.name] in w.guests {
      var t := names[vm.spec.fromTemplate.value.name];
      assert Fits(desired, t, w.guests[t]);
    }
    CreateLeaves(site, vm, names, w, w');
    CreateThenObserve(site, vm, names, {}, w, w');
    VmStepQuiet(site, vm, v, w'.guests[v], {}, names);
    assert vm.spec.fromTemplate.Some? ==> names[vm.spec.fromTemplate.value.name] in w.guests by {
      var spec := DesiredSpec(vm, names).value;
      assert CreateOps(site, spec) + [] == CreateOps(site, spec);
      RunCreate(site, spec, [], w);
    }
    HonestOfVm(site, desired, vm, w'.guests[v]);
    RankOfVm(site, desired, vm, None);
    RankOfVm(site, desired, vm, Some(w'.guests[v]));
  }

  lemma UpdateLowers(site: Site, desired: seq<Resource>, vm: VirtualMachine, w: World, w': World)
    requires WellDeclared(desired) && Compatible(desired, w.guests) && vm in VMs(desired)
    requires vm.spec.vmid in w.guests && w.guests[vm.spec.vmid].Owned()
    requires var drift := GuestDrift(vm, Observe(vm.spec.vmid, w.guests[vm.spec.vmid]));
             drift.Some? && RunAll(site, Program(site, UpdateGuest(drift.value)), w) == Some(w')
    ensures Lowers(site, desired, vm.spec.vmid, w, w')
  {
    var v := vm.spec.vmid;
    var g := w.guests[v];
    RankOfVm(site, desired, vm, Some(g));
    assert Fits(desired, v, g);
    UpdateSettles(site, vm, v, w);
    DriftExact(vm, v, g);
    RankOfVm(site, desired, vm, Some(w'.guests[v]));
  }

  lemma ReseedLowers(site: Site, desired: seq<Resource>, vm: VirtualMachine, w: World, w': World)
    requires site.Valid() && WellDeclared(desired) && Compatible(desired, w.guests) && vm in VMs(desired)
    requires vm.spec.vmid in w.guests && w.guests[vm.spec.vmid].Owned()
    requires MatchesDeclared(vm, w.guests[vm.spec.vmid]) && !SeedCurrent(site, vm, w.guests[vm.spec.vmid])
    requires var g := w.guests[vm.spec.vmid];
             var spec := DesiredSpec(vm, TemplateIndex(Templates(desired)));
             RunAll(site, Program(site, ReseedGuest(spec, g.running, g.node, vm.spec.vmid)), w) == Some(w')
    ensures Lowers(site, desired, vm.spec.vmid, w, w')
  {
    var v := vm.spec.vmid;
    var g := w.guests[v];
    var spec := DesiredSpec(vm, TemplateIndex(Templates(desired))).value;
    var cycle := if g.running then [SetPower(g.node, v, false), SetPower(g.node, v, true)] else [];
    RunReseed(site, spec, cycle, w);
    var seeded := g.(ide0 := SeedIde0(site, spec));
    var w1 := AfterReseed(site, spec, w).value;
    assert w1.guests[v] == seeded;
    if g.running {
      RunReboot(site, g.node, v, w1);
    }
    var h := w'.guests[v];
    assert h == if g.running then Rebooted(seeded) else seeded;
    Naming.SeedVolumeParsesBack(site.isoStorage, v, site.hash(vm.spec.userData));
    assert Fits(desired, v, g);
    RankOfVm(site, desired, vm, Some(g));
    RankOfVm(site, desired, vm, Some(h));
  }

  lemma RebootLowers(site: Site, desired: seq<Resource>, vm: VirtualMachine, w: World, w': World)
    requires WellDeclared(desired) && Compatible(desired, w.guests) && vm in VMs(desired)
    requires vm.spec.vmid in w.guests && w.guests[vm.spec.vmid].Owned()
    requires var g := w.guests[vm.spec.vmid];
             && MatchesDeclared(vm, g) && SeedCurrent(site, vm, g) && RestartPending(g)
             && RunAll(site, Program(site, Apply.RebootGuest(g.node, vm.spec.vmid)), w) == Some(w')
    ensures Lowers(site, desired, vm.spec.vmid, w, w')
  {
    hide Naming.Tags, Naming.ParseCidataHash, RunAll, Validate, MatchesDeclared, SeedCurrent, StartedWithSeed, Rank, Honest;
    var v := vm.spec.vmid;
    var g := w.guests[v];
    RunReboot(site, g.node, v, w);
    RebootedSettles(site, vm, g);
    HonestOfVm(site, desired, vm, Rebooted(g));
    assert w'.guests[v] == Rebooted(g);
    assert Fits(desired, v, g);
    RankOfVm(site, desired, vm, Some(g));
    RankOfVm(site, desired, vm, Some(Rebooted(g)));
  }

  /** A restart changes nothing but the values the guest runs with. */
  lemma RebootedSettles(site: Site, vm: VirtualMachine, g: Guest)
    requires g.running
    ensures Rebooted(g) == g.(liveCores := g.ConfiguredCores(), liveMemoryMB := g.memoryMB, startedIde0 := g.ide0)
    ensures MatchesDeclared(vm, Rebooted(g)) <==> MatchesDeclared(vm, g)
    ensures SeedCurrent(site, vm, Rebooted(g)) <==> SeedCurrent(site, vm, g)
    ensures !RestartPending(Rebooted(g))
    ensures StartedWithSeed(site, vm, Rebooted(g)) <==> SeedCurrent(site, vm, g)
  {
  }

  /** The VM lines of the plan: what they run, and that running them brings the VM closer. */
  lemma VmActionLowers(site: Site, desired: seq<Resource>, vm: VirtualMachine, a: Action, w: World, w': World)
    requires site.Valid() && WellDeclared(desired) && Compatible(desired, w.guests) && vm in VMs(desired)
    requires a in VmActions(site, desired, w.guests, vm) && !a.informational
    requires RunAll(site, Program(site, a.apply), w) == Some(w')
    ensures Lowers(site, desired, vm.spec.vmid, w, w')
  {
    var v := vm.spec.vmid;
    assert Resolves(desired, vm);
    RankOfVm(site, desired, vm, None);
    if v in w.guests {
      var g := w.guests[v];
      assert Fits(desired, v, g);
      DriftExact(vm, v, g);
      if !MatchesDeclared(vm, g) {
        UpdateLowers(site, desired, vm, w, w');
      } else if !SeedCurrent(site, vm, g) {
        ReseedLowers(site, desired, vm, w, w');
      } else {
        RebootLowers(site, desired, vm, w, w');
      }
    } else {
      CreateLowers(site, desired, vm, w, w');
    }
  }

  /** The template lines of the plan bring the template closer. */
  lemma TemplateActionLowers(site: Site, desired: seq<Resource>, tpl: Template, a: Action, w: World, w': World)
    requires DistinctVMIDs(desired) && Compatible(desired, w.guests) && tpl in Templates(desired)
    requires a in TemplateActions(w.guests, tpl)
    requires RunAll(site, Program(site, a.apply), w) == Some(w')
    ensures Lowers(site, desired, tpl.spec.vmid, w, w')
  {
    var v := tpl.spec.vmid;
    RankOfTemplate(site, desired, tpl, Lookup(w.guests, v));
    if v in w.guests {
      var g := w.guests[v];
      assert Fits(desired, v, g);
      RunConvert(site, g.node, v, w);
    } else {
      var spec := BuildSpec(tpl);
      var conv := [Convert(spec.node, v)];
      RunCreate(site, spec, conv, w);
      var w1 := AfterCreate(site, spec, w).value;
      RunConvert(site, spec.node, v, w1);
      Naming.ManagedTagRecovered(tpl.meta.tags);
    }
    RankOfTemplate(site, desired, tpl, Lookup(w'.guests, v));
  }

  /** A template's line, once it has run, leaves an owned template. */
  lemma TemplateReady(site: Site, tpl: Template, a: Action, w: World, w': World)
    requires a in TemplateActions(w.guests, tpl) && RunAll(site, Program(site, a.apply), w) == Some(w')
    ensures var v := tpl.spec.vmid;
            && v in w'.guests && w'.guests == w.guests[v := w'.guests[v]]
            && w'.guests[v].isTemplate && w'.guests[v].Owned() && w'.guests[v].kind.Qemu?
            && (v in w.guests ==> w'.guests[v] == w.guests[v].(isTemplate := true))
            && (v !in w.guests ==>
                  var h := w'.guests[v];
                  && (h.name, h.node, h.cores, h.memoryMB, h.cpu)
                     == (tpl.meta.name, tpl.meta.node, tpl.spec.cores, tpl.spec.memory, tpl.spec.cpu)
                  && !h.running && h.ide0 == "" && (h.ciUser, h.ip, h.nameserver, h.searchDomain) == ("", "", "", ""))
  {
    hide Naming.Tags, Text.Join, RunAll;
    var v := tpl.spec.vmid;
    if v in w.guests {
      RunConvert(site, w.guests[v].node, v, w);
    } else {
      var spec := BuildSpec(tpl);
      RunCreate(site, spec, [Convert(spec.node, v)], w);
      RunConvert(site, spec.node, v, AfterCreate(site, spec, w).value);
      Naming.ManagedTagRecovered(tpl.meta.tags);
    }
  }

  /** A deletion takes an orphan away. */
  lemma OrphanActionLowers(site: Site, desired: seq<Resource>, v: int, a: Action, w: World, w': World)
    requires v in w.guests && v !in TplVMIDs(desired) && v !in VmVMIDs(desired)
    requires a in OrphanActions(desired, w.guests, v)
    requires RunAll(site, Program(site, a.apply), w) == Some(w')
    ensures Lowers(site, desired, v, w, w')
  {
    RunDelete(site, Observe(v, w.guests[v]), w);
    RankOfOrphan(site, desired, v, Lookup(w.guests, v));
    RankOfOrphan(site, desired, v, None);
  }
}
