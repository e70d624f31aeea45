/** Drift detection against the guest's own state, and what correcting it does. */
module Drift {
  import opened Prelude
  import opened Proxmox
  import opened Manifest
  import opened Cluster
  import opened GuestPlanner
  import opened Programs
  import Naming
  import TemplatePlanner
  import Text

  /** Every field that the manifest declares has its declared value on the guest. */
  predicate MatchesDeclared(vm: VirtualMachine, g: Guest) {
    var s := vm.spec;
    && (s.cores > 0 ==> g.ConfiguredCores() == s.cores)
    && (s.memory > 0 ==> g.memoryMB == s.memory)
    && (s.cpu != "" ==> g.cpu == s.cpu)
    && (s.state != "" ==> (g.running <==> s.state == STATE_RUNNING))
    && (s.cloudInit.Some? ==>
          var ci := s.cloudInit.value;
          && (ci.user != "" ==> g.ciUser == ci.user)
          && (ci.ip != "" ==> g.ip == NormalizeIP(ci.ip))
          && (ci.nameserver != "" ==> g.nameserver == ci.nameserver)
          && (ci.searchDomain != "" ==> g.searchDomain == ci.searchDomain))
  }

  /** Every field that the manifest leaves open, and the guest's identity, are the same in `g` and `h`. */
  predicate UndeclaredKept(vm: VirtualMachine, g: Guest, h: Guest) {
    var s := vm.spec;
    var ci := if s.cloudInit.Some? then s.cloudInit.value else CloudInit("", "", [], "", "", "");
    && (s.cores <= 0 ==> h.ConfiguredCores() == g.ConfiguredCores())
    && (s.memory <= 0 ==> h.memoryMB == g.memoryMB)
    && (s.cpu == "" ==> h.cpu == g.cpu)
    && (s.state == "" ==> h.running == g.running)
    && (ci.user == "" ==> h.ciUser == g.ciUser)
    && (ci.ip == "" ==> h.ip == g.ip)
    && (ci.nameserver == "" ==> h.nameserver == g.nameserver)
    && (ci.searchDomain == "" ==> h.searchDomain == g.searchDomain)
    && (h.kind, h.name, h.node, h.tags) == (g.kind, g.name, g.node, g.tags)
    && (h.isTemplate, h.sockets, h.ide0) == (g.isTemplate, g.sockets, g.ide0)
  }

  /** The seed attached to the guest carries the declared user-data. */
  predicate SeedCurrent(site: Site, vm: VirtualMachine, g: Guest) {
    vm.spec.userData != "" ==> Naming.ParseCidataHash(g.ide0) == site.hash(vm.spec.userData)
  }

  /** A running guest was started with the declared user-data. */
  predicate StartedWithSeed(site: Site, vm: VirtualMachine, g: Guest) {
    g.running && vm.spec.userData != "" ==> Naming.ParseCidataHash(g.startedIde0) == site.hash(vm.spec.userData)
  }

  /** The guest runs with values older than its configuration. */
  predicate RestartPending(g: Guest) {
    g.running && (g.ConfiguredCores() != g.liveCores || g.memoryMB != g.liveMemoryMB)
  }

  lemma NormalizeIPIdempotent(ip: string)
    ensures NormalizeIP(NormalizeIP(ip)) == NormalizeIP(ip)
  {
  }

  /** Drift is reported exactly when some declared field differs from the guest. */
  lemma DriftExact(vm: VirtualMachine, v: int, g: Guest)
    requires g.kind.Qemu?
    ensures GuestDrift(vm, Observe(v, g)).None? <==> MatchesDeclared(vm, g)
  {
  }

  /** After an update the guest observes as declared in all but, possibly, its core count. */
  lemma UpdatedFields(vm: VirtualMachine, v: int, g: Guest)
    requires g.kind.Qemu? && GuestDrift(vm, Observe(v, g)).Some?
    ensures var upd := GuestDrift(vm, Observe(v, g)).value;
            var h := Updated(g, upd);
            && h.cores == upd.cores == (if vm.spec.cores > 0 then vm.spec.cores else g.ConfiguredCores())
            && h.sockets == g.sockets
            && MatchesDeclared(vm.(spec := vm.spec.(cores := 0)), h)
            && UndeclaredKept(vm.(spec := vm.spec.(cores := 1)), g, h)
  {
  }

  /**
   One UpdateGuest removes all drift and leaves every undeclared field alone exactly when the guest has
   one socket: the update writes the observed product cores x sockets back as the core count.
   */
  lemma UpdateSettles(site: Site, vm: VirtualMachine, v: int, w: World)
    requires v in w.guests && w.guests[v].kind.Qemu?
    requires GuestDrift(vm, Observe(v, w.guests[v])).Some?
    ensures var g := w.guests[v];
            var upd := GuestDrift(vm, Observe(v, g)).value;
            && RunAll(site, Program(site, UpdateGuest(upd)), w) == Some(WithGuest(w, v, Updated(g, upd)))
            && (MatchesDeclared(vm, Updated(g, upd)) && UndeclaredKept(vm, g, Updated(g, upd)) <==> g.OneSocket())
            && (!g.running ==> !RestartPending(Updated(g, upd)) && StartedWith(Updated(g, upd), g.ide0))
            && (g.running && upd.running ==> StillRuns(g, Updated(g, upd)))
  {
    var g := w.guests[v];
    var upd := GuestDrift(vm, Observe(v, g)).value;
    RunUpdate(site, upd, w);
    UpdatedFields(vm, v, g);
    SocketsDecide(vm, g, Updated(g, upd));
  }

  /** A running guest was started with what is given as its ide0. */
  predicate StartedWith(g: Guest, ide0: string) {
    g.running ==> g.startedIde0 == ide0
  }

  /** The guest was not restarted. */
  predicate StillRuns(g: Guest, h: Guest) {
    h.running && (h.liveCores, h.liveMemoryMB, h.startedIde0) == (g.liveCores, g.liveMemoryMB, g.startedIde0)
  }

  lemma SocketsDecide(vm: VirtualMachine, g: Guest, h: Guest)
    requires h.cores == (if vm.spec.cores > 0 then vm.spec.cores else g.ConfiguredCores()) && h.sockets == g.sockets
    requires MatchesDeclared(vm.(spec := vm.spec.(cores := 0)), h)
    requires UndeclaredKept(vm.(spec := vm.spec.(cores := 1)), g, h)
    ensures MatchesDeclared(vm, h) && UndeclaredKept(vm, g, h) <==> g.OneSocket()
  {
  }

  /** The guest that a create run leaves carries the ownership tag, and is a VM on its node. */
  lemma CreatedIsOwned(site: Site, vm: VirtualMachine, names: map<string, int>, src: Option<Guest>)
    requires DesiredSpec(vm, names).Some? && Built(DesiredSpec(vm, names).value, src).Some?
    ensures var spec := DesiredSpec(vm, names).value;
            var h := Created(site, spec, Built(spec, src).value);
            h.Owned() && h.kind.Qemu? && !h.isTemplate && h.name == vm.meta.name && h.node == vm.meta.node
  {
    hide Naming.Tags, Text.Join, Naming.IsoVolume, Naming.CidataFilename;
    Naming.ManagedTagRecovered(vm.meta.tags);
  }

  /** The plan line for one VM is empty exactly when an owned guest is settled. */
  lemma VmStepQuiet(site: Site, vm: VirtualMachine, v: int, g: Guest, ready: set<int>, names: map<string, int>)
    requires g.kind.Qemu?
    ensures VmStep(site, vm, Some(Observe(v, g)), ready, names) == []
       <==> !g.Owned() || (MatchesDeclared(vm, g) && SeedCurrent(site, vm, g) && !RestartPending(g))
  {
  }

  /**
   Creating a validated manifest's VM and observing it plans nothing more for it. The only exception is
   a clone that declares cores for a template with several sockets.
   */
  lemma CreateThenObserve(site: Site, vm: VirtualMachine, names: map<string, int>, ready: set<int>, w: World, w': World)
    requires site.Valid() && Validate(vm).None? && DesiredSpec(vm, names).Some?
    requires RunAll(site, Program(site, CreateGuest(DesiredSpec(vm, names).value)), w) == Some(w')
    ensures var v := vm.spec.vmid;
            && v !in w.guests && v in w'.guests && w'.guests == w.guests[v := w'.guests[v]]
            && w'.guests[v].Owned() && StartedWithSeed(site, vm, w'.guests[v])
            && (VmStep(site, vm, Some(Observe(v, w'.guests[v])), ready, names) == []
                <==> (vm.spec.fromTemplate.Some? && vm.spec.cores > 0
                      ==> w.guests[names[vm.spec.fromTemplate.value.name]].OneSocket()))
  {
    hide Naming.Tags, Text.Join, Naming.ParseCidataHash, VmStep, Validate, Built, Created, MatchesDeclared, SeedCurrent,
      StartedWithSeed;
    var v := vm.spec.vmid;
    var spec := DesiredSpec(vm, names).value;
    var src := Find(w, CloneSource(spec));
    assert CreateOps(site, spec) + [] == CreateOps(site, spec);
    RunCreate(site, spec, [], w);
    CreatedIsOwned(site, vm, names, src);
    VmStepQuiet(site, vm, v, w'.guests[v], ready, names);
    CreatedSettled(site, vm, names, src);
    BuiltMatches(vm, names, src);
  }

  /** A created guest carries its seed, runs with its configured values, and matches as far as it was built to. */
  lemma CreatedSettled(site: Site, vm: VirtualMachine, names: map<string, int>, src: Option<Guest>)
    requires site.Valid() && Validate(vm).None? && DesiredSpec(vm, names).Some?
    requires Built(DesiredSpec(vm, names).value, src).Some?
    ensures var spec := DesiredSpec(vm, names).value;
            var b := Built(spec, src).value;
            var h := Created(site, spec, b);
            && SeedCurrent(site, vm, h) && StartedWithSeed(site, vm, h) && !RestartPending(h)
            && (MatchesDeclared(vm, h) <==> MatchesDeclared(vm, b.(running := spec.running)))
  {
    hide Naming.Tags, Text.Join, Naming.IsoVolume, Naming.CidataFilename, Naming.ParseCidataHash;
    if vm.spec.userData != "" {
      Naming.SeedVolumeParsesBack(site.isoStorage, vm.spec.vmid, site.hash(vm.spec.userData));
    }
    assert !Built(DesiredSpec(vm, names).value, src).value.running;
  }

  lemma BuiltMatches(vm: VirtualMachine, names: map<string, int>, src: Option<Guest>)
    requires Validate(vm).None? && DesiredSpec(vm, names).Some?
    requires Built(DesiredSpec(vm, names).value, src).Some?
    ensures var spec := DesiredSpec(vm, names).value;
            (MatchesDeclared(vm, Built(spec, src).value.(running := spec.running))
             <==> (vm.spec.fromTemplate.Some? && vm.spec.cores > 0 ==> src.value.OneSocket()))
  {
  }

  /** Tags that survive the join are observed as declared, followed by the ownership tag. */
  lemma CreatedTags(site: Site, vm: VirtualMachine, names: map<string, int>, src: Option<Guest>)
    requires DesiredSpec(vm, names).Some? && Built(DesiredSpec(vm, names).value, src).Some?
    requires forall t :: t in vm.meta.tags ==> Naming.CleanTag(t)
    ensures var spec := DesiredSpec(vm, names).value;
            Naming.Tags(Created(site, spec, Built(spec, src).value).tags) == vm.meta.tags + [MANAGED_TAG]
  {
    hide Naming.Tags, Text.Join, Naming.IsoVolume, Naming.CidataFilename, Naming.CleanTag;
    assert Naming.CleanTag(MANAGED_TAG) by {
      ManagedTagClean();
    }
    Naming.TagsRecovered(vm.meta.tags + [MANAGED_TAG]);
  }

  lemma ManagedTagClean()
    ensures Naming.CleanTag(MANAGED_TAG)
  {
  }

  // ---------------------------------------------------------------- when a create succeeds

  /**
   The VM can be created: its VMID is free, an image has a disk storage to go to, and a template is declared and is a VM
   on the same node that is converted or is cloned in full.
   */
  predicate Creatable(vm: VirtualMachine, names: map<string, int>, guests: Guests) {
    var s := vm.spec;
    && s.vmid !in guests
    && (s.image.Some? ==> s.disks != [] && s.disks[0].storage != "")
    && (s.fromTemplate.Some? ==>
          && s.fromTemplate.value.name in names
          && var t := names[s.fromTemplate.value.name];
             t in guests && guests[t].kind.Qemu? && guests[t].node == vm.meta.node
             && (guests[t].isTemplate || !s.fromTemplate.value.linked))
  }

  /** The create that is planned for an absent VM can run to its end exactly when the VM can be created. */
  lemma CreateSucceedsExactly(site: Site, vm: VirtualMachine, ready: set<int>, names: map<string, int>, w: World, a: Action)
    requires Validate(vm).None? && a in VmStep(site, vm, None, ready, names)
    ensures RunAll(site, Program(site, a.apply), w).Some? <==> Creatable(vm, names, w.guests)
  {
    hide Naming.Tags, Text.Join, Naming.IsoVolume, Naming.CidataFilename, GuestDrift, SeedOps;
    var spec := DesiredSpec(vm, names);
    if spec.Some? {
      assert CreateOps(site, spec.value) + [] == CreateOps(site, spec.value);
      RunCreate(site, spec.value, [], w);
    }
  }

  /** The build that is planned for an absent template can run to its end exactly when its VMID is free and its image has a disk storage. */
  lemma BuildSucceedsExactly(site: Site, tpl: Template, w: World)
    ensures RunAll(site, Program(site, BuildTemplate(TemplatePlanner.BuildSpec(tpl))), w).Some?
       <==> tpl.spec.vmid !in w.guests && (tpl.spec.image.Some? ==> tpl.spec.disks != [] && tpl.spec.disks[0].storage != "")
  {
    hide Naming.Tags, Text.Join, RunAll, CreateOps;
    var spec := TemplatePlanner.BuildSpec(tpl);
    RunCreate(site, spec, [Convert(spec.node, spec.vmid)], w);
    var w1 := AfterCreate(site, spec, w);
    if w1.Some? {
      RunConvert(site, spec.node, spec.vmid, w1.value);
    }
  }

  /** The deletion planned for an observed guest can run to its end exactly when the guest is a VM. */
  lemma DeleteSucceedsExactly(site: Site, v: int, w: World)
    requires v in w.guests
    ensures RunAll(site, Program(site, Apply.DeleteGuest(Observe(v, w.guests[v]))), w).Some? <==> w.guests[v].kind.Qemu?
  {
    hide RunAll, Naming.Tags, Naming.ParseCidataHash;
    RunDelete(site, Observe(v, w.guests[v]), w);
  }

  /** The sync planned for an observed VM can run to its end exactly when its manifest resolves and names its node. */
  lemma ReseedSucceedsExactly(site: Site, vm: VirtualMachine, names: map<string, int>, w: World)
    requires vm.spec.vmid in w.guests && w.guests[vm.spec.vmid].kind.Qemu? && vm.spec.userData != ""
    ensures var g := w.guests[vm.spec.vmid];
            RunAll(site, Program(site, ReseedGuest(DesiredSpec(vm, names), g.running, g.node, vm.spec.vmid)), w).Some?
            <==> DesiredSpec(vm, names).Some? && vm.meta.node == g.node
  {
    hide Naming.Tags, Naming.ParseCidataHash, Naming.IsoVolume, Naming.CidataFilename;
    var v := vm.spec.vmid;
    var g, spec := w.guests[v], DesiredSpec(vm, names);
    var cycle := if g.running then [SetPower(g.node, v, false), SetPower(g.node, v, true)] else [];
    if spec.Some? {
      RunReseed(site, spec.value, cycle, w);
      var w1 := AfterReseed(site, spec.value, w);
      if w1.Some? && g.running {
        RunReboot(site, g.node, v, w1.value);
      }
    } else {
      Unroll(site, Raise(v), cycle, w);
    }
  }

  /** The clone `h` keeps every field of its template `g` that its manifest leaves open. */
  predicate KeepsTemplate(vm: VirtualMachine, g: Guest, h: Guest) {
    var s := vm.spec;
    var ci := if s.cloudInit.Some? then s.cloudInit.value else NO_CLOUD_INIT;
    && h.sockets == g.sockets && h.kind == g.kind && h.node == g.node
    && (s.cores <= 0 ==> h.cores == g.cores)
    && (s.memory <= 0 ==> h.memoryMB == g.memoryMB)
    && (s.cpu == "" ==> h.cpu == g.cpu)
    && (ci.user == "" ==> h.ciUser == g.ciUser)
    && (ci.ip == "" ==> h.ip == g.ip)
    && (ci.nameserver == "" ==> h.nameserver == g.nameserver)
    && (ci.searchDomain == "" ==> h.searchDomain == g.searchDomain)
    && (s.iso == "" && s.userData == "" ==> h.ide0 == g.ide0)
  }

  lemma BuiltKeepsTemplate(site: Site, vm: VirtualMachine, names: map<string, int>, src: Option<Guest>)
    requires DesiredSpec(vm, names).Some? && vm.spec.fromTemplate.Some?
    requires Built(DesiredSpec(vm, names).value, src).Some?
    ensures var spec := DesiredSpec(vm, names).value;
            src.Some? && KeepsTemplate(vm, src.value, Created(site, spec, Built(spec, src).value))
  {
    hide Naming.Tags, Text.Join, Naming.IsoVolume, Naming.CidataFilename;
  }

  /** A VM created from a template keeps what its manifest leaves open. */
  lemma CloneKeepsTemplate(site: Site, vm: VirtualMachine, names: map<string, int>, w: World, w': World)
    requires Validate(vm).None? && DesiredSpec(vm, names).Some? && vm.spec.fromTemplate.Some?
    requires RunAll(site, Program(site, CreateGuest(DesiredSpec(vm, names).value)), w) == Some(w')
    ensures vm.spec.vmid in w'.guests && names[vm.spec.fromTemplate.value.name] in w.guests
    ensures KeepsTemplate(vm, w.guests[names[vm.spec.fromTemplate.value.name]], w'.guests[vm.spec.vmid])
  {
    hide Validate, KeepsTemplate, Built, Created;
    var spec := DesiredSpec(vm, names).value;
    assert CreateOps(site, spec) + [] == CreateOps(site, spec);
    RunCreate(site, spec, [], w);
    BuiltKeepsTemplate(site, vm, names, Find(w, CloneSource(spec)));
  }

  /** A created VM has its declared ISO in the drive, an undeclared one leaves the drive of a VM of its own empty. */
  lemma CreatedCdrom(site: Site, vm: VirtualMachine, names: map<string, int>, w: World, w': World)
    requires Validate(vm).None? && DesiredSpec(vm, names).Some? && vm.spec.userData == ""
    requires RunAll(site, Program(site, CreateGuest(DesiredSpec(vm, names).value)), w) == Some(w')
    ensures vm.spec.vmid in w'.guests
    ensures vm.spec.iso != "" ==> w'.guests[vm.spec.vmid].ide0 == vm.spec.iso + ",media=cdrom"
    ensures vm.spec.iso == "" && vm.spec.fromTemplate.None? ==> w'.guests[vm.spec.vmid].ide0 == ""
  {
    hide Naming.Tags, Text.Join, Validate;
    var spec := DesiredSpec(vm, names).value;
    assert CreateOps(site, spec) + [] == CreateOps(site, spec);
    RunCreate(site, spec, [], w);
  }

  // ---------------------------------------------------------------- restarts

  /** Bringing the guest up to date takes a restart: new user-data for a running guest, or pending values. */
  predicate NeedsRestart(site: Site, vm: VirtualMachine, g: Guest) {
    g.running && (!SeedCurrent(site, vm, g) || RestartPending(g))
  }

  predicate Restarts(ops: seq<Op>, g: Guest, v: int) {
    SetPower(g.node, v, false) in ops && SetPower(g.node, v, true) in ops
  }

  /** A guest without drift is restarted exactly when it needs to be and its manifest asks for it; else it is reported. */
  lemma RestartsAreGated(site: Site, vm: VirtualMachine, v: int, g: Guest, ready: set<int>, names: map<string, int>)
    requires g.kind.Qemu? && g.Owned() && MatchesDeclared(vm, g) && DesiredSpec(vm, names).Some?
    ensures var step := VmStep(site, vm, Some(Observe(v, g)), ready, names);
            if SeedCurrent(site, vm, g) && !RestartPending(g) then step == []
            else
              && |step| == 1
              && (step[0].informational <==> NeedsRestart(site, vm, g) && vm.spec.applyMode != APPLY_MODE_REBOOT)
              && (Restarts(Program(site, step[0].apply), g, v)
                  <==> NeedsRestart(site, vm, g) && vm.spec.applyMode == APPLY_MODE_REBOOT)
              && (ReadSeed(DesiredSpec(vm, names).value) in Program(site, step[0].apply)
                  <==> !SeedCurrent(site, vm, g) && !step[0].informational)
  {
    hide Naming.Tags, Naming.ParseCidataHash, GuestDrift;
    DriftExact(vm, v, g);
  }

  /**
   After the user-data is synced the new seed is attached, and a running guest has been started with it; nothing but
   the attachment and what a running guest runs with has changed.
   */
  lemma ReseedSettles(site: Site, vm: VirtualMachine, names: map<string, int>, w: World, w': World)
    requires site.Valid() && Validate(vm).None? && DesiredSpec(vm, names).Some? && vm.spec.userData != ""
    requires vm.spec.vmid in w.guests
    requires var g := w.guests[vm.spec.vmid];
             RunAll(site, Program(site, ReseedGuest(DesiredSpec(vm, names), g.running, g.node, vm.spec.vmid)), w) == Some(w')
    ensures var g, v := w.guests[vm.spec.vmid], vm.spec.vmid;
            && v in w'.guests && w'.guests == w.guests[v := w'.guests[v]]
            && var h := w'.guests[v];
               && h.(ide0 := g.ide0, liveCores := g.liveCores, liveMemoryMB := g.liveMemoryMB, startedIde0 := g.startedIde0) == g
               && SeedCurrent(site, vm, h) && StartedWithSeed(site, vm, h) && !RestartPending(h)
  {
    hide Naming.Tags, Naming.ParseCidataHash, Naming.IsoVolume, Naming.CidataFilename, RunAll;
    var v := vm.spec.vmid;
    var g := w.guests[v];
    var spec := DesiredSpec(vm, names).value;
    var cycle := if g.running then [SetPower(g.node, v, false), SetPower(g.node, v, true)] else [];
    RunReseed(site, spec, cycle, w);
    var w1 := AfterReseed(site, spec, w).value;
    if g.running {
      RunReboot(site, g.node, v, w1);
    } else {
      RunEmpty(site, w1);
    }
    Naming.SeedVolumeParsesBack(site.isoStorage, v, site.hash(vm.spec.userData));
  }
}
