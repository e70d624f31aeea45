/** The operations under every script of answers: what holds when calls are refused, or take effect and report an error. */
module Scripts {
  import opened Prelude
  import opened Proxmox
  import opened Cluster
  import opened PveClient
  import opened Programs
  import opened SeedInventory
  import Drift
  import GuestPlanner
  import Manifest
  import Naming
  import Text

  // ---------------------------------------------------------------- sync, then restart

  /** Only the guest `v` may differ, and only in what is attached at ide0: it is what it was, or the declared seed. */
  ghost predicate OnlyReattached(site: Site, spec: GuestSpec, w: World, w': World) {
    var v := spec.vmid;
    && (forall u :: u != v ==> Lookup(w'.guests, u) == Lookup(w.guests, u))
    && (v in w'.guests <==> v in w.guests)
    && (v in w.guests ==> w'.guests[v] in {w.guests[v], w.guests[v].(ide0 := SeedIde0(site, spec))})
  }

  lemma SeedScript(site: Site, spec: GuestSpec, w: World, answers: seq<Outcome>)
    requires spec.userData != ""
    ensures var r := Execute(site, SeedOps(site, spec), w, answers);
            && OnlyReattached(site, spec, w, r.world)
            && (r.ok ==> VmOn(Lookup(w.guests, spec.vmid), spec.node) && r.world.guests[spec.vmid].ide0 == SeedIde0(site, spec))
  {
    hide Execute, Naming.CidataFilename, Naming.IsoVolume;
    var up, att := UploadSeed(SeedFile(site, spec)), AttachSeed(spec.node, spec.vmid, SeedIde0(site, spec));
    assert SeedOps(site, spec) == [up] + [att];
    ExecuteAppend(site, [up], [att], w, answers);
    ExecuteOne(site, up, w, answers);
    var r := Execute(site, [up], w, answers);
    ExecuteOne(site, att, r.world, r.answers);
  }

  lemma DropScript(site: Site, file: Option<IsoFile>, w: World, answers: seq<Outcome>)
    ensures var r := Execute(site, DropOps(file), w, answers);
            r.ok && r.world.guests == w.guests && r.world.files in {w.files, w.files - if file.Some? then {file.value} else {}}
  {
    hide Execute;
    if file.Some? {
      ExecuteOne(site, DropSeed(file.value), w, answers);
    } else {
      ExecuteNone(site, w, answers);
    }
  }

  /** SyncUserData, however it is answered, changes nothing of the guest but the attachment. */
  lemma SyncScript(site: Site, spec: GuestSpec, w: World, answers: seq<Outcome>)
    requires spec.userData != ""
    ensures var r := Execute(site, [ReadSeed(spec)], w, answers);
            && OnlyReattached(site, spec, w, r.world)
            && (r.ok ==> VmOn(Lookup(w.guests, spec.vmid), spec.node) && r.world.guests[spec.vmid].ide0 == SeedIde0(site, spec))
  {
    hide Execute, SeedOps, DropOps, StaleSeed, SeedIde0, Naming.CidataFilename;
    ReadSeedGoesOn(site, spec, w, answers);
    var g := Lookup(w.guests, spec.vmid);
    var ide0 := if !Answer(answers).Refused? && VmOn(g, spec.node) then g.value.ide0 else "";
    var drop := StaleSeed(ide0, Naming.CidataFilename(spec.vmid, site.hash(spec.userData)));
    ExecuteAppend(site, SeedOps(site, spec), DropOps(drop), w, Later(answers));
    SeedScript(site, spec, w, Later(answers));
    var r := Execute(site, SeedOps(site, spec), w, Later(answers));
    DropScript(site, drop, r.world, r.answers);
  }

  /** A restart, however it is answered: the guest is as it was, or off, or started with what is attached now. */
  lemma RestartScript(site: Site, node: string, v: int, w: World, answers: seq<Outcome>)
    ensures var r := Execute(site, [SetPower(node, v, false), SetPower(node, v, true)], w, answers);
            && (forall u :: u != v ==> Lookup(r.world.guests, u) == Lookup(w.guests, u))
            && (v in w.guests <==> v in r.world.guests)
            && (v in w.guests ==>
                  var g, h := w.guests[v], r.world.guests[v];
                  && h.ide0 == g.ide0
                  && (h == g || (h.running ==> h.startedIde0 == g.ide0))
                  && (r.ok ==> h.running && h.startedIde0 == g.ide0))
  {
    hide Execute, Naming.Tags;
    var off, on := SetPower(node, v, false), SetPower(node, v, true);
    assert [off, on] == [off] + [on];
    ExecuteAppend(site, [off], [on], w, answers);
    ExecuteOne(site, off, w, answers);
    var r := Execute(site, [off], w, answers);
    ExecuteOne(site, on, r.world, r.answers);
  }

  /**
   A guest whose user-data is synced and restarted, however the calls are answered: as long as the declared seed is not
   attached, its power state and all it runs with are untouched; once it was stopped or started, the declared seed is
   attached, and if it runs it was started with that seed; a success with a restart ends in this state.
   */
  lemma RestartsOnlyWithSeed(site: Site, spec: GuestSpec, reboot: bool, node: string, w: World, answers: seq<Outcome>)
    requires spec.userData != "" && spec.vmid in w.guests
    ensures var r := Execute(site, Program(site, ReseedGuest(Some(spec), reboot, node, spec.vmid)), w, answers);
            var g, seed := w.guests[spec.vmid], SeedIde0(site, spec);
            && spec.vmid in r.world.guests
            && var h := r.world.guests[spec.vmid];
               && (h.ide0 != seed || !reboot ==> h.(ide0 := g.ide0) == g)
               && (h.(ide0 := g.ide0) == g || (h.ide0 == seed && (h.running ==> h.startedIde0 == seed)))
               && (r.ok ==> h.ide0 == seed && (reboot ==> h.running && h.startedIde0 == seed))
  {
    hide Execute, SeedIde0, Naming.Tags;
    var v := spec.vmid;
    var cycle := if reboot then [SetPower(node, v, false), SetPower(node, v, true)] else [];
    ExecuteAppend(site, [ReadSeed(spec)], cycle, w, answers);
    SyncScript(site, spec, w, answers);
    var r := Execute(site, [ReadSeed(spec)], w, answers);
    RestartScript(site, node, v, r.world, r.answers);
    ExecuteNone(site, r.world, r.answers);
  }

  /** A sync that fails ends the whole action, with the power state and all the guest runs with untouched. */
  lemma FailedSyncKeepsPower(site: Site, spec: GuestSpec, reboot: bool, node: string, w: World, answers: seq<Outcome>)
    requires spec.userData != "" && spec.vmid in w.guests && !Execute(site, [ReadSeed(spec)], w, answers).ok
    ensures var r := Execute(site, Program(site, ReseedGuest(Some(spec), reboot, node, spec.vmid)), w, answers);
            && !r.ok && spec.vmid in r.world.guests
            && r.world.guests[spec.vmid].(ide0 := w.guests[spec.vmid].ide0) == w.guests[spec.vmid]
  {
    hide Execute, SeedIde0, Naming.Tags;
    var cycle := if reboot then [SetPower(node, spec.vmid, false), SetPower(node, spec.vmid, true)] else [];
    ExecuteAppend(site, [ReadSeed(spec)], cycle, w, answers);
    SyncScript(site, spec, w, answers);
  }

  /** Neither a failed read of the old attachment nor a failed removal of the old seed fails a sync. */
  lemma SyncSurvives(site: Site, spec: GuestSpec, w: World, first: Outcome)
    requires spec.userData != ""
    ensures Execute(site, [ReadSeed(spec)], w, [first]).ok <==> VmOn(Lookup(w.guests, spec.vmid), spec.node)
  {
    hide Execute, DropOps, StaleSeed, Naming.CidataFilename, Naming.IsoVolume;
    assert Later([first]) == [];
    ReadSeedGoesOn(site, spec, w, [first]);
    var g := Lookup(w.guests, spec.vmid);
    var ide0 := if !first.Refused? && VmOn(g, spec.node) then g.value.ide0 else "";
    var drop := StaleSeed(ide0, Naming.CidataFilename(spec.vmid, site.hash(spec.userData)));
    var up, att := UploadSeed(SeedFile(site, spec)), AttachSeed(spec.node, spec.vmid, SeedIde0(site, spec));
    assert SeedOps(site, spec) == [up] + [att];
    ExecuteAppend(site, SeedOps(site, spec), DropOps(drop), w, []);
    ExecuteAppend(site, [up], [att], w, []);
    ExecuteOne(site, up, w, []);
    var r := Execute(site, [up], w, []);
    ExecuteOne(site, att, r.world, r.answers);
    var s := Execute(site, SeedOps(site, spec), w, []);
    DropScript(site, drop, s.world, s.answers);
  }

  // ---------------------------------------------------------------- configure, then power

  /** The guest runs, or rests, as before, with the values it had. */
  predicate PowerKept(g: Guest, h: Guest) {
    (h.running, h.liveCores, h.liveMemoryMB, h.startedIde0) == (g.running, g.liveCores, g.liveMemoryMB, g.startedIde0)
  }

  /** An update, however it is answered, switches a guest on or off only once its new values are in. */
  lemma PowerOnlyAfterConfigure(site: Site, upd: GuestUpdate, w: World, answers: seq<Outcome>)
    requires upd.vmid in w.guests
    ensures var r, g := Execute(site, Program(site, UpdateGuest(upd)), w, answers), w.guests[upd.vmid];
            && upd.vmid in r.world.guests
            && var h := r.world.guests[upd.vmid];
               && (PowerKept(g, h) || (h.cores == upd.cores && h.memoryMB == upd.memoryMB && h.running == upd.running))
               && (h.running && !g.running ==> !Drift.RestartPending(h) && h.startedIde0 == g.ide0)
               && h.ide0 == g.ide0 && (h.name, h.node, h.tags) == (g.name, g.node, g.tags)
  {
    hide Execute, Naming.Tags;
    ReadPowerGoesOn(site, upd, w, answers);
    var g := w.guests[upd.vmid];
    var power := if upd.running != g.running then [SetPower(upd.node, upd.vmid, upd.running)] else [];
    ExecuteAppend(site, [Configure(upd)], power, w, Later(answers));
    ExecuteOne(site, Configure(upd), w, Later(answers));
    var r := Execute(site, [Configure(upd)], w, Later(answers));
    ExecuteOne(site, SetPower(upd.node, upd.vmid, upd.running), r.world, r.answers);
    ExecuteNone(site, r.world, r.answers);
  }

  // ---------------------------------------------------------------- a clone that stops halfway

  /** A clone whose second half is refused leaves a guest without the tag: no plan touches it again. */
  lemma HalfClonedIsForeign(site: Site, vm: Manifest.VirtualMachine, names: map<string, int>, ready: set<int>, w: World)
    requires GuestPlanner.DesiredSpec(vm, names).Some? && vm.spec.fromTemplate.Some?
    requires Drift.Creatable(vm, names, w.guests)
    ensures var v := vm.spec.vmid;
            var r := Execute(site, Program(site, CreateGuest(GuestPlanner.DesiredSpec(vm, names).value)), w, [Done, Refused]);
            && !r.ok && v in r.world.guests && !r.world.guests[v].Owned()
            && GuestPlanner.VmStep(site, vm, Some(Observe(v, r.world.guests[v])), ready, names) == []
  {
    hide Execute, SeedOps, Naming.ParseCidataHash, Text.Join;
    var spec := GuestPlanner.DesiredSpec(vm, names).value;
    CreateAppends(site, spec, w, [Done, Refused]);
    assert [CloneVm(spec)] + [FinishClone(spec)] == BuildOps(spec);
    ExecuteAppend(site, [CloneVm(spec)], [FinishClone(spec)], w, [Done, Refused]);
    ExecuteOne(site, CloneVm(spec), w, [Done, Refused]);
    var r := Execute(site, [CloneVm(spec)], w, [Done, Refused]);
    ExecuteOne(site, FinishClone(spec), r.world, r.answers);
    assert Naming.Tags("") == [];
  }

  // ---------------------------------------------------------------- a create that stops halfway

  /** The manifest asks for nothing that a bare VM does not have. */
  predicate NothingMore(vm: Manifest.VirtualMachine) {
    && vm.spec.state != Manifest.STATE_RUNNING && vm.spec.userData == ""
    && (vm.spec.cloudInit.Some? ==>
          var ci := vm.spec.cloudInit.value;
          ci.user == "" && ci.ip == "" && ci.nameserver == "" && ci.searchDomain == "")
  }

  /**
   A manifest with an image but no disk storage passes validation; its create stops after the bare VM exists. The next
   scan plans nothing for that VM, and so never retries the import, exactly when the manifest asks for nothing more.
   */
  lemma HalfBuiltLooksSettled(site: Site, vm: Manifest.VirtualMachine, names: map<string, int>, ready: set<int>, w: World)
    requires site.Valid() && Manifest.Validate(vm).None? && vm.spec.image.Some? && vm.spec.vmid !in w.guests
    requires vm.spec.disks == [] || vm.spec.disks[0].storage == ""
    ensures var v := vm.spec.vmid;
            var r := Execute(site, Program(site, CreateGuest(GuestPlanner.DesiredSpec(vm, names).value)), w, []);
            && !r.ok && v in r.world.guests && r.world.guests[v].Owned()
            && (GuestPlanner.VmStep(site, vm, Some(Observe(v, r.world.guests[v])), ready, names) == [] <==> NothingMore(vm))
  {
    hide Execute, SeedOps, Naming.Tags, Naming.ParseCidataHash, Text.Join, GuestPlanner.VmStep, Drift.MatchesDeclared;
    var spec := GuestPlanner.DesiredSpec(vm, names).value;
    CreateAppends(site, spec, w, []);
    NewVmAppends(site, spec, w, []);
    ExecuteOne(site, NewVm(spec), w, []);
    var w1 := WithGuest(w, spec.vmid, BlankGuest(spec));
    ExecuteOne(site, ImportImage(spec), w1, []);
    Naming.ManagedTagRecovered(vm.meta.tags);
    Drift.VmStepQuiet(site, vm, spec.vmid, BlankGuest(spec), ready, names);
    BareMatches(site, vm, names);
  }

  lemma BareMatches(site: Site, vm: Manifest.VirtualMachine, names: map<string, int>)
    requires site.Valid() && Manifest.Validate(vm).None? && vm.spec.image.Some?
    ensures var g := BlankGuest(GuestPlanner.DesiredSpec(vm, names).value);
            && !Drift.RestartPending(g)
            && (Drift.MatchesDeclared(vm, g) && Drift.SeedCurrent(site, vm, g) <==> NothingMore(vm))
  {
    hide Naming.Tags, Text.Join;
    assert Naming.ParseCidataHash("") == "";
  }

  // ---------------------------------------------------------------- no seed is missing

  /** Every attached seed is on the storage, and was generated for the guest it is attached to. */
  ghost predicate NoneMissing(site: Site, w: World) {
    && (forall v :: SeedAt(w, v).Some? ==> SeedAt(w, v).value in w.files)
    && OwnSeeds(site, w)
  }

  /** The call attaches no seed and removes no file. */
  predicate Quiet(op: Op) {
    match op
    case NewVm(spec) => PlainIso(spec.iso)
    case ImportImage(spec) => PlainIso(spec.iso)
    case CloneVm(spec) => PlainIso(spec.iso)
    case FinishClone(spec) => PlainIso(spec.iso)
    case ReadPower(_) => true
    case Configure(_) => true
    case SetPower(_, _, _) => true
    case Convert(_, _) => true
    case Destroy(_, _) => true
    case Download(_) => true
    case Raise(_) => true
    case _ => false
  }

  /** Only quiet calls, and no clone of a guest that has a seed. */
  ghost predicate Calm(ops: seq<Op>, w: World) {
    forall op :: op in ops ==> Quiet(op) && (op.Source().Some? ==> SeedAt(w, op.Source().value).None?)
  }

  /** No seed has been attached anywhere, and no file removed. */
  ghost predicate Fewer(w: World, w': World) {
    && w.files <= w'.files
    && forall v :: SeedAt(w', v).Some? ==> SeedAt(w', v) == SeedAt(w, v)
  }

  lemma FewerMissing(site: Site, w: World, w': World)
    requires NoneMissing(site, w) && Fewer(w, w')
    ensures NoneMissing(site, w')
  {
    hide SeedAt, SeedOf;
  }

  lemma QuietEffect(site: Site, op: Op, g: Option<Guest>, src: Option<Guest>)
    requires Quiet(op) && (op.CloneVm? && src.Some? ==> AttachedSeed(src.value.ide0).None?)
    ensures var e := EffectOf(site, op, g, src);
            e.Sets? && e.guest.Some? && AttachedSeed(e.guest.value.ide0).Some?
            ==> g.Some? && AttachedSeed(g.value.ide0) == AttachedSeed(e.guest.value.ide0)
  {
    hide AttachedSeed, Naming.Tags, Text.Join;
    NoCdrom();
  }

  lemma QuietStep(site: Site, op: Op, rest: seq<Op>, w: World, answer: Outcome)
    requires Quiet(op) && (op.Source().Some? ==> SeedAt(w, op.Source().value).None?)
    ensures Fewer(w, Step(site, op, rest, w, answer).world)
  {
    hide AttachedSeed, EffectOf, PlainIso;
    QuietEffect(site, op, Find(w, op.Target()), Find(w, op.Source()));
  }

  lemma QuietRest(site: Site, op: Op, rest: seq<Op>, w: World, answer: Outcome)
    requires Quiet(op)
    ensures var r := Step(site, op, rest, w, answer);
            r.Next? ==> forall o :: o in r.rest ==> o in rest || (Quiet(o) && o.Source().None?)
  {
    hide AttachedSeed, PlainIso, Naming.Tags, Text.Join;
  }

  lemma {:induction false} QuietScript(site: Site, ops: seq<Op>, w: World, answers: seq<Outcome>)
    requires Calm(ops, w)
    ensures Fewer(w, Execute(site, ops, w, answers).world)
    decreases Weight(ops)
  {
    hide Step, Quiet, SeedAt;
    if ops != [] {
      var op, rest := ops[0], ops[1..];
      assert ops == [op] + rest;
      ExecuteCons(site, op, rest, w, answers);
      var r := Step(site, op, rest, w, Answer(answers));
      StepShrinks(site, op, rest, w, Answer(answers));
      QuietStep(site, op, rest, w, Answer(answers));
      QuietRest(site, op, rest, w, Answer(answers));
      if r.Next? {
        QuietScript(site, r.rest, r.world, Later(answers));
      }
    }
  }

  /** Attaching a seed that has been uploaded. */
  lemma AttachMissing(site: Site, spec: GuestSpec, w: World, answers: seq<Outcome>)
    requires site.Valid() && spec.vmid >= 0 && NoneMissing(site, w)
    ensures SeedFile(site, spec) in w.files ==>
              var att := AttachSeed(spec.node, spec.vmid, SeedIde0(site, spec));
              NoneMissing(site, Execute(site, [att], w, answers).world)
  {
    hide Execute, AttachedSeed, GeneratedSeed, SeedOf, SeedFile, SeedIde0;
    var att := AttachSeed(spec.node, spec.vmid, SeedIde0(site, spec));
    ExecuteOne(site, att, w, answers);
    AttachedIsUploaded(site, spec);
    var w' := Execute(site, [att], w, answers).world;
    assert forall u :: u != spec.vmid ==> SeedAt(w', u) == SeedAt(w, u);
    assert SeedAt(w', spec.vmid) in {SeedAt(w, spec.vmid), Some(SeedFile(site, spec))};
  }

  lemma SeedMissing(site: Site, spec: GuestSpec, w: World, answers: seq<Outcome>)
    requires site.Valid() && spec.vmid >= 0 && NoneMissing(site, w)
    ensures NoneMissing(site, Execute(site, SeedOps(site, spec), w, answers).world)
  {
    hide Execute, AttachedSeed, GeneratedSeed, SeedOf, Naming.CidataFilename, Naming.IsoVolume;
    if spec.userData == "" {
      ExecuteNone(site, w, answers);
    } else {
      var file := SeedFile(site, spec);
      var up, att := UploadSeed(file), AttachSeed(spec.node, spec.vmid, SeedIde0(site, spec));
      assert SeedOps(site, spec) == [up] + [att];
      ExecuteAppend(site, [up], [att], w, answers);
      ExecuteOne(site, up, w, answers);
      var r := Execute(site, [up], w, answers);
      assert forall v :: SeedAt(r.world, v) == SeedAt(w, v);
      AttachMissing(site, spec, r.world, r.answers);
    }
  }

  /** Removing a file that no guest has attached. */
  lemma DropMissing(site: Site, file: Option<IsoFile>, w: World, answers: seq<Outcome>)
    requires NoneMissing(site, w) && (file.Some? ==> forall v :: SeedAt(w, v) != file)
    ensures NoneMissing(site, Execute(site, DropOps(file), w, answers).world)
  {
    hide Execute, AttachedSeed, SeedOf;
    DropScript(site, file, w, answers);
    var w' := Execute(site, DropOps(file), w, answers).world;
    assert forall v :: SeedAt(w', v) == SeedAt(w, v);
  }

  lemma OnlyOwnerHas(site: Site, w: World, v: int, f: IsoFile)
    requires OwnSeeds(site, w) && SeedOf(site, v, f)
    ensures forall u :: SeedAt(w, u) == Some(f) ==> u == v
  {
    forall u | SeedAt(w, u) == Some(f)
      ensures u == v
    {
      SeedsApart(site, u, v, f);
    }
  }

  lemma SyncMissing(site: Site, spec: GuestSpec, w: World, answers: seq<Outcome>)
    requires site.Valid() && spec.vmid >= 0 && spec.userData != "" && NoneMissing(site, w)
    ensures NoneMissing(site, Execute(site, [ReadSeed(spec)], w, answers).world)
  {
    hide Execute, SeedOps, DropOps, AttachedSeed, SeedIde0, SeedOf, Naming.CidataFilename, Naming.IsoVolume;
    ReadSeedGoesOn(site, spec, w, answers);
    var v, file := spec.vmid, SeedFile(site, spec);
    var g := Lookup(w.guests, v);
    var ide0 := if !Answer(answers).Refused? && VmOn(g, spec.node) then g.value.ide0 else "";
    var drop := StaleSeed(ide0, file.1);
    ExecuteAppend(site, SeedOps(site, spec), DropOps(drop), w, Later(answers));
    SeedMissing(site, spec, w, Later(answers));
    SeedScript(site, spec, w, Later(answers));
    var r := Execute(site, SeedOps(site, spec), w, Later(answers));
    if r.ok {
      AttachedIsUploaded(site, spec);
      if drop.Some? {
        NoCdrom();
        assert drop == SeedAt(w, v);
        OnlyOwnerHas(site, r.world, v, drop.value);
        assert SeedAt(r.world, v) == Some(file);
      }
      DropMissing(site, drop, r.world, r.answers);
    }
  }

  lemma DeleteMissing(site: Site, obj: Object, w: World, answers: seq<Outcome>)
    requires NoneMissing(site, w)
    ensures NoneMissing(site, Execute(site, [ReadGuest(obj)], w, answers).world)
  {
    hide Execute, DropOps, AttachedSeed, SeedOf, Naming.Tags;
    ReadGuestGoesOn(site, obj, w, answers);
    var v := obj.vmid;
    var g := Lookup(w.guests, v);
    if Answer(answers).Done? && obj.kind.Qemu? && VmOn(g, obj.node) {
      var seed := AttachedSeed(g.value.ide0);
      var off := if g.value.running then [SetPower(obj.node, v, false)] else [];
      var gone := [Destroy(obj.node, v)];
      DeleteAppends(site, obj, g.value, w, Later(answers));
      QuietScript(site, off, w, Later(answers));
      var r1 := Execute(site, off, w, Later(answers));
      FewerMissing(site, w, r1.world);
      QuietScript(site, gone, r1.world, r1.answers);
      var r2 := Execute(site, gone, r1.world, r1.answers);
      FewerMissing(site, r1.world, r2.world);
      ExecuteOne(site, Destroy(obj.node, v), r1.world, r1.answers);
      if r1.ok && r2.ok {
        if seed.Some? {
          assert seed == SeedAt(w, v);
          OnlyOwnerHas(site, r2.world, v, seed.value);
        }
        DropMissing(site, seed, r2.world, r2.answers);
      }
    }
  }

  lemma CreateMissing(site: Site, spec: GuestSpec, w: World, answers: seq<Outcome>)
    requires site.Valid() && spec.vmid >= 0 && PlainIso(spec.iso) && NoneMissing(site, w)
    requires spec.clone.Some? ==> SeedAt(w, spec.clone.value.templateVMID).None?
    ensures NoneMissing(site, Execute(site, CreateOps(site, spec), w, answers).world)
  {
    hide Execute, SeedOps, AttachedSeed, SeedOf, PlainIso, NoneMissing;
    CreateAppends(site, spec, w, answers);
    QuietScript(site, BuildOps(spec), w, answers);
    var r1 := Execute(site, BuildOps(spec), w, answers);
    FewerMissing(site, w, r1.world);
    SeedMissing(site, spec, r1.world, r1.answers);
    var r2 := Execute(site, SeedOps(site, spec), r1.world, r1.answers);
    QuietScript(site, PowerOps(spec), r2.world, r2.answers);
    FewerMissing(site, r2.world, Execute(site, PowerOps(spec), r2.world, r2.answers).world);
  }

  /** The operation is one the planners may ask for, and clones no guest that has a seed. */
  predicate Seedless(apply: Apply, w: World) {
    match apply
    case CreateGuest(spec) => SeedlessCreate(spec, w)
    case BuildTemplate(spec) => SeedlessCreate(spec, w)
    case ReseedGuest(seed, _, _, vmid) =>
      seed.Some? ==> seed.value.vmid == vmid && vmid >= 0 && seed.value.userData != ""
    case _ => true
  }

  predicate SeedlessCreate(spec: GuestSpec, w: World) {
    spec.vmid >= 0 && PlainIso(spec.iso) && (spec.clone.Some? ==> SeedAt(w, spec.clone.value.templateVMID).None?)
  }

  lemma QuietMissing(site: Site, ops: seq<Op>, w: World, answers: seq<Outcome>)
    requires NoneMissing(site, w) && Calm(ops, w)
    ensures NoneMissing(site, Execute(site, ops, w, answers).world)
  {
    hide NoneMissing;
    QuietScript(site, ops, w, answers);
    FewerMissing(site, w, Execute(site, ops, w, answers).world);
  }

  lemma ReseedMissing(site: Site, seed: Option<GuestSpec>, reboot: bool, node: string, v: int, w: World, answers: seq<Outcome>)
    requires site.Valid() && Seedless(ReseedGuest(seed, reboot, node, v), w) && NoneMissing(site, w)
    ensures NoneMissing(site, Execute(site, Program(site, ReseedGuest(seed, reboot, node, v)), w, answers).world)
  {
    hide Execute, NoneMissing;
    var cycle := if reboot then [SetPower(node, v, false), SetPower(node, v, true)] else [];
    if seed.Some? {
      ExecuteAppend(site, [ReadSeed(seed.value)], cycle, w, answers);
      SyncMissing(site, seed.value, w, answers);
      var r := Execute(site, [ReadSeed(seed.value)], w, answers);
      QuietMissing(site, cycle, r.world, r.answers);
    } else {
      QuietMissing(site, [Raise(v)] + cycle, w, answers);
    }
  }

  /** However its calls are answered, an operation leaves every attached seed on the storage. */
  lemma OperationMissing(site: Site, apply: Apply, w: World, answers: seq<Outcome>)
    requires site.Valid() && Seedless(apply, w) && NoneMissing(site, w)
    ensures NoneMissing(site, Execute(site, Program(site, apply), w, answers).world)
  {
    hide Execute, NoneMissing, CreateOps, PlainIso, SeedAt;
    match apply
    case CreateGuest(spec) => CreateMissing(site, spec, w, answers);
    case BuildTemplate(spec) =>
      var conv := [Convert(spec.node, spec.vmid)];
      ExecuteAppend(site, CreateOps(site, spec), conv, w, answers);
      CreateMissing(site, spec, w, answers);
      var r := Execute(site, CreateOps(site, spec), w, answers);
      QuietMissing(site, conv, r.world, r.answers);
    case ReseedGuest(seed, reboot, node, v) => ReseedMissing(site, seed, reboot, node, v, w, answers);
    case DeleteGuest(obj) => DeleteMissing(site, obj, w, answers);
    case _ => QuietMissing(site, Program(site, apply), w, answers);
  }

  // One operation with the answers it meets.
  datatype Attempt = Attempt(apply: Apply, answers: seq<Outcome>)

  ghost predicate IsTrial(site: Site, ws: seq<World>, attempts: seq<Attempt>) {
    && |ws| == |attempts| + 1
    && forall i :: 0 <= i < |attempts| ==>
         && Seedless(attempts[i].apply, ws[i])
         && ws[i + 1] == Execute(site, Program(site, attempts[i].apply), ws[i], attempts[i].answers).world
  }

  /** Over any run of operations, failing wherever they may, no guest is left with a seed that is not on the storage. */
  lemma {:induction false} AttachedSeedsExist(site: Site, ws: seq<World>, attempts: seq<Attempt>, n: nat)
    requires site.Valid() && IsTrial(site, ws, attempts) && NoneMissing(site, ws[0]) && n <= |attempts|
    ensures NoneMissing(site, ws[n])
  {
    hide NoneMissing, Seedless, Execute, Program;
    if n > 0 {
      AttachedSeedsExist(site, ws, attempts, n - 1);
      assert ws[n - 1 + 1] == Execute(site, Program(site, attempts[n - 1].apply), ws[n - 1], attempts[n - 1].answers).world;
      OperationMissing(site, attempts[n - 1].apply, ws[n - 1], attempts[n - 1].answers);
    }
  }

  // ---------------------------------------------------------------- files of others

  /** The removals in the program, and those its reads bring along, are of generated files. */
  ghost predicate DropsGenerated(ops: seq<Op>) {
    forall op :: op in ops && op.DropSeed? ==> GeneratedSeed(op.file.1)
  }

  lemma StepDropsGenerated(site: Site, op: Op, rest: seq<Op>, w: World, answer: Outcome)
    requires DropsGenerated([op] + rest)
    ensures var r := Step(site, op, rest, w, answer);
            && (r.Next? ==> DropsGenerated(r.rest))
            && forall f :: f in w.files && !GeneratedSeed(f.1) ==> f in r.world.files
  {
    hide GeneratedSeed, Naming.ParseISOVolume, Naming.CidataFilename, Naming.IsoVolume, Naming.Tags, Text.Join, AttachedSeed;
    assert op in [op] + rest && forall o :: o in rest ==> o in [op] + rest;
    if op.ReadSeed? {
      var g := Find(w, op.Target());
      AttachedIsGenerated("");
      AttachedIsGenerated(if VmOn(g, op.spec.node) then g.value.ide0 else "");
    } else if op.ReadGuest? && Find(w, op.Target()).Some? {
      AttachedIsGenerated(Find(w, op.Target()).value.ide0);
    }
  }

  lemma AttachedIsGenerated(ide0: string)
    ensures AttachedSeed(ide0).Some? ==> GeneratedSeed(AttachedSeed(ide0).value.1)
  {
  }

  lemma {:induction false} ScriptDropsGenerated(site: Site, ops: seq<Op>, w: World, answers: seq<Outcome>, f: IsoFile)
    requires DropsGenerated(ops) && f in w.files && !GeneratedSeed(f.1)
    ensures f in Execute(site, ops, w, answers).world.files
    decreases Weight(ops)
  {
    hide Step, GeneratedSeed;
    if ops != [] {
      var op, rest := ops[0], ops[1..];
      assert ops == [op] + rest;
      ExecuteCons(site, op, rest, w, answers);
      StepShrinks(site, op, rest, w, Answer(answers));
      StepDropsGenerated(site, op, rest, w, Answer(answers));
      var r := Step(site, op, rest, w, Answer(answers));
      if r.Next? {
        ScriptDropsGenerated(site, r.rest, r.world, Later(answers), f);
      }
    }
  }

  /** No operation, however it is answered, removes a file that proxmops did not generate. */
  lemma OtherFilesStay(site: Site, apply: Apply, w: World, answers: seq<Outcome>, f: IsoFile)
    requires f in w.files && !GeneratedSeed(f.1)
    ensures f in Execute(site, Program(site, apply), w, answers).world.files
  {
    hide Execute, GeneratedSeed, Naming.CidataFilename, Naming.IsoVolume, Naming.Tags;
    ScriptDropsGenerated(site, Program(site, apply), w, answers, f);
  }
}
