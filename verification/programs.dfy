/** What a complete, successful run of each guest operation leaves in the cluster. */
module Programs {
  import opened Prelude
  import opened Proxmox
  import opened Cluster
  import Naming
  import Text

  /** Run `rest` after an operation that left `o`. */
  function Then(site: Site, rest: seq<Op>, o: Option<World>): Option<World> {
    if o.None? then None else RunAll(site, rest, o.value)
  }

  function WithGuest(w: World, v: int, g: Guest): World {
    World(w.guests[v := g], w.files)
  }

  lemma Unroll(site: Site, op: Op, rest: seq<Op>, w: World)
    ensures RunAll(site, [op] + rest, w) == Continue(site, Step(site, op, rest, w, Done))
  {
  }

  lemma RunEmpty(site: Site, w: World)
    ensures RunAll(site, [], w) == Some(w)
  {
  }

  function Continue(site: Site, r: StepResult): Option<World> {
    if r.Failed? then None else RunAll(site, r.rest, r.world)
  }

  /** A call that writes its target and has no continuation of its own. */
  function AfterCall(site: Site, op: Op, w: World): Option<World>
    requires op.Target().Some?
  {
    var e := EffectOf(site, op, Lookup(w.guests, op.Target().value), Find(w, op.Source()));
    if e.Fails? then None else Some(World(Put(w.guests, op.Target().value, e.guest), w.files))
  }

  lemma UnrollCall(site: Site, op: Op, rest: seq<Op>, w: World)
    requires !op.ReadSeed? && !op.ReadPower? && !op.ReadGuest? && op.Target().Some?
    ensures RunAll(site, [op] + rest, w) == Then(site, rest, AfterCall(site, op, w))
  {
    Unroll(site, op, rest, w);
    assert [] + rest == rest;
  }

  lemma RunOne(site: Site, op: Op, w: World)
    requires !op.ReadSeed? && !op.ReadPower? && !op.ReadGuest? && op.Target().Some?
    ensures RunAll(site, [op], w) == AfterCall(site, op, w)
  {
  }

  /** DownloadISO brings the file to the storage. */
  lemma RunDownload(site: Site, file: IsoFile, w: World)
    ensures RunAll(site, [Download(file)], w) == Some(World(w.guests, w.files + {file}))
  {
    assert [Download(file)] + [] == [Download(file)];
    Unroll(site, Download(file), [], w);
    RunEmpty(site, World(w.guests, w.files + {file}));
  }

  // ---------------------------------------------------------------- UpdateGuest, RebootGuest

  /** The guest that a successful UpdateGuest leaves. */
  function Updated(g: Guest, upd: GuestUpdate): Guest {
    var h := Configured(g, upd);
    if upd.running != g.running then Powered(h, upd.running) else h
  }

  function AfterUpdate(upd: GuestUpdate, w: World): Option<World> {
    var g := Lookup(w.guests, upd.vmid);
    if VmOn(g, upd.node) then Some(WithGuest(w, upd.vmid, Updated(g.value, upd))) else None
  }

  lemma RunUpdate(site: Site, upd: GuestUpdate, w: World)
    ensures RunAll(site, Program(site, UpdateGuest(upd)), w) == AfterUpdate(upd, w)
  {
    hide Naming.Tags, Text.Join;
    var g := Lookup(w.guests, upd.vmid);
    var conf, pow := Configure(upd), SetPower(upd.node, upd.vmid, upd.running);
    assert [ReadPower(upd)] + [] == [ReadPower(upd)];
    Unroll(site, ReadPower(upd), [], w);
    if VmOn(g, upd.node) {
      var w1 := WithGuest(w, upd.vmid, Configured(g.value, upd));
      assert Put(w.guests, upd.vmid, g) == w.guests;
      if upd.running != g.value.running {
        assert [conf] + [pow] + [] == [conf] + [pow];
        UnrollCall(site, conf, [pow], w);
        RunOne(site, pow, w1);
        assert w1.guests[upd.vmid := Updated(g.value, upd)] == w.guests[upd.vmid := Updated(g.value, upd)];
      } else {
        assert [conf] + [] + [] == [conf];
        RunOne(site, conf, w);
      }
    }
  }

  /** The guest that a successful RebootGuest leaves: it runs with its configured values. */
  function Rebooted(g: Guest): Guest {
    Powered(Powered(g, false), true)
  }

  function AfterReboot(node: string, v: int, w: World): Option<World> {
    var g := Lookup(w.guests, v);
    if VmOn(g, node) then Some(WithGuest(w, v, Rebooted(g.value))) else None
  }

  lemma RunReboot(site: Site, node: string, v: int, w: World)
    ensures RunAll(site, [SetPower(node, v, false), SetPower(node, v, true)], w) == AfterReboot(node, v, w)
  {
    var g := Lookup(w.guests, v);
    var off, on := SetPower(node, v, false), SetPower(node, v, true);
    assert [off, on] == [off] + [on];
    UnrollCall(site, off, [on], w);
    if VmOn(g, node) {
      var w1 := WithGuest(w, v, Powered(g.value, false));
      RunOne(site, on, w1);
      assert w1.guests[v := Rebooted(g.value)] == w.guests[v := Rebooted(g.value)];
    }
  }

  // ---------------------------------------------------------------- ConvertToTemplate

  function AfterConvert(node: string, v: int, w: World): Option<World> {
    var g := Lookup(w.guests, v);
    if VmOn(g, node) then Some(WithGuest(w, v, g.value.(isTemplate := true))) else None
  }

  lemma RunConvert(site: Site, node: string, v: int, w: World)
    ensures RunAll(site, [Convert(node, v)], w) == AfterConvert(node, v, w)
  {
  }

  // ---------------------------------------------------------------- provisionCidata, SyncUserData

  function SeedFile(site: Site, spec: GuestSpec): IsoFile {
    (site.isoStorage, Naming.CidataFilename(spec.vmid, site.hash(spec.userData)))
  }

  function SeedIde0(site: Site, spec: GuestSpec): string {
    Naming.IsoVolume(site.isoStorage, SeedFile(site, spec).1)
  }

  function AfterAttach(node: string, v: int, file: IsoFile, ide0: string, w: World): Option<World> {
    var g := Lookup(w.guests, v);
    if VmOn(g, node) then Some(World(w.guests[v := g.value.(ide0 := ide0)], w.files + {file})) else None
  }

  lemma RunAttach(site: Site, node: string, v: int, file: IsoFile, ide0: string, rest: seq<Op>, w: World)
    ensures RunAll(site, [UploadSeed(file), AttachSeed(node, v, ide0)] + rest, w)
         == Then(site, rest, AfterAttach(node, v, file, ide0, w))
  {
    var up, att := UploadSeed(file), AttachSeed(node, v, ide0);
    assert [up, att] + rest == [up] + ([att] + rest);
    Unroll(site, up, [att] + rest, w);
    assert [] + ([att] + rest) == [att] + rest;
    UnrollCall(site, att, rest, World(w.guests, w.files + {file}));
  }

  function AfterSeed(site: Site, spec: GuestSpec, w: World): Option<World> {
    if spec.userData == "" then Some(w)
    else AfterAttach(spec.node, spec.vmid, SeedFile(site, spec), SeedIde0(site, spec), w)
  }

  lemma RunSeed(site: Site, spec: GuestSpec, rest: seq<Op>, w: World)
    ensures RunAll(site, SeedOps(site, spec) + rest, w) == Then(site, rest, AfterSeed(site, spec, w))
  {
    if spec.userData == "" {
      assert [] + rest == rest;
    } else {
      RunAttach(site, spec.node, spec.vmid, SeedFile(site, spec), SeedIde0(site, spec), rest, w);
    }
  }

  function Without(w: World, file: Option<IsoFile>): World {
    World(w.guests, w.files - if file.Some? then {file.value} else {})
  }

  lemma RunDrop(site: Site, file: Option<IsoFile>, rest: seq<Op>, w: World)
    ensures RunAll(site, DropOps(file) + rest, w) == RunAll(site, rest, Without(w, file))
  {
    assert w.files - {} == w.files;
    if file.Some? {
      Unroll(site, DropSeed(file.value), rest, w);
    }
    assert [] + rest == rest;
  }

  function AfterReseed(site: Site, spec: GuestSpec, w: World): Option<World> {
    var g := Lookup(w.guests, spec.vmid);
    if VmOn(g, spec.node)
    then Some(Without(World(w.guests[spec.vmid := g.value.(ide0 := SeedIde0(site, spec))],
                            w.files + {SeedFile(site, spec)}),
                      StaleSeed(g.value.ide0, SeedFile(site, spec).1)))
    else None
  }

  lemma RunReseed(site: Site, spec: GuestSpec, rest: seq<Op>, w: World)
    requires spec.userData != ""
    ensures RunAll(site, [ReadSeed(spec)] + rest, w) == Then(site, rest, AfterReseed(site, spec, w))
  {
    hide RunAll, SeedOps, DropOps, StaleSeed, Naming.CidataFilename, Naming.IsoVolume;
    var g := Lookup(w.guests, spec.vmid);
    var ide0 := if VmOn(g, spec.node) then g.value.ide0 else "";
    var stale := StaleSeed(ide0, SeedFile(site, spec).1);
    Unroll(site, ReadSeed(spec), rest, w);
    assert Put(w.guests, spec.vmid, g) == w.guests;
    assert ReseedOps(site, spec, ide0) + rest == SeedOps(site, spec) + (DropOps(stale) + rest);
    RunSeed(site, spec, DropOps(stale) + rest, w);
    if VmOn(g, spec.node) {
      RunDrop(site, stale, rest, AfterSeed(site, spec, w).value);
    }
  }

  // ---------------------------------------------------------------- DeleteGuest

  function AfterDelete(obj: Object, w: World): Option<World> {
    var g := Lookup(w.guests, obj.vmid);
    if obj.kind.Qemu? && VmOn(g, obj.node)
    then Some(Without(World(w.guests - {obj.vmid}, w.files), AttachedSeed(g.value.ide0)))
    else None
  }

  lemma RunDestroy(site: Site, node: string, v: int, seed: Option<IsoFile>, w: World)
    requires VmOn(Lookup(w.guests, v), node) && !w.guests[v].running
    ensures RunAll(site, [Destroy(node, v)] + DropOps(seed), w) == Some(Without(World(w.guests - {v}, w.files), seed))
  {
    assert DropOps(seed) + [] == DropOps(seed);
    UnrollCall(site, Destroy(node, v), DropOps(seed), w);
    RunDrop(site, seed, [], World(w.guests - {v}, w.files));
  }

  lemma RunStopDestroy(site: Site, node: string, v: int, seed: Option<IsoFile>, w: World)
    requires VmOn(Lookup(w.guests, v), node)
    ensures RunAll(site, [SetPower(node, v, false)] + ([Destroy(node, v)] + DropOps(seed)), w)
         == Some(Without(World(w.guests - {v}, w.files), seed))
  {
    UnrollCall(site, SetPower(node, v, false), [Destroy(node, v)] + DropOps(seed), w);
    var w1 := WithGuest(w, v, Powered(w.guests[v], false));
    RunDestroy(site, node, v, seed, w1);
    assert w1.guests - {v} == w.guests - {v};
  }

  lemma RunDelete(site: Site, obj: Object, w: World)
    ensures RunAll(site, Program(site, Apply.DeleteGuest(obj)), w) == AfterDelete(obj, w)
  {
    var g := Lookup(w.guests, obj.vmid);
    assert [ReadGuest(obj)] + [] == [ReadGuest(obj)];
    Unroll(site, ReadGuest(obj), [], w);
    if obj.kind.Qemu? && VmOn(g, obj.node) {
      var seed := AttachedSeed(g.value.ide0);
      var tail := [Destroy(obj.node, obj.vmid)] + DropOps(seed);
      assert Put(w.guests, obj.vmid, g) == w.guests;
      assert DeleteOps(obj, g.value) + [] == DeleteOps(obj, g.value);
      if g.value.running {
        RunStopDestroy(site, obj.node, obj.vmid, seed, w);
      } else {
        assert DeleteOps(obj, g.value) == tail;
        RunDestroy(site, obj.node, obj.vmid, seed, w);
      }
    }
  }

  // ---------------------------------------------------------------- CreateGuest

  /** The guest CreateGuest has built before it turns to the seed, or None when it cannot. */
  function Built(spec: GuestSpec, src: Option<Guest>): (g: Option<Guest>)
    ensures g.Some? ==> VmOn(g, spec.node)
  {
    if spec.clone.Some? then
      if VmOn(src, spec.node) && (spec.clone.value.full || src.value.isTemplate)
      then Some(FinishedClone(ClonedGuest(src.value, spec), spec)) else None
    else if spec.image.None? then Some(BlankGuest(spec))
    else if spec.diskStorage == "" then None
    else Some(WithCloudInit(CdromOf(BlankGuest(spec), spec.iso), spec.cloudInit))
  }

  function BuildOps(spec: GuestSpec): seq<Op> {
    if spec.clone.Some? then [CloneVm(spec), FinishClone(spec)]
    else [NewVm(spec)] + if spec.image.Some? then [ImportImage(spec)] else []
  }

  function CloneSource(spec: GuestSpec): Option<int> {
    if spec.clone.Some? then Some(spec.clone.value.templateVMID) else None
  }

  function AfterBuild(spec: GuestSpec, w: World): Option<World> {
    var b := Built(spec, Find(w, CloneSource(spec)));
    if b.None? then None else Some(WithGuest(w, spec.vmid, b.value))
  }

  lemma RunBuild(site: Site, spec: GuestSpec, rest: seq<Op>, w: World)
    requires spec.vmid !in w.guests
    ensures RunAll(site, BuildOps(spec) + rest, w) == Then(site, rest, AfterBuild(spec, w))
  {
    hide Naming.Tags, Text.Join;
    var v := spec.vmid;
    var src := Find(w, CloneSource(spec));
    if spec.clone.Some? {
      assert BuildOps(spec) + rest == [CloneVm(spec)] + ([FinishClone(spec)] + rest);
      UnrollCall(site, CloneVm(spec), [FinishClone(spec)] + rest, w);
      if Built(spec, src).Some? {
        var w1 := WithGuest(w, v, ClonedGuest(src.value, spec));
        UnrollCall(site, FinishClone(spec), rest, w1);
        assert w1.guests[v := Built(spec, src).value] == w.guests[v := Built(spec, src).value];
      }
    } else if spec.image.None? {
      assert BuildOps(spec) + rest == [NewVm(spec)] + rest;
      UnrollCall(site, NewVm(spec), rest, w);
    } else {
      assert BuildOps(spec) + rest == [NewVm(spec)] + ([ImportImage(spec)] + rest);
      UnrollCall(site, NewVm(spec), [ImportImage(spec)] + rest, w);
      var w1 := WithGuest(w, v, BlankGuest(spec));
      UnrollCall(site, ImportImage(spec), rest, w1);
      if spec.diskStorage != "" {
        assert w1.guests[v := Built(spec, src).value] == w.guests[v := Built(spec, src).value];
      }
    }
  }

  /** The guest a successful CreateGuest leaves. */
  function Created(site: Site, spec: GuestSpec, built: Guest): Guest {
    var seeded := if spec.userData == "" then built else built.(ide0 := SeedIde0(site, spec));
    if spec.running then Powered(seeded, true) else seeded
  }

  function AfterCreate(site: Site, spec: GuestSpec, w: World): Option<World> {
    var b := Built(spec, Find(w, CloneSource(spec)));
    if spec.vmid in w.guests || b.None? then None
    else Some(World(w.guests[spec.vmid := Created(site, spec, b.value)],
                    w.files + if spec.userData == "" then {} else {SeedFile(site, spec)}))
  }

  lemma RunCreate(site: Site, spec: GuestSpec, rest: seq<Op>, w: World)
    ensures RunAll(site, CreateOps(site, spec) + rest, w) == Then(site, rest, AfterCreate(site, spec, w))
  {
    var v := spec.vmid;
    var ops := CreateOps(site, spec) + rest;
    var power := PowerOps(spec) + rest;
    assert ops == BuildOps(spec) + (SeedOps(site, spec) + power);
    if v in w.guests {
      assert ops == [ops[0]] + ops[1..];
      UnrollCall(site, ops[0], ops[1..], w);
    } else {
      RunBuild(site, spec, SeedOps(site, spec) + power, w);
      var b := Built(spec, Find(w, CloneSource(spec)));
      if b.Some? {
        RunSeed(site, spec, power, WithGuest(w, v, b.value));
        RunPower(site, spec, rest, w, b.value);
      }
    }
  }

  lemma RunPower(site: Site, spec: GuestSpec, rest: seq<Op>, w: World, built: Guest)
    requires VmOn(Some(built), spec.node)
    ensures Then(site, PowerOps(spec) + rest, AfterSeed(site, spec, WithGuest(w, spec.vmid, built)))
         == RunAll(site, rest, World(w.guests[spec.vmid := Created(site, spec, built)],
                                     w.files + if spec.userData == "" then {} else {SeedFile(site, spec)}))
  {
    var v := spec.vmid;
    var seeded := if spec.userData == "" then built else built.(ide0 := SeedIde0(site, spec));
    var w1 := AfterSeed(site, spec, WithGuest(w, v, built)).value;
    assert w1.guests == w.guests[v := seeded];
    assert w.files + {} == w.files;
    if spec.running {
      UnrollCall(site, SetPower(spec.node, v, true), rest, w1);
      assert w1.guests[v := Powered(seeded, true)] == w.guests[v := Powered(seeded, true)];
    } else {
      assert PowerOps(spec) + rest == rest;
    }
  }
}
