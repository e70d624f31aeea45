/**
 The Proxmox cluster as proxmops sees and changes it. A guest operation is a program of API calls;
 each call is one atomic step on the cluster, and may be refused, or take effect and still be reported
 as failed.
 */
module Cluster {
  import opened Prelude
  import opened Proxmox
  import Manifest
  import Naming
  import Text

  /** The part of the installation the operations depend on: the content hash and the ISO storage. */
  datatype Site = Site(hash: string -> string, isoStorage: string) {
    ghost predicate Valid() {
      Naming.IsStorageName(isoStorage) && forall s: string :: Naming.IsHash(hash(s))
    }
  }

  /**
   A guest as stored in the cluster. `cores` and `sockets` are 0 when unset in the configuration. The live values and
   `startedIde0` are what the guest was last started with.
   */
  datatype Guest = Guest(
    kind: GuestKind, name: string, node: string, tags: string, isTemplate: bool, running: bool,
    cores: int, sockets: int, memoryMB: int, cpu: string,
    ciUser: string, ip: string, nameserver: string, searchDomain: string, ide0: string,
    liveCores: int, liveMemoryMB: int, startedIde0: string)
  {
    function ConfiguredCores(): int {
      OrOne(cores) * OrOne(sockets)
    }

    predicate Owned() {
      MANAGED_TAG in Naming.Tags(tags)
    }

    predicate OneSocket() {
      OrOne(sockets) == 1
    }
  }

  type Guests = map<int, Guest>

  // An ISO file: its storage and its name.
  type IsoFile = (string, string)

  datatype World = World(guests: Guests, files: set<IsoFile>)

  /** derefOr(p, 1) */
  function OrOne(n: int): int {
    if n == 0 then 1 else n
  }

  /** One row of ListGuests. */
  function Observe(vmid: int, g: Guest): (o: Object)
    ensures (o.vmid, o.kind, o.name, o.node) == (vmid, g.kind, g.name, g.node)
    ensures o.isTemplate == g.isTemplate && o.running == g.running && (o.Owned() <==> g.Owned())
  {
    if g.kind.Qemu? then
      Object(g.kind, g.name, g.node, vmid, g.ConfiguredCores(), g.memoryMB, g.cpu, g.running,
             g.running && (g.ConfiguredCores() != g.liveCores || g.memoryMB != g.liveMemoryMB),
             g.isTemplate, Naming.Tags(g.tags), g.ciUser, g.ip, g.nameserver, g.searchDomain,
             Naming.ParseCidataHash(g.ide0))
    else
      Object(g.kind, g.name, g.node, vmid, g.liveCores, g.liveMemoryMB, "", g.running, false,
             g.isTemplate, Naming.Tags(g.tags), "", "", "", "", "")
  }

  /** `observed` is an accurate listing of the cluster, in any order. */
  ghost predicate Lists(observed: seq<Object>, guests: Guests) {
    && (forall o :: o in observed ==> o.vmid in guests && o == Observe(o.vmid, guests[o.vmid]))
    && (forall v :: v in guests ==> Observe(v, guests[v]) in observed)
    && (forall i, j :: 0 <= i < j < |observed| ==> observed[i].vmid != observed[j].vmid)
  }

  function Lookup(guests: Guests, v: int): Option<Guest> {
    if v in guests then Some(guests[v]) else None
  }

  // ---------------------------------------------------------------- API calls

  datatype Op =
    | NewVm(spec: GuestSpec)
    | ImportImage(spec: GuestSpec)
    | CloneVm(spec: GuestSpec)
    | FinishClone(spec: GuestSpec)
    | UploadSeed(file: IsoFile)
    | AttachSeed(node: string, vmid: int, ide0: string)
    | ReadSeed(spec: GuestSpec)
    | DropSeed(file: IsoFile)
    | ReadPower(upd: GuestUpdate)
    | Configure(upd: GuestUpdate)
    | SetPower(node: string, vmid: int, on: bool)
    | Convert(node: string, vmid: int)
    | ReadGuest(obj: Object)
    | Destroy(node: string, vmid: int)
    | Download(file: IsoFile)
    | Raise(vmid: int)
  {
    /** The guest the call addresses, if any. */
    function Target(): Option<int> {
      match this
      case NewVm(spec) => Some(spec.vmid)
      case ImportImage(spec) => Some(spec.vmid)
      case CloneVm(spec) => Some(spec.vmid)
      case FinishClone(spec) => Some(spec.vmid)
      case AttachSeed(_, vmid, _) => Some(vmid)
      case ReadSeed(spec) => Some(spec.vmid)
      case ReadPower(upd) => Some(upd.vmid)
      case Configure(upd) => Some(upd.vmid)
      case SetPower(_, vmid, _) => Some(vmid)
      case Convert(_, vmid) => Some(vmid)
      case ReadGuest(obj) => Some(obj.vmid)
      case Destroy(_, vmid) => Some(vmid)
      case Raise(vmid) => Some(vmid)
      case _ => None
    }

    /** The guest a clone copies. */
    function Source(): Option<int> {
      if CloneVm? && spec.clone.Some? then Some(spec.clone.value.templateVMID) else None
    }

    /** A call that brings a guest into being, and fails on an occupied VMID. */
    predicate Creates() {
      NewVm? || CloneVm?
    }

    function Weight(): nat {
      if ReadSeed? || ReadGuest? then 4 else if ReadPower? then 3 else 1
    }
  }

  function Weight(ops: seq<Op>): nat {
    if ops == [] then 0 else ops[0].Weight() + Weight(ops[1..])
  }

  function CdromOf(g: Guest, iso: string): Guest {
    if iso == "" then g else g.(ide0 := iso + ",media=cdrom")
  }

  /** cloudInitOptions, applied to a guest. */
  function WithCloudInit(g: Guest, ci: Option<Manifest.CloudInit>): Guest {
    if ci.None? then g
    else
      var c := ci.value;
      g.(ciUser := if c.user != "" then c.user else g.ciUser,
         ip := if c.ip == "" then g.ip else if '=' in c.ip then c.ip else "ip=" + c.ip,
         nameserver := if c.nameserver != "" then c.nameserver else g.nameserver,
         searchDomain := if c.searchDomain != "" then c.searchDomain else g.searchDomain)
  }

  function BlankGuest(spec: GuestSpec): Guest {
    CdromOf(Guest(Qemu, spec.name, spec.node, Text.Join(spec.tags, ';'), false, false, spec.cores, 0, spec.memoryMB,
                  spec.cpu, "", "", "", "", "", OrOne(spec.cores), spec.memoryMB, ""), spec.iso)
  }

  // A fresh clone copies the template's configuration, and carries no tag until it is finished.
  function ClonedGuest(src: Guest, spec: GuestSpec): Guest {
    src.(name := spec.name, tags := "", isTemplate := false, running := false)
  }

  function FinishedClone(g: Guest, spec: GuestSpec): Guest {
    var h := CdromOf(g, spec.iso);
    var h := h.(cores := if spec.cores > 0 then spec.cores else h.cores,
                memoryMB := if spec.memoryMB > 0 then spec.memoryMB else h.memoryMB,
                cpu := if spec.cpu != "" then spec.cpu else h.cpu,
                tags := if |spec.tags| > 0 then Text.Join(spec.tags, ';') else h.tags);
    WithCloudInit(h, spec.cloudInit)
  }

  function Configured(g: Guest, upd: GuestUpdate): Guest {
    g.(cores := upd.cores, memoryMB := upd.memoryMB,
       cpu := if upd.cpu != "" then upd.cpu else g.cpu,
       ciUser := if upd.ciUser != "" then upd.ciUser else g.ciUser,
       ip := if upd.ip != "" then upd.ip else g.ip,
       nameserver := if upd.nameserver != "" then upd.nameserver else g.nameserver,
       searchDomain := if upd.searchDomain != "" then upd.searchDomain else g.searchDomain)
  }

  // A started guest runs with its configured values and reads its ide0; one already running keeps what it runs with.
  function Powered(g: Guest, on: bool): Guest {
    if on && !g.running
    then g.(running := true, liveCores := g.ConfiguredCores(), liveMemoryMB := g.memoryMB, startedIde0 := g.ide0)
    else g.(running := on)
  }

  /** The guest is a VM that the given node knows. */
  predicate VmOn(g: Option<Guest>, node: string) {
    g.Some? && g.value.kind.Qemu? && g.value.node == node
  }

  /** The calls of provisionCidata. */
  function SeedOps(site: Site, spec: GuestSpec): seq<Op> {
    if spec.userData == "" then []
    else
      var file := Naming.CidataFilename(spec.vmid, site.hash(spec.userData));
      [UploadSeed((site.isoStorage, file)),
       AttachSeed(spec.node, spec.vmid, Naming.IsoVolume(site.isoStorage, file))]
  }

  predicate GeneratedSeed(filename: string) {
    Naming.CIDATA_PREFIX <= filename
  }

  /** The generated seed file attached at ide0, if any. */
  function AttachedSeed(ide0: string): Option<IsoFile> {
    var (storage, file) := Naming.ParseISOVolume(ide0);
    if file != "" && GeneratedSeed(file) then Some((storage, file)) else None
  }

  /** The generated seed that the attachment of `newFile` replaces. */
  function StaleSeed(ide0: string, newFile: string): Option<IsoFile> {
    var prev := AttachedSeed(ide0);
    if prev.Some? && prev.value.1 != newFile then prev else None
  }

  function DropOps(file: Option<IsoFile>): seq<Op> {
    if file.Some? then [DropSeed(file.value)] else []
  }

  /** The calls SyncUserData makes after reading the guest's ide0. */
  function ReseedOps(site: Site, spec: GuestSpec, ide0: string): seq<Op> {
    SeedOps(site, spec) + DropOps(StaleSeed(ide0, Naming.CidataFilename(spec.vmid, site.hash(spec.userData))))
  }

  /** The calls DeleteGuest makes after reading the guest. */
  function DeleteOps(obj: Object, g: Guest): seq<Op> {
    (if g.running then [SetPower(obj.node, obj.vmid, false)] else [])
    + ([Destroy(obj.node, obj.vmid)] + DropOps(AttachedSeed(g.ide0)))
  }

  datatype Effect = Fails | Sets(guest: Option<Guest>, next: seq<Op>)

  /** What a call does to its target, given the target and the clone source; Fails when it cannot succeed. */
  function EffectOf(site: Site, op: Op, g: Option<Guest>, src: Option<Guest>): Effect {
    match op
    case NewVm(spec) =>
      if g.None? then Sets(Some(BlankGuest(spec)), []) else Fails
    case ImportImage(spec) =>
      if spec.diskStorage != "" && VmOn(g, spec.node)
      then Sets(Some(WithCloudInit(CdromOf(g.value, spec.iso), spec.cloudInit)), []) else Fails
    case CloneVm(spec) =>
      if g.None? && VmOn(src, spec.node) && spec.clone.Some? && (spec.clone.value.full || src.value.isTemplate)
      then Sets(Some(ClonedGuest(src.value, spec)), []) else Fails
    case FinishClone(spec) =>
      if VmOn(g, spec.node) then Sets(Some(FinishedClone(g.value, spec)), []) else Fails
    case AttachSeed(node, _, ide0) =>
      if VmOn(g, node) then Sets(Some(g.value.(ide0 := ide0)), []) else Fails
    case ReadSeed(spec) =>
      Sets(g, ReseedOps(site, spec, if VmOn(g, spec.node) then g.value.ide0 else ""))
    case ReadPower(upd) =>
      if VmOn(g, upd.node)
      then Sets(g, [Configure(upd)]
                   + if upd.running != g.value.running then [SetPower(upd.node, upd.vmid, upd.running)] else [])
      else Fails
    case Configure(upd) =>
      if VmOn(g, upd.node) then Sets(Some(Configured(g.value, upd)), []) else Fails
    case SetPower(node, _, on) =>
      if VmOn(g, node) then Sets(Some(Powered(g.value, on)), []) else Fails
    case Convert(node, _) =>
      if VmOn(g, node) then Sets(Some(g.value.(isTemplate := true)), []) else Fails
    case ReadGuest(obj) =>
      if obj.kind.Qemu? && VmOn(g, obj.node) then Sets(g, DeleteOps(obj, g.value)) else Fails
    case Destroy(node, _) =>
      if VmOn(g, node) && !g.value.running then Sets(None, []) else Fails
    case Raise(_) => Fails
    case _ => Sets(g, [])
  }

  function Put(guests: Guests, v: int, g: Option<Guest>): Guests {
    if g.Some? then guests[v := g.value] else guests - {v}
  }

  function FilesAfter(op: Op, files: set<IsoFile>): set<IsoFile> {
    match op
    case UploadSeed(file) => files + {file}
    case Download(file) => files + {file}
    case DropSeed(file) => files - {file}
    case _ => files
  }

  /** How the environment answers a call: it succeeds, it is refused, or it takes effect but reports an error. */
  datatype Outcome = Done | Refused | Lost

  datatype StepResult = Failed(world: World) | Next(world: World, rest: seq<Op>)

  function Find(w: World, v: Option<int>): Option<Guest> {
    if v.Some? then Lookup(w.guests, v.value) else None
  }

  /** One API call of the program [op] + rest. The reads and deletes whose errors the code ignores never fail. */
  function Step(site: Site, op: Op, rest: seq<Op>, w: World, outcome: Outcome): StepResult {
    if outcome.Refused? && op.ReadSeed? then Next(w, ReseedOps(site, op.spec, "") + rest)
    else if outcome.Refused? && op.DropSeed? then Next(w, rest)
    else if outcome.Refused? then Failed(w)
    else
      match EffectOf(site, op, Find(w, op.Target()), Find(w, op.Source()))
      case Fails => Failed(w)
      case Sets(g, next) =>
        var guests := if op.Target().Some? then Put(w.guests, op.Target().value, g) else w.guests;
        var w' := World(guests, FilesAfter(op, w.files));
        if outcome.Lost? && !op.ReadSeed? && !op.DropSeed? then Failed(w') else Next(w', next + rest)
  }

  // ---------------------------------------------------------------- programs

  function PowerOps(spec: GuestSpec): seq<Op> {
    if spec.running then [SetPower(spec.node, spec.vmid, true)] else []
  }

  function CreateOps(site: Site, spec: GuestSpec): seq<Op> {
    (if spec.clone.Some? then [CloneVm(spec), FinishClone(spec)]
     else [NewVm(spec)] + if spec.image.Some? then [ImportImage(spec)] else [])
    + SeedOps(site, spec) + PowerOps(spec)
  }

  /** The API calls behind an action's Apply. */
  function Program(site: Site, apply: Apply): seq<Op> {
    match apply
    case CreateGuest(spec) => CreateOps(site, spec)
    case BuildTemplate(spec) => CreateOps(site, spec) + [Convert(spec.node, spec.vmid)]
    case ConvertToTemplate(node, vmid) => [Convert(node, vmid)]
    case UpdateGuest(upd) => [ReadPower(upd)]
    case ReseedGuest(seed, reboot, node, vmid) =>
      (if seed.Some? then [ReadSeed(seed.value)] else [Raise(vmid)])
      + if reboot then [SetPower(node, vmid, false), SetPower(node, vmid, true)] else []
    case RebootGuest(node, vmid) => [SetPower(node, vmid, false), SetPower(node, vmid, true)]
    case DeleteGuest(obj) => [ReadGuest(obj)]
    case DownloadISO(req) => [Download((req.storage, req.filename))]
    case SpecError(vmid) => [Raise(vmid)]
    case NoApply => []
  }

  /** The guest an action is about. */
  function ApplyTarget(apply: Apply): Option<int> {
    match apply
    case CreateGuest(spec) => Some(spec.vmid)
    case BuildTemplate(spec) => Some(spec.vmid)
    case ConvertToTemplate(_, vmid) => Some(vmid)
    case UpdateGuest(upd) => Some(upd.vmid)
    case ReseedGuest(_, _, _, vmid) => Some(vmid)
    case RebootGuest(_, vmid) => Some(vmid)
    case DeleteGuest(obj) => Some(obj.vmid)
    case SpecError(vmid) => Some(vmid)
    case _ => None
  }

  lemma {:induction false} WeightAppend(a: seq<Op>, b: seq<Op>)
    ensures Weight(a + b) == Weight(a) + Weight(b)
  {
    if a == [] {
      assert a + b == b;
    } else {
      WeightAppend(a[1..], b);
      assert (a + b)[1..] == a[1..] + b;
    }
  }

  lemma WeightPair(a: Op, b: Op)
    ensures Weight([a]) == a.Weight() && Weight([a, b]) == a.Weight() + b.Weight()
  {
    assert [a][1..] == [] && [b][1..] == [] && [a, b][1..] == [b];
  }

  lemma DropWeight(file: Option<IsoFile>)
    ensures Weight(DropOps(file)) <= 1
  {
  }

  lemma ReseedWeight(site: Site, spec: GuestSpec, drop: Option<IsoFile>)
    ensures Weight(SeedOps(site, spec) + DropOps(drop)) <= 3
  {
    var s := SeedOps(site, spec);
    if s != [] {
      WeightPair(s[0], s[1]);
      assert s == [s[0], s[1]];
    }
    DropWeight(drop);
    WeightAppend(s, DropOps(drop));
  }

  lemma DeleteWeight(obj: Object, g: Guest)
    ensures Weight(DeleteOps(obj, g)) <= 3
  {
    var off, gone := SetPower(obj.node, obj.vmid, false), Destroy(obj.node, obj.vmid);
    var drops := DropOps(AttachedSeed(g.ide0));
    WeightPair(off, gone);
    WeightPair(gone, off);
    DropWeight(AttachedSeed(g.ide0));
    WeightAppend([gone], drops);
    WeightAppend(if g.running then [off] else [], [gone] + drops);
  }

  /** Every call leaves less to do, so every program ends. */
  lemma StepShrinks(site: Site, op: Op, rest: seq<Op>, w: World, outcome: Outcome)
    ensures var r := Step(site, op, rest, w, outcome); r.Next? ==> Weight(r.rest) < Weight([op] + rest)
  {
    hide Naming.ParseISOVolume, Naming.CidataFilename, Naming.IsoVolume, Text.Join;
    assert ([op] + rest)[1..] == rest;
    if op.ReadSeed? {
      var g := Find(w, op.Target());
      var ide0 := if outcome.Refused? || !VmOn(g, op.spec.node) then "" else g.value.ide0;
      ReseedWeight(site, op.spec, StaleSeed(ide0, Naming.CidataFilename(op.spec.vmid, site.hash(op.spec.userData))));
      WeightAppend(ReseedOps(site, op.spec, ide0), rest);
    } else if op.ReadGuest? && VmOn(Find(w, op.Target()), op.obj.node) {
      var g := Find(w, op.Target()).value;
      DeleteWeight(op.obj, g);
      WeightAppend(DeleteOps(op.obj, g), rest);
    } else if op.ReadPower? {
      var c, p := Configure(op.upd), SetPower(op.upd.node, op.upd.vmid, op.upd.running);
      WeightPair(c, p);
      WeightAppend([c, p], rest);
      WeightAppend([c], rest);
    } else {
      assert [] + rest == rest;
    }
  }

  /** Run a program with every call succeeding; None when a call cannot succeed. */
  function RunAll(site: Site, ops: seq<Op>, w: World): Option<World>
    decreases Weight(ops)
  {
    if ops == [] then Some(w)
    else
      StepShrinks(site, ops[0], ops[1..], w, Done);
      assert ops == [ops[0]] + ops[1..];
      match Step(site, ops[0], ops[1..], w, Done)
      case Failed(_) => None
      case Next(w', rest) => RunAll(site, rest, w')
  }
}
