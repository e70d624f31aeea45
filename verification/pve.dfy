/** The Proxmox client: each guest operation as it makes its API calls one after the other, stopping at the first error. */
module PveClient {
  import opened Prelude
  import opened Proxmox
  import opened Cluster
  import Naming
  import Programs
  import Text

  /** The cluster after some calls, whether they all succeeded, and the answers still to come. */
  datatype Ran = Ran(world: World, ok: bool, answers: seq<Outcome>)

  /** How the environment answers the next call. A script that has run out answers Done. */
  function Answer(answers: seq<Outcome>): Outcome {
    if answers == [] then Done else answers[0]
  }

  function Later(answers: seq<Outcome>): seq<Outcome> {
    if answers == [] then [] else answers[1..]
  }

  /** A program run against the given answers, up to its end or its first failing call. */
  function Execute(site: Site, ops: seq<Op>, w: World, answers: seq<Outcome>): Ran
    decreases Weight(ops)
  {
    if ops == [] then Ran(w, true, answers)
    else
      StepShrinks(site, ops[0], ops[1..], w, Answer(answers));
      assert ops == [ops[0]] + ops[1..];
      match Step(site, ops[0], ops[1..], w, Answer(answers))
      case Failed(w') => Ran(w', false, Later(answers))
      case Next(w', rest) => Execute(site, rest, w', Later(answers))
  }

  function Continue(site: Site, r: StepResult, answers: seq<Outcome>): Ran {
    match r
    case Failed(w) => Ran(w, false, answers)
    case Next(w, rest) => Execute(site, rest, w, answers)
  }

  lemma ExecuteCons(site: Site, op: Op, rest: seq<Op>, w: World, answers: seq<Outcome>)
    ensures Execute(site, [op] + rest, w, answers)
         == Continue(site, Step(site, op, rest, w, Answer(answers)), Later(answers))
  {
  }

  /** When every call succeeds, this is the complete run. */
  lemma {:induction false} ExecuteAllDone(site: Site, ops: seq<Op>, w: World)
    ensures var r := Execute(site, ops, w, []); RunAll(site, ops, w) == if r.ok then Some(r.world) else None
    decreases Weight(ops)
  {
    hide Step;
    if ops != [] {
      assert ops == [ops[0]] + ops[1..];
      var r := Step(site, ops[0], ops[1..], w, Done);
      StepShrinks(site, ops[0], ops[1..], w, Done);
      if r.Next? {
        ExecuteAllDone(site, r.rest, r.world);
      }
    }
  }

  lemma StepAppend(site: Site, op: Op, a: seq<Op>, b: seq<Op>, w: World, outcome: Outcome)
    ensures Step(site, op, a + b, w, outcome)
         == match Step(site, op, a, w, outcome) case Failed(v) => Failed(v) case Next(v, rest) => Next(v, rest + b)
  {
    hide EffectOf, FilesAfter, ReseedOps;
    var e := EffectOf(site, op, Find(w, op.Target()), Find(w, op.Source()));
    assert e.Sets? ==> e.next + (a + b) == (e.next + a) + b;
    assert op.ReadSeed? ==> ReseedOps(site, op.spec, "") + (a + b) == (ReseedOps(site, op.spec, "") + a) + b;
  }

  /** One program after another. */
  function Both(site: Site, r: Ran, b: seq<Op>): Ran {
    if r.ok then Execute(site, b, r.world, r.answers) else r
  }

  lemma {:induction false} ExecuteAppend(site: Site, a: seq<Op>, b: seq<Op>, w: World, answers: seq<Outcome>)
    ensures Execute(site, a + b, w, answers) == Both(site, Execute(site, a, w, answers), b)
    decreases Weight(a)
  {
    hide Step;
    if a == [] {
      assert a + b == b;
    } else {
      var op, rest := a[0], a[1..];
      assert a == [op] + rest && a + b == [op] + (rest + b);
      ExecuteCons(site, op, rest, w, answers);
      ExecuteCons(site, op, rest + b, w, answers);
      StepAppend(site, op, rest, b, w, Answer(answers));
      var r := Step(site, op, rest, w, Answer(answers));
      StepShrinks(site, op, rest, w, Answer(answers));
      if r.Next? {
        ExecuteAppend(site, r.rest, b, r.world, Later(answers));
      }
    }
  }

  // Calls that only write their target or the storage.
  predicate Single(op: Op) {
    !op.ReadSeed? && !op.ReadPower? && !op.ReadGuest?
  }

  lemma ExecuteOne(site: Site, op: Op, w: World, answers: seq<Outcome>)
    requires Single(op)
    ensures var r := Step(site, op, [], w, Answer(answers)); Execute(site, [op], w, answers) == Ran(r.world, r.Next?, Later(answers))
  {
  }

  class PVE {
    const site: Site
    var world: World
    var answers: seq<Outcome>

    constructor (site: Site, world: World, answers: seq<Outcome>)
      ensures this.site == site && this.world == world && this.answers == answers
    {
      this.site, this.world, this.answers := site, world, answers;
    }

    /** What running `ops` from here gives. */
    function Runs(ops: seq<Op>): Ran
      reads this
    {
      Execute(site, ops, world, answers)
    }

    function Now(ok: bool): Ran
      reads this
    {
      Ran(world, ok, answers)
    }

    method Api(op: Op) returns (ok: bool)
      requires Single(op)
      modifies this`world, this`answers
      ensures Now(ok) == old(Runs([op]))
    {
      hide Step, Execute;
      ExecuteOne(site, op, world, answers);
      var r := Step(site, op, [], world, Answer(answers));
      world, answers, ok := r.world, Later(answers), r.Next?;
    }

    /** Read a VM on a node. */
    method GetVm(node: string, vmid: int) returns (vm: Option<Guest>)
      modifies this`answers
      ensures answers == Later(old(answers))
      ensures vm == if old(Answer(answers)).Done? && VmOn(Lookup(world.guests, vmid), node) then Lookup(world.guests, vmid) else None
    {
      var answer := Answer(answers);
      answers := Later(answers);
      vm := Lookup(world.guests, vmid);
      if !answer.Done? || !VmOn(vm, node) {
        vm := None;
      }
    }

    method SetPower(node: string, vmid: int, on: bool) returns (ok: bool)
      modifies this`world, this`answers
      ensures Now(ok) == old(Runs([Op.SetPower(node, vmid, on)]))
    {
      ok := Api(Op.SetPower(node, vmid, on));
    }

    method CloneFromTemplate(spec: GuestSpec) returns (ok: bool)
      modifies this`world, this`answers
      ensures Now(ok) == old(Runs([CloneVm(spec), FinishClone(spec)]))
    {
      hide Execute;
      assert [CloneVm(spec)] + [FinishClone(spec)] == [CloneVm(spec), FinishClone(spec)];
      ExecuteAppend(site, [CloneVm(spec)], [FinishClone(spec)], world, answers);
      ok := Api(CloneVm(spec));
      if !ok {
        return;
      }
      ok := Api(FinishClone(spec));
    }

    method ProvisionCidata(spec: GuestSpec) returns (ok: bool)
      modifies this`world, this`answers
      ensures Now(ok) == old(Runs(SeedOps(site, spec)))
    {
      if spec.userData == "" {
        return true;
      }
      hide Execute, Naming.CidataFilename, Naming.IsoVolume;
      var filename := Naming.CidataFilename(spec.vmid, site.hash(spec.userData));
      var upload := UploadSeed((site.isoStorage, filename));
      var attach := AttachSeed(spec.node, spec.vmid, Naming.IsoVolume(site.isoStorage, filename));
      assert [upload] + [attach] == SeedOps(site, spec);
      ExecuteAppend(site, [upload], [attach], world, answers);
      ok := Api(upload);
      if !ok {
        return;
      }
      ok := Api(attach);
    }

    method CreateGuest(spec: GuestSpec) returns (ok: bool)
      modifies this`world, this`answers
      ensures Now(ok) == old(Runs(Program(site, Apply.CreateGuest(spec))))
    {
      hide Execute, SeedOps;
      ghost var build := Programs.BuildOps(spec);
      ghost var w, a := world, answers;
      CreateAppends(site, spec, w, a);
      if spec.clone.Some? {
        ok := CloneFromTemplate(spec);
        if !ok {
          return;
        }
        ok := ProvisionCidata(spec);
        if !ok {
          return;
        }
        ok := PowerOn(spec);
        return;
      }
      NewVmAppends(site, spec, w, a);
      ok := Api(NewVm(spec));
      if !ok {
        return;
      }
      if spec.image.Some? {
        ok := Api(ImportImage(spec));
        if !ok {
          return;
        }
      } else {
        ExecuteNone(site, world, answers);
      }
      ok := ProvisionCidata(spec);
      if !ok {
        return;
      }
      ok := PowerOn(spec);
    }

    method PowerOn(spec: GuestSpec) returns (ok: bool)
      modifies this`world, this`answers
      ensures Now(ok) == old(Runs(PowerOps(spec)))
    {
      ok := true;
      if spec.running {
        ok := SetPower(spec.node, spec.vmid, true);
      }
    }

    method ConvertToTemplate(node: string, vmid: int) returns (ok: bool)
      modifies this`world, this`answers
      ensures Now(ok) == old(Runs(Program(site, Apply.ConvertToTemplate(node, vmid))))
    {
      ok := Api(Convert(node, vmid));
    }

    /** The apply step of a template: create, then convert. */
    method BuildTemplate(spec: GuestSpec) returns (ok: bool)
      modifies this`world, this`answers
      ensures Now(ok) == old(Runs(Program(site, Apply.BuildTemplate(spec))))
    {
      hide Execute, CreateOps;
      ExecuteAppend(site, CreateOps(site, spec), [Convert(spec.node, spec.vmid)], world, answers);
      ok := CreateGuest(spec);
      if !ok {
        return;
      }
      ok := ConvertToTemplate(spec.node, spec.vmid);
    }

    method UpdateGuest(upd: GuestUpdate) returns (ok: bool)
      modifies this`world, this`answers
      ensures Now(ok) == old(Runs(Program(site, Apply.UpdateGuest(upd))))
    {
      hide Execute, Naming.Tags;
      ReadPowerGoesOn(site, upd, world, answers);
      var vm := GetVm(upd.node, upd.vmid);
      if vm.None? {
        return false;
      }
      ghost var power := if upd.running != vm.value.running then [Op.SetPower(upd.node, upd.vmid, upd.running)] else [];
      ExecuteAppend(site, [Configure(upd)], power, world, answers);
      ok := Api(Configure(upd));
      if !ok {
        return;
      }
      if upd.running != vm.value.running {
        ok := SetPower(upd.node, upd.vmid, upd.running);
      } else {
        ExecuteNone(site, world, answers);
      }
    }

    method RebootGuest(node: string, vmid: int) returns (ok: bool)
      modifies this`world, this`answers
      ensures Now(ok) == old(Runs(Program(site, Apply.RebootGuest(node, vmid))))
    {
      hide Execute;
      var off, on := Op.SetPower(node, vmid, false), Op.SetPower(node, vmid, true);
      assert [off] + [on] == [off, on];
      ExecuteAppend(site, [off], [on], world, answers);
      ok := SetPower(node, vmid, false);
      if !ok {
        return;
      }
      ok := SetPower(node, vmid, true);
    }

    /** Remove a seed; a failure is ignored. */
    method DropSeed(file: Option<IsoFile>)
      modifies this`world, this`answers
      ensures Now(true) == old(Runs(DropOps(file)))
    {
      if file.Some? {
        DropNeverFails(site, file.value, world, answers);
        var _ := Api(Op.DropSeed(file.value));
      }
    }

    method SyncUserData(spec: GuestSpec) returns (ok: bool)
      modifies this`world, this`answers
      ensures Now(ok) == old(Runs([ReadSeed(spec)]))
    {
      hide Execute, SeedOps, DropOps, StaleSeed, Naming.CidataFilename;
      ReadSeedGoesOn(site, spec, world, answers);
      // Read the ide0 in use; a failed read counts as none.
      var answer := Answer(answers);
      answers := Later(answers);
      var vm := Lookup(world.guests, spec.vmid);
      var ide0 := if !answer.Refused? && VmOn(vm, spec.node) then vm.value.ide0 else "";
      var stale := StaleSeed(ide0, Naming.CidataFilename(spec.vmid, site.hash(spec.userData)));
      ExecuteAppend(site, SeedOps(site, spec), DropOps(stale), world, answers);
      ok := ProvisionCidata(spec);
      if !ok {
        return;
      }
      DropSeed(stale);
    }

    method DeleteGuest(obj: Object) returns (ok: bool)
      modifies this`world, this`answers
      ensures Now(ok) == old(Runs(Program(site, Apply.DeleteGuest(obj))))
    {
      hide Execute, DropOps, AttachedSeed, Naming.Tags;
      ReadGuestGoesOn(site, obj, world, answers);
      if obj.kind.Lxc? {
        answers := Later(answers);
        return false;
      }
      var vm := GetVm(obj.node, obj.vmid);
      if vm.None? {
        return false;
      }
      var seed := AttachedSeed(vm.value.ide0);
      DeleteAppends(site, obj, vm.value, world, answers);
      if vm.value.running {
        ok := SetPower(obj.node, obj.vmid, false);
        if !ok {
          return;
        }
      } else {
        ExecuteNone(site, world, answers);
      }
      ok := Api(Destroy(obj.node, obj.vmid));
      if !ok {
        return;
      }
      DropSeed(seed);
    }
  }

  lemma ExecuteNone(site: Site, w: World, answers: seq<Outcome>)
    ensures Execute(site, [], w, answers) == Ran(w, true, answers)
  {
  }

  lemma CreateAppends(site: Site, spec: GuestSpec, w: World, answers: seq<Outcome>)
    ensures Execute(site, CreateOps(site, spec), w, answers)
         == Both(site, Both(site, Execute(site, Programs.BuildOps(spec), w, answers), SeedOps(site, spec)), PowerOps(spec))
  {
    hide Execute, SeedOps;
    var build, seed, power := Programs.BuildOps(spec), SeedOps(site, spec), PowerOps(spec);
    assert CreateOps(site, spec) == build + seed + power;
    ExecuteAppend(site, build + seed, power, w, answers);
    ExecuteAppend(site, build, seed, w, answers);
  }

  lemma NewVmAppends(site: Site, spec: GuestSpec, w: World, answers: seq<Outcome>)
    requires spec.clone.None?
    ensures Execute(site, Programs.BuildOps(spec), w, answers)
         == Both(site, Execute(site, [NewVm(spec)], w, answers), if spec.image.Some? then [ImportImage(spec)] else [])
  {
    hide Execute;
    ExecuteAppend(site, [NewVm(spec)], if spec.image.Some? then [ImportImage(spec)] else [], w, answers);
  }

  lemma ReadPowerGoesOn(site: Site, upd: GuestUpdate, w: World, answers: seq<Outcome>)
    ensures Execute(site, [ReadPower(upd)], w, answers)
         == (var g := Lookup(w.guests, upd.vmid);
             if Answer(answers).Done? && VmOn(g, upd.node)
             then Execute(site, [Configure(upd)]
                                + (if upd.running != g.value.running then [SetPower(upd.node, upd.vmid, upd.running)] else []),
                          w, Later(answers))
             else Ran(w, false, Later(answers)))
  {
    hide Execute, Naming.Tags;
    var g := Lookup(w.guests, upd.vmid);
    assert [ReadPower(upd)] + [] == [ReadPower(upd)];
    ExecuteCons(site, ReadPower(upd), [], w, answers);
    PutBack(w, upd.vmid);
    if VmOn(g, upd.node) {
      var next := [Configure(upd)] + if upd.running != g.value.running then [SetPower(upd.node, upd.vmid, upd.running)] else [];
      assert next + [] == next;
    }
  }

  lemma PutBack(w: World, v: int)
    ensures Put(w.guests, v, Lookup(w.guests, v)) == w.guests
    ensures World(Put(w.guests, v, Lookup(w.guests, v)), w.files) == w
  {
  }

  lemma DropNeverFails(site: Site, file: IsoFile, w: World, answers: seq<Outcome>)
    ensures Execute(site, [DropSeed(file)], w, answers).ok
  {
  }

  lemma ReadSeedGoesOn(site: Site, spec: GuestSpec, w: World, answers: seq<Outcome>)
    ensures Execute(site, [ReadSeed(spec)], w, answers)
         == (var g := Lookup(w.guests, spec.vmid);
             var ide0 := if !Answer(answers).Refused? && VmOn(g, spec.node) then g.value.ide0 else "";
             Execute(site, ReseedOps(site, spec, ide0), w, Later(answers)))
  {
    hide Execute, ReseedOps;
    assert [ReadSeed(spec)] + [] == [ReadSeed(spec)];
    ExecuteCons(site, ReadSeed(spec), [], w, answers);
    PutBack(w, spec.vmid);
    var g := Lookup(w.guests, spec.vmid);
    var ops := ReseedOps(site, spec, if !Answer(answers).Refused? && VmOn(g, spec.node) then g.value.ide0 else "");
    assert ops + [] == ops;
  }

  lemma ReadGuestGoesOn(site: Site, obj: Object, w: World, answers: seq<Outcome>)
    ensures Execute(site, [ReadGuest(obj)], w, answers)
         == (var g := Lookup(w.guests, obj.vmid);
             if Answer(answers).Done? && obj.kind.Qemu? && VmOn(g, obj.node)
             then Execute(site, DeleteOps(obj, g.value), w, Later(answers))
             else Ran(w, false, Later(answers)))
  {
    hide Execute, DeleteOps;
    assert [ReadGuest(obj)] + [] == [ReadGuest(obj)];
    ExecuteCons(site, ReadGuest(obj), [], w, answers);
    PutBack(w, obj.vmid);
    var g := Lookup(w.guests, obj.vmid);
    if obj.kind.Qemu? && VmOn(g, obj.node) {
      assert DeleteOps(obj, g.value) + [] == DeleteOps(obj, g.value);
    }
  }

  lemma DeleteAppends(site: Site, obj: Object, g: Guest, w: World, answers: seq<Outcome>)
    ensures var off := if g.running then [SetPower(obj.node, obj.vmid, false)] else [];
            var gone, drop := [Destroy(obj.node, obj.vmid)], DropOps(AttachedSeed(g.ide0));
            Execute(site, DeleteOps(obj, g), w, answers) == Both(site, Both(site, Execute(site, off, w, answers), gone), drop)
  {
    hide Execute, DropOps;
    var off := if g.running then [SetPower(obj.node, obj.vmid, false)] else [];
    var gone, drop := [Destroy(obj.node, obj.vmid)], DropOps(AttachedSeed(g.ide0));
    assert DeleteOps(obj, g) == off + gone + drop;
    ExecuteAppend(site, off + gone, drop, w, answers);
    ExecuteAppend(site, off, gone, w, answers);
  }
}
