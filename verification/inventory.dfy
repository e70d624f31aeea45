/** The life of the generated seed files: what is on the ISO storage is what is attached. */
module SeedInventory {
  import opened Prelude
  import opened Proxmox
  import opened Cluster
  import opened Programs
  import Naming
  import Text

  /** The generated seed that the guest `v` has at ide0. */
  function SeedAt(w: World, v: int): Option<IsoFile> {
    if v in w.guests then AttachedSeed(w.guests[v].ide0) else None
  }

  /** The generated files on storage are exactly the attached ones, and no two guests share one. */
  ghost predicate Inventory(w: World) {
    && (forall f :: f in w.files && GeneratedSeed(f.1) ==> exists v :: SeedAt(w, v) == Some(f))
    && (forall v :: SeedAt(w, v).Some? ==> SeedAt(w, v).value in w.files)
    && (forall u, v :: u != v && SeedAt(w, u).Some? ==> SeedAt(w, u) != SeedAt(w, v))
  }

  /** The file is a seed generated for `v`. */
  ghost predicate SeedOf(site: Site, v: int, f: IsoFile) {
    v >= 0 && f.0 == site.isoStorage && exists h :: Naming.IsHash(h) && f.1 == Naming.CidataFilename(v, h)
  }

  /** Every attached seed was generated for the guest it is attached to. */
  ghost predicate OwnSeeds(site: Site, w: World) {
    forall v :: SeedAt(w, v).Some? ==> SeedOf(site, v, SeedAt(w, v).value)
  }

  lemma SeedsApart(site: Site, u: int, v: int, f: IsoFile)
    requires SeedOf(site, u, f) && SeedOf(site, v, f)
    ensures u == v
  {
    hide Naming.CidataFilename;
    var h :| Naming.IsHash(h) && f.1 == Naming.CidataFilename(u, h);
    var k :| Naming.IsHash(k) && f.1 == Naming.CidataFilename(v, k);
    Naming.CidataFilenameInjective(u, h, v, k);
  }

  /** The seed an operation attaches parses back as the file it uploaded. */
  lemma AttachedIsUploaded(site: Site, spec: GuestSpec)
    requires site.Valid() && spec.vmid >= 0
    ensures AttachedSeed(SeedIde0(site, spec)) == Some(SeedFile(site, spec))
    ensures SeedOf(site, spec.vmid, SeedFile(site, spec)) && GeneratedSeed(SeedFile(site, spec).1)
  {
    hide Naming.ParseISOVolume, Naming.IsoVolume, Naming.ParseCidataHash;
    Naming.SeedVolumeParsesBack(site.isoStorage, spec.vmid, site.hash(spec.userData));
    assert Naming.CidataFilename(spec.vmid, site.hash(spec.userData)) != "";
  }

  /** Only the guest `v` and the generated files `SeedAt(w, v)` and `SeedAt(w', v)` differ. */
  ghost predicate Exchanges(w: World, w': World, v: int) {
    && (forall u :: u != v ==> SeedAt(w', u) == SeedAt(w, u))
    && (forall f: IsoFile :: GeneratedSeed(f.1) ==>
          (f in w'.files <==> SeedAt(w', v) == Some(f) || (f in w.files && SeedAt(w, v) != Some(f))))
  }

  lemma GeneratedIfAttached(w: World, v: int)
    ensures SeedAt(w, v).Some? ==> GeneratedSeed(SeedAt(w, v).value.1)
  {
  }

  lemma ExchangeKeepsInventory(site: Site, w: World, w': World, v: int)
    requires Inventory(w) && OwnSeeds(site, w) && Exchanges(w, w', v)
    requires SeedAt(w', v).Some? ==> SeedOf(site, v, SeedAt(w', v).value)
    ensures Inventory(w') && OwnSeeds(site, w')
  {
    hide SeedAt, SeedOf, GeneratedSeed;
    forall u | SeedAt(w', u).Some?
      ensures SeedOf(site, u, SeedAt(w', u).value) && SeedAt(w', u).value in w'.files
    {
      GeneratedIfAttached(w', u);
      assert u != v ==> SeedAt(w', u) == SeedAt(w, u) && SeedAt(w, u) != SeedAt(w, v);
    }
    forall t, u | t != u && SeedAt(w', t).Some?
      ensures SeedAt(w', t) != SeedAt(w', u)
    {
      if SeedAt(w', t) == SeedAt(w', u) {
        SeedsApart(site, t, u, SeedAt(w', t).value);
      }
    }
    forall f | f in w'.files && GeneratedSeed(f.1)
      ensures exists u :: SeedAt(w', u) == Some(f)
    {
      if SeedAt(w', v) != Some(f) {
        var u :| SeedAt(w, u) == Some(f);
        assert SeedAt(w', u) == Some(f);
      }
    }
  }

  // ---------------------------------------------------------------- the operations

  /** The manifest's own ISO is not a generated file. */
  predicate PlainIso(iso: string) {
    AttachedSeed(iso + ",media=cdrom").None?
  }

  /** The clone takes over a seed generated for its template: it brings neither an ISO nor user-data of its own. */
  predicate InheritsSeed(spec: GuestSpec, w: World) {
    spec.userData == "" && spec.iso == "" && spec.clone.Some? && SeedAt(w, spec.clone.value.templateVMID).Some?
  }

  lemma NoCdrom()
    ensures AttachedSeed("").None?
  {
  }

  lemma BuiltSeed(spec: GuestSpec, w: World)
    requires PlainIso(spec.iso) && Built(spec, Find(w, CloneSource(spec))).Some?
    ensures var seed := AttachedSeed(Built(spec, Find(w, CloneSource(spec))).value.ide0);
            seed == if spec.clone.Some? && spec.iso == "" then SeedAt(w, spec.clone.value.templateVMID) else None
  {
    hide Naming.Tags, Text.Join, AttachedSeed;
    NoCdrom();
  }

  /** Creating a guest keeps the inventory exactly when the guest does not take over its template's seed. */
  lemma CreateInventory(site: Site, spec: GuestSpec, w: World, w': World)
    requires site.Valid() && spec.vmid >= 0 && PlainIso(spec.iso) && Inventory(w) && OwnSeeds(site, w)
    requires AfterCreate(site, spec, w) == Some(w')
    ensures Inventory(w') <==> !InheritsSeed(spec, w)
    ensures Inventory(w') ==> OwnSeeds(site, w')
  {
    hide AttachedSeed, GeneratedSeed, Naming.Tags, Text.Join, Inventory, OwnSeeds, SeedOf, PlainIso;
    var v := spec.vmid;
    BuiltSeed(spec, w);
    CreatedSeed(site, spec, w, w');
    if InheritsSeed(spec, w) {
      assert SeedAt(w', v) == SeedAt(w', spec.clone.value.templateVMID);
      SharedSeed(w', v, spec.clone.value.templateVMID);
    } else {
      if spec.userData != "" {
        AttachedIsUploaded(site, spec);
      }
      ExchangeKeepsInventory(site, w, w', v);
    }
  }

  lemma SharedSeed(w: World, u: int, v: int)
    requires u != v && SeedAt(w, u) == SeedAt(w, v) && SeedAt(w, u).Some?
    ensures !Inventory(w)
  {
  }

  lemma CreatedSeed(site: Site, spec: GuestSpec, w: World, w': World)
    requires site.Valid() && spec.vmid >= 0 && AfterCreate(site, spec, w) == Some(w')
    ensures spec.vmid !in w.guests && forall u :: u != spec.vmid ==> SeedAt(w', u) == SeedAt(w, u)
    ensures SeedAt(w', spec.vmid)
         == if spec.userData != "" then Some(SeedFile(site, spec))
            else AttachedSeed(Built(spec, Find(w, CloneSource(spec))).value.ide0)
    ensures w'.files == w.files + if spec.userData == "" then {} else {SeedFile(site, spec)}
  {
    hide AttachedSeed, GeneratedSeed, Naming.Tags, Text.Join, Built;
    AttachedIsUploaded(site, spec);
  }

  lemma ReseedInventory(site: Site, spec: GuestSpec, w: World, w': World)
    requires site.Valid() && spec.vmid >= 0 && Inventory(w) && OwnSeeds(site, w)
    requires AfterReseed(site, spec, w) == Some(w')
    ensures Inventory(w') && OwnSeeds(site, w')
  {
    hide AttachedSeed, GeneratedSeed, Inventory, OwnSeeds, SeedOf;
    var v := spec.vmid;
    AttachedIsUploaded(site, spec);
    StaleIsOther(site, spec, w);
    assert SeedAt(w', v) == Some(SeedFile(site, spec));
    ExchangeKeepsInventory(site, w, w', v);
  }

  lemma StaleIsOther(site: Site, spec: GuestSpec, w: World)
    requires OwnSeeds(site, w) && spec.vmid in w.guests
    ensures StaleSeed(w.guests[spec.vmid].ide0, SeedFile(site, spec).1)
         == if SeedAt(w, spec.vmid) == Some(SeedFile(site, spec)) then None else SeedAt(w, spec.vmid)
  {
  }

  lemma DeleteInventory(site: Site, obj: Object, w: World, w': World)
    requires Inventory(w) && OwnSeeds(site, w) && AfterDelete(obj, w) == Some(w')
    ensures Inventory(w') && OwnSeeds(site, w')
  {
    hide AttachedSeed, GeneratedSeed, Inventory, OwnSeeds, SeedOf;
    ExchangeKeepsInventory(site, w, w', obj.vmid);
  }

  /** A guest changed in any way but its ide0. */
  lemma SameIde0Inventory(site: Site, w: World, v: int, g: Guest)
    requires Inventory(w) && OwnSeeds(site, w) && v in w.guests && g.ide0 == w.guests[v].ide0
    ensures Inventory(WithGuest(w, v, g)) && OwnSeeds(site, WithGuest(w, v, g))
  {
    hide AttachedSeed, GeneratedSeed, SeedOf;
    var w' := WithGuest(w, v, g);
    assert forall u :: SeedAt(w', u) == SeedAt(w, u);
    forall f | f in w'.files && GeneratedSeed(f.1)
      ensures exists u :: SeedAt(w', u) == Some(f)
    {
      var u :| SeedAt(w, u) == Some(f);
      assert SeedAt(w', u) == Some(f);
    }
  }

  /** A VM created with user-data, then converted, keeps its seed at ide0; a clone of it shares that seed. */
  lemma CloneSharesSeed(site: Site, node: string, data: string) returns (w: World, spec: GuestSpec, w': World)
    requires site.Valid() && data != ""
    ensures Inventory(w) && OwnSeeds(site, w)
    ensures RunAll(site, Program(site, CreateGuest(spec)), w) == Some(w') && !Inventory(w')
  {
    hide AttachedSeed, GeneratedSeed, Naming.Tags, Text.Join, RunAll, SeedOf;
    var base := GuestSpec(node, 100, "base", 1, 512, "", "", "", false, [], None, None, false, None, data);
    spec := base.(vmid := 101, name := "web", clone := Some(GuestClone(100, true)), userData := "");
    var g := BlankGuest(base).(isTemplate := true, ide0 := SeedIde0(site, base));
    w := World(map[100 := g], {SeedFile(site, base)});
    AttachedIsUploaded(site, base);
    assert SeedAt(w, 100) == Some(SeedFile(site, base));
    NoCdrom();
    assert CreateOps(site, spec) + [] == CreateOps(site, spec);
    RunCreate(site, spec, [], w);
    w' := AfterCreate(site, spec, w).value;
    RunEmpty(site, w');
    assert PlainIso("") by {
      PlainEmptyIso();
    }
    CreateInventory(site, spec, w, w');
  }

  lemma PlainEmptyIso()
    ensures PlainIso("")
  {
  }

  // ---------------------------------------------------------------- runs

  /** The operation is one the planners may ask for, and no create takes over its template's seed. */
  predicate Careful(apply: Apply, w: World) {
    match apply
    case CreateGuest(spec) => spec.vmid >= 0 && PlainIso(spec.iso) && !InheritsSeed(spec, w)
    case ReseedGuest(seed, _, _, vmid) =>
      seed.Some? && seed.value.vmid == vmid && vmid >= 0 && seed.value.userData != ""
    case BuildTemplate(spec) => spec.vmid >= 0 && PlainIso(spec.iso) && !InheritsSeed(spec, w)
    case DownloadISO(req) => !GeneratedSeed(req.filename)
    case _ => true
  }

  lemma RebootKeeps(site: Site, node: string, v: int, w: World, w': World)
    requires Inventory(w) && OwnSeeds(site, w)
    requires RunAll(site, [SetPower(node, v, false), SetPower(node, v, true)], w) == Some(w')
    ensures Inventory(w') && OwnSeeds(site, w')
  {
    hide Inventory, OwnSeeds, RunAll;
    RunReboot(site, node, v, w);
    SameIde0Inventory(site, w, v, Rebooted(w.guests[v]));
  }

  lemma ConvertKeeps(site: Site, node: string, v: int, w: World, w': World)
    requires Inventory(w) && OwnSeeds(site, w) && RunAll(site, [Convert(node, v)], w) == Some(w')
    ensures Inventory(w') && OwnSeeds(site, w')
  {
    hide Inventory, OwnSeeds, RunAll;
    RunConvert(site, node, v, w);
    SameIde0Inventory(site, w, v, w.guests[v].(isTemplate := true));
  }

  lemma BuildKeeps(site: Site, spec: GuestSpec, w: World, w': World)
    requires site.Valid() && Careful(BuildTemplate(spec), w) && Inventory(w) && OwnSeeds(site, w)
    requires RunAll(site, Program(site, BuildTemplate(spec)), w) == Some(w')
    ensures Inventory(w') && OwnSeeds(site, w')
  {
    hide Inventory, OwnSeeds, RunAll, CreateOps, AfterCreate, PlainIso;
    RunCreate(site, spec, [Convert(spec.node, spec.vmid)], w);
    var w1 := AfterCreate(site, spec, w).value;
    CreateInventory(site, spec, w, w1);
    ConvertKeeps(site, spec.node, spec.vmid, w1, w');
  }

  lemma CreateKeeps(site: Site, spec: GuestSpec, w: World, w': World)
    requires site.Valid() && Careful(CreateGuest(spec), w) && Inventory(w) && OwnSeeds(site, w)
    requires RunAll(site, Program(site, CreateGuest(spec)), w) == Some(w')
    ensures Inventory(w') && OwnSeeds(site, w')
  {
    hide Inventory, OwnSeeds, CreateOps, AfterCreate, PlainIso;
    assert CreateOps(site, spec) + [] == CreateOps(site, spec);
    RunCreate(site, spec, [], w);
    CreateInventory(site, spec, w, w');
  }

  lemma ReseedKeeps(site: Site, spec: GuestSpec, reboot: bool, node: string, w: World, w': World)
    requires site.Valid() && spec.vmid >= 0 && spec.userData != "" && Inventory(w) && OwnSeeds(site, w)
    requires RunAll(site, Program(site, ReseedGuest(Some(spec), reboot, node, spec.vmid)), w) == Some(w')
    ensures Inventory(w') && OwnSeeds(site, w')
  {
    hide Inventory, OwnSeeds, AfterReseed;
    var cycle := if reboot then [SetPower(node, spec.vmid, false), SetPower(node, spec.vmid, true)] else [];
    RunReseed(site, spec, cycle, w);
    var w1 := AfterReseed(site, spec, w).value;
    ReseedInventory(site, spec, w, w1);
    if reboot {
      RebootKeeps(site, node, spec.vmid, w1, w');
    }
  }

  lemma DownloadKeeps(site: Site, file: IsoFile, w: World, w': World)
    requires !GeneratedSeed(file.1) && Inventory(w) && OwnSeeds(site, w)
    requires RunAll(site, [Download(file)], w) == Some(w')
    ensures Inventory(w') && OwnSeeds(site, w')
  {
    hide GeneratedSeed, AttachedSeed, SeedOf;
    RunDownload(site, file, w);
    assert forall u :: SeedAt(w', u) == SeedAt(w, u);
    forall f | f in w'.files && GeneratedSeed(f.1)
      ensures exists u :: SeedAt(w', u) == Some(f)
    {
      var u :| SeedAt(w, u) == Some(f);
      assert SeedAt(w', u) == Some(f);
    }
  }

  /** Every operation that runs to its end keeps the inventory exact. */
  lemma OperationKeeps(site: Site, apply: Apply, w: World, w': World)
    requires site.Valid() && Careful(apply, w) && Inventory(w) && OwnSeeds(site, w)
    requires RunAll(site, Program(site, apply), w) == Some(w')
    ensures Inventory(w') && OwnSeeds(site, w')
  {
    hide Inventory, OwnSeeds, CreateOps, PlainIso, InheritsSeed, GeneratedSeed;
    match apply
    case CreateGuest(spec) => CreateKeeps(site, spec, w, w');
    case BuildTemplate(spec) => BuildKeeps(site, spec, w, w');
    case ConvertToTemplate(node, v) => ConvertKeeps(site, node, v, w, w');
    case UpdateGuest(upd) =>
      RunUpdate(site, upd, w);
      SameIde0Inventory(site, w, upd.vmid, Updated(w.guests[upd.vmid], upd));
    case ReseedGuest(seed, reboot, node, _) => ReseedKeeps(site, seed.value, reboot, node, w, w');
    case RebootGuest(node, v) => RebootKeeps(site, node, v, w, w');
    case DeleteGuest(obj) =>
      RunDelete(site, obj, w);
      DeleteInventory(site, obj, w, w');
    case DownloadISO(req) => DownloadKeeps(site, (req.storage, req.filename), w, w');
    case _ => NothingRuns(site, apply, w);
  }

  lemma NothingRuns(site: Site, apply: Apply, w: World)
    requires apply.SpecError? || apply.NoApply?
    ensures var r := RunAll(site, Program(site, apply), w); r.Some? ==> r.value == w
  {
  }

  ghost predicate IsHistory(site: Site, ws: seq<World>, applies: seq<Apply>) {
    && |ws| == |applies| + 1
    && forall i :: 0 <= i < |applies| ==>
         Careful(applies[i], ws[i]) && RunAll(site, Program(site, applies[i]), ws[i]) == Some(ws[i + 1])
  }

  /** After any run of operations, the generated files on storage are exactly those attached, one per guest. */
  lemma {:induction false} InventoryExact(site: Site, ws: seq<World>, applies: seq<Apply>, n: nat)
    requires site.Valid() && IsHistory(site, ws, applies) && Inventory(ws[0]) && OwnSeeds(site, ws[0]) && n <= |applies|
    ensures Inventory(ws[n]) && OwnSeeds(site, ws[n])
  {
    hide Inventory, OwnSeeds, Careful, RunAll, Program;
    if n > 0 {
      InventoryExact(site, ws, applies, n - 1);
      assert RunAll(site, Program(site, applies[n - 1]), ws[n - 1]) == Some(ws[n - 1 + 1]);
      OperationKeeps(site, applies[n - 1], ws[n - 1], ws[n]);
    }
  }
}
