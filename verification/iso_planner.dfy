/** isoReconciler: the plan for ISO images, with its per-storage listing cache. */
module IsoPlanner {
  import opened Prelude
  import opened Proxmox
  import opened Manifest
  import Cluster
  import Naming
  import Programs
  import Text

  // A storage on a node.
  type Place = (string, string)

  // What ListISOs answers for each place during one pass.
  type Listing = Place -> Result<seq<string>>

  function PlaceOf(iso: Iso): Place {
    (iso.spec.node, iso.spec.storage)
  }

  /** The declared ISOs, in manifest order. */
  function Isos(desired: seq<Resource>): seq<Iso> {
    if desired == [] then []
    else
      var r := desired[|desired| - 1];
      Isos(desired[..|desired| - 1]) + if r.IsoImage? then [r.iso] else []
  }

  /** The download of an ISO that its place does not hold. */
  function IsoStep(iso: Iso, names: seq<string>): seq<Action> {
    if iso.Filename() in names then []
    else [Action(ActionCreate, KindIso, iso.meta.name,
                 Apply.DownloadISO(IsoDownload(iso.spec.node, iso.spec.storage, iso.Filename())), false, "")]
  }

  /** The plan that lists the storage anew for every manifest. */
  function IsoPlan(isos: seq<Iso>, list: Listing): Result<seq<Action>> {
    if isos == [] then Ok([])
    else
      var iso := isos[|isos| - 1];
      match (IsoPlan(isos[..|isos| - 1], list), list(PlaceOf(iso)))
      case (Ok(actions), Ok(names)) => Ok(actions + IsoStep(iso, names))
      case _ => Err
  }

  lemma IsoPlanNext(isos: seq<Iso>, iso: Iso, list: Listing)
    ensures IsoPlan(isos + [iso], list)
         == match (IsoPlan(isos, list), list(PlaceOf(iso)))
            case (Ok(actions), Ok(names)) => Ok(actions + IsoStep(iso, names))
            case _ => Err
  {
  }

  lemma IsosNext(desired: seq<Resource>, i: nat)
    requires i < |desired|
    ensures Isos(desired[..i + 1]) == Isos(desired[..i]) + if desired[i].IsoImage? then [desired[i].iso] else []
  {
    assert desired[..i + 1][..i] == desired[..i];
  }

  lemma {:induction false} ErrorStays(desired: seq<Resource>, i: nat, list: Listing)
    requires i <= |desired| && IsoPlan(Isos(desired[..i]), list).Err?
    ensures IsoPlan(Isos(desired), list).Err?
    decreases |desired| - i
  {
    if i < |desired| {
      IsosNext(desired, i);
      assert Isos(desired[..i]) + [] == Isos(desired[..i]);
      if desired[i].IsoImage? {
        IsoPlanNext(Isos(desired[..i]), desired[i].iso, list);
      }
      ErrorStays(desired, i + 1, list);
    } else {
      assert desired[..i] == desired;
    }
  }

  /** The cache holds what the calls made so far have answered. */
  ghost predicate Cached(present: map<Place, seq<string>>, calls: seq<Place>, list: Listing) {
    && (forall p :: p in present ==> list(p) == Ok(present[p]))
    && (forall p :: p in present <==> p in calls)
    && Distinct(calls)
  }

  /** Every call is for the place of one of the ISOs. */
  ghost predicate CallsFor(calls: seq<Place>, isos: seq<Iso>) {
    forall p :: p in calls ==> exists iso :: iso in isos && PlaceOf(iso) == p
  }

  /** The names at a place, from the cache or by a call. */
  method NamesAt(present: map<Place, seq<string>>, calls: seq<Place>, key: Place, list: Listing)
    returns (names: Result<seq<string>>, present': map<Place, seq<string>>, calls': seq<Place>)
    requires Cached(present, calls, list)
    ensures names == list(key)
    ensures names.Ok? ==> Cached(present', calls', list)
    ensures Distinct(calls') && forall p :: p in calls' ==> p in calls || p == key
  {
    present', calls' := present, calls;
    if key in present {
      names := Ok(present[key]);
    } else {
      calls' := calls + [key];
      names := list(key);
      if names.Ok? {
        present' := present[key := names.value];
      }
    }
  }

  /**
   isoReconciler.Plan, with the calls it makes to ListISOs: the cache changes nothing in the plan, and no place is
   listed twice.
   */
  method Plan(desired: seq<Resource>, list: Listing) returns (plan: Result<seq<Action>>, calls: seq<Place>)
    ensures plan == IsoPlan(Isos(desired), list)
    ensures Distinct(calls) && CallsFor(calls, Isos(desired))
  {
    var present: map<Place, seq<string>> := map[];
    var actions: seq<Action> := [];
    calls := [];
    for i := 0 to |desired|
      invariant IsoPlan(Isos(desired[..i]), list) == Ok(actions)
      invariant Cached(present, calls, list) && CallsFor(calls, Isos(desired[..i]))
    {
      hide IsoPlan, Isos, IsoStep, Cached, CallsFor, Distinct;
      IsosNext(desired, i);
      ghost var isos, before := Isos(desired[..i]), calls;
      assert isos + [] == isos;
      if desired[i].IsoImage? {
        var iso := desired[i].iso;
        IsoPlanNext(isos, iso, list);
        var names;
        names, present, calls := NamesAt(present, calls, PlaceOf(iso), list);
        CallsGrow(before, calls, isos, iso);
        if names.Err? {
          ErrorStays(desired, i + 1, list);
          IsosWhole(desired, i + 1, calls);
          return Err, calls;
        }
        actions := actions + IsoStep(iso, names.value);
      }
    }
    assert desired[..|desired|] == desired;
    plan := Ok(actions);
  }

  lemma CallsGrow(calls: seq<Place>, calls': seq<Place>, isos: seq<Iso>, iso: Iso)
    requires CallsFor(calls, isos) && forall p :: p in calls' ==> p in calls || p == PlaceOf(iso)
    ensures CallsFor(calls', isos + [iso])
  {
  }

  lemma {:induction false} IsosWhole(desired: seq<Resource>, i: nat, calls: seq<Place>)
    requires i <= |desired| && CallsFor(calls, Isos(desired[..i]))
    ensures CallsFor(calls, Isos(desired))
    decreases |desired| - i
  {
    hide Isos;
    if i < |desired| {
      IsosNext(desired, i);
      assert Isos(desired[..i]) + [] == Isos(desired[..i]);
      if desired[i].IsoImage? {
        CallsGrow(calls, calls, Isos(desired[..i]), desired[i].iso);
      }
      IsosWhole(desired, i + 1, calls);
    } else {
      assert desired[..i] == desired;
    }
  }

  /** The ISO is listed at its place. */
  predicate IsPresent(iso: Iso, list: Listing) {
    list(PlaceOf(iso)).Ok? && iso.Filename() in list(PlaceOf(iso)).value
  }

  /** The download that an ISO asks for brings exactly its file to its storage. */
  ghost predicate Downloads(site: Cluster.Site, iso: Iso, a: Action) {
    && a.typ.ActionCreate? && !a.informational && KeyOf(a) == Key(KindIso, iso.meta.name)
    && a.apply.DownloadISO? && a.apply.req.node == iso.spec.node
    && forall w :: Cluster.RunAll(site, Cluster.Program(site, a.apply), w)
                   == Some(Cluster.World(w.guests, w.files + {(iso.spec.storage, iso.Filename())}))
  }

  /** The plan consists of the downloads of the ISOs that are not at their place: each of them, and nothing else. */
  lemma {:induction false} IsoPlanDownloads(site: Cluster.Site, isos: seq<Iso>, list: Listing)
    requires IsoPlan(isos, list).Ok?
    ensures forall a :: a in IsoPlan(isos, list).value ==> exists iso :: iso in isos && !IsPresent(iso, list) && Downloads(site, iso, a)
    ensures forall iso :: iso in isos && !IsPresent(iso, list) ==> exists a :: a in IsoPlan(isos, list).value && Downloads(site, iso, a)
  {
    hide Downloads, IsPresent;
    if isos != [] {
      var front, last := isos[..|isos| - 1], isos[|isos| - 1];
      assert isos == front + [last] && last in isos;
      IsoPlanDownloads(site, front, list);
      var names := list(PlaceOf(last)).value;
      StepDownloads(site, last, list);
      assert forall a :: a in IsoStep(last, names) ==> a in IsoPlan(isos, list).value;
    }
  }

  lemma StepDownloads(site: Cluster.Site, iso: Iso, list: Listing)
    requires list(PlaceOf(iso)).Ok?
    ensures var step := IsoStep(iso, list(PlaceOf(iso)).value);
            if IsPresent(iso, list) then step == [] else |step| == 1 && Downloads(site, iso, step[0])
  {
    hide Cluster.RunAll;
    var step := IsoStep(iso, list(PlaceOf(iso)).value);
    if !IsPresent(iso, list) {
      forall w
        ensures Cluster.RunAll(site, Cluster.Program(site, step[0].apply), w)
             == Some(Cluster.World(w.guests, w.files + {(iso.spec.storage, iso.Filename())}))
      {
        Programs.RunDownload(site, (iso.spec.storage, iso.Filename()), w);
      }
    }
  }

  /** An ISO is named after the last part of its URL's path, whatever else the URL holds. */
  lemma FilenameIsLastPart(iso: Iso, dir: string, name: string)
    requires name != "" && '/' !in name
    ensures iso.spec.urlPath == Some(dir + "/" + name) ==> iso.Filename() == name
    ensures iso.spec.urlPath in {None, Some("")} && iso.spec.source == dir + "/" + name ==> iso.Filename() == name
  {
    hide Text.Base;
    Text.BaseOfFile(dir, name);
  }

  // ---------------------------------------------------------------- after the downloads

  /** The volume ids stored at each place. */
  type Contents = map<Place, seq<string>>

  /** ListISOs, as a function: the names of the volumes that are ISOs. */
  function Names(volids: seq<string>): seq<string> {
    if volids == [] then []
    else
      var name := Naming.IsoFilename(volids[|volids| - 1]);
      Names(volids[..|volids| - 1]) + if name.Some? then [name.value] else []
  }

  /** ListISOs */
  method ListISOs(volids: seq<string>) returns (names: seq<string>)
    ensures names == Names(volids)
  {
    names := [];
    for i := 0 to |volids|
      invariant names == Names(volids[..i])
    {
      assert volids[..i + 1][..i] == volids[..i];
      var name := Naming.IsoFilename(volids[i]);
      if name.Some? {
        names := names + [name.value];
      }
    }
    assert volids[..|volids|] == volids;
  }

  function ListingOf(contents: Contents): Listing {
    (p: Place) => if p in contents then Ok(Names(contents[p])) else Err
  }

  /** Every planned download has landed where it was planned. */
  ghost predicate Landed(plan: seq<Action>, before: Contents, after: Contents) {
    && before.Keys <= after.Keys
    && (forall p, volid :: p in before && volid in before[p] ==> volid in after[p])
    && (forall a :: a in plan && a.apply.DownloadISO? ==>
          var req := a.apply.req;
          (req.node, req.storage) in after && req.storage + ":iso/" + req.filename in after[(req.node, req.storage)])
  }

  lemma {:induction false} NamesMeaning(volids: seq<string>, name: string)
    ensures name in Names(volids) <==> exists volid :: volid in volids && Naming.IsoFilename(volid) == Some(name)
  {
    hide Naming.IsoFilename;
    if volids != [] {
      var last := volids[|volids| - 1];
      assert volids == volids[..|volids| - 1] + [last];
      NamesMeaning(volids[..|volids| - 1], name);
      assert last in volids;
    }
  }

  lemma {:induction false} PlanCovers(isos: seq<Iso>, list: Listing, iso: Iso)
    requires IsoPlan(isos, list).Ok? && iso in isos
    ensures list(PlaceOf(iso)).Ok?
    ensures forall a :: a in IsoStep(iso, list(PlaceOf(iso)).value) ==> a in IsoPlan(isos, list).value
  {
    hide IsoStep;
    var last := isos[|isos| - 1];
    assert isos == isos[..|isos| - 1] + [last];
    if iso != last {
      PlanCovers(isos[..|isos| - 1], list, iso);
    }
  }

  lemma NextEmpty(isos: seq<Iso>, iso: Iso, list: Listing)
    ensures IsoPlan(isos + [iso], list) == Ok([]) <==> IsoPlan(isos, list) == Ok([]) && IsPresent(iso, list)
  {
    hide IsoPlan;
    IsoPlanNext(isos, iso, list);
    match (IsoPlan(isos, list), list(PlaceOf(iso)))
    case (Ok(actions), Ok(names)) =>
      assert |actions + IsoStep(iso, names)| == |actions| + |IsoStep(iso, names)|;
    case _ =>
  }

  /** The ISO plan is empty exactly when every ISO is listed at its place. */
  lemma {:induction false} EmptyIsoPlanExactly(isos: seq<Iso>, list: Listing)
    ensures IsoPlan(isos, list) == Ok([]) <==> forall iso :: iso in isos ==> IsPresent(iso, list)
  {
    hide IsPresent;
    if isos != [] {
      var front, last := isos[..|isos| - 1], isos[|isos| - 1];
      assert isos == front + [last];
      EmptyIsoPlanExactly(front, list);
      NextEmpty(front, last, list);
    }
  }

  lemma {:induction false} IsoPlanFailsExactly(isos: seq<Iso>, list: Listing)
    ensures IsoPlan(isos, list).Err? <==> exists iso :: iso in isos && list(PlaceOf(iso)).Err?
  {
    if isos != [] {
      var front, last := isos[..|isos| - 1], isos[|isos| - 1];
      assert isos == front + [last];
      IsoPlanFailsExactly(front, list);
      assert last in isos;
    }
  }

  lemma {:induction false} IsosMeaning(desired: seq<Resource>)
    ensures forall iso :: iso in Isos(desired) <==> IsoImage(iso) in desired
  {
    if desired != [] {
      var front, last := desired[..|desired| - 1], desired[|desired| - 1];
      assert desired == front + [last];
      IsosMeaning(front);
    }
  }

  /** A downloaded image is listed under the name that the next plan looks for. */
  lemma NowPresent(iso: Iso, volids: seq<string>)
    requires ':' !in iso.spec.storage && iso.spec.storage + ":iso/" + iso.Filename() in volids
    ensures iso.Filename() in Names(volids)
  {
    hide Naming.IsoFilename, Text.Base;
    var path := if iso.spec.urlPath.Some? && iso.spec.urlPath.value != "" then iso.spec.urlPath.value else iso.spec.source;
    Naming.IsoFilenameParsesBack(iso.spec.storage, path);
    NamesMeaning(volids, iso.Filename());
  }

  lemma StillPresent(name: string, volids: seq<string>, volids': seq<string>)
    requires name in Names(volids) && forall volid :: volid in volids ==> volid in volids'
    ensures name in Names(volids')
  {
    NamesMeaning(volids, name);
    NamesMeaning(volids', name);
  }

  /** Once all planned downloads have landed, the next plan is empty. */
  lemma DownloadsSettle(isos: seq<Iso>, before: Contents, after: Contents)
    requires forall iso :: iso in isos ==> ':' !in iso.spec.storage
    requires IsoPlan(isos, ListingOf(before)).Ok? && Landed(IsoPlan(isos, ListingOf(before)).value, before, after)
    ensures IsoPlan(isos, ListingOf(after)) == Ok([])
  {
    hide IsoPlan, Names;
    forall iso | iso in isos
      ensures IsPresent(iso, ListingOf(after))
    {
      PlanCovers(isos, ListingOf(before), iso);
      var p := PlaceOf(iso);
      if iso.Filename() in Names(before[p]) {
        StillPresent(iso.Filename(), before[p], after[p]);
      } else {
        assert IsoStep(iso, Names(before[p]))[0] in IsoPlan(isos, ListingOf(before)).value;
        NowPresent(iso, after[p]);
      }
    }
    EmptyIsoPlanExactly(isos, ListingOf(after));
  }
}
