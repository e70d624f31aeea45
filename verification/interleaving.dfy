/** Programs of different guests do not disturb each other, however their API calls interleave. */
module Interleaving {
  import opened Prelude
  import opened Proxmox
  import opened Cluster
  import opened Programs

  /** Every call addresses the guest `v`, or no guest. */
  predicate About(ops: seq<Op>, v: int) {
    forall op :: op in ops ==> op.Target().None? || op.Target() == Some(v)
  }

  /** Every clone in the program copies a guest of `sources`. */
  predicate CopiesOnly(ops: seq<Op>, sources: set<int>) {
    forall op :: op in ops && op.Source().Some? ==> op.Source().value in sources
  }

  predicate Agree(w1: World, w2: World, vs: set<int>) {
    forall v :: v in vs ==> Lookup(w1.guests, v) == Lookup(w2.guests, v)
  }

  /** A call that writes, or removes, the guest it addresses, but never brings one into being. */
  predicate Follows(op: Op, v: Option<int>) {
    (op.Target().None? || op.Target() == v) && op.Source().None? && !op.Creates()
  }

  lemma ReseedFollows(site: Site, spec: GuestSpec, ide0: string)
    ensures forall o :: o in ReseedOps(site, spec, ide0) ==> Follows(o, Some(spec.vmid))
  {
  }

  lemma DeleteFollows(obj: Object, g: Guest)
    ensures forall o :: o in DeleteOps(obj, g) ==> Follows(o, Some(obj.vmid))
  {
  }

  /** The calls that a call brings along follow it. */
  lemma NextFollows(site: Site, op: Op, g: Option<Guest>, src: Option<Guest>)
    ensures var e := EffectOf(site, op, g, src); e.Sets? ==> forall o :: o in e.next ==> Follows(o, op.Target())
  {
    if op.ReadSeed? {
      ReseedFollows(site, op.spec, if VmOn(g, op.spec.node) then g.value.ide0 else "");
    } else if op.ReadGuest? && g.Some? {
      DeleteFollows(op.obj, g.value);
    }
  }

  lemma StepFollows(site: Site, op: Op, rest: seq<Op>, w: World, outcome: Outcome)
    ensures var r := Step(site, op, rest, w, outcome);
            r.Next? ==> forall o :: o in r.rest ==> o in rest || Follows(o, op.Target())
  {
    if op.ReadSeed? {
      ReseedFollows(site, op.spec, "");
    }
    NextFollows(site, op, Find(w, op.Target()), Find(w, op.Source()));
  }

  lemma StepFrame(site: Site, op: Op, rest: seq<Op>, w: World, outcome: Outcome)
    ensures var r := Step(site, op, rest, w, outcome);
            && (forall u :: op.Target() != Some(u) ==> Lookup(r.world.guests, u) == Lookup(w.guests, u))
            && (op.Target().None? ==> r.world.guests == w.guests)
  {
  }

  /** A call changes at most its target, and goes on with calls about the same guest. */
  lemma StepLocal(site: Site, op: Op, rest: seq<Op>, v: int, w: World, outcome: Outcome)
    requires About([op] + rest, v)
    ensures var r := Step(site, op, rest, w, outcome);
            && (forall u :: u != v ==> Lookup(r.world.guests, u) == Lookup(w.guests, u))
            && (r.Next? ==> About(r.rest, v))
            && (r.Next? ==> forall o :: o in r.rest ==> o in rest || Follows(o, Some(v)))
  {
    assert op in [op] + rest;
    assert forall o :: o in rest ==> o in [op] + rest;
    StepFollows(site, op, rest, w, outcome);
    StepFrame(site, op, rest, w, outcome);
  }

  /** A step depends only on the target and the clone source. */
  lemma StepAgrees(site: Site, op: Op, rest: seq<Op>, v: int, sources: set<int>, w1: World, w2: World)
    requires About([op] + rest, v) && CopiesOnly([op] + rest, sources) && Agree(w1, w2, sources + {v})
    ensures var r1, r2 := Step(site, op, rest, w1, Done), Step(site, op, rest, w2, Done);
            && (r1.Next? <==> r2.Next?)
            && (r1.Next? ==> r1.rest == r2.rest && Agree(r1.world, r2.world, sources + {v}))
  {
  }

  /** A whole program, too, depends only on its guest and its clone sources. */
  lemma {:induction false} RunAgrees(site: Site, ops: seq<Op>, v: int, sources: set<int>, w1: World, w2: World)
    requires About(ops, v) && CopiesOnly(ops, sources) && Agree(w1, w2, sources + {v})
    ensures var r1, r2 := RunAll(site, ops, w1), RunAll(site, ops, w2);
            && (r1.Some? <==> r2.Some?)
            && (r1.Some? ==> Lookup(r1.value.guests, v) == Lookup(r2.value.guests, v))
    decreases Weight(ops)
  {
    if ops != [] {
      var op, rest := ops[0], ops[1..];
      assert ops == [op] + rest;
      StepAgrees(site, op, rest, v, sources, w1, w2);
      Unroll(site, op, rest, w1);
      Unroll(site, op, rest, w2);
      var r1, r2 := Step(site, op, rest, w1, Done), Step(site, op, rest, w2, Done);
      if r1.Next? {
        StepLocal(site, op, rest, v, w1, Done);
        StepShrinks(site, op, rest, w1, Done);
        RunAgrees(site, r1.rest, v, sources, r1.world, r2.world);
      }
    }
  }

  // ---------------------------------------------------------------- several programs at once

  /** The remaining calls of actions running side by side. */
  type Jobs = seq<seq<Op>>

  datatype Progress = Progress(world: World, jobs: Jobs)

  /** Let the jobs make successful calls in the order of `schedule`; None when a call fails or is out of turn. */
  function Interleave(site: Site, w: World, jobs: Jobs, schedule: seq<nat>): Option<Progress>
    decreases |schedule|
  {
    if schedule == [] then Some(Progress(w, jobs))
    else
      var i := schedule[0];
      if i >= |jobs| || jobs[i] == [] then None
      else
        match Step(site, jobs[i][0], jobs[i][1..], w, Done)
        case Failed(_) => None
        case Next(w', rest) => Interleave(site, w', jobs[i := rest], schedule[1..])
  }

  ghost predicate Separate(jobs: Jobs, targets: seq<int>, sources: set<int>) {
    && |jobs| == |targets|
    && (forall i, j :: 0 <= i < j < |targets| ==> targets[i] != targets[j])
    && (forall i :: 0 <= i < |jobs| ==> About(jobs[i], targets[i]) && CopiesOnly(jobs[i], sources))
    && (forall i :: 0 <= i < |targets| ==> targets[i] !in sources)
  }

  /** What job `i` would leave at its guest when run alone from `w`. */
  ghost predicate LeavesAlone(site: Site, job: seq<Op>, v: int, w: World, w': World) {
    var r := RunAll(site, job, w);
    r.Some? && Lookup(w'.guests, v) == Lookup(r.value.guests, v)
  }

  /** However their calls interleave, finished jobs leave what each would have left alone, and nothing else changes. */
  lemma {:induction false} InterleavedAsAlone(site: Site, w: World, jobs: Jobs, targets: seq<int>, sources: set<int>,
                                              schedule: seq<nat>)
    requires Separate(jobs, targets, sources)
    requires Interleave(site, w, jobs, schedule).Some?
    requires forall j :: j in Interleave(site, w, jobs, schedule).value.jobs ==> j == []
    ensures var w' := Interleave(site, w, jobs, schedule).value.world;
            && (forall i :: 0 <= i < |jobs| ==> LeavesAlone(site, jobs[i], targets[i], w, w'))
            && (forall u :: u !in targets ==> Lookup(w'.guests, u) == Lookup(w.guests, u))
    decreases |schedule|
  {
    if schedule == [] {
      forall i | 0 <= i < |jobs|
        ensures LeavesAlone(site, jobs[i], targets[i], w, w)
      {
        assert jobs[i] in jobs;
      }
    } else {
      var k := schedule[0];
      var op, rest := jobs[k][0], jobs[k][1..];
      assert jobs[k] == [op] + rest;
      var r := Step(site, op, rest, w, Done);
      var jobs' := jobs[k := r.rest];
      StepLocal(site, op, rest, targets[k], w, Done);
      InterleavedAsAlone(site, r.world, jobs', targets, sources, schedule[1..]);
      var w' := Interleave(site, w, jobs, schedule).value.world;
      forall i | 0 <= i < |jobs|
        ensures LeavesAlone(site, jobs[i], targets[i], w, w')
      {
        assert LeavesAlone(site, jobs'[i], targets[i], r.world, w');
        if i == k {
          Unroll(site, op, rest, w);
        } else {
          RunAgrees(site, jobs[i], targets[i], sources, w, r.world);
        }
      }
    }
  }
}
