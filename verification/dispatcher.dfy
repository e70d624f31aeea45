/**
 The dispatcher: actions run in the background, bounded by a semaphore and de-duplicated by key. Each
 goroutine's life is a sequence of atomic steps: its API calls, recording its outcome, giving its
 semaphore slot back, and only then removing its key.
 */
module Dispatch {
  import opened Prelude
  import opened Proxmox
  import opened Cluster
  import Manifest

  const DEFAULT_CONCURRENCY := 4

  // Applying: Apply is running. Failing: it returned an error. Recorded: the event is out.
  // Released: the slot is free again, the key still held.
  datatype Phase = Applying | Failing | Recorded | Released

  datatype Job = Job(action: Action, rest: seq<Op>, phase: Phase) {
    function GetKey(): Key {
      KeyOf(action)
    }

    predicate Running() {
      phase.Applying? || phase.Failing?
    }
  }

  // What the history shows of an accepted action: its start, and the applied-or-failed event.
  datatype Entry =
    | Started(id: nat, key: Key, commit: string)
    | Ended(id: nat, key: Key, commit: string, applied: bool)

  datatype Pool = Pool(limit: nat, tokens: nat, inflight: set<Key>, jobs: map<nat, Job>, next: nat, trace: seq<Entry>)

  datatype Step =
    | Submit(action: Action)
    | Call(id: nat, outcome: Outcome)
    | Record(id: nat)
    | Release(id: nat)
    | Remove(id: nat)

  datatype State = State(pool: Pool, world: World)

  function Submitted(site: Site, p: Pool, a: Action): Pool {
    if KeyOf(a) in p.inflight || p.tokens >= p.limit then p
    else p.(tokens := p.tokens + 1, inflight := p.inflight + {KeyOf(a)},
            jobs := p.jobs[p.next := Job(a, Program(site, a.apply), Applying)], next := p.next + 1,
            trace := p.trace + [Started(p.next, KeyOf(a), a.commit)])
  }

  /** The job made one API call. */
  function Called(p: Pool, id: nat, r: StepResult): Pool
    requires id in p.jobs
  {
    var j := p.jobs[id];
    p.(jobs := p.jobs[id := if r.Failed? then j.(phase := Failing) else j.(rest := r.rest)])
  }

  function AfterRecord(p: Pool, id: nat): Pool
    requires id in p.jobs
  {
    var j := p.jobs[id];
    p.(jobs := p.jobs[id := j.(phase := Recorded)],
       trace := p.trace + [Ended(id, j.GetKey(), j.action.commit, j.phase.Applying?)])
  }

  function AfterRelease(p: Pool, id: nat): Pool
    requires id in p.jobs && p.tokens > 0
  {
    p.(tokens := p.tokens - 1, jobs := p.jobs[id := p.jobs[id].(phase := Released)])
  }

  function AfterRemove(p: Pool, id: nat): Pool
    requires id in p.jobs
  {
    p.(inflight := p.inflight - {p.jobs[id].GetKey()}, jobs := p.jobs - {id})
  }

  /** The step can be taken: a submission always, the others by a job that has come that far. */
  predicate Enabled(s: State, step: Step) {
    match step
    case Submit(_) => true
    case Call(id, _) => id in s.pool.jobs && s.pool.jobs[id].phase.Applying? && s.pool.jobs[id].rest != []
    case Record(id) =>
      id in s.pool.jobs
      && (s.pool.jobs[id].phase.Failing? || (s.pool.jobs[id].phase.Applying? && s.pool.jobs[id].rest == []))
    case Release(id) => id in s.pool.jobs && s.pool.jobs[id].phase.Recorded? && s.pool.tokens > 0
    case Remove(id) => id in s.pool.jobs && s.pool.jobs[id].phase.Released?
  }

  function After(site: Site, s: State, step: Step): State
    requires Enabled(s, step)
  {
    match step
    case Submit(a) => s.(pool := Submitted(site, s.pool, a))
    case Call(id, outcome) =>
      var rest := s.pool.jobs[id].rest;
      var r := Cluster.Step(site, rest[0], rest[1..], s.world, outcome);
      State(Called(s.pool, id, r), r.world)
    case Record(id) => s.(pool := AfterRecord(s.pool, id))
    case Release(id) => s.(pool := AfterRelease(s.pool, id))
    case Remove(id) => s.(pool := AfterRemove(s.pool, id))
  }

  function Fresh(limit: int): Pool {
    Pool(if limit <= 0 then DEFAULT_CONCURRENCY else limit, 0, {}, map[], 0, [])
  }

  // ---------------------------------------------------------------- the semaphore and the keys

  /** The accepted actions that still hold their semaphore slot. */
  function Holding(p: Pool): set<nat> {
    set id | id in p.jobs && !p.jobs[id].phase.Released?
  }

  /**
   The slots taken are those of the actions not yet released, and never more than the limit; the keys
   held are exactly the keys of the actions not yet removed, which are pairwise distinct.
   */
  ghost predicate SlotsAndKeys(p: Pool) {
    && p.tokens == |Holding(p)| <= p.limit
    && (forall k :: k in p.inflight <==> exists id :: id in p.jobs && p.jobs[id].GetKey() == k)
    && (forall i, j :: i in p.jobs && j in p.jobs && i != j ==> p.jobs[i].GetKey() != p.jobs[j].GetKey())
    && (forall id :: id in p.jobs ==> id < p.next)
  }

  lemma FreshSlots(limit: int)
    ensures SlotsAndKeys(Fresh(limit))
  {
  }

  lemma SlotsPreserved(site: Site, s: State, step: Step)
    requires SlotsAndKeys(s.pool) && Enabled(s, step)
    ensures SlotsAndKeys(After(site, s, step).pool)
  {
    hide Program, Cluster.Step, SlotsAndKeys;
    match step
    case Submit(a) => SubmitSlots(site, s.pool, a);
    case Call(id, _) => SameSlots(s.pool, After(site, s, step).pool, {});
    case Record(id) => SameSlots(s.pool, After(site, s, step).pool, {});
    case Release(id) => SameSlots(s.pool, After(site, s, step).pool, {id});
    case Remove(id) => RemoveSlots(s.pool, id);
  }

  lemma SubmitSlots(site: Site, p: Pool, a: Action)
    requires SlotsAndKeys(p)
    ensures SlotsAndKeys(Submitted(site, p, a))
  {
    hide Program, Holding;
    var q := Submitted(site, p, a);
    if q != p {
      SubmitHolding(site, p, a);
      SubmitKeys(site, p, a);
    }
  }

  /** An action is accepted exactly when nothing runs under its key and a slot is free, and then starts with its whole program. */
  lemma AcceptedExactly(site: Site, p: Pool, a: Action)
    requires SlotsAndKeys(p)
    ensures var q := Submitted(site, p, a);
            if (exists id :: id in p.jobs && p.jobs[id].GetKey() == KeyOf(a)) || |Holding(p)| >= p.limit then q == p
            else
              && q.jobs == p.jobs[p.next := Job(a, Program(site, a.apply), Applying)]
              && Holding(q) == Holding(p) + {p.next}
              && q.trace == p.trace + [Started(p.next, KeyOf(a), a.commit)]
  {
    hide Program;
  }

  lemma SubmitHolding(site: Site, p: Pool, a: Action)
    requires SlotsAndKeys(p) && Submitted(site, p, a) != p
    ensures var q := Submitted(site, p, a); q.tokens == |Holding(q)| <= q.limit
  {
    hide Program;
    assert Holding(Submitted(site, p, a)) == Holding(p) + {p.next};
  }

  lemma RemoveSlots(p: Pool, id: nat)
    requires SlotsAndKeys(p) && id in p.jobs && p.jobs[id].phase.Released?
    ensures SlotsAndKeys(AfterRemove(p, id))
  {
    assert Holding(AfterRemove(p, id)) == Holding(p);
    RemoveKeys(p, id);
  }

  /** A step that only moves jobs on, and releases the slots of `freed`. */
  lemma SameSlots(p: Pool, q: Pool, freed: set<nat>)
    requires SlotsAndKeys(p) && q.limit == p.limit && q.tokens == p.tokens - |freed|
    requires q.inflight == p.inflight && q.jobs.Keys == p.jobs.Keys && q.next == p.next
    requires forall id :: id in p.jobs ==> q.jobs[id].action == p.jobs[id].action
    requires freed <= Holding(p) && forall id :: id in p.jobs ==>
               (q.jobs[id].phase.Released? <==> p.jobs[id].phase.Released? || id in freed)
    ensures SlotsAndKeys(q)
  {
    assert Holding(p) == Holding(q) + freed && Holding(q) !! freed;
    SameKeys(p, q);
  }

  lemma SameKeys(p: Pool, q: Pool)
    requires SlotsAndKeys(p) && q.inflight == p.inflight && q.jobs.Keys == p.jobs.Keys && q.next == p.next
    requires forall id :: id in p.jobs ==> q.jobs[id].GetKey() == p.jobs[id].GetKey()
    ensures forall k :: k in q.inflight <==> exists id :: id in q.jobs && q.jobs[id].GetKey() == k
    ensures forall i, j :: i in q.jobs && j in q.jobs && i != j ==> q.jobs[i].GetKey() != q.jobs[j].GetKey()
  {
  }

  lemma SubmitKeys(site: Site, p: Pool, a: Action)
    requires SlotsAndKeys(p) && Submitted(site, p, a) != p
    ensures var q := Submitted(site, p, a);
            forall k :: k in q.inflight <==> exists id :: id in q.jobs && q.jobs[id].GetKey() == k
  {
    var q := Submitted(site, p, a);
    forall k
      ensures k in q.inflight <==> exists id :: id in q.jobs && q.jobs[id].GetKey() == k
    {
      if k == KeyOf(a) {
        assert q.jobs[p.next].GetKey() == k;
      } else if k in p.inflight {
        var id :| id in p.jobs && p.jobs[id].GetKey() == k;
        assert q.jobs[id].GetKey() == k;
      }
    }
  }

  lemma RemoveKeys(p: Pool, id: nat)
    requires SlotsAndKeys(p) && id in p.jobs
    ensures var q := AfterRemove(p, id);
            forall k :: k in q.inflight <==> exists i :: i in q.jobs && q.jobs[i].GetKey() == k
  {
    var q := AfterRemove(p, id);
    forall k
      ensures k in q.inflight <==> exists i :: i in q.jobs && q.jobs[i].GetKey() == k
    {
      if k in q.inflight {
        var i :| i in p.jobs && p.jobs[i].GetKey() == k;
        assert i in q.jobs && q.jobs[i].GetKey() == k;
      }
    }
  }

  /** Wait returns when no goroutine is left: then the semaphore is empty and no key is held. */
  lemma WaitLeavesNothing(p: Pool)
    requires SlotsAndKeys(p) && p.jobs == map[]
    ensures p.tokens == 0 && p.inflight == {}
  {
  }

  /** The steps in order; None when one of them cannot be taken. */
  function RunSteps(site: Site, s: State, steps: seq<Step>): Option<State>
    decreases |steps|
  {
    if steps == [] then Some(s)
    else if !Enabled(s, steps[0]) then None
    else RunSteps(site, After(site, s, steps[0]), steps[1..])
  }

  /** In every interleaving, from the start. */
  lemma {:induction false} SlotsAlways(site: Site, s: State, steps: seq<Step>)
    requires SlotsAndKeys(s.pool) && RunSteps(site, s, steps).Some?
    ensures SlotsAndKeys(RunSteps(site, s, steps).value.pool)
    decreases |steps|
  {
    hide SlotsAndKeys, After, Enabled;
    if steps != [] {
      SlotsPreserved(site, s, steps[0]);
      SlotsAlways(site, After(site, s, steps[0]), steps[1..]);
    }
  }

  /** Between the release of a slot and the removal of its key, more keys than the limit may be held. */
  lemma KeysMayExceedLimit(site: Site, w: World, a: Action, b: Action)
    requires a.apply.DownloadISO? && KeyOf(a) != KeyOf(b)
    ensures var end := RunSteps(site, State(Fresh(1), w), [Submit(a), Call(0, Done), Record(0), Release(0), Submit(b)]);
            end.Some? && end.value.pool.inflight == {KeyOf(a), KeyOf(b)} && |end.value.pool.inflight| > end.value.pool.limit
  {
    var s1 := After(site, State(Fresh(1), w), Submit(a));
    var s2 := After(site, s1, Call(0, Done));
    var s3 := After(site, s2, Record(0));
    var s4 := After(site, s3, Release(0));
    var s5 := After(site, s4, Submit(b));
    var steps := [Submit(a), Call(0, Done), Record(0), Release(0), Submit(b)];
    assert steps[1..] == [Call(0, Done), Record(0), Release(0), Submit(b)];
    assert steps[2..] == [Record(0), Release(0), Submit(b)] && steps[3..] == [Release(0), Submit(b)] && steps[4..] == [Submit(b)];
    assert steps[1..][1..] == steps[2..] && steps[2..][1..] == steps[3..] && steps[3..][1..] == steps[4..] && steps[4..][1..] == [];
    assert RunSteps(site, s4, steps[4..]) == Some(s5);
    assert RunSteps(site, s3, steps[3..]) == Some(s5);
    assert RunSteps(site, s2, steps[2..]) == Some(s5);
    assert RunSteps(site, s1, steps[1..]) == Some(s5);
  }

  // ---------------------------------------------------------------- the drain

  /** What is left to do for the accepted actions: their calls, and three more steps each. */
  function JobWork(j: Job): nat {
    match j.phase
    case Applying => Weight(j.rest) + 3
    case Failing => 3
    case Recorded => 2
    case Released => 1
  }

  function Work(jobs: map<nat, Job>, n: nat): nat {
    if n == 0 then 0 else Work(jobs, n - 1) + if n - 1 in jobs then JobWork(jobs[n - 1]) else 0
  }

  lemma {:induction false} WorkLess(jobs: map<nat, Job>, jobs': map<nat, Job>, id: nat, n: nat)
    requires id in jobs && (if id in jobs' then JobWork(jobs'[id]) < JobWork(jobs[id]) else JobWork(jobs[id]) > 0)
    requires forall i :: i != id ==> (i in jobs <==> i in jobs') && (i in jobs ==> jobs'[i] == jobs[i])
    ensures Work(jobs', n) <= Work(jobs, n) && (id < n ==> Work(jobs', n) < Work(jobs, n))
  {
    if n > 0 {
      WorkLess(jobs, jobs', id, n - 1);
    }
  }

  /** Without new submissions every step brings the pool closer to being drained. */
  lemma StepDrains(site: Site, s: State, step: Step)
    requires SlotsAndKeys(s.pool) && Enabled(s, step) && !step.Submit?
    ensures var q := After(site, s, step).pool;
            q.next == s.pool.next && Work(q.jobs, q.next) < Work(s.pool.jobs, s.pool.next)
  {
    hide Cluster.Step, Work;
    var p, q := s.pool, After(site, s, step).pool;
    if step.Call? {
      var rest := p.jobs[step.id].rest;
      StepShrinks(site, rest[0], rest[1..], s.world, step.outcome);
      assert rest == [rest[0]] + rest[1..];
    }
    WorkLess(p.jobs, q.jobs, step.id, p.next);
  }

  /** As long as an action is unfinished, one of its steps can be taken: Wait does not wait for ever. */
  lemma NeverStuck(s: State)
    requires SlotsAndKeys(s.pool) && s.pool.jobs != map[]
    ensures exists step: Step :: !step.Submit? && Enabled(s, step)
  {
    var id :| id in s.pool.jobs;
    TurnEnabled(s, id, Done);
  }

  // ---------------------------------------------------------------- the history

  /** The part of the trace that is about the key `k`. */
  function OfKey(trace: seq<Entry>, k: Key): seq<Entry> {
    if trace == [] then []
    else
      var e := trace[|trace| - 1];
      OfKey(trace[..|trace| - 1], k) + if e.key == k then [e] else []
  }

  /** How many terminal events the action `id` has. */
  function Terminals(trace: seq<Entry>, id: nat): nat {
    if trace == [] then 0
    else
      var e := trace[|trace| - 1];
      Terminals(trace[..|trace| - 1], id) + if e.Ended? && e.id == id then 1 else 0
  }

  /** Starts minus terminal events. */
  function Open(trace: seq<Entry>): int {
    if trace == [] then 0 else Open(trace[..|trace| - 1]) + if trace[|trace| - 1].Started? then 1 else -1
  }

  function RunningJobs(p: Pool): set<nat> {
    set id | id in p.jobs && p.jobs[id].Running()
  }

  /** Starts and terminal events take turns, each terminal event closing the start right before it. */
  predicate Alternates(s: seq<Entry>) {
    forall i :: 0 <= i < |s| ==> InTurn(s, i)
  }

  predicate InTurn(s: seq<Entry>, i: nat)
    requires i < |s|
  {
    if i % 2 == 0 then s[i].Started?
    else s[i].Ended? && (s[i].id, s[i].commit) == (s[i - 1].id, s[i - 1].commit)
  }

  /** The trace of `k` ends with the start of the action that is running under that key, if there is one. */
  ghost predicate KeyHistory(p: Pool, k: Key) {
    var s := OfKey(p.trace, k);
    && Alternates(s)
    && (forall id :: id in p.jobs && p.jobs[id].GetKey() == k && p.jobs[id].Running() ==>
          |s| % 2 == 1 && s[|s| - 1] == Started(id, k, p.jobs[id].action.commit))
    && (|s| % 2 == 1 ==> exists id :: id in p.jobs && p.jobs[id].GetKey() == k && p.jobs[id].Running())
  }

  /** An accepted action has one terminal event once it no longer runs, and none before. */
  ghost predicate OneTerminal(p: Pool, id: nat) {
    Terminals(p.trace, id) == if id >= p.next || (id in p.jobs && p.jobs[id].Running()) then 0 else 1
  }

  ghost predicate History(p: Pool) {
    && (forall k :: KeyHistory(p, k))
    && (forall id :: OneTerminal(p, id))
    && Open(p.trace) == |RunningJobs(p)|
  }

  lemma AppendEntry(trace: seq<Entry>, e: Entry, k: Key, id: nat)
    ensures OfKey(trace + [e], k) == OfKey(trace, k) + if e.key == k then [e] else []
    ensures Terminals(trace + [e], id) == Terminals(trace, id) + if e.Ended? && e.id == id then 1 else 0
    ensures Open(trace + [e]) == Open(trace) + if e.Started? then 1 else -1
  {
  }

  lemma AlternatesOn(s: seq<Entry>, e: Entry)
    requires Alternates(s)
    requires if |s| % 2 == 0 then e.Started? else e.Ended? && (e.id, e.commit) == (s[|s| - 1].id, s[|s| - 1].commit)
    ensures Alternates(s + [e])
  {
    forall i | 0 <= i < |s + [e]|
      ensures InTurn(s + [e], i)
    {
      if i < |s| {
        assert InTurn(s, i);
      }
    }
  }

  /** The start of the action `a` under a key that nobody holds. */
  lemma SubmitKeyHistory(site: Site, p: Pool, a: Action)
    requires SlotsAndKeys(p) && KeyHistory(p, KeyOf(a)) && Submitted(site, p, a) != p
    ensures KeyHistory(Submitted(site, p, a), KeyOf(a))
  {
    hide Program, OfKey, Alternates;
    var q, k, e := Submitted(site, p, a), KeyOf(a), Started(p.next, KeyOf(a), a.commit);
    AppendEntry(p.trace, e, k, 0);
    AlternatesOn(OfKey(p.trace, k), e);
    assert q.jobs[p.next].GetKey() == k;
  }

  /** The terminal event of a running action. */
  lemma RecordKeyHistory(p: Pool, id: nat)
    requires SlotsAndKeys(p) && id in p.jobs && p.jobs[id].Running() && KeyHistory(p, p.jobs[id].GetKey())
    ensures KeyHistory(AfterRecord(p, id), p.jobs[id].GetKey())
  {
    hide OfKey, Alternates;
    var q, j := AfterRecord(p, id), p.jobs[id];
    var k, e := j.GetKey(), Ended(id, j.GetKey(), j.action.commit, j.phase.Applying?);
    AppendEntry(p.trace, e, k, 0);
    AlternatesOn(OfKey(p.trace, k), e);
    assert forall i :: i in q.jobs && q.jobs[i].GetKey() == k ==> i == id;
  }

  lemma SubmitHistory(site: Site, p: Pool, a: Action)
    requires SlotsAndKeys(p) && History(p)
    ensures History(Submitted(site, p, a))
  {
    hide Program, OfKey, Terminals, Open, KeyHistory, OneTerminal;
    var q := Submitted(site, p, a);
    if q != p {
      forall k
        ensures KeyHistory(q, k)
      {
        assert KeyHistory(p, k);
        if k == KeyOf(a) {
          SubmitKeyHistory(site, p, a);
        } else {
          AppendEntry(p.trace, Started(p.next, KeyOf(a), a.commit), k, 0);
          OtherKeyHistory(p, q, k);
        }
      }
      SubmitTerminals(site, p, a);
    }
  }

  lemma SubmitTerminals(site: Site, p: Pool, a: Action)
    requires SlotsAndKeys(p) && History(p) && Submitted(site, p, a) != p
    ensures forall id :: OneTerminal(Submitted(site, p, a), id)
    ensures var q := Submitted(site, p, a); Open(q.trace) == |RunningJobs(q)|
  {
    hide Program, OfKey, Terminals, Open, KeyHistory;
    var q, e := Submitted(site, p, a), Started(p.next, KeyOf(a), a.commit);
    forall id
      ensures OneTerminal(q, id)
    {
      assert OneTerminal(p, id);
      AppendEntry(p.trace, e, KeyOf(a), id);
    }
    AppendEntry(p.trace, e, KeyOf(a), 0);
    assert RunningJobs(q) == RunningJobs(p) + {p.next};
  }

  /** The history of a key does not change when the jobs under that key keep running or keep resting. */
  lemma OtherKeyHistory(p: Pool, q: Pool, k: Key)
    requires KeyHistory(p, k) && OfKey(q.trace, k) == OfKey(p.trace, k)
    requires forall id :: id in q.jobs && q.jobs[id].GetKey() == k && q.jobs[id].Running()
                      ==> id in p.jobs && p.jobs[id].Running() && p.jobs[id].action == q.jobs[id].action
    requires forall id :: id in p.jobs && p.jobs[id].GetKey() == k && p.jobs[id].Running()
                      ==> id in q.jobs && q.jobs[id].Running() && p.jobs[id].action == q.jobs[id].action
    ensures KeyHistory(q, k)
  {
  }

  lemma RecordHistory(p: Pool, id: nat)
    requires SlotsAndKeys(p) && History(p) && id in p.jobs && p.jobs[id].Running()
    ensures History(AfterRecord(p, id))
  {
    hide OfKey, Terminals, Open;
    var q, j := AfterRecord(p, id), p.jobs[id];
    var e := Ended(id, j.GetKey(), j.action.commit, j.phase.Applying?);
    forall k
      ensures KeyHistory(q, k)
    {
      assert KeyHistory(p, k);
      AppendEntry(p.trace, e, k, 0);
      if k == j.GetKey() {
        RecordKeyHistory(p, id);
      } else {
        OtherKeyHistory(p, q, k);
      }
    }
    forall i
      ensures OneTerminal(q, i)
    {
      assert OneTerminal(p, i);
      AppendEntry(p.trace, e, j.GetKey(), i);
    }
    AppendEntry(p.trace, e, j.GetKey(), 0);
    assert RunningJobs(p) == RunningJobs(q) + {id};
  }

  /** A step that neither starts nor ends an action keeps the history. */
  lemma QuietHistory(p: Pool, q: Pool)
    requires History(p) && q.trace == p.trace && q.next == p.next
    requires forall id :: id in q.jobs && q.jobs[id].Running()
                      ==> id in p.jobs && p.jobs[id].Running() && p.jobs[id].action == q.jobs[id].action
    requires forall id :: id in p.jobs && p.jobs[id].Running()
                      ==> id in q.jobs && q.jobs[id].Running() && p.jobs[id].action == q.jobs[id].action
    ensures History(q)
  {
    hide OfKey, Terminals, Open, Alternates;
    forall k
      ensures KeyHistory(q, k)
    {
      assert KeyHistory(p, k);
      OtherKeyHistory(p, q, k);
    }
    forall id
      ensures OneTerminal(q, id)
    {
      assert OneTerminal(p, id);
    }
    assert RunningJobs(q) == RunningJobs(p);
  }

  lemma HistoryPreserved(site: Site, s: State, step: Step)
    requires SlotsAndKeys(s.pool) && History(s.pool) && Enabled(s, step)
    ensures History(After(site, s, step).pool)
  {
    hide Program, Cluster.Step, History, SlotsAndKeys;
    match step
    case Submit(a) => SubmitHistory(site, s.pool, a);
    case Record(id) => RecordHistory(s.pool, id);
    case _ => QuietHistory(s.pool, After(site, s, step).pool);
  }

  lemma FreshHistory(limit: int)
    ensures History(Fresh(limit))
  {
  }

  /**
   In every interleaving from the start: per key, starts and terminal events alternate; every accepted
   action gets exactly one terminal event, with its own commit; and the actions started are those
   recorded plus those running.
   */
  lemma {:induction false} HistoryAlways(site: Site, s: State, steps: seq<Step>)
    requires SlotsAndKeys(s.pool) && History(s.pool) && RunSteps(site, s, steps).Some?
    ensures History(RunSteps(site, s, steps).value.pool)
    decreases |steps|
  {
    hide SlotsAndKeys, History, After, Enabled;
    if steps != [] {
      SlotsPreserved(site, s, steps[0]);
      HistoryPreserved(site, s, steps[0]);
      HistoryAlways(site, After(site, s, steps[0]), steps[1..]);
    }
  }

  // ---------------------------------------------------------------- applied or failed

  /** The step is a call of the action `id` that fails. */
  predicate FailsAt(site: Site, s: State, step: Step, id: nat)
    requires Enabled(s, step)
  {
    step.Call? && step.id == id
    && var rest := s.pool.jobs[id].rest;
       Cluster.Step(site, rest[0], rest[1..], s.world, step.outcome).Failed?
  }

  /** Some call of the action `id` fails in the course of the steps. */
  predicate EverFails(site: Site, s: State, steps: seq<Step>, id: nat)
    requires RunSteps(site, s, steps).Some?
    decreases |steps|
  {
    steps != [] && (FailsAt(site, s, steps[0], id) || EverFails(site, After(site, s, steps[0]), steps[1..], id))
  }

  /**
   `failed` says whether a call of the action `id` has failed: a running action is marked accordingly, a recorded one
   has calls left over exactly if so, and its terminal event says applied exactly if not.
   */
  ghost predicate Told(p: Pool, id: nat, failed: bool) {
    && (id >= p.next ==> !failed)
    && (id in p.jobs && p.jobs[id].Running() ==> (p.jobs[id].phase.Failing? <==> failed))
    && (id in p.jobs && !p.jobs[id].phase.Applying? ==> (p.jobs[id].rest != [] <==> failed))
    && forall e :: e in p.trace && e.Ended? && e.id == id ==> (e.applied <==> !failed)
  }

  lemma {:induction false} NoTerminal(trace: seq<Entry>, id: nat)
    requires Terminals(trace, id) == 0
    ensures forall e :: e in trace && e.Ended? ==> e.id != id
  {
    if trace != [] {
      var front, last := trace[..|trace| - 1], trace[|trace| - 1];
      assert trace == front + [last];
      NoTerminal(front, id);
    }
  }

  /** A step tells the outcome of `id` right if it was told right before, taking the step's own failure into account. */
  lemma ToldNext(site: Site, s: State, step: Step, id: nat, failed: bool)
    requires SlotsAndKeys(s.pool) && OneTerminal(s.pool, id) && Enabled(s, step) && Told(s.pool, id, failed)
    ensures Told(After(site, s, step).pool, id, failed || FailsAt(site, s, step, id))
  {
    hide Program, Cluster.Step, Terminals;
    if Terminals(s.pool.trace, id) == 0 {
      NoTerminal(s.pool.trace, id);
    }
  }

  /** Told as an action goes, the outcome is told right at the end. */
  lemma {:induction false} ToldInRun(site: Site, s: State, steps: seq<Step>, id: nat, failed: bool)
    requires SlotsAndKeys(s.pool) && History(s.pool) && RunSteps(site, s, steps).Some? && Told(s.pool, id, failed)
    ensures Told(RunSteps(site, s, steps).value.pool, id, failed || EverFails(site, s, steps, id))
    decreases |steps|
  {
    hide SlotsAndKeys, OneTerminal, KeyHistory, Told, After, Enabled, FailsAt;
    if steps != [] {
      assert OneTerminal(s.pool, id);
      ToldNext(site, s, steps[0], id, failed);
      SlotsPreserved(site, s, steps[0]);
      HistoryPreserved(site, s, steps[0]);
      ToldInRun(site, After(site, s, steps[0]), steps[1..], id, failed || FailsAt(site, s, steps[0], id));
    }
  }

  /**
   In every interleaving from the start: the terminal event of an action says applied exactly when none of its calls
   failed, that is, when its whole program ran to its end.
   */
  lemma AppliedExactly(site: Site, limit: int, w: World, steps: seq<Step>, e: Entry)
    requires RunSteps(site, State(Fresh(limit), w), steps).Some?
    requires e.Ended? && e in RunSteps(site, State(Fresh(limit), w), steps).value.pool.trace
    ensures e.applied <==> !EverFails(site, State(Fresh(limit), w), steps, e.id)
    ensures (var jobs := RunSteps(site, State(Fresh(limit), w), steps).value.pool.jobs;
             e.id in jobs && !jobs[e.id].phase.Applying? ==> (e.applied <==> jobs[e.id].rest == []))
  {
    hide SlotsAndKeys, History, RunSteps, EverFails;
    FreshSlots(limit);
    FreshHistory(limit);
    assert Told(Fresh(limit), e.id, false);
    ToldInRun(site, State(Fresh(limit), w), steps, e.id, false);
  }

  // ---------------------------------------------------------------- the dispatcher itself

  class Dispatcher {
    const limit: nat
    var sem: nat
    var inflight: set<Key>
    var jobs: map<nat, Job>
    var next: nat
    var trace: seq<Entry>

    function View(): Pool
      reads this
    {
      Pool(limit, sem, inflight, jobs, next, trace)
    }

    ghost predicate Valid()
      reads this
    {
      SlotsAndKeys(View()) && History(View())
    }

    constructor (n: int)
      ensures Valid() && View() == Fresh(n)
      ensures limit == (if n > 0 then n else 4) && sem == 0 && inflight == {} && jobs == map[] && trace == []
    {
      limit := if n <= 0 then DEFAULT_CONCURRENCY else n;
      sem, inflight, jobs, next, trace := 0, {}, map[], 0, [];
      new;
      FreshSlots(n);
      FreshHistory(n);
    }

    method Submit(site: Site, a: Action)
      requires Valid()
      modifies this
      ensures Valid() && View() == Submitted(site, old(View()), a)
    {
      hide Program, SlotsAndKeys, History;
      SubmitSlots(site, View(), a);
      SubmitHistory(site, View(), a);
      var k := KeyOf(a);
      if k in inflight {
        return;
      }
      if sem >= limit {
        return;
      }
      sem := sem + 1;
      inflight := inflight + {k};
      jobs, next := jobs[next := Job(a, Program(site, a.apply), Applying)], next + 1;
      trace := trace + [Started(next - 1, k, a.commit)];
    }

    /** One API call of a running action, made on the cluster `w`. */
    method Call(site: Site, id: nat, w: World, outcome: Outcome) returns (w': World)
      requires Valid() && Enabled(State(View(), w), Step.Call(id, outcome))
      modifies this
      ensures Valid() && State(View(), w') == After(site, old(State(View(), w)), Step.Call(id, outcome))
    {
      hide Program, SlotsAndKeys, History, Cluster.Step;
      Keeps(site, State(View(), w), Step.Call(id, outcome));
      var j := jobs[id];
      var r := Cluster.Step(site, j.rest[0], j.rest[1..], w, outcome);
      jobs := jobs[id := if r.Failed? then j.(phase := Failing) else j.(rest := r.rest)];
      return r.world;
    }

    /** Apply has returned: the outcome goes to the history. */
    method Record(site: Site, id: nat, w: World)
      requires Valid() && Enabled(State(View(), w), Step.Record(id))
      modifies this
      ensures Valid() && View() == AfterRecord(old(View()), id)
    {
      hide Program, SlotsAndKeys, History, Cluster.Step;
      Keeps(site, State(View(), w), Step.Record(id));
      var j := jobs[id];
      trace := trace + [Ended(id, j.GetKey(), j.action.commit, j.phase.Applying?)];
      jobs := jobs[id := j.(phase := Recorded)];
    }

    /** The first half of the deferred clean-up. */
    method Release(site: Site, id: nat, w: World)
      requires Valid() && Enabled(State(View(), w), Step.Release(id))
      modifies this
      ensures Valid() && View() == AfterRelease(old(View()), id)
    {
      hide Program, SlotsAndKeys, History, Cluster.Step;
      Keeps(site, State(View(), w), Step.Release(id));
      sem := sem - 1;
      jobs := jobs[id := jobs[id].(phase := Released)];
    }

    /** The second half, under the lock. */
    method Remove(site: Site, id: nat, w: World)
      requires Valid() && Enabled(State(View(), w), Step.Remove(id))
      modifies this
      ensures Valid() && View() == AfterRemove(old(View()), id)
    {
      hide Program, SlotsAndKeys, History, Cluster.Step;
      Keeps(site, State(View(), w), Step.Remove(id));
      inflight := inflight - {jobs[id].GetKey()};
      jobs := jobs - {id};
    }

    /** The next atomic step of the goroutine running `id`. */
    method Advance(site: Site, id: nat, w: World, outcome: Outcome) returns (w': World)
      requires Valid() && id in jobs
      modifies this
      ensures Valid()
      ensures old(Enabled(State(View(), w), TurnOf(jobs[id], id, outcome)))
      ensures State(View(), w') == old(After(site, State(View(), w), TurnOf(jobs[id], id, outcome)))
    {
      hide Program, SlotsAndKeys, History, Cluster.Step;
      TurnEnabled(State(View(), w), id, outcome);
      w' := w;
      match jobs[id].phase
      case Applying =>
        if jobs[id].rest == [] {
          Record(site, id, w);
        } else {
          w' := Call(site, id, w, outcome);
        }
      case Failing => Record(site, id, w);
      case Recorded => Release(site, id, w);
      case Released => Remove(site, id, w);
    }

    /** Wait, with nothing submitted meanwhile: the goroutines finish in any order, with any outcomes, and leave nothing. */
    method Wait(site: Site, w: World) returns (w': World)
      requires Valid()
      modifies this
      ensures Valid() && jobs == map[] && sem == 0 && inflight == {}
      ensures next == old(next)
    {
      w' := w;
      while jobs != map[]
        invariant Valid() && next == old(next)
        decreases Work(jobs, next)
      {
        hide Program, SlotsAndKeys, History, Cluster.Step, Work, After, TurnOf;
        var id :| id in jobs;
        var outcome: Outcome := *;
        TurnDrains(site, State(View(), w'), id, outcome);
        w' := Advance(site, id, w', outcome);
      }
      WaitLeavesNothing(View());
    }
  }

  /** The step that the action `id` is at. */
  function TurnOf(j: Job, id: nat, outcome: Outcome): Step {
    match j.phase
    case Applying => if j.rest == [] then Record(id) else Call(id, outcome)
    case Failing => Record(id)
    case Recorded => Release(id)
    case Released => Remove(id)
  }

  lemma TurnEnabled(s: State, id: nat, outcome: Outcome)
    requires SlotsAndKeys(s.pool) && id in s.pool.jobs
    ensures Enabled(s, TurnOf(s.pool.jobs[id], id, outcome))
  {
    if s.pool.jobs[id].phase.Recorded? {
      assert id in Holding(s.pool);
    }
  }

  lemma TurnDrains(site: Site, s: State, id: nat, outcome: Outcome)
    requires SlotsAndKeys(s.pool) && id in s.pool.jobs
    ensures var step := TurnOf(s.pool.jobs[id], id, outcome);
            && Enabled(s, step)
            && var q := After(site, s, step).pool; q.next == s.pool.next && Work(q.jobs, q.next) < Work(s.pool.jobs, s.pool.next)
  {
    hide SlotsAndKeys, Work, After;
    TurnEnabled(s, id, outcome);
    StepDrains(site, s, TurnOf(s.pool.jobs[id], id, outcome));
  }

  lemma Keeps(site: Site, s: State, step: Step)
    requires SlotsAndKeys(s.pool) && History(s.pool) && Enabled(s, step)
    ensures SlotsAndKeys(After(site, s, step).pool) && History(After(site, s, step).pool)
  {
    SlotsPreserved(site, s, step);
    HistoryPreserved(site, s, step);
  }
}
