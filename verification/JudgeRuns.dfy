/**
 Whole runs of the judge: batches submitted, sandbox runs ending and being cleaned up, and the sweep,
 in any order and with any clock.
*/
module JudgeRuns {

  import opened Wrappers
  import opened Judge

  datatype Event = Submit(es: seq<Entry>, p: Priority, born: nat -> int, clock: nat -> int)
    | Settle(t: nat, r: RunResult) | Finish(t: nat, clock: nat -> int) | Sweep(clock: nat -> int)

  // The scheduler, the sandbox runs whose promise has not settled, and those that settled and are about
  // to be cleaned up. Each run settles once: that is all that is assumed of it.
  datatype Machine = Machine(s: State, running: set<nat>, closing: set<nat>)

  function Started(a: State, b: State): set<nat> {
    set t | t in b.heap && b.heap[t].phase == Active && !(t in a.heap && a.heap[t].phase == Active)
  }

  function Step(m: Machine, e: Event, cap: nat): Machine {
    match e
    case Submit(es, p, born, clock) =>
      if !Admit(m.s, es).Accepted? then m
      else
        var r := Pumped(Enqueued(m.s, es, p, born, 0), cap, clock, 0);
        m.(s := r, running := m.running + Started(m.s, r))
    case Settle(t, r) =>
      if t !in m.running || t !in m.s.heap then m
      else Machine(Stored(m.s, t, r), m.running - {t}, m.closing + {t})
    case Finish(t, clock) =>
      if t !in m.closing || t !in m.s.heap then m
      else
        var f := Finished(m.s, t);
        var r := Pumped(f, cap, clock, 0);
        Machine(r, m.running + Started(f, r), m.closing - {t})
    case Sweep(clock) => m.(s := Compacted(SweptAll(m.s, clock)))
  }

  const Idle := Machine(State(map[], 0, [], [], 0, [], 0, 0, 0, 0), {}, {})

  // The states of a run, one more than its events.
  ghost predicate IsRun(ms: seq<Machine>, es: seq<Event>, cap: nat) {
    |ms| == |es| + 1 && ms[0] == Idle && forall i :: 0 <= i < |es| ==> ms[i + 1] == Step(ms[i], es[i], cap)
  }

  predicate Unsettled(s: State, t: nat) {
    t in s.heap && s.heap[t].phase == Active && s.heap[t].result.None?
  }

  predicate SettledRun(s: State, t: nat) {
    t in s.heap && s.heap[t].phase == Active && s.heap[t].result.Some?
  }

  // The runs under way are those of the active jobs: without a result until they settle, with one after.
  ghost predicate Tracks(m: Machine) {
    && (forall t :: t in m.running <==> Unsettled(m.s, t))
    && (forall t :: t in m.closing <==> SettledRun(m.s, t))
  }

  // ---------------------------------------------------------------- what no step undoes

  function Rank(p: Phase): nat {
    match p
    case Queued => 0
    case Active => 1
    case Complete => 2
  }

  // A job moves on: its phase never goes back, a result once stored stays, a request once dropped is
  // gone, and it keeps its class and its age.
  predicate Later(a: Job, b: Job) {
    && Rank(a.phase) <= Rank(b.phase) && b.priority == a.priority && b.createdAt == a.createdAt
    && (a.result.Some? ==> b.result == a.result && b.bytes == a.bytes) && (!a.request ==> !b.request)
  }

  // No token is ever reused, and a job dropped from the map never comes back to it.
  ghost predicate Onward(a: State, b: State) {
    && a.next <= b.next
    && (forall t :: t in a.heap ==> t in b.heap && Later(a.heap[t], b.heap[t]))
    && (forall t :: t in b.jobs ==> t in a.jobs || t >= a.next)
  }

  // Active jobs are left alone, and jobs become active without a result.
  ghost predicate Starts(a: State, b: State) {
    && (forall t :: t in a.heap && a.heap[t].phase == Active ==> t in b.heap && b.heap[t] == a.heap[t])
    && (forall t :: t in Started(a, b) ==> b.heap[t].result.None?)
  }

  // No place stays free while somebody waits.
  predicate Busy(s: State, cap: nat) {
    s.active == cap || Line(s) == []
  }

  lemma OnwardMore(a: State, b: State, c: State)
    requires Onward(a, b) && Onward(b, c)
    ensures Onward(a, c)
  {
    forall t | t in a.heap
      ensures t in c.heap && Later(a.heap[t], c.heap[t])
    {
      assert Later(a.heap[t], b.heap[t]) && Later(b.heap[t], c.heap[t]);
    }
  }

  lemma StartsMore(a: State, b: State, c: State)
    requires Starts(a, b) && Starts(b, c)
    ensures Starts(a, c)
  {
    forall t | t in Started(a, c)
      ensures c.heap[t].result.None?
    {
      assert t in Started(b, c) || (t in Started(a, b) && c.heap[t] == b.heap[t]);
    }
  }

  lemma PumpOnward(s: State, cap: nat, clock: nat -> int)
    requires Inv(s, cap, {}, 0)
    ensures var r := Pumped(s, cap, clock, 0);
      Inv(r, cap, {}, 0) && Onward(s, r) && Starts(s, r) && Busy(r, cap)
  {
    var r := Pumped(s, cap, clock, 0);
    InvKnown(s, cap);
    PumpedInv(s, cap, clock, 0);
    var n := PumpedInLineOrder(s, cap, clock, 0);
    UnfoldDispatched(s, r, n);
    Unfold(s, cap, {}, 0);
    forall t | t in s.heap
      ensures Later(s.heap[t], r.heap[t]) && (s.heap[t].phase == Active ==> r.heap[t] == s.heap[t])
      ensures r.heap[t].phase == Active && s.heap[t].phase != Active ==> r.heap[t].result.None?
    {
      assert Moved(s.heap, r.heap, First(Line(s), n), t) && Sound(s.heap[t]);
    }
  }

  lemma {:induction false} EnqueuedOnward(s: State, es: seq<Entry>, p: Priority, born: nat -> int, i: nat)
    requires forall t :: t in s.heap ==> t < s.next
    ensures Onward(s, Enqueued(s, es, p, born, i)) && Starts(s, Enqueued(s, es, p, born, i))
    decreases |es|
  {
    if es != [] {
      var s' := Added(s, PayloadOf(es[0]), p, born(i));
      EnqueuedOnward(s', es[1..], p, born, i + 1);
      OnwardMore(s, s', Enqueued(s, es, p, born, i));
      StartsMore(s, s', Enqueued(s, es, p, born, i));
    }
  }

  lemma AdmittedFits(s: State, es: seq<Entry>)
    requires Admit(s, es).Accepted?
    ensures |Line(s)| + |es| <= MAX_QUEUED_JOBS && |s.jobs| + |es| <= MAX_RETAINED_JOBS
    ensures s.inFlight + BatchBytes(es) <= MAX_IN_FLIGHT_PAYLOAD_BYTES
  {
  }

  lemma SubmitStep(s: State, es: seq<Entry>, p: Priority, born: nat -> int, clock: nat -> int, cap: nat)
    requires Inv(s, cap, {}, 0) && Admit(s, es).Accepted?
    ensures var r := Pumped(Enqueued(s, es, p, born, 0), cap, clock, 0);
      Inv(r, cap, {}, 0) && Onward(s, r) && Starts(s, r) && Busy(r, cap)
  {
    var e := Enqueued(s, es, p, born, 0);
    AdmittedFits(s, es);
    EnqueuedInv(s, es, p, born, 0, cap);
    PumpOnward(e, cap, clock);
    Unfold(s, cap, {}, 0);
    EnqueuedOnward(s, es, p, born, 0);
    OnwardMore(s, e, Pumped(e, cap, clock, 0));
    StartsMore(s, e, Pumped(e, cap, clock, 0));
  }

  lemma SettleStep(s: State, t: nat, x: RunResult, cap: nat)
    requires Inv(s, cap, {}, 0) && Unsettled(s, t)
    ensures var r := Stored(s, t, x);
      && Inv(r, cap, {}, 0) && Onward(s, r) && r.active == s.active && Line(r) == Line(s)
      && r.heap == s.heap[t := s.heap[t].(result := Some(x), bytes := x.size)]
  {
    JobFacts(s, t, cap, {}, 0);
    StoredInv(s, t, x, cap, {}, 0);
  }

  lemma FinishStep(s: State, t: nat, clock: nat -> int, cap: nat)
    requires Inv(s, cap, {}, 0) && SettledRun(s, t)
    ensures var f := Finished(s, t); var r := Pumped(f, cap, clock, 0);
      && Inv(r, cap, {}, 0) && Onward(s, r) && Starts(f, r) && Busy(r, cap)
      && f.heap == s.heap[t := s.heap[t].(phase := Complete, request := false, payload := 0)]
  {
    var f := Finished(s, t);
    FinishedInv(s, t, cap);
    JobFacts(s, t, cap, {}, 0);
    FinishedOnward(s, t, cap);
    PumpOnward(f, cap, clock);
    OnwardMore(s, f, Pumped(f, cap, clock, 0));
  }

  lemma FinishedOnward(s: State, t: nat, cap: nat)
    requires Inv(s, cap, {}, 0) && t in s.heap && s.heap[t].phase == Active
    ensures Onward(s, Finished(s, t))
  {
    var s' := Released(Phased(s, t, Complete), t);
    FinishedInv(s, t, cap);
    ClosedInv(s, t, cap, {}, 0);
    InvLedger(s', cap, {}, 1);
    TrimmedFacts(s', t);
  }

  lemma SweepStep(s: State, clock: nat -> int, cap: nat)
    requires Inv(s, cap, {}, 0)
    ensures var r := Compacted(SweptAll(s, clock));
      && Inv(r, cap, {}, 0) && Onward(s, r) && Starts(s, r) && Started(s, r) == {}
      && r.active == s.active && Line(r) == Line(s)
  {
    var w := SweptAll(s, clock);
    SweptFacts(s, s.jobs, clock(0) - RESULT_TTL_MS, clock, 1, cap);
    CompactedSame(w, cap, {}, 0);
    Unfold(s, cap, {}, 0);
    forall t | t in s.heap
      ensures Later(s.heap[t], w.heap[t]) && (s.heap[t].phase == Active ==> w.heap[t] == s.heap[t])
      ensures w.heap[t].phase == Active ==> s.heap[t].phase == Active
    {
      assert SweptJob(s.heap[t], w.heap[t]) && Sound(s.heap[t]);
    }
  }

  // A step that leaves the active jobs alone adds exactly its newly started runs to those under way.
  lemma StartsTracks(m: Machine, r: State)
    requires Tracks(m) && Starts(m.s, r)
    requires forall t :: t in m.s.heap && m.s.heap[t].phase == Active ==> t in r.heap
    ensures Tracks(m.(s := r, running := m.running + Started(m.s, r)))
  {
    forall t
      ensures t in m.running + Started(m.s, r) <==> Unsettled(r, t)
      ensures t in m.closing <==> SettledRun(r, t)
    {
      if t in m.s.heap && m.s.heap[t].phase == Active {
        assert r.heap[t] == m.s.heap[t] && t !in Started(m.s, r);
      } else {
        assert !Unsettled(m.s, t) && !SettledRun(m.s, t);
        assert t in r.heap && r.heap[t].phase == Active <==> t in Started(m.s, r);
      }
    }
  }

  ghost predicate Good(m: Machine, cap: nat) {
    Inv(m.s, cap, {}, 0) && Busy(m.s, cap) && Tracks(m)
  }

  lemma SettleFacts(m: Machine, t: nat, x: RunResult, cap: nat)
    requires Good(m, cap) && t in m.running
    ensures Good(Machine(Stored(m.s, t, x), m.running - {t}, m.closing + {t}), cap)
    ensures Onward(m.s, Stored(m.s, t, x))
  {
    SettleStep(m.s, t, x, cap);
  }

  lemma SubmitFacts(m: Machine, e: Event, cap: nat)
    requires Good(m, cap) && e.Submit?
    ensures Good(Step(m, e, cap), cap) && Onward(m.s, Step(m, e, cap).s)
  {
    if Admit(m.s, e.es).Accepted? {
      SubmitStep(m.s, e.es, e.p, e.born, e.clock, cap);
      StartsTracks(m, Pumped(Enqueued(m.s, e.es, e.p, e.born, 0), cap, e.clock, 0));
    }
  }

  lemma FinishFacts(m: Machine, e: Event, cap: nat)
    requires Good(m, cap) && e.Finish?
    ensures Good(Step(m, e, cap), cap) && Onward(m.s, Step(m, e, cap).s)
  {
    if e.t in m.closing {
      var f := Finished(m.s, e.t);
      FinishStep(m.s, e.t, e.clock, cap);
      StartsTracks(Machine(f, m.running, m.closing - {e.t}), Pumped(f, cap, e.clock, 0));
    }
  }

  lemma SweepFacts(m: Machine, e: Event, cap: nat)
    requires Good(m, cap) && e.Sweep?
    ensures Good(Step(m, e, cap), cap) && Onward(m.s, Step(m, e, cap).s)
  {
    SweepStep(m.s, e.clock, cap);
    StartsTracks(m, Compacted(SweptAll(m.s, e.clock)));
    assert m.running + {} == m.running;
  }

  lemma StepFacts(m: Machine, e: Event, cap: nat)
    requires Good(m, cap)
    ensures Good(Step(m, e, cap), cap) && Onward(m.s, Step(m, e, cap).s)
  {
    match e
    case Submit(es, p, born, clock) => SubmitFacts(m, e, cap);
    case Settle(t, r) => if t in m.running { SettleFacts(m, t, r, cap); }
    case Finish(t, clock) => FinishFacts(m, e, cap);
    case Sweep(clock) => SweepFacts(m, e, cap);
  }

  // ---------------------------------------------------------------- every run

  lemma EmptyInv(s: State, cap: nat)
    requires s.heap == map[] && s.jobs == [] && s.iq == [] && s.ih == 0 && s.bq == [] && s.bh == 0
    requires s.active == 0 && s.inFlight == 0 && s.retained == 0
    ensures Inv(s, cap, {}, 0) && Busy(s, cap)
  {
    assert Rest(s.iq, s.ih) == [] && Rest(s.bq, s.bh) == [];
    Fold(s, cap, {}, 0);
  }

  // At every moment of every run the budgets are exact and within bounds, `active` counts the running
  // jobs, every queued job waits exactly once in its class, no place is free while anybody waits, and the
  // sandbox runs under way are exactly those of the active jobs.
  lemma {:induction false} AlwaysSafe(ms: seq<Machine>, es: seq<Event>, cap: nat, i: nat)
    requires IsRun(ms, es, cap) && i <= |es|
    ensures Inv(ms[i].s, cap, {}, 0) && Busy(ms[i].s, cap) && Tracks(ms[i])
    decreases i
  {
    if i == 0 {
      EmptyInv(ms[0].s, cap);
    } else {
      AlwaysSafe(ms, es, cap, i - 1);
      StepFacts(ms[i - 1], es[i - 1], cap);
    }
  }

  // What a token was given stays: from any moment to any later one phases only move forward, a stored
  // result is never replaced, and a job that left the map is never seen again.
  lemma {:induction false} OnlyForward(ms: seq<Machine>, es: seq<Event>, cap: nat, i: nat, k: nat)
    requires IsRun(ms, es, cap) && i <= k <= |es|
    ensures Onward(ms[i].s, ms[k].s)
    decreases k - i
  {
    if i < k {
      OnlyForward(ms, es, cap, i, k - 1);
      NextOnward(ms, es, cap, k - 1);
      OnwardMore(ms[i].s, ms[k - 1].s, ms[k].s);
    }
  }

  lemma NextOnward(ms: seq<Machine>, es: seq<Event>, cap: nat, i: nat)
    requires IsRun(ms, es, cap) && i < |es|
    ensures Onward(ms[i].s, ms[i + 1].s)
  {
    AlwaysSafe(ms, es, cap, i);
    StepFacts(ms[i], es[i], cap);
  }

  // No token is run twice: once its run has settled, none is under way for it at any later moment.
  lemma SettledOnce(ms: seq<Machine>, es: seq<Event>, cap: nat, i: nat, k: nat)
    requires IsRun(ms, es, cap) && i < k <= |es| && es[i].Settle? && es[i].t in ms[i].running
    ensures es[i].t !in ms[k].running
  {
    AlwaysSafe(ms, es, cap, i);
    AlwaysSafe(ms, es, cap, k);
    SettleStep(ms[i].s, es[i].t, es[i].r, cap);
    OnlyForward(ms, es, cap, i + 1, k);
    assert Later(ms[i + 1].s.heap[es[i].t], ms[k].s.heap[es[i].t]);
  }

  // ---------------------------------------------------------------- why a token leaves the map

  // The tokens of the map before a step, and those the step creates.
  function Entrants(a: State, b: State): seq<nat> {
    a.jobs + Fresh(a.next, if b.next >= a.next then b.next - a.next else 0)
  }

  // It is known, or new with this step; its job is finished now; and either a sweep found it created
  // before the cutoff, or the results of all these jobs would pass the cap.
  predicate Leaves(m: Machine, e: Event, m': Machine, t: nat) {
    && t in m'.s.heap && m'.s.heap[t].phase == Complete
    && ((e.Sweep? && m'.s.heap[t].createdAt < e.clock(0) - 600_000)
        || Sum(Entrants(m.s, m'.s), m'.s.heap, Bytes) > 64 * 1024 * 1024)
  }

  lemma EnqueuedNext(s: State, es: seq<Entry>, p: Priority, born: nat -> int, cap: nat)
    requires Inv(s, cap, {}, 0)
    ensures Entrants(s, Enqueued(s, es, p, born, 0)) == Enqueued(s, es, p, born, 0).jobs
  {
    Unfold(s, cap, {}, 0);
    EnqueuedFrame(s, es, p, born, 0);
  }

  lemma SubmitLeaves(m: Machine, e: Event, cap: nat)
    requires Inv(m.s, cap, {}, 0) && e.Submit? && Admit(m.s, e.es).Accepted?
    ensures var m' := Step(m, e, cap);
      forall t :: t in Entrants(m.s, m'.s) && t !in m'.s.jobs ==> Leaves(m, e, m', t)
  {
    var q := Enqueued(m.s, e.es, e.p, e.born, 0);
    var r := Pumped(q, cap, e.clock, 0);
    AdmittedFits(m.s, e.es);
    EnqueuedInv(m.s, e.es, e.p, e.born, 0, cap);
    EnqueuedNext(m.s, e.es, e.p, e.born, cap);
    InvKnown(q, cap);
    PumpedLeft(q, cap, e.clock, 0);
    PumpNext(q, cap, e.clock);
    forall t | t in Entrants(m.s, r) && t !in r.jobs
      ensures Leaves(m, e, Step(m, e, cap), t)
    {
      assert Gone(q, r, t, None);
    }
  }

  lemma PumpNext(s: State, cap: nat, clock: nat -> int)
    requires Known(s) && Inv(s, cap, {}, 0)
    ensures Pumped(s, cap, clock, 0).next == s.next
  {
    var n := PumpedInLineOrder(s, cap, clock, 0);
    UnfoldDispatched(s, Pumped(s, cap, clock, 0), n);
  }

  lemma SettleLeaves(m: Machine, e: Event, cap: nat)
    requires Good(m, cap) && e.Settle? && e.t in m.running
    ensures var m' := Step(m, e, cap);
      forall t :: t in Entrants(m.s, m'.s) && t !in m'.s.jobs ==> Leaves(m, e, m', t)
  {
    var r := Stored(m.s, e.t, e.r);
    JobFacts(m.s, e.t, cap, {}, 0);
    StoredInv(m.s, e.t, e.r, cap, {}, 0);
    StoredLeft(m.s, e.t, e.r, cap, {}, 0, None);
    forall t | t in Entrants(m.s, r) && t !in r.jobs
      ensures Leaves(m, e, Step(m, e, cap), t)
    {
      assert Entrants(m.s, r) == m.s.jobs && Gone(m.s, r, t, None);
    }
  }

  lemma FinishLeaves(m: Machine, e: Event, cap: nat)
    requires Good(m, cap) && e.Finish? && e.t in m.closing
    ensures var m' := Step(m, e, cap);
      forall t :: t in Entrants(m.s, m'.s) && t !in m'.s.jobs ==> Leaves(m, e, m', t)
  {
    var f := Finished(m.s, e.t);
    var r := Pumped(f, cap, e.clock, 0);
    FinishedInv(m.s, e.t, cap);
    FinishedLeft(m.s, e.t, cap);
    FinishedNext(m.s, e.t, cap);
    InvKnown(f, cap);
    PumpedLeft(f, cap, e.clock, 0);
    PumpNext(f, cap, e.clock);
    LeftMore(m.s, f, r, None);
    forall t | t in Entrants(m.s, r) && t !in r.jobs
      ensures Leaves(m, e, Step(m, e, cap), t)
    {
      assert Entrants(m.s, r) == m.s.jobs && Gone(m.s, r, t, None);
    }
  }

  lemma FinishedNext(s: State, t: nat, cap: nat)
    requires Inv(s, cap, {}, 0) && t in s.heap && s.heap[t].phase == Active
    ensures Finished(s, t).next == s.next
  {
    ClosedInv(s, t, cap, {}, 0);
    InvLedger(Released(Phased(s, t, Complete), t), cap, {}, 1);
    TrimmedFacts(Released(Phased(s, t, Complete), t), t);
  }

  lemma SweepLeaves(m: Machine, e: Event, cap: nat)
    requires Good(m, cap) && e.Sweep?
    ensures var m' := Step(m, e, cap);
      forall t :: t in Entrants(m.s, m'.s) && t !in m'.s.jobs ==> Leaves(m, e, m', t)
  {
    var cutoff := e.clock(0) - 600_000;
    var w := SweptAll(m.s, e.clock);
    SweptFacts(m.s, m.s.jobs, cutoff, e.clock, 1, cap);
    SweptLeft(m.s, m.s.jobs, cutoff, e.clock, 1, cap);
    CompactedSame(w, cap, {}, 0);
    forall t | t in Entrants(m.s, w) && t !in w.jobs
      ensures Leaves(m, e, Step(m, e, cap), t)
    {
      assert Entrants(m.s, w) == m.s.jobs && Gone(m.s, w, t, Some(cutoff));
    }
  }

  // In every run a token leaves the map, or never makes it there, only with a finished job, and only
  // because a sweep found it created more than ten minutes before its cutoff reading, or because the
  // results of the jobs in the map would otherwise pass 64 MiB.
  lemma LeavesOnly(ms: seq<Machine>, es: seq<Event>, cap: nat, i: nat, t: nat)
    requires IsRun(ms, es, cap) && i < |es| && t in Entrants(ms[i].s, ms[i + 1].s) && t !in ms[i + 1].s.jobs
    ensures Leaves(ms[i], es[i], ms[i + 1], t)
  {
    AlwaysSafe(ms, es, cap, i);
    match es[i]
    case Submit(b, p, born, clock) =>
      if Admit(ms[i].s, b).Accepted? { SubmitLeaves(ms[i], es[i], cap); }
    case Settle(u, r) =>
      if u in ms[i].running && u in ms[i].s.heap { SettleLeaves(ms[i], es[i], cap); }
    case Finish(u, clock) =>
      if u in ms[i].closing && u in ms[i].s.heap { FinishLeaves(ms[i], es[i], cap); }
    case Sweep(clock) => SweepLeaves(ms[i], es[i], cap);
  }

  // So a run that ends leaves its job in the map with the result it settled with, for the next poll to
  // find, unless the results would pass the cap.
  lemma FinishedServed(ms: seq<Machine>, es: seq<Event>, cap: nat, i: nat)
    requires IsRun(ms, es, cap) && i < |es| && es[i].Finish? && es[i].t in ms[i].closing
    ensures var t := es[i].t; var s, s' := ms[i].s, ms[i + 1].s;
      && t in s.heap && t in s'.heap && s'.heap[t].phase == Complete
      && s.heap[t].result.Some? && s'.heap[t].result == s.heap[t].result
      && t in s.jobs && (t in s'.jobs || Sum(Entrants(s, s'), s'.heap, Bytes) > 64 * 1024 * 1024)
  {
    var t := es[i].t;
    AlwaysSafe(ms, es, cap, i);
    JobFacts(ms[i].s, t, cap, {}, 0);
    FinishStep(ms[i].s, t, es[i].clock, cap);
    assert Later(ms[i].s.heap[t], ms[i + 1].s.heap[t]);
    FinishedLeft(ms[i].s, t, cap);
    FinishedInv(ms[i].s, t, cap);
    PumpKeepsFinished(Finished(ms[i].s, t), cap, es[i].clock, t);
    if t !in ms[i + 1].s.jobs { LeavesOnly(ms, es, cap, i, t); }
  }

  lemma PumpKeepsFinished(s: State, cap: nat, clock: nat -> int, t: nat)
    requires Inv(s, cap, {}, 0) && t in s.heap && s.heap[t].phase == Complete
    ensures var r := Pumped(s, cap, clock, 0); t in r.heap && r.heap[t].phase == Complete
  {
    PumpOnward(s, cap, clock);
  }
}
