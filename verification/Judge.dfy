/**
 The judge's in-memory scheduler: two queues with head cursors and lazy compaction, a
 concurrency cap, two byte budgets and the eviction of retained results.

 A job is named by its token. `heap` holds every job object ever created, `jobs` the tokens in the
 token map, in insertion order; a job dropped from the map may still sit in a queue array.
*/
module Judge {

  import opened Wrappers

  const RESULT_TTL_MS := 600_000
  const QUEUE_TTL_MS := 600_000
  const MAX_BATCH_SIZE := 250
  const MAX_QUEUED_JOBS := 5_000
  const MAX_RETAINED_JOBS := 2_000
  const MAX_IN_FLIGHT_PAYLOAD_BYTES := 64 * 1024 * 1024
  const MAX_RETAINED_RESULT_BYTES := 64 * 1024 * 1024

  // What a result says stands for its status and outputs; `size` is their length in bytes.
  datatype Body = LapsedInQueue | Ran(id: int)
  datatype RunResult = RunResult(body: Body, size: nat)

  const EXPIRED := RunResult(LapsedInQueue, |"Submission expired while waiting for capacity"|)

  datatype Phase = Queued | Active | Complete
  datatype Priority = Interactive | Bulk
  datatype Job = Job(phase: Phase, priority: Priority, createdAt: int,
                     request: bool, payload: nat, result: Option<RunResult>, bytes: nat)

  datatype State = State(heap: map<nat, Job>, next: nat, jobs: seq<nat>,
                         iq: seq<nat>, ih: nat, bq: seq<nat>, bh: nat,
                         active: int, inFlight: int, retained: int)

  // ---------------------------------------------------------------- token lists and sums

  predicate Distinct(ts: seq<nat>) {
    forall i, j :: 0 <= i < j < |ts| ==> ts[i] != ts[j]
  }

  function Drop(ts: seq<nat>, t: nat): (r: seq<nat>)
    ensures |r| <= |ts|
  {
    if ts == [] then [] else if ts[0] == t then ts[1..] else [ts[0]] + Drop(ts[1..], t)
  }

  datatype Measure = Payload | Bytes | Running

  function Weight(heap: map<nat, Job>, t: nat, m: Measure): nat {
    if t !in heap then 0
    else match m
      case Payload => heap[t].payload
      case Bytes => heap[t].bytes
      case Running => if heap[t].phase == Active then 1 else 0
  }

  function Sum(ts: seq<nat>, heap: map<nat, Job>, m: Measure): nat {
    if ts == [] then 0 else Weight(heap, ts[0], m) + Sum(ts[1..], heap, m)
  }

  lemma {:induction false} DropFacts(ts: seq<nat>, t: nat)
    requires Distinct(ts)
    ensures Distinct(Drop(ts, t))
    ensures forall x :: x in Drop(ts, t) <==> x in ts && x != t
  {
    if ts != [] {
      assert ts[0] !in ts[1..];
      if ts[0] != t {
        DropFacts(ts[1..], t);
      }
    }
  }

  lemma {:induction false} SumDrop(ts: seq<nat>, heap: map<nat, Job>, t: nat, m: Measure)
    requires Distinct(ts)
    ensures Sum(Drop(ts, t), heap, m) == Sum(ts, heap, m) - if t in ts then Weight(heap, t, m) else 0
  {
    if ts != [] {
      assert ts[0] !in ts[1..];
      if ts[0] != t {
        SumDrop(ts[1..], heap, t, m);
        assert Drop(ts, t)[1..] == Drop(ts[1..], t);
      }
    }
  }

  lemma {:induction false} SumUpdate(ts: seq<nat>, heap: map<nat, Job>, t: nat, j: Job, m: Measure)
    requires Distinct(ts)
    ensures Sum(ts, heap[t := j], m)
            == Sum(ts, heap, m) + if t in ts then Weight(heap[t := j], t, m) - Weight(heap, t, m) else 0
  {
    if ts != [] {
      assert ts[0] !in ts[1..];
      SumUpdate(ts[1..], heap, t, j, m);
    }
  }

  lemma {:induction false} SumAppend(ts: seq<nat>, heap: map<nat, Job>, t: nat, m: Measure)
    ensures Sum(ts + [t], heap, m) == Sum(ts, heap, m) + Weight(heap, t, m)
  {
    if ts == [] {
      assert ts + [t] == [t];
    } else {
      assert (ts + [t])[1..] == ts[1..] + [t];
      SumAppend(ts[1..], heap, t, m);
    }
  }

  lemma {:induction false} SumMember(ts: seq<nat>, heap: map<nat, Job>, t: nat, m: Measure)
    requires t in ts
    ensures Weight(heap, t, m) <= Sum(ts, heap, m)
  {
    if ts[0] != t {
      SumMember(ts[1..], heap, t, m);
    }
  }

  // ---------------------------------------------------------------- the global invariant

  // The part of a queue array that has not been consumed yet.
  function Rest(q: seq<nat>, head: nat): seq<nat> {
    if head <= |q| then q[head..] else []
  }

  ghost predicate Lane(q: seq<nat>, heap: map<nat, Job>, p: Priority) {
    && Distinct(q)
    && forall t :: t in q ==> t in heap && heap[t].priority == p && heap[t].phase != Active
  }

  // No queued or active job is ever missing from the map.
  ghost predicate Tracked(s: State) {
    && Distinct(s.jobs) && |s.jobs| <= MAX_RETAINED_JOBS
    && (forall t :: t in s.jobs ==> t in s.heap)
    && (forall t :: t in s.heap ==> t < s.next)
    && forall t :: t in s.heap && s.heap[t].phase != Complete ==> t in s.jobs
  }

  // A job holds its request exactly until it completes, and a result only once it has run or lapsed,
  // accounted at its size.
  ghost predicate Sound(j: Job) {
    && (j.request <==> j.phase != Complete)
    && (!j.request ==> j.payload == 0)
    && j.bytes == (if j.result.None? then 0 else j.result.value.size)
    && (j.phase == Queued ==> j.result.None?)
  }

  ghost predicate Balanced(s: State, slack: int) {
    && s.inFlight == Sum(s.jobs, s.heap, Payload) <= MAX_IN_FLIGHT_PAYLOAD_BYTES
    && s.retained == Sum(s.jobs, s.heap, Bytes)
    && s.active == Sum(s.jobs, s.heap, Running) + slack
  }

  // Every queued job waits exactly once, in the live part of its own class. `out` are the jobs
  // taken off a queue and not yet started.
  ghost predicate Lined(s: State, out: set<nat>) {
    && s.ih <= |s.iq| && s.bh <= |s.bq|
    && |Rest(s.iq, s.ih)| + |Rest(s.bq, s.bh)| <= MAX_QUEUED_JOBS
    && Lane(Rest(s.iq, s.ih), s.heap, Interactive) && Lane(Rest(s.bq, s.bh), s.heap, Bulk)
    && (forall t :: t in out ==> t in s.heap && s.heap[t].phase == Queued
                                 && t !in Rest(s.iq, s.ih) && t !in Rest(s.bq, s.bh))
    && (forall t :: t in s.heap && s.heap[t].phase == Queued && t !in out ==>
          t in Rest(s.iq, s.ih) + Rest(s.bq, s.bh))
  }

  // The invariant has four facets. Quantifying over them keeps proofs that only pass the whole
  // invariant along from unfolding it; `Unfold` and `Fold` go between the two forms.
  datatype Facet = Tracking | Soundness | Balance | Queueing

  ghost predicate Holds(f: Facet, s: State, cap: nat, out: set<nat>, slack: int) {
    match f
    case Tracking => Tracked(s)
    case Soundness => forall t :: t in s.heap ==> Sound(s.heap[t])
    case Balance => Balanced(s, slack) && s.active <= cap
    case Queueing => Lined(s, out)
  }

  ghost predicate Inv(s: State, cap: nat, out: set<nat>, slack: int) {
    forall f: Facet :: Holds(f, s, cap, out, slack)
  }

  lemma Unfold(s: State, cap: nat, out: set<nat>, slack: int)
    requires Inv(s, cap, out, slack)
    ensures Tracked(s) && (forall t :: t in s.heap ==> Sound(s.heap[t]))
    ensures Balanced(s, slack) && s.active <= cap && Lined(s, out)
  {
    assert Holds(Tracking, s, cap, out, slack) && Holds(Soundness, s, cap, out, slack);
    assert Holds(Balance, s, cap, out, slack) && Holds(Queueing, s, cap, out, slack);
  }

  lemma Fold(s: State, cap: nat, out: set<nat>, slack: int)
    requires Tracked(s) && forall t :: t in s.heap ==> Sound(s.heap[t])
    requires Balanced(s, slack) && s.active <= cap && Lined(s, out)
    ensures Inv(s, cap, out, slack)
  {
  }

  // ---------------------------------------------------------------- the small operations

  function Max(a: int, b: int): int {
    if a < b then b else a
  }

  function Released(s: State, t: nat): State
    requires t in s.heap
  {
    var j := s.heap[t];
    if !j.request then s
    else s.(inFlight := Max(0, s.inFlight - j.payload), heap := s.heap[t := j.(request := false, payload := 0)])
  }

  function Phased(s: State, t: nat, p: Phase): State
    requires t in s.heap
  {
    s.(heap := s.heap[t := s.heap[t].(phase := p)])
  }

  function Deleted(s: State, t: nat): State {
    s.(retained := Max(0, s.retained - Weight(s.heap, t, Bytes)), jobs := Drop(s.jobs, t))
  }

  predicate Evictable(heap: map<nat, Job>, t: nat, kept: nat) {
    t != kept && t in heap && heap[t].phase == Complete
  }

  // The eviction loop over the entries `ts` still to visit, on the map's tokens and the counter.
  function Evict(ts: seq<nat>, jobs: seq<nat>, heap: map<nat, Job>, retained: int, kept: nat): (seq<nat>, int)
    decreases |ts|
  {
    if ts == [] then (jobs, retained)
    else if !Evictable(heap, ts[0], kept) then Evict(ts[1..], jobs, heap, retained, kept)
    else
      var r := Max(0, retained - Weight(heap, ts[0], Bytes));
      if r <= MAX_RETAINED_RESULT_BYTES then (Drop(jobs, ts[0]), r)
      else Evict(ts[1..], Drop(jobs, ts[0]), heap, r, kept)
  }

  function Evicted(s: State, ts: seq<nat>, kept: nat): State {
    var (j, r) := Evict(ts, s.jobs, s.heap, s.retained, kept);
    s.(jobs := j, retained := r)
  }

  function Trimmed(s: State, kept: nat): State {
    if s.retained <= MAX_RETAINED_RESULT_BYTES then s else Evicted(s, s.jobs, kept)
  }

  function Stored(s: State, t: nat, r: RunResult): State
    requires t in s.heap
  {
    var j := s.heap[t];
    Trimmed(s.(retained := s.retained - j.bytes + r.size,
               heap := s.heap[t := j.(result := Some(r), bytes := r.size)]), t)
  }

  function Lapsed(j: Job): Job {
    j.(phase := Complete, request := false, payload := 0, result := Some(EXPIRED), bytes := EXPIRED.size)
  }

  function Expired(s: State, t: nat): State
    requires t in s.heap
  {
    Stored(Released(Phased(s, t, Complete), t), t, EXPIRED)
  }

  function Finished(s: State, t: nat): State
    requires t in s.heap
  {
    var s' := Trimmed(Released(Phased(s, t, Complete), t), t);
    s'.(active := s'.active - 1)
  }

  // ---------------------------------------------------------------- eviction

  // What an eviction may change: finished jobs leave the map, nothing else moves.
  ghost predicate OnlyDropped(a: State, b: State) {
    && b == a.(jobs := b.jobs, retained := b.retained)
    && Distinct(b.jobs) && |b.jobs| <= |a.jobs|
    && (forall t :: t in b.jobs ==> t in a.jobs)
    && (forall t :: t in a.jobs && t !in b.jobs ==> t in a.heap && a.heap[t].phase == Complete)
    && (forall m: Measure :: m != Bytes ==> Sum(b.jobs, b.heap, m) == Sum(a.jobs, a.heap, m))
    && b.retained == Sum(b.jobs, b.heap, Bytes)
  }

  ghost predicate Ledger(s: State) {
    && Distinct(s.jobs) && s.retained == Sum(s.jobs, s.heap, Bytes)
    && forall t :: t in s.heap && s.heap[t].phase == Complete ==> s.heap[t].payload == 0
  }

  lemma DeletedFacts(s: State, t: nat)
    requires Ledger(s) && t in s.jobs && t in s.heap && s.heap[t].phase == Complete
    ensures OnlyDropped(s, Deleted(s, t)) && Ledger(Deleted(s, t))
    ensures Deleted(s, t).retained == s.retained - s.heap[t].bytes
    ensures forall x :: x in Deleted(s, t).jobs <==> x in s.jobs && x != t
  {
    DropFacts(s.jobs, t);
    SumDrop(s.jobs, s.heap, t, Bytes);
    SumDrop(s.jobs, s.heap, t, Payload);
    SumDrop(s.jobs, s.heap, t, Running);
    SumMember(s.jobs, s.heap, t, Bytes);
  }

  lemma {:induction false} EvictedFacts(s: State, ts: seq<nat>, kept: nat)
    requires Ledger(s) && Distinct(ts) && forall t :: t in ts ==> t in s.jobs
    ensures OnlyDropped(s, Evicted(s, ts, kept)) && Ledger(Evicted(s, ts, kept))
    ensures kept in s.jobs ==> kept in Evicted(s, ts, kept).jobs
    decreases |ts|
  {
    if ts != [] {
      assert ts[0] !in ts[1..];
      EvictedUnfold(s, ts, kept);
      if !Evictable(s.heap, ts[0], kept) {
        EvictedFacts(s, ts[1..], kept);
      } else {
        var s' := Deleted(s, ts[0]);
        DeletedFacts(s, ts[0]);
        if s'.retained > MAX_RETAINED_RESULT_BYTES {
          EvictedFacts(s', ts[1..], kept);
          DroppedMore(s, s', Evicted(s', ts[1..], kept));
        }
      }
    }
  }

  lemma DroppedMore(a: State, b: State, c: State)
    requires OnlyDropped(a, b) && OnlyDropped(b, c)
    ensures OnlyDropped(a, c)
  {
  }

  lemma TrimmedFacts(s: State, kept: nat)
    requires Ledger(s)
    ensures OnlyDropped(s, Trimmed(s, kept)) && Ledger(Trimmed(s, kept))
    ensures kept in s.jobs ==> kept in Trimmed(s, kept).jobs
  {
    EvictedFacts(s, s.jobs, kept);
  }

  // The finished jobs other than `kept`, in submission order.
  function Candidates(s: State, ts: seq<nat>, kept: nat): seq<nat> {
    if ts == [] then []
    else if Evictable(s.heap, ts[0], kept) then [ts[0]] + Candidates(s, ts[1..], kept)
    else Candidates(s, ts[1..], kept)
  }

  function DropAll(ts: seq<nat>, gone: seq<nat>): seq<nat>
    decreases |gone|
  {
    if gone == [] then ts else DropAll(Drop(ts, gone[0]), gone[1..])
  }

  // Dropping the first `k` candidates is what the loop did, and no shorter prefix would do.
  ghost predicate ShortestPrefix(s: State, r: State, c: seq<nat>, k: nat) {
    && k <= |c|
    && r.jobs == DropAll(s.jobs, c[..k])
    && r.retained == s.retained - Sum(c[..k], s.heap, Bytes)
    && (r.retained <= MAX_RETAINED_RESULT_BYTES || k == |c|)
    && forall j :: 0 <= j < k ==> s.retained - Sum(c[..j], s.heap, Bytes) > MAX_RETAINED_RESULT_BYTES
  }

  lemma CandidatesStable(s: State, s': State, ts: seq<nat>, kept: nat)
    requires s'.heap == s.heap
    ensures Candidates(s', ts, kept) == Candidates(s, ts, kept)
  {
  }

  // One more candidate at the front of the evicted prefix.
  lemma ShortestCons(s: State, s': State, r: State, t: nat, c: seq<nat>, k: nat)
    requires s'.heap == s.heap && s'.jobs == Drop(s.jobs, t) && s'.retained == s.retained - Weight(s.heap, t, Bytes)
    requires s.retained > MAX_RETAINED_RESULT_BYTES
    requires if s'.retained > MAX_RETAINED_RESULT_BYTES then ShortestPrefix(s', r, c, k) else r == s' && k == 0
    ensures ShortestPrefix(s, r, [t] + c, k + 1)
  {
    var d := [t] + c;
    assert forall j :: 0 <= j <= |c| ==> d[..j + 1] == [t] + c[..j];
    var w := Weight(s.heap, t, Bytes);
    assert forall j :: 0 <= j <= |c| ==> Sum(d[..j + 1], s.heap, Bytes) == w + Sum(c[..j], s.heap, Bytes) by {
      forall j | 0 <= j <= |c|
        ensures Sum(d[..j + 1], s.heap, Bytes) == w + Sum(c[..j], s.heap, Bytes)
      {
        assert ([t] + c[..j])[1..] == c[..j];
      }
    }
    forall j | 0 <= j < k + 1 ensures s.retained - Sum(d[..j], s.heap, Bytes) > MAX_RETAINED_RESULT_BYTES {
      if j > 0 {
        assert d[..(j - 1) + 1] == [t] + c[..j - 1];
      }
    }
    assert d[..k + 1] == [t] + c[..k] && ([t] + c[..k])[1..] == c[..k];
  }

  lemma EvictedUnfold(s: State, ts: seq<nat>, kept: nat)
    requires ts != []
    ensures !Evictable(s.heap, ts[0], kept) ==>
      Evicted(s, ts, kept) == Evicted(s, ts[1..], kept) && Candidates(s, ts, kept) == Candidates(s, ts[1..], kept)
    ensures Evictable(s.heap, ts[0], kept) ==>
      var s' := Deleted(s, ts[0]);
      && Evicted(s, ts, kept) == (if s'.retained <= MAX_RETAINED_RESULT_BYTES then s' else Evicted(s', ts[1..], kept))
      && Candidates(s, ts, kept) == [ts[0]] + Candidates(s, ts[1..], kept)
  {
  }

  lemma ShortestNone(s: State, kept: nat)
    ensures ShortestPrefix(s, Evicted(s, [], kept), Candidates(s, [], kept), 0)
  {
    assert s.retained - Sum([], s.heap, Bytes) == s.retained;
  }

  lemma ShortestSkip(s: State, ts: seq<nat>, kept: nat, k: nat)
    requires ts != [] && !Evictable(s.heap, ts[0], kept)
    requires ShortestPrefix(s, Evicted(s, ts[1..], kept), Candidates(s, ts[1..], kept), k)
    ensures ShortestPrefix(s, Evicted(s, ts, kept), Candidates(s, ts, kept), k)
  {
    EvictedUnfold(s, ts, kept);
  }

  lemma ShortestTake(s: State, ts: seq<nat>, kept: nat, k: nat)
    requires ts != [] && Evictable(s.heap, ts[0], kept) && s.retained > MAX_RETAINED_RESULT_BYTES
    requires Ledger(s) && ts[0] in s.jobs
    requires var s' := Deleted(s, ts[0]);
      if s'.retained > MAX_RETAINED_RESULT_BYTES
      then ShortestPrefix(s', Evicted(s', ts[1..], kept), Candidates(s', ts[1..], kept), k) else k == 0
    ensures ShortestPrefix(s, Evicted(s, ts, kept), Candidates(s, ts, kept), k + 1)
  {
    var s' := Deleted(s, ts[0]);
    EvictedUnfold(s, ts, kept);
    DeletedFacts(s, ts[0]);
    CandidatesStable(s, s', ts[1..], kept);
    ShortestCons(s, s', Evicted(s, ts, kept), ts[0], Candidates(s, ts[1..], kept), k);
  }

  // What a trim or an eviction pass is supposed to be, for some length of the prefix.
  ghost predicate Shortest(s: State, r: State, c: seq<nat>) {
    exists k: nat :: ShortestPrefix(s, r, c, k)
  }

  lemma {:induction false} EvictedShortest(s: State, ts: seq<nat>, kept: nat)
    requires Ledger(s) && Distinct(ts) && forall t :: t in ts ==> t in s.jobs
    requires s.retained > MAX_RETAINED_RESULT_BYTES
    ensures Shortest(s, Evicted(s, ts, kept), Candidates(s, ts, kept))
    decreases |ts|
  {
    if ts == [] {
      ShortestNone(s, kept);
    } else if !Evictable(s.heap, ts[0], kept) {
      EvictedShortest(s, ts[1..], kept);
      var k: nat :| ShortestPrefix(s, Evicted(s, ts[1..], kept), Candidates(s, ts[1..], kept), k);
      ShortestSkip(s, ts, kept, k);
    } else {
      var s' := Deleted(s, ts[0]);
      var k: nat := 0;
      DeletedFacts(s, ts[0]);
      if s'.retained > MAX_RETAINED_RESULT_BYTES {
        assert ts[0] !in ts[1..];
        EvictedShortest(s', ts[1..], kept);
        k :| ShortestPrefix(s', Evicted(s', ts[1..], kept), Candidates(s', ts[1..], kept), k);
      }
      ShortestTake(s, ts, kept, k);
    }
  }

  // A trim evicts exactly the shortest submission-order prefix of the finished jobs other than
  // the protected one that brings the retained bytes back under the cap, or all of them.
  lemma TrimIsShortest(s: State, kept: nat)
    requires Ledger(s)
    ensures Shortest(s, Trimmed(s, kept), Candidates(s, s.jobs, kept))
  {
    if s.retained <= MAX_RETAINED_RESULT_BYTES {
      assert ShortestPrefix(s, s, Candidates(s, s.jobs, kept), 0);
    } else {
      EvictedShortest(s, s.jobs, kept);
    }
  }

  // ---------------------------------------------------------------- steps keep the invariant

  lemma DroppedInv(a: State, b: State, cap: nat, out: set<nat>, slack: int)
    requires Inv(a, cap, out, slack) && OnlyDropped(a, b)
    ensures Inv(b, cap, out, slack)
  {
    Unfold(a, cap, out, slack);
    assert Sum(b.jobs, b.heap, Payload) == Sum(a.jobs, a.heap, Payload);
    assert Sum(b.jobs, b.heap, Running) == Sum(a.jobs, a.heap, Running);
    Fold(b, cap, out, slack);
  }

  lemma TrimInv(s: State, t: nat, cap: nat, out: set<nat>, slack: int)
    requires Inv(s, cap, out, slack)
    ensures Inv(Trimmed(s, t), cap, out, slack) && OnlyDropped(s, Trimmed(s, t))
    ensures t in s.jobs ==> t in Trimmed(s, t).jobs
  {
    InvLedger(s, cap, out, slack);
    TrimmedFacts(s, t);
    DroppedInv(s, Trimmed(s, t), cap, out, slack);
  }

  lemma InvLedger(s: State, cap: nat, out: set<nat>, slack: int)
    requires Inv(s, cap, out, slack)
    ensures Ledger(s)
  {
    Unfold(s, cap, out, slack);
  }

  // What the invariant says of one job.
  lemma JobFacts(s: State, t: nat, cap: nat, out: set<nat>, slack: int)
    requires Inv(s, cap, out, slack)
    ensures t in s.jobs ==> t in s.heap
    ensures t in s.heap ==> Sound(s.heap[t]) && (s.heap[t].phase != Complete ==> t in s.jobs)
    ensures t in s.jobs ==> s.heap[t].payload <= s.inFlight && s.heap[t].bytes <= s.retained
    ensures t in s.heap && s.heap[t].phase == Active ==> s.active > slack
    ensures s.active <= cap
  {
    Unfold(s, cap, out, slack);
    if t in s.jobs {
      SumMember(s.jobs, s.heap, t, Payload);
      SumMember(s.jobs, s.heap, t, Bytes);
      SumMember(s.jobs, s.heap, t, Running);
    }
  }

  // The three ways a job's place in the queues may change with its new state `j`.
  ghost predicate Restanding(a: Job, j: Job, t: nat, out: set<nat>, out': set<nat>) {
    && j.priority == a.priority
    && ((a.phase != Queued && j.phase != Queued && (j.phase == Active ==> a.phase == Active) && out' == out)
        || (a.phase == Queued && j.phase == Complete && out' == out - {t})
        || (a.phase == Queued && j.phase == Active && out == {t} && out' == {}))
  }

  lemma LinedUpdate(s: State, s': State, t: nat, j: Job, out: set<nat>, out': set<nat>)
    requires Lined(s, out) && t in s.heap && s'.heap == s.heap[t := j]
    requires s'.iq == s.iq && s'.ih == s.ih && s'.bq == s.bq && s'.bh == s.bh
    requires Restanding(s.heap[t], j, t, out, out')
    ensures Lined(s', out')
  {
  }

  lemma BalancedUpdate(s: State, s': State, t: nat, j: Job, slack: int, slack': int)
    requires Tracked(s) && Balanced(s, slack) && t in s.jobs && t in s.heap
    requires s'.jobs == s.jobs && s'.heap == s.heap[t := j] && j.payload <= s.heap[t].payload
    requires s'.inFlight == s.inFlight + j.payload - s.heap[t].payload
    requires s'.retained == s.retained + j.bytes - s.heap[t].bytes
    requires s'.active - slack' == s.active - slack
             + (if j.phase == Active then 1 else 0) - (if s.heap[t].phase == Active then 1 else 0)
    ensures Balanced(s', slack')
  {
    SumUpdate(s.jobs, s.heap, t, j, Payload);
    SumUpdate(s.jobs, s.heap, t, j, Bytes);
    SumUpdate(s.jobs, s.heap, t, j, Running);
  }

  // One job changes to `j` and the counters move by its differences.
  lemma UpdateInv(s: State, s': State, t: nat, j: Job, cap: nat, out: set<nat>, out': set<nat>, slack: int, slack': int)
    requires Inv(s, cap, out, slack) && t in s.jobs && t in s.heap
    requires s' == s.(heap := s.heap[t := j], active := s'.active, inFlight := s'.inFlight, retained := s'.retained)
    requires Sound(j) && (s.heap[t].phase == Complete ==> j.phase == Complete) && j.payload <= s.heap[t].payload
    requires s'.inFlight == s.inFlight + j.payload - s.heap[t].payload
    requires s'.retained == s.retained + j.bytes - s.heap[t].bytes
    requires s'.active - slack' == s.active - slack
             + (if j.phase == Active then 1 else 0) - (if s.heap[t].phase == Active then 1 else 0)
    requires s'.active <= cap && Restanding(s.heap[t], j, t, out, out')
    ensures Inv(s', cap, out', slack')
  {
    Unfold(s, cap, out, slack);
    BalancedUpdate(s, s', t, j, slack, slack');
    LinedUpdate(s, s', t, j, out, out');
    Fold(s', cap, out', slack');
  }

  // Job `t` became `j`, finished jobs may have left the map, the queues did not move.
  ghost predicate Rewritten(a: State, b: State, t: nat, j: Job) {
    && b == a.(heap := a.heap[t := j], jobs := b.jobs, inFlight := b.inFlight, retained := b.retained)
    && forall x :: x in b.jobs ==> x in a.jobs
  }

  lemma StoredInv(s: State, t: nat, r: RunResult, cap: nat, out: set<nat>, slack: int)
    requires Inv(s, cap, out, slack) && t in s.jobs && t in s.heap && s.heap[t].phase != Queued
    ensures Inv(Stored(s, t, r), cap, out, slack)
    ensures t in Stored(s, t, r).jobs
    ensures Rewritten(s, Stored(s, t, r), t, s.heap[t].(result := Some(r), bytes := r.size))
  {
    ResultPut(s, t, r, cap, out, slack);
    var j := s.heap[t].(result := Some(r), bytes := r.size);
    TrimInv(s.(retained := s.retained - s.heap[t].bytes + r.size, heap := s.heap[t := j]), t, cap, out, slack);
  }

  // A result is stored and accounted, and nothing trimmed yet.
  lemma ResultPut(s: State, t: nat, r: RunResult, cap: nat, out: set<nat>, slack: int)
    requires Inv(s, cap, out, slack) && t in s.jobs && t in s.heap && s.heap[t].phase != Queued
    ensures var j := s.heap[t].(result := Some(r), bytes := r.size);
      Inv(s.(retained := s.retained - s.heap[t].bytes + r.size, heap := s.heap[t := j]), cap, out, slack)
  {
    var j := s.heap[t].(result := Some(r), bytes := r.size);
    var s' := s.(retained := s.retained - s.heap[t].bytes + r.size, heap := s.heap[t := j]);
    JobFacts(s, t, cap, out, slack);
    UpdateInv(s, s', t, j, cap, out, out, slack, slack);
  }

  // Completing a job gives back exactly its payload: the clamp in `Released` never bites.
  lemma ClosedInv(s: State, t: nat, cap: nat, out: set<nat>, slack: int)
    requires Inv(s, cap, out, slack) && t in s.heap && s.heap[t].phase != Complete
    ensures var s' := Released(Phased(s, t, Complete), t);
      && Inv(s', cap, if s.heap[t].phase == Queued then out - {t} else out,
             slack + if s.heap[t].phase == Active then 1 else 0)
      && s' == s.(heap := s.heap[t := s.heap[t].(phase := Complete, request := false, payload := 0)],
                  inFlight := s.inFlight - s.heap[t].payload)
  {
    var j := s.heap[t].(phase := Complete, request := false, payload := 0);
    var s' := Released(Phased(s, t, Complete), t);
    JobFacts(s, t, cap, out, slack);
    assert s'.heap == s.heap[t := j];
    UpdateInv(s, s', t, j, cap, out, if s.heap[t].phase == Queued then out - {t} else out,
              slack, slack + if s.heap[t].phase == Active then 1 else 0);
  }

  lemma ExpiredInv(s: State, t: nat, cap: nat, out: set<nat>)
    requires Inv(s, cap, out, 0) && t in s.heap && s.heap[t].phase == Queued
    ensures Inv(Expired(s, t), cap, out - {t}, 0)
    ensures t in Expired(s, t).jobs
    ensures Rewritten(s, Expired(s, t), t, Lapsed(s.heap[t]))
  {
    var s' := Released(Phased(s, t, Complete), t);
    ClosedInv(s, t, cap, out, 0);
    JobFacts(s, t, cap, out, 0);
    StoredInv(s', t, EXPIRED, cap, out - {t}, 0);
    var r := Stored(s', t, EXPIRED);
    assert r.heap == s.heap[t := Lapsed(s.heap[t])];
  }

  lemma FinishedInv(s: State, t: nat, cap: nat)
    requires Inv(s, cap, {}, 0) && t in s.heap && s.heap[t].phase == Active
    ensures Inv(Finished(s, t), cap, {}, 0)
    ensures Finished(s, t).active == s.active - 1 >= 0
    ensures Finished(s, t).heap == s.heap[t := s.heap[t].(phase := Complete, request := false, payload := 0)]
    ensures t in Finished(s, t).jobs
  {
    var s' := Released(Phased(s, t, Complete), t);
    ClosedInv(s, t, cap, {}, 0);
    JobFacts(s, t, cap, {}, 0);
    TrimInv(s', t, cap, {}, 1);
    FreedInv(Trimmed(s', t), cap);
  }

  lemma FreedInv(s: State, cap: nat)
    requires Inv(s, cap, {}, 1)
    ensures Inv(s.(active := s.active - 1), cap, {}, 0)
  {
    Unfold(s, cap, {}, 1);
    Fold(s.(active := s.active - 1), cap, {}, 0);
  }

  function Begun(s: State, t: nat): State
    requires t in s.heap
  {
    Phased(s, t, Active).(active := s.active + 1)
  }

  // Starting a job that was taken off its queue.
  lemma StartedInv(s: State, t: nat, cap: nat)
    requires Inv(s, cap, {t}, 0) && s.active < cap && t in s.heap && s.heap[t].phase == Queued
    ensures Inv(Begun(s, t), cap, {}, 0)
  {
    JobFacts(s, t, cap, {t}, 0);
    UpdateInv(s, Begun(s, t), t, s.heap[t].(phase := Active), cap, {t}, {}, 0, 0);
  }

  lemma DeletedInv(s: State, t: nat, cap: nat)
    requires Inv(s, cap, {}, 0) && t in s.jobs && t in s.heap && s.heap[t].phase == Complete
    ensures Inv(Deleted(s, t), cap, {}, 0)
    ensures forall x :: x in Deleted(s, t).jobs <==> x in s.jobs && x != t
  {
    InvLedger(s, cap, {}, 0);
    DeletedFacts(s, t);
    DroppedInv(s, Deleted(s, t), cap, {}, 0);
  }

  // ---------------------------------------------------------------- the two queues as one line

  // Strict priority and FIFO in one list: every interactive job stands before every bulk job.
  function Line(s: State): seq<nat> {
    Rest(s.iq, s.ih) + Rest(s.bq, s.bh)
  }

  // From `a` to `b` the first `n` of the line were consumed and nothing else happened to the arrays.
  ghost predicate Consumed(a: State, b: State, n: nat) {
    var i, k := Rest(a.iq, a.ih), Rest(a.bq, a.bh);
    && n <= |i| + |k|
    && Rest(b.iq, b.ih) == (if n <= |i| then i[n..] else [])
    && Rest(b.bq, b.bh) == (if n <= |i| then k else k[n - |i|..])
  }

  function Popped(s: State): State {
    if s.ih < |s.iq| then s.(ih := s.ih + 1) else s.(bh := s.bh + 1)
  }

  function Compacted(s: State): State {
    var s1 := if s.ih > 1_000 && s.ih * 2 > |s.iq| && s.ih <= |s.iq| then s.(iq := s.iq[s.ih..], ih := 0) else s;
    if s1.bh > 1_000 && s1.bh * 2 > |s1.bq| && s1.bh <= |s1.bq| then s1.(bq := s1.bq[s1.bh..], bh := 0) else s1
  }

  // Compaction never changes what waits, nor the invariant.
  lemma CompactedSame(s: State, cap: nat, out: set<nat>, slack: int)
    requires Inv(s, cap, out, slack)
    ensures var c := Compacted(s);
      && Rest(c.iq, c.ih) == Rest(s.iq, s.ih) && Rest(c.bq, c.bh) == Rest(s.bq, s.bh)
      && c == s.(iq := c.iq, ih := c.ih, bq := c.bq, bh := c.bh) && Inv(c, cap, out, slack)
  {
    Unfold(s, cap, out, slack);
    Fold(Compacted(s), cap, out, slack);
  }

  // It keeps what a queue array still holds of consumed entries to a thousand or half of it, and moves
  // nothing before that.
  lemma CompactedBound(s: State)
    requires s.ih <= |s.iq| && s.bh <= |s.bq|
    ensures var c := Compacted(s);
      && (c.ih <= 1_000 || c.ih * 2 <= |c.iq|) && (c.bh <= 1_000 || c.bh * 2 <= |c.bq|)
      && (s.ih <= 1_000 || s.ih * 2 <= |s.iq| ==> c.iq == s.iq && c.ih == s.ih)
      && (s.bh <= 1_000 || s.bh * 2 <= |s.bq| ==> c.bq == s.bq && c.bh == s.bh)
  {
  }

  lemma PoppedRest(s: State)
    requires s.ih <= |s.iq| && s.bh <= |s.bq| && Line(s) != []
    ensures var i, b, s' := Rest(s.iq, s.ih), Rest(s.bq, s.bh), Popped(s);
      && Consumed(s, s', 1)
      && (i != [] ==> Line(s)[0] == i[0] && Rest(s'.iq, s'.ih) == i[1..] && Rest(s'.bq, s'.bh) == b)
      && (i == [] ==> Line(s)[0] == b[0] && Rest(s'.iq, s'.ih) == [] && Rest(s'.bq, s'.bh) == b[1..])
    ensures Popped(s) == s.(ih := Popped(s).ih, bh := Popped(s).bh)
    ensures Popped(s).ih <= |s.iq| && Popped(s).bh <= |s.bq|
  {
  }

  lemma LaneTail(q: seq<nat>, heap: map<nat, Job>, p: Priority)
    requires Lane(q, heap, p) && q != []
    ensures Lane(q[1..], heap, p) && q[0] !in q[1..] && q[0] in heap && heap[q[0]].priority == p
    ensures forall t :: t in q <==> t == q[0] || t in q[1..]
  {
    assert q == [q[0]] + q[1..];
  }

  // The head of a lane leaves it; every other queued job still waits where it did.
  lemma HeadGone(q: seq<nat>, other: seq<nat>, heap: map<nat, Job>, p: Priority, p': Priority)
    requires Lane(q, heap, p) && Lane(other, heap, p') && p != p' && q != []
    ensures q[0] in heap && Lane(q[1..], heap, p) && q[0] !in q[1..] && q[0] !in other
    ensures forall t :: t in q || t in other <==> t == q[0] || t in q[1..] || t in other
  {
    LaneTail(q, heap, p);
  }

  lemma PoppedLinedFrom(s: State, s': State, q: seq<nat>, other: seq<nat>, p: Priority, p': Priority)
    requires Lined(s, {}) && q != [] && p != p'
    requires Lane(q, s.heap, p) && Lane(other, s.heap, p')
    requires forall t :: t in Line(s) <==> t in q || t in other
    requires s'.heap == s.heap && s'.ih <= |s'.iq| && s'.bh <= |s'.bq| && |Line(s')| <= |Line(s)|
    requires Lane(Rest(s'.iq, s'.ih), s.heap, Interactive) && Lane(Rest(s'.bq, s'.bh), s.heap, Bulk)
    requires forall t :: t in Line(s') <==> t in q[1..] || t in other
    ensures q[0] in s.heap && Lined(s', if s.heap[q[0]].phase == Queued then {q[0]} else {})
  {
    HeadGone(q, other, s.heap, p, p');
    assert forall t :: t in Rest(s'.iq, s'.ih) || t in Rest(s'.bq, s'.bh) <==> t in Line(s');
  }

  lemma PoppedLined(s: State)
    requires Lined(s, {}) && Line(s) != []
    ensures var t := Line(s)[0];
      t in s.heap && Lined(Popped(s), if s.heap[t].phase == Queued then {t} else {})
  {
    PoppedRest(s);
    var i, b := Rest(s.iq, s.ih), Rest(s.bq, s.bh);
    if i != [] {
      LaneTail(i, s.heap, Interactive);
      PoppedLinedFrom(s, Popped(s), i, b, Interactive, Bulk);
    } else {
      LaneTail(b, s.heap, Bulk);
      PoppedLinedFrom(s, Popped(s), b, i, Bulk, Interactive);
    }
  }

  lemma PoppedInv(s: State, cap: nat)
    requires Inv(s, cap, {}, 0) && Line(s) != []
    ensures var t, s' := Line(s)[0], Popped(s);
      && Consumed(s, s', 1) && t in s.heap
      && Inv(s', cap, if s.heap[t].phase == Queued then {t} else {}, 0)
  {
    Unfold(s, cap, {}, 0);
    PoppedRest(s);
    PoppedLined(s);
    Fold(Popped(s), cap, if s.heap[Line(s)[0]].phase == Queued then {Line(s)[0]} else {}, 0);
  }

  // Still queued, and young enough to be worth running.
  predicate Runnable(heap: map<nat, Job>, t: nat, now: int) {
    t in heap && heap[t].phase == Queued && now - heap[t].createdAt <= QUEUE_TTL_MS
  }

  function First(ts: seq<nat>, n: nat): seq<nat> {
    if n <= |ts| then ts[..n] else ts
  }

  datatype Aspect = Queues | Objects | Others

  // A scan that passed over the first `n` of the line and consumed `k` entries of it: nobody
  // runnable was passed, and exactly the jobs passed while still queued were expired.
  ghost predicate Scan(f: Aspect, a: State, b: State, n: nat, k: nat, now: int) {
    match f
    case Queues => Consumed(a, b, k)
    case Objects => Overdue(a.heap, First(Line(a), n), now) && Aged(a.heap, b.heap, First(Line(a), n))
    case Others => b.next == a.next && b.active == a.active && forall t :: t in b.jobs ==> t in a.jobs
  }

  ghost predicate Scans(a: State, b: State, n: nat, k: nat, now: int) {
    forall f: Aspect :: Scan(f, a, b, n, k, now)
  }

  ghost predicate Scanned(a: State, b: State, n: nat, now: int) {
    Scans(a, b, n, n, now)
  }

  // `nextJob` found `t`: the first runnable job of the line, everybody before it overdue.
  ghost predicate Taken(a: State, b: State, t: nat, n: nat, now: int) {
    && n < |Line(a)| && Line(a)[n] == t && Runnable(a.heap, t, now)
    && Scans(a, b, n, n + 1, now)
  }

  lemma UnfoldScan(a: State, b: State, n: nat, k: nat, now: int)
    requires Scans(a, b, n, k, now)
    ensures Consumed(a, b, k) && k <= |Line(a)|
    ensures Overdue(a.heap, First(Line(a), n), now) && Aged(a.heap, b.heap, First(Line(a), n))
    ensures b.next == a.next && b.active == a.active && forall t :: t in b.jobs ==> t in a.jobs
  {
    assert Scan(Queues, a, b, n, k, now) && Scan(Objects, a, b, n, k, now) && Scan(Others, a, b, n, k, now);
  }

  ghost predicate Overdue(heap: map<nat, Job>, passed: seq<nat>, now: int) {
    forall t :: t in passed ==> !Runnable(heap, t, now)
  }

  ghost predicate Aged(heap: map<nat, Job>, heap': map<nat, Job>, passed: seq<nat>) {
    && heap'.Keys == heap.Keys
    && forall t :: t in heap ==>
         heap'[t] == if t in passed && heap[t].phase == Queued then Lapsed(heap[t]) else heap[t]
  }

  lemma AgedMore(heap: map<nat, Job>, heap': map<nat, Job>, passed: seq<nat>, t: nat)
    requires Aged(heap, heap', passed) && t in heap && t !in passed
    ensures Aged(heap, if heap'[t].phase == Queued then heap'[t := Lapsed(heap'[t])] else heap', passed + [t])
  {
  }

  lemma LineDistinct(s: State, out: set<nat>)
    requires Lined(s, out)
    ensures Distinct(Line(s))
  {
    var i, b := Rest(s.iq, s.ih), Rest(s.bq, s.bh);
    forall x, y | 0 <= x < y < |Line(s)| ensures Line(s)[x] != Line(s)[y] {
      if x < |i| <= y {
        assert i[x] in i && b[y - |i|] in b;
      }
    }
  }

  lemma LineConsumed(a: State, b: State, n: nat)
    requires Consumed(a, b, n)
    ensures Line(b) == Line(a)[n..]
  {
  }

  lemma ConsumedMore(a: State, b: State, c: State, n: nat, k: nat)
    requires Consumed(a, b, n) && Consumed(b, c, k)
    ensures Consumed(a, c, n + k)
  {
  }

  function Skipped(s: State): State
    requires Line(s) != []
  {
    var t, s' := Line(s)[0], Popped(s);
    if t in s'.heap && s'.heap[t].phase == Queued then Expired(s', t) else s'
  }

  lemma SkippedInv(s: State, cap: nat)
    requires Inv(s, cap, {}, 0) && Line(s) != []
    ensures var t, r := Line(s)[0], Skipped(s);
      && Inv(r, cap, {}, 0) && Consumed(s, r, 1) && t in s.heap
      && r.heap == (if s.heap[t].phase == Queued then s.heap[t := Lapsed(s.heap[t])] else s.heap)
      && r.next == s.next && r.active == s.active && forall x :: x in r.jobs ==> x in s.jobs
  {
    Unfold(s, cap, {}, 0);
    var t := Line(s)[0];
    PoppedRest(s);
    PoppedInv(s, cap);
    if s.heap[t].phase == Queued {
      ExpiredInv(Popped(s), t, cap, {t});
      assert {t} - {t} == {};
    }
  }

  lemma NextOf(l: seq<nat>, n: nat)
    requires Distinct(l) && n < |l|
    ensures First(l, n + 1) == First(l, n) + [l[n]] && l[n] !in First(l, n) && l[n..][0] == l[n]
  {
  }

  // One more job passed over by the scan.
  lemma SkippedScan(a: State, s: State, n: nat, now: int, cap: nat)
    requires Distinct(Line(a)) && Inv(s, cap, {}, 0) && Scanned(a, s, n, now)
    requires Line(s) != [] && !Runnable(s.heap, Line(s)[0], now)
    ensures Inv(Skipped(s), cap, {}, 0) && Scanned(a, Skipped(s), n + 1, now)
  {
    var r, l, t := Skipped(s), Line(a), Line(s)[0];
    SkippedInv(s, cap);
    ScanAdvance(a, s, r, n, t, now);
  }

  lemma ScanAdvance(a: State, s: State, r: State, n: nat, t: nat, now: int)
    requires Distinct(Line(a)) && Scanned(a, s, n, now)
    requires Line(s) != [] && Line(s)[0] == t && t in s.heap && !Runnable(s.heap, t, now) && Consumed(s, r, 1)
    requires r.heap == (if s.heap[t].phase == Queued then s.heap[t := Lapsed(s.heap[t])] else s.heap)
    requires r.next == s.next && r.active == s.active && forall x :: x in r.jobs ==> x in s.jobs
    ensures Scanned(a, r, n + 1, now)
  {
    UnfoldScan(a, s, n, n, now);
    ConsumedMore(a, s, r, n, 1);
    assert Scan(Queues, a, r, n + 1, n + 1, now);
    ObjectsAdvance(a, s, r, n, t, now);
    assert Scan(Others, a, r, n + 1, n + 1, now);
  }

  lemma ObjectsAdvance(a: State, s: State, r: State, n: nat, t: nat, now: int)
    requires Distinct(Line(a)) && Scanned(a, s, n, now)
    requires Line(s) != [] && Line(s)[0] == t && t in s.heap && !Runnable(s.heap, t, now)
    requires r.heap == (if s.heap[t].phase == Queued then s.heap[t := Lapsed(s.heap[t])] else s.heap)
    ensures Scan(Objects, a, r, n + 1, n + 1, now)
  {
    UnfoldScan(a, s, n, n, now);
    LineConsumed(a, s, n);
    NextOf(Line(a), n);
    AgedMore(a.heap, s.heap, First(Line(a), n), t);
    OverdueMore(a.heap, s.heap, First(Line(a), n), t, now);
  }

  lemma OverdueMore(heap: map<nat, Job>, heap': map<nat, Job>, passed: seq<nat>, t: nat, now: int)
    requires Overdue(heap, passed, now) && Aged(heap, heap', passed) && t !in passed && !Runnable(heap', t, now)
    ensures Overdue(heap, passed + [t], now)
  {
  }

  lemma TakenNow(a: State, s: State, n: nat, now: int, cap: nat)
    requires Distinct(Line(a)) && Inv(s, cap, {}, 0) && Scanned(a, s, n, now)
    requires Line(s) != [] && Runnable(s.heap, Line(s)[0], now)
    ensures Taken(a, Popped(s), Line(s)[0], n, now) && Inv(Popped(s), cap, {Line(s)[0]}, 0)
  {
    InvKnown(s, cap);
    PoppedRest(s);
    PoppedInv(s, cap);
    TakeAdvance(a, s, Popped(s), n, Line(s)[0], now);
  }

  lemma TakeAdvance(a: State, s: State, r: State, n: nat, t: nat, now: int)
    requires Distinct(Line(a)) && Scanned(a, s, n, now)
    requires Line(s) != [] && Line(s)[0] == t && Runnable(s.heap, t, now) && Consumed(s, r, 1)
    requires r.heap == s.heap && r.next == s.next && r.active == s.active && r.jobs == s.jobs
    ensures Taken(a, r, t, n, now)
  {
    UnfoldScan(a, s, n, n, now);
    ConsumedMore(a, s, r, n, 1);
    assert Scan(Queues, a, r, n, n + 1, now);
    assert Scan(Objects, a, r, n, n + 1, now);
    assert Scan(Others, a, r, n, n + 1, now);
    HeadInLine(a, s, n, t, now);
  }

  lemma HeadInLine(a: State, s: State, n: nat, t: nat, now: int)
    requires Distinct(Line(a)) && Scanned(a, s, n, now)
    requires Line(s) != [] && Line(s)[0] == t && Runnable(s.heap, t, now)
    ensures n < |Line(a)| && Line(a)[n] == t && Runnable(a.heap, t, now)
  {
    UnfoldScan(a, s, n, n, now);
    LineConsumed(a, s, n);
    NextOf(Line(a), n);
  }

  lemma TakenCompacted(a: State, s: State, t: nat, n: nat, now: int, cap: nat)
    requires Taken(a, s, t, n, now) && Inv(s, cap, {t}, 0)
    ensures Taken(a, Compacted(s), t, n, now) && Inv(Compacted(s), cap, {t}, 0)
  {
    CompactedSame(s, cap, {t}, 0);
    UnfoldScan(a, s, n, n + 1, now);
  }

  // ---------------------------------------------------------------- the scan of `nextJob`

  // All that the code needs to run at all: cursors inside the arrays, no dangling token.
  predicate Known(s: State) {
    && s.ih <= |s.iq| && s.bh <= |s.bq|
    && (forall t :: t in s.jobs ==> t in s.heap)
    && (forall t :: t in Rest(s.iq, s.ih) ==> t in s.heap)
    && (forall t :: t in Rest(s.bq, s.bh) ==> t in s.heap)
  }

  lemma {:induction false} DropSubset(ts: seq<nat>, t: nat)
    ensures forall x :: x in Drop(ts, t) ==> x in ts
  {
    if ts != [] && ts[0] != t {
      DropSubset(ts[1..], t);
    }
  }

  lemma {:induction false} EvictedShape(s: State, ts: seq<nat>, kept: nat)
    ensures var r := Evicted(s, ts, kept);
      r == s.(jobs := r.jobs, retained := r.retained) && forall x :: x in r.jobs ==> x in s.jobs
    decreases |ts|
  {
    if ts != [] {
      if Evictable(s.heap, ts[0], kept) {
        DropSubset(s.jobs, ts[0]);
        EvictedShape(Deleted(s, ts[0]), ts[1..], kept);
      } else {
        EvictedShape(s, ts[1..], kept);
      }
    }
  }

  // A step that keeps the queues, the known objects and the map's tokens.
  ghost predicate Tame(a: State, b: State) {
    && b.iq == a.iq && b.ih == a.ih && b.bq == a.bq && b.bh == a.bh
    && b.heap.Keys == a.heap.Keys && forall x :: x in b.jobs ==> x in a.jobs
  }

  lemma ExpiredTame(s: State, t: nat)
    requires t in s.heap
    ensures Tame(s, Expired(s, t))
  {
    var s' := Released(Phased(s, t, Complete), t);
    assert s'.heap.Keys == s.heap.Keys && s'.jobs == s.jobs;
    var j := s'.heap[t];
    var s2 := s'.(retained := s'.retained - j.bytes + EXPIRED.size,
                  heap := s'.heap[t := j.(result := Some(EXPIRED), bytes := EXPIRED.size)]);
    assert s2.heap.Keys == s.heap.Keys;
    EvictedShape(s2, s2.jobs, t);
  }

  lemma HeadOfLine(s: State)
    requires Known(s)
    ensures s.ih < |s.iq| ==> Line(s) != [] && Line(s)[0] == s.iq[s.ih]
    ensures s.ih >= |s.iq| && s.bh < |s.bq| ==> Line(s) != [] && Line(s)[0] == s.bq[s.bh]
    ensures s.ih >= |s.iq| && s.bh >= |s.bq| ==> Line(s) == []
    ensures |Line(s)| == |s.iq| - s.ih + |s.bq| - s.bh
  {
  }

  lemma PoppedKnown(s: State)
    requires Known(s) && Line(s) != []
    ensures Line(s)[0] in s.heap && Known(Popped(s)) && Line(Popped(s)) == Line(s)[1..]
  {
    PoppedRest(s);
    LineConsumed(s, Popped(s), 1);
    var i, b := Rest(s.iq, s.ih), Rest(s.bq, s.bh);
    assert i != [] ==> i[0] in i;
    assert i == [] && b != [] ==> b[0] in b;
  }

  lemma CompactedKnown(s: State)
    requires Known(s)
    ensures Known(Compacted(s)) && Line(Compacted(s)) == Line(s)
  {
  }

  lemma TameKnown(a: State, b: State)
    requires Known(a) && Tame(a, b)
    ensures Known(b) && Line(b) == Line(a)
  {
  }

  lemma SkippedKnown(s: State)
    requires Known(s) && Line(s) != []
    ensures Line(s)[0] in s.heap && Known(Popped(s)) && Known(Compacted(Popped(s)))
    ensures Known(Skipped(s)) && Line(Skipped(s)) == Line(s)[1..] == Line(Compacted(Popped(s)))
  {
    var t := Line(s)[0];
    PoppedKnown(s);
    CompactedKnown(Popped(s));
    if t in Popped(s).heap && Popped(s).heap[t].phase == Queued {
      ExpiredTame(Popped(s), t);
      TameKnown(Popped(s), Expired(Popped(s), t));
    }
  }

  // Where a scan ends: the state, the job taken if any, and how many were passed over before it.
  datatype Turn = Turn(found: bool, token: nat, passed: nat, state: State)

  function Next(s: State, now: int, n: nat): Turn
    decreases |Line(s)|
  {
    if !Known(s) || Line(s) == [] then Turn(false, 0, n, s)
    else
      SkippedKnown(s);
      if Runnable(s.heap, Line(s)[0], now) then Turn(true, Line(s)[0], n, Compacted(Popped(s)))
      else Next(Skipped(s), now, n + 1)
  }

  lemma {:induction false} NextKnown(s: State, now: int, n: nat)
    requires Known(s)
    ensures var r := Next(s, now, n);
      Known(r.state) && |Line(r.state)| <= |Line(s)|
      && (r.found ==> r.token in r.state.heap && |Line(r.state)| < |Line(s)|)
    decreases |Line(s)|
  {
    if Line(s) != [] {
      SkippedKnown(s);
      if !Runnable(s.heap, Line(s)[0], now) {
        NextKnown(Skipped(s), now, n + 1);
      }
    }
  }

  lemma TakeStep(a: State, s: State, n: nat, now: int, cap: nat)
    requires Distinct(Line(a)) && Inv(s, cap, {}, 0) && Scanned(a, s, n, now)
    requires Line(s) != [] && Runnable(s.heap, Line(s)[0], now)
    ensures var s' := Compacted(Popped(s));
      Taken(a, s', Line(s)[0], n, now) && Inv(s', cap, {Line(s)[0]}, 0)
  {
    TakenNow(a, s, n, now, cap);
    TakenCompacted(a, Popped(s), Line(s)[0], n, now, cap);
  }

  lemma ScannedAll(a: State, s: State, n: nat, now: int)
    requires Scanned(a, s, n, now) && Line(s) == []
    ensures n == |Line(a)|
  {
    UnfoldScan(a, s, n, n, now);
    LineConsumed(a, s, n);
  }

  lemma {:induction false} NextFrom(a: State, s: State, n: nat, now: int, cap: nat)
    requires Distinct(Line(a)) && Known(s) && Inv(s, cap, {}, 0) && Scanned(a, s, n, now)
    ensures var r := Next(s, now, n);
      if r.found then Taken(a, r.state, r.token, r.passed, now) && Inv(r.state, cap, {r.token}, 0)
      else Scanned(a, r.state, r.passed, now) && r.passed == |Line(a)| && Inv(r.state, cap, {}, 0)
    decreases |Line(s)|
  {
    if Line(s) == [] {
      ScannedAll(a, s, n, now);
      assert Next(s, now, n) == Turn(false, 0, n, s);
    } else if Runnable(s.heap, Line(s)[0], now) {
      TakeStep(a, s, n, now, cap);
      assert Next(s, now, n) == Turn(true, Line(s)[0], n, Compacted(Popped(s)));
    } else {
      SkippedKnown(s);
      SkippedScan(a, s, n, now, cap);
      NextFrom(a, Skipped(s), n + 1, now, cap);
      assert Next(s, now, n) == Next(Skipped(s), now, n + 1);
    }
  }

  lemma ScannedNothing(s: State, now: int)
    ensures Scanned(s, s, 0, now)
  {
    assert Consumed(s, s, 0);
  }

  // `nextJob` returns the first runnable job of the line, or nothing when the whole line is
  // overdue; either way exactly the overdue queued jobs before it are expired.
  lemma NextIsFirstRunnable(s: State, now: int, cap: nat)
    requires Known(s) && Inv(s, cap, {}, 0)
    ensures var r := Next(s, now, 0);
      if r.found then Taken(s, r.state, r.token, r.passed, now) && Inv(r.state, cap, {r.token}, 0)
      else Scanned(s, r.state, r.passed, now) && r.passed == |Line(s)| && Inv(r.state, cap, {}, 0)
  {
    Unfold(s, cap, {}, 0);
    LineDistinct(s, {});
    ScannedNothing(s, now);
    NextFrom(s, s, 0, now, cap);
  }

  predicate InTime(s: State, t: nat, now: int) {
    t in s.heap && s.heap[t].phase == Queued && now - s.heap[t].createdAt <= 600_000
  }

  // So the job returned is the first of the line that still waits and has waited ten minutes at most, and
  // there is none if nothing is returned.
  lemma NextInTime(s: State, now: int, cap: nat)
    requires Known(s) && Inv(s, cap, {}, 0)
    ensures var r, l := Next(s, now, 0), Line(s);
      && (r.found ==> r.passed < |l| && l[r.passed] == r.token && InTime(s, r.token, now))
      && (r.found ==> forall i :: 0 <= i < r.passed ==> !InTime(s, l[i], now))
      && (!r.found ==> forall i :: 0 <= i < |l| ==> !InTime(s, l[i], now))
  {
    var r, l := Next(s, now, 0), Line(s);
    NextIsFirstRunnable(s, now, cap);
    UnfoldScan(s, r.state, r.passed, if r.found then r.passed + 1 else r.passed, now);
    PassedLate(s, r.passed, now);
  }

  lemma PassedLate(s: State, n: nat, now: int)
    requires n <= |Line(s)| && Overdue(s.heap, First(Line(s), n), now)
    ensures forall i :: 0 <= i < n ==> !InTime(s, Line(s)[i], now)
  {
    var l := Line(s);
    forall i | 0 <= i < n
      ensures !InTime(s, l[i], now)
    {
      var t := l[i];
      assert First(l, n)[i] == t && t in First(l, n);
      assert !Runnable(s.heap, t, now);
    }
  }

  // ---------------------------------------------------------------- dispatch

  // Started, or expired for having waited too long.
  predicate Handled(a: Job, b: Job) {
    a.phase == Queued && (b == a.(phase := Active) || b == Lapsed(a))
  }

  predicate Moved(heap: map<nat, Job>, heap': map<nat, Job>, passed: seq<nat>, t: nat)
    requires t in heap && t in heap'
  {
    heap'[t] == heap[t] || (t in passed && Handled(heap[t], heap'[t]))
  }

  // A pump consumed the first `n` of the line: each queued job among them was started or, being
  // too old, expired; no other job was touched.
  ghost predicate Dispatch(f: Aspect, a: State, b: State, n: nat) {
    match f
    case Queues => Consumed(a, b, n)
    case Objects => b.heap.Keys == a.heap.Keys
                    && forall t :: t in a.heap ==> Moved(a.heap, b.heap, First(Line(a), n), t)
    case Others => b.next == a.next && forall t :: t in b.jobs ==> t in a.jobs
  }

  ghost predicate Dispatched(a: State, b: State, n: nat) {
    forall f: Aspect :: Dispatch(f, a, b, n)
  }

  lemma UnfoldDispatched(a: State, b: State, n: nat)
    requires Dispatched(a, b, n)
    ensures Consumed(a, b, n) && b.next == a.next && b.heap.Keys == a.heap.Keys
    ensures forall t :: t in a.heap ==> Moved(a.heap, b.heap, First(Line(a), n), t)
    ensures forall t :: t in b.jobs ==> t in a.jobs
  {
    assert Dispatch(Queues, a, b, n) && Dispatch(Objects, a, b, n) && Dispatch(Others, a, b, n);
  }

  lemma FoldDispatched(a: State, b: State, n: nat)
    requires Consumed(a, b, n) && b.next == a.next && b.heap.Keys == a.heap.Keys
    requires forall t :: t in a.heap ==> Moved(a.heap, b.heap, First(Line(a), n), t)
    requires forall t :: t in b.jobs ==> t in a.jobs
    ensures Dispatched(a, b, n)
  {
  }

  lemma MovedMore(h: map<nat, Job>, h': map<nat, Job>, h'': map<nat, Job>, p: seq<nat>, q: seq<nat>, t: nat)
    requires t in h && t in h' && t in h'' && Moved(h, h', p, t) && Moved(h', h'', q, t)
    ensures Moved(h, h'', p + q, t)
  {
  }

  lemma DispatchedMore(a: State, b: State, c: State, n: nat, k: nat)
    requires Dispatched(a, b, n) && Dispatched(b, c, k)
    ensures Dispatched(a, c, n + k)
  {
    QueuesMore(a, b, c, n, k);
    ObjectsMore(a, b, c, n, k);
    FoldDispatched(a, c, n + k);
  }

  lemma QueuesMore(a: State, b: State, c: State, n: nat, k: nat)
    requires Dispatched(a, b, n) && Dispatched(b, c, k)
    ensures Consumed(a, c, n + k) && c.next == a.next && forall t :: t in c.jobs ==> t in a.jobs
  {
    UnfoldDispatched(a, b, n);
    UnfoldDispatched(b, c, k);
    ConsumedMore(a, b, c, n, k);
  }

  lemma ObjectsMore(a: State, b: State, c: State, n: nat, k: nat)
    requires Dispatched(a, b, n) && Dispatched(b, c, k)
    ensures c.heap.Keys == a.heap.Keys
    ensures forall t :: t in a.heap ==> Moved(a.heap, c.heap, First(Line(a), n + k), t)
  {
    UnfoldDispatched(a, b, n);
    UnfoldDispatched(b, c, k);
    PassedMore(a, b, n, k);
    MovedAll(a.heap, b.heap, c.heap, First(Line(a), n), First(Line(b), k), First(Line(a), n + k));
  }

  lemma PassedMore(a: State, b: State, n: nat, k: nat)
    requires Consumed(a, b, n) && k <= |Line(b)|
    ensures First(Line(a), n + k) == First(Line(a), n) + First(Line(b), k)
  {
    LineConsumed(a, b, n);
    FirstSplit(Line(a), n, k);
  }

  lemma MovedAll(h: map<nat, Job>, h': map<nat, Job>, h'': map<nat, Job>, p: seq<nat>, q: seq<nat>, pq: seq<nat>)
    requires h'.Keys == h.Keys && h''.Keys == h.Keys && pq == p + q
    requires (forall t :: t in h ==> Moved(h, h', p, t)) && forall t :: t in h' ==> Moved(h', h'', q, t)
    ensures forall t :: t in h ==> Moved(h, h'', pq, t)
  {
    forall t | t in h
      ensures Moved(h, h'', pq, t)
    {
      MovedMore(h, h', h'', p, q, t);
    }
  }

  lemma FirstSplit(l: seq<nat>, n: nat, k: nat)
    requires n + k <= |l|
    ensures First(l, n + k) == First(l, n) + First(l[n..], k)
  {
  }

  lemma ScannedDispatched(a: State, b: State, n: nat, now: int)
    requires Scanned(a, b, n, now)
    ensures Dispatched(a, b, n) && Consumed(a, b, n)
  {
    UnfoldScan(a, b, n, n, now);
  }

  lemma TakenDispatched(a: State, b: State, t: nat, n: nat, now: int)
    requires Distinct(Line(a)) && Taken(a, b, t, n, now)
    ensures t in b.heap && b.heap[t].phase == Queued && Dispatched(a, Begun(b, t), n + 1)
  {
    UnfoldScan(a, b, n, n + 1, now);
    NextOf(Line(a), n);
    forall x | x in a.heap
      ensures Moved(a.heap, Begun(b, t).heap, First(Line(a), n + 1), x)
    {
      BegunMoved(a.heap, b.heap, First(Line(a), n), t, x);
    }
    FoldDispatched(a, Begun(b, t), n + 1);
  }

  lemma BegunMoved(h: map<nat, Job>, h': map<nat, Job>, p: seq<nat>, t: nat, x: nat)
    requires Aged(h, h', p) && t in h && h[t].phase == Queued && t !in p && x in h
    ensures t in h' && x in h' && Moved(h, h'[t := h'[t].(phase := Active)], p + [t], x)
  {
  }

  lemma BegunKnown(s: State, t: nat)
    requires Known(s) && t in s.heap
    ensures Known(Begun(s, t)) && Line(Begun(s, t)) == Line(s)
  {
  }

  // A job taken off its queue is started, unless its request is gone, which no queued job's is.
  function Tried(s: State, t: nat): State
    requires t in s.heap
  {
    if s.heap[t].request then Begun(s, t) else s
  }

  lemma TriedKnown(s: State, t: nat)
    requires Known(s) && t in s.heap
    ensures Known(Tried(s, t)) && Line(Tried(s, t)) == Line(s)
  {
    BegunKnown(s, t);
  }

  // The pump loop; `i` counts its readings of the clock.
  function Pumped(s: State, cap: nat, clock: nat -> int, i: nat): State
    decreases |Line(s)|
  {
    if !Known(s) || s.active >= cap || Line(s) == [] then s
    else
      var r := Next(s, clock(i), 0);
      NextKnown(s, clock(i), 0);
      if !r.found then r.state
      else TriedKnown(r.state, r.token); Pumped(Tried(r.state, r.token), cap, clock, i + 1)
  }

  lemma {:induction false} PumpedKnown(s: State, cap: nat, clock: nat -> int, i: nat)
    requires Known(s)
    ensures Known(Pumped(s, cap, clock, i))
    decreases |Line(s)|
  {
    if s.active < cap && Line(s) != [] {
      var r := Next(s, clock(i), 0);
      NextKnown(s, clock(i), 0);
      if r.found {
        TriedKnown(r.state, r.token);
        PumpedKnown(Tried(r.state, r.token), cap, clock, i + 1);
      }
    }
  }

  lemma DispatchedNothing(s: State)
    ensures Dispatched(s, s, 0)
  {
    assert Consumed(s, s, 0);
  }

  lemma PumpTakes(s: State, r: State, t: nat, n: nat, now: int, cap: nat)
    requires Inv(s, cap, {}, 0) && Taken(s, r, t, n, now) && Inv(r, cap, {t}, 0) && s.active < cap && Known(r)
    ensures t in r.heap && Inv(Begun(r, t), cap, {}, 0) && Dispatched(s, Begun(r, t), n + 1)
    ensures Known(Begun(r, t)) && Line(Begun(r, t)) == Line(r) && Tried(r, t) == Begun(r, t)
  {
    LineOnce(s, cap);
    TakenDispatched(s, r, t, n, now);
    TakenActive(s, r, t, n, now);
    JobFacts(r, t, cap, {t}, 0);
    StartedInv(r, t, cap);
    BegunKnown(r, t);
  }

  lemma LineOnce(s: State, cap: nat)
    requires Inv(s, cap, {}, 0)
    ensures Distinct(Line(s))
  {
    Unfold(s, cap, {}, 0);
    LineDistinct(s, {});
  }

  lemma TakenActive(s: State, r: State, t: nat, n: nat, now: int)
    requires Taken(s, r, t, n, now)
    ensures r.active == s.active
  {
    UnfoldScan(s, r, n, n + 1, now);
  }

  lemma PumpEnds(s: State, r: State, n: nat, now: int)
    requires Scanned(s, r, n, now) && n == |Line(s)|
    ensures Dispatched(s, r, n) && Line(r) == []
  {
    ScannedDispatched(s, r, n, now);
    LineConsumed(s, r, n);
  }

  lemma PumpedUnfold(s: State, cap: nat, clock: nat -> int, i: nat)
    requires Known(s) && s.active < cap && Line(s) != []
    ensures var r := Next(s, clock(i), 0);
      && Known(r.state) && |Line(r.state)| <= |Line(s)|
      && (!r.found ==> Pumped(s, cap, clock, i) == r.state)
      && (r.found ==> r.token in r.state.heap && |Line(r.state)| < |Line(s)|
                      && Known(Tried(r.state, r.token)) && Line(Tried(r.state, r.token)) == Line(r.state)
                      && Pumped(s, cap, clock, i) == Pumped(Tried(r.state, r.token), cap, clock, i + 1))
  {
    var r := Next(s, clock(i), 0);
    NextKnown(s, clock(i), 0);
    if r.found { TriedKnown(r.state, r.token); }
  }

  // A pump keeps the invariant and stops only when the cap is reached or nobody waits.
  lemma {:induction false} PumpedInv(s: State, cap: nat, clock: nat -> int, i: nat)
    requires Known(s) && Inv(s, cap, {}, 0)
    ensures Inv(Pumped(s, cap, clock, i), cap, {}, 0)
    ensures Pumped(s, cap, clock, i).active == cap || Line(Pumped(s, cap, clock, i)) == []
    decreases |Line(s)|
  {
    JobFacts(s, 0, cap, {}, 0);
    if s.active < cap && Line(s) != [] {
      var r := Next(s, clock(i), 0);
      PumpedUnfold(s, cap, clock, i);
      NextIsFirstRunnable(s, clock(i), cap);
      if r.found {
        PumpTakes(s, r.state, r.token, r.passed, clock(i), cap);
        PumpedInv(Begun(r.state, r.token), cap, clock, i + 1);
      } else {
        PumpEnds(s, r.state, r.passed, clock(i));
      }
    }
  }

  // It consumes a prefix of the line, starting or expiring every queued job there and touching
  // no other: strict priority, and first come first served within a class.
  lemma {:induction false} PumpedInLineOrder(s: State, cap: nat, clock: nat -> int, i: nat) returns (n: nat)
    requires Known(s) && Inv(s, cap, {}, 0)
    ensures Dispatched(s, Pumped(s, cap, clock, i), n)
    decreases |Line(s)|
  {
    if s.active >= cap || Line(s) == [] {
      n := 0;
      DispatchedNothing(s);
      assert Pumped(s, cap, clock, i) == s;
    } else {
      var r := Next(s, clock(i), 0);
      PumpedUnfold(s, cap, clock, i);
      NextIsFirstRunnable(s, clock(i), cap);
      if r.found {
        PumpTakes(s, r.state, r.token, r.passed, clock(i), cap);
        var s' := Begun(r.state, r.token);
        var k := PumpedInLineOrder(s', cap, clock, i + 1);
        n := r.passed + 1 + k;
        DispatchedMore(s, s', Pumped(s', cap, clock, i + 1), r.passed + 1, k);
      } else {
        n := r.passed;
        PumpEnds(s, r.state, r.passed, clock(i));
      }
    }
  }

  // ---------------------------------------------------------------- admission

  datatype Entry = Malformed | Request(payload: nat)
  datatype Reject = BadBatchSize | QueueFull | ResultsFull | BadEntry | PayloadFull
  datatype Admission = Refused(why: Reject) | Accepted

  function PayloadOf(e: Entry): nat {
    if e.Request? then e.payload else 0
  }

  function BatchBytes(es: seq<Entry>): nat {
    if es == [] then 0 else PayloadOf(es[0]) + BatchBytes(es[1..])
  }

  // The checks of the batch endpoint, in its order.
  function Admit(s: State, es: seq<Entry>): Admission {
    if |es| < 1 || |es| > MAX_BATCH_SIZE then Refused(BadBatchSize)
    else if |Line(s)| + |es| > MAX_QUEUED_JOBS then Refused(QueueFull)
    else if |s.jobs| + |es| > MAX_RETAINED_JOBS then Refused(ResultsFull)
    else if Malformed in es then Refused(BadEntry)
    else if s.inFlight + BatchBytes(es) > MAX_IN_FLIGHT_PAYLOAD_BYTES then Refused(PayloadFull)
    else Accepted
  }

  function Added(s: State, payload: nat, p: Priority, now: int): State {
    s.(heap := s.heap[s.next := Job(Queued, p, now, true, payload, None, 0)], next := s.next + 1,
       jobs := s.jobs + [s.next], inFlight := s.inFlight + payload,
       iq := if p == Interactive then s.iq + [s.next] else s.iq,
       bq := if p == Bulk then s.bq + [s.next] else s.bq)
  }

  // A new job goes last in its class and nowhere else. Each entry reads the clock for itself.
  function Enqueued(s: State, es: seq<Entry>, p: Priority, born: nat -> int, i: nat): State
    decreases |es|
  {
    if es == [] then s
    else Enqueued(Added(s, PayloadOf(es[0]), p, born(i)), es[1..], p, born, i + 1)
  }

  lemma LaneAppend(q: seq<nat>, heap: map<nat, Job>, t: nat, j: Job, p: Priority)
    requires Lane(q, heap, p) && t !in heap && j.phase == Queued
    ensures Lane(q, heap[t := j], p)
    ensures j.priority == p ==> Lane(q + [t], heap[t := j], p)
  {
  }

  lemma {:induction false} SumNewcomer(ts: seq<nat>, heap: map<nat, Job>, t: nat, j: Job, m: Measure)
    requires t !in ts
    ensures Sum(ts, heap[t := j], m) == Sum(ts, heap, m)
  {
    if ts != [] {
      SumNewcomer(ts[1..], heap, t, j, m);
    }
  }

  lemma AddedBalanced(s: State, payload: nat, p: Priority, now: int)
    requires Tracked(s) && Balanced(s, 0) && s.inFlight + payload <= MAX_IN_FLIGHT_PAYLOAD_BYTES
    ensures Balanced(Added(s, payload, p, now), 0)
  {
    var j := Job(Queued, p, now, true, payload, None, 0);
    var h := s.heap[s.next := j];
    assert s.next !in s.jobs;
    SumNewcomer(s.jobs, s.heap, s.next, j, Payload);
    SumNewcomer(s.jobs, s.heap, s.next, j, Bytes);
    SumNewcomer(s.jobs, s.heap, s.next, j, Running);
    SumAppend(s.jobs, h, s.next, Payload);
    SumAppend(s.jobs, h, s.next, Bytes);
    SumAppend(s.jobs, h, s.next, Running);
  }

  lemma AddedLined(s: State, payload: nat, p: Priority, now: int)
    requires Tracked(s) && Lined(s, {}) && |Line(s)| < MAX_QUEUED_JOBS
    ensures var s' := Added(s, payload, p, now);
      && Lined(s', {})
      && Rest(s'.iq, s'.ih) == Rest(s.iq, s.ih) + (if p == Interactive then [s.next] else [])
      && Rest(s'.bq, s'.bh) == Rest(s.bq, s.bh) + (if p == Bulk then [s.next] else [])
  {
    var j := Job(Queued, p, now, true, payload, None, 0);
    var s' := Added(s, payload, p, now);
    assert s.next !in s.heap;
    LaneAppend(Rest(s.iq, s.ih), s.heap, s.next, j, Interactive);
    LaneAppend(Rest(s.bq, s.bh), s.heap, s.next, j, Bulk);
    assert Rest(s'.iq, s'.ih) == Rest(s.iq, s.ih) + (if p == Interactive then [s.next] else []);
    assert Rest(s'.bq, s'.bh) == Rest(s.bq, s.bh) + (if p == Bulk then [s.next] else []);
  }

  lemma AddedInv(s: State, payload: nat, p: Priority, now: int, cap: nat)
    requires Inv(s, cap, {}, 0) && |Line(s)| < MAX_QUEUED_JOBS && |s.jobs| < MAX_RETAINED_JOBS
    requires s.inFlight + payload <= MAX_IN_FLIGHT_PAYLOAD_BYTES
    ensures Inv(Added(s, payload, p, now), cap, {}, 0)
    ensures |Line(Added(s, payload, p, now))| == |Line(s)| + 1
  {
    Unfold(s, cap, {}, 0);
    AddedBalanced(s, payload, p, now);
    AddedLined(s, payload, p, now);
    AddedTracked(s, payload, p, now);
    Fold(Added(s, payload, p, now), cap, {}, 0);
  }

  lemma AddedTracked(s: State, payload: nat, p: Priority, now: int)
    requires Tracked(s) && |s.jobs| < MAX_RETAINED_JOBS && forall t :: t in s.heap ==> Sound(s.heap[t])
    ensures var s' := Added(s, payload, p, now); Tracked(s') && forall t :: t in s'.heap ==> Sound(s'.heap[t])
  {
    assert s.next !in s.jobs;
  }

  function Fresh(next: nat, n: nat): seq<nat>
    decreases n
  {
    if n == 0 then [] else [next] + Fresh(next + 1, n - 1)
  }

  function Mine(p: Priority, lane: Priority, ts: seq<nat>): seq<nat> {
    if p == lane then ts else []
  }

  function LaneOf(s: State, lane: Priority): seq<nat> {
    if lane == Interactive then Rest(s.iq, s.ih) else Rest(s.bq, s.bh)
  }

  lemma AddedLane(s: State, payload: nat, p: Priority, now: int, lane: Priority)
    requires s.ih <= |s.iq| && s.bh <= |s.bq|
    ensures var r := Added(s, payload, p, now);
      r.ih <= |r.iq| && r.bh <= |r.bq| && LaneOf(r, lane) == LaneOf(s, lane) + Mine(p, lane, [s.next])
  {
  }

  lemma MineMore(a: seq<nat>, p: Priority, lane: Priority, x: nat, ts: seq<nat>)
    ensures (a + Mine(p, lane, [x])) + Mine(p, lane, ts) == a + Mine(p, lane, [x] + ts)
  {
  }

  lemma EnqueuedUnfold(s: State, es: seq<Entry>, p: Priority, born: nat -> int, i: nat)
    requires es != []
    ensures Enqueued(s, es, p, born, i) == Enqueued(Added(s, PayloadOf(es[0]), p, born(i)), es[1..], p, born, i + 1)
    ensures Added(s, PayloadOf(es[0]), p, born(i)).next == s.next + 1
  {
  }

  lemma FreshCons(next: nat, n: nat)
    requires n > 0
    ensures Fresh(next, n) == [next] + Fresh(next + 1, n - 1)
  {
  }

  // An accepted batch goes, whole and in order, behind everybody of its class and nowhere else.
  lemma {:induction false} EnqueuedLane(s: State, es: seq<Entry>, p: Priority, born: nat -> int, i: nat, lane: Priority)
    requires s.ih <= |s.iq| && s.bh <= |s.bq|
    ensures LaneOf(Enqueued(s, es, p, born, i), lane) == LaneOf(s, lane) + Mine(p, lane, Fresh(s.next, |es|))
    decreases |es|
  {
    if es != [] {
      var payload := PayloadOf(es[0]);
      var s' := Added(s, payload, p, born(i));
      AddedLane(s, payload, p, born(i), lane);
      EnqueuedLane(s', es[1..], p, born, i + 1, lane);
      EnqueuedUnfold(s, es, p, born, i);
      assert LaneOf(Enqueued(s, es, p, born, i), lane) == LaneOf(s', lane) + Mine(p, lane, Fresh(s.next + 1, |es| - 1));
      FreshCons(s.next, |es|);
      MineMore(LaneOf(s, lane), p, lane, s.next, Fresh(s.next + 1, |es| - 1));
    }
  }

  lemma {:induction false} EnqueuedInv(s: State, es: seq<Entry>, p: Priority, born: nat -> int, i: nat, cap: nat)
    requires Inv(s, cap, {}, 0)
    requires |Line(s)| + |es| <= MAX_QUEUED_JOBS && |s.jobs| + |es| <= MAX_RETAINED_JOBS
    requires s.inFlight + BatchBytes(es) <= MAX_IN_FLIGHT_PAYLOAD_BYTES
    ensures Inv(Enqueued(s, es, p, born, i), cap, {}, 0)
    decreases |es|
  {
    if es != [] {
      var payload := PayloadOf(es[0]);
      AddedInv(s, payload, p, born(i), cap);
      EnqueuedInv(Added(s, payload, p, born(i)), es[1..], p, born, i + 1, cap);
    }
  }

  // ---------------------------------------------------------------- the sweep

  predicate TooLong(j: Job, now: int) {
    j.phase == Queued && now - j.createdAt > QUEUE_TTL_MS
  }

  predicate TooOld(j: Job, cutoff: int) {
    j.phase == Complete && j.createdAt < cutoff
  }

  // One entry of the map: expired if overdue in its queue at `now`, then dropped if finished and created
  // before the cutoff, which was read once, before the pass.
  function Visited(s: State, t: nat, now: int, cutoff: int): State {
    if t !in s.jobs || t !in s.heap then s
    else
      var s' := if TooLong(s.heap[t], now) then Expired(s, t) else s;
      if t in s'.heap && TooOld(s'.heap[t], cutoff) then Deleted(s', t) else s'
  }

  // The entries `ts` still to visit; each reads the clock for itself.
  function SweptFrom(s: State, ts: seq<nat>, cutoff: int, clock: nat -> int, i: nat): State
    decreases |ts|
  {
    if ts == [] then s else SweptFrom(Visited(s, ts[0], clock(i), cutoff), ts[1..], cutoff, clock, i + 1)
  }

  // The whole pass: the clock's first reading gives the cutoff.
  function SweptAll(s: State, clock: nat -> int): State {
    SweptFrom(s, s.jobs, clock(0) - RESULT_TTL_MS, clock, 1)
  }

  // What a sweep may do to one job object.
  predicate SweptJob(a: Job, b: Job) {
    b == a || (a.phase == Queued && b == Lapsed(a))
  }

  ghost predicate Swept(a: State, b: State) {
    && Tame(a, b) && b.active == a.active && b.next == a.next
    && forall t :: t in a.heap ==> SweptJob(a.heap[t], b.heap[t])
  }

  predicate OldEntry(s: State, t: nat, cutoff: int) {
    t in s.jobs && t in s.heap && TooOld(s.heap[t], cutoff)
  }

  lemma VisitedInv(s: State, t: nat, now: int, cutoff: int, cap: nat)
    requires Inv(s, cap, {}, 0)
    ensures var r := Visited(s, t, now, cutoff);
      Inv(r, cap, {}, 0) && Swept(s, r) && !OldEntry(r, t, cutoff)
  {
    Unfold(s, cap, {}, 0);
    if t in s.jobs {
      var s' := s;
      if TooLong(s.heap[t], now) {
        s' := Expired(s, t);
        ExpiredInv(s, t, cap, {});
        assert {} - {t} == {};
      }
      if TooOld(s'.heap[t], cutoff) {
        DeletedInv(s', t, cap);
      }
    }
  }

  // A queued job's own visit expires it exactly if it is overdue by then, and a job it expires goes with
  // it exactly if it was created before the cutoff; otherwise its result stays in the map.
  lemma VisitedExactly(s: State, t: nat, now: int, cutoff: int, cap: nat)
    requires Inv(s, cap, {}, 0) && t in s.heap && s.heap[t].phase == Queued
    ensures var r := Visited(s, t, now, cutoff);
      && t in s.jobs
      && r.heap[t] == (if TooLong(s.heap[t], now) then Lapsed(s.heap[t]) else s.heap[t])
      && (t !in r.jobs <==> TooLong(s.heap[t], now) && s.heap[t].createdAt < cutoff)
  {
    Unfold(s, cap, {}, 0);
    if TooLong(s.heap[t], now) {
      ExpiredInv(s, t, cap, {});
      assert {} - {t} == {};
      if TooOld(Expired(s, t).heap[t], cutoff) {
        DeletedInv(Expired(s, t), t, cap);
      }
    }
  }

  lemma SweptMore(a: State, b: State, c: State)
    requires Swept(a, b) && Swept(b, c)
    ensures Swept(a, c)
  {
    forall t | t in a.heap ensures SweptJob(a.heap[t], c.heap[t]) {
      assert SweptJob(a.heap[t], b.heap[t]) && SweptJob(b.heap[t], c.heap[t]);
    }
  }

  lemma VisitedOther(s: State, x: nat, now: int, cutoff: int, cap: nat, t: nat)
    requires Inv(s, cap, {}, 0) && t != x && t in s.heap
    ensures var r := Visited(s, x, now, cutoff);
      t in r.heap && r.heap[t] == s.heap[t] && (t in r.jobs ==> t in s.jobs)
  {
    Unfold(s, cap, {}, 0);
    if x in s.jobs {
      var s' := s;
      if TooLong(s.heap[x], now) {
        s' := Expired(s, x);
        ExpiredInv(s, x, cap, {});
        assert {} - {x} == {};
      }
      if TooOld(s'.heap[x], cutoff) {
        DeletedInv(s', x, cap);
      }
    }
  }

  // A pass leaves alone the objects of the jobs it does not visit, and brings none back into the map.
  lemma {:induction false} SweptOthers(s: State, ts: seq<nat>, cutoff: int, clock: nat -> int, i: nat, cap: nat, t: nat)
    requires Inv(s, cap, {}, 0) && t !in ts && t in s.heap
    ensures var r := SweptFrom(s, ts, cutoff, clock, i);
      t in r.heap && r.heap[t] == s.heap[t] && (t in r.jobs ==> t in s.jobs)
    decreases |ts|
  {
    if ts != [] {
      VisitedInv(s, ts[0], clock(i), cutoff, cap);
      VisitedOther(s, ts[0], clock(i), cutoff, cap, t);
      SweptOthers(Visited(s, ts[0], clock(i), cutoff), ts[1..], cutoff, clock, i + 1, cap, t);
    }
  }

  // A sweep keeps the invariant, does nothing to a job object but expire a queued one, and leaves no
  // entry it visited in the map that is finished and was created before the cutoff.
  lemma {:induction false} SweptFacts(s: State, ts: seq<nat>, cutoff: int, clock: nat -> int, i: nat, cap: nat)
    requires Inv(s, cap, {}, 0)
    ensures var r := SweptFrom(s, ts, cutoff, clock, i);
      && Inv(r, cap, {}, 0) && Swept(s, r)
      && forall t :: t in ts ==> !OldEntry(r, t, cutoff)
    decreases |ts|
  {
    if ts != [] {
      var s', r := Visited(s, ts[0], clock(i), cutoff), SweptFrom(s, ts, cutoff, clock, i);
      VisitedInv(s, ts[0], clock(i), cutoff, cap);
      SweptFacts(s', ts[1..], cutoff, clock, i + 1, cap);
      SweptMore(s, s', r);
      if ts[0] !in ts[1..] && ts[0] in s'.heap {
        SweptOthers(s', ts[1..], cutoff, clock, i + 1, cap, ts[0]);
      }
    }
  }

  lemma {:induction false} SweptSplit(s: State, ts: seq<nat>, us: seq<nat>, cutoff: int, clock: nat -> int, i: nat)
    ensures SweptFrom(s, ts + us, cutoff, clock, i)
      == SweptFrom(SweptFrom(s, ts, cutoff, clock, i), us, cutoff, clock, i + |ts|)
    decreases |ts|
  {
    if ts == [] {
      assert ts + us == us;
    } else {
      assert (ts + us)[1..] == ts[1..] + us;
      SweptSplit(Visited(s, ts[0], clock(i), cutoff), ts[1..], us, cutoff, clock, i + 1);
    }
  }

  // The job at place `k` of the map, queued when the sweep begins, is expired exactly if it is overdue
  // when the sweep comes to it. If so, it is gone with its own visit, and for good, exactly if it was
  // overdue already at the cutoff reading; otherwise the visit leaves its result in the map, where a poll
  // finds it until a later sweep or an eviction for space.
  lemma SweepExactly(s: State, k: nat, clock: nat -> int, cap: nat)
    requires Inv(s, cap, {}, 0) && k < |s.jobs|
    requires s.jobs[k] in s.heap && s.heap[s.jobs[k]].phase == Queued
    ensures var t := s.jobs[k]; var j := s.heap[t]; var cutoff := clock(0) - RESULT_TTL_MS;
      var before := SweptFrom(s, s.jobs[..k], cutoff, clock, 1);
      var after := Visited(before, t, clock(k + 1), cutoff);
      var r := SweptAll(s, clock);
      && t in r.heap && r.heap[t] == (if clock(k + 1) - j.createdAt > QUEUE_TTL_MS then Lapsed(j) else j)
      && t in after.heap && after.heap[t] == r.heap[t]
      && (clock(k + 1) - j.createdAt > QUEUE_TTL_MS ==>
            (t !in after.jobs <==> clock(0) - j.createdAt > QUEUE_TTL_MS))
      && (t !in after.jobs ==> t !in r.jobs)
  {
    var t, cutoff := s.jobs[k], clock(0) - RESULT_TTL_MS;
    var before := SweptFrom(s, s.jobs[..k], cutoff, clock, 1);
    SweepAt(s, k, clock, cap);
    VisitedExactly(before, t, clock(k + 1), cutoff, cap);
    VisitedInv(before, t, clock(k + 1), cutoff, cap);
    SweptOthers(Visited(before, t, clock(k + 1), cutoff), s.jobs[k + 1..], cutoff, clock, k + 2, cap, t);
  }

  // A sweep seen from place `k`: the entries before leave that job's object alone, and the rest follow.
  lemma SweepAt(s: State, k: nat, clock: nat -> int, cap: nat)
    requires Inv(s, cap, {}, 0) && k < |s.jobs| && s.jobs[k] in s.heap
    ensures var t := s.jobs[k]; var cutoff := clock(0) - RESULT_TTL_MS;
      var before := SweptFrom(s, s.jobs[..k], cutoff, clock, 1);
      && Inv(before, cap, {}, 0) && t in before.heap && before.heap[t] == s.heap[t]
      && SweptAll(s, clock)
        == SweptFrom(Visited(before, t, clock(k + 1), cutoff), s.jobs[k + 1..], cutoff, clock, k + 2)
    ensures s.jobs[k] !in s.jobs[k + 1..]
  {
    var t, cutoff := s.jobs[k], clock(0) - RESULT_TTL_MS;
    var head, tail := s.jobs[..k], s.jobs[k + 1..];
    Unfold(s, cap, {}, 0);
    assert s.jobs == head + ([t] + tail) && ([t] + tail)[1..] == tail;
    SweptSplit(s, head, [t] + tail, cutoff, clock, 1);
    SweptFacts(s, head, cutoff, clock, 1, cap);
    SweptOthers(s, head, cutoff, clock, 1, cap, t);
  }

  // And it happens: a job exactly as old as the limit at the cutoff reading, and a tick older when the
  // sweep comes to it, is expired and stays in the map with its result.
  lemma ExpiredResultServed(s: State, t: nat, clock: nat -> int, cap: nat)
    requires Inv(s, cap, {}, 0) && s.jobs == [t] && t in s.heap && s.heap[t].phase == Queued
    requires clock(0) - s.heap[t].createdAt == QUEUE_TTL_MS && clock(1) == clock(0) + 1
    ensures var r := SweptAll(s, clock); t in r.jobs && t in r.heap && r.heap[t] == Lapsed(s.heap[t])
  {
    var cutoff := clock(0) - RESULT_TTL_MS;
    SweepExactly(s, 0, clock, cap);
    assert s.jobs[..0] == [] && [t][1..] == [];
    assert SweptFrom(s, [t], cutoff, clock, 1) == SweptFrom(Visited(s, t, clock(1), cutoff), [], cutoff, clock, 2);
  }

  // ---------------------------------------------------------------- who leaves the map

  lemma {:induction false} SumGrows(ts: seq<nat>, heap: map<nat, Job>, heap': map<nat, Job>, m: Measure)
    requires forall t :: t in ts ==> Weight(heap, t, m) <= Weight(heap', t, m)
    ensures Sum(ts, heap, m) <= Sum(ts, heap', m)
  {
    if ts != [] {
      SumGrows(ts[1..], heap, heap', m);
    }
  }

  lemma {:induction false} SumSubset(ts: seq<nat>, us: seq<nat>, heap: map<nat, Job>, m: Measure)
    requires Distinct(ts) && Distinct(us) && forall t :: t in ts ==> t in us
    ensures Sum(ts, heap, m) <= Sum(us, heap, m)
    decreases |ts|
  {
    if ts != [] {
      assert ts[0] !in ts[1..];
      DropFacts(us, ts[0]);
      SumDrop(us, heap, ts[0], m);
      SumSubset(ts[1..], Drop(us, ts[0]), heap, m);
    }
  }

  // Objects last: they keep their age, their bytes do not shrink, and a finished one stays finished.
  ghost predicate Lasts(a: State, b: State) {
    forall t :: t in a.heap ==>
      && t in b.heap && b.heap[t].createdAt == a.heap[t].createdAt && a.heap[t].bytes <= b.heap[t].bytes
      && (a.heap[t].phase == Complete ==> b.heap[t].phase == Complete)
  }

  // From `a` to `b` a token left the map only with a finished job, and only because that was created
  // before the cutoff of a sweep, or because with all the jobs of `a` the results would pass the cap.
  ghost predicate Gone(a: State, b: State, t: nat, cutoff: Option<int>) {
    && t in b.heap && b.heap[t].phase == Complete
    && ((cutoff.Some? && b.heap[t].createdAt < cutoff.value) || Sum(a.jobs, b.heap, Bytes) > 64 * 1024 * 1024)
  }

  ghost predicate Left(a: State, b: State, cutoff: Option<int>) {
    && Lasts(a, b) && Distinct(a.jobs) && (forall t :: t in a.jobs ==> t in a.heap)
    && Distinct(b.jobs) && (forall t :: t in b.jobs ==> t in a.jobs)
    && forall t :: t in a.jobs && t !in b.jobs ==> Gone(a, b, t, cutoff)
  }

  lemma LeftMore(a: State, b: State, c: State, cutoff: Option<int>)
    requires Left(a, b, cutoff) && Left(b, c, cutoff)
    ensures Left(a, c, cutoff)
  {
    SumGrows(a.jobs, b.heap, c.heap, Bytes);
    SumSubset(b.jobs, a.jobs, c.heap, Bytes);
    forall t | t in a.jobs && t !in c.jobs
      ensures Gone(a, c, t, cutoff)
    {
      if t in b.jobs {
        assert Gone(b, c, t, cutoff);
      } else {
        assert Gone(a, b, t, cutoff);
      }
    }
  }

  // A step that leaves the map alone.
  lemma LeftNone(a: State, b: State, cutoff: Option<int>)
    requires Lasts(a, b) && Distinct(a.jobs) && (forall t :: t in a.jobs ==> t in a.heap) && b.jobs == a.jobs
    ensures Left(a, b, cutoff)
  {
  }

  lemma LeftTrim(s: State, kept: nat, cutoff: Option<int>)
    requires Ledger(s) && forall t :: t in s.jobs ==> t in s.heap
    ensures Left(s, Trimmed(s, kept), cutoff)
  {
    TrimmedFacts(s, kept);
  }

  lemma JobsKnown(s: State, cap: nat, out: set<nat>, slack: int)
    requires Inv(s, cap, out, slack)
    ensures Ledger(s) && forall t :: t in s.jobs ==> t in s.heap
  {
    Unfold(s, cap, out, slack);
  }

  lemma StoredLeft(s: State, t: nat, r: RunResult, cap: nat, out: set<nat>, slack: int, cutoff: Option<int>)
    requires Inv(s, cap, out, slack) && t in s.jobs && t in s.heap && s.heap[t].phase != Queued
    requires s.heap[t].result.None?
    ensures Left(s, Stored(s, t, r), cutoff)
  {
    var j := s.heap[t].(result := Some(r), bytes := r.size);
    var s' := s.(retained := s.retained - s.heap[t].bytes + r.size, heap := s.heap[t := j]);
    JobFacts(s, t, cap, out, slack);
    ResultPut(s, t, r, cap, out, slack);
    JobsKnown(s, cap, out, slack);
    JobsKnown(s', cap, out, slack);
    LeftNone(s, s', cutoff);
    LeftTrim(s', t, cutoff);
    LeftMore(s, s', Trimmed(s', t), cutoff);
  }

  lemma ClosedLeft(s: State, t: nat, cap: nat, out: set<nat>, slack: int, cutoff: Option<int>)
    requires Inv(s, cap, out, slack) && t in s.heap && s.heap[t].phase != Complete
    ensures Left(s, Released(Phased(s, t, Complete), t), cutoff)
  {
    ClosedInv(s, t, cap, out, slack);
    JobsKnown(s, cap, out, slack);
    LeftNone(s, Released(Phased(s, t, Complete), t), cutoff);
  }

  lemma ExpiredLeft(s: State, t: nat, cap: nat, out: set<nat>, cutoff: Option<int>)
    requires Inv(s, cap, out, 0) && t in s.heap && s.heap[t].phase == Queued
    ensures Left(s, Expired(s, t), cutoff)
  {
    var s' := Released(Phased(s, t, Complete), t);
    JobFacts(s, t, cap, out, 0);
    ClosedInv(s, t, cap, out, 0);
    ClosedLeft(s, t, cap, out, 0, cutoff);
    StoredLeft(s', t, EXPIRED, cap, out - {t}, 0, cutoff);
    LeftMore(s, s', Expired(s, t), cutoff);
  }

  lemma FinishedLeft(s: State, t: nat, cap: nat)
    requires Inv(s, cap, {}, 0) && t in s.heap && s.heap[t].phase == Active
    ensures Left(s, Finished(s, t), None)
  {
    var s' := Released(Phased(s, t, Complete), t);
    ClosedInv(s, t, cap, {}, 0);
    ClosedLeft(s, t, cap, {}, 0, None);
    JobsKnown(s', cap, {}, 1);
    LeftTrim(s', t, None);
    LeftMore(s, s', Trimmed(s', t), None);
  }

  lemma SkippedLeft(s: State, cap: nat)
    requires Inv(s, cap, {}, 0) && Line(s) != []
    ensures Left(s, Skipped(s), None)
  {
    Unfold(s, cap, {}, 0);
    var t, s' := Line(s)[0], Popped(s);
    PoppedRest(s);
    PoppedInv(s, cap);
    LeftNone(s, s', None);
    if s.heap[t].phase == Queued {
      ExpiredLeft(s', t, cap, {t}, None);
      LeftMore(s, s', Skipped(s), None);
    }
  }

  lemma TurnLeft(s: State, cap: nat)
    requires Inv(s, cap, {}, 0) && Line(s) != []
    ensures Left(s, Compacted(Popped(s)), None)
  {
    Unfold(s, cap, {}, 0);
    PoppedRest(s);
    LeftNone(s, Compacted(Popped(s)), None);
  }

  lemma {:induction false} NextLeft(s: State, now: int, n: nat, cap: nat)
    requires Known(s) && Inv(s, cap, {}, 0)
    ensures Left(s, Next(s, now, n).state, None)
    decreases |Line(s)|
  {
    if Line(s) == [] {
      JobsKnown(s, cap, {}, 0);
      LeftNone(s, s, None);
    } else if Runnable(s.heap, Line(s)[0], now) {
      TurnLeft(s, cap);
    } else {
      SkippedKnown(s);
      SkippedInv(s, cap);
      SkippedLeft(s, cap);
      NextLeft(Skipped(s), now, n + 1, cap);
      LeftMore(s, Skipped(s), Next(Skipped(s), now, n + 1).state, None);
    }
  }

  lemma BegunLeft(s: State, t: nat)
    requires Distinct(s.jobs) && (forall x :: x in s.jobs ==> x in s.heap)
    requires t in s.heap && s.heap[t].phase == Queued
    ensures Left(s, Begun(s, t), None)
  {
    LeftNone(s, Begun(s, t), None);
  }

  // A pump drops a token only when results pass the cap.
  lemma {:induction false} PumpedLeft(s: State, cap: nat, clock: nat -> int, i: nat)
    requires Known(s) && Inv(s, cap, {}, 0)
    ensures Left(s, Pumped(s, cap, clock, i), None)
    decreases |Line(s)|
  {
    JobsKnown(s, cap, {}, 0);
    if s.active >= cap || Line(s) == [] {
      LeftNone(s, s, None);
    } else {
      var r := Next(s, clock(i), 0);
      PumpedUnfold(s, cap, clock, i);
      NextIsFirstRunnable(s, clock(i), cap);
      NextLeft(s, clock(i), 0, cap);
      if r.found {
        PumpTakes(s, r.state, r.token, r.passed, clock(i), cap);
        TakenQueued(r.state, r.token, cap);
        BegunLeft(r.state, r.token);
        LeftMore(s, r.state, Begun(r.state, r.token), None);
        PumpedLeft(Begun(r.state, r.token), cap, clock, i + 1);
        LeftMore(s, Begun(r.state, r.token), Pumped(s, cap, clock, i), None);
      }
    }
  }

  lemma TakenQueued(s: State, t: nat, cap: nat)
    requires Inv(s, cap, {t}, 0)
    ensures t in s.heap && s.heap[t].phase == Queued && Ledger(s) && forall x :: x in s.jobs ==> x in s.heap
  {
    Unfold(s, cap, {t}, 0);
    assert t in {t};
  }

  lemma DeletedLeft(s: State, t: nat, cutoff: int, cap: nat)
    requires Inv(s, cap, {}, 0) && t in s.jobs && t in s.heap && TooOld(s.heap[t], cutoff)
    ensures Left(s, Deleted(s, t), Some(cutoff))
  {
    JobsKnown(s, cap, {}, 0);
    DropFacts(s.jobs, t);
  }

  lemma VisitedLeft(s: State, t: nat, now: int, cutoff: int, cap: nat)
    requires Inv(s, cap, {}, 0)
    ensures Left(s, Visited(s, t, now, cutoff), Some(cutoff))
  {
    JobsKnown(s, cap, {}, 0);
    LeftNone(s, s, Some(cutoff));
    if t in s.jobs {
      var s' := s;
      if TooLong(s.heap[t], now) {
        s' := Expired(s, t);
        ExpiredInv(s, t, cap, {});
        assert {} - {t} == {};
        ExpiredLeft(s, t, cap, {}, Some(cutoff));
      }
      if TooOld(s'.heap[t], cutoff) {
        DeletedLeft(s', t, cutoff, cap);
        LeftMore(s, s', Deleted(s', t), Some(cutoff));
      }
    }
  }

  // A sweep drops a token only with a finished job, created before the cutoff or squeezed out by the cap.
  lemma {:induction false} SweptLeft(s: State, ts: seq<nat>, cutoff: int, clock: nat -> int, i: nat, cap: nat)
    requires Inv(s, cap, {}, 0)
    ensures Left(s, SweptFrom(s, ts, cutoff, clock, i), Some(cutoff))
    decreases |ts|
  {
    if ts == [] {
      JobsKnown(s, cap, {}, 0);
      LeftNone(s, s, Some(cutoff));
    } else {
      var s' := Visited(s, ts[0], clock(i), cutoff);
      VisitedInv(s, ts[0], clock(i), cutoff, cap);
      VisitedLeft(s, ts[0], clock(i), cutoff, cap);
      SweptLeft(s', ts[1..], cutoff, clock, i + 1, cap);
      LeftMore(s, s', SweptFrom(s, ts, cutoff, clock, i), Some(cutoff));
    }
  }

  // ---------------------------------------------------------------- what a submission creates

  // From `s` to `r` the next `n` tokens were taken, in order, in the map and the budget; no other job
  // changed.
  ghost predicate Extends(s: State, r: State, n: nat, bytes: nat) {
    && r.next == s.next + n && r.jobs == s.jobs + Fresh(s.next, n)
    && r.inFlight == s.inFlight + bytes && r.active == s.active && r.retained == s.retained
    && (forall t :: t in s.heap ==> t in r.heap && r.heap[t] == s.heap[t])
    && (forall t :: t in r.heap ==> t in s.heap || s.next <= t < r.next)
  }

  lemma ExtendsCons(s: State, payload: nat, p: Priority, now: int, r: State, n: nat, bytes: nat)
    requires Extends(Added(s, payload, p, now), r, n, bytes) && forall t :: t in s.heap ==> t < s.next
    ensures Extends(s, r, n + 1, payload + bytes)
  {
    var a := Added(s, payload, p, now);
    NextTokens(s.jobs, s.next, n);
    assert a.jobs == s.jobs + [s.next] && a.next == s.next + 1;
    assert forall t :: t in s.heap ==> t in a.heap && a.heap[t] == s.heap[t];
  }

  lemma NextTokens(ts: seq<nat>, next: nat, n: nat)
    ensures (ts + [next]) + Fresh(next + 1, n) == ts + Fresh(next, n + 1)
  {
    FreshCons(next, n + 1);
  }

  lemma {:induction false} EnqueuedFrame(s: State, es: seq<Entry>, p: Priority, born: nat -> int, i: nat)
    requires forall t :: t in s.heap ==> t < s.next
    ensures Extends(s, Enqueued(s, es, p, born, i), |es|, BatchBytes(es))
    decreases |es|
  {
    if es == [] {
      assert s.jobs + [] == s.jobs;
    } else {
      AddedKnown(s, PayloadOf(es[0]), p, born(i));
      EnqueuedFrame(Added(s, PayloadOf(es[0]), p, born(i)), es[1..], p, born, i + 1);
      EnqueuedUnfold(s, es, p, born, i);
      ExtendsCons(s, PayloadOf(es[0]), p, born(i), Enqueued(s, es, p, born, i), |es| - 1, BatchBytes(es[1..]));
    }
  }

  lemma AddedKnown(s: State, payload: nat, p: Priority, now: int)
    requires forall t :: t in s.heap ==> t < s.next
    ensures var r := Added(s, payload, p, now);
      && (forall t :: t in r.heap ==> t < r.next)
      && s.next in r.heap && r.heap[s.next] == Job(Queued, p, now, true, payload, None, 0)
  {
  }

  // Each entry becomes a queued job with its own payload and its own reading of the clock.
  lemma {:induction false} EnqueuedJob(s: State, es: seq<Entry>, p: Priority, born: nat -> int, i: nat, k: nat)
    requires (forall t :: t in s.heap ==> t < s.next) && k < |es|
    ensures var h := Enqueued(s, es, p, born, i).heap;
      s.next + k in h && h[s.next + k] == Job(Queued, p, born(i + k), true, PayloadOf(es[k]), None, 0)
    decreases |es|
  {
    var s' := Added(s, PayloadOf(es[0]), p, born(i));
    EnqueuedUnfold(s, es, p, born, i);
    AddedKnown(s, PayloadOf(es[0]), p, born(i));
    if k == 0 {
      EnqueuedFrame(s', es[1..], p, born, i + 1);
    } else {
      EnqueuedJob(s', es[1..], p, born, i + 1, k - 1);
    }
  }

  // A batch of 1 to 250 well-formed entries is accepted exactly if, all admitted, no more than 5000 jobs
  // would wait, 2000 be kept and 64 MiB of payload be in flight.
  lemma AdmitExactly(s: State, es: seq<Entry>, p: Priority, born: nat -> int, cap: nat)
    requires Inv(s, cap, {}, 0)
    ensures var r := Enqueued(s, es, p, born, 0);
      Admit(s, es).Accepted? <==>
        && 1 <= |es| <= 250 && (forall k :: 0 <= k < |es| ==> es[k].Request?)
        && |Line(r)| <= 5_000 && |r.jobs| <= 2_000 && r.inFlight <= 64 * 1024 * 1024
  {
    Unfold(s, cap, {}, 0);
    EnqueuedFrame(s, es, p, born, 0);
    EnqueuedLane(s, es, p, born, 0, Interactive);
    EnqueuedLane(s, es, p, born, 0, Bulk);
    FreshLength(s.next, |es|);
    assert Malformed in es <==> exists k :: 0 <= k < |es| && es[k].Malformed?;
  }

  lemma {:induction false} FreshLength(next: nat, n: nat)
    ensures |Fresh(next, n)| == n
    decreases n
  {
    if n > 0 { FreshLength(next + 1, n - 1); }
  }

  // And the refusal names the first limit the batch would break.
  lemma RefusedWhy(s: State, es: seq<Entry>, p: Priority, born: nat -> int, cap: nat)
    requires Inv(s, cap, {}, 0)
    ensures var r := Enqueued(s, es, p, born, 0); var a := Admit(s, es); var sized := 1 <= |es| <= 250;
      && (a == Refused(BadBatchSize) <==> !sized)
      && (a == Refused(QueueFull) <==> sized && |Line(r)| > 5_000)
      && (a == Refused(ResultsFull) <==> sized && |Line(r)| <= 5_000 && |r.jobs| > 2_000)
      && (a == Refused(BadEntry) <==> sized && |Line(r)| <= 5_000 && |r.jobs| <= 2_000 && Malformed in es)
  {
    Unfold(s, cap, {}, 0);
    EnqueuedFrame(s, es, p, born, 0);
    EnqueuedLane(s, es, p, born, 0, Interactive);
    EnqueuedLane(s, es, p, born, 0, Bulk);
    FreshLength(s.next, |es|);
  }

  // ---------------------------------------------------------------- the service

  class Judge {
    const cap: nat
    var heap: map<nat, Job>
    var next: nat
    var jobs: seq<nat>
    var iq: seq<nat>
    var ih: nat
    var bq: seq<nat>
    var bh: nat
    var active: int
    var inFlight: int
    var retained: int

    ghost function S(): State reads this {
      State(heap, next, jobs, iq, ih, bq, bh, active, inFlight, retained)
    }

    ghost predicate Valid() reads this {
      Inv(S(), cap, {}, 0)
    }

    constructor (concurrency: nat)
      ensures Valid() && cap == concurrency && Line(S()) == [] && jobs == []
    {
      cap, heap, next, jobs := concurrency, map[], 0, [];
      iq, ih, bq, bh := [], 0, [], 0;
      active, inFlight, retained := 0, 0, 0;
    }

    method CompactQueues()
      requires ih <= |iq| && bh <= |bq|
      modifies `iq, `ih, `bq, `bh
      ensures S() == Compacted(old(S()))
    {
      if ih > 1_000 && ih * 2 > |iq| {
        iq := iq[ih..];
        ih := 0;
      }
      if bh > 1_000 && bh * 2 > |bq| {
        bq := bq[bh..];
        bh := 0;
      }
    }

    method ReleasePayload(t: nat)
      requires t in heap
      modifies `heap, `inFlight
      ensures S() == Released(old(S()), t)
    {
      if !heap[t].request { return; }
      inFlight := Max(0, inFlight - heap[t].payload);
      heap := heap[t := heap[t].(request := false, payload := 0)];
    }

    method DeleteJob(t: nat)
      requires t in heap
      modifies `jobs, `retained
      ensures S() == Deleted(old(S()), t)
    {
      retained := Max(0, retained - heap[t].bytes);
      jobs := Drop(jobs, t);
    }

    method TrimRetainedResults(kept: nat)
      requires forall t :: t in jobs ==> t in heap
      modifies `jobs, `retained
      ensures S() == Trimmed(old(S()), kept)
    {
      if retained <= MAX_RETAINED_RESULT_BYTES { return; }
      var entries := jobs;
      for i := 0 to |entries|
        invariant Evicted(S(), entries[i..], kept) == Evicted(old(S()), entries, kept)
        invariant heap == old(heap)
      {
        var t := entries[i];
        assert entries[i..][0] == t && entries[i..][1..] == entries[i + 1..];
        if t == kept || heap[t].phase != Complete { continue; }
        DeleteJob(t);
        if retained <= MAX_RETAINED_RESULT_BYTES { return; }
      }
    }

    method StoreResult(t: nat, r: RunResult)
      requires t in heap && forall x :: x in jobs ==> x in heap
      modifies `heap, `jobs, `retained
      ensures S() == Stored(old(S()), t, r)
    {
      retained := retained - heap[t].bytes;
      heap := heap[t := heap[t].(result := Some(r), bytes := r.size)];
      retained := retained + heap[t].bytes;
      TrimRetainedResults(t);
    }

    method ExpireJob(t: nat)
      requires t in heap && forall x :: x in jobs ==> x in heap
      modifies `heap, `jobs, `inFlight, `retained
      ensures S() == Expired(old(S()), t)
    {
      heap := heap[t := heap[t].(phase := Complete)];
      ReleasePayload(t);
      StoreResult(t, EXPIRED);
    }

    method NextJob(now: int) returns (found: bool, t: nat)
      requires Known(S())
      modifies this
      ensures var r := Next(old(S()), now, 0); found == r.found && t == r.token && S() == r.state
    {
      ghost var n := 0;
      while true
        invariant Known(S()) && Next(S(), now, n) == Next(old(S()), now, 0)
        decreases |Line(S())|
      {
        ghost var s := S();
        HeadOfLine(s);
        var isInteractive := ih < |iq|;
        var queue := if isInteractive then iq else bq;
        var head := if isInteractive then ih else bh;
        if head >= |queue| { return false, 0; }
        t := queue[head];
        SkippedKnown(s);
        PoppedRest(s);
        if isInteractive { ih := ih + 1; } else { bh := bh + 1; }
        assert S() == Popped(s);
        if heap[t].phase == Queued && now - heap[t].createdAt <= QUEUE_TTL_MS {
          CompactQueues();
          return true, t;
        }
        if heap[t].phase == Queued { ExpireJob(t); }
        assert S() == Skipped(s);
        n := n + 1;
      }
    }

    method Pump(clock: nat -> int)
      requires Known(S())
      modifies this
      ensures S() == Pumped(old(S()), cap, clock, 0)
    {
      var reading := 0;
      HeadOfLine(S());
      while active < cap && |iq| - ih + |bq| - bh > 0
        invariant Known(S()) && |Line(S())| == |iq| - ih + |bq| - bh
        invariant Pumped(S(), cap, clock, reading) == Pumped(old(S()), cap, clock, 0)
        decreases |Line(S())|
      {
        PumpedUnfold(S(), cap, clock, reading);
        ghost var r := Next(S(), clock(reading), 0);
        var found, t := NextJob(clock(reading));
        reading := reading + 1;
        if !found { return; }
        HeadOfLine(S());
        if !heap[t].request { continue; }
        Start(t);
        HeadOfLine(S());
      }
    }

    method Start(t: nat)
      requires t in heap
      modifies `heap, `active
      ensures S() == Begun(old(S()), t)
    {
      heap := heap[t := heap[t].(phase := Active)];
      active := active + 1;
    }

    // The sandbox run of `t` ended, well or badly, with result `r`.
    method Settle(t: nat, r: RunResult)
      requires Valid() && t in heap && heap[t].phase == Active && heap[t].result.None?
      modifies this
      ensures Valid() && S() == Stored(old(S()), t, r)
      ensures t in jobs && heap == old(heap)[t := old(heap)[t].(result := Some(r), bytes := r.size)]
    {
      InvKnown(S(), cap);
      JobFacts(S(), t, cap, {}, 0);
      StoredInv(S(), t, r, cap, {}, 0);
      StoreResult(t, r);
    }

    // ... and then its clean-up, which frees a slot and pumps.
    method Finish(t: nat, clock: nat -> int)
      requires Valid() && t in heap && heap[t].phase == Active && heap[t].result.Some?
      modifies this
      ensures Valid() && S() == Pumped(Finished(old(S()), t), cap, clock, 0)
      ensures active == cap || Line(S()) == []
    {
      CleanUp(t);
      InvKnown(S(), cap);
      PumpedInv(S(), cap, clock, 0);
      Pump(clock);
    }

    // The job completes, gives its payload back and stays in the map with its result.
    method CleanUp(t: nat)
      requires Valid() && t in heap && heap[t].phase == Active && heap[t].result.Some?
      modifies this
      ensures Valid() && S() == Finished(old(S()), t)
      ensures t in jobs && heap == old(heap)[t := old(heap)[t].(phase := Complete, request := false, payload := 0)]
    {
      FinishedInv(S(), t, cap);
      InvKnown(S(), cap);
      heap := heap[t := heap[t].(phase := Complete)];
      ReleasePayload(t);
      TrimRetainedResults(t);
      active := active - 1;
    }

    method Submit(es: seq<Entry>, p: Priority, born: nat -> int, clock: nat -> int)
      returns (answer: Admission, tokens: seq<nat>)
      requires Valid()
      modifies this
      ensures Valid() && answer == Admit(old(S()), es)
      ensures answer.Refused? ==> S() == old(S()) && tokens == []
      ensures answer.Accepted? ==>
        && |tokens| == |es| && (forall k :: 0 <= k < |es| ==> tokens[k] == old(next) + k)
        && S() == Pumped(Enqueued(old(S()), es, p, born, 0), cap, clock, 0)
        && (active == cap || Line(S()) == [])
    {
      InvKnown(S(), cap);
      HeadOfLine(S());
      answer, tokens := Refused(BadBatchSize), [];
      if |es| < 1 || |es| > MAX_BATCH_SIZE { return; }
      if |iq| - ih + |bq| - bh + |es| > MAX_QUEUED_JOBS { answer := Refused(QueueFull); return; }
      if |jobs| + |es| > MAX_RETAINED_JOBS { answer := Refused(ResultsFull); return; }
      if Malformed in es { answer := Refused(BadEntry); return; }
      var batchPayloadBytes := TotalBytes(es);
      if inFlight + batchPayloadBytes > MAX_IN_FLIGHT_PAYLOAD_BYTES { answer := Refused(PayloadFull); return; }
      answer := Accepted;
      EnqueuedInv(S(), es, p, born, 0, cap);
      InvKnown(Enqueued(S(), es, p, born, 0), cap);
      PumpedInv(Enqueued(S(), es, p, born, 0), cap, clock, 0);
      tokens := Create(es, p, born);
      Pump(clock);
    }

    method Create(es: seq<Entry>, p: Priority, born: nat -> int) returns (tokens: seq<nat>)
      modifies this
      ensures S() == Enqueued(old(S()), es, p, born, 0)
      ensures |tokens| == |es| && forall k :: 0 <= k < |es| ==> tokens[k] == old(next) + k
    {
      tokens := [];
      for i := 0 to |es|
        invariant |tokens| == i && next == old(next) + i
        invariant forall k :: 0 <= k < i ==> tokens[k] == old(next) + k
        invariant Enqueued(S(), es[i..], p, born, i) == Enqueued(old(S()), es, p, born, 0)
      {
        ghost var rest := es[i..];
        assert rest[0] == es[i] && rest[1..] == es[i + 1..];
        var t := AddJob(PayloadOf(es[i]), p, born(i));
        tokens := tokens + [t];
      }
    }

    method AddJob(payload: nat, p: Priority, now: int) returns (t: nat)
      modifies this
      ensures t == old(next) && S() == Added(old(S()), payload, p, now)
    {
      t := next;
      next := next + 1;
      heap := heap[t := Job(Queued, p, now, true, payload, None, 0)];
      jobs := jobs + [t];
      inFlight := inFlight + payload;
      if p == Bulk { bq := bq + [t]; } else { iq := iq + [t]; }
    }

    // The clock's reading number 0 gives the cutoff; entry `i` of the map reads it again.
    method Sweep(clock: nat -> int)
      requires Valid()
      modifies this
      ensures Valid() && S() == Compacted(SweptAll(old(S()), clock))
      ensures forall t :: t in jobs ==> t in heap && !TooOld(heap[t], clock(0) - RESULT_TTL_MS)
    {
      ghost var cutoff := clock(0) - RESULT_TTL_MS;
      ghost var r := SweptAll(S(), clock);
      SweptFacts(S(), jobs, cutoff, clock, 1, cap);
      CompactedSame(r, cap, {}, 0);
      assert forall t :: t in r.jobs ==> t in jobs;
      InvKnown(S(), cap);
      InvKnown(r, cap);
      assert forall t :: t in r.jobs ==> !OldEntry(r, t, cutoff);
      SweepEntries(clock);
      CompactQueues();
    }

    method SweepEntries(clock: nat -> int)
      requires Known(S())
      modifies this
      ensures S() == SweptAll(old(S()), clock)
    {
      var cutoff := clock(0) - RESULT_TTL_MS;
      var entries := jobs;
      for i := 0 to |entries|
        invariant Known(S())
        invariant SweptFrom(S(), entries[i..], cutoff, clock, i + 1) == SweptFrom(old(S()), entries, cutoff, clock, 1)
      {
        var t := entries[i];
        assert entries[i..][0] == t && entries[i..][1..] == entries[i + 1..];
        if t in jobs {
          if heap[t].phase == Queued && clock(i + 1) - heap[t].createdAt > QUEUE_TTL_MS {
            ExpiredTame(S(), t);
            ExpireJob(t);
          }
          if heap[t].phase == Complete && heap[t].createdAt < cutoff {
            DropSubset(jobs, t);
            DeleteJob(t);
          }
        }
      }
    }
  }

  lemma InvKnown(s: State, cap: nat)
    requires Inv(s, cap, {}, 0)
    ensures Known(s)
  {
    Unfold(s, cap, {}, 0);
  }

  method TotalBytes(es: seq<Entry>) returns (sum: nat)
    ensures sum == BatchBytes(es)
  {
    sum := 0;
    for i := 0 to |es|
      invariant sum + BatchBytes(es[i..]) == BatchBytes(es)
    {
      assert es[i..][0] == es[i] && es[i..][1..] == es[i + 1..];
      sum := sum + PayloadOf(es[i]);
    }
  }
}
