/**
 Admission control for grading: one grade per user, a ceiling on concurrent grades, a bounded
 FIFO of waiters, and a time limit on slots. A waiter's acquire is split by an `await`: it is woken
 by a resolved promise and registers itself only later, so anything may run in between.
*/
module GradeQueue {

  const SLOT_TTL_MS := 180_000

  datatype Slot = Slot(user: int, acquiredAt: int)
  datatype Waiter = Waiter(user: int, ticket: nat)

  // `open` are the slots whose release has not been called yet, reclaimed or not; `woken` the
  // waiters whose promise was resolved and whose code has not run yet; `fast` counts admissions
  // made past the queue while such a hand-off was pending, and `late` releases of reclaimed slots.
  datatype State = State(active: map<nat, Slot>, waiting: seq<Waiter>, woken: seq<Waiter>,
                         next: nat, open: set<nat>, fast: nat, late: nat)

  datatype Answer = Admitted(token: nat) | Queued | Conflict | Busy

  // ---------------------------------------------------------------- the operations

  function Reclaimed(s: State, now: int): State {
    s.(active := map t | t in s.active && !(s.active[t].acquiredAt < now - SLOT_TTL_MS) :: s.active[t])
  }

  predicate HasActive(s: State, user: int) {
    exists t :: t in s.active && s.active[t].user == user
  }

  function Pumped(s: State, max: nat): State {
    if |s.active| < max && s.waiting != []
    then s.(waiting := s.waiting[1..], woken := s.woken + [s.waiting[0]]) else s
  }

  function Registered(s: State, user: int, now: int): State {
    s.(active := s.active[s.next := Slot(user, now)], open := s.open + {s.next}, next := s.next + 1)
  }

  function Asked(s: State, user: int, ticket: nat, now: int, max: nat, depth: nat): (Answer, State) {
    var r := Reclaimed(s, now);
    if HasActive(r, user) then (Conflict, r)
    else if |r.active| >= max then
      if |r.waiting| >= depth then (Busy, r)
      else (Queued, r.(waiting := r.waiting + [Waiter(user, ticket)]))
    else (Admitted(r.next), Registered(r.(fast := r.fast + if r.woken == [] then 0 else 1), user, now))
  }

  // The code after the `await` of the waiter at place `i` of `woken`.
  function Resumed(s: State, i: nat, now: int, max: nat): (Answer, State)
    requires i < |s.woken|
  {
    var s' := s.(woken := s.woken[..i] + s.woken[i + 1..]);
    if HasActive(s, s.woken[i].user) then (Conflict, Pumped(s', max))
    else (Admitted(s.next), Registered(s', s.woken[i].user, now))
  }

  function Closed(s: State, t: nat): State {
    s.(active := s.active - {t}, open := s.open - {t}, late := s.late + if t in s.active then 0 else 1)
  }

  // The release closure of `t`; calling it again does nothing.
  function Released(s: State, t: nat, max: nat): State {
    if t !in s.open then s
    else Pumped(Closed(s, t), max)
  }

  // ---------------------------------------------------------------- runs

  datatype Event = Ask(user: int, ticket: nat, now: int) | Resume(i: nat, now: int) | Release(t: nat)

  function Step(s: State, e: Event, max: nat, depth: nat): State {
    match e
    case Ask(u, k, now) => Asked(s, u, k, now, max, depth).1
    case Resume(i, now) => if i < |s.woken| then Resumed(s, i, now, max).1 else s
    case Release(t) => Released(s, t, max)
  }

  function Run(s: State, es: seq<Event>, max: nat, depth: nat): State
    decreases |es|
  {
    if es == [] then s else Run(Step(s, es[0], max, depth), es[1..], max, depth)
  }

  const Empty := State(map[], [], [], 0, {}, 0, 0)

  predicate OnePerUser(s: State) {
    forall t, u :: t in s.active && u in s.active && t != u ==> s.active[t].user != s.active[u].user
  }

  predicate Tokens(s: State) {
    s.active.Keys <= s.open && forall t :: t in s.open ==> t < s.next
  }

  // Nobody waits unless the grades still running and the hand-offs under way fill the ceiling.
  predicate NobodyForgotten(s: State, max: nat) {
    s.waiting != [] ==> |s.open| + |s.woken| >= max
  }

  predicate Bounded(s: State, max: nat, depth: nat) {
    |s.active| + |s.woken| <= max + s.fast + s.late && |s.waiting| <= depth
  }

  predicate Inv(s: State, max: nat, depth: nat) {
    OnePerUser(s) && Tokens(s) && NobodyForgotten(s, max) && Bounded(s, max, depth)
  }

  lemma SubsetSize<T>(a: set<T>, b: set<T>)
    requires a <= b
    ensures |a| <= |b|
  {
    assert b == a + (b - a);
  }

  lemma SizeOfKeys(m: map<nat, Slot>)
    ensures |m| == |m.Keys|
  {
  }

  lemma ReclaimedInv(s: State, now: int, max: nat, depth: nat)
    requires Inv(s, max, depth)
    ensures Inv(Reclaimed(s, now), max, depth)
    ensures |Reclaimed(s, now).active| <= |s.active|
  {
    var r := Reclaimed(s, now);
    SubsetSize(r.active.Keys, s.active.Keys);
    SizeOfKeys(r.active);
    SizeOfKeys(s.active);
  }

  lemma RegisteredInv(s: State, user: int, now: int, max: nat, depth: nat)
    requires OnePerUser(s) && Tokens(s) && !HasActive(s, user) && |s.waiting| <= depth
    requires s.waiting != [] ==> |s.open| + |s.woken| + 1 >= max
    requires |s.active| + |s.woken| + 1 <= max + s.fast + s.late
    ensures Inv(Registered(s, user, now), max, depth)
  {
    var r := Registered(s, user, now);
    assert s.next !in s.open && s.next !in s.active;
    assert |r.open| == |s.open| + 1 && |r.active| == |s.active| + 1;
  }

  lemma PumpedInv(s: State, max: nat, depth: nat)
    requires OnePerUser(s) && Tokens(s) && |s.waiting| <= depth
    requires s.waiting != [] ==> |s.open| + |s.woken| + 1 >= max
    requires |s.active| + |s.woken| + 1 <= max + s.fast + s.late
    ensures Inv(Pumped(s, max), max, depth)
  {
    SubsetSize(s.active.Keys, s.open);
    SizeOfKeys(s.active);
  }

  lemma AskInv(s: State, u: int, k: nat, now: int, max: nat, depth: nat)
    requires Inv(s, max, depth)
    ensures Inv(Asked(s, u, k, now, max, depth).1, max, depth)
  {
    var r := Reclaimed(s, now);
    ReclaimedInv(s, now, max, depth);
    SubsetSize(r.active.Keys, r.open);
    SizeOfKeys(r.active);
    if !HasActive(r, u) && |r.active| < max {
      RegisteredInv(r.(fast := r.fast + if r.woken == [] then 0 else 1), u, now, max, depth);
    }
  }

  lemma ResumeInv(s: State, i: nat, now: int, max: nat, depth: nat)
    requires Inv(s, max, depth) && i < |s.woken|
    ensures Inv(Resumed(s, i, now, max).1, max, depth)
  {
    var s' := s.(woken := s.woken[..i] + s.woken[i + 1..]);
    if HasActive(s, s.woken[i].user) {
      PumpedInv(s', max, depth);
    } else {
      RegisteredInv(s', s.woken[i].user, now, max, depth);
    }
  }

  lemma ReleaseInv(s: State, t: nat, max: nat, depth: nat)
    requires Inv(s, max, depth)
    ensures Inv(Released(s, t, max), max, depth)
  {
    if t in s.open {
      ReleasedSizes(s, t);
      PumpedInv(Closed(s, t), max, depth);
    }
  }

  lemma StepInv(s: State, e: Event, max: nat, depth: nat)
    requires Inv(s, max, depth)
    ensures Inv(Step(s, e, max, depth), max, depth)
  {
    match e
    case Ask(u, k, now) => AskInv(s, u, k, now, max, depth);
    case Resume(i, now) => if i < |s.woken| { ResumeInv(s, i, now, max, depth); }
    case Release(t) => ReleaseInv(s, t, max, depth);
  }

  lemma ReleasedSizes(s: State, t: nat)
    requires Tokens(s) && t in s.open
    ensures |s.open - {t}| == |s.open| - 1
    ensures |s.active - {t}| == |s.active| - if t in s.active then 1 else 0
  {
    SizeOfKeys(s.active);
    SizeOfKeys(s.active - {t});
    assert (s.active - {t}).Keys == s.active.Keys - {t};
  }

  lemma {:induction false} RunInv(s: State, es: seq<Event>, max: nat, depth: nat)
    requires Inv(s, max, depth)
    ensures Inv(Run(s, es, max, depth), max, depth)
    decreases |es|
  {
    if es != [] {
      StepInv(s, es[0], max, depth);
      RunInv(Step(s, es[0], max, depth), es[1..], max, depth);
    }
  }

  // In every interleaving, reclaims and late releases included: no user holds two slots; whoever
  // waits is behind at least `max` running grades and pending hand-offs, each of which will pump
  // again; and the held slots with the pending hand-offs exceed the ceiling by at most the
  // admissions that overtook a hand-off and the releases of slots already reclaimed.
  lemma Admission(es: seq<Event>, max: nat, depth: nat)
    ensures var r := Run(Empty, es, max, depth);
      && OnePerUser(r)
      && (r.waiting != [] ==> |r.open| + |r.woken| >= max)
      && |r.active| + |r.woken| <= max + r.fast + r.late
      && |r.waiting| <= depth
  {
    RunInv(Empty, es, max, depth);
  }

  // No slot has been taken from a grade that still runs.
  predicate NoneReclaimed(s: State) {
    s.open == s.active.Keys
  }

  // So as long as no running grade lost its slot, nobody waits while a place is free; and if, besides,
  // every hand-off finished before the next arrival, the ceiling itself holds.
  lemma NoLostWakeUp(es: seq<Event>, max: nat, depth: nat)
    ensures var r := Run(Empty, es, max, depth);
      && (NoneReclaimed(r) && r.waiting != [] ==> |r.active| + |r.woken| >= max)
      && (r.fast == 0 && r.late == 0 ==> |r.active| + |r.woken| <= max)
  {
    RunInv(Empty, es, max, depth);
    SizeOfKeys(Run(Empty, es, max, depth).active);
  }

  // ---------------------------------------------------------------- exactly when each promise breaks

  // The grades that hold a slot and the hand-offs on their way to one.
  function Load(s: State): nat {
    |s.active| + |s.woken|
  }

  predicate WithinCeiling(s: State, max: nat) {
    Load(s) <= max
  }

  predicate NobodyStranded(s: State, max: nat) {
    s.waiting != [] ==> Load(s) >= max
  }

  // An arrival is admitted although the hand-offs under way already fill the ceiling, or a slot that was
  // reclaimed is released while somebody waits, a slot is free and the hand-offs already fill it.
  predicate Overfills(s: State, e: Event, max: nat) {
    match e
    case Ask(u, _, now) =>
      var r := Reclaimed(s, now);
      !HasActive(r, u) && |r.active| < max <= Load(r)
    case Resume(_, _) => false
    case Release(t) => t in s.open && t !in s.active && s.waiting != [] && |s.active| < max <= Load(s)
  }

  // An arrival's reclaim frees places that nobody is woken for, beyond the one the arrival itself takes.
  predicate Strands(s: State, e: Event, max: nat) {
    match e
    case Ask(u, _, now) =>
      var r := Reclaimed(s, now);
      s.waiting != [] && Load(r) + (if HasActive(r, u) then 0 else 1) < max
    case Resume(_, _) => false
    case Release(_) => false
  }

  lemma ReclaimedLoad(s: State, now: int)
    ensures Load(Reclaimed(s, now)) <= Load(s)
  {
    var r := Reclaimed(s, now);
    SubsetSize(r.active.Keys, s.active.Keys);
    SizeOfKeys(r.active);
    SizeOfKeys(s.active);
  }

  lemma RegisteredLoad(s: State, u: int, now: int)
    requires Tokens(s)
    ensures Load(Registered(s, u, now)) == Load(s) + 1
    ensures Registered(s, u, now).waiting == s.waiting
  {
    assert s.next !in s.active;
  }

  lemma ReclaimedTokens(s: State, now: int)
    requires Tokens(s)
    ensures Tokens(Reclaimed(s, now))
  {
  }

  lemma AskExactly(s: State, u: int, k: nat, now: int, max: nat, depth: nat)
    requires Tokens(s)
    ensures var r := Asked(s, u, k, now, max, depth).1;
      && (WithinCeiling(s, max) ==> (WithinCeiling(r, max) <==> !Overfills(s, Ask(u, k, now), max)))
      && (NobodyStranded(r, max) <==> !Strands(s, Ask(u, k, now), max))
  {
    var r := Reclaimed(s, now);
    ReclaimedLoad(s, now);
    ReclaimedTokens(s, now);
    if !HasActive(r, u) && |r.active| < max {
      RegisteredLoad(r.(fast := r.fast + if r.woken == [] then 0 else 1), u, now);
    }
  }

  lemma ResumeExactly(s: State, i: nat, now: int, max: nat)
    requires Tokens(s) && i < |s.woken|
    ensures var r := Resumed(s, i, now, max).1;
      && (WithinCeiling(s, max) ==> WithinCeiling(r, max))
      && (NobodyStranded(s, max) ==> NobodyStranded(r, max))
  {
    var s' := s.(woken := s.woken[..i] + s.woken[i + 1..]);
    if !HasActive(s, s.woken[i].user) {
      RegisteredLoad(s', s.woken[i].user, now);
    }
  }

  lemma ReleaseExactly(s: State, t: nat, max: nat)
    requires Tokens(s)
    ensures var r := Released(s, t, max);
      && (WithinCeiling(s, max) ==> (WithinCeiling(r, max) <==> !Overfills(s, Release(t), max)))
      && (NobodyStranded(s, max) ==> NobodyStranded(r, max))
  {
    if t in s.open {
      ReleasedSizes(s, t);
    }
  }

  lemma StepExactly(s: State, e: Event, max: nat, depth: nat)
    requires Tokens(s)
    ensures var r := Step(s, e, max, depth);
      && (WithinCeiling(s, max) ==> (WithinCeiling(r, max) <==> !Overfills(s, e, max)))
      && (NobodyStranded(s, max) ==> (NobodyStranded(r, max) <==> !Strands(s, e, max)))
  {
    match e
    case Ask(u, k, now) => AskExactly(s, u, k, now, max, depth);
    case Resume(i, now) => if i < |s.woken| { ResumeExactly(s, i, now, max); }
    case Release(t) => ReleaseExactly(s, t, max);
  }

  // Where the first `i` events of a run lead.
  function At(es: seq<Event>, i: nat, max: nat, depth: nat): State
    requires i <= |es|
  {
    Run(Empty, es[..i], max, depth)
  }

  lemma AtNext(es: seq<Event>, i: nat, max: nat, depth: nat)
    requires i < |es|
    ensures At(es, i + 1, max, depth) == Step(At(es, i, max, depth), es[i], max, depth)
    ensures Tokens(At(es, i, max, depth))
  {
    assert es[..i + 1] == es[..i] + [es[i]];
    RunLast(Empty, es[..i], es[i], max, depth);
    RunInv(Empty, es[..i], max, depth);
  }

  ghost predicate CeilingUntil(es: seq<Event>, n: nat, max: nat, depth: nat)
    requires n <= |es|
  {
    forall i :: 0 <= i <= n ==> WithinCeiling(At(es, i, max, depth), max)
  }

  ghost predicate NoOverfillUntil(es: seq<Event>, n: nat, max: nat, depth: nat)
    requires n <= |es|
  {
    forall i :: 0 <= i < n ==> !Overfills(At(es, i, max, depth), es[i], max)
  }

  ghost predicate WaitersUntil(es: seq<Event>, n: nat, max: nat, depth: nat)
    requires n <= |es|
  {
    forall i :: 0 <= i <= n ==> NobodyStranded(At(es, i, max, depth), max)
  }

  ghost predicate NoStrandUntil(es: seq<Event>, n: nat, max: nat, depth: nat)
    requires n <= |es|
  {
    forall i :: 0 <= i < n ==> !Strands(At(es, i, max, depth), es[i], max)
  }

  // The ceiling holds at every moment of a run exactly if no step of the run overfills it.
  lemma {:induction false} CeilingExactly(es: seq<Event>, n: nat, max: nat, depth: nat)
    requires n <= |es|
    ensures CeilingUntil(es, n, max, depth) <==> NoOverfillUntil(es, n, max, depth)
    decreases n
  {
    if n == 0 {
      assert At(es, 0, max, depth) == Empty;
    } else {
      CeilingExactly(es, n - 1, max, depth);
      CeilingFurther(es, n, max, depth);
    }
  }

  lemma CeilingStep(es: seq<Event>, i: nat, max: nat, depth: nat)
    requires i < |es|
    ensures WithinCeiling(At(es, i, max, depth), max) ==>
        (WithinCeiling(At(es, i + 1, max, depth), max) <==> !Overfills(At(es, i, max, depth), es[i], max))
  {
    AtNext(es, i, max, depth);
    StepExactly(At(es, i, max, depth), es[i], max, depth);
  }

  lemma CeilingFurther(es: seq<Event>, n: nat, max: nat, depth: nat)
    requires 0 < n <= |es| && (CeilingUntil(es, n - 1, max, depth) <==> NoOverfillUntil(es, n - 1, max, depth))
    ensures CeilingUntil(es, n, max, depth) <==> NoOverfillUntil(es, n, max, depth)
  {
    CeilingStep(es, n - 1, max, depth);
    CeilingSplit(es, n, max, depth);
  }

  lemma CeilingSplit(es: seq<Event>, n: nat, max: nat, depth: nat)
    requires 0 < n <= |es|
    ensures CeilingUntil(es, n, max, depth) <==>
        CeilingUntil(es, n - 1, max, depth) && WithinCeiling(At(es, n, max, depth), max)
    ensures CeilingUntil(es, n - 1, max, depth) ==> WithinCeiling(At(es, n - 1, max, depth), max)
    ensures NoOverfillUntil(es, n, max, depth) <==>
        NoOverfillUntil(es, n - 1, max, depth) && !Overfills(At(es, n - 1, max, depth), es[n - 1], max)
  {
  }

  // Nobody waits beside a free place at any moment of a run exactly if no step of the run strands a
  // waiter: only an arrival that reclaims slots can.
  lemma {:induction false} WaitersExactly(es: seq<Event>, n: nat, max: nat, depth: nat)
    requires n <= |es|
    ensures WaitersUntil(es, n, max, depth) <==> NoStrandUntil(es, n, max, depth)
    decreases n
  {
    if n == 0 {
      assert At(es, 0, max, depth) == Empty;
    } else {
      WaitersExactly(es, n - 1, max, depth);
      WaitersFurther(es, n, max, depth);
    }
  }

  lemma WaitersStep(es: seq<Event>, i: nat, max: nat, depth: nat)
    requires i < |es|
    ensures NobodyStranded(At(es, i, max, depth), max) ==>
        (NobodyStranded(At(es, i + 1, max, depth), max) <==> !Strands(At(es, i, max, depth), es[i], max))
  {
    AtNext(es, i, max, depth);
    StepExactly(At(es, i, max, depth), es[i], max, depth);
  }

  lemma WaitersFurther(es: seq<Event>, n: nat, max: nat, depth: nat)
    requires 0 < n <= |es| && (WaitersUntil(es, n - 1, max, depth) <==> NoStrandUntil(es, n - 1, max, depth))
    ensures WaitersUntil(es, n, max, depth) <==> NoStrandUntil(es, n, max, depth)
  {
    WaitersStep(es, n - 1, max, depth);
    WaitersSplit(es, n, max, depth);
  }

  lemma WaitersSplit(es: seq<Event>, n: nat, max: nat, depth: nat)
    requires 0 < n <= |es|
    ensures WaitersUntil(es, n, max, depth) <==>
        WaitersUntil(es, n - 1, max, depth) && NobodyStranded(At(es, n, max, depth), max)
    ensures WaitersUntil(es, n - 1, max, depth) ==> NobodyStranded(At(es, n - 1, max, depth), max)
    ensures NoStrandUntil(es, n, max, depth) <==>
        NoStrandUntil(es, n - 1, max, depth) && !Strands(At(es, n - 1, max, depth), es[n - 1], max)
  {
  }

  // ---------------------------------------------------------------- first come, first served

  // Everybody who asked and has not been answered yet, oldest first.
  function Line(s: State): seq<Waiter> {
    s.woken + s.waiting
  }

  // A waiter joins at the end, leaves only by being resumed, and is never dropped or overtaken.
  lemma AskLine(s: State, u: int, k: nat, now: int, max: nat, depth: nat)
    ensures var (answer, r) := Asked(s, u, k, now, max, depth);
      Line(r) == Line(s) + (if answer == Queued then [Waiter(u, k)] else [])
  {
    assert (s.woken + s.waiting) + [Waiter(u, k)] == s.woken + (s.waiting + [Waiter(u, k)]);
  }

  lemma ResumeLine(s: State, i: nat, now: int, max: nat)
    requires i < |s.woken|
    ensures Line(Resumed(s, i, now, max).1) == Line(s)[..i] + Line(s)[i + 1..]
  {
    var s' := s.(woken := s.woken[..i] + s.woken[i + 1..]);
    PumpedLine(s', max);
    assert Line(s') == Line(s)[..i] + Line(s)[i + 1..];
  }

  lemma ReleaseLine(s: State, t: nat, max: nat)
    ensures Line(Released(s, t, max)) == Line(s)
  {
    PumpedLine(Closed(s, t), max);
  }

  lemma PumpedLine(s: State, max: nat)
    ensures Line(Pumped(s, max)) == Line(s)
  {
    if s.waiting != [] {
      assert s.waiting == [s.waiting[0]] + s.waiting[1..];
    }
  }

  // ---------------------------------------------------------------- what each call answers and leaves

  // The user holds a slot that is not older than the limit.
  predicate Grading(s: State, user: int, now: int) {
    exists t :: t in s.active && s.active[t].user == user && s.active[t].acquiredAt >= now - 180_000
  }

  // An arrival drops exactly the slots past the limit.
  lemma ReclaimsExactly(s: State, now: int, t: nat)
    ensures t in Reclaimed(s, now).active <==> t in s.active && s.active[t].acquiredAt >= now - 180_000
    ensures t in Reclaimed(s, now).active ==> Reclaimed(s, now).active[t] == s.active[t]
    ensures Reclaimed(s, now) == s.(active := Reclaimed(s, now).active)
  {
  }

  // The token an admission answers is new and is a slot now held by that user; every other slot is kept.
  predicate Holds(s: State, r: State, t: nat, user: int, now: int) {
    && t !in s.active && t !in s.open && t in r.open
    && r.active == s.active[t := Slot(user, now)] && r.open == s.open + {t}
  }

  // An arrival is refused exactly if its user is grading; otherwise it is admitted exactly if there is a
  // free place once the old slots are gone, queued exactly if there is none and room to wait, and told
  // busy if not. Only an admission takes a slot.
  lemma AskAnswers(s: State, u: int, k: nat, now: int, max: nat, depth: nat)
    requires Tokens(s)
    ensures var (answer, r) := Asked(s, u, k, now, max, depth); var kept := Reclaimed(s, now);
      && (answer == Conflict <==> Grading(s, u, now))
      && (answer.Admitted? <==> !Grading(s, u, now) && |kept.active| < max)
      && (answer == Queued <==> !Grading(s, u, now) && |kept.active| >= max && |s.waiting| < depth)
      && (answer.Admitted? ==> Holds(kept, r, answer.token, u, now) && r.woken == s.woken && r.waiting == s.waiting)
      && (!answer.Admitted? ==> r.active == kept.active && r.open == s.open)
  {
    var kept := Reclaimed(s, now);
    GradingKept(s, u, now);
    ReclaimedTokens(s, now);
  }

  lemma GradingKept(s: State, u: int, now: int)
    ensures HasActive(Reclaimed(s, now), u) <==> Grading(s, u, now)
  {
    var kept := Reclaimed(s, now);
    if HasActive(kept, u) {
      var t :| t in kept.active && kept.active[t].user == u;
      assert t in s.active && s.active[t].user == u && s.active[t].acquiredAt >= now - 180_000;
    }
    if Grading(s, u, now) {
      var t :| t in s.active && s.active[t].user == u && s.active[t].acquiredAt >= now - 180_000;
      assert t in kept.active && kept.active[t].user == u;
    }
  }

  // A woken waiter is refused exactly if its user got a slot meanwhile, and then the next is woken in its
  // stead; otherwise its user holds a new slot.
  lemma ResumeAnswers(s: State, i: nat, now: int, max: nat)
    requires Tokens(s) && i < |s.woken|
    ensures var (answer, r) := Resumed(s, i, now, max); var u := s.woken[i].user;
      && (answer == Conflict <==> exists t :: t in s.active && s.active[t].user == u)
      && (answer.Admitted? <==> answer != Conflict)
      && (answer.Admitted? ==> Holds(s, r, answer.token, u, now) && r.waiting == s.waiting)
      && (answer == Conflict ==> r.active == s.active && r.open == s.open)
      && (answer == Conflict ==> (|r.woken| == |s.woken| <==> |s.active| < max && s.waiting != []))
  {
  }

  // The first release of a slot frees it and no other, and wakes one waiter exactly if somebody waits
  // and a place is then free; a second release does nothing.
  lemma ReleaseFrees(s: State, t: nat, max: nat)
    requires Tokens(s)
    ensures var r := Released(s, t, max);
      && r.active == s.active - {t} && r.open == s.open - {t}
      && |s.woken| <= |r.woken| <= |s.woken| + 1
      && (|r.woken| > |s.woken| <==> t in s.open && s.waiting != [] && |s.active - {t}| < max)
      && (t !in s.open ==> r == s)
  {
    if t !in s.open {
      assert s.active - {t} == s.active;
    }
  }

  // ---------------------------------------------------------------- what a reclaim costs

  lemma RunTwo(s: State, e: Event, es: seq<Event>, max: nat, depth: nat)
    ensures Run(s, [e] + es, max, depth) == Run(Step(s, e, max, depth), es, max, depth)
  {
    assert ([e] + es)[1..] == es;
  }

  lemma NothingToReclaim(s: State, now: int)
    requires forall t :: t in s.active ==> s.active[t].acquiredAt >= now - SLOT_TTL_MS
    ensures Reclaimed(s, now) == s
  {
    assert Reclaimed(s, now).active == s.active;
  }

  // Reclaiming does not pump. Two places, users u and v grading, w waiting: when v asks again after the
  // limit, u's slot is reclaimed and v is refused, and w keeps waiting beside a free place until
  // somebody releases.
  lemma ReclaimLosesWakeUp(u: int, v: int, w: int, now: int, depth: nat)
    requires u != v && u != w && v != w && depth > 0
    ensures var es := [Ask(u, 0, now), Ask(v, 1, now + 1), Ask(w, 2, now + 1), Ask(v, 3, now + SLOT_TTL_MS + 1)];
      var r := Run(Empty, es, 2, depth);
      r.active == map[1 := Slot(v, now + 1)] && r.woken == [] && r.waiting == [Waiter(w, 2)] && r.open == {0, 1}
  {
    TwoGradeOneWaits(u, v, w, now, depth);
    RefusedAfterReclaim(FullHouse(u, v, w, now), u, v, now, depth);
    RunFour(Empty, Ask(u, 0, now), Ask(v, 1, now + 1), Ask(w, 2, now + 1), Ask(v, 3, now + SLOT_TTL_MS + 1), 2, depth);
  }

  function FullHouse(u: int, v: int, w: int, now: int): State {
    State(map[0 := Slot(u, now), 1 := Slot(v, now + 1)], [Waiter(w, 2)], [], 2, {0, 1}, 0, 0)
  }

  lemma TwoGradeOneWaits(u: int, v: int, w: int, now: int, depth: nat)
    requires u != v && u != w && v != w && depth > 0
    ensures var s1 := Step(Empty, Ask(u, 0, now), 2, depth);
      var s2 := Step(s1, Ask(v, 1, now + 1), 2, depth);
      Step(s2, Ask(w, 2, now + 1), 2, depth) == FullHouse(u, v, w, now)
  {
    var s1 := State(map[0 := Slot(u, now)], [], [], 1, {0}, 0, 0);
    var s2 := State(map[0 := Slot(u, now), 1 := Slot(v, now + 1)], [], [], 2, {0, 1}, 0, 0);
    Admits(Empty, Ask(u, 0, now), 2, depth);
    assert Registered(Empty, u, now) == s1;
    Admits(s1, Ask(v, 1, now + 1), 2, depth);
    assert Registered(s1, v, now + 1) == s2;
    Queues(s2, Ask(w, 2, now + 1), 2, depth);
  }

  lemma RunFour(s: State, a: Event, b: Event, c: Event, d: Event, max: nat, depth: nat)
    ensures Run(s, [a, b, c, d], max, depth)
      == Step(Step(Step(Step(s, a, max, depth), b, max, depth), c, max, depth), d, max, depth)
  {
    assert [a, b, c, d] == [a] + [b, c, d] && [b, c, d] == [b] + [c, d] && [c, d] == [c] + [d] && [d] == [d] + [];
    RunTwo(s, a, [b, c, d], max, depth);
    RunTwo(Step(s, a, max, depth), b, [c, d], max, depth);
    RunTwo(Step(Step(s, a, max, depth), b, max, depth), c, [d], max, depth);
    RunTwo(Step(Step(Step(s, a, max, depth), b, max, depth), c, max, depth), d, [], max, depth);
  }

  predicate Undisturbed(s: State, e: Event) {
    e.Ask? && !HasActive(s, e.user)
    && forall t :: t in s.active ==> s.active[t].acquiredAt >= e.now - SLOT_TTL_MS
  }

  lemma Admits(s: State, e: Event, max: nat, depth: nat)
    requires Undisturbed(s, e) && |s.active| < max && s.woken == []
    ensures Step(s, e, max, depth) == Registered(s, e.user, e.now)
  {
    NothingToReclaim(s, e.now);
    assert s.(fast := s.fast) == s;
  }

  lemma Queues(s: State, e: Event, max: nat, depth: nat)
    requires Undisturbed(s, e) && |s.active| >= max && |s.waiting| < depth
    ensures Step(s, e, max, depth) == s.(waiting := s.waiting + [Waiter(e.user, e.ticket)])
  {
    NothingToReclaim(s, e.now);
  }

  lemma RefusedAfterReclaim(s: State, u: int, v: int, now: int, depth: nat)
    requires s.active == map[0 := Slot(u, now), 1 := Slot(v, now + 1)]
    ensures Step(s, Ask(v, 3, now + SLOT_TTL_MS + 1), 2, depth) == s.(active := map[1 := Slot(v, now + 1)])
  {
    var r := Reclaimed(s, now + SLOT_TTL_MS + 1);
    assert r.active == map[1 := Slot(v, now + 1)];
    assert r.active[1].user == v;
  }

  // Nor does a hand-off hold its place: with one place, w arrives between the release that wakes v and
  // v registering, and then two grades run at once.
  lemma HandOffOvertaken(u: int, v: int, w: int, now: int, depth: nat)
    requires u != v && u != w && v != w && depth > 0
    ensures var es := [Ask(u, 0, now), Ask(v, 1, now), Release(0), Ask(w, 2, now), Resume(0, now)];
      var r := Run(Empty, es, 1, depth);
      r.active == map[1 := Slot(w, now), 2 := Slot(v, now)] && r.fast == 1 && r.late == 0
  {
    HandedOff(u, v, now, depth);
    Overtaken(v, w, now, depth);
    var es := [Ask(u, 0, now), Ask(v, 1, now), Release(0), Ask(w, 2, now)];
    assert es + [Resume(0, now)] == [Ask(u, 0, now), Ask(v, 1, now), Release(0), Ask(w, 2, now), Resume(0, now)];
    RunFour(Empty, Ask(u, 0, now), Ask(v, 1, now), Release(0), Ask(w, 2, now), 1, depth);
    RunLast(Empty, es, Resume(0, now), 1, depth);
  }

  function Woken(v: int): State {
    State(map[], [], [Waiter(v, 1)], 1, {}, 0, 0)
  }

  lemma HandedOff(u: int, v: int, now: int, depth: nat)
    requires u != v && depth > 0
    ensures var s := Step(Empty, Ask(u, 0, now), 1, depth);
      Step(Step(s, Ask(v, 1, now), 1, depth), Release(0), 1, depth) == Woken(v)
  {
    var s1 := State(map[0 := Slot(u, now)], [], [], 1, {0}, 0, 0);
    Admits(Empty, Ask(u, 0, now), 1, depth);
    assert Registered(Empty, u, now) == s1;
    Queues(s1, Ask(v, 1, now), 1, depth);
    var s2 := s1.(waiting := [Waiter(v, 1)]);
    assert Closed(s2, 0) == State(map[], [Waiter(v, 1)], [], 1, {}, 0, 0);
  }

  lemma Overtaken(v: int, w: int, now: int, depth: nat)
    requires v != w
    ensures var r := Step(Step(Woken(v), Ask(w, 2, now), 1, depth), Resume(0, now), 1, depth);
      r.active == map[1 := Slot(w, now), 2 := Slot(v, now)] && r.fast == 1 && r.late == 0
  {
    var s := State(map[1 := Slot(w, now)], [], [Waiter(v, 1)], 2, {1}, 1, 0);
    NothingToReclaim(Woken(v), now);
    assert Step(Woken(v), Ask(w, 2, now), 1, depth) == s;
    assert !HasActive(s, v);
  }

  lemma {:induction false} RunLast(s: State, es: seq<Event>, e: Event, max: nat, depth: nat)
    ensures Run(s, es + [e], max, depth) == Step(Run(s, es, max, depth), e, max, depth)
    decreases |es|
  {
    if es == [] {
      RunTwo(s, e, [], max, depth);
      assert es + [e] == [e] + [];
    } else {
      RunLast(Step(s, es[0], max, depth), es[1..], e, max, depth);
      assert (es + [e])[1..] == es[1..] + [e];
    }
  }

  // ---------------------------------------------------------------- the module's own state

  class Queue {
    const max: nat
    const depth: nat
    var active: map<nat, Slot>
    var waiting: seq<Waiter>
    var woken: seq<Waiter>
    var next: nat
    var open: set<nat>
    ghost var fast: nat
    ghost var late: nat

    ghost function S(): State reads this {
      State(active, waiting, woken, next, open, fast, late)
    }

    constructor (max: nat, depth: nat)
      ensures S() == Empty && this.max == max && this.depth == depth
    {
      this.max, this.depth := max, depth;
      active, waiting, woken, next, open, fast, late := map[], [], [], 0, {}, 0, 0;
    }

    method ReclaimExpired(now: int)
      modifies `active
      ensures S() == Reclaimed(old(S()), now)
    {
      var cutoff := now - SLOT_TTL_MS;
      var tokens := active.Keys;
      while tokens != {}
        invariant tokens <= old(active).Keys
        invariant forall t :: t in active <==>
          t in old(active) && (t in tokens || !(old(active)[t].acquiredAt < cutoff))
        invariant forall t :: t in active ==> active[t] == old(active)[t]
        decreases tokens
      {
        var t :| t in tokens;
        if active[t].acquiredAt < cutoff { active := active - {t}; }
        tokens := tokens - {t};
      }
    }

    method HasActiveFor(user: int) returns (found: bool)
      ensures found == HasActive(S(), user)
    {
      var tokens := active.Keys;
      while tokens != {}
        invariant tokens <= active.Keys
        invariant forall t :: t in active && t !in tokens ==> active[t].user != user
        decreases tokens
      {
        var t :| t in tokens;
        if active[t].user == user { return true; }
        tokens := tokens - {t};
      }
      return false;
    }

    // The source writes this as a loop that always breaks after one turn.
    method Pump()
      modifies this
      ensures S() == Pumped(old(S()), max)
    {
      if |active| < max && waiting != [] {
        woken := woken + [waiting[0]];
        waiting := waiting[1..];
      }
    }

    // Up to the `await`, or all the way when there is a free place.
    method AcquireGradeSlot(user: int, ticket: nat, now: int) returns (answer: Answer)
      modifies this
      ensures (answer, S()) == Asked(old(S()), user, ticket, now, max, depth)
    {
      ReclaimExpired(now);
      var busy := HasActiveFor(user);
      if busy { return Conflict; }
      if |active| >= max {
        if |waiting| >= depth { return Busy; }
        waiting := waiting + [Waiter(user, ticket)];
        return Queued;
      }
      fast := fast + if woken == [] then 0 else 1;
      answer := Register(user, now);
    }

    // The rest of it, once the promise of the waiter at place `i` has resolved.
    method AfterAwait(i: nat, now: int) returns (answer: Answer)
      requires i < |woken|
      modifies this
      ensures (answer, S()) == Resumed(old(S()), i, now, max)
    {
      var user := woken[i].user;
      var busy := HasActiveFor(user);
      woken := woken[..i] + woken[i + 1..];
      if busy {
        Pump();
        return Conflict;
      }
      answer := Register(user, now);
    }

    method Register(user: int, now: int) returns (answer: Answer)
      modifies this
      ensures (answer, S()) == (Admitted(old(next)), Registered(old(S()), user, now))
    {
      answer := Admitted(next);
      active := active[next := Slot(user, now)];
      open := open + {next};
      next := next + 1;
    }

    method Release(t: nat)
      modifies this
      ensures S() == Released(old(S()), t, max)
    {
      if t !in open { return; }
      late := late + if t in active then 0 else 1;
      open := open - {t};
      active := active - {t};
      Pump();
    }
  }
}
