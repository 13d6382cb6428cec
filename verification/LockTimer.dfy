/**
 The countdown of a lock session: pause, resume and shorten, each a read of the row, a
 computation against the clock, and a conditional write, interleaved in any order with each
 other, with the sweep that engages due timers and with every way a session can end.
*/
module LockTimer {

  import opened Wrappers

  datatype Phase = Armed | Locked | Unlocked | Bypassed | Abandoned

  datatype Row = Row(phase: Phase, fireAt: int, pausedAt: Option<int>)

  const MINUTE := 60_000

  function Max(a: int, b: int): int {
    if a < b then b else a
  }

  // ---------------------------------------------------------------- the conditional writes

  // `was` and `fireAt` are what the request read; `clock` is its own reading of the time.
  datatype Write =
    | PauseWrite(stamp: int)
    | ResumeWrite(was: int, fireAt: int, clock: int)
    | ShortenWrite(fireAt: int, minutes: nat, clock: int)

  // The `where` clause.
  predicate Matches(r: Row, w: Write) {
    && r.phase == Armed
    && match w
       case PauseWrite(_) => r.pausedAt == None
       case ResumeWrite(was, _, _) => r.pausedAt == Some(was)
       case ShortenWrite(f, _, _) => r.pausedAt == None && r.fireAt == f
  }

  function Applied(r: Row, w: Write): Row {
    if !Matches(r, w) then r
    else match w
      case PauseWrite(stamp) => r.(pausedAt := Some(stamp))
      case ResumeWrite(was, f, c) => r.(fireAt := f + (c - was), pausedAt := None)
      case ShortenWrite(f, m, c) => r.(fireAt := Max(c, f - m * MINUTE))
  }

  datatype Control = Pause | Resume | Shorten(minutes: nat)

  // What a control does with the row it read: refused, answered as it stands, or on to a write.
  datatype Reading = Refused | Answered | Goes

  function Read(r: Row, c: Control): Reading {
    if r.phase != Armed then Refused
    else match c
      case Pause => if r.pausedAt.Some? then Answered else Goes
      case Resume => if r.pausedAt.None? then Answered else Goes
      case Shorten(_) => if r.pausedAt.Some? then Refused else Goes
  }

  function Computed(r: Row, c: Control, clock: int): Write
    requires Read(r, c) == Goes
  {
    match c
    case Pause => PauseWrite(clock)
    case Resume => ResumeWrite(r.pausedAt.value, r.fireAt, clock)
    case Shorten(m) => ShortenWrite(r.fireAt, m, clock)
  }

  // ---------------------------------------------------------------- the row, updated in place

  class SessionRow {
    var phase: Phase
    var fireAt: int
    var pausedAt: Option<int>

    ghost function View(): Row reads this { Row(phase, fireAt, pausedAt) }

    constructor (fireAt: int)
      ensures View() == Row(Armed, fireAt, None)
    {
      this.phase, this.fireAt, this.pausedAt := Armed, fireAt, None;
    }

    method BeginPause(clock: int) returns (reading: Reading, w: Write)
      ensures reading == Read(View(), Pause) && (reading == Goes ==> w == Computed(View(), Pause, clock))
    {
      w := PauseWrite(clock);
      if phase != Armed { return Refused, w; }
      if pausedAt.Some? { return Answered, w; }
      reading := Goes;
    }

    method BeginResume(clock: int) returns (reading: Reading, w: Write)
      ensures reading == Read(View(), Resume) && (reading == Goes ==> w == Computed(View(), Resume, clock))
    {
      w := PauseWrite(clock);
      if phase != Armed { return Refused, w; }
      if pausedAt.None? { return Answered, w; }
      reading, w := Goes, ResumeWrite(pausedAt.value, fireAt, clock);
    }

    method BeginShorten(minutes: nat, clock: int) returns (reading: Reading, w: Write)
      ensures reading == Read(View(), Shorten(minutes))
      ensures reading == Goes ==> w == Computed(View(), Shorten(minutes), clock)
    {
      w := ShortenWrite(fireAt, minutes, clock);
      if phase != Armed || pausedAt.Some? { return Refused, w; }
      reading := Goes;
    }

    method UpdateMany(w: Write) returns (count: nat)
      modifies this
      ensures View() == Applied(old(View()), w)
      ensures count == if Matches(old(View()), w) then 1 else 0
      ensures count == 1 && w.ShortenWrite? ==>
        fireAt == if old(fireAt) - w.minutes * 60_000 >= w.clock then old(fireAt) - w.minutes * 60_000 else w.clock
      ensures count == 1 && w.ResumeWrite? ==> fireAt == w.fireAt + (w.clock - w.was) && pausedAt.None?
      ensures count == 1 && w.PauseWrite? ==> fireAt == old(fireAt) && pausedAt == Some(w.stamp)
    {
      count := 0;
      match w {
        case PauseWrite(stamp) =>
          if phase == Armed && pausedAt == None { pausedAt, count := Some(stamp), 1; }
        case ResumeWrite(was, f, c) =>
          if phase == Armed && pausedAt == Some(was) { fireAt, pausedAt, count := f + (c - was), None, 1; }
        case ShortenWrite(f, m, c) =>
          if phase == Armed && pausedAt == None && fireAt == f { fireAt, count := Max(c, f - m * MINUTE), 1; }
      }
    }
  }

  // ---------------------------------------------------------------- runs

  // A request has read the row, or has also read the clock and holds its write.
  datatype Request = Waiting(control: Control, read: Row) | Ready(write: Write)

  // One credited pause: the stamp it was given and the reading that ended it.
  datatype Credit = Credit(stamp: int, end: int)

  // The row, the requests in flight, and the book kept about them: `drift` is how far resumes moved
  // the deadline other than by their own credit, `pausedFor` the wall-clock time the row spent
  // paused, and the lags the time between reading the clock for a write and the write landing.
  datatype System = System(now: int, row: Row, flight: map<nat, Request>,
                           start: int, armedFor: int, stamps: set<int>, credits: seq<Credit>, pauses: nat,
                           reduced: int, drift: int, openedAt: int,
                           pausedFor: int, pauseLag: int, resumeLag: int)

  datatype Event =
    | Arrive(id: nat, control: Control)
    | ReadClock(id: nat)
    | Commit(id: nat)
    | Tick(ms: nat)
    | Engage(at: int)
    | End(to: Phase)

  function Initial(now: int, fireAt: int): System {
    System(now, Row(Armed, fireAt, None), map[], now, fireAt, {}, [], 0, 0, 0, now, 0, 0, 0)
  }

  function Committed(s: System, w: Write): System {
    if !Matches(s.row, w) then s
    else
      var s' := s.(row := Applied(s.row, w));
      match w
      case PauseWrite(stamp) =>
        s'.(stamps := s.stamps + {stamp}, pauses := s.pauses + 1, openedAt := s.now,
            pauseLag := s.pauseLag + (s.now - stamp))
      case ResumeWrite(was, f, c) =>
        s'.(credits := s.credits + [Credit(was, c)], drift := s.drift + (f - s.row.fireAt),
            pausedFor := s.pausedFor + (s.now - s.openedAt), resumeLag := s.resumeLag + (s.now - c))
      case ShortenWrite(f, m, c) =>
        s'.(reduced := s.reduced + (f - s'.row.fireAt))
  }

  function Step(s: System, e: Event): System {
    match e
    case Arrive(id, c) =>
      if id !in s.flight && Read(s.row, c) == Goes then s.(flight := s.flight[id := Waiting(c, s.row)]) else s
    case ReadClock(id) =>
      if id in s.flight && s.flight[id].Waiting? && Read(s.flight[id].read, s.flight[id].control) == Goes then
        s.(flight := s.flight[id := Ready(Computed(s.flight[id].read, s.flight[id].control, s.now))])
      else s
    case Commit(id) =>
      if id in s.flight && s.flight[id].Ready? then
        Committed(s, s.flight[id].write).(flight := s.flight - {id})
      else s
    case Tick(ms) => s.(now := s.now + ms)
    // The sweep names every precondition in its own conditional write.
    case Engage(at) =>
      if at <= s.now && s.row.phase == Armed && s.row.pausedAt == None && s.row.fireAt <= at
      then s.(row := s.row.(phase := Locked)) else s
    // Cancel, solve, skip, abandon and the reaper.
    case End(to) =>
      if (s.row.phase == Armed || s.row.phase == Locked) && to != Armed && to != Locked
      then s.(row := s.row.(phase := to)) else s
  }

  function Run(s: System, es: seq<Event>): System
    decreases |es|
  {
    if es == [] then s else Run(Step(s, es[0]), es[1..])
  }

  // No pause ever lands with a millisecond stamp that an earlier pause already had.
  predicate FreshStep(s: System, e: Event) {
    e.Commit? && e.id in s.flight && s.flight[e.id].Ready? && s.flight[e.id].write.PauseWrite?
    && Matches(s.row, s.flight[e.id].write)
    ==> s.flight[e.id].write.stamp !in s.stamps
  }

  predicate FreshRun(s: System, es: seq<Event>)
    decreases |es|
  {
    es == [] || (FreshStep(s, es[0]) && FreshRun(Step(s, es[0]), es[1..]))
  }

  function Total(cs: seq<Credit>): int {
    if cs == [] then 0 else Total(cs[..|cs| - 1]) + (cs[|cs| - 1].end - cs[|cs| - 1].stamp)
  }

  lemma TotalAppend(cs: seq<Credit>, c: Credit)
    ensures Total(cs + [c]) == Total(cs) + (c.end - c.stamp)
  {
    assert (cs + [c])[..|cs|] == cs;
  }

  // ---------------------------------------------------------------- what every run keeps

  // Every clock reading in flight is in the past.
  predicate Past(s: System) {
    forall id :: id in s.flight && s.flight[id].Ready? ==>
      match s.flight[id].write
      case PauseWrite(stamp) => stamp <= s.now
      case ResumeWrite(was, f, c) => c <= s.now
      case ShortenWrite(f, m, c) => c <= s.now
  }

  // How long the pause now open had been stamped before it landed.
  function OpenLag(s: System): int {
    if s.row.pausedAt.Some? then s.openedAt - s.row.pausedAt.value else 0
  }

  // True of every run, whatever the stamps.
  predicate Book(s: System) {
    && s.row.fireAt == s.armedFor + Total(s.credits) - s.reduced + s.drift
    && s.pauses == |s.credits| + (if s.row.pausedAt.Some? then 1 else 0)
    && (s.row.phase == Locked ==> s.row.pausedAt == None && s.row.fireAt <= s.now)
    && (s.row.pausedAt.Some? ==> s.row.pausedAt.value in s.stamps && s.row.pausedAt.value <= s.openedAt)
    && s.start <= s.openedAt <= s.now
    && 0 <= s.pausedFor <= s.openedAt - s.start + (if s.row.pausedAt.Some? then 0 else s.now - s.openedAt)
    && Total(s.credits) == s.pausedFor + s.pauseLag - s.resumeLag - OpenLag(s)
    && s.pauseLag >= OpenLag(s) && s.resumeLag >= 0
  }

  lemma BookStep(s: System, e: Event)
    requires Book(s) && Past(s)
    ensures Book(Step(s, e)) && Past(Step(s, e))
  {
    if e.Commit? {
      if e.id in s.flight && s.flight[e.id].Ready? {
        WrittenBook(s, s.flight[e.id].write);
      }
    }
  }

  lemma WrittenBook(s: System, w: Write)
    requires Book(s)
    requires match w case PauseWrite(c) => c <= s.now case ResumeWrite(_, _, c) => c <= s.now case _ => true
    ensures Book(Committed(s, w))
    ensures Committed(s, w).now == s.now && Committed(s, w).flight == s.flight
  {
    if w.ResumeWrite? && Matches(s.row, w) {
      TotalAppend(s.credits, Credit(w.was, w.clock));
    }
  }

  lemma {:induction false} BookRun(s: System, es: seq<Event>)
    requires Book(s) && Past(s)
    ensures Book(Run(s, es)) && Past(Run(s, es))
    decreases |es|
  {
    if es != [] {
      BookStep(s, es[0]);
      BookRun(Step(s, es[0]), es[1..]);
    }
  }

  // What a resume in flight remembers of the pause it read: while that very pause is open, nobody
  // has moved the deadline.
  predicate Remembers(s: System, was: int, fireAt: int) {
    was in s.stamps && was <= s.now && (s.row.pausedAt == Some(was) && s.row.phase == Armed ==> fireAt == s.row.fireAt)
  }

  predicate Flight(s: System) {
    forall id :: id in s.flight ==>
      match s.flight[id]
      case Waiting(c, read) =>
        Read(read, c) == Goes && (c == Resume ==> Remembers(s, read.pausedAt.value, read.fireAt))
      case Ready(w) => w.ResumeWrite? ==> Remembers(s, w.was, w.fireAt) && w.was <= w.clock
  }

  // No resume has drifted, and every pause has been credited at most once.
  predicate Exact(s: System) {
    && s.drift == 0
    && (forall i :: 0 <= i < |s.credits| ==> s.credits[i].stamp in s.stamps && s.credits[i].stamp <= s.credits[i].end)
    && (forall i, j :: 0 <= i < j < |s.credits| ==> s.credits[i].stamp != s.credits[j].stamp)
    && (s.row.pausedAt.Some? ==> forall i :: 0 <= i < |s.credits| ==> s.credits[i].stamp != s.row.pausedAt.value)
  }

  // The ABA argument: since an open pause freezes the deadline and no stamp returns, a resume whose
  // write still matches is the resume of the pause it read.
  lemma ExactStep(s: System, e: Event)
    requires Book(s) && Past(s) && Flight(s) && Exact(s) && FreshStep(s, e)
    ensures Flight(Step(s, e)) && Exact(Step(s, e))
  {
  }

  lemma {:induction false} ExactRun(s: System, es: seq<Event>)
    requires Book(s) && Past(s) && Flight(s) && Exact(s) && FreshRun(s, es)
    ensures Exact(Run(s, es))
    decreases |es|
  {
    if es != [] {
      BookStep(s, es[0]);
      ExactStep(s, es[0]);
      ExactRun(Step(s, es[0]), es[1..]);
    }
  }

  // In every run: the deadline is the one armed plus the credits minus the reductions plus the drift
  // of stale resumes; each pause that landed is closed by one credit or is the one still open; a
  // locked row is not paused and its deadline has passed; and the credits give back exactly the time
  // the row was paused, plus the lag of the pause writes, minus the lag of the resume writes.
  lemma DeadlineLaw(now: int, fireAt: int, es: seq<Event>)
    ensures var r := Run(Initial(now, fireAt), es);
      && r.row.fireAt == fireAt + Total(r.credits) - r.reduced + r.drift
      && r.pauses == |r.credits| + (if r.row.pausedAt.Some? then 1 else 0)
      && (r.row.phase == Locked ==> r.row.pausedAt == None && r.row.fireAt <= r.now)
      && Total(r.credits) == r.pausedFor + (r.pauseLag - OpenLag(r)) - r.resumeLag
      && 0 <= r.pausedFor <= r.now - now
  {
    BookRun(Initial(now, fireAt), es);
    StartKept(Initial(now, fireAt), es);
  }

  lemma {:induction false} StartKept(s: System, es: seq<Event>)
    ensures Run(s, es).start == s.start && Run(s, es).armedFor == s.armedFor
    decreases |es|
  {
    if es != [] { StartKept(Step(s, es[0]), es[1..]); }
  }

  // With distinct pause stamps nothing drifts and no pause is credited twice.
  lemma DeadlineExact(now: int, fireAt: int, es: seq<Event>)
    requires FreshRun(Initial(now, fireAt), es)
    ensures var r := Run(Initial(now, fireAt), es);
      && r.row.fireAt == fireAt + Total(r.credits) - r.reduced
      && (forall i, j :: 0 <= i < j < |r.credits| ==> r.credits[i].stamp != r.credits[j].stamp)
      && (forall i :: 0 <= i < |r.credits| ==> r.credits[i].stamp <= r.credits[i].end)
  {
    DeadlineLaw(now, fireAt, es);
    ExactRun(Initial(now, fireAt), es);
  }

  predicate Lawful(s: System) {
    s.row.fireAt == s.armedFor + Total(s.credits) - s.reduced
  }

  // A resume lands that was computed from a deadline which no longer stands.
  predicate StaleResume(s: System, e: Event) {
    e.Commit? && e.id in s.flight && s.flight[e.id].Ready? && s.flight[e.id].write.ResumeWrite?
    && Matches(s.row, s.flight[e.id].write) && s.flight[e.id].write.fireAt != s.row.fireAt
  }

  predicate AlwaysLawful(s: System, es: seq<Event>)
    decreases |es|
  {
    Lawful(s) && (es == [] || AlwaysLawful(Step(s, es[0]), es[1..]))
  }

  predicate NoStaleResume(s: System, es: seq<Event>)
    decreases |es|
  {
    es == [] || (!StaleResume(s, es[0]) && NoStaleResume(Step(s, es[0]), es[1..]))
  }

  lemma LawfulStep(s: System, e: Event)
    requires Book(s) && Past(s) && Lawful(s)
    ensures Lawful(Step(s, e)) <==> !StaleResume(s, e)
  {
    BookStep(s, e);
    DriftStep(s, e);
  }

  lemma DriftStep(s: System, e: Event)
    ensures Step(s, e).drift == s.drift <==> !StaleResume(s, e)
  {
  }

  lemma {:induction false} LawfulRun(s: System, es: seq<Event>)
    requires Book(s) && Past(s) && Lawful(s)
    ensures AlwaysLawful(s, es) <==> NoStaleResume(s, es)
    decreases |es|
  {
    if es != [] {
      BookStep(s, es[0]);
      LawfulStep(s, es[0]);
      if !StaleResume(s, es[0]) {
        LawfulRun(Step(s, es[0]), es[1..]);
      }
    }
  }

  // The deadline equals the one armed plus credits minus reductions at every moment of a run exactly if
  // no resume of the run lands on a deadline other than the one it read.
  lemma LawExactly(now: int, fireAt: int, es: seq<Event>)
    ensures AlwaysLawful(Initial(now, fireAt), es) <==> NoStaleResume(Initial(now, fireAt), es)
  {
    LawfulRun(Initial(now, fireAt), es);
  }

  // Over the whole run the credit exceeds the time the row was really paused exactly when the pause
  // writes lagged behind their stamps by more than the resume writes did.
  lemma CreditAgainstPause(now: int, fireAt: int, es: seq<Event>)
    ensures var r := Run(Initial(now, fireAt), es);
      Total(r.credits) > r.pausedFor <==> r.pauseLag - OpenLag(r) > r.resumeLag
  {
    DeadlineLaw(now, fireAt, es);
  }

  // ---------------------------------------------------------------- single steps

  // Once the session has left ARMED nothing moves its deadline or its pause mark again, and a
  // locked session can only end.
  lemma {:induction false} FrozenOnceLocked(s: System, es: seq<Event>)
    requires s.row.phase != Armed
    ensures var r := Run(s, es);
      && r.row.fireAt == s.row.fireAt && r.row.pausedAt == s.row.pausedAt
      && r.credits == s.credits && r.reduced == s.reduced
      && r.row.phase != Armed && (s.row.phase != Locked ==> r.row == s.row)
    decreases |es|
  {
    if es != [] { FrozenOnceLocked(Step(s, es[0]), es[1..]); }
  }

  // A session is locked exactly by a sweep, at a time not in the future, that finds it ARMED, unpaused and
  // due by then.
  lemma EngagesExactly(s: System, e: Event)
    requires s.row.phase != Locked
    ensures Step(s, e).row == s.row.(phase := Locked) <==>
        e.Engage? && s.row.phase == Armed && s.row.pausedAt.None? && s.row.fireAt <= e.at <= s.now
  {
  }

  // A resume that lands keeps the deadline law exactly when the deadline it read still stands.
  lemma ResumeDrifts(s: System, w: Write)
    requires Book(s) && w.ResumeWrite? && Matches(s.row, w)
    ensures var r := Committed(s, w);
      r.row.fireAt - s.row.fireAt == w.clock - w.was <==> w.fireAt == s.row.fireAt
  {
  }

  // A shorten that lands takes off exactly the minutes asked for if that leaves the deadline at or after
  // its clock reading, and otherwise leaves it at that reading.
  lemma ShortenExactly(s: System, w: Write)
    requires w.ShortenWrite? && Matches(s.row, w)
    ensures w.fireAt == s.row.fireAt
    ensures Committed(s, w).row ==
      s.row.(fireAt := if s.row.fireAt - w.minutes * 60_000 >= w.clock then s.row.fireAt - w.minutes * 60_000
                       else w.clock)
  {
  }

  // What the landing of `e` takes off the deadline, and what it credits, read off the write.
  function TakenOff(s: System, e: Event): int {
    if !(e.Commit? && e.id in s.flight && s.flight[e.id].Ready? && Matches(s.row, s.flight[e.id].write)) then 0
    else match s.flight[e.id].write
      case ShortenWrite(f, m, c) => if f - m * 60_000 >= c then m * 60_000 else f - c
      case _ => 0
  }

  function GivenBack(s: System, e: Event): int {
    if !(e.Commit? && e.id in s.flight && s.flight[e.id].Ready? && Matches(s.row, s.flight[e.id].write)) then 0
    else match s.flight[e.id].write
      case ResumeWrite(was, f, c) => c - was
      case _ => 0
  }

  function AllTakenOff(s: System, es: seq<Event>): int
    decreases |es|
  {
    if es == [] then 0 else TakenOff(s, es[0]) + AllTakenOff(Step(s, es[0]), es[1..])
  }

  function AllGivenBack(s: System, es: seq<Event>): int
    decreases |es|
  {
    if es == [] then 0 else GivenBack(s, es[0]) + AllGivenBack(Step(s, es[0]), es[1..])
  }

  lemma LedgerStep(s: System, e: Event)
    ensures Step(s, e).reduced == s.reduced + TakenOff(s, e)
    ensures Total(Step(s, e).credits) == Total(s.credits) + GivenBack(s, e)
  {
    if e.Commit? && e.id in s.flight && s.flight[e.id].Ready? && s.flight[e.id].write.ResumeWrite? {
      var w := s.flight[e.id].write;
      TotalAppend(s.credits, Credit(w.was, w.clock));
    }
  }

  lemma {:induction false} LedgerRun(s: System, es: seq<Event>)
    ensures Run(s, es).reduced == s.reduced + AllTakenOff(s, es)
    ensures Total(Run(s, es).credits) == Total(s.credits) + AllGivenBack(s, es)
    decreases |es|
  {
    if es != [] {
      LedgerStep(s, es[0]);
      LedgerRun(Step(s, es[0]), es[1..]);
    }
  }

  // Over a run the reductions and the credits are those of its events: the minutes of every shorten that
  // landed, or what the clamp left of them, and the clock reading less the pause stamp of every resume.
  lemma LedgerFromEvents(now: int, fireAt: int, es: seq<Event>)
    ensures var s, r := Initial(now, fireAt), Run(Initial(now, fireAt), es);
      r.reduced == AllTakenOff(s, es) && Total(r.credits) == AllGivenBack(s, es)
  {
    LedgerRun(Initial(now, fireAt), es);
  }

  // A shorten never takes the deadline past the later of where it was and the present, so a session
  // that is due stays due; and it moves an overdue deadline up, not down.
  lemma ShortenTowardsNow(s: System, w: Write)
    requires w.ShortenWrite? && Matches(s.row, w) && w.clock <= s.now && w.minutes >= 1
    ensures var f := Committed(s, w).row.fireAt;
      && f <= Max(s.row.fireAt, s.now)
      && (s.row.fireAt <= s.now ==> f <= s.now)
      && (f > s.row.fireAt <==> w.clock > s.row.fireAt)
      && (w.clock <= s.row.fireAt ==> s.row.fireAt - w.minutes * MINUTE <= f <= s.row.fireAt)
  {
  }

  // Of two requests that read the same unpaused deadline and both mean to shorten it, the second
  // write to arrive matches nothing once the first has moved the deadline.
  lemma ShortenOnce(s: System, w: Write, v: Write)
    requires w.ShortenWrite? && v.ShortenWrite? && w.fireAt == v.fireAt
    requires Matches(s.row, w) && Committed(s, w).row.fireAt != s.row.fireAt
    ensures Committed(Committed(s, w), v) == Committed(s, w)
  {
  }

  // ---------------------------------------------------------------- one resume and its pause

  lemma {:induction false} RunAppend(s: System, es: seq<Event>, e: Event)
    ensures Run(s, es + [e]) == Step(Run(s, es), e)
    ensures FreshRun(s, es + [e]) <==> FreshRun(s, es) && FreshStep(Run(s, es), e)
    decreases |es|
  {
    if es == [] {
      assert [] + [e] == [e] && [e][1..] == [];
    } else {
      assert (es + [e])[0] == es[0] && (es + [e])[1..] == es[1..] + [e];
      RunAppend(Step(s, es[0]), es[1..], e);
    }
  }

  // The write of `e` lands.
  predicate Lands(s: System, e: Event, w: Write) {
    e.Commit? && e.id in s.flight && s.flight[e.id] == Ready(w) && Matches(s.row, w)
  }

  // The pause that is open was landed at step p of the run and has stood ever since.
  predicate StandsSince(s0: System, es: seq<Event>, p: nat, stamp: int) {
    && p < |es| && Lands(Run(s0, es[..p]), es[p], PauseWrite(stamp))
    && forall q :: p < q <= |es| ==> Run(s0, es[..q]).row.pausedAt == Some(stamp)
  }

  lemma MarkStep(s: System, e: Event, stamp: int)
    requires Step(s, e).row.pausedAt == Some(stamp)
    ensures s.row.pausedAt == Some(stamp) || Lands(s, e, PauseWrite(stamp))
  {
  }

  lemma {:induction false} PauseGiven(s0: System, es: seq<Event>, stamp: int) returns (p: nat)
    requires s0.row.pausedAt == None && Run(s0, es).row.pausedAt == Some(stamp)
    ensures StandsSince(s0, es, p, stamp)
    decreases |es|
  {
    var n := |es| - 1;
    var before := es[..n];
    assert es == before + [es[n]] && es[..|es|] == es;
    RunAppend(s0, before, es[n]);
    MarkStep(Run(s0, before), es[n], stamp);
    p := n;
    if Run(s0, before).row.pausedAt == Some(stamp) {
      p := PauseGiven(s0, before, stamp);
    }
    forall q | 0 <= q <= n
      ensures es[..q] == before[..q]
    {
    }
  }

  // A resume that lands credits the time its own pause stood, from the moment that pause landed to now,
  // exactly if the two writes landed equally long after their requests had read the clock.
  lemma CreditPerResume(now: int, fireAt: int, es: seq<Event>, e: Event, w: Write) returns (p: nat)
    requires var s := Run(Initial(now, fireAt), es); Lands(s, e, w) && w.ResumeWrite?
    ensures StandsSince(Initial(now, fireAt), es, p, w.was)
    ensures var s := Run(Initial(now, fireAt), es); var landed := Run(Initial(now, fireAt), es[..p]).now;
      && Step(s, e).credits == s.credits + [Credit(w.was, w.clock)]
      && (w.clock - w.was == s.now - landed <==> landed - w.was == s.now - w.clock)
  {
    p := PauseGiven(Initial(now, fireAt), es, w.was);
  }

  // ---------------------------------------------------------------- where a write comes from

  // What request `c` writes if it read the row as `r` and then the clock as `clock`.
  predicate WriteOf(r: Row, c: Control, clock: int, w: Write) {
    && r.phase == Armed
    && match c
       case Pause => r.pausedAt == None && w == PauseWrite(clock)
       case Resume => r.pausedAt.Some? && w == ResumeWrite(r.pausedAt.value, r.fireAt, clock)
       case Shorten(minutes) => r.pausedAt == None && w == ShortenWrite(r.fireAt, minutes, clock)
  }

  // A control is refused unless the session is ARMED, and a shorten of a paused one too; a pause of a
  // paused session and a resume of an unpaused one are answered as they are; the rest go on to a write
  // that the row as read would let through.
  lemma ReadExactly(r: Row, c: Control, clock: int)
    ensures Read(r, c) == Refused <==> r.phase != Armed || (c.Shorten? && r.pausedAt.Some?)
    ensures Read(r, c) == Answered <==> r.phase == Armed && !c.Shorten? && (c.Pause? <==> r.pausedAt.Some?)
    ensures Read(r, c) == Goes <==> exists w :: WriteOf(r, c, clock, w)
    ensures forall w :: WriteOf(r, c, clock, w) ==> Matches(r, w)
  {
    if Read(r, c) == Goes {
      assert WriteOf(r, c, clock, Computed(r, c, clock));
    }
  }

  // What is known of request `id` in flight after a run: when it arrived, what it read, and when it read
  // the clock.
  ghost predicate Came(s0: System, es: seq<Event>, id: nat, a: nat, c: Control, read: Row) {
    a < |es| && es[a] == Arrive(id, c) && read == Run(s0, es[..a]).row
  }

  ghost predicate Clocked(s0: System, es: seq<Event>, id: nat, b: nat, clock: int) {
    b < |es| && es[b] == ReadClock(id) && clock == Run(s0, es[..b]).now
  }

  ghost predicate Waits(s0: System, es: seq<Event>, id: nat, c: Control, read: Row) {
    exists a: nat :: Came(s0, es, id, a, c, read)
  }

  ghost predicate Writes(s0: System, es: seq<Event>, id: nat, w: Write) {
    exists a: nat, b: nat, c, read, clock ::
      a < b && Came(s0, es, id, a, c, read) && Clocked(s0, es, id, b, clock) && WriteOf(read, c, clock, w)
  }

  ghost predicate RequestKnown(s0: System, es: seq<Event>, id: nat, r: Request) {
    match r
    case Waiting(c, read) => Waits(s0, es, id, c, read)
    case Ready(w) => Writes(s0, es, id, w)
  }

  ghost predicate FlightKnown(s0: System, es: seq<Event>, f: map<nat, Request>) {
    forall id :: id in f ==> RequestKnown(s0, es, id, f[id])
  }

  lemma PrefixKept(es: seq<Event>, e: Event)
    ensures forall i :: 0 <= i <= |es| ==> (es + [e])[..i] == es[..i]
  {
  }

  lemma KnownLonger(s0: System, es: seq<Event>, e: Event, id: nat, r: Request)
    requires RequestKnown(s0, es, id, r)
    ensures RequestKnown(s0, es + [e], id, r)
  {
    PrefixKept(es, e);
    match r
    case Waiting(c, read) =>
      var a: nat :| Came(s0, es, id, a, c, read);
      assert Came(s0, es + [e], id, a, c, read);
    case Ready(w) =>
      var a: nat, b: nat, c, read, clock :|
        a < b && Came(s0, es, id, a, c, read) && Clocked(s0, es, id, b, clock) && WriteOf(read, c, clock, w);
      assert Came(s0, es + [e], id, a, c, read) && Clocked(s0, es + [e], id, b, clock);
  }

  lemma KnownStep(s0: System, es: seq<Event>, e: Event)
    requires FlightKnown(s0, es, Run(s0, es).flight)
    ensures FlightKnown(s0, es + [e], Step(Run(s0, es), e).flight)
  {
    var s := Run(s0, es);
    var n := |es|;
    assert (es + [e])[..n] == es && (es + [e])[n] == e;
    forall id | id in s.flight
      ensures RequestKnown(s0, es + [e], id, s.flight[id])
    {
      KnownLonger(s0, es, e, id, s.flight[id]);
    }
    if e.Arrive? && e.id !in s.flight && Read(s.row, e.control) == Goes {
      assert Came(s0, es + [e], e.id, n, e.control, s.row);
      assert Waits(s0, es + [e], e.id, e.control, s.row);
    } else if e.ReadClock? && Step(s, e).flight != s.flight {
      ClockRead(s0, es, e);
    }
  }

  lemma ClockRead(s0: System, es: seq<Event>, e: Event)
    requires FlightKnown(s0, es, Run(s0, es).flight) && e.ReadClock?
    requires var f := Run(s0, es).flight; e.id in f && f[e.id].Waiting? && Read(f[e.id].read, f[e.id].control) == Goes
    ensures var s := Run(s0, es);
      Writes(s0, es + [e], e.id, Computed(s.flight[e.id].read, s.flight[e.id].control, s.now))
  {
    var s := Run(s0, es);
    var c, read, n := s.flight[e.id].control, s.flight[e.id].read, |es|;
    PrefixKept(es, e);
    assert (es + [e])[..n] == es && (es + [e])[n] == e;
    var a: nat :| Came(s0, es, e.id, a, c, read);
    assert Came(s0, es + [e], e.id, a, c, read) && Clocked(s0, es + [e], e.id, n, s.now);
    assert WriteOf(read, c, s.now, Computed(read, c, s.now));
  }

  lemma {:induction false} KnownRun(s0: System, es: seq<Event>)
    requires s0.flight == map[]
    ensures FlightKnown(s0, es, Run(s0, es).flight)
    decreases |es|
  {
    if es != [] {
      var n := |es| - 1;
      assert es == es[..n] + [es[n]];
      KnownRun(s0, es[..n]);
      RunAppend(s0, es[..n], es[n]);
      KnownStep(s0, es[..n], es[n]);
    }
  }

  // Every write that lands was asked for earlier in the run: it holds the pause mark and deadline its
  // request read off the row when it arrived, the minutes it asked for, and the clock when it read that.
  lemma WriteGiven(now: int, fireAt: int, es: seq<Event>, e: Event, w: Write)
    requires Lands(Run(Initial(now, fireAt), es), e, w)
    ensures exists a: nat, b: nat, c, read, clock ::
      a < b && Came(Initial(now, fireAt), es, e.id, a, c, read)
      && Clocked(Initial(now, fireAt), es, e.id, b, clock) && WriteOf(read, c, clock, w)
  {
    KnownRun(Initial(now, fireAt), es);
    assert Writes(Initial(now, fireAt), es, e.id, w);
  }

  // ---------------------------------------------------------------- two runs that go wrong

  // `s` is where `es` leads.
  predicate Leads(s0: System, es: seq<Event>, s: System) {
    Run(s0, es) == s
  }

  lemma Then(s0: System, es: seq<Event>, s: System, e: Event) returns (es': seq<Event>, s': System)
    requires Leads(s0, es, s)
    ensures es' == es + [e] && s' == Step(s, e) && Leads(s0, es', s')
    ensures FreshRun(s0, es) && FreshStep(s, e) ==> FreshRun(s0, es')
  {
    RunAppend(s0, es, e);
    es', s' := es + [e], Step(s, e);
  }

  lemma Ask(s0: System, es: seq<Event>, s: System, id: nat, c: Control) returns (es': seq<Event>, s': System)
    requires Leads(s0, es, s) && id !in s.flight && Read(s.row, c) == Goes
    ensures Leads(s0, es', s') && (FreshRun(s0, es) ==> FreshRun(s0, es'))
    ensures s' == s.(flight := s.flight[id := Ready(Computed(s.row, c, s.now))])
  {
    es', s' := Then(s0, es, s, Arrive(id, c));
    es', s' := Then(s0, es', s', ReadClock(id));
    assert s'.flight == s.flight[id := Ready(Computed(s.row, c, s.now))];
  }

  // Without distinct stamps the law fails: two pauses in one millisecond, with a shorten between
  // them, let a stale resume of the first give the shortened minute back.
  lemma SameMillisecond() returns (es: seq<Event>)
    ensures var r := Run(Initial(0, 600_000), es);
      r.drift == MINUTE && r.now == 0 && r.row.fireAt == 600_000 && r.reduced == MINUTE
  {
    var s0 := Initial(0, 600_000);
    var s := s0;
    es := [];
    es, s := Ask(s0, es, s, 1, Pause);
    es, s := Then(s0, es, s, Commit(1));
    es, s := Ask(s0, es, s, 2, Resume);
    es, s := Ask(s0, es, s, 3, Resume);
    es, s := Then(s0, es, s, Commit(3));
    es, s := Ask(s0, es, s, 4, Shorten(1));
    es, s := Then(s0, es, s, Commit(4));
    es, s := Ask(s0, es, s, 5, Pause);
    es, s := Then(s0, es, s, Commit(5));
    es, s := Then(s0, es, s, Commit(2));
  }

  // Two milliseconds later the open pause is resumed.
  lemma CreditOnce(s0: System, es: seq<Event>, s: System) returns (es': seq<Event>, s': System)
    requires Leads(s0, es, s) && 3 !in s.flight && Read(s.row, Resume) == Goes
    ensures Leads(s0, es', s') && (FreshRun(s0, es) ==> FreshRun(s0, es'))
    ensures s'.now == s.now + 2 && s'.flight == s.flight && s'.stamps == s.stamps
    ensures s'.row == s.row.(fireAt := s.row.fireAt + (s'.now - s.row.pausedAt.value), pausedAt := None)
    ensures s'.credits == s.credits + [Credit(s.row.pausedAt.value, s'.now)]
  {
    es', s' := Then(s0, es, s, Tick(2));
    es', s' := Ask(s0, es', s', 3, Resume);
    es', s' := Then(s0, es', s', Commit(3));
    assert s'.flight == s.flight;
  }

  // Even with distinct stamps the credits can exceed the whole time that passed: two pauses read an
  // unpaused row, and the second lands after the first was resumed, still with its old stamp.
  lemma CreditBeyondElapsed() returns (es: seq<Event>)
    ensures FreshRun(Initial(0, 600_000), es)
    ensures var r := Run(Initial(0, 600_000), es); Total(r.credits) == 7 && r.now == 5 && r.row.fireAt == 600_007
  {
    var s0 := Initial(0, 600_000);
    var s := s0;
    es := [];
    es, s := Ask(s0, es, s, 1, Pause);
    es, s := Then(s0, es, s, Tick(1));
    es, s := Ask(s0, es, s, 2, Pause);
    es, s := Then(s0, es, s, Commit(1));
    es, s := CreditOnce(s0, es, s);
    es, s := Then(s0, es, s, Commit(2));
    es, s := Then(s0, es, s, Tick(2));
    es, s := Ask(s0, es, s, 4, Resume);
    es, s := Then(s0, es, s, Commit(4));
    assert s.credits == [] + [Credit(0, 3)] + [Credit(1, 5)];
    TotalAppend([], Credit(0, 3));
    TotalAppend([Credit(0, 3)], Credit(1, 5));
  }
}
