/**
 The desktop shell that holds the screen: what it remembers, the lock record on disk, the engage
 requests and watchdog polls it has in flight, and the server it asks, through crashes and restarts.
 Clock readings are whatever the machine says at each step; they need not go forward.
*/
module DesktopShell {

  import opened Wrappers
  import KS = KillSwitch

  const MAX_LOCK_LIFETIME_MS := 43_200_000

  type Id = string

  // ---------------------------------------------------------------- the record on disk

  datatype PersistedLock = PersistedLock(sessionId: Id, engagedAt: int, expiresAt: int,
                                         interruptedAt: Option<int>, interruptions: Option<nat>)

  predicate IsLive(lock: Option<PersistedLock>, now: int) {
    lock.Some? && lock.value.sessionId != "" && now < lock.value.expiresAt
    && lock.value.engagedAt <= now + MAX_LOCK_LIFETIME_MS
  }

  function NewLock(id: Id, now: int): PersistedLock {
    PersistedLock(id, now, now + MAX_LOCK_LIFETIME_MS, None, None)
  }

  datatype Startup = Clean | Interrupted(lock: PersistedLock, interruptions: nat) | Expired(lock: PersistedLock)

  function Count(lock: PersistedLock): nat {
    if lock.interruptions.Some? then lock.interruptions.value else 0
  }

  function ClassifyStartup(lock: Option<PersistedLock>, now: int): Startup {
    if lock.None? then Clean
    else if !IsLive(lock, now) then Expired(lock.value)
    else Interrupted(lock.value, Count(lock.value) + 1)
  }

  function RecordInterruption(lock: PersistedLock, now: int): PersistedLock {
    lock.(interruptedAt := Some(now), interruptions := Some(Count(lock) + 1))
  }

  // A write may succeed, leave the old record, or leave a file that reads back as no record; a
  // deletion may succeed or not.
  datatype Fate = Done | Kept | Torn

  function Saved(disk: Option<PersistedLock>, lock: PersistedLock, fate: Fate): Option<PersistedLock> {
    match fate
    case Done => Some(lock)
    case Kept => disk
    case Torn => None
  }

  function Cleared(disk: Option<PersistedLock>, fate: Fate): Option<PersistedLock> {
    if fate == Done then None else disk
  }

  // ---------------------------------------------------------------- decisions

  datatype Phase = Armed | Locked
  datatype Session = Session(id: Id, phase: Phase)

  // A readable answer to "what is active": a session or nothing.
  datatype Reply = Reply(session: Option<Session>)

  datatype Verdict = StillLocked | Unreachable | Resolved

  function VerdictFor(reply: Option<Reply>, held: Option<Id>): Verdict {
    if reply.None? then Unreachable
    else if held.None? || held.value == "" then StillLocked
    else if reply.value.session == Some(Session(held.value, Locked)) then StillLocked
    else Resolved
  }

  predicate UnlockTokenOpensLock(claim: Option<Id>, held: Option<Id>) {
    held.Some? && held.value != "" && claim.Some? && claim.value != "" && claim.value == held.value
  }

  // ---------------------------------------------------------------- the shell's own state

  datatype Memory = Memory(locked: bool, held: Option<Id>, disk: Option<PersistedLock>, hold: KS.Hold, released: bool)

  function Engaged(m: Memory, id: Option<Id>, now: int, fate: Fate): Memory {
    var m' := if id.Some? && id.value != ""
      then m.(held := id, disk := Saved(m.disk, NewLock(id.value, now), fate)) else m;
    if m.locked then m' else m'.(locked := true, released := false, hold := KS.Idle)
  }

  function Released(m: Memory, fate: Fate): Memory {
    Memory(false, None, Cleared(m.disk, fate), KS.Idle, true)
  }

  function Keyed(m: Memory, e: KS.Event, fate: Fate): Memory {
    if !m.locked then m
    else if KS.Fires(m.hold, e, KS.HOLD_TO_RELEASE_MS) then Released(m, fate)
    else m.(hold := KS.After(m.hold, e, KS.HOLD_TO_RELEASE_MS))
  }

  // The poll's answer is acted on only if the session it asked about is still the one held.
  function Watched(m: Memory, asked: Option<Id>, reply: Option<Reply>, fate: Fate): Memory {
    if VerdictFor(reply, asked) != Resolved || !m.locked || m.held != asked then m else Released(m, fate)
  }

  function Presented(m: Memory, claim: Option<Id>, fate: Fate): Memory {
    if UnlockTokenOpensLock(claim, m.held) then Released(m, fate) else m
  }

  // What startup makes of the disk; the session it wants the screen for comes from `Wanted`.
  function Restarted(disk: Option<PersistedLock>, now: int, fate: Fate): Option<PersistedLock> {
    var startup := ClassifyStartup(disk, now);
    var d := if startup.Interrupted? then Saved(disk, RecordInterruption(startup.lock, now), fate) else disk;
    if d.Some? && !IsLive(d, now) then Cleared(d, fate) else d
  }

  function Wanted(disk: Option<PersistedLock>, now: int): Option<Id> {
    if IsLive(disk, now) then Some(disk.value.sessionId) else None
  }

  // ---------------------------------------------------------------- the server

  // At most one session is active; `due` says that an ARMED one is past its deadline and not paused;
  // `ended` sessions never come back; `lockedOnce` are the sessions ever moved to LOCKED.
  datatype Server = Server(current: Option<Session>, due: bool, ended: set<Id>, lockedOnce: set<Id>)

  // The state of a session's row, None once it is over.
  function RowOf(v: Server, id: Id): Option<Phase> {
    if v.current.Some? && v.current.value.id == id then Some(v.current.value.phase) else None
  }

  // The conditional write that engages a session; it may match nothing.
  function ClaimedDue(v: Server, id: Id): Server {
    if RowOf(v, id) == Some(Armed) && v.due
    then v.(current := Some(Session(id, Locked)), lockedOnce := v.lockedOnce + {id}) else v
  }

  // ---------------------------------------------------------------- the whole system

  // A confirmation carries the row as read back after the claim; the shell does not look at it.
  datatype Answer = Confirmed(row: Option<Phase>) | Refused | Lost

  // An engage request waits to be read, for its claim, for the row to be read back, or to return.
  datatype Request = Asked(id: Id) | Claiming(id: Id) | Rereading(id: Id) | Answered(id: Id, answer: Answer)
  datatype Poll = Polled(asked: Option<Id>) | Heard(asked: Option<Id>, reply: Option<Reply>)

  datatype System = System(up: bool, canUnlock: bool, shell: Memory, server: Server,
                           requests: multiset<Request>, polls: multiset<Poll>, wanted: Option<Id>)

  datatype Event =
    | Arm(id: Id) | Countdown(due: bool) | ServerEngage | End
    | TakeScreen(id: Id)
    | ServeRead(id: Id) | ServeClaim(id: Id) | ServeReread(id: Id) | Fail(request: Request)
    | EngageReturn(id: Id, answer: Answer, now: int, fate: Fate)
    | Tick | ServePoll(asked: Option<Id>, delivered: bool)
    | PollReturn(asked: Option<Id>, reply: Option<Reply>, fate: Fate)
    | LockIpc(session: Option<Id>, now: int, fate: Fate)
    | UnlockIpc(claim: Option<Id>, fate: Fate)
    | Key(key: KS.Event, fate: Fate)
    | Crash | DieEngaging(id: Id, now: int, fate: Fate)
    | Restart(now: int, canUnlock: bool, fate: Fate) | Ready

  // The screen is asked for only when it is not held and a key to release it is configured.
  function Asking(s: System, id: Id): System {
    if !s.up || s.shell.locked || !s.canUnlock then s else s.(requests := s.requests + multiset{Asked(id)})
  }

  function Advanced(s: System, from: Request, to: Request): System {
    s.(requests := s.requests - multiset{from} + multiset{to})
  }

  // The server reads the row: a LOCKED one is confirmed at once, a due ARMED one goes on to the claim,
  // anything else is refused.
  function EngageRead(s: System, id: Id): System {
    if Asked(id) !in s.requests then s
    else
      match RowOf(s.server, id)
      case Some(Locked) => Advanced(s, Asked(id), Answered(id, Confirmed(Some(Locked))))
      case Some(Armed) =>
        Advanced(s, Asked(id), if s.server.due then Claiming(id) else Answered(id, Refused))
      case None => Advanced(s, Asked(id), Answered(id, Refused))
  }

  // The claim may match nothing by now; either way the row is read back and confirmed.
  function EngageClaim(s: System, id: Id): System {
    if Claiming(id) !in s.requests then s
    else Advanced(s, Claiming(id), Rereading(id)).(server := ClaimedDue(s.server, id))
  }

  function EngageReread(s: System, id: Id): System {
    if Rereading(id) !in s.requests then s
    else Advanced(s, Rereading(id), Answered(id, Confirmed(RowOf(s.server, id))))
  }

  // The answer to an engage request takes the screen whatever has happened in between.
  function EngageBack(s: System, id: Id, answer: Answer, now: int, fate: Fate): System {
    if Answered(id, answer) !in s.requests then s
    else
      s.(requests := s.requests - multiset{Answered(id, answer)},
         shell := if answer.Confirmed? then Engaged(s.shell, Some(id), now, fate) else s.shell)
  }

  function PollServed(s: System, asked: Option<Id>, delivered: bool): System {
    if Polled(asked) !in s.polls then s
    else
      var reply := if delivered then Some(Reply(s.server.current)) else None;
      s.(polls := s.polls - multiset{Polled(asked)} + multiset{Heard(asked, reply)})
  }

  function PollBack(s: System, asked: Option<Id>, reply: Option<Reply>, fate: Fate): System {
    if Heard(asked, reply) !in s.polls then s
    else s.(polls := s.polls - multiset{Heard(asked, reply)}, shell := Watched(s.shell, asked, reply, fate))
  }

  function LockAsked(s: System, id: Option<Id>, now: int, fate: Fate): System {
    if !s.up then s
    else if s.shell.locked then s.(shell := Engaged(s.shell, id, now, fate))
    else if id.Some? && id.value != "" then Asking(s, id.value)
    else if !s.canUnlock then s
    else s.(shell := Engaged(s.shell, None, now, fate))
  }

  function Died(s: System, disk: Option<PersistedLock>): System {
    s.(up := false, shell := Memory(false, None, disk, KS.Idle, false),
       requests := multiset{}, polls := multiset{}, wanted := None)
  }

  // The shell is about to engage `id`: a confirmation for it is in, or it is re-asserted.
  predicate Engaging(s: System, id: Id) {
    s.up && id != ""
    && (s.shell.locked || Answered(id, Confirmed(None)) in s.requests
        || Answered(id, Confirmed(Some(Armed))) in s.requests || Answered(id, Confirmed(Some(Locked))) in s.requests)
  }

  function Step(s: System, e: Event): System {
    match e
    case Arm(id) =>
      if s.server.current.Some? || id in s.server.ended || id == "" then s
      else s.(server := s.server.(current := Some(Session(id, Armed)), due := false))
    // The deadline passes, or a pause, a resume or a shorten moves it.
    case Countdown(due) => s.(server := s.server.(due := due))
    case ServerEngage =>
      if s.server.current.None? then s else s.(server := ClaimedDue(s.server, s.server.current.value.id))
    case End =>
      if s.server.current.None? then s
      else s.(server := s.server.(current := None, ended := s.server.ended + {s.server.current.value.id}))
    case TakeScreen(id) => Asking(s, id)
    case ServeRead(id) => EngageRead(s, id)
    case ServeClaim(id) => EngageClaim(s, id)
    case ServeReread(id) => EngageReread(s, id)
    case Fail(r) => if r in s.requests && !r.Answered? then Advanced(s, r, Answered(r.id, Lost)) else s
    case EngageReturn(id, answer, now, fate) => EngageBack(s, id, answer, now, fate)
    case Tick => if s.up && s.shell.locked then s.(polls := s.polls + multiset{Polled(s.shell.held)}) else s
    case ServePoll(asked, delivered) => PollServed(s, asked, delivered)
    case PollReturn(asked, reply, fate) => PollBack(s, asked, reply, fate)
    case LockIpc(id, now, fate) => LockAsked(s, id, now, fate)
    case UnlockIpc(claim, fate) => if s.up then s.(shell := Presented(s.shell, claim, fate)) else s
    case Key(key, fate) => if s.up && !key.Reset? then s.(shell := Keyed(s.shell, key, fate)) else s
    // A death within a release, before the record is removed, leaves what this leaves.
    case Crash => Died(s, s.shell.disk)
    // Dead after the write of the new record and before anything else of the engage.
    case DieEngaging(id, now, fate) =>
      if Engaging(s, id) then Died(s, Saved(s.shell.disk, NewLock(id, now), fate)) else s
    case Restart(now, canUnlock, fate) =>
      if s.up then s
      else
        var disk := Restarted(s.shell.disk, now, fate);
        s.(up := true, canUnlock := canUnlock, shell := s.shell.(disk := disk), wanted := Wanted(disk, now))
    case Ready => if s.wanted.Some? then Asking(s, s.wanted.value).(wanted := None) else s
  }

  // The states of a run, one more than its events.
  predicate IsRun(ss: seq<System>, es: seq<Event>) {
    |ss| == |es| + 1 && forall i :: 0 <= i < |es| ==> ss[i + 1] == Step(ss[i], es[i])
  }

  function Initial(canUnlock: bool): System {
    System(true, canUnlock, Memory(false, None, None, KS.Idle, false), Server(None, false, {}, {}),
           multiset{}, multiset{}, None)
  }

  // ---------------------------------------------------------------- what every run keeps

  // The server's history is monotone: a session it has ever locked is the active one, locked, or over.
  predicate ServerOk(v: Server) {
    && (v.current.Some? ==> v.current.value.id !in v.ended && v.current.value.id != "")
    && (v.current.Some? && v.current.value.id in v.lockedOnce ==> v.current.value.phase == Locked)
    && (v.current.Some? && v.current.value.phase == Locked ==> v.current.value.id in v.lockedOnce)
    && (forall a :: a in v.lockedOnce && a !in v.ended ==> v.current.Some? && v.current.value.id == a)
    && "" !in v.ended
  }

  // The server has had this session: it is active or over.
  predicate Known(v: Server, id: Id) {
    id != "" && (id in v.ended || RowOf(v, id).Some?)
  }

  ghost predicate Monotone(v: Server, w: Server) {
    v.ended <= w.ended && v.lockedOnce <= w.lockedOnce && forall a :: Known(v, a) ==> Known(w, a)
  }

  predicate RecordOk(l: PersistedLock) {
    l.expiresAt == l.engagedAt + MAX_LOCK_LIFETIME_MS && l.sessionId != ""
  }

  predicate MemoryOk(m: Memory) {
    && (!m.locked ==> m.held.None? && m.hold == KS.Idle)
    && (m.held.Some? ==> m.held.value != "")
    && (m.disk.Some? ==> RecordOk(m.disk.value))
  }

  predicate PowerOk(s: System) {
    !s.up ==> !s.shell.locked && s.requests == multiset{} && s.polls == multiset{} && s.wanted.None?
  }

  // What the server has told, or is about to tell, about a session.
  predicate RequestOk(v: Server, r: Request) {
    match r
    case Asked(_) => true
    case Claiming(a) => Known(v, a)
    case Rereading(a) => Known(v, a)
    case Answered(a, answer) =>
      answer.Confirmed? ==>
        && Known(v, a)
        && (answer.row == Some(Locked) ==> a in v.lockedOnce)
        && (answer.row == None ==> a in v.ended)
  }

  ghost predicate RequestsOk(s: System) {
    forall r :: r in s.requests ==> RequestOk(s.server, r)
  }

  ghost predicate Inv(s: System) {
    ServerOk(s.server) && MemoryOk(s.shell) && PowerOk(s) && RequestsOk(s)
  }

  lemma ClaimedOk(v: Server, id: Id)
    requires ServerOk(v)
    ensures ServerOk(ClaimedDue(v, id)) && Monotone(v, ClaimedDue(v, id))
  {
  }

  lemma ServerStep(s: System, e: Event)
    requires ServerOk(s.server)
    ensures ServerOk(Step(s, e).server) && Monotone(s.server, Step(s, e).server)
  {
    if e.Arm? || e.End? || e.Countdown? {
    } else if e.ServerEngage? {
      if s.server.current.Some? {
        ClaimedOk(s.server, s.server.current.value.id);
      }
    } else if e.ServeClaim? {
      ClaimedOk(s.server, e.id);
    } else {
      assert Step(s, e).server == s.server;
    }
  }

  lemma EngagedOk(m: Memory, id: Option<Id>, now: int, fate: Fate)
    requires MemoryOk(m)
    ensures MemoryOk(Engaged(m, id, now, fate)) && Engaged(m, id, now, fate).locked
  {
  }

  lemma KeyedOk(m: Memory, key: KS.Event, fate: Fate)
    requires MemoryOk(m)
    ensures MemoryOk(Keyed(m, key, fate))
  {
  }

  lemma RestartedOk(disk: Option<PersistedLock>, now: int, fate: Fate)
    requires disk.Some? ==> RecordOk(disk.value)
    ensures var d := Restarted(disk, now, fate); d.Some? ==> RecordOk(d.value)
  {
  }

  // Events the shell's own state does not notice.
  predicate Elsewhere(e: Event) {
    e.Arm? || e.Countdown? || e.ServerEngage? || e.End? || e.TakeScreen? || e.ServeRead? || e.ServeClaim?
    || e.ServeReread? || e.Fail? || e.Tick? || e.ServePoll? || e.Ready?
  }

  lemma ElsewhereStep(s: System, e: Event)
    requires Elsewhere(e)
    ensures Step(s, e).shell == s.shell && Step(s, e).up == s.up
  {
  }

  predicate Dies(e: Event) {
    e.Crash? || e.DieEngaging?
  }

  lemma MemoryStep(s: System, e: Event)
    requires MemoryOk(s.shell) && PowerOk(s)
    ensures MemoryOk(Step(s, e).shell)
  {
    if Elsewhere(e) {
      ElsewhereStep(s, e);
    } else if e.EngageReturn? {
      EngagedOk(s.shell, Some(e.id), e.now, e.fate);
    } else if e.LockIpc? {
      LockIpcOk(s, e.session, e.now, e.fate);
    } else if e.Key? {
      KeyedOk(s.shell, e.key, e.fate);
    } else if e.Restart? {
      RestartedOk(s.shell.disk, e.now, e.fate);
    } else {
      ReleasingStep(s, e);
    }
  }

  lemma ReleasingStep(s: System, e: Event)
    requires e.PollReturn? || e.UnlockIpc? || Dies(e)
    requires MemoryOk(s.shell)
    ensures MemoryOk(Step(s, e).shell)
  {
    if e.PollReturn? || e.UnlockIpc? {
      assert Step(s, e).shell == s.shell || Step(s, e).shell == Released(s.shell, e.fate);
    } else {
      assert Step(s, e).shell == s.shell || !Step(s, e).shell.locked;
    }
  }

  lemma LockIpcOk(s: System, id: Option<Id>, now: int, fate: Fate)
    requires MemoryOk(s.shell)
    ensures MemoryOk(LockAsked(s, id, now, fate).shell)
  {
    EngagedOk(s.shell, id, now, fate);
    EngagedOk(s.shell, None, now, fate);
  }

  lemma PowerStep(s: System, e: Event)
    requires PowerOk(s)
    ensures PowerOk(Step(s, e))
  {
    if !s.up {
      DownStep(s, e);
    } else {
      assert Step(s, e).up || Dies(e);
    }
  }

  lemma DownStep(s: System, e: Event)
    requires PowerOk(s) && !s.up
    ensures e.Restart? || Dies(e) || Elsewhere(e) || Step(s, e) == s
    ensures PowerOk(Step(s, e))
  {
    if Elsewhere(e) {
      ElsewhereStep(s, e);
    }
  }

  lemma KeptOk(v: Server, w: Server, r: Request)
    requires Monotone(v, w) && RequestOk(v, r)
    ensures RequestOk(w, r)
  {
  }

  lemma AdvancedOnly(s: System, from: Request, to: Request, r: Request)
    requires r in Advanced(s, from, to).requests && r !in s.requests
    ensures r == to
  {
  }

  lemma ReadNew(s: System, id: Id, r: Request)
    requires ServerOk(s.server) && r in EngageRead(s, id).requests && r !in s.requests
    ensures RequestOk(s.server, r) && EngageRead(s, id).server == s.server
  {
  }

  lemma ClaimNew(s: System, id: Id, r: Request)
    requires ServerOk(s.server) && RequestsOk(s) && r in EngageClaim(s, id).requests && r !in s.requests
    ensures RequestOk(EngageClaim(s, id).server, r)
  {
    AdvancedOnly(s, Claiming(id), Rereading(id), r);
    ClaimedOk(s.server, id);
    assert RequestOk(s.server, Claiming(id));
  }

  lemma RereadNew(s: System, id: Id, r: Request)
    requires ServerOk(s.server) && RequestsOk(s) && r in EngageReread(s, id).requests && r !in s.requests
    ensures RequestOk(s.server, r) && EngageReread(s, id).server == s.server
  {
    AdvancedOnly(s, Rereading(id), Answered(id, Confirmed(RowOf(s.server, id))), r);
    assert RequestOk(s.server, Rereading(id));
  }

  lemma OtherNew(s: System, e: Event, r: Request)
    requires !e.ServeRead? && !e.ServeClaim? && !e.ServeReread?
    requires r in Step(s, e).requests && r !in s.requests
    ensures r.Asked? || (e.Fail? && r.Answered? && r.answer == Lost)
  {
  }

  // A request is new only as the next stage of one that was there, or as a fresh question.
  lemma NewRequest(s: System, e: Event, r: Request)
    requires ServerOk(s.server) && RequestsOk(s) && r in Step(s, e).requests && r !in s.requests
    ensures RequestOk(Step(s, e).server, r)
  {
    var t := Step(s, e);
    if e.ServeRead? {
      assert t == EngageRead(s, e.id);
      ReadNew(s, e.id, r);
    } else if e.ServeClaim? {
      assert t == EngageClaim(s, e.id);
      ClaimNew(s, e.id, r);
    } else if e.ServeReread? {
      assert t == EngageReread(s, e.id);
      RereadNew(s, e.id, r);
    } else {
      OtherNew(s, e, r);
      assert RequestOk(t.server, r);
    }
  }

  lemma RequestsStep(s: System, e: Event)
    requires RequestsOk(s) && ServerOk(s.server)
    ensures RequestsOk(Step(s, e))
  {
    var t := Step(s, e);
    ServerStep(s, e);
    forall r | r in t.requests
      ensures RequestOk(t.server, r)
    {
      if r in s.requests {
        KeptOk(s.server, t.server, r);
      } else {
        NewRequest(s, e, r);
      }
    }
  }

  lemma StepInv(s: System, e: Event)
    requires Inv(s)
    ensures Inv(Step(s, e))
  {
    ServerStep(s, e);
    MemoryStep(s, e);
    PowerStep(s, e);
    RequestsStep(s, e);
  }

  lemma {:induction false} RunInv(ss: seq<System>, es: seq<Event>, i: nat)
    requires IsRun(ss, es) && Inv(ss[0]) && i <= |es|
    ensures Inv(ss[i])
    decreases i
  {
    if i > 0 {
      RunInv(ss, es, i - 1);
      StepInv(ss[i - 1], es[i - 1]);
    }
  }

  // ---------------------------------------------------------------- what ends a lock

  predicate Frees(s: System, e: Event) {
    s.shell.locked && !Step(s, e).shell.locked
  }

  // One step can take the screen away only with a token for the very session held, an answer read off
  // the server that the session held is not locked there, a completed Escape hold, or the death of the
  // process. A lock that names no session is open only to the last two.
  lemma FreedBy(s: System, e: Event)
    requires Inv(s) && Frees(s, e)
    ensures e.UnlockIpc? || e.PollReturn? || e.Key? || Dies(e)
    ensures e.UnlockIpc? || e.PollReturn? ==> s.shell.held.Some?
    ensures e.UnlockIpc? ==> e.claim == s.shell.held
    ensures e.PollReturn? ==> e.asked == s.shell.held && Heard(e.asked, e.reply) in s.polls
    ensures e.PollReturn? ==> e.reply.Some? && e.reply.value.session != Some(Session(s.shell.held.value, Locked))
    ensures e.Key? ==> KS.Fires(s.shell.hold, e.key, KS.HOLD_TO_RELEASE_MS)
    ensures Dies(e) || Step(s, e).shell == Released(s.shell, e.fate)
  {
    if Elsewhere(e) {
      ElsewhereStep(s, e);
    } else if e.EngageReturn? {
      EngagedOk(s.shell, Some(e.id), e.now, e.fate);
    } else if e.LockIpc? {
      EngagedOk(s.shell, e.session, e.now, e.fate);
    } else if e.Key? {
      KeyFrees(s.shell, e.key, e.fate);
    }
  }

  lemma KeyFrees(m: Memory, key: KS.Event, fate: Fate)
    requires m.locked
    ensures !Keyed(m, key, fate).locked <==> KS.Fires(m.hold, key, KS.HOLD_TO_RELEASE_MS)
    ensures !Keyed(m, key, fate).locked ==> Keyed(m, key, fate) == Released(m, fate)
  {
  }

  // ---------------------------------------------------------------- the hold, over a run

  predicate Breaks(e: Event) {
    e.Key? && (e.key.OtherDown? || e.key.EscapeUp?)
  }

  // From the Escape at j up to event i the screen was held throughout, so the process did not die, and
  // nothing else was pressed and Escape did not come up.
  predicate HeldSince(ss: seq<System>, es: seq<Event>, j: nat, i: nat)
    requires j < i <= |es| && |ss| == |es| + 1
  {
    es[j].Key? && es[j].key.EscapeDown?
    && (forall k :: j <= k < i ==> !Breaks(es[k]))
    && (forall k :: j <= k <= i ==> ss[k].shell.locked)
  }

  // The first Escape of those.
  predicate HoldBegan(ss: seq<System>, es: seq<Event>, j: nat, i: nat)
    requires i <= |es| && |ss| == |es| + 1
  {
    j < i && HeldSince(ss, es, j, i) && forall k :: 0 <= k < j ==> !HeldSince(ss, es, k, i)
  }

  // The hold the shell remembers is the one the run shows.
  predicate HoldExplained(ss: seq<System>, es: seq<Event>, i: nat)
    requires i <= |es| && |ss| == |es| + 1
  {
    && !ss[i].shell.hold.fired
    && match ss[i].shell.hold.startedAt
       case None => forall j :: 0 <= j < i ==> !HeldSince(ss, es, j, i)
       case Some(t) => exists j :: 0 <= j < i && HoldBegan(ss, es, j, i) && es[j].key.now == t
  }

  // The hold begins at an Escape, is kept while the screen is and nothing breaks it, and is forgotten
  // otherwise.
  predicate HoldMoves(s: System, e: Event, t: System) {
    && (t.shell.hold.startedAt.Some? ==> t.shell.locked && s.shell.locked && !Breaks(e))
    && (s.shell.locked && t.shell.locked && !Breaks(e) ==>
          t.shell.hold.startedAt ==
            if s.shell.hold.startedAt.Some? then s.shell.hold.startedAt
            else if e.Key? && e.key.EscapeDown? then Some(e.key.now) else None)
    && (!s.shell.hold.fired ==> !t.shell.hold.fired)
  }

  lemma HoldStep(s: System, e: Event)
    requires Inv(s)
    ensures HoldMoves(s, e, Step(s, e))
  {
    if Elsewhere(e) {
      ElsewhereStep(s, e);
    } else if e.Key? {
      if !e.key.Reset? {
        KeyedHold(s.shell, e.key, e.fate);
      }
    } else {
      OtherHold(s, e);
    }
  }

  // `t` forgot the hold, or left it and the lock as they were.
  predicate HoldLeft(s: System, t: System) {
    && (t.shell.hold == KS.Idle || (t.shell.hold == s.shell.hold && t.shell.locked == s.shell.locked))
    && (s.shell.locked && t.shell.locked ==> t.shell.hold == s.shell.hold)
  }

  lemma OtherHold(s: System, e: Event)
    requires Inv(s) && !Elsewhere(e) && !e.Key?
    ensures HoldLeft(s, Step(s, e))
  {
    if e.EngageReturn? {
      EngagedHold(s.shell, Some(e.id), e.now, e.fate);
      assert Step(s, e).shell == s.shell || Step(s, e).shell == Engaged(s.shell, Some(e.id), e.now, e.fate);
    } else if e.LockIpc? {
      LockHold(s, e);
    } else {
      RestHold(s, e);
    }
  }

  lemma LockHold(s: System, e: Event)
    requires MemoryOk(s.shell) && e.LockIpc?
    ensures HoldLeft(s, Step(s, e))
  {
    EngagedHold(s.shell, e.session, e.now, e.fate);
    EngagedHold(s.shell, None, e.now, e.fate);
  }

  lemma RestHold(s: System, e: Event)
    requires e.PollReturn? || e.UnlockIpc? || Dies(e) || e.Restart?
    ensures HoldLeft(s, Step(s, e))
  {
    if e.PollReturn? || e.UnlockIpc? {
      assert Step(s, e).shell == s.shell || Step(s, e).shell == Released(s.shell, e.fate);
    }
  }

  lemma KeyedHold(m: Memory, key: KS.Event, fate: Fate)
    requires MemoryOk(m) && !key.Reset?
    ensures var m' := Keyed(m, key, fate);
      && (m'.hold.startedAt.Some? ==> m.locked && m'.locked && !key.OtherDown? && !key.EscapeUp?)
      && (m.locked && m'.locked && !key.OtherDown? && !key.EscapeUp? ==>
            m'.hold.startedAt ==
              if m.hold.startedAt.Some? then m.hold.startedAt
              else if key.EscapeDown? then Some(key.now) else None)
      && (!m.hold.fired ==> !m'.hold.fired)
  {
  }

  lemma EngagedHold(m: Memory, id: Option<Id>, now: int, fate: Fate)
    requires MemoryOk(m)
    ensures Engaged(m, id, now, fate).hold == m.hold
    ensures m.locked || m.hold == KS.Idle
  {
  }

  lemma HeldFurther(ss: seq<System>, es: seq<Event>, j: nat, i: nat)
    requires |ss| == |es| + 1 && j < i < |es|
    ensures HeldSince(ss, es, j, i + 1) <==> HeldSince(ss, es, j, i) && !Breaks(es[i]) && ss[i + 1].shell.locked
  {
  }

  lemma BeganFurther(ss: seq<System>, es: seq<Event>, j: nat, i: nat)
    requires |ss| == |es| + 1 && i < |es| && HoldBegan(ss, es, j, i)
    requires !Breaks(es[i]) && ss[i + 1].shell.locked
    ensures HoldBegan(ss, es, j, i + 1)
  {
    var n := i + 1;
    HeldFurther(ss, es, j, i);
    forall k | 0 <= k < j
      ensures !HeldSince(ss, es, k, n)
    {
      HeldFurther(ss, es, k, i);
    }
  }

  lemma BeganNow(ss: seq<System>, es: seq<Event>, i: nat)
    requires |ss| == |es| + 1 && i < |es| && es[i].Key? && es[i].key.EscapeDown?
    requires ss[i].shell.locked && ss[i + 1].shell.locked && forall j :: 0 <= j < i ==> !HeldSince(ss, es, j, i)
    ensures HoldBegan(ss, es, i, i + 1)
  {
    var n := i + 1;
    forall k | 0 <= k < i
      ensures !HeldSince(ss, es, k, n)
    {
      HeldFurther(ss, es, k, i);
    }
    assert HeldSince(ss, es, i, n);
  }

  lemma NoneFurther(ss: seq<System>, es: seq<Event>, i: nat, j: nat)
    requires |ss| == |es| + 1 && i < |es| && HoldExplained(ss, es, i) && HoldMoves(ss[i], es[i], ss[i + 1])
    requires ss[i + 1].shell.hold.startedAt.None? && j <= i
    ensures !HeldSince(ss, es, j, i + 1)
  {
    if HeldSince(ss, es, j, i + 1) {
      assert ss[i].shell.locked && ss[i + 1].shell.locked && !Breaks(es[i]);
      if j < i {
        HeldFurther(ss, es, j, i);
      }
    }
  }

  lemma ExplainedFurther(ss: seq<System>, es: seq<Event>, i: nat)
    requires |ss| == |es| + 1 && i < |es| && HoldExplained(ss, es, i) && HoldMoves(ss[i], es[i], ss[i + 1])
    ensures HoldExplained(ss, es, i + 1)
  {
    var n := i + 1;
    if ss[n].shell.hold.startedAt.None? {
      forall j | 0 <= j < n
        ensures !HeldSince(ss, es, j, n)
      {
        NoneFurther(ss, es, i, j);
      }
    } else if ss[i].shell.hold.startedAt.Some? {
      var j :| 0 <= j < i && HoldBegan(ss, es, j, i) && es[j].key.now == ss[i].shell.hold.startedAt.value;
      BeganFurther(ss, es, j, i);
    } else {
      BeganNow(ss, es, i);
    }
  }

  lemma HoldsExplained(ss: seq<System>, es: seq<Event>, i: nat)
    requires IsRun(ss, es) && Inv(ss[0]) && ss[0].shell.hold == KS.Idle && i <= |es|
    ensures HoldExplained(ss, es, i)
  {
    forall k | 0 <= k < i
      ensures HoldMoves(ss[k], es[k], ss[k + 1])
    {
      HoldMoved(ss, es, k);
    }
    HoldsFurther(ss, es, i);
  }

  lemma {:induction false} HoldsFurther(ss: seq<System>, es: seq<Event>, i: nat)
    requires |ss| == |es| + 1 && i <= |es| && ss[0].shell.hold == KS.Idle
    requires forall k :: 0 <= k < i ==> HoldMoves(ss[k], es[k], ss[k + 1])
    ensures HoldExplained(ss, es, i)
    decreases i
  {
    if i > 0 {
      HoldsFurther(ss, es, i - 1);
      ExplainedFurther(ss, es, i - 1);
    }
  }

  lemma HoldMoved(ss: seq<System>, es: seq<Event>, i: nat)
    requires IsRun(ss, es) && Inv(ss[0]) && i < |es|
    ensures HoldMoves(ss[i], es[i], ss[i + 1])
  {
    RunInv(ss, es, i);
    HoldStep(ss[i], es[i]);
  }

  // ---------------------------------------------------------------- every release in every run

  predicate TokenForHeld(s: System, e: Event) {
    e.UnlockIpc? && s.shell.held.Some? && e.claim == s.shell.held
  }

  predicate ServerSaidNotLocked(s: System, e: Event) {
    e.PollReturn? && s.shell.held.Some? && e.asked == s.shell.held && e.reply.Some?
    && e.reply.value.session != Some(Session(s.shell.held.value, Locked)) && Heard(e.asked, e.reply) in s.polls
  }

  // Ten seconds of Escape, uninterrupted, all of it on a held screen, counted from the first.
  predicate TenSecondsOfEscape(ss: seq<System>, es: seq<Event>, i: nat)
    requires i < |es| && |ss| == |es| + 1
  {
    es[i].Key? && es[i].key.EscapeDown?
    && exists j :: 0 <= j < i && HoldBegan(ss, es, j, i) && es[i].key.now - es[j].key.now >= 10_000
  }

  // The process dies, outright or in the middle of re-asserting a named lock.
  predicate Dying(e: Event) {
    e.Crash? || (e.DieEngaging? && e.id != "")
  }

  // What frees a held screen, by one step, exactly.
  lemma FreesExactly(s: System, e: Event)
    requires Inv(s) && s.shell.locked
    ensures Frees(s, e) <==>
        || TokenForHeld(s, e) || ServerSaidNotLocked(s, e) || Dying(e)
        || (e.Key? && KS.Fires(s.shell.hold, e.key, KS.HOLD_TO_RELEASE_MS))
  {
    if Frees(s, e) {
      FreedBy(s, e);
    } else if e.Key? && !e.key.Reset? {
      KeyFrees(s.shell, e.key, e.fate);
    }
  }

  // In every run, whatever is in flight and however the clock jumps, a held screen goes free exactly by a
  // token naming the session held, by the server's word that this session is not locked, by ten
  // uninterrupted seconds of Escape, or by the process dying.
  lemma EveryRelease(canUnlock: bool, ss: seq<System>, es: seq<Event>, i: nat)
    requires IsRun(ss, es) && ss[0] == Initial(canUnlock) && i < |es| && ss[i].shell.locked
    ensures !ss[i + 1].shell.locked <==>
        || TokenForHeld(ss[i], es[i]) || ServerSaidNotLocked(ss[i], es[i]) || Dying(es[i])
        || TenSecondsOfEscape(ss, es, i)
  {
    RunInv(ss, es, i);
    FreesExactly(ss[i], es[i]);
    if es[i].Key? {
      HoldsExplained(ss, es, i);
      FiringHold(ss[i].shell.hold, es[i].key);
      if TenSecondsOfEscape(ss, es, i) {
        var j :| 0 <= j < i && HoldBegan(ss, es, j, i) && es[i].key.now - es[j].key.now >= 10_000;
        OneBeginning(ss, es, i);
      }
    }
  }

  lemma OneBeginning(ss: seq<System>, es: seq<Event>, i: nat)
    requires i <= |es| && |ss| == |es| + 1
    ensures forall j, k :: 0 <= j < i && 0 <= k < i && HoldBegan(ss, es, j, i) && HoldBegan(ss, es, k, i) ==> j == k
  {
  }

  lemma FiringHold(h: KS.Hold, key: KS.Event)
    requires !h.fired
    ensures KS.Fires(h, key, KS.HOLD_TO_RELEASE_MS) <==>
        key.EscapeDown? && h.startedAt.Some? && key.now - h.startedAt.value >= 10_000
  {
  }

  // A verified token frees the screen exactly if it names the session held; then nothing is held, the
  // hold is forgotten and the record goes if its deletion succeeds. Any other token changes nothing.
  lemma UnlockExactly(s: System, claim: Option<Id>, fate: Fate)
    requires Inv(s) && s.up && s.shell.locked
    ensures var t := Step(s, UnlockIpc(claim, fate));
      && (!t.shell.locked <==> s.shell.held.Some? && claim == s.shell.held)
      && (!t.shell.locked ==>
            t.shell == Memory(false, None, if fate == Done then None else s.shell.disk, KS.Hold(None, false), true))
      && (t.shell.locked ==> t == s)
  {
  }

  // ---------------------------------------------------------------- taking the screen and asking to

  // A lock that names no session, asked for while the screen is free.
  predicate UnnamedLock(s: System, e: Event) {
    e.LockIpc? && (e.session.None? || e.session.value == "") && s.up && s.canUnlock && !s.shell.locked
  }

  // `id` is engaged: its confirmation comes in, or the renderer names it while the screen is held.
  predicate Names(s: System, e: Event, id: Id) {
    || (Lands(s, e) && e.id == id)
    || (e.LockIpc? && s.up && s.shell.locked && e.session == Some(id) && id != "")
  }

  // A free screen is taken exactly by a confirmation that comes in, or by a lock that names no session.
  lemma ScreenTaken(s: System, e: Event)
    requires Inv(s) && !s.shell.locked
    ensures Step(s, e).shell.locked <==> Lands(s, e) || UnnamedLock(s, e)
    ensures UnnamedLock(s, e) ==> Step(s, e).shell == Memory(true, None, s.shell.disk, KS.Hold(None, false), false)
  {
    if Elsewhere(e) {
      ElsewhereStep(s, e);
    } else if e.LockIpc? {
      UnnamedTaken(s, e.session, e.now, e.fate);
    } else if !e.EngageReturn? {
      NotTaken(s, e);
    }
  }

  lemma UnnamedTaken(s: System, id: Option<Id>, now: int, fate: Fate)
    requires MemoryOk(s.shell) && !s.shell.locked
    ensures var t, unnamed := LockAsked(s, id, now, fate), id.None? || id.value == "";
      && (t.shell.locked <==> s.up && s.canUnlock && unnamed)
      && (t.shell.locked ==> t.shell == Memory(true, None, s.shell.disk, KS.Hold(None, false), false))
  {
  }

  lemma NotTaken(s: System, e: Event)
    requires !Elsewhere(e) && !e.LockIpc? && !e.EngageReturn? && !s.shell.locked
    ensures !Step(s, e).shell.locked
  {
    if e.Key? {
      assert Keyed(s.shell, e.key, e.fate) == s.shell;
    }
  }

  // An engaged session is the one held, under a record written now that is good for twelve hours, if the
  // write succeeds. The hold starts afresh only if the screen was free.
  lemma EngagedExactly(s: System, e: Event, id: Id)
    requires Inv(s) && Names(s, e, id)
    ensures var m, m' := s.shell, Step(s, e).shell;
      && m'.locked && m'.held == Some(id)
      && m'.disk == (if e.fate == Done then Some(PersistedLock(id, e.now, e.now + 43_200_000, None, None))
                     else if e.fate == Kept then m.disk else None)
      && (if m.locked then m'.hold == m.hold && m'.released == m.released
          else m'.hold == KS.Hold(None, false) && !m'.released)
  {
    if e.EngageReturn? {
      EngageHeld(s, e);
    }
  }

  // The server is asked to confirm `id` exactly when the screen is wanted for it while it is free and a
  // key is configured.
  lemma AskedExactly(s: System, e: Event, id: Id)
    requires Inv(s)
    ensures Step(s, e).requests[Asked(id)] > s.requests[Asked(id)] <==>
      && s.up && !s.shell.locked && s.canUnlock
      && (e == TakeScreen(id) || (e.LockIpc? && e.session == Some(id) && id != "")
          || (e.Ready? && s.wanted == Some(id)))
  {
    if e.TakeScreen? {
      AskingExactly(s, e.id, id);
    } else if e.LockIpc? {
      if e.session.Some? { AskingExactly(s, e.session.value, id); }
    } else if e.Ready? {
      if s.wanted.Some? { AskingExactly(s, s.wanted.value, id); }
    } else {
      NotAsked(s, e, id);
    }
  }

  lemma AskingExactly(s: System, x: Id, id: Id)
    ensures Asking(s, x).requests[Asked(id)] > s.requests[Asked(id)] <==>
        x == id && s.up && !s.shell.locked && s.canUnlock
  {
  }

  lemma AdvancedLess(s: System, from: Request, to: Request, id: Id)
    requires !to.Asked?
    ensures Advanced(s, from, to).requests[Asked(id)] <= s.requests[Asked(id)]
  {
  }

  lemma NotAsked(s: System, e: Event, id: Id)
    requires !e.TakeScreen? && !e.LockIpc? && !e.Ready?
    ensures Step(s, e).requests[Asked(id)] <= s.requests[Asked(id)]
  {
    if e.ServeRead? || e.ServeClaim? || e.ServeReread? {
      NotAskedServing(s, e, id);
    } else if e.Fail? {
      AdvancedLess(s, e.request, Answered(e.request.id, Lost), id);
    } else {
      NoneAdded(s, e);
    }
  }

  lemma NotAskedServing(s: System, e: Event, id: Id)
    requires e.ServeRead? || e.ServeClaim? || e.ServeReread?
    ensures Step(s, e).requests[Asked(id)] <= s.requests[Asked(id)]
  {
    ServedLess(s, e.id, id);
    if e.ServeRead? {
      assert Step(s, e) == EngageRead(s, e.id);
    } else if e.ServeClaim? {
      assert Step(s, e).requests == EngageClaim(s, e.id).requests;
    } else {
      assert Step(s, e) == EngageReread(s, e.id);
    }
  }

  lemma NoneAdded(s: System, e: Event)
    requires !e.TakeScreen? && !e.LockIpc? && !e.Ready? && !e.Fail?
    requires !e.ServeRead? && !e.ServeClaim? && !e.ServeReread?
    ensures Step(s, e).requests <= s.requests
  {
  }

  lemma ServedLess(s: System, x: Id, id: Id)
    ensures EngageRead(s, x).requests[Asked(id)] <= s.requests[Asked(id)]
    ensures EngageClaim(s, x).requests[Asked(id)] <= s.requests[Asked(id)]
    ensures EngageReread(s, x).requests[Asked(id)] <= s.requests[Asked(id)]
  {
    ReadLess(s, x, id);
    AdvancedLess(s, Claiming(x), Rereading(x), id);
    AdvancedLess(s, Rereading(x), Answered(x, Confirmed(RowOf(s.server, x))), id);
  }

  lemma ReadLess(s: System, x: Id, id: Id)
    ensures EngageRead(s, x).requests[Asked(id)] <= s.requests[Asked(id)]
  {
    var row := RowOf(s.server, x);
    AdvancedLess(s, Asked(x),
      if row == Some(Locked) then Answered(x, Confirmed(Some(Locked)))
      else if row == Some(Armed) && s.server.due then Claiming(x) else Answered(x, Refused), id);
  }

  // Read for `id`, the server confirms a LOCKED session, goes on to claim a due ARMED one, and refuses
  // any other.
  lemma ReadExactly(s: System, id: Id)
    requires Asked(id) in s.requests
    ensures var rest, t := s.requests - multiset{Asked(id)}, Step(s, ServeRead(id));
      && (t.requests == rest + multiset{Answered(id, Confirmed(Some(Locked)))} <==> RowOf(s.server, id) == Some(Locked))
      && (t.requests == rest + multiset{Claiming(id)} <==> RowOf(s.server, id) == Some(Armed) && s.server.due)
      && (t.requests == rest + multiset{Answered(id, Refused)} <==>
            RowOf(s.server, id).None? || (RowOf(s.server, id) == Some(Armed) && !s.server.due))
  {
    var rest := s.requests - multiset{Asked(id)};
    var a, b, c := Answered(id, Confirmed(Some(Locked))), Claiming(id), Answered(id, Refused);
    assert (rest + multiset{a})[a] != (rest + multiset{b})[a] && (rest + multiset{b})[b] != (rest + multiset{c})[b];
    assert (rest + multiset{a})[c] != (rest + multiset{c})[c];
  }

  // ---------------------------------------------------------------- the watchdog and the server

  // A readable answer releases a named lock exactly if the server has ended that session or never
  // locked it; no answer, and a lock with no name, release nothing.
  lemma VerdictExact(v: Server, held: Option<Id>)
    requires ServerOk(v)
    ensures VerdictFor(None, held) != Resolved
    ensures VerdictFor(Some(Reply(v.current)), held) == Resolved <==>
        held.Some? && held.value != "" && (held.value in v.ended || held.value !in v.lockedOnce)
    ensures held.Some? && Known(v, held.value) ==>
      (VerdictFor(Some(Reply(v.current)), held) == Resolved <==>
        held.value in v.ended || v.current == Some(Session(held.value, Armed)))
  {
  }

  // A renderer that re-asserts a lock names the session held, or none.
  predicate Faithful(s: System, e: Event) {
    e.LockIpc? && s.shell.locked && e.session.Some? && e.session.value != "" ==> e.session == s.shell.held
  }

  // A confirmation comes in.
  predicate Lands(s: System, e: Event) {
    e.EngageReturn? && e.answer.Confirmed? && Answered(e.id, e.answer) in s.requests
  }

  // A confirmation that takes or keeps the screen does not show its session still ARMED. The shell could
  // look; it does not.
  predicate Checked(s: System, e: Event) {
    Lands(s, e) ==> e.answer.row != Some(Armed)
  }

  // What the server has had of a session: the session, or, if every confirmation was checked, its lock
  // or its end.
  predicate Vouched(v: Server, id: Id, checked: bool) {
    Known(v, id) && (checked ==> id in v.lockedOnce || id in v.ended)
  }

  // With faithful re-assertions the server vouches for the session held and for every session a poll is
  // out for; and an answer that releases is about a session that is over, or else shows it ARMED, which
  // cannot be if every confirmation was checked.
  ghost predicate PollsOk(s: System, checked: bool) {
    && (s.shell.held.Some? ==> Vouched(s.server, s.shell.held.value, checked))
    && AsksOk(s, checked) && AnswersOk(s, checked)
  }

  ghost predicate AsksOk(s: System, checked: bool) {
    forall a :: Polled(Some(a)) in s.polls ==> Vouched(s.server, a, checked)
  }

  ghost predicate AnswersOk(s: System, checked: bool) {
    forall a, r :: Heard(Some(a), r) in s.polls && VerdictFor(r, Some(a)) == Resolved ==>
      a in s.server.ended || (!checked && r.value.session == Some(Session(a, Armed)))
  }

  lemma StillVouched(v: Server, w: Server, a: Id, checked: bool)
    requires Monotone(v, w) && Vouched(v, a, checked)
    ensures Vouched(w, a, checked)
  {
  }

  lemma PollsStep(s: System, e: Event, checked: bool)
    requires Inv(s) && PollsOk(s, checked) && Faithful(s, e) && (checked ==> Checked(s, e))
    ensures PollsOk(Step(s, e), checked)
  {
    ServerStep(s, e);
    HeldStep(s, e, checked);
    var t := Step(s, e);
    if t.shell.held.Some? {
      StillVouched(s.server, t.server, t.shell.held.value, checked);
    }
    AsksStep(s, e, checked);
    AnswersStep(s, e, checked);
  }

  lemma AsksStep(s: System, e: Event, checked: bool)
    requires ServerOk(s.server) && PollsOk(s, checked)
    ensures AsksOk(Step(s, e), checked)
  {
    ServerStep(s, e);
    forall a | Polled(Some(a)) in Step(s, e).polls
      ensures Vouched(Step(s, e).server, a, checked)
    {
      NewPoll(s, e, a);
      StillVouched(s.server, Step(s, e).server, a, checked);
    }
  }

  lemma AnswersStep(s: System, e: Event, checked: bool)
    requires ServerOk(s.server) && PollsOk(s, checked)
    ensures AnswersOk(Step(s, e), checked)
  {
    ServerStep(s, e);
    forall a, r | Heard(Some(a), r) in Step(s, e).polls && VerdictFor(r, Some(a)) == Resolved
      ensures a in Step(s, e).server.ended || (!checked && r.value.session == Some(Session(a, Armed)))
    {
      NewAnswer(s, e, a, r, checked);
    }
  }

  lemma NewPoll(s: System, e: Event, a: Id)
    requires Polled(Some(a)) in Step(s, e).polls
    ensures Polled(Some(a)) in s.polls || s.shell.held == Some(a)
  {
  }

  lemma NewHeard(s: System, e: Event, asked: Option<Id>, r: Option<Reply>)
    requires Heard(asked, r) in Step(s, e).polls && Heard(asked, r) !in s.polls
    ensures e.ServePoll? && e.asked == asked && Polled(asked) in s.polls
    ensures r == if e.delivered then Some(Reply(s.server.current)) else None
  {
    if !e.ServePoll? {
      NoNewHeard(s, e, Heard(asked, r));
    }
  }

  lemma NoNewHeard(s: System, e: Event, p: Poll)
    requires !e.ServePoll? && p.Heard?
    ensures p in Step(s, e).polls ==> p in s.polls
  {
  }

  lemma NewAnswer(s: System, e: Event, a: Id, r: Option<Reply>, checked: bool)
    requires ServerOk(s.server) && PollsOk(s, checked)
    requires Heard(Some(a), r) in Step(s, e).polls && VerdictFor(r, Some(a)) == Resolved
    ensures a in s.server.ended || (!checked && r.value.session == Some(Session(a, Armed)))
  {
    if Heard(Some(a), r) !in s.polls {
      NewHeard(s, e, Some(a), r);
      VerdictExact(s.server, Some(a));
    }
  }

  lemma HeldStep(s: System, e: Event, checked: bool)
    requires Inv(s) && PollsOk(s, checked) && Faithful(s, e) && (checked ==> Checked(s, e))
    ensures Step(s, e).shell.held.Some? ==> Vouched(s.server, Step(s, e).shell.held.value, checked)
  {
    if Elsewhere(e) {
      ElsewhereStep(s, e);
    } else if e.EngageReturn? {
      EngageHeld(s, e);
      if Lands(s, e) {
        ConfirmationVouched(s, e, checked);
      }
    } else if e.LockIpc? {
      LockHeld(s, e);
    } else {
      OtherHeld(s, e);
    }
  }

  lemma ConfirmationVouched(s: System, e: Event, checked: bool)
    requires RequestsOk(s) && Lands(s, e) && (checked ==> Checked(s, e))
    ensures Vouched(s.server, e.id, checked)
  {
    assert RequestOk(s.server, Answered(e.id, e.answer));
    match e.answer.row
    case None =>
    case Some(Locked) =>
    case Some(Armed) =>
  }

  lemma EngageHeld(s: System, e: Event)
    requires e.EngageReturn? && RequestsOk(s)
    ensures Step(s, e).shell.held == if Lands(s, e) then Some(e.id) else s.shell.held
  {
    if Lands(s, e) {
      assert RequestOk(s.server, Answered(e.id, e.answer));
    }
  }

  lemma LockHeld(s: System, e: Event)
    requires e.LockIpc? && MemoryOk(s.shell) && Faithful(s, e)
    ensures Step(s, e).shell.held == s.shell.held
  {
  }

  lemma OtherHeld(s: System, e: Event)
    requires !Elsewhere(e) && !e.EngageReturn? && !e.LockIpc?
    ensures Step(s, e).shell.held == s.shell.held || Step(s, e).shell.held.None?
  {
    if e.Key? && !e.key.Reset? && s.shell.locked {
      KeyFrees(s.shell, e.key, e.fate);
    }
  }

  ghost predicate AllFaithful(ss: seq<System>, es: seq<Event>, n: nat)
    requires n <= |es| && |ss| == |es| + 1
  {
    forall k :: 0 <= k < n ==> Faithful(ss[k], es[k])
  }

  ghost predicate AllChecked(ss: seq<System>, es: seq<Event>, n: nat)
    requires n <= |es| && |ss| == |es| + 1
  {
    forall k :: 0 <= k < n ==> Checked(ss[k], es[k])
  }

  lemma {:induction false} RunPollsOk(ss: seq<System>, es: seq<Event>, i: nat, checked: bool)
    requires IsRun(ss, es) && Inv(ss[0]) && PollsOk(ss[0], checked) && i <= |es|
    requires AllFaithful(ss, es, i) && (checked ==> AllChecked(ss, es, i))
    ensures PollsOk(ss[i], checked)
    decreases i
  {
    if i > 0 {
      RunPollsOk(ss, es, i - 1, checked);
      RunInv(ss, es, i - 1);
      PollsStep(ss[i - 1], es[i - 1], checked);
    }
  }

  // So if every confirmation acted on is checked, the watchdog lets go only of a session the server had
  // already ended, however late its answer comes back.
  lemma WatchdogOnlyAfterTheEnd(canUnlock: bool, ss: seq<System>, es: seq<Event>, i: nat)
    requires IsRun(ss, es) && ss[0] == Initial(canUnlock)
    requires AllFaithful(ss, es, |es|) && AllChecked(ss, es, |es|)
    requires i < |es| && es[i].PollReturn? && ss[i].shell.locked && !ss[i + 1].shell.locked
    ensures ss[i].shell.held.Some? && ss[i].shell.held.value in ss[i].server.ended
  {
    RunInv(ss, es, i);
    RunPollsOk(ss, es, i, true);
    FreedBy(ss[i], es[i]);
  }

  // Where an answer was given: at some step before, about the server as it was then.
  ghost predicate GivenAt(ss: seq<System>, es: seq<Event>, k: nat, asked: Option<Id>, r: Reply)
    requires k < |es| && |ss| == |es| + 1
  {
    es[k] == ServePoll(asked, true) && Polled(asked) in ss[k].polls && r == Reply(ss[k].server.current)
  }

  lemma {:induction false} AnswerGiven(ss: seq<System>, es: seq<Event>, i: nat, asked: Option<Id>, r: Reply)
    requires IsRun(ss, es) && ss[0].polls == multiset{} && i <= |es| && Heard(asked, Some(r)) in ss[i].polls
    ensures exists k :: 0 <= k < i && GivenAt(ss, es, k, asked, r)
    decreases i
  {
    if i > 0 {
      if Heard(asked, Some(r)) in ss[i - 1].polls {
        AnswerGiven(ss, es, i - 1, asked, r);
      } else {
        NewHeard(ss[i - 1], es[i - 1], asked, Some(r));
        assert GivenAt(ss, es, i - 1, asked, r);
      }
    }
  }

  lemma {:induction false} ServerGrows(ss: seq<System>, es: seq<Event>, j: nat, k: nat)
    requires IsRun(ss, es) && Inv(ss[0]) && j <= k <= |es|
    ensures ss[j].server.ended <= ss[k].server.ended && ss[j].server.lockedOnce <= ss[k].server.lockedOnce
    decreases k
  {
    if j < k {
      ServerGrows(ss, es, j, k - 1);
      RunInv(ss, es, k - 1);
      ServerStep(ss[k - 1], es[k - 1]);
    }
  }

  // And a session the server has ARMED was never confirmed otherwise: every confirmation of it that came
  // in so far shows ARMED, its claim having matched nothing.
  lemma ArmedMeansUnclaimed(canUnlock: bool, ss: seq<System>, es: seq<Event>, j: nat, k: nat)
    requires IsRun(ss, es) && ss[0] == Initial(canUnlock) && j < k <= |es| && Lands(ss[j], es[j])
    requires ss[k].server.current == Some(Session(es[j].id, Armed))
    ensures es[j].answer.row == Some(Armed) && es[j].id !in ss[k].server.lockedOnce
  {
    RunInv(ss, es, j);
    RunInv(ss, es, k);
    ServerGrows(ss, es, j, k);
    assert RequestOk(ss[j].server, Answered(es[j].id, es[j].answer));
    match es[j].answer.row
    case None =>
    case Some(Locked) =>
    case Some(Armed) =>
  }

  // In general, checked or not: whenever the watchdog lets go, the server had ended the session when it
  // gave the answer, exactly if that answer does not show the session ARMED. It had if it ever locked the
  // session, as it has if any confirmation so far came from a claim that hit, or showed it LOCKED or over.
  lemma WatchdogExactly(canUnlock: bool, ss: seq<System>, es: seq<Event>, i: nat) returns (k: nat)
    requires IsRun(ss, es) && ss[0] == Initial(canUnlock) && AllFaithful(ss, es, |es|)
    requires i < |es| && es[i].PollReturn? && ss[i].shell.locked && !ss[i + 1].shell.locked
    ensures ss[i].shell.held.Some? && es[i].reply.Some?
    ensures k < i && GivenAt(ss, es, k, ss[i].shell.held, es[i].reply.value)
    ensures var a := ss[i].shell.held.value;
      && (a in ss[k].server.ended <==> es[i].reply.value.session != Some(Session(a, Armed)))
      && (a in ss[k].server.lockedOnce ==> a in ss[k].server.ended)
      && (forall j :: 0 <= j < k && Lands(ss[j], es[j]) && es[j].id == a && es[j].answer.row != Some(Armed) ==>
            a in ss[k].server.ended)
  {
    RunInv(ss, es, i);
    FreedBy(ss[i], es[i]);
    var a := ss[i].shell.held.value;
    AnswerGiven(ss, es, i, Some(a), es[i].reply.value);
    k :| 0 <= k < i && GivenAt(ss, es, k, Some(a), es[i].reply.value);
    RunInv(ss, es, k);
    RunPollsOk(ss, es, k, false);
    VerdictExact(ss[k].server, Some(a));
    forall j | 0 <= j < k && Lands(ss[j], es[j]) && es[j].id == a && es[j].answer.row != Some(Armed)
      ensures a in ss[k].server.ended
    {
      if a !in ss[k].server.ended {
        ArmedMeansUnclaimed(canUnlock, ss, es, j, k);
      }
    }
  }

  // An answer about a session that is not over and not locked either.
  predicate AnsweredWhileArmed(s: System, e: Event) {
    e.ServePoll? && e.delivered && e.asked.Some? && Polled(e.asked) in s.polls
    && s.server.current == Some(Session(e.asked.value, Armed))
  }

  predicate MisleadingAnswer(s: System, e: Event) {
    e.ServePoll? && e.delivered && e.asked.Some? && Polled(e.asked) in s.polls
    && VerdictFor(Some(Reply(s.server.current)), e.asked) == Resolved && e.asked.value !in s.server.ended
  }

  // No answer of a run asks for the release of a session the server has not ended exactly if no poll of
  // the run is answered while its session is ARMED.
  lemma AnswersExactly(canUnlock: bool, ss: seq<System>, es: seq<Event>)
    requires IsRun(ss, es) && ss[0] == Initial(canUnlock) && AllFaithful(ss, es, |es|)
    ensures (forall k :: 0 <= k < |es| ==> !MisleadingAnswer(ss[k], es[k]))
       <==> (forall k :: 0 <= k < |es| ==> !AnsweredWhileArmed(ss[k], es[k]))
  {
    forall k | 0 <= k < |es|
      ensures MisleadingAnswer(ss[k], es[k]) <==> AnsweredWhileArmed(ss[k], es[k])
    {
      RunInv(ss, es, k);
      RunPollsOk(ss, es, k, false);
      if es[k].ServePoll? && es[k].asked.Some? {
        VerdictExact(ss[k].server, es[k].asked);
      }
    }
  }

  // ---------------------------------------------------------------- what a confirmation confirms

  // The server reads the row for a confirmation: a LOCKED one at once, any other only after a claim.
  predicate ReadOff(s: System, e: Event, id: Id, row: Option<Phase>) {
    && row == RowOf(s.server, id)
    && ((e == ServeRead(id) && Asked(id) in s.requests && row == Some(Locked))
        || (e == ServeReread(id) && Rereading(id) in s.requests))
  }

  lemma ReadStage(s: System, id: Id, r: Request)
    requires r in EngageRead(s, id).requests && r !in s.requests
    ensures Asked(id) in s.requests
    ensures r == Claiming(id) || r == Answered(id, Refused)
      || (r == Answered(id, Confirmed(Some(Locked))) && RowOf(s.server, id) == Some(Locked))
  {
    var row := RowOf(s.server, id);
    AdvancedOnly(s, Asked(id),
      if row == Some(Locked) then Answered(id, Confirmed(Some(Locked)))
      else if row == Some(Armed) && s.server.due then Claiming(id) else Answered(id, Refused), r);
  }

  // Where a confirmation and a read-back come from.
  lemma NextStage(s: System, e: Event, r: Request)
    requires r in Step(s, e).requests && r !in s.requests
    ensures r.Answered? && r.answer.Confirmed? ==> ReadOff(s, e, r.id, r.answer.row)
    ensures r.Rereading? ==> ClaimedAt(s, e, r.id)
  {
    var t := Step(s, e);
    if e.ServeRead? {
      assert t == EngageRead(s, e.id);
      ReadStage(s, e.id, r);
    } else if e.ServeClaim? {
      assert t == EngageClaim(s, e.id) && Claiming(e.id) in s.requests;
      AdvancedOnly(s, Claiming(e.id), Rereading(e.id), r);
    } else if e.ServeReread? {
      assert t == EngageReread(s, e.id) && Rereading(e.id) in s.requests;
      AdvancedOnly(s, Rereading(e.id), Answered(e.id, Confirmed(RowOf(s.server, e.id))), r);
    } else {
      OtherNew(s, e, r);
    }
  }

  lemma NewConfirmation(s: System, e: Event, id: Id, row: Option<Phase>)
    requires Answered(id, Confirmed(row)) in Step(s, e).requests && Answered(id, Confirmed(row)) !in s.requests
    ensures ReadOff(s, e, id, row)
  {
    NextStage(s, e, Answered(id, Confirmed(row)));
  }

  lemma {:induction false} ConfirmationGiven(ss: seq<System>, es: seq<Event>, i: nat, id: Id, row: Option<Phase>)
    requires IsRun(ss, es) && ss[0].requests == multiset{} && i <= |es|
    requires Answered(id, Confirmed(row)) in ss[i].requests
    ensures exists k :: 0 <= k < i && ReadOff(ss[k], es[k], id, row)
    decreases i
  {
    if i > 0 {
      if Answered(id, Confirmed(row)) in ss[i - 1].requests {
        ConfirmationGiven(ss, es, i - 1, id, row);
      } else {
        NewConfirmation(ss[i - 1], es[i - 1], id, row);
      }
    }
  }

  predicate ClaimedAt(s: System, e: Event, id: Id) {
    e == ServeClaim(id) && Claiming(id) in s.requests
  }

  lemma NewReread(s: System, e: Event, id: Id)
    requires Rereading(id) in Step(s, e).requests && Rereading(id) !in s.requests
    ensures ClaimedAt(s, e, id)
  {
    NextStage(s, e, Rereading(id));
  }

  lemma {:induction false} ClaimGiven(ss: seq<System>, es: seq<Event>, i: nat, id: Id)
    requires IsRun(ss, es) && ss[0].requests == multiset{} && i <= |es| && Rereading(id) in ss[i].requests
    ensures exists c :: 0 <= c < i && ClaimedAt(ss[c], es[c], id)
    decreases i
  {
    if i > 0 {
      if Rereading(id) in ss[i - 1].requests {
        ClaimGiven(ss, es, i - 1, id);
      } else {
        NewReread(ss[i - 1], es[i - 1], id);
      }
    }
  }

  // The steps that lock a session and the one that ends it.
  predicate LocksRow(s: System, e: Event, id: Id) {
    RowOf(s.server, id) == Some(Armed) && s.server.due && (e.ServerEngage? || ClaimedAt(s, e, id))
  }

  predicate EndsRow(s: System, e: Event, id: Id) {
    e.End? && RowOf(s.server, id).Some?
  }

  lemma RowStep(s: System, e: Event, id: Id)
    requires ServerOk(s.server) && Known(s.server, id)
    ensures RowOf(Step(s, e).server, id) == Some(Locked) <==>
        (RowOf(s.server, id) == Some(Locked) || LocksRow(s, e, id)) && !EndsRow(s, e, id)
    ensures EndsRow(s, e, id) ==> id in Step(s, e).server.ended
    ensures LocksRow(s, e, id) ==> id !in s.server.ended
  {
    if e.ServerEngage? || e.ServeClaim? {
      RowEngaged(s, e, id);
    } else if !e.Arm? && !e.End? && !e.Countdown? {
      assert Step(s, e).server == s.server;
    }
  }

  lemma RowEngaged(s: System, e: Event, id: Id)
    requires ServerOk(s.server) && Known(s.server, id) && (e.ServerEngage? || e.ServeClaim?)
    ensures RowOf(Step(s, e).server, id) == Some(Locked) <==>
        RowOf(s.server, id) == Some(Locked) || LocksRow(s, e, id)
  {
    var other := if e.ServeClaim? then e.id else if s.server.current.Some? then s.server.current.value.id else "";
    assert Step(s, e).server == s.server || Step(s, e).server == ClaimedDue(s.server, other);
  }

  ghost predicate LockedIn(ss: seq<System>, es: seq<Event>, c: nat, k: nat, id: Id)
    requires c <= k <= |es| && |ss| == |es| + 1
  {
    exists j :: c <= j < k && LocksRow(ss[j], es[j], id)
  }

  ghost predicate EndedIn(ss: seq<System>, es: seq<Event>, c: nat, k: nat, id: Id)
    requires c <= k <= |es| && |ss| == |es| + 1
  {
    exists j :: c <= j < k && EndsRow(ss[j], es[j], id)
  }

  // Locked at c, or locked between c and k, and not ended in between.
  ghost predicate LockStands(ss: seq<System>, es: seq<Event>, c: nat, k: nat, id: Id)
    requires c <= k <= |es| && |ss| == |es| + 1
  {
    (RowOf(ss[c].server, id) == Some(Locked) || LockedIn(ss, es, c, k, id)) && !EndedIn(ss, es, c, k, id)
  }

  lemma LastStep(ss: seq<System>, es: seq<Event>, c: nat, k: nat, id: Id)
    requires c < k <= |es| && |ss| == |es| + 1
    ensures LockedIn(ss, es, c, k, id) <==> LockedIn(ss, es, c, k - 1, id) || LocksRow(ss[k - 1], es[k - 1], id)
    ensures EndedIn(ss, es, c, k, id) <==> EndedIn(ss, es, c, k - 1, id) || EndsRow(ss[k - 1], es[k - 1], id)
  {
  }

  // From any moment at which the server has the session to any later one.
  lemma {:induction false} LockedExactly(ss: seq<System>, es: seq<Event>, c: nat, k: nat, id: Id)
    requires IsRun(ss, es) && Inv(ss[0]) && c <= k <= |es| && Known(ss[c].server, id)
    ensures RowOf(ss[k].server, id) == Some(Locked) <==> LockStands(ss, es, c, k, id)
    ensures Known(ss[k].server, id) && (EndedIn(ss, es, c, k, id) ==> id in ss[k].server.ended)
    decreases k
  {
    if c < k {
      LockedExactly(ss, es, c, k - 1, id);
      RunInv(ss, es, k - 1);
      ServerStep(ss[k - 1], es[k - 1]);
      RowStep(ss[k - 1], es[k - 1], id);
      LastStep(ss, es, c, k, id);
    }
  }

  // Whenever a confirmation comes in, the server read the row for it at some earlier moment, and had the
  // session LOCKED then exactly if the confirmation shows it LOCKED. It still has it LOCKED now exactly if
  // it had, or locked it since, and nothing has ended it since.
  lemma TakenExactly(canUnlock: bool, ss: seq<System>, es: seq<Event>, i: nat) returns (k: nat)
    requires IsRun(ss, es) && ss[0] == Initial(canUnlock) && i < |es| && Lands(ss[i], es[i])
    ensures k < i && ReadOff(ss[k], es[k], es[i].id, es[i].answer.row)
    ensures RowOf(ss[k].server, es[i].id) == Some(Locked) <==> es[i].answer.row == Some(Locked)
    ensures RowOf(ss[i].server, es[i].id) == Some(Locked) <==> LockStands(ss, es, k, i, es[i].id)
  {
    ConfirmationGiven(ss, es, i, es[i].id, es[i].answer.row);
    k :| 0 <= k < i && ReadOff(ss[k], es[k], es[i].id, es[i].answer.row);
    RunInv(ss, es, k);
    ReadKnown(ss[k], es[k], es[i].id, es[i].answer.row);
    LockedExactly(ss, es, k, i, es[i].id);
  }

  lemma ReadKnown(s: System, e: Event, id: Id, row: Option<Phase>)
    requires Inv(s) && ReadOff(s, e, id, row)
    ensures Known(s.server, id)
  {
    if e.ServeReread? {
      assert RequestOk(s.server, Rereading(id));
    }
  }

  // A row is read back after a claim.
  predicate ReadsBack(s: System, e: Event) {
    e.ServeReread? && Rereading(e.id) in s.requests
  }

  // And is found other than LOCKED.
  predicate HollowReread(s: System, e: Event) {
    ReadsBack(s, e) && RowOf(s.server, e.id) != Some(Locked)
  }

  // The read-back finds the row LOCKED exactly if the claim, or an engage before or after it, locked the
  // session and nothing ended it before the read-back.
  lemma ReadBackExactly(canUnlock: bool, ss: seq<System>, es: seq<Event>, c: nat, k: nat)
    requires IsRun(ss, es) && ss[0] == Initial(canUnlock) && c < k < |es|
    requires ReadsBack(ss[k], es[k]) && ClaimedAt(ss[c], es[c], es[k].id)
    ensures !HollowReread(ss[k], es[k]) <==> LockStands(ss, es, c, k, es[k].id)
  {
    RunInv(ss, es, c);
    assert RequestOk(ss[c].server, Claiming(es[k].id));
    LockedExactly(ss, es, c, k, es[k].id);
  }

  ghost predicate NoHollow(ss: seq<System>) {
    forall k, id, row :: 0 <= k < |ss| && Answered(id, Confirmed(row)) in ss[k].requests ==> row == Some(Locked)
  }

  // For every read-back and every claim before it that it can be the read-back of.
  ghost predicate AllStand(ss: seq<System>, es: seq<Event>)
    requires |ss| == |es| + 1
  {
    forall c, k :: 0 <= c < k < |es| && ReadsBack(ss[k], es[k]) && ClaimedAt(ss[c], es[c], es[k].id) ==>
      LockStands(ss, es, c, k, es[k].id)
  }

  // No confirmation of a run is for a session that was not LOCKED exactly if every read-back of the run
  // finds its row LOCKED: the session was LOCKED at the claim, or was locked by it or by an engage after
  // it, and nothing ended it before the read-back.
  lemma HollowExactly(canUnlock: bool, ss: seq<System>, es: seq<Event>)
    requires IsRun(ss, es) && ss[0] == Initial(canUnlock)
    ensures NoHollow(ss) <==> forall k :: 0 <= k < |es| ==> !HollowReread(ss[k], es[k])
    ensures NoHollow(ss) <==> AllStand(ss, es)
  {
    forall k | 0 <= k < |es| && HollowReread(ss[k], es[k])
      ensures !NoHollow(ss) && !AllStand(ss, es)
    {
      HollowShows(ss[k], es[k]);
      NotHollow(ss, k + 1, es[k].id, RowOf(ss[k].server, es[k].id));
      ClaimGiven(ss, es, k, es[k].id);
      var c :| 0 <= c < k && ClaimedAt(ss[c], es[c], es[k].id);
      ReadBackExactly(canUnlock, ss, es, c, k);
    }
    forall c, k | 0 <= c < k < |es| && ReadsBack(ss[k], es[k]) && ClaimedAt(ss[c], es[c], es[k].id)
        && !LockStands(ss, es, c, k, es[k].id)
      ensures HollowReread(ss[k], es[k])
    {
      ReadBackExactly(canUnlock, ss, es, c, k);
    }
    forall k, id, row | 0 <= k < |ss| && Answered(id, Confirmed(row)) in ss[k].requests && row != Some(Locked)
      ensures exists j :: 0 <= j < |es| && HollowReread(ss[j], es[j])
    {
      ConfirmationGiven(ss, es, k, id, row);
      var j :| 0 <= j < k && ReadOff(ss[j], es[j], id, row);
      assert HollowReread(ss[j], es[j]);
    }
  }

  lemma HollowShows(s: System, e: Event)
    requires HollowReread(s, e)
    ensures Answered(e.id, Confirmed(RowOf(s.server, e.id))) in Step(s, e).requests
  {
  }

  lemma NotHollow(ss: seq<System>, k: nat, id: Id, row: Option<Phase>)
    requires k < |ss| && Answered(id, Confirmed(row)) in ss[k].requests && row != Some(Locked)
    ensures !NoHollow(ss)
  {
  }

  // ---------------------------------------------------------------- whose lock is held

  // A confirmation lands while the screen is held for another session, or for none.
  predicate TakesOver(s: System, e: Event) {
    Lands(s, e) && s.shell.locked && s.shell.held != Some(e.id)
  }

  predicate Calm(s: System, e: Event) {
    !TakesOver(s, e) && Faithful(s, e)
  }

  // While the screen stays held, the session it is held for changes exactly at a take-over or at a
  // re-assertion that names another.
  lemma HeldChanges(s: System, e: Event)
    requires Inv(s) && s.shell.locked && Step(s, e).shell.locked
    ensures Step(s, e).shell.held == s.shell.held <==> Calm(s, e)
  {
    if Elsewhere(e) {
      ElsewhereStep(s, e);
    } else if e.EngageReturn? {
      EngageHeld(s, e);
    } else if e.LockIpc? {
      Reasserted(s, e);
    } else {
      OtherKept(s, e);
    }
  }

  lemma Reasserted(s: System, e: Event)
    requires e.LockIpc? && s.up && s.shell.locked
    ensures Step(s, e).shell.held != s.shell.held <==> !Faithful(s, e)
  {
  }

  lemma OtherKept(s: System, e: Event)
    requires Inv(s) && !Elsewhere(e) && !e.EngageReturn? && !e.LockIpc?
    requires s.shell.locked && Step(s, e).shell.locked
    ensures Step(s, e).shell.held == s.shell.held
  {
    OtherHeld(s, e);
    if e.Key? && !e.key.Reset? {
      KeyFrees(s.shell, e.key, e.fate);
    }
  }

  ghost predicate LockedFrom(ss: seq<System>, i: nat, k: nat)
    requires i <= k < |ss|
  {
    forall j :: i <= j <= k ==> ss[j].shell.locked
  }

  ghost predicate SameHeld(ss: seq<System>, i: nat, k: nat)
    requires i <= k < |ss|
  {
    forall j :: i <= j <= k ==> ss[j].shell.held == ss[i].shell.held
  }

  ghost predicate Undisturbed(ss: seq<System>, es: seq<Event>, i: nat, k: nat)
    requires i <= k <= |es| && |ss| == |es| + 1
  {
    forall j :: i <= j < k ==> Calm(ss[j], es[j])
  }

  // Each step keeps the session held exactly if it is calm.
  ghost predicate Tied(ss: seq<System>, es: seq<Event>, i: nat, k: nat)
    requires i <= k <= |es| && |ss| == |es| + 1
  {
    forall j :: i <= j < k ==> (ss[j + 1].shell.held == ss[j].shell.held <==> Calm(ss[j], es[j]))
  }

  lemma {:induction false} SteadyIff(ss: seq<System>, es: seq<Event>, i: nat, k: nat)
    requires i <= k <= |es| && |ss| == |es| + 1 && Tied(ss, es, i, k)
    ensures SameHeld(ss, i, k) <==> Undisturbed(ss, es, i, k)
    decreases k
  {
    if i < k {
      SteadyIff(ss, es, i, k - 1);
      assert es[k - 1] == es[k - 1] && ss[k - 1 + 1] == ss[k];
      SteadyFurther(ss, es, i, k, ss[k].shell.held == ss[k - 1].shell.held);
    }
  }

  // Over any stretch without a release: the screen is held for one and the same session throughout,
  // exactly if no confirmation for another lands in it and every re-assertion is faithful.
  lemma SteadyExactly(canUnlock: bool, ss: seq<System>, es: seq<Event>, i: nat, k: nat)
    requires IsRun(ss, es) && ss[0] == Initial(canUnlock) && i <= k <= |es| && LockedFrom(ss, i, k)
    ensures SameHeld(ss, i, k) <==> Undisturbed(ss, es, i, k)
  {
    forall j | i <= j < k
      ensures ss[j + 1].shell.held == ss[j].shell.held <==> Calm(ss[j], es[j])
    {
      NextHeld(canUnlock, ss, es, j);
    }
    SteadyIff(ss, es, i, k);
  }

  lemma NextHeld(canUnlock: bool, ss: seq<System>, es: seq<Event>, j: nat)
    requires IsRun(ss, es) && ss[0] == Initial(canUnlock) && j < |es| && ss[j].shell.locked && ss[j + 1].shell.locked
    ensures ss[j + 1].shell.held == ss[j].shell.held <==> Calm(ss[j], es[j])
  {
    RunInv(ss, es, j);
    HeldChanges(ss[j], es[j]);
  }

  lemma SteadyFurther(ss: seq<System>, es: seq<Event>, i: nat, k: nat, same: bool)
    requires i < k <= |es| && |ss| == |es| + 1
    requires SameHeld(ss, i, k - 1) <==> Undisturbed(ss, es, i, k - 1)
    requires same <==> ss[k].shell.held == ss[k - 1].shell.held
    requires same <==> Calm(ss[k - 1], es[k - 1])
    ensures SameHeld(ss, i, k) <==> Undisturbed(ss, es, i, k)
  {
    assert SameHeld(ss, i, k) <==> SameHeld(ss, i, k - 1) && same;
    assert Undisturbed(ss, es, i, k) <==> Undisturbed(ss, es, i, k - 1) && same;
  }

  // Then a watchdog release is about the very session the screen was taken for; and if confirmations were
  // checked, the server had ended that session, so no live lock is lost.
  lemma ReleasedWasTaken(canUnlock: bool, ss: seq<System>, es: seq<Event>, i: nat, k: nat)
    requires IsRun(ss, es) && ss[0] == Initial(canUnlock) && i < k < |es|
    requires !ss[i].shell.locked && LockedFrom(ss, i + 1, k) && Undisturbed(ss, es, i + 1, k)
    requires es[k].PollReturn? && !ss[k + 1].shell.locked
    ensures Lands(ss[i], es[i]) && es[k].asked == Some(es[i].id) && ss[k].shell.held == Some(es[i].id)
    ensures AllFaithful(ss, es, |es|) && AllChecked(ss, es, |es|) ==>
        es[i].id in ss[k].server.ended && ss[k].server.current != Some(Session(es[i].id, Locked))
  {
    RunInv(ss, es, i);
    RunInv(ss, es, k);
    SteadyExactly(canUnlock, ss, es, i + 1, k);
    FreedBy(ss[k], es[k]);
    TakenBy(ss[i], es[i]);
    if AllFaithful(ss, es, |es|) && AllChecked(ss, es, |es|) {
      WatchdogOnlyAfterTheEnd(canUnlock, ss, es, k);
    }
  }

  lemma TakenBy(s: System, e: Event)
    requires Inv(s) && !s.shell.locked && Step(s, e).shell.locked && Step(s, e).shell.held.Some?
    ensures Lands(s, e) && Step(s, e).shell.held == Some(e.id)
  {
    if Elsewhere(e) {
      ElsewhereStep(s, e);
    } else if e.EngageReturn? {
      EngageHeld(s, e);
    } else if e.LockIpc? {
      LockHeld(s, e);
    } else {
      OtherHeld(s, e);
    }
  }

  // ---------------------------------------------------------------- the record on disk, over a run

  // Every write and deletion this event makes succeeds.
  predicate Durable(e: Event) {
    (e.EngageReturn? || e.PollReturn? || e.LockIpc? || e.UnlockIpc? || e.Key? || e.DieEngaging? || e.Restart?)
    ==> e.fate == Done
  }

  predicate DiskNames(m: Memory) {
    m.held.Some? ==> m.disk.Some? && m.disk.value.sessionId == m.held.value
  }

  lemma EngagedDisk(m: Memory, id: Option<Id>, now: int)
    requires DiskNames(m)
    ensures DiskNames(Engaged(m, id, now, Done))
  {
  }

  lemma KeyedDisk(m: Memory, key: KS.Event)
    requires DiskNames(m)
    ensures DiskNames(Keyed(m, key, Done))
  {
  }

  lemma LockDisk(s: System, id: Option<Id>, now: int)
    requires DiskNames(s.shell)
    ensures DiskNames(LockAsked(s, id, now, Done).shell)
  {
    EngagedDisk(s.shell, id, now);
    EngagedDisk(s.shell, None, now);
  }

  lemma DiskStep(s: System, e: Event)
    requires Inv(s) && DiskNames(s.shell) && Durable(e)
    ensures DiskNames(Step(s, e).shell)
  {
    if Elsewhere(e) {
      ElsewhereStep(s, e);
    } else if e.Key? {
      KeyedDisk(s.shell, e.key);
    } else if e.EngageReturn? {
      EngagedDisk(s.shell, Some(e.id), e.now);
    } else if e.LockIpc? {
      LockDisk(s, e.session, e.now);
    } else {
      OtherDisk(s, e);
    }
  }

  lemma OtherDisk(s: System, e: Event)
    requires MemoryOk(s.shell) && PowerOk(s) && (e.PollReturn? || e.UnlockIpc? || Dies(e) || e.Restart?)
    ensures Step(s, e).shell.held.None? || Step(s, e).shell == s.shell
  {
    if e.PollReturn? || e.UnlockIpc? {
      assert Step(s, e).shell == s.shell || Step(s, e).shell == Released(s.shell, e.fate);
    } else if e.Restart? {
      assert s.up || s.shell.held.None?;
    }
  }

  // While the screen is held for a session the record on disk names that session, with exactly the
  // maximum lifetime; this is what a crash leaves behind.
  lemma {:induction false} DiskNamesHeld(canUnlock: bool, ss: seq<System>, es: seq<Event>, i: nat)
    requires IsRun(ss, es) && ss[0] == Initial(canUnlock) && i <= |es|
    requires forall k :: 0 <= k < i ==> Durable(es[k])
    ensures Inv(ss[i]) && DiskNames(ss[i].shell)
    decreases i
  {
    if i > 0 {
      DiskNamesHeld(canUnlock, ss, es, i - 1);
      StepInv(ss[i - 1], es[i - 1]);
      DiskStep(ss[i - 1], es[i - 1]);
    }
  }

  // A release clears memory and disk alike, and nothing comes back at the next start.
  lemma ReleaseClears(s: System, e: Event, now: int, canUnlock: bool)
    requires Inv(s) && Frees(s, e) && !Dies(e) && Durable(e)
    ensures Step(s, e).shell == Memory(false, None, None, KS.Idle, true)
    ensures Step(Step(Step(s, e), Crash), Restart(now, canUnlock, Done)).wanted.None?
  {
    FreedBy(s, e);
    Forgotten(Step(s, e), now, canUnlock);
  }

  // And whatever becomes of the deletion, or if the process dies before it: the next start wants nothing
  // exactly if the record was deleted, there was none, or the start is past the record's lifetime.
  lemma ReleaseThenStart(s: System, e: Event, now: int, canUnlock: bool)
    requires Inv(s) && Frees(s, e) && !e.DieEngaging?
    ensures Step(Step(Step(s, e), Crash), Restart(now, canUnlock, Done)).wanted.None? <==>
        (!e.Crash? && e.fate == Done) || s.shell.disk.None? || PastLifetime(s.shell.disk.value, now)
  {
    FreedBy(s, e);
    assert Step(s, e).shell.disk == if !e.Crash? && e.fate == Done then None else s.shell.disk;
    NextStart(Step(s, e), now, canUnlock);
  }

  // Counted either way from when the record was written.
  predicate PastLifetime(l: PersistedLock, now: int) {
    now < l.engagedAt - MAX_LOCK_LIFETIME_MS || l.engagedAt + MAX_LOCK_LIFETIME_MS <= now
  }

  lemma NextStart(s: System, now: int, canUnlock: bool)
    requires s.shell.disk.Some? ==> RecordOk(s.shell.disk.value)
    ensures var t := Step(Step(s, Crash), Restart(now, canUnlock, Done));
      t.wanted.None? <==> s.shell.disk.None? || PastLifetime(s.shell.disk.value, now)
  {
    if s.shell.disk.Some? {
      Startups(s.shell.disk.value, now);
    } else {
      Forgotten(s, now, canUnlock);
    }
  }

  lemma Forgotten(s: System, now: int, canUnlock: bool)
    requires s.shell.disk.None?
    ensures Step(Step(s, Crash), Restart(now, canUnlock, Done)).wanted.None?
  {
  }

  // A start at `now` that finds `l` on disk. The shell asks for its session exactly if the start falls
  // within the record's lifetime, counted either way from when it was written, and a key to release with
  // is configured; the record is then stamped, and past its lifetime it is removed. A start without a key
  // does not restore the lock.
  // The interruption is counted and dated, and the record otherwise kept.
  predicate Stamped(l: PersistedLock, now: int, d: PersistedLock) {
    && d.sessionId == l.sessionId && d.engagedAt == l.engagedAt && d.expiresAt == l.expiresAt
    && d.interruptedAt == Some(now)
    && d.interruptions == Some(if l.interruptions.None? then 1 else l.interruptions.value + 1)
  }

  lemma StartedWith(s: System, l: PersistedLock, now: int, canUnlock: bool)
    requires PowerOk(s) && !s.up && s.shell.disk == Some(l) && RecordOk(l)
    ensures var live := l.engagedAt - MAX_LOCK_LIFETIME_MS <= now < l.engagedAt + MAX_LOCK_LIFETIME_MS;
      var t := Step(Step(s, Restart(now, canUnlock, Done)), Ready);
      && t.up && !t.shell.locked && t.server == s.server
      && t.requests == (if live && canUnlock then multiset{Asked(l.sessionId)} else multiset{})
      && (if live then t.shell.disk.Some? && Stamped(l, now, t.shell.disk.value) else t.shell.disk.None?)
  {
    var s' := Step(s, Restart(now, canUnlock, Done));
    Startups(l, now);
    assert s'.shell.disk == Restarted(s.shell.disk, now, Done);
    assert multiset{} + multiset{Asked(l.sessionId)} == multiset{Asked(l.sessionId)};
  }

  lemma Startups(l: PersistedLock, now: int)
    requires RecordOk(l)
    ensures var live := l.engagedAt - MAX_LOCK_LIFETIME_MS <= now < l.engagedAt + MAX_LOCK_LIFETIME_MS;
      var d := Restarted(Some(l), now, Done);
      && (if live then d.Some? && Stamped(l, now, d.value) else d.None?)
      && Wanted(d, now) == if live then Some(l.sessionId) else None
  {
  }

  // So after a crash while the screen is held for `a`, whenever it comes, the next start asks for `a`,
  // exactly under those conditions.
  lemma CrashAndRestart(s: System, a: Id, now: int, canUnlock: bool)
    requires Inv(s) && DiskNames(s.shell) && s.shell.held == Some(a)
    ensures var l := s.shell.disk.value;
      var live := l.engagedAt - MAX_LOCK_LIFETIME_MS <= now < l.engagedAt + MAX_LOCK_LIFETIME_MS;
      var t := Step(Step(Step(s, Crash), Restart(now, canUnlock, Done)), Ready);
      && t.up && !t.shell.locked && t.server == s.server
      && t.requests == (if live && canUnlock then multiset{Asked(a)} else multiset{})
      && (if live then t.shell.disk.Some? && Stamped(l, now, t.shell.disk.value) else t.shell.disk.None?)
  {
    PowerStep(s, Crash);
    StartedWith(Step(s, Crash), s.shell.disk.value, now, canUnlock);
  }

  // And after a crash in the middle of taking the screen for `a`, or of re-asserting it: the record is
  // written first, so the session is not lost though the screen was never covered.
  lemma CrashWhileEngaging(s: System, a: Id, at: int, now: int, canUnlock: bool)
    requires Inv(s) && Engaging(s, a)
    ensures var l := NewLock(a, at);
      var live := at - MAX_LOCK_LIFETIME_MS <= now < at + MAX_LOCK_LIFETIME_MS;
      var t := Step(Step(Step(s, DieEngaging(a, at, Done)), Restart(now, canUnlock, Done)), Ready);
      && t.up && !t.shell.locked && t.server == s.server
      && t.requests == (if live && canUnlock then multiset{Asked(a)} else multiset{})
      && (if live then t.shell.disk.Some? && Stamped(l, now, t.shell.disk.value) else t.shell.disk.None?)
  {
    PowerStep(s, DieEngaging(a, at, Done));
    StartedWith(Step(s, DieEngaging(a, at, Done)), NewLock(a, at), now, canUnlock);
  }

  // If the server still has the session locked, answering that request holds the screen for it again.
  // The new record starts afresh: the interruption just counted is not in it.
  lemma Recovered(s: System, a: Id, now: int)
    requires Inv(s) && s.up && !s.shell.locked && Asked(a) in s.requests
    requires s.server.current == Some(Session(a, Locked))
    ensures var t := Step(Step(s, ServeRead(a)), EngageReturn(a, Confirmed(Some(Locked)), now, Done));
      && t.shell.locked && t.shell.held == Some(a) && t.server == s.server
      && t.shell.disk == Some(NewLock(a, now)) && t.shell.disk.value.interruptions.None?
  {
    assert Answered(a, Confirmed(Some(Locked))) in Step(s, ServeRead(a)).requests;
  }

  // ---------------------------------------------------------------- where the watchdog's promise ends

  ghost predicate Reachable(s: System) {
    exists ss, es :: IsRun(ss, es) && ss[0] == Initial(true) && ss[|es|] == s
  }

  lemma ReachableStep(s: System, e: Event)
    requires Reachable(s)
    ensures Reachable(Step(s, e))
  {
    var ss, es :| IsRun(ss, es) && ss[0] == Initial(true) && ss[|es|] == s;
    var ss', es' := ss + [Step(s, e)], es + [e];
    assert IsRun(ss', es') && ss'[|es'|] == Step(s, e);
  }

  // What the watchdog does, poll to release, to a lock held for `held` while the server's active
  // session is another one.
  function PolledOut(s: System, held: Id): System {
    Step(Step(Step(s, Tick), ServePoll(Some(held), true)), PollReturn(Some(held), Some(Reply(s.server.current)), Done))
  }

  lemma PolledOutFrees(s: System, held: Id)
    requires s.up && s.shell.locked && s.shell.held == Some(held) && held != ""
    requires s.server.current != Some(Session(held, Locked))
    ensures !PolledOut(s, held).shell.locked && PolledOut(s, held).server == s.server
  {
    var s1 := Step(s, Tick);
    var s2 := Step(s1, ServePoll(Some(held), true));
    assert Polled(Some(held)) in s1.polls;
    assert Heard(Some(held), Some(Reply(s.server.current))) in s2.polls;
  }

  // A renderer that re-asserts some other session while one is held makes the watchdog give the screen
  // back although the server still has the first one locked.
  lemma ForeignReassertion(s: System, a: Id, b: Id, now: int)
    requires s.up && s.shell.locked && s.server.current == Some(Session(a, Locked)) && b != a && b != ""
    ensures var t := PolledOut(Step(s, LockIpc(Some(b), now, Done)), b);
      !t.shell.locked && t.server.current == Some(Session(a, Locked))
  {
    PolledOutFrees(Step(s, LockIpc(Some(b), now, Done)), b);
  }

  // Asking for an ARMED session, up to its claim.
  lemma UpToClaim(s: System, id: Id) returns (t: System)
    requires Reachable(s) && s.up && s.canUnlock && !s.shell.locked
    requires s.server.current == Some(Session(id, Armed)) && s.server.due
    ensures Reachable(t) && t == s.(requests := s.requests + multiset{Claiming(id)})
  {
    ReachableStep(s, TakeScreen(id));
    t := Step(s, TakeScreen(id));
    assert t.requests - multiset{Asked(id)} == s.requests;
    ReachableStep(t, ServeRead(id));
    t := Step(t, ServeRead(id));
  }

  // The claim, the row read back, and what the confirmation shows.
  lemma ClaimAndReread(s: System, base: multiset<Request>, id: Id) returns (t: System)
    requires Reachable(s) && s.requests == base + multiset{Claiming(id)} && RowOf(s.server, id).Some?
    ensures var v := ClaimedDue(s.server, id);
      Reachable(t) && t == s.(server := v, requests := base + multiset{Answered(id, Confirmed(RowOf(v, id)))})
  {
    ReachableStep(s, ServeClaim(id));
    t := Step(s, ServeClaim(id));
    assert t.requests == base + multiset{Rereading(id)};
    ReachableStep(t, ServeReread(id));
    t := Step(t, ServeReread(id));
    assert s.requests - multiset{Claiming(id)} == base;
  }

  // A server that starts with an ARMED, due session.
  lemma ArmedAndDue(s: System, id: Id) returns (t: System)
    requires Reachable(s) && s.server.current.None? && id !in s.server.ended && id != ""
    ensures Reachable(t)
    ensures t == s.(server := s.server.(current := Some(Session(id, Armed)), due := true))
  {
    ReachableStep(s, Arm(id));
    t := Step(s, Arm(id));
    ReachableStep(t, Countdown(true));
    t := Step(t, Countdown(true));
  }

  lemma StartReachable()
    ensures Reachable(Initial(true))
  {
    var ss: seq<System>, es: seq<Event> := [Initial(true)], [];
    assert IsRun(ss, es) && ss[|es|] == Initial(true);
  }

  // The screen is held for a session the server has ARMED, and then free, the session as it was.
  predicate NeverLocked(s: System, t: System, a: Id) {
    s.shell.locked && s.shell.held == Some(a) && s.server.current == Some(Session(a, Armed))
    && !t.shell.locked && t.server == s.server && a !in t.server.ended && a !in t.server.lockedOnce
  }

  // A due session is paused between the server's read and its claim. The claim matches nothing, the row
  // read back is confirmed all the same, the shell takes the screen for a session that is not locked,
  // and the watchdog frees it again though nothing has ended.
  lemma HollowConfirmation(a: Id, now: int)
    requires a != ""
    ensures exists s, t :: Reachable(s) && Reachable(t) && NeverLocked(s, t, a)
  {
    StartReachable();
    var s1 := ArmedAndDue(Initial(true), a);
    var s2 := UpToClaim(s1, a);
    ReachableStep(s2, Countdown(false));
    var s3 := Step(s2, Countdown(false));
    var s4 := ClaimAndReread(s3, multiset{}, a);
    var e := EngageReturn(a, Confirmed(Some(Armed)), now, Done);
    assert Answered(a, Confirmed(Some(Armed))) in s4.requests;
    ReachableStep(s4, e);
    var s5 := Step(s4, e);
    PolledOutFrees(s5, a);
    ReachablePolledOut(s5, a);
    assert NeverLocked(s5, PolledOut(s5, a), a);
  }

  // The screen is held for a session that is over and was never locked.
  predicate HeldAfterCancel(s: System, a: Id) {
    s.shell.locked && s.shell.held == Some(a) && a in s.server.ended && a !in s.server.lockedOnce
  }

  // A due session is cancelled between the server's read and its claim. The row read back is over, it is
  // confirmed all the same, and the screen is taken; such a confirmation does not show ARMED either.
  lemma CancelledConfirmation(a: Id, now: int)
    requires a != ""
    ensures exists s, e ::
        Reachable(s) && Reachable(Step(s, e)) && Lands(s, e) && Checked(s, e) && HeldAfterCancel(Step(s, e), a)
  {
    StartReachable();
    var s1 := ArmedAndDue(Initial(true), a);
    var s2 := UpToClaim(s1, a);
    ReachableStep(s2, End);
    var s3 := Step(s2, End);
    ReachableStep(s3, ServeClaim(a));
    var s4 := Step(s3, ServeClaim(a));
    assert Rereading(a) in s4.requests;
    ReachableStep(s4, ServeReread(a));
    var s5 := Step(s4, ServeReread(a));
    assert Answered(a, Confirmed(None)) in s5.requests;
    ReachableStep(s5, EngageReturn(a, Confirmed(None), now, Done));
    assert HeldAfterCancel(Step(s5, EngageReturn(a, Confirmed(None), now, Done)), a);
  }

  predicate LostTo(s: System, t: System, b: Id) {
    s.shell.locked && s.shell.held == Some(b) && s.server.current == Some(Session(b, Locked))
    && !t.shell.locked && t.server == s.server
  }

  // Wherever a confirmation takes over a screen held for a session the server has locked, the watchdog
  // can free it while that session is still locked.
  lemma TakeOverLoses(s: System, e: Event, b: Id)
    requires Inv(s) && s.shell.held == Some(b) && s.server.current == Some(Session(b, Locked)) && TakesOver(s, e)
    ensures LostTo(s, PolledOut(Step(s, e), e.id), b)
  {
    EngageHeld(s, e);
    assert RequestOk(s.server, Answered(e.id, e.answer));
    PolledOutFrees(Step(s, e), e.id);
  }

  // And no renderer need misbehave for that: the confirmation of a session that has since ended comes in
  // while the screen is already held for the next one.
  lemma LateConfirmation(a: Id, b: Id, now: int)
    requires a != "" && b != "" && a != b
    ensures exists s, t :: Reachable(s) && Reachable(t) && LostTo(s, t, b)
  {
    StartReachable();
    var s1 := ArmedAndDue(Initial(true), a);
    var s2 := UpToClaim(s1, a);
    var s3 := ClaimAndReread(s2, multiset{}, a);
    var late := Answered(a, Confirmed(Some(Locked)));
    assert s3.requests == multiset{late};
    ReachableStep(s3, End);
    var s4 := Step(s3, End);
    var s5 := ArmedAndDue(s4, b);
    var s6 := UpToClaim(s5, b);
    var s7 := ClaimAndReread(s6, multiset{late}, b);
    var s8 := Step(s7, EngageReturn(b, Confirmed(Some(Locked)), now, Done));
    ReachableStep(s7, EngageReturn(b, Confirmed(Some(Locked)), now, Done));
    assert late in s8.requests;
    var s9 := Step(s8, EngageReturn(a, Confirmed(Some(Locked)), now, Done));
    ReachableStep(s8, EngageReturn(a, Confirmed(Some(Locked)), now, Done));
    PolledOutFrees(s9, a);
    ReachablePolledOut(s9, a);
    assert LostTo(s8, PolledOut(s9, a), b);
  }

  lemma ReachablePolledOut(s: System, held: Id)
    requires Reachable(s)
    ensures Reachable(PolledOut(s, held))
  {
    ReachableStep(s, Tick);
    var s1 := Step(s, Tick);
    ReachableStep(s1, ServePoll(Some(held), true));
    var s2 := Step(s1, ServePoll(Some(held), true));
    ReachableStep(s2, PollReturn(Some(held), Some(Reply(s.server.current)), Done));
  }

  // ---------------------------------------------------------------- the main process

  class Desktop {
    var locked: bool
    var lockedSessionId: Option<Id>
    var releasedIntentionally: bool
    var store: Option<PersistedLock>
    var canUnlock: bool
    const holdToRelease: KS.HoldToRelease

    ghost predicate Valid()
      reads this, holdToRelease
    {
      holdToRelease.Valid() && holdToRelease.holdMs == KS.HOLD_TO_RELEASE_MS
    }

    function State(): Memory
      reads this, holdToRelease
    {
      Memory(locked, lockedSessionId, store, holdToRelease.State(), releasedIntentionally)
    }

    // The process starts with nothing in memory and whatever is on disk.
    constructor (disk: Option<PersistedLock>, canUnlock: bool)
      ensures Valid() && fresh(holdToRelease) && this.canUnlock == canUnlock
      ensures State() == Memory(false, None, disk, KS.Idle, false)
    {
      locked, lockedSessionId, releasedIntentionally, store := false, None, false, disk;
      this.canUnlock := canUnlock;
      holdToRelease := new KS.HoldToRelease(KS.HOLD_TO_RELEASE_MS);
    }

    method Write(lock: PersistedLock, fate: Fate)
      modifies this`store
      ensures store == Saved(old(store), lock, fate)
    {
      if fate != Kept {
        store := if fate == Done then Some(lock) else None;
      }
    }

    // The disk first, so that a process that dies in between comes back locked.
    method EngageLock(id: Option<Id>, now: int, fate: Fate)
      requires Valid()
      modifies this, holdToRelease
      ensures Valid() && canUnlock == old(canUnlock) && State() == Engaged(old(State()), id, now, fate)
    {
      if id.Some? && id.value != "" {
        lockedSessionId := id;
        Write(NewLock(id.value, now), fate);
      }
      if locked {
        return;
      }
      locked := true;
      releasedIntentionally := false;
      holdToRelease.Clear();
    }

    method ReleaseLock(fate: Fate)
      requires Valid()
      modifies this, holdToRelease
      ensures Valid() && canUnlock == old(canUnlock) && State() == Released(old(State()), fate)
    {
      locked := false;
      lockedSessionId := None;
      releasedIntentionally := true;
      holdToRelease.Clear();
      if fate == Done {
        store := None;
      }
    }

    // Whether the server is asked to confirm the lock; the screen is not taken until it has.
    method TakeScreenFor(id: Id) returns (ask: bool)
      ensures ask <==> !locked && canUnlock
    {
      if locked {
        return false;
      }
      ask := canUnlock;
    }

    method EngageAnswered(id: Id, answer: Answer, now: int, fate: Fate)
      requires Valid()
      modifies this, holdToRelease
      ensures Valid() && canUnlock == old(canUnlock)
      ensures State() == if answer.Confirmed? then Engaged(old(State()), Some(id), now, fate) else old(State())
    {
      if answer.Confirmed? {
        EngageLock(Some(id), now, fate);
      }
    }

    method PollAnswered(asked: Option<Id>, reply: Option<Reply>, fate: Fate)
      requires Valid()
      modifies this, holdToRelease
      ensures Valid() && canUnlock == old(canUnlock) && State() == Watched(old(State()), asked, reply, fate)
    {
      if VerdictFor(reply, asked) != Resolved || !locked || lockedSessionId != asked {
        return;
      }
      ReleaseLock(fate);
    }

    // A key event on the window: ignored while the screen is free, and the kill switch otherwise.
    method BeforeInput(down: bool, escape: bool, now: int, fate: Fate) returns (killed: bool)
      requires Valid()
      modifies this, holdToRelease
      ensures var key := if down then (if escape then KS.EscapeDown(now) else KS.OtherDown)
                         else if escape then KS.EscapeUp else KS.OtherUp;
        && Valid() && canUnlock == old(canUnlock)
        && State() == Keyed(old(State()), key, fate)
        && (killed <==> old(locked) && KS.Fires(old(State()).hold, key, KS.HOLD_TO_RELEASE_MS))
    {
      if !locked {
        return false;
      }
      if !down {
        holdToRelease.KeyUp(escape);
        return false;
      }
      killed := holdToRelease.KeyDown(escape, now);
      if killed {
        ReleaseLock(fate);
      }
    }

    // `codelock:lock`: re-assert if the screen is held, otherwise go through the server, except for a
    // lock that names no session.
    method HandleLock(id: Option<Id>, now: int, fate: Fate) returns (ask: bool)
      requires Valid()
      modifies this, holdToRelease
      ensures Valid() && canUnlock == old(canUnlock)
      ensures old(locked) ==> !ask && State() == Engaged(old(State()), id, now, fate)
      ensures !old(locked) && id.Some? && id.value != "" ==> ask == canUnlock && State() == old(State())
      ensures !old(locked) && !(id.Some? && id.value != "") ==>
        !ask && State() == if canUnlock then Engaged(old(State()), None, now, fate) else old(State())
    {
      if locked {
        EngageLock(id, now, fate);
        return false;
      }
      if id.Some? && id.value != "" {
        ask := TakeScreenFor(id.value);
        return;
      }
      if !canUnlock {
        return false;
      }
      EngageLock(None, now, fate);
      ask := false;
    }

    // `codelock:unlock`, with the session a verified token was issued for.
    method HandleUnlock(claim: Option<Id>, fate: Fate) returns (ok: bool)
      requires Valid()
      modifies this, holdToRelease
      ensures Valid() && canUnlock == old(canUnlock) && State() == Presented(old(State()), claim, fate)
      ensures ok <==> claim.Some? && claim.value != "" && claim == old(lockedSessionId)
      ensures ok ==> !locked && lockedSessionId.None? && releasedIntentionally && (fate == Done ==> store.None?)
      ensures !ok ==> State() == old(State())
    {
      if !UnlockTokenOpensLock(claim, lockedSessionId) {
        return false;
      }
      ReleaseLock(fate);
      ok := true;
    }

    // Startup: stamp an interrupted lock, then want the screen for what is still live, and remove what is not.
    method Start(now: int, fate: Fate) returns (wanted: Option<Id>)
      requires Valid()
      modifies this`store
      ensures Valid() && State() == old(State()).(disk := Restarted(old(store), now, fate))
      ensures wanted == Wanted(store, now)
    {
      var startup := ClassifyStartup(store, now);
      if startup.Interrupted? {
        Write(RecordInterruption(startup.lock, now), fate);
      }
      wanted := None;
      if IsLive(store, now) {
        wanted := Some(store.value.sessionId);
      } else if store.Some? && fate == Done {
        store := None;
      }
    }
  }
}
