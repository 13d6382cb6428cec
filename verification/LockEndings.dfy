/**
 How a lock session ends: cancel, solve, skip, the stale sweep and abandon all claim the same row
 by a compare-and-set on its state, while the sweep may engage it in between. Abandon makes up
 to four claims and records a failure only if the row moved from LOCKED.
*/
module LockEndings {

  datatype Phase = Armed | Locked | Unlocked | Bypassed | Abandoned

  predicate Over(p: Phase) {
    p != Armed && p != Locked
  }

  datatype Who = Cancel | Solve | Skip | Reap | Abandon(id: nat)

  datatype Ending = Ending(who: Who, from: Phase, to: Phase)

  // Where the other endings claim from, and what they leave behind.
  predicate ClaimsFrom(who: Who, p: Phase) {
    match who
    case Cancel => p == Armed
    case Solve => p == Locked
    case Skip => p == Locked
    case Reap => p == Armed || p == Locked
    case Abandon(_) => false
  }

  function Leaves(who: Who): Phase {
    match who
    case Solve => Unlocked
    case Skip => Bypassed
    case _ => Abandoned
  }

  // An abandon request: about to make its claim number `n` (LOCKED, ARMED, LOCKED, ARMED), refused,
  // or through; `recorded` once its failure bookkeeping has run.
  datatype Request = Claiming(n: nat) | Conflict | Won(wasLocked: bool, recorded: bool)

  datatype State = State(phase: Phase, endings: seq<Ending>, requests: map<nat, Request>, failures: nat)

  datatype Event = Engage | Claim(who: Who) | Begin(id: nat) | Try(id: nat) | Record(id: nat)

  function ClaimedPhase(n: nat): Phase {
    if n % 2 == 0 then Locked else Armed
  }

  function Ended(s: State, who: Who): State {
    s.(phase := Leaves(who), endings := s.endings + [Ending(who, s.phase, Leaves(who))])
  }

  function Step(s: State, e: Event): State {
    match e
    case Engage => if s.phase == Armed then s.(phase := Locked) else s
    case Claim(who) => if ClaimsFrom(who, s.phase) then Ended(s, who) else s
    case Begin(id) => if id in s.requests then s else s.(requests := s.requests[id := Claiming(0)])
    case Try(id) =>
      if id !in s.requests || !s.requests[id].Claiming? || s.requests[id].n >= 4 then s
      else
        var n := s.requests[id].n;
        if s.phase == ClaimedPhase(n) then
          Ended(s, Abandon(id)).(requests := s.requests[id := Won(n % 2 == 0, false)])
        else s.(requests := s.requests[id := if n == 3 then Conflict else Claiming(n + 1)])
    case Record(id) =>
      if id in s.requests && s.requests[id].Won? && !s.requests[id].recorded then
        s.(requests := s.requests[id := s.requests[id].(recorded := true)],
           failures := s.failures + if s.requests[id].wasLocked then 1 else 0)
      else s
  }

  function Run(s: State, es: seq<Event>): State
    decreases |es|
  {
    if es == [] then s else Run(Step(s, es[0]), es[1..])
  }

  const Initial := State(Armed, [], map[], 0)

  // ---------------------------------------------------------------- what every run keeps

  predicate Once(s: State) {
    && |s.endings| == (if Over(s.phase) then 1 else 0)
    && (Over(s.phase) ==> s.endings[0].to == s.phase && !Over(s.endings[0].from))
  }

  predicate EndedBy(s: State, who: Who) {
    |s.endings| == 1 && s.endings[0].who == who
  }

  // What a request may rely on at each point, whatever the others did meanwhile.
  predicate RequestOk(s: State, id: nat, r: Request) {
    match r
    case Claiming(n) =>
      n <= 3 && (n >= 2 ==> s.phase != Armed) && (n == 3 ==> Over(s.phase))
      && !EndedBy(s, Abandon(id))
    case Conflict => Over(s.phase) && !EndedBy(s, Abandon(id))
    case Won(wasLocked, _) =>
      Over(s.phase) && EndedBy(s, Abandon(id)) && s.endings[0].to == Abandoned
      && (wasLocked <==> s.endings[0].from == Locked)
  }

  // The failures that must have been recorded by now.
  function Owed(s: State): nat {
    if !Over(s.phase) || |s.endings| != 1 then 0
    else match s.endings[0].who
      case Abandon(id) =>
        if s.endings[0].from == Locked && id in s.requests && s.requests[id].Won? && s.requests[id].recorded
        then 1 else 0
      case _ => 0
  }

  predicate Inv(s: State) {
    && Once(s)
    && (forall id :: id in s.requests ==> RequestOk(s, id, s.requests[id]))
    && (Over(s.phase) && s.endings[0].who.Abandon? ==>
          s.endings[0].who.id in s.requests && s.requests[s.endings[0].who.id].Won?)
    && s.failures == Owed(s)
  }

  lemma InvStep(s: State, e: Event)
    requires Inv(s)
    ensures Inv(Step(s, e))
    ensures s.endings <= Step(s, e).endings
  {
  }

  lemma {:induction false} InvRun(s: State, es: seq<Event>)
    requires Inv(s)
    ensures Inv(Run(s, es)) && s.endings <= Run(s, es).endings
    decreases |es|
  {
    if es != [] {
      InvStep(s, es[0]);
      InvRun(Step(s, es[0]), es[1..]);
    }
  }

  // In every run a session ends at most once, and the ending it has is the one on record; an
  // abandon answers conflict only if somebody else ended the session; `wasLocked` is which state
  // the row moved from; and a failure is recorded once if the ending was an abandon from LOCKED
  // whose bookkeeping has run, and otherwise never.
  lemma EndsOnce(es: seq<Event>)
    ensures var r := Run(Initial, es);
      && |r.endings| == (if Over(r.phase) then 1 else 0)
      && (Over(r.phase) ==> r.endings[0].to == r.phase)
      && r.failures <= 1
      && (r.failures == 1 <==> exists id :: id in r.requests && r.requests[id] == Won(true, true))
      && (forall id :: id in r.requests && r.requests[id] == Conflict ==>
            |r.endings| == 1 && r.endings[0].who != Abandon(id))
      && (forall id :: id in r.requests && r.requests[id].Won? ==>
            EndedBy(r, Abandon(id)) && (r.requests[id].wasLocked <==> r.endings[0].from == Locked))
      && (|r.endings| == 1 && r.endings[0].who.Abandon? ==>
            r.endings[0].who.id in r.requests && r.requests[r.endings[0].who.id].Won?)
  {
    InvRun(Initial, es);
  }

  // An ending, once there, is final: nothing that follows replaces it.
  lemma EndingStands(es: seq<Event>, more: seq<Event>)
    requires Over(Run(Initial, es).phase)
    ensures var r := Run(Run(Initial, es), more);
      r.phase == Run(Initial, es).phase && r.endings == Run(Initial, es).endings
  {
    InvRun(Initial, es);
    InvRun(Run(Initial, es), more);
  }

  // What an ending may be: a cancel from ARMED only, a solve or a skip from LOCKED only, the sweep and
  // an abandon from either, each leaving its own state behind.
  predicate Proper(e: Ending) {
    match e.who
    case Cancel => e.from == Armed && e.to == Abandoned
    case Solve => e.from == Locked && e.to == Unlocked
    case Skip => e.from == Locked && e.to == Bypassed
    case Reap => !Over(e.from) && e.to == Abandoned
    case Abandon(_) => !Over(e.from) && e.to == Abandoned
  }

  lemma ProperStep(s: State, e: Event)
    requires Inv(s) && forall i :: 0 <= i < |s.endings| ==> Proper(s.endings[i])
    ensures forall i :: 0 <= i < |Step(s, e).endings| ==> Proper(Step(s, e).endings[i])
  {
  }

  lemma {:induction false} ProperRun(s: State, es: seq<Event>)
    requires Inv(s) && forall i :: 0 <= i < |s.endings| ==> Proper(s.endings[i])
    ensures forall i :: 0 <= i < |Run(s, es).endings| ==> Proper(Run(s, es).endings[i])
    decreases |es|
  {
    if es != [] {
      InvStep(s, es[0]);
      ProperStep(s, es[0]);
      ProperRun(Step(s, es[0]), es[1..]);
    }
  }

  // In every run the ending on record is a proper one: a locked session is never cancelled, and only a
  // solve unlocks.
  lemma EndedProperly(es: seq<Event>)
    ensures var r := Run(Initial, es); forall i :: 0 <= i < |r.endings| ==> Proper(r.endings[i])
    ensures var r := Run(Initial, es); r.phase == Unlocked ==> |r.endings| == 1 && r.endings[0].who == Solve
    ensures var r := Run(Initial, es); r.phase == Bypassed ==> |r.endings| == 1 && r.endings[0].who == Skip
  {
    InvRun(Initial, es);
    ProperRun(Initial, es);
  }

  // And a claim that may win does: a live session is ended by a cancel exactly while ARMED, by a solve or
  // a skip exactly while LOCKED, by the sweep in either state.
  lemma ClaimWins(s: State, who: Who)
    requires Inv(s) && !who.Abandon?
    ensures Over(Step(s, Claim(who)).phase) && !Over(s.phase) <==>
        (who == Cancel && s.phase == Armed) || ((who == Solve || who == Skip) && s.phase == Locked)
        || (who == Reap && !Over(s.phase))
    ensures Over(s.phase) ==> Step(s, Claim(who)) == s
  {
  }

  // The fourth claim is spare: by then the session is over, so it can never be the one that wins.
  lemma FourthClaimNeverWins(es: seq<Event>, id: nat)
    requires var r := Run(Initial, es); id in r.requests && r.requests[id] == Claiming(3)
    ensures Step(Run(Initial, es), Try(id)).requests[id] == Conflict
    ensures Step(Run(Initial, es), Try(id)).endings == Run(Initial, es).endings
  {
    InvRun(Initial, es);
  }

  // The third is not: with a sweep between the first two, a single pair of claims would miss a live
  // session, and only the retry ends it.
  lemma RetryNeeded()
    ensures var es := [Begin(1), Try(1), Engage, Try(1)];
      && Run(Initial, es).phase == Locked && Run(Initial, es).requests == map[1 := Claiming(2)]
      && Run(Initial, es + [Try(1)]).requests == map[1 := Won(true, false)]
  {
    var s1 := Step(Initial, Begin(1));
    var s2 := Step(s1, Try(1));
    var s3 := Step(s2, Engage);
    var s4 := Step(s3, Try(1));
    var es := [Begin(1), Try(1), Engage, Try(1)];
    assert es[1..] == [Try(1), Engage, Try(1)] && es[1..][1..] == [Engage, Try(1)];
    assert es[1..][1..][1..] == [Try(1)] && es[1..][1..][1..][1..] == [];
    assert Run(Initial, es) == Run(s1, es[1..]) == Run(s2, es[1..][1..]) == Run(s3, [Try(1)]) == s4;
    RunAppend(Initial, es, Try(1));
  }

  lemma {:induction false} RunAppend(s: State, es: seq<Event>, e: Event)
    ensures Run(s, es + [e]) == Step(Run(s, es), e)
    decreases |es|
  {
    if es == [] {
      assert [] + [e] == [e] && [e][1..] == [];
    } else {
      assert (es + [e])[0] == es[0] && (es + [e])[1..] == es[1..] + [e];
      RunAppend(Step(s, es[0]), es[1..], e);
    }
  }

  // ---------------------------------------------------------------- the loop itself

  class Session {
    var phase: Phase
    ghost var endings: seq<Ending>

    ghost predicate Valid() reads this {
      Once(State(phase, endings, map[], 0))
    }

    // `claimResolution`: the database decides, and says whether it moved.
    method ClaimResolution(who: Who, from: set<Phase>, to: Phase) returns (won: bool)
      requires Valid() && from <= {Armed, Locked} && Over(to)
      modifies this
      ensures Valid() && won == (old(phase) in from)
      ensures won ==> phase == to && endings == old(endings) + [Ending(who, old(phase), to)]
      ensures !won ==> phase == old(phase) && endings == old(endings)
    {
      won := phase in from;
      if won {
        endings := endings + [Ending(who, phase, to)];
        phase := to;
      }
    }

    // Whatever the sweep and the other callers, other abandon requests among them, do while request `me`
    // waits for the database.
    method Others(me: nat, moves: seq<Event>)
      requires Valid()
      modifies this
      ensures Valid() && (old(phase) != Armed ==> phase != Armed)
      ensures phase == old(phase) || old(phase) == Armed || Over(phase)
      ensures Over(old(phase)) ==> phase == old(phase) && endings == old(endings)
      ensures forall i :: |old(endings)| <= i < |endings| ==> endings[i].who != Abandon(me)
      ensures old(endings) <= endings
    {
      for i := 0 to |moves|
        invariant Valid() && (old(phase) != Armed ==> phase != Armed)
        invariant phase == old(phase) || old(phase) == Armed || Over(phase)
        invariant Over(old(phase)) ==> phase == old(phase) && endings == old(endings)
        invariant old(endings) <= endings
        invariant forall k :: |old(endings)| <= k < |endings| ==> endings[k].who != Abandon(me)
      {
        match moves[i] {
          case Engage => if phase == Armed { phase := Locked; }
          case Claim(who) =>
            if ClaimsFrom(who, phase) {
              endings := endings + [Ending(who, phase, Leaves(who))];
              phase := Leaves(who);
            }
          // One claim of another abandon, from whichever state it asks for.
          case Try(id) =>
            if id != me && !Over(phase) {
              endings := endings + [Ending(Abandon(id), phase, Abandoned)];
              phase := Abandoned;
            }
          case _ =>
        }
      }
    }

    // The abandon route, with arbitrary moves of the others before each of its claims. It answers
    // conflict only if somebody else ended the session; otherwise it ended it itself, and
    // `wasLocked` is true exactly when the database moved the row from LOCKED.
    method AbandonRoute(me: nat, others: seq<seq<Event>>) returns (resolvedHere: bool, wasLocked: bool)
      requires Valid() && |others| == 4
      modifies this
      ensures Valid() && |endings| == 1 && Over(phase)
      ensures resolvedHere <==> old(endings) == [] && endings[0].who == Abandon(me)
      ensures resolvedHere ==> phase == Abandoned && (wasLocked <==> endings[0].from == Locked)
      ensures !resolvedHere ==> !wasLocked && (old(endings) != [] || endings[0].who != Abandon(me))
    {
      wasLocked, resolvedHere := false, false;
      var attempt := 0;
      while attempt < 2 && !resolvedHere
        invariant 0 <= attempt <= 2 && Valid() && old(endings) <= endings
        invariant resolvedHere ==> old(endings) == [] && |endings| == 1 && endings[0].who == Abandon(me)
        invariant resolvedHere ==> phase == Abandoned && (wasLocked <==> endings[0].from == Locked)
        invariant !resolvedHere ==> !wasLocked
        invariant !resolvedHere ==> forall k :: |old(endings)| <= k < |endings| ==> endings[k].who != Abandon(me)
        invariant !resolvedHere && attempt >= 1 ==> phase != Armed
        invariant !resolvedHere && attempt == 2 ==> Over(phase)
      {
        Others(me, others[2 * attempt]);
        wasLocked := ClaimResolution(Abandon(me), {Locked}, Abandoned);
        resolvedHere := wasLocked;
        if !wasLocked {
          Others(me, others[2 * attempt + 1]);
          resolvedHere := ClaimResolution(Abandon(me), {Armed}, Abandoned);
        }
        attempt := attempt + 1;
      }
    }
  }
}
