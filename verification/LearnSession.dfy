/**
 One lesson session row and the handlers that write it: start, draft, check, practice and finish.
 Draft and finish are compare-and-set on the version; a check runs the judge with no lock held and
 claims its attempt under the row lock; start and practice write from a row read earlier.
*/
module LearnSession {

  import opened Wrappers

  const STEP_IDEA := 0
  const STEP_PREDICTION := 2
  const STEP_TASK := 3
  const STEP_PRACTICE := 4
  const STEP_DONE := 5

  datatype Kind = Prediction | Task
  datatype Result = Result(correct: bool, output: string)

  datatype Row = Row(version: nat, active: bool, step: nat, language: nat, draft: int, checks: map<nat, Result>)

  function Max(a: nat, b: nat): nat {
    if a < b then b else a
  }

  // A request between the read it started from and its write.
  datatype Request =
    | Starting(language: nat, read: Option<Row>)
    | Checking(attempt: nat, kind: Kind)
    | Practising(seen: Row)

  // `checkEvents` and `finishEvents` are the log: the attempts that have an event, and how many finish
  // events there are.
  datatype State = State(row: Option<Row>, flight: map<nat, Request>, checkEvents: seq<nat>, finishEvents: nat)

  const Initial := State(None, map[], [], 0)

  datatype Event =
    | BeginStart(id: nat, language: nat)
    | BeginCheck(id: nat, attempt: nat, kind: Kind)
    | BeginPractice(id: nat)
    | Commit(id: nat, graded: Result)
    | Draft(version: nat, step: Option<nat>, draft: Option<int>)
    | Finish(version: nat)

  // ---------------------------------------------------------------- the writes

  function Wrote(s: State, r: Row): State {
    s.(row := Some(r))
  }

  function Started(s: State, language: nat, read: Option<Row>): State {
    match (read, s.row)
    case (Some(old_), Some(r)) =>
      Wrote(s, r.(language := language, active := true, version := r.version + 1,
                  step := if old_.active then r.step else STEP_IDEA))
    // Creating a row that exists by now violates the unique key: nothing is written.
    case (None, Some(_)) => s
    case (_, None) => s.(row := Some(Row(1, true, STEP_IDEA, language, 0, map[])))
  }

  function Drafted(s: State, version: nat, step: Option<nat>, draft: Option<int>): State {
    if s.row.None? || s.row.value.version != version || !s.row.value.active then s
    else
      var r := s.row.value;
      Wrote(s, r.(version := r.version + 1,
                  step := if step.Some? then step.value else r.step,
                  draft := if draft.Some? then draft.value else r.draft))
  }

  function FinishedAt(s: State, version: nat): State {
    if s.row.None? || s.row.value.version != version || !s.row.value.active then s
    else
      var r := s.row.value;
      Wrote(s, r.(version := r.version + 1, active := false, step := STEP_DONE))
        .(finishEvents := s.finishEvents + 1)
  }

  function Practised(s: State, read: Row): State {
    if s.row.None? || !s.row.value.active then s
    else
      var r := s.row.value;
      Wrote(s, r.(version := r.version + 1, step := Max(read.step, STEP_PRACTICE)))
  }

  datatype Answer = Missing | Refused | Stored(result: Result, duplicate: bool)

  // The claim of an attempt under the row lock.
  function Claimed(s: State, attempt: nat, kind: Kind, graded: Result): (Answer, State) {
    if s.row.None? then (Missing, s)
    else
      var r := s.row.value;
      if attempt in r.checks then (Stored(r.checks[attempt], true), s)
      else if !r.active then (Refused, s)
      else
        (Stored(graded, false),
         Wrote(s, r.(version := r.version + 1, checks := r.checks[attempt := graded],
                     step := Max(r.step, if kind == Prediction then STEP_PREDICTION else STEP_TASK)))
           .(checkEvents := s.checkEvents + [attempt]))
  }

  // ---------------------------------------------------------------- runs

  function Step(s: State, e: Event): State {
    match e
    case BeginStart(id, l) =>
      if id in s.flight then s else s.(flight := s.flight[id := Starting(l, s.row)])
    case BeginCheck(id, a, k) =>
      if id in s.flight || s.row.None? || a in s.row.value.checks || !s.row.value.active then s
      else s.(flight := s.flight[id := Checking(a, k)])
    case BeginPractice(id) =>
      if id in s.flight || s.row.None? then s else s.(flight := s.flight[id := Practising(s.row.value)])
    case Commit(id, graded) =>
      if id !in s.flight then s
      else
        var s' := s.(flight := s.flight - {id});
        (match s.flight[id]
         case Starting(l, read) => Started(s', l, read)
         case Checking(a, k) => Claimed(s', a, k, graded).1
         case Practising(seen) => Practised(s', seen))
    case Draft(v, step, d) => Drafted(s, v, step, d)
    case Finish(v) => FinishedAt(s, v)
  }

  function Run(s: State, es: seq<Event>): State
    decreases |es|
  {
    if es == [] then s else Run(Step(s, es[0]), es[1..])
  }

  // Counted on the run itself, whoever writes: the steps that change a row that exists, and the steps
  // after which an active row is active no longer.
  function Changes(s: State, es: seq<Event>): nat
    decreases |es|
  {
    if es == [] then 0
    else
      var t := Step(s, es[0]);
      (if s.row.Some? && t.row != s.row then 1 else 0) + Changes(t, es[1..])
  }

  predicate IsActive(s: State) {
    s.row.Some? && s.row.value.active
  }

  function Finishes(s: State, es: seq<Event>): nat
    decreases |es|
  {
    if es == [] then 0
    else
      var t := Step(s, es[0]);
      (if IsActive(s) && !IsActive(t) then 1 else 0) + Finishes(t, es[1..])
  }

  function Version(s: State): nat {
    if s.row.None? then 1 else s.row.value.version
  }

  lemma CountStep(s: State, e: Event)
    ensures var t := Step(s, e);
      && (s.row.Some? ==> t.row.Some?)
      && Version(t) == Version(s) + (if s.row.Some? && t.row != s.row then 1 else 0)
      && t.finishEvents == s.finishEvents + (if IsActive(s) && !IsActive(t) then 1 else 0)
  {
  }

  lemma {:induction false} Counted(s: State, es: seq<Event>)
    ensures Version(Run(s, es)) == Version(s) + Changes(s, es)
    ensures Run(s, es).finishEvents == s.finishEvents + Finishes(s, es)
    decreases |es|
  {
    if es != [] {
      CountStep(s, es[0]);
      Counted(Step(s, es[0]), es[1..]);
    }
  }

  ghost predicate Inv(s: State) {
    && (s.row.None? ==> s.checkEvents == [])
    && (s.row.Some? ==> forall a :: multiset(s.checkEvents)[a] == if a in s.row.value.checks then 1 else 0)
  }

  lemma ClaimedInv(s: State, attempt: nat, kind: Kind, graded: Result)
    requires Inv(s)
    ensures Inv(Claimed(s, attempt, kind, graded).1)
  {
  }

  lemma InvStep(s: State, e: Event)
    requires Inv(s)
    ensures Inv(Step(s, e))
  {
    if e.Commit? && e.id in s.flight {
      var s' := s.(flight := s.flight - {e.id});
      assert Inv(s');
      if s.flight[e.id].Checking? {
        ClaimedInv(s', s.flight[e.id].attempt, s.flight[e.id].kind, e.graded);
      }
    }
  }

  // What time cannot undo: the version never falls, it stands still only while the row does, and
  // stored results neither change nor disappear.
  ghost predicate Later(a: State, b: State) {
    a.row.Some? ==>
      && b.row.Some?
      && a.row.value.version <= b.row.value.version
      && (a.row.value.version == b.row.value.version ==> a.row == b.row)
      && forall k :: k in a.row.value.checks ==>
           k in b.row.value.checks && b.row.value.checks[k] == a.row.value.checks[k]
  }

  lemma LaterStep(s: State, e: Event)
    ensures Later(s, Step(s, e))
  {
  }

  lemma {:induction false} RunKeeps(s: State, es: seq<Event>)
    requires Inv(s)
    ensures Inv(Run(s, es)) && Later(s, Run(s, es))
    decreases |es|
  {
    if es != [] {
      InvStep(s, es[0]);
      LaterStep(s, es[0]);
      RunKeeps(Step(s, es[0]), es[1..]);
    }
  }

  // In every interleaving of retries, drafts, practices, finishes and restarts: an attempt is stored
  // exactly when it has exactly one check event, and no attempt ever has two; there are as many finish
  // events as times an active row stopped being active; and the version is one more than the number of
  // times the row changed.
  lemma ExactlyOnce(es: seq<Event>)
    ensures var r := Run(Initial, es);
      && (forall a :: multiset(r.checkEvents)[a] <= 1)
      && (r.row.Some? ==> r.row.value.version == 1 + Changes(Initial, es))
      && (r.row.Some? ==> forall a :: a in r.row.value.checks <==> multiset(r.checkEvents)[a] == 1)
      && r.finishEvents == Finishes(Initial, es)
  {
    RunKeeps(Initial, es);
    Counted(Initial, es);
  }

  // A stored result is for good, whatever happens later, restarts included.
  lemma ResultsStand(es: seq<Event>, more: seq<Event>, attempt: nat)
    requires var s := Run(Initial, es); s.row.Some? && attempt in s.row.value.checks
    ensures var s, t := Run(Initial, es), Run(Run(Initial, es), more);
      t.row.Some? && attempt in t.row.value.checks && t.row.value.checks[attempt] == s.row.value.checks[attempt]
  {
    RunKeeps(Initial, es);
    RunKeeps(Run(Initial, es), more);
  }

  // A draft or a finish built on the version of some earlier moment is written only if the row has
  // not been written since, and then onto exactly the row it was built on.
  lemma WrittenOnlyOnWhatWasRead(es: seq<Event>, more: seq<Event>, e: Event)
    requires Run(Initial, es).row.Some?
    requires match e
             case Draft(v, _, _) => v == Run(Initial, es).row.value.version
             case Finish(v) => v == Run(Initial, es).row.value.version
             case _ => false
    ensures var read, now := Run(Initial, es), Run(Run(Initial, es), more);
      Step(now, e) != now <==> now.row == read.row && read.row.value.active
  {
    RunKeeps(Initial, es);
    RunKeeps(Run(Initial, es), more);
  }

  // Two retries of one attempt in flight at once: whichever order they land in, whatever the judge said
  // to each and whatever lands in between, one event is written and both answer with the result that
  // landed first.
  lemma RetriesAgree(s: State, attempt: nat, k1: Kind, k2: Kind, g1: Result, g2: Result, between: seq<Event>)
    requires Inv(s) && s.row.Some?
    ensures var (a1, s1) := Claimed(s, attempt, k1, g1);
      var t := Run(s1, between);
      var (a2, s2) := Claimed(t, attempt, k2, g2);
      && (a1.Stored? ==> a2 == Stored(a1.result, true) && s2 == t && multiset(t.checkEvents)[attempt] == 1)
      && (a1.Refused? ==> s1 == s && (between == [] ==> a2.Refused?))
  {
    ClaimedInv(s, attempt, k1, g1);
    RunKeeps(Claimed(s, attempt, k1, g1).1, between);
  }

  // An attempt that was not stored when the lesson was finished is not stored after, until a restart.
  lemma {:induction false} NothingNewWhenFinished(s: State, es: seq<Event>)
    requires s.row.Some? && !s.row.value.active
    requires forall id :: id in s.flight ==> !s.flight[id].Starting?
    requires forall i :: 0 <= i < |es| ==> !es[i].BeginStart?
    ensures Run(s, es).row == s.row && Run(s, es).checkEvents == s.checkEvents
    decreases |es|
  {
    if es != [] {
      var s' := Step(s, es[0]);
      assert forall id :: id in s'.flight ==> !s'.flight[id].Starting?;
      NothingNewWhenFinished(s', es[1..]);
    }
  }

  // ---------------------------------------------------------------- what each write leaves

  // A draft that lands replaces what it carries and keeps the rest; a stale one changes nothing.
  lemma DraftExactly(s: State, v: nat, step: Option<nat>, draft: Option<int>)
    requires s.row.Some?
    ensures var r, t := s.row.value, Step(s, Draft(v, step, draft));
      if r.version == v && r.active then
        && t.row == Some(Row(v + 1, true, t.row.value.step, r.language, t.row.value.draft, r.checks))
        && (step == None ==> t.row.value.step == r.step) && (step.Some? ==> Some(t.row.value.step) == step)
        && (draft == None ==> t.row.value.draft == r.draft) && (draft.Some? ==> Some(t.row.value.draft) == draft)
      else t == s
  {
  }

  // A finish that lands closes the row at the last step, keeps draft and results, and logs one event.
  lemma FinishExactly(s: State, v: nat)
    requires s.row.Some?
    ensures var r, t := s.row.value, Step(s, Finish(v));
      if r.version == v && r.active then
        t.row == Some(Row(v + 1, false, 5, r.language, r.draft, r.checks)) && t.finishEvents == s.finishEvents + 1
      else t == s
  {
  }

  // A start makes the row active in its language and keeps draft and results; it goes back to the first
  // step exactly if the row was read finished. Where there is no row it creates one, and it fails if the
  // row was created meanwhile.
  lemma StartExactly(s: State, id: nat, language: nat, read: Option<Row>, g: Result)
    requires id in s.flight && s.flight[id] == Starting(language, read)
    ensures var t := Step(s, Commit(id, g));
      && (s.row.None? ==> t.row == Some(Row(1, true, 0, language, 0, map[])))
      && (s.row.Some? && read.None? ==> t.row == s.row)
      && (s.row.Some? && read.Some? ==>
            var r := s.row.value;
            t.row == Some(Row(r.version + 1, true, if read.value.active then r.step else 0, language,
                              r.draft, r.checks)))
  {
  }

  // A practice write sets only the step, to the later of the practice step and the step that was read.
  lemma PracticeExactly(s: State, id: nat, seen: Row, g: Result)
    requires id in s.flight && s.flight[id] == Practising(seen) && s.row.Some?
    ensures var r, t := s.row.value, Step(s, Commit(id, g));
      if !r.active then t.row == s.row
      else
        && t.row == Some(Row(r.version + 1, true, t.row.value.step, r.language, r.draft, r.checks))
        && t.row.value.step >= 4 && t.row.value.step >= seen.step
        && (t.row.value.step == 4 || t.row.value.step == seen.step)
  {
  }

  // A new attempt on an active row is stored and answered with the judge's own verdict, and moves the row
  // on to the prediction or the task step, never back.
  lemma ClaimExactly(s: State, attempt: nat, kind: Kind, graded: Result)
    requires s.row.Some? && s.row.value.active && attempt !in s.row.value.checks
    ensures var (answer, t) := Claimed(s, attempt, kind, graded); var r := s.row.value;
      && answer == Stored(graded, false)
      && t.row == Some(Row(r.version + 1, true, t.row.value.step, r.language, r.draft, r.checks[attempt := graded]))
      && (kind == Prediction ==> t.row.value.step == if r.step < 2 then 2 else r.step)
      && (kind == Task ==> t.row.value.step == if r.step < 3 then 3 else r.step)
      && t.checkEvents == s.checkEvents + [attempt]
  {
  }

  // Otherwise nothing is written: a stored attempt is answered with what is stored, a finished row refuses.
  lemma ClaimTurnedAway(s: State, attempt: nat, kind: Kind, graded: Result)
    requires s.row.None? || attempt in s.row.value.checks || !s.row.value.active
    ensures var (answer, t) := Claimed(s, attempt, kind, graded);
      && t == s
      && (s.row.None? ==> answer == Missing)
      && (s.row.Some? && attempt in s.row.value.checks ==> answer == Stored(s.row.value.checks[attempt], true))
      && (s.row.Some? && attempt !in s.row.value.checks ==> answer == Refused)
  {
  }

  // ---------------------------------------------------------------- where a stored result comes from

  // The commit at place i of the run lands attempt `a`.
  predicate LandsAt(es: seq<Event>, i: nat, a: nat)
    requires i < |es|
  {
    var s := Run(Initial, es[..i]);
    && es[i].Commit? && es[i].id in s.flight && s.flight[es[i].id].Checking?
    && s.flight[es[i].id].attempt == a && IsActive(s) && a !in s.row.value.checks
  }

  predicate StoredAs(s: State, a: nat, g: Result) {
    s.row.Some? && a in s.row.value.checks && s.row.value.checks[a] == g
  }

  // One step stores a result under `a` exactly if it is the commit that lands it.
  lemma StoreStep(s: State, e: Event, a: nat, g: Result)
    requires !(s.row.Some? && a in s.row.value.checks)
    ensures StoredAs(Step(s, e), a, g) <==>
      && e.Commit? && e.id in s.flight && s.flight[e.id].Checking? && s.flight[e.id].attempt == a
      && IsActive(s) && e.graded == g
  {
  }

  lemma LandsLonger(es: seq<Event>, e: Event, i: nat, a: nat)
    requires i < |es|
    ensures (es + [e])[i] == es[i] && (es + [e])[..i] == es[..i]
    ensures LandsAt(es + [e], i, a) <==> LandsAt(es, i, a)
  {
  }

  // Every stored result is the verdict of the commit of this run that landed it.
  lemma {:induction false} StoredFromCommit(es: seq<Event>, a: nat) returns (i: nat)
    requires var s := Run(Initial, es); s.row.Some? && a in s.row.value.checks
    ensures i < |es| && LandsAt(es, i, a) && Run(Initial, es).row.value.checks[a] == es[i].graded
    decreases |es|
  {
    var n := |es| - 1;
    var before := es[..n];
    assert es == before + [es[n]];
    RunAppend(Initial, before, es[n]);
    var s := Run(Initial, before);
    if s.row.Some? && a in s.row.value.checks {
      i := StoredFromCommit(before, a);
      LaterStep(s, es[n]);
      LandsLonger(before, es[n], i, a);
    } else {
      StoreStep(s, es[n], a, Run(Initial, es).row.value.checks[a]);
      i := n;
    }
  }

  // And that commit is the only one that lands it.
  lemma LandsOnce(es: seq<Event>, i: nat, j: nat, a: nat)
    requires i < j < |es| && LandsAt(es, i, a)
    ensures !LandsAt(es, j, a)
  {
    var s := Run(Initial, es[..i]);
    var next := es[..i + 1];
    assert next == es[..i] + [es[i]] && es[..j] == next + es[i + 1..j];
    RunAppend(Initial, es[..i], es[i]);
    StoreStep(s, es[i], a, es[i].graded);
    RunKeeps(Initial, next);
    RunKeeps(Run(Initial, next), es[i + 1..j]);
    RunConcat(Initial, next, es[i + 1..j]);
  }

  lemma {:induction false} RunConcat(s: State, es: seq<Event>, more: seq<Event>)
    ensures Run(s, es + more) == Run(Run(s, es), more)
    decreases |es|
  {
    if es == [] {
      assert es + more == more;
    } else {
      assert (es + more)[0] == es[0] && (es + more)[1..] == es[1..] + more;
      RunConcat(Step(s, es[0]), es[1..], more);
    }
  }

  // What a request in flight holds it was given when it began: its attempt and kind, or the row as it
  // was then.
  predicate BeganAt(es: seq<Event>, i: nat, id: nat, r: Request)
    requires i < |es|
  {
    match r
    case Starting(l, read) => es[i] == BeginStart(id, l) && read == Run(Initial, es[..i]).row
    case Checking(a, k) => es[i] == BeginCheck(id, a, k)
    case Practising(seen) => es[i] == BeginPractice(id) && Run(Initial, es[..i]).row == Some(seen)
  }

  lemma {:induction false} FlightFromBegin(es: seq<Event>, id: nat) returns (i: nat)
    requires id in Run(Initial, es).flight
    ensures i < |es| && BeganAt(es, i, id, Run(Initial, es).flight[id])
    decreases |es|
  {
    var n := |es| - 1;
    var before := es[..n];
    assert es == before + [es[n]] && es[..n] == before;
    RunAppend(Initial, before, es[n]);
    var s := Run(Initial, before);
    FlightStep(s, es[n], id);
    if id in s.flight {
      i := FlightFromBegin(before, id);
      assert es[..i] == before[..i] && es[i] == before[i];
    } else {
      i := n;
    }
  }

  lemma FlightStep(s: State, e: Event, id: nat)
    requires id in Step(s, e).flight
    ensures id in s.flight ==> Step(s, e).flight[id] == s.flight[id]
    ensures id !in s.flight ==>
      match Step(s, e).flight[id]
      case Starting(l, read) => e == BeginStart(id, l) && read == s.row
      case Checking(a, k) => e == BeginCheck(id, a, k)
      case Practising(seen) => e == BeginPractice(id) && s.row == Some(seen)
  {
  }

  // ---------------------------------------------------------------- practice can move back

  // The practice write is meant only to move the step forward. It takes the maximum with the step it
  // read, not with the step that is there, so it moves back exactly when the row is active and stands
  // beyond both the practice step and the step that was read.
  lemma PracticeStep(s: State, read: Row)
    requires s.row.Some?
    ensures Practised(s, read).row.value.step < s.row.value.step
            <==> s.row.value.active && s.row.value.step > STEP_PRACTICE && s.row.value.step > read.step
  {
  }

  // And it happens: the client saves the last step as a draft while a practice request is under way.
  lemma PracticeUndoesADraft()
    ensures var es := [BeginStart(1, 0), Commit(1, Result(true, "")), BeginPractice(2), Draft(1, Some(5), None)];
      && Run(Initial, es).row.Some? && Run(Initial, es).row.value.step == 5
      && Run(Initial, es + [Commit(2, Result(true, ""))]).row == Some(Row(3, true, 4, 0, 0, map[]))
  {
    var g := Result(true, "");
    var s1 := Step(Initial, BeginStart(1, 0));
    var s2 := Step(s1, Commit(1, g));
    var s3 := Step(s2, BeginPractice(2));
    var s4 := Step(s3, Draft(1, Some(5), None));
    var es := [BeginStart(1, 0), Commit(1, g), BeginPractice(2), Draft(1, Some(5), None)];
    RunCons(Initial, BeginStart(1, 0), [Commit(1, g), BeginPractice(2), Draft(1, Some(5), None)]);
    RunCons(s1, Commit(1, g), [BeginPractice(2), Draft(1, Some(5), None)]);
    RunCons(s2, BeginPractice(2), [Draft(1, Some(5), None)]);
    RunCons(s3, Draft(1, Some(5), None), []);
    RunAppend(Initial, es, Commit(2, g));
  }

  lemma RunCons(s: State, e: Event, es: seq<Event>)
    ensures Run(s, [e] + es) == Run(Step(s, e), es)
  {
    assert ([e] + es)[1..] == es;
  }

  lemma {:induction false} RunAppend(s: State, es: seq<Event>, e: Event)
    ensures Run(s, es + [e]) == Step(Run(s, es), e)
    decreases |es|
  {
    if es == [] {
      assert [] + [e] == [e] && [e][1..] == [];
    } else {
      assert (es + [e])[0] == es[0] && (es + [e])[1..] == es[1..] + [e];
      RunAppend(Step(s, es[0]), es[1..], e);
    }
  }

  // ---------------------------------------------------------------- the table row, updated in place

  class Lesson {
    var row: Option<Row>
    var checkEvents: seq<nat>
    var finishEvents: nat
    ghost var flight: map<nat, Request>

    ghost function S(): State reads this {
      State(row, flight, checkEvents, finishEvents)
    }

    method StartWrite(language: nat, read: Option<Row>)
      modifies this
      ensures S() == Started(old(S()), language, read)
    {
      if row.None? {
        row := Some(Row(1, true, STEP_IDEA, language, 0, map[]));
      } else if read.Some? {
        var r := row.value.(language := language, active := true, version := row.value.version + 1);
        row := Some(if !read.value.active then r.(step := STEP_IDEA) else r);
      }
    }

    method DraftWrite(version: nat, step: Option<nat>, draft: Option<int>) returns (count: nat)
      modifies this
      ensures S() == Drafted(old(S()), version, step, draft) && (count == 0 <==> S() == old(S()))
    {
      if row.None? || row.value.version != version || !row.value.active { return 0; }
      var r := row.value.(version := version + 1);
      if step.Some? { r := r.(step := step.value); }
      if draft.Some? { r := r.(draft := draft.value); }
      row := Some(r);
      return 1;
    }

    method CheckTransaction(attempt: nat, kind: Kind, graded: Result) returns (answer: Answer)
      modifies this
      ensures (answer, S()) == Claimed(old(S()), attempt, kind, graded)
      ensures answer.Stored? && !answer.duplicate ==>
        answer.result == graded && row.Some? && row.value.checks == old(row.value.checks)[attempt := graded]
      ensures answer.Stored? && answer.duplicate ==>
        row == old(row) && attempt in row.value.checks && answer.result == row.value.checks[attempt]
    {
      if row.None? { return Missing; }
      var current := row.value;
      if attempt in current.checks { return Stored(current.checks[attempt], true); }
      if !current.active { return Refused; }
      var step := Max(current.step, if kind == Prediction then STEP_PREDICTION else STEP_TASK);
      row := Some(current.(version := current.version + 1, checks := current.checks[attempt := graded], step := step));
      checkEvents := checkEvents + [attempt];
      return Stored(graded, false);
    }

    method PracticeWrite(read: Row)
      modifies this
      ensures S() == Practised(old(S()), read)
    {
      if row.Some? && row.value.active {
        row := Some(row.value.(version := row.value.version + 1, step := Max(read.step, STEP_PRACTICE)));
      }
    }

    method FinishTransaction(version: nat) returns (finished: bool)
      modifies this
      ensures S() == FinishedAt(old(S()), version) && (finished <==> S() != old(S()))
    {
      if row.None? || row.value.version != version || !row.value.active { return false; }
      row := Some(row.value.(version := version + 1, active := false, step := STEP_DONE));
      finishEvents := finishEvents + 1;
      return true;
    }
  }
}
