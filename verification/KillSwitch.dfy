/**
 The documented way out of a held screen: hold Escape for ten seconds. The state machine sees key
 events only, no timers; what it decides is proved to be what "held for ten seconds, once" means on
 the whole history of events.
*/
module KillSwitch {

  import opened Wrappers

  const HOLD_TO_RELEASE_MS := 10_000

  // An Escape going down (auto-repeat included), any other key going down, Escape or another key
  // coming up, and the shell's own reset when a lock starts or ends.
  datatype Event = EscapeDown(now: int) | OtherDown | EscapeUp | OtherUp | Reset

  // ---------------------------------------------------------------- what a hold is

  predicate Interrupts(e: Event) {
    e.OtherDown? || e.EscapeUp? || e.Reset?
  }

  // Nothing ended the hold among the events j..i.
  predicate Unbroken(h: seq<Event>, j: nat, i: nat)
    requires i <= |h|
  {
    forall k :: j <= k < i ==> !Interrupts(h[k])
  }

  // The hold under way after i events began with the Escape at j.
  predicate Began(h: seq<Event>, j: nat, i: nat)
    requires i <= |h|
  {
    j < i && h[j].EscapeDown? && Unbroken(h, j, i)
    && forall k :: 0 <= k < j && h[k].EscapeDown? ==> !Unbroken(h, k, i)
  }

  predicate NoneUnderWay(h: seq<Event>) {
    forall j :: 0 <= j < |h| ==> !Began(h, j, |h|)
  }

  // An Escape in j..i has come `ms` or more after the one that began the hold.
  predicate LongEnough(h: seq<Event>, j: nat, i: nat, ms: int)
    requires j <= i <= |h| && j < |h| && h[j].EscapeDown?
  {
    exists k :: j <= k < i && h[k].EscapeDown? && h[k].now - h[j].now >= ms
  }

  // The Escape at i completes a hold that no earlier Escape has completed.
  predicate Completes(h: seq<Event>, i: nat, ms: int)
    requires i < |h|
  {
    h[i].EscapeDown?
    && exists j :: 0 <= j <= i && Began(h, j, i + 1) && h[i].now - h[j].now >= ms && !LongEnough(h, j, i, ms)
  }

  // ---------------------------------------------------------------- the machine

  datatype Hold = Hold(startedAt: Option<int>, fired: bool)

  const Idle := Hold(None, false)

  function Pressed(s: Hold, now: int, ms: int): (Hold, bool) {
    var start := if s.startedAt.None? then now else s.startedAt.value;
    var fires := !s.fired && now - start >= ms;
    (Hold(Some(start), s.fired || fires), fires)
  }

  function After(s: Hold, e: Event, ms: int): Hold {
    match e
    case EscapeDown(now) => Pressed(s, now, ms).0
    case OtherUp => s
    case _ => Idle
  }

  predicate Fires(s: Hold, e: Event, ms: int) {
    e.EscapeDown? && Pressed(s, e.now, ms).1
  }

  function HoldAfter(h: seq<Event>, ms: int): Hold {
    if h == [] then Idle else After(HoldAfter(h[..|h| - 1], ms), h[|h| - 1], ms)
  }

  // The two fields, read off the history: the time of the Escape that began the hold under way, and
  // whether an Escape has completed it.
  ghost predicate Tracks(s: Hold, h: seq<Event>, ms: int) {
    match s.startedAt
    case None => !s.fired && NoneUnderWay(h)
    case Some(t) =>
      exists j :: 0 <= j < |h| && Began(h, j, |h|) && h[j].now == t && (s.fired <==> LongEnough(h, j, |h|, ms))
  }

  lemma OneBeginning(h: seq<Event>, j: nat, k: nat, i: nat)
    requires i <= |h| && Began(h, j, i) && Began(h, k, i)
    ensures j == k
  {
  }

  // A hold that began at j before the last event goes on exactly if that event does not end it.
  lemma Extended(h: seq<Event>, j: nat)
    requires |h| > 0 && j < |h| - 1
    ensures Began(h, j, |h|) <==> Began(h[..|h| - 1], j, |h| - 1) && !Interrupts(h[|h| - 1])
  {
    var p := h[..|h| - 1];
    if !Interrupts(h[|h| - 1]) {
      forall k | 0 <= k < |h| - 1
        ensures Unbroken(h, k, |h|) <==> Unbroken(p, k, |h| - 1)
      {
        assert forall x :: k <= x < |h| - 1 ==> p[x] == h[x];
      }
    }
  }

  // An Escape begins a hold exactly if none is under way.
  lemma Beginning(h: seq<Event>)
    requires |h| > 0 && h[|h| - 1].EscapeDown?
    ensures Began(h, |h| - 1, |h|) <==> NoneUnderWay(h[..|h| - 1])
  {
    var n := |h| - 1;
    var p := h[..n];
    if !Began(h, n, |h|) {
      var k :| 0 <= k < n && h[k].EscapeDown? && Unbroken(h, k, |h|);
      var j := Earliest(h, k);
      Extended(h, j);
    } else {
      forall j | 0 <= j < n
        ensures !Began(p, j, n)
      {
        Extended(h, j);
      }
    }
  }

  lemma {:induction false} Earliest(h: seq<Event>, k: nat) returns (j: nat)
    requires k < |h| && h[k].EscapeDown? && Unbroken(h, k, |h|)
    ensures j <= k && Began(h, j, |h|)
    decreases k
  {
    if Began(h, k, |h|) {
      j := k;
    } else {
      var m :| 0 <= m < k && h[m].EscapeDown? && Unbroken(h, m, |h|);
      j := Earliest(h, m);
    }
  }

  lemma LongEnoughSoFar(h: seq<Event>, j: nat, ms: int)
    requires |h| > 0 && j < |h| && h[j].EscapeDown?
    ensures LongEnough(h, j, |h|, ms) <==>
        (j < |h| - 1 && LongEnough(h[..|h| - 1], j, |h| - 1, ms))
        || (h[|h| - 1].EscapeDown? && h[|h| - 1].now - h[j].now >= ms)
    ensures j < |h| - 1 ==> LongEnough(h, j, |h| - 1, ms) == LongEnough(h[..|h| - 1], j, |h| - 1, ms)
  {
    assert forall k :: 0 <= k < |h| - 1 ==> h[..|h| - 1][k] == h[k];
  }

  lemma {:induction false} TracksAll(h: seq<Event>, ms: int)
    ensures Tracks(HoldAfter(h, ms), h, ms)
    decreases |h|
  {
    if h != [] {
      var n := |h| - 1;
      TracksAll(h[..n], ms);
      Tracked(HoldAfter(h[..n], ms), h, ms);
    }
  }

  lemma Tracked(s: Hold, h: seq<Event>, ms: int)
    requires |h| > 0 && Tracks(s, h[..|h| - 1], ms)
    ensures Tracks(After(s, h[|h| - 1], ms), h, ms)
    ensures Completes(h, |h| - 1, ms) <==> Fires(s, h[|h| - 1], ms)
  {
    var n := |h| - 1;
    var p := h[..n];
    var r := After(s, h[n], ms);
    forall j | 0 <= j < n
      ensures Began(h, j, |h|) <==> Began(p, j, n) && !Interrupts(h[n])
    {
      Extended(h, j);
    }
    if h[n].EscapeDown? {
      Beginning(h);
    }
    if s.startedAt.Some? {
      var j :| 0 <= j < n && Began(p, j, n) && h[j].now == s.startedAt.value && (s.fired <==> LongEnough(p, j, n, ms));
      LongEnoughSoFar(h, j, ms);
      if h[n].EscapeDown? {
        forall k | 0 <= k <= n && Began(h, k, |h|)
          ensures k == j
        {
          OneBeginning(h, j, k, |h|);
        }
      }
    } else if h[n].EscapeDown? {
      LongEnoughSoFar(h, n, ms);
      assert Began(h, n, |h|);
    }
  }

  // The machine fires at an Escape exactly if that Escape completes a hold: the hold began with an
  // Escape at least `ms` before, nothing interrupted it, and no earlier Escape in it had completed it.
  lemma FiresExactly(h: seq<Event>, i: nat, ms: int)
    requires i < |h|
    ensures Fires(HoldAfter(h[..i], ms), h[i], ms) <==> Completes(h, i, ms)
  {
    var g := h[..i + 1];
    assert g[..i] == h[..i];
    TracksAll(h[..i], ms);
    Tracked(HoldAfter(h[..i], ms), g, ms);
    PrefixCompletes(h, i, ms);
  }

  lemma PrefixCompletes(h: seq<Event>, i: nat, ms: int)
    requires i < |h|
    ensures Completes(h, i, ms) <==> Completes(h[..i + 1], i, ms)
  {
    var n := i + 1;
    var g := h[..n];
    assert forall k :: 0 <= k < n ==> g[k] == h[k];
    assert forall j :: 0 <= j < n ==> (Began(g, j, n) <==> Began(h, j, n));
  }

  // A hold that is not broken goes on.
  lemma StillUnderWay(h: seq<Event>, j: nat, i: nat, k: nat)
    requires i <= k <= |h| && Began(h, j, i) && Unbroken(h, i, k)
    ensures Began(h, j, k)
  {
  }

  lemma FiredAlready(h: seq<Event>, i: nat, k: nat, ms: int)
    requires i < k < |h| && Completes(h, i, ms) && Unbroken(h, i + 1, k)
    ensures !Completes(h, k, ms)
  {
    if h[k].EscapeDown? {
      var j :| 0 <= j <= i && Began(h, j, i + 1) && h[i].now - h[j].now >= ms;
      StillUnderWay(h, j, i + 1, k + 1);
      assert LongEnough(h, j, k, ms);
      var n := k + 1;
      forall m | 0 <= m < n && Began(h, m, n)
        ensures m == j
      {
        OneBeginning(h, j, m, n);
      }
    }
  }

  // Hence auto-repeat cannot fire twice: between two firings the hold was broken.
  lemma OncePerHold(h: seq<Event>, i: nat, k: nat, ms: int)
    requires i < k < |h|
    requires Fires(HoldAfter(h[..i], ms), h[i], ms) && Fires(HoldAfter(h[..k], ms), h[k], ms)
    ensures !Unbroken(h, i + 1, k)
  {
    FiresExactly(h, i, ms);
    FiresExactly(h, k, ms);
    if Unbroken(h, i + 1, k) {
      FiredAlready(h, i, k, ms);
    }
  }

  // ---------------------------------------------------------------- the ring on the screen

  // A JavaScript quotient capped at 1: a number, or what dividing by a zero hold time leaves.
  datatype Fraction = Finite(value: real) | NaN | MinusInfinity

  datatype Progress = Progress(holding: bool, fraction: Fraction, msRemaining: int)

  const Full := Finite(1.0)

  function Max(a: int, b: int): int {
    if a >= b then a else b
  }

  function Capped(elapsed: int, ms: int): Fraction {
    if ms == 0 then
      if elapsed > 0 then Full else if elapsed == 0 then NaN else MinusInfinity
    else
      var q := elapsed as real / ms as real;
      Finite(if 1.0 <= q then 1.0 else q)
  }

  function Shown(s: Hold, now: int, ms: int): Progress {
    match s.startedAt
    case None => Progress(false, Finite(0.0), ms)
    case Some(t) => Progress(true, Capped(now - t, ms), Max(0, ms - (now - t)))
  }

  // For a positive hold time the ring is full exactly when nothing remains, which is when the time since
  // the first Escape has reached the limit; and it is a fraction at all only if the clock has not run
  // backwards.
  lemma Ring(s: Hold, now: int, ms: int)
    requires ms > 0 && s.startedAt.Some?
    ensures var p := Shown(s, now, ms);
      && (p.fraction == Full <==> p.msRemaining == 0)
      && (p.fraction == Full <==> now - s.startedAt.value >= ms)
      && p.fraction.Finite? && p.fraction.value <= 1.0
      && (0.0 <= p.fraction.value <==> s.startedAt.value <= now)
  {
    var elapsed := now - s.startedAt.value;
    Ratio(elapsed as real, ms as real);
    assert elapsed as real >= ms as real <==> elapsed >= ms;
  }

  // Until it is full it shows exactly the part of the hold time that has passed, and the rest remains;
  // with no hold under way nothing has passed.
  lemma RingExactly(s: Hold, now: int, ms: int)
    requires ms > 0
    ensures var p := Shown(s, now, ms);
      && (p.holding <==> s.startedAt.Some?)
      && (s.startedAt.None? ==> p.fraction == Finite(0.0) && p.msRemaining == ms)
      && (s.startedAt.Some? && p.fraction != Full ==>
            && p.fraction.Finite? && p.fraction.value * (ms as real) == (now - s.startedAt.value) as real
            && p.msRemaining == ms - (now - s.startedAt.value))
  {
    if s.startedAt.Some? {
      Ring(s, now, ms);
      var q := (now - s.startedAt.value) as real / ms as real;
      assert q * (ms as real) == (now - s.startedAt.value) as real;
    }
  }

  lemma Ratio(a: real, b: real)
    requires b > 0.0
    ensures (1.0 <= a / b <==> b <= a) && (0.0 <= a / b <==> 0.0 <= a)
  {
    var q := a / b;
    assert q * b == a;
    Scales(1.0, q, b);
    Scales(0.0, q, b);
  }

  lemma Scales(a: real, b: real, c: real)
    requires c > 0.0
    ensures a * c <= b * c <==> a <= b
  {
    if a <= b {
      assert (b - a) * c >= 0.0;
    } else {
      assert (a - b) * c > 0.0;
    }
  }

  // What an Escape shows is what it did: the ring it leaves is full only if the hold has fired, at this
  // Escape or before; and if the clock never runs backwards, a hold that has fired shows a full ring.
  lemma RingAtEscape(h: seq<Event>, ms: int)
    requires ms > 0 && |h| > 0 && h[|h| - 1].EscapeDown?
    ensures var s := HoldAfter(h, ms); var now := h[|h| - 1].now;
      && (Shown(s, now, ms).fraction == Full ==> s.fired)
      && (s.fired && (forall k :: 0 <= k < |h| && h[k].EscapeDown? ==> h[k].now <= now)
        ==> Shown(s, now, ms).fraction == Full)
  {
    var s := HoldAfter(h, ms);
    var now := h[|h| - 1].now;
    TracksAll(h, ms);
    Ring(s, now, ms);
  }

  // The hold under way began `ms` or more before `now`, and no Escape in it came that late.
  predicate Overdue(h: seq<Event>, now: int, ms: int) {
    exists j :: 0 <= j < |h| && Began(h, j, |h|) && now - h[j].now >= ms && !LongEnough(h, j, |h|, ms)
  }

  // A ring redrawn at `now`, after any history, is full with nothing fired exactly if the hold is overdue.
  lemma FullUnfiredExactly(h: seq<Event>, now: int, ms: int)
    requires ms > 0
    ensures var s := HoldAfter(h, ms);
      Shown(s, now, ms).fraction == Full && !s.fired <==> Overdue(h, now, ms)
  {
    var s := HoldAfter(h, ms);
    TracksAll(h, ms);
    if s.startedAt.Some? {
      Ring(s, now, ms);
      var j :| 0 <= j < |h| && Began(h, j, |h|) && h[j].now == s.startedAt.value
        && (s.fired <==> LongEnough(h, j, |h|, ms));
      forall k | 0 <= k < |h| && Began(h, k, |h|)
        ensures k == j
      {
        OneBeginning(h, j, k, |h|);
      }
    }
  }

  // And it happens: another key coming up redraws the ring without deciding anything, so it can be full,
  // and stay full, with nothing released until the next Escape repeats.
  lemma FullRingNotFired(t: int, ms: int)
    requires ms > 0
    ensures var s := HoldAfter([EscapeDown(t), OtherUp], ms);
      Shown(s, t + ms, ms) == Progress(true, Full, 0) && !s.fired
  {
    var h := [EscapeDown(t), OtherUp];
    assert h[..1] == [EscapeDown(t)] && h[..1][..0] == [];
    assert HoldAfter(h[..1], ms) == Hold(Some(t), false);
    Ring(Hold(Some(t), false), t + ms, ms);
  }

  // ---------------------------------------------------------------- the object

  class HoldToRelease {
    const holdMs: int
    var startedAt: Option<int>
    var fired: bool
    ghost var history: seq<Event>

    ghost predicate Valid()
      reads this
    {
      Hold(startedAt, fired) == HoldAfter(history, holdMs)
    }

    function State(): Hold
      reads this
    {
      Hold(startedAt, fired)
    }

    constructor (holdMs: int := HOLD_TO_RELEASE_MS)
      ensures Valid() && history == [] && this.holdMs == holdMs && State() == Idle
    {
      this.holdMs := holdMs;
      startedAt, fired, history := None, false, [];
    }

    // `now` matters only for Escape.
    method KeyDown(escape: bool, now: int) returns (release: bool)
      requires Valid()
      modifies this
      ensures Valid() && history == old(history) + [if escape then EscapeDown(now) else OtherDown]
      ensures State() == After(old(State()), history[|history| - 1], holdMs)
      ensures release == Fires(old(State()), history[|history| - 1], holdMs)
      ensures release <==> Completes(history, |history| - 1, holdMs)
    {
      ghost var event := if escape then EscapeDown(now) else OtherDown;
      HistoryGrows(history, event, holdMs);
      if !escape {
        Clear(event);
        return false;
      }
      history := history + [event];
      if startedAt.None? {
        startedAt := Some(now);
      }
      if !fired && now - startedAt.value >= holdMs {
        fired := true;
        return true;
      }
      return false;
    }

    method KeyUp(escape: bool)
      requires Valid()
      modifies this
      ensures Valid() && history == old(history) + [if escape then EscapeUp else OtherUp]
      ensures State() == if escape then Idle else old(State())
    {
      if escape {
        Clear(EscapeUp);
      } else {
        HistoryGrows(history, OtherUp, holdMs);
        history := history + [OtherUp];
      }
    }

    method GetProgress(now: int) returns (p: Progress)
      ensures p == Shown(State(), now, holdMs)
    {
      if startedAt.None? {
        return Progress(false, Finite(0.0), holdMs);
      }
      var elapsed := now - startedAt.value;
      var fraction := Capped(elapsed, holdMs);
      p := Progress(true, fraction, Max(0, holdMs - elapsed));
    }

    // `event` says what the reset is for: a key that interrupts, or the shell.
    method Clear(ghost event: Event := Reset)
      requires Valid() && Interrupts(event)
      modifies this
      ensures Valid() && history == old(history) + [event] && State() == Idle
    {
      HistoryGrows(history, event, holdMs);
      startedAt := None;
      fired := false;
      history := history + [event];
    }
  }

  lemma HistoryGrows(h: seq<Event>, e: Event, ms: int)
    ensures HoldAfter(h + [e], ms) == After(HoldAfter(h, ms), e, ms)
    ensures Fires(HoldAfter(h, ms), e, ms) <==> Completes(h + [e], |h|, ms)
  {
    var g := h + [e];
    assert g[..|g| - 1] == h && g[..|h|] == h;
    FiresExactly(g, |h|, ms);
  }
}
