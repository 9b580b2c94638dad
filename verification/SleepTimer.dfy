/**
 The dock screen's life cycle and sleep timer (player/ambient.go). Arming starts a
 goroutine that may wake up arbitrarily late, after any number of other calls; a
 generation counter decides whether it still means anything.
 Each operation is what one function does while it holds the mutex. A goroutine that
 decides to act stops the music only after it has let the mutex go, so that is an
 operation of its own, and others can come in between.
 */
module SleepTimer {
  import opened Prelude

  /** A sleeping goroutine: the generation it captured and when its timer expires. */
  datatype Timer = Timer(gen: nat, due: int)

  datatype State = State(
    active: bool, screenOff: bool, blackFrame: bool,
    sleepUntil: Option<int>, gen: nat,
    now: int, timers: set<Timer>,
    stopping: set<Timer>)      // decided to act, but the music is not stopped yet

  datatype Op =
    | Enter | Leave | Reset | Input | Darken | BlackFrameDrawn
    | Arm(d: int)
    | Pass(dt: nat)            // the clock
    | Wake(timer: Timer)       // the goroutine gets the mutex after its timer expired, and decides
    | StopMusic(timer: Timer)  // the goroutine's last step, without the mutex

  const START := State(false, false, false, None, 0, 0, {}, {})

  /** The goroutine's own test. */
  predicate TakesEffect(s: State, t: Timer) { t.gen == s.gen && s.active }

  predicate CanWake(s: State, t: Timer) { t in s.timers && t.due <= s.now }

  function Apply(s: State, op: Op): State {
    match op
    case Enter => if s.active then s else s.(active := true, screenOff := false, blackFrame := false)
    case Leave =>
      if !s.active then s
      else s.(active := false, screenOff := false, blackFrame := false, gen := s.gen + 1, sleepUntil := None)
    case Reset => s.(active := false, screenOff := false, blackFrame := false, gen := s.gen + 1, sleepUntil := None)
    case Input => if s.active && s.screenOff then s.(screenOff := false, blackFrame := false) else s
    case Darken => if s.active then s.(screenOff := true, blackFrame := true) else s
    case BlackFrameDrawn => s.(blackFrame := false)
    case Arm(d) =>
      if d <= 0 then s.(gen := s.gen + 1, sleepUntil := None)
      else s.(gen := s.gen + 1, sleepUntil := Some(s.now + d), timers := s.timers + {Timer(s.gen + 1, s.now + d)})
    case Pass(dt) => s.(now := s.now + dt)
    case Wake(t) =>
      if !CanWake(s, t) then s
      else if TakesEffect(s, t)
      then s.(timers := s.timers - {t}, stopping := s.stopping + {t}, sleepUntil := None, screenOff := true, blackFrame := true)
      else s.(timers := s.timers - {t})
    case StopMusic(t) => s.(stopping := s.stopping - {t})
  }

  function After(ops: seq<Op>): State {
    if ops == [] then START else Apply(After(ops[..|ops| - 1]), ops[|ops| - 1])
  }

  // ----- what every interleaving keeps -----

  ghost predicate Inv(s: State) {
    && (s.blackFrame ==> s.screenOff) && (s.screenOff ==> s.active)
    && (forall t :: t in s.timers ==> t.gen <= s.gen)
    && (forall t, u :: t in s.timers && u in s.timers && t.gen == u.gen ==> t == u)
    && (s.sleepUntil.None? ==> forall t :: t in s.timers ==> t.gen < s.gen)
    && (s.sleepUntil.Some? ==> Timer(s.gen, s.sleepUntil.value) in s.timers || s.sleepUntil.value <= s.now)
    && (forall t :: t in s.timers && t.gen == s.gen ==> s.sleepUntil == Some(t.due))
  }

  lemma ArmKeepsInv(s: State, d: int)
    requires Inv(s)
    ensures Inv(Apply(s, Arm(d)))
  {}

  lemma ApplyInv(s: State, op: Op)
    requires Inv(s)
    ensures Inv(Apply(s, op))
  {
    if op.Arm? { ArmKeepsInv(s, op.d); }
  }

  lemma {:induction false} EveryInterleaving(ops: seq<Op>)
    ensures Inv(After(ops))
  {
    if ops != [] {
      EveryInterleaving(ops[..|ops| - 1]);
      ApplyInv(After(ops[..|ops| - 1]), ops[|ops| - 1]);
    }
  }

  /** blackFrame implies screenOff implies active, and at most one sleeping goroutine can ever act. */
  lemma AtMostOneLiveTimer(ops: seq<Op>, t: Timer, u: Timer)
    requires t in After(ops).timers && u in After(ops).timers
    requires TakesEffect(After(ops), t) && TakesEffect(After(ops), u)
    ensures t == u && After(ops).sleepUntil == Some(t.due)
  {
    EveryInterleaving(ops);
  }

  lemma ScreenFlags(ops: seq<Op>)
    ensures After(ops).blackFrame ==> After(ops).screenOff
    ensures After(ops).screenOff ==> After(ops).active
    ensures After(ops).sleepUntil.None? ==> forall t :: t in After(ops).timers ==> !TakesEffect(After(ops), t)
  {
    EveryInterleaving(ops);
  }

  // ----- which goroutines still count, read off the history alone -----

  /** Operations that supersede an armed timer: another arm or cancel, a reset, or leaving the open screen. */
  predicate Supersedes(s: State, op: Op) { op.Arm? || op.Reset? || (op.Leave? && s.active) }

  /** No operation with index in [first, last) supersedes. */
  predicate Untouched(ops: seq<Op>, first: nat, last: nat)
    requires last <= |ops|
  {
    last <= first || (Untouched(ops, first, last - 1) && !Supersedes(After(ops[..last - 1]), ops[last - 1]))
  }

  lemma AfterStep(ops: seq<Op>, i: nat)
    requires i < |ops|
    ensures After(ops[..i + 1]) == Apply(After(ops[..i]), ops[i])
  {
    assert ops[..i + 1][..i] == ops[..i];
  }

  lemma GenerationStep(s: State, op: Op)
    ensures Apply(s, op).gen == s.gen + if Supersedes(s, op) then 1 else 0
  {}

  lemma {:induction false} GenerationCounts(ops: seq<Op>, first: nat, last: nat)
    requires first <= last <= |ops|
    ensures After(ops[..first]).gen <= After(ops[..last]).gen
    ensures After(ops[..first]).gen == After(ops[..last]).gen <==> Untouched(ops, first, last)
    decreases last
  {
    if last > first {
      GenerationCounts(ops, first, last - 1);
      GenerationNext(ops, last - 1);
    }
  }

  lemma GenerationNext(ops: seq<Op>, i: nat)
    requires i < |ops|
    ensures After(ops[..i + 1]).gen == After(ops[..i]).gen + if Supersedes(After(ops[..i]), ops[i]) then 1 else 0
  {
    AfterStep(ops, i);
    GenerationStep(After(ops[..i]), ops[i]);
  }

  /**
   The goroutine armed by operation k takes effect when it wakes before operation m
   if and only if the screen is open then and nothing in between superseded it.
   */
  lemma TakesEffectIff(ops: seq<Op>, k: nat, m: nat)
    requires k < m <= |ops| && ops[k].Arm? && ops[k].d > 0
    ensures TakesEffect(After(ops[..m]), Armed(ops, k)) <==> After(ops[..m]).active && Untouched(ops, k + 1, m)
  {
    AfterStep(ops, k);
    GenerationCounts(ops, k + 1, m);
  }

  /** Waking without effect changes nothing but the set of sleeping goroutines. */
  lemma StaleWakeIsSilent(s: State, t: Timer)
    requires !TakesEffect(s, t)
    ensures Apply(s, Wake(t)) == s.(timers := s.timers - {t}) || Apply(s, Wake(t)) == s
  {}

  lemma StaysAway(s: State, op: Op, t: Timer)
    requires t !in s.timers && t.gen <= s.gen
    ensures t !in Apply(s, op).timers && t.gen <= Apply(s, op).gen
  {}

  lemma {:induction false} GenerationsNeverReturn(ops: seq<Op>, k: nat, t: Timer)
    requires k <= |ops| && t !in After(ops[..k]).timers && t.gen <= After(ops[..k]).gen
    ensures t !in After(ops).timers
    decreases |ops| - k
  {
    if k < |ops| {
      AfterStep(ops, k);
      StaysAway(After(ops[..k]), ops[k], t);
      GenerationsNeverReturn(ops, k + 1, t);
    } else {
      assert ops[..k] == ops;
    }
  }

  /** A goroutine gets to decide at most once. */
  lemma WakesOnce(ops: seq<Op>, k: nat)
    requires k < |ops| && ops[k].Wake? && CanWake(After(ops[..k]), ops[k].timer)
    ensures ops[k].timer !in After(ops).timers
  {
    EveryInterleaving(ops[..k]);
    AfterStep(ops, k);
    GenerationsNeverReturn(ops, k + 1, ops[k].timer);
  }

  // ----- the screen, read off the history alone -----

  /** Entered by operation i before n, and not left or reset since. */
  ghost predicate OpenSince(ops: seq<Op>, n: nat, i: int) {
    0 <= i < n <= |ops| && ops[i] == Enter && forall j :: i < j < n ==> ops[j] != Leave && ops[j] != Reset
  }

  lemma OpenSinceStep(ops: seq<Op>, m: nat, n: nat)
    requires m == n + 1 <= |ops|
    ensures (exists i :: OpenSince(ops, m, i))
            <==> ops[n] == Enter || (ops[n] != Leave && ops[n] != Reset && exists i :: OpenSince(ops, n, i))
  {
    if i :| OpenSince(ops, m, i) { assert i == n || OpenSince(ops, n, i); }
    if ops[n] == Enter { assert OpenSince(ops, m, n); }
    if ops[n] != Leave && ops[n] != Reset { if i :| OpenSince(ops, n, i) { assert OpenSince(ops, m, i); } }
  }

  /** The dock screen is open exactly when nothing has left or reset it since it was entered. */
  lemma {:induction false} OpenIff(ops: seq<Op>, n: nat)
    requires n <= |ops|
    ensures After(ops[..n]).active <==> exists i :: OpenSince(ops, n, i)
  {
    if n > 0 {
      OpenIff(ops, n - 1);
      OpenSinceStep(ops, n, n - 1);
      AfterStep(ops, n - 1);
    }
  }

  /** Operation i turns the screen dark: by hand, or by a sleep timer that takes effect. */
  predicate Darkens(ops: seq<Op>, i: nat)
    requires i < |ops|
  {
    var s := After(ops[..i]);
    (ops[i] == Darken && s.active) || (ops[i].Wake? && CanWake(s, ops[i].timer) && TakesEffect(s, ops[i].timer))
  }

  predicate Lights(op: Op) { op == Input || op == Leave || op == Reset }

  /** Darkened by operation i before n, and neither lit nor left since. */
  ghost predicate DarkSince(ops: seq<Op>, n: nat, i: int) {
    0 <= i < n <= |ops| && Darkens(ops, i) && forall j :: i < j < n ==> !Lights(ops[j])
  }

  lemma DarkSinceStep(ops: seq<Op>, m: nat, n: nat)
    requires m == n + 1 <= |ops|
    ensures (exists i :: DarkSince(ops, m, i)) <==> Darkens(ops, n) || (!Lights(ops[n]) && exists i :: DarkSince(ops, n, i))
  {
    if i :| DarkSince(ops, m, i) { assert i == n || DarkSince(ops, n, i); }
    if Darkens(ops, n) { assert DarkSince(ops, m, n); }
    if !Lights(ops[n]) { if i :| DarkSince(ops, n, i) { assert DarkSince(ops, m, i); } }
  }

  /** The screen is dark exactly while nothing has lit it since it was darkened: any input does, and leaving does. */
  lemma {:induction false} DarkIff(ops: seq<Op>, n: nat)
    requires n <= |ops|
    ensures After(ops[..n]).screenOff <==> exists i :: DarkSince(ops, n, i)
  {
    if n > 0 {
      DarkIff(ops, n - 1);
      DarkSinceStep(ops, n, n - 1);
      AfterStep(ops, n - 1);
      EveryInterleaving(ops[..n - 1]);
    }
  }

  /** So whatever came before, an input leaves the screen lit with no black frame to draw. */
  lemma InputLights(ops: seq<Op>)
    ensures !After(ops + [Input]).screenOff && !After(ops + [Input]).blackFrame
  {
    var all := ops + [Input];
    assert all[..|all|] == all;
    DarkIff(all, |all|);
    DarkSinceStep(all, |all|, |ops|);
    EveryInterleaving(all);
  }

  /** Dark since operation i, and no black frame drawn after it. */
  ghost predicate BlackSince(ops: seq<Op>, n: nat, i: int) {
    DarkSince(ops, n, i) && forall j :: i < j < n ==> ops[j] != BlackFrameDrawn
  }

  lemma BlackSinceStep(ops: seq<Op>, m: nat, n: nat)
    requires m == n + 1 <= |ops|
    ensures (exists i :: BlackSince(ops, m, i))
            <==> Darkens(ops, n) || (!Lights(ops[n]) && ops[n] != BlackFrameDrawn && exists i :: BlackSince(ops, n, i))
  {
    if i :| BlackSince(ops, m, i) { assert i == n || BlackSince(ops, n, i); }
    if Darkens(ops, n) { assert BlackSince(ops, m, n); }
    if !Lights(ops[n]) && ops[n] != BlackFrameDrawn { if i :| BlackSince(ops, n, i) { assert BlackSince(ops, m, i); } }
  }

  /** The black frame is owed exactly while the screen is dark and none was drawn since it was darkened last. */
  lemma {:induction false} BlackFrameIff(ops: seq<Op>, n: nat)
    requires n <= |ops|
    ensures After(ops[..n]).blackFrame <==> exists i :: BlackSince(ops, n, i)
  {
    if n > 0 {
      BlackFrameIff(ops, n - 1);
      BlackSinceStep(ops, n, n - 1);
      AfterStep(ops, n - 1);
      EveryInterleaving(ops[..n - 1]);
    }
  }

  /**
   The deadline shown after an arm that nothing superseded: the time of the arm plus its
   duration until the timer acts, and none after that or when the duration is not positive.
   */
  lemma {:induction false} DeadlineIs(ops: seq<Op>, k: nat, n: nat)
    requires k < n <= |ops| && ops[k].Arm? && Untouched(ops, k + 1, n)
    ensures After(ops[..n]).sleepUntil ==
              if ops[k].d <= 0 || ActedBetween(ops, k + 1, n) then None else Some(After(ops[..k]).now + ops[k].d)
    decreases n
  {
    if n > k + 1 {
      DeadlineIs(ops, k, n - 1);
      DeadlineStep(ops, n - 1);
    } else {
      AfterStep(ops, k);
    }
  }

  /** Some timer took effect in [first, last). */
  predicate ActedBetween(ops: seq<Op>, first: nat, last: nat)
    requires last <= |ops|
  {
    first < last && (ActedBetween(ops, first, last - 1) || (ops[last - 1].Wake? && Darkens(ops, last - 1)))
  }

  lemma DeadlineStep(ops: seq<Op>, i: nat)
    requires i < |ops| && !Supersedes(After(ops[..i]), ops[i])
    ensures After(ops[..i + 1]).sleepUntil == if ops[i].Wake? && Darkens(ops, i) then None else After(ops[..i]).sleepUntil
  {
    AfterStep(ops, i);
  }

  /** The clock is the time that passed. */
  lemma ClockAdds(ops: seq<Op>, op: Op)
    ensures After([]).now == 0
    ensures After(ops + [op]).now == After(ops).now + if op.Pass? then op.dt else 0
  {
    assert (ops + [op])[..|ops|] == ops;
  }

  // ----- stopping the music -----

  /** Operation w is timer t's decision to act. */
  predicate Decides(ops: seq<Op>, w: nat, t: Timer) {
    w < |ops| && ops[w] == Wake(t) && CanWake(After(ops[..w]), t) && TakesEffect(After(ops[..w]), t)
  }

  /** Operation m is timer t stopping the music. */
  predicate Stops(ops: seq<Op>, m: nat, t: Timer) {
    m < |ops| && ops[m] == StopMusic(t) && t in After(ops[..m]).stopping
  }

  /** t has decided before m and not got round to the music since. */
  ghost predicate Undone(ops: seq<Op>, m: nat, t: Timer)
    requires m <= |ops|
  {
    exists w :: 0 <= w < m && Decides(ops, w, t) && forall i :: w < i < m ==> ops[i] != StopMusic(t)
  }

  /** Nothing withdraws a decision: the stop is pending from the decision until it is carried out. */
  lemma {:induction false} StoppingIff(ops: seq<Op>, m: nat, t: Timer)
    requires m <= |ops|
    ensures t in After(ops[..m]).stopping <==> Undone(ops, m, t)
  {
    if m > 0 {
      StoppingIff(ops, m - 1, t);
      StoppingNext(ops, m - 1, t);
      UndoneStep(ops, m - 1, t);
    }
  }

  lemma StoppingNext(ops: seq<Op>, i: nat, t: Timer)
    requires i < |ops|
    ensures t in After(ops[..i + 1]).stopping
            <==> Decides(ops, i, t) || (t in After(ops[..i]).stopping && ops[i] != StopMusic(t))
  {
    AfterStep(ops, i);
  }

  lemma UndoneStep(ops: seq<Op>, m: nat, t: Timer)
    requires m < |ops|
    ensures Undone(ops, m + 1, t) <==> Decides(ops, m, t) || (Undone(ops, m, t) && ops[m] != StopMusic(t))
  {
    if Undone(ops, m + 1, t) && !Decides(ops, m, t) {
      var w :| 0 <= w < m + 1 && Decides(ops, w, t) && forall i :: w < i < m + 1 ==> ops[i] != StopMusic(t);
      assert w < m && ops[m] != StopMusic(t);
    }
    if Undone(ops, m, t) && ops[m] != StopMusic(t) {
      var w :| 0 <= w < m && Decides(ops, w, t) && forall i :: w < i < m ==> ops[i] != StopMusic(t);
      assert forall i :: w < i < m + 1 ==> ops[i] != StopMusic(t);
    }
  }

  /** In every interleaving a timer decides to act at most once ... */
  lemma DecidesOnce(ops: seq<Op>, v: nat, w: nat, t: Timer)
    requires Decides(ops, v, t) && Decides(ops, w, t)
    ensures v == w
  {
    if v < w { WokenIsGone(ops, v, w, t); } else if w < v { WokenIsGone(ops, w, v, t); }
  }

  lemma WokenIsGone(ops: seq<Op>, v: nat, w: nat, t: Timer)
    requires v < w < |ops| && ops[v] == Wake(t) && CanWake(After(ops[..v]), t)
    ensures t !in After(ops[..w]).timers
  {
    assert ops[..w][v] == ops[v] && ops[..w][..v] == ops[..v];
    WakesOnce(ops[..w], v);
  }

  /** ... and so stops the music at most once ... */
  lemma StopsOnce(ops: seq<Op>, i: nat, j: nat, t: Timer)
    requires Stops(ops, i, t) && Stops(ops, j, t)
    ensures i == j
  {
    StoppingIff(ops, i, t);
    StoppingIff(ops, j, t);
    var v :| 0 <= v < i && Decides(ops, v, t) && forall k :: v < k < i ==> ops[k] != StopMusic(t);
    var w :| 0 <= w < j && Decides(ops, w, t) && forall k :: w < k < j ==> ops[k] != StopMusic(t);
    DecidesOnce(ops, v, w, t);
  }

  /** The screen is dark before the music stops, whatever happens in between: the comment has it the other way round. */
  lemma DarkensFirst(ops: seq<Op>, m: nat, t: Timer) returns (w: nat)
    requires Stops(ops, m, t)
    ensures w < m && Decides(ops, w, t) && After(ops[..w + 1]).screenOff && t in After(ops[..w + 1]).stopping
  {
    StoppingIff(ops, m, t);
    w :| 0 <= w < m && Decides(ops, w, t) && forall i :: w < i < m ==> ops[i] != StopMusic(t);
    AfterStep(ops, w);
  }

  /**
   ... and only after a decision at which nothing had superseded it. The comment on leaving
   says an armed timer must not fire afterwards; for the music that fails exactly when the
   superseding operation comes between the decision and the stop.
   */
  lemma LateStopIff(ops: seq<Op>, k: nat, l: nat, m: nat)
    requires k < l < m < |ops| && ops[k].Arm? && ops[k].d > 0 && Supersedes(After(ops[..l]), ops[l])
    requires ops[m] == StopMusic(Armed(ops, k))
    ensures var t := Armed(ops, k);
            Stops(ops, m, t) <==>
            exists w :: k < w < l && Decides(ops, w, t) && forall i :: w < i < m ==> ops[i] != StopMusic(t)
  {
    var t := Armed(ops, k);
    StoppingIff(ops, m, t);
    if Stops(ops, m, t) {
      var w :| 0 <= w < m && Decides(ops, w, t) && forall i :: w < i < m ==> ops[i] != StopMusic(t);
      DecidedInTime(ops, k, l, w);
      assert k < w < l;
    }
  }

  /** The goroutine that operation k starts. */
  function Armed(ops: seq<Op>, k: nat): Timer
    requires k < |ops| && ops[k].Arm?
  {
    Timer(After(ops[..k]).gen + 1, After(ops[..k]).now + ops[k].d)
  }

  /** A decision falls after the arm and before anything that supersedes it. */
  lemma DecidedInTime(ops: seq<Op>, k: nat, l: nat, w: nat)
    requires k < l < |ops| && ops[k].Arm? && ops[k].d > 0 && Supersedes(After(ops[..l]), ops[l])
    requires Decides(ops, w, Armed(ops, k))
    ensures k < w < l
  {
    if w <= k {
      EveryInterleaving(ops[..w]);
      GenerationCounts(ops, w, k);
    } else if w > l {
      AfterStep(ops, k);
      GenerationCounts(ops, k + 1, w);
      SupersededStays(ops, k + 1, l, w);
    }
  }

  lemma {:induction false} SupersededStays(ops: seq<Op>, first: nat, l: nat, last: nat)
    requires first <= l < last <= |ops| && Supersedes(After(ops[..l]), ops[l])
    ensures !Untouched(ops, first, last)
    decreases last
  {
    if l < last - 1 { SupersededStays(ops, first, l, last - 1); }
  }

  /** Leaving the dock screen in that gap: the screen stays on and the music stops all the same. */
  lemma LeftTooLate() returns (ops: seq<Op>)
    ensures |ops| == 6 && ops[4] == Leave && After(ops[..4]).active && !After(ops).active
    ensures ops[1] == Arm(60) && Stops(ops, 5, Armed(ops, 1))
  {
    var t := Timer(1, 60);
    ops := [Enter, Arm(60), Pass(60), Wake(t), Leave, StopMusic(t)];
    AfterStep(ops, 0);
    AfterStep(ops, 1);
    AfterStep(ops, 2);
    AfterStep(ops, 3);
    AfterStep(ops, 4);
    AfterStep(ops, 5);
    assert ops[..0] == [] && ops[..6] == ops;
  }

  // ----- the sleep chip -----

  const MINUTE := 60
  const OPTIONS: seq<int> := [0, 15 * MINUTE, 30 * MINUTE, 60 * MINUTE, 90 * MINUTE]

  /** step is the first preset (from 1 on) that covers the remaining time, or 0 when none does. */
  ghost predicate IsStep(remaining: int, options: seq<int>, step: nat) {
    && step < |options|
    && (step > 0 ==> 0 < remaining <= options[step])
    && (forall i :: 1 <= i < (if step == 0 then |options| else step) ==> !(0 < remaining <= options[i]))
  }

  /** ambientSleepCycle: the preset after the one the remaining time belongs to. */
  method SleepCycle(remaining: int, options: seq<int>) returns (next: int)
    ensures options == [] ==> next == 0
    ensures options != [] ==>
              exists step: nat :: IsStep(remaining, options, step) && next == options[(step + 1) % |options|]
  {
    if |options| == 0 { return 0; }
    var step := 0;
    var i := 1;
    while i < |options|
      invariant 1 <= i <= |options|
      invariant forall j :: 1 <= j < i ==> !(0 < remaining <= options[j])
    {
      if remaining > 0 && remaining <= options[i] {
        assert IsStep(remaining, options, i);
        return options[(i + 1) % |options|];
      }
      i := i + 1;
    }
    assert IsStep(remaining, options, step);
    return options[(step + 1) % |options|];
  }

  lemma ShippedSteps(remaining: int, step: nat)
    requires IsStep(remaining, OPTIONS, step)
    ensures var next := OPTIONS[(step + 1) % |OPTIONS|];
            && (remaining <= 0 || remaining > 90 * MINUTE ==> next == 15 * MINUTE)
            && (0 < remaining <= 60 * MINUTE ==> remaining < next <= 90 * MINUTE)
            && (60 * MINUTE < remaining <= 90 * MINUTE ==> next == 0)
  {
    assert |OPTIONS| == 5;
    assert OPTIONS[1] == 900 && OPTIONS[2] == 1800 && OPTIONS[3] == 3600 && OPTIONS[4] == 5400;
  }

  /** On the shipped presets the chip always lengthens a running timer, or switches it off past the hour. */
  method CycleShipped(remaining: int) returns (next: int)
    ensures remaining <= 0 || remaining > 90 * MINUTE ==> next == 15 * MINUTE
    ensures 0 < remaining <= 60 * MINUTE ==> remaining < next <= 90 * MINUTE
    ensures 60 * MINUTE < remaining <= 90 * MINUTE ==> next == 0
  {
    next := SleepCycle(remaining, OPTIONS);
    ghost var step: nat :| IsStep(remaining, OPTIONS, step) && next == OPTIONS[(step + 1) % |OPTIONS|];
    ShippedSteps(remaining, step);
  }

  // ----- the source's mutex-guarded struct -----

  class Ambient {
    var active: bool
    var screenOff: bool
    var blackFrame: bool
    var sleepUntil: Option<int>
    var sleepGen: nat
    ghost var clock: int
    ghost var sleeping: set<Timer>
    ghost var stopping: set<Timer>

    constructor ()
      ensures Now() == START
    {
      active, screenOff, blackFrame, sleepUntil, sleepGen := false, false, false, None, 0;
      clock, sleeping, stopping := 0, {}, {};
    }

    ghost function Now(): State reads this {
      State(active, screenOff, blackFrame, sleepUntil, sleepGen, clock, sleeping, stopping)
    }

    method EnterDock()
      modifies this
      ensures Now() == Apply(old(Now()), Enter)
    {
      if active { return; }
      active := true;
      screenOff := false;
      blackFrame := false;
    }

    method LeaveDock()
      modifies this
      ensures Now() == Apply(old(Now()), Leave)
    {
      if !active { return; }
      active := false;
      screenOff := false;
      blackFrame := false;
      sleepGen := sleepGen + 1;
      sleepUntil := None;
    }

    method ResetState()
      modifies this
      ensures Now() == Apply(old(Now()), Reset)
    {
      active := false;
      screenOff := false;
      blackFrame := false;
      sleepUntil := None;
      sleepGen := sleepGen + 1;
    }

    method NotifyInput()
      modifies this
      ensures Now() == Apply(old(Now()), Input)
    {
      var woke := active && screenOff;
      if woke {
        screenOff := false;
        blackFrame := false;
      }
    }

    method DarkenPanel()
      modifies this
      ensures Now() == Apply(old(Now()), Darken)
    {
      if !active { return; }
      screenOff := true;
      blackFrame := true;
    }

    method MarkBlackFrameDrawn()
      modifies this
      ensures Now() == Apply(old(Now()), BlackFrameDrawn)
    {
      blackFrame := false;
    }

    /** `now` is the reading of the clock; the new goroutine, if any, is returned. */
    method ArmSleep(d: int, now: int) returns (started: Option<Timer>)
      requires now == clock
      modifies this
      ensures Now() == Apply(old(Now()), Arm(d))
      ensures started == if d > 0 then Some(Timer(old(sleepGen) + 1, now + d)) else None
    {
      sleepGen := sleepGen + 1;
      var gen := sleepGen;
      if d <= 0 {
        sleepUntil := None;
        return None;
      }
      sleepUntil := Some(now + d);
      sleeping := sleeping + {Timer(gen, now + d)};
      return Some(Timer(gen, now + d));
    }

    /** What the goroutine does under the lock when its timer fired; it stops the music afterwards if it returns true. */
    method OnTimer(t: Timer) returns (valid: bool)
      requires CanWake(Now(), t)
      modifies this
      ensures Now() == Apply(old(Now()), Wake(t))
      ensures valid <==> TakesEffect(old(Now()), t)
    {
      sleeping := sleeping - {t};
      valid := t.gen == sleepGen && active;
      if valid {
        stopping := stopping + {t};
        sleepUntil := None;
        screenOff := true;
        blackFrame := true;
      }
    }
  }
}
