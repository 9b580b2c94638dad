/**
 The weighted semaphore of player/bounded.go: a buffered channel from which
 callers take permits one at a time.

 `Step` is one atomic channel operation of one goroutine, so a sequence of
 actions is an arbitrary interleaving of any number of callers. The class at the
 end is the source's loops as they run when no other goroutine moves.
 */
module Semaphore {
  import opened Prelude

  /** What a caller is doing. `taken`, `owed` and `weight` count channel tokens. */
  datatype Phase =
    | Idle
    | Acquiring(weight: nat, taken: nat)
    | Trying(weight: nat, taken: nat)
    | RollingBack(owed: nat)
    | Holding(weight: nat)
    | Releasing(owed: nat)

  /** `pixels` is the image a permit holder is expanding (0 when none). */
  datatype Caller = Caller(phase: Phase, ctxDone: bool, pixels: nat)

  datatype State = State(capacity: nat, pixelLimit: nat, tokens: nat, callers: seq<Caller>)

  datatype Action =
    | CtxEnds(c: nat)
    | BeginAcquire(c: nat, weight: int)
    | BeginTry(c: nat, weight: int)
    | Take(c: nat)               // push one token; blocks on a full channel
    | Cancel(c: nat)             // the ctx.Done() branch of the select
    | TryFails(c: nat)           // the default branch of TryAcquire's select
    | Drain(c: nat)              // receive one token; blocks on an empty channel
    | BeginRelease(c: nat)       // the Release matching the held Acquire
    | Expand(c: nat, width: int, height: int)

  /** newSemaphore's clamp of the channel size. */
  function Capacity(n: int): nat { if n < 1 then 1 else n }

  /** The weight clamp shared by Acquire, Release and TryAcquire. */
  function Clamp(weight: int, capacity: nat): nat
    requires capacity >= 1
  {
    if weight < 1 then 1 else if weight > capacity then capacity else weight
  }

  function Init(n: int, callers: nat, pixelLimit: nat): State {
    State(Capacity(n), pixelLimit, 0, seq(callers, _ => Caller(Idle, false, 0)))
  }

  /** The tokens a caller's phase accounts for, complete or partial. */
  function Held(p: Phase): nat {
    match p
    case Idle => 0
    case Acquiring(_, taken) => taken
    case Trying(_, taken) => taken
    case RollingBack(owed) => owed
    case Holding(weight) => weight
    case Releasing(owed) => owed
  }

  function AfterTake(p: Phase): Phase
    requires p.Acquiring? || p.Trying?
  {
    if p.taken + 1 >= p.weight then Holding(p.weight)
    else if p.Acquiring? then Acquiring(p.weight, p.taken + 1)
    else Trying(p.weight, p.taken + 1)
  }

  function Owing(owed: nat): Phase { if owed == 0 then Idle else RollingBack(owed) }

  function AfterDrain(p: Phase): Phase
    requires (p.RollingBack? || p.Releasing?) && p.owed > 0
  {
    if p.owed == 1 then Idle
    else if p.RollingBack? then RollingBack(p.owed - 1)
    else Releasing(p.owed - 1)
  }

  function With(s: State, c: nat, p: Phase): State
    requires c < |s.callers|
  {
    s.(callers := s.callers[c := s.callers[c].(phase := p)])
  }

  /** One channel operation; None means the caller is blocked or not there. */
  function Step(s: State, a: Action): Option<State> {
    if a.c >= |s.callers| || s.capacity == 0 then None
    else
      var caller := s.callers[a.c];
      var p := caller.phase;
      match a
      case CtxEnds(c) => Some(s.(callers := s.callers[c := caller.(ctxDone := true)]))
      case BeginAcquire(c, w) => if p.Idle? then Some(With(s, c, Acquiring(Clamp(w, s.capacity), 0))) else None
      case BeginTry(c, w) => if p.Idle? then Some(With(s, c, Trying(Clamp(w, s.capacity), 0))) else None
      case Take(c) =>
        if (p.Acquiring? || p.Trying?) && s.tokens < s.capacity
        then Some(With(s, c, AfterTake(p)).(tokens := s.tokens + 1)) else None
      case Cancel(c) => if p.Acquiring? && caller.ctxDone then Some(With(s, c, Owing(p.taken))) else None
      case TryFails(c) => if p.Trying? && s.tokens >= s.capacity then Some(With(s, c, Owing(p.taken))) else None
      case Drain(c) =>
        if (p.RollingBack? || p.Releasing?) && p.owed > 0 && s.tokens > 0
        then Some(With(s, c, AfterDrain(p)).(tokens := s.tokens - 1)) else None
      case BeginRelease(c) =>
        if p.Holding? && p.weight > 0
        then Some(s.(callers := s.callers[c := caller.(phase := Releasing(p.weight), pixels := 0)])) else None
      case Expand(c, w, h) =>
        if p.Holding? && 0 < w && 0 < h && w * h <= s.pixelLimit
        then Some(s.(callers := s.callers[c := caller.(pixels := w * h)])) else None
  }

  function Run(s: State, actions: seq<Action>): Option<State>
    decreases |actions|
  {
    if actions == [] then Some(s)
    else match Step(s, actions[0])
      case None => None
      case Some(t) => Run(t, actions[1..])
  }

  /** A capacity and a weight are at least 1, a weight at most the capacity, and otherwise as asked. */
  lemma ClampsAre(n: int, weight: int, capacity: nat)
    requires capacity >= 1
    ensures Capacity(n) >= 1 && (n >= 1 ==> Capacity(n) == n) && (n < 1 ==> Capacity(n) == 1)
    ensures 1 <= Clamp(weight, capacity) <= capacity
    ensures 1 <= weight <= capacity ==> Clamp(weight, capacity) == weight
    ensures weight < 1 ==> Clamp(weight, capacity) == 1
    ensures weight > capacity ==> Clamp(weight, capacity) == capacity
  {}

  /**
   A step moves its own caller alone: a send takes one free token for a caller still
   short of its weight, a receive gives one back, and no other step touches the channel.
   */
  lemma StepMovesOne(s: State, a: Action)
    requires Step(s, a).Some? && s.capacity >= 1
    ensures var t := Step(s, a).value;
            && t.capacity == s.capacity && t.pixelLimit == s.pixelLimit && |t.callers| == |s.callers| && a.c < |s.callers|
            && (forall i :: 0 <= i < |s.callers| && i != a.c ==> t.callers[i] == s.callers[i])
            && t.tokens == s.tokens + (if a.Take? then 1 else if a.Drain? then -1 else 0)
            && (a.Take? ==> s.tokens < s.capacity) && (a.Drain? ==> s.tokens > 0)
            && (t.callers[a.c].ctxDone <==> s.callers[a.c].ctxDone || a.CtxEnds?)
            && (t.callers[a.c].pixels != s.callers[a.c].pixels ==> a.Expand? || a.BeginRelease?)
  {}

  /** Giving up, by cancellation or for want of room, owes back exactly what was taken; a release, the whole weight. */
  lemma GivingUpOwes(s: State, a: Action)
    requires Step(s, a).Some? && s.capacity >= 1 && a.c < |s.callers|
    ensures var p, q := s.callers[a.c].phase, Step(s, a).value.callers[a.c].phase;
            && (a.Cancel? ==> p.Acquiring? && s.callers[a.c].ctxDone && q == Owing(p.taken))
            && (a.TryFails? ==> p.Trying? && s.tokens >= s.capacity && q == Owing(p.taken))
            && (a.BeginRelease? ==> p.Holding? && q == Releasing(p.weight) && Step(s, a).value.callers[a.c].pixels == 0)
            && (a.BeginAcquire? ==> p.Idle? && q == Acquiring(Clamp(a.weight, s.capacity), 0))
            && (a.BeginTry? ==> p.Idle? && q == Trying(Clamp(a.weight, s.capacity), 0))
            && (a.Expand? ==> p.Holding? && 0 < Step(s, a).value.callers[a.c].pixels == a.width * a.height <= s.pixelLimit)
  {}

  // ----- what every interleaving keeps -----

  function HeldSum(callers: seq<Caller>): nat {
    if callers == [] then 0 else HeldSum(callers[..|callers| - 1]) + Held(callers[|callers| - 1].phase)
  }

  function PixelSum(callers: seq<Caller>): nat {
    if callers == [] then 0 else PixelSum(callers[..|callers| - 1]) + callers[|callers| - 1].pixels
  }

  predicate PhaseOk(p: Phase, capacity: nat) {
    match p
    case Idle => true
    case Acquiring(w, t) => t < w <= capacity
    case Trying(w, t) => t < w <= capacity
    case RollingBack(o) => 0 < o
    case Holding(w) => 0 < w <= capacity
    case Releasing(o) => 0 < o
  }

  /** Callers only expand images while holding a permit, and never above the limit. */
  predicate CallerOk(c: Caller, s: State) {
    PhaseOk(c.phase, s.capacity) && c.pixels <= s.pixelLimit && (c.pixels > 0 ==> c.phase.Holding?)
  }

  ghost predicate Conserved(s: State) {
    && 1 <= s.capacity
    && s.tokens == HeldSum(s.callers)
    && s.tokens <= s.capacity
    && (forall i :: 0 <= i < |s.callers| ==> CallerOk(s.callers[i], s))
  }

  lemma {:induction false} HeldSumUpdate(cs: seq<Caller>, i: nat, c: Caller)
    requires i < |cs|
    ensures HeldSum(cs[i := c]) == HeldSum(cs) - Held(cs[i].phase) + Held(c.phase)
    ensures HeldSum(cs) >= Held(cs[i].phase)
  {
    var last := |cs| - 1;
    if i == last {
      assert cs[i := c][..last] == cs[..last];
    } else {
      assert cs[i := c][..last] == cs[..last][i := c];
      HeldSumUpdate(cs[..last], i, c);
    }
  }

  lemma {:induction false} IdleHoldsNothing(cs: seq<Caller>)
    requires forall i :: 0 <= i < |cs| ==> cs[i].phase.Idle?
    ensures HeldSum(cs) == 0
  {
    if cs != [] { IdleHoldsNothing(cs[..|cs| - 1]); }
  }

  lemma StepConserves(s: State, a: Action)
    requires Conserved(s) && Step(s, a).Some?
    ensures Conserved(Step(s, a).value)
    ensures Step(s, a).value.capacity == s.capacity && Step(s, a).value.pixelLimit == s.pixelLimit
    ensures |Step(s, a).value.callers| == |s.callers|
  {
    var t := Step(s, a).value;
    HeldSumUpdate(s.callers, a.c, t.callers[a.c]);
    assert t.callers == s.callers[a.c := t.callers[a.c]];
  }

  lemma {:induction false} RunConserves(s: State, actions: seq<Action>)
    requires Conserved(s) && Run(s, actions).Some?
    ensures Conserved(Run(s, actions).value)
    ensures Run(s, actions).value.capacity == s.capacity && Run(s, actions).value.pixelLimit == s.pixelLimit
    ensures |Run(s, actions).value.callers| == |s.callers|
    decreases |actions|
  {
    if actions != [] {
      StepConserves(s, actions[0]);
      RunConserves(Step(s, actions[0]).value, actions[1..]);
    }
  }

  /** s is the state after some interleaving of any number of callers. */
  ghost predicate Reachable(s: State) {
    exists n: int, k: nat, limit: nat, actions: seq<Action> :: Run(Init(n, k, limit), actions) == Some(s)
  }

  lemma PermitsConserved(s: State)
    requires Reachable(s)
    ensures Conserved(s)
  {
    var n: int, k: nat, limit: nat, actions: seq<Action> :| Run(Init(n, k, limit), actions) == Some(s);
    IdleHoldsNothing(Init(n, k, limit).callers);
    RunConserves(Init(n, k, limit), actions);
  }

  /** The receives of a Release or of a roll-back always find a token. */
  lemma OwedReceiveNeverBlocks(s: State, c: nat)
    requires Reachable(s) && c < |s.callers|
    requires s.callers[c].phase.RollingBack? || s.callers[c].phase.Releasing?
    ensures Step(s, Drain(c)).Some?
  {
    PermitsConserved(s);
    HeldSumUpdate(s.callers, c, s.callers[c]);
    assert CallerOk(s.callers[c], s);
  }

  /** At most `capacity` callers hold permits, and together expand at most capacity * limit pixels. */
  lemma DecodesAreBounded(s: State)
    requires Reachable(s)
    ensures HolderCount(s.callers) <= s.capacity
    ensures PixelSum(s.callers) <= s.capacity * s.pixelLimit
  {
    PermitsConserved(s);
    HoldersPay(s, s.callers);
    MulMono(HolderCount(s.callers), s.capacity, s.pixelLimit);
  }

  function HolderCount(cs: seq<Caller>): nat {
    if cs == [] then 0 else HolderCount(cs[..|cs| - 1]) + if cs[|cs| - 1].phase.Holding? then 1 else 0
  }

  lemma MulMono(a: nat, b: nat, k: nat)
    requires a <= b
    ensures a * k <= b * k
  {
    assert b * k - a * k == (b - a) * k;
  }

  lemma {:induction false} HoldersPay(s: State, cs: seq<Caller>)
    requires forall i :: 0 <= i < |cs| ==> CallerOk(cs[i], s)
    ensures HolderCount(cs) <= HeldSum(cs)
    ensures PixelSum(cs) <= HolderCount(cs) * s.pixelLimit
  {
    if cs != [] {
      HoldersPay(s, cs[..|cs| - 1]);
      assert CallerOk(cs[|cs| - 1], s);
      var before := HolderCount(cs[..|cs| - 1]);
      assert (before + 1) * s.pixelLimit == before * s.pixelLimit + s.pixelLimit;
    }
  }

  // ----- progress and its exact bound -----

  /** The permits short of complete that the acquiring callers can sit on. */
  function Excess(callers: seq<Caller>): nat {
    if callers == [] then 0
    else
      var p := callers[|callers| - 1].phase;
      Excess(callers[..|callers| - 1]) + if p.Acquiring? && p.weight > 0 then p.weight - 1 else 0
  }

  /** Nobody but blocked Acquire calls is inside the semaphore. */
  predicate OnlyAcquirers(s: State) {
    forall i :: 0 <= i < |s.callers| ==> s.callers[i].phase.Idle? || s.callers[i].phase.Acquiring?
  }

  lemma {:induction false} AcquirersHoldAtMostExcess(s: State, cs: seq<Caller>)
    requires forall i :: 0 <= i < |cs| ==> CallerOk(cs[i], s)
    requires forall i :: 0 <= i < |cs| ==> cs[i].phase.Idle? || cs[i].phase.Acquiring?
    ensures HeldSum(cs) <= Excess(cs)
  {
    if cs != [] {
      AcquirersHoldAtMostExcess(s, cs[..|cs| - 1]);
      assert CallerOk(cs[|cs| - 1], s);
    }
  }

  /** Below the bound every acquirer, not just one, can take its next permit. */
  lemma AcquirersProgress(s: State, c: nat)
    requires Reachable(s) && OnlyAcquirers(s)
    requires Excess(s.callers) < s.capacity
    requires c < |s.callers| && s.callers[c].phase.Acquiring?
    ensures Step(s, Take(c)).Some?
  {
    PermitsConserved(s);
    AcquirersHoldAtMostExcess(s, s.callers);
  }

  lemma {:induction false} UnitWeightsHaveNoExcess(cs: seq<Caller>)
    requires forall i :: 0 <= i < |cs| && cs[i].phase.Acquiring? ==> cs[i].phase.weight <= 1
    ensures Excess(cs) == 0
  {
    if cs != [] { UnitWeightsHaveNoExcess(cs[..|cs| - 1]); }
  }

  /** Below the bound the semaphore as a whole never jams: some caller that is inside it can move. */
  lemma SomebodyMoves(s: State)
    requires Reachable(s) && Excess(s.callers) < s.capacity
    requires exists i :: 0 <= i < |s.callers| && !s.callers[i].phase.Idle?
    ensures exists a: Action ::
              (a.Take? || a.TryFails? || a.Drain? || a.BeginRelease?) && Step(s, a).Some?
  {
    PermitsConserved(s);
    if i :| 0 <= i < |s.callers| && s.callers[i].phase.Trying? {
      assert Step(s, Take(i)).Some? || Step(s, TryFails(i)).Some?;
    } else if i :| 0 <= i < |s.callers| && s.callers[i].phase.Holding? {
      assert CallerOk(s.callers[i], s);
      assert Step(s, BeginRelease(i)).Some?;
    } else if i :| 0 <= i < |s.callers| && (s.callers[i].phase.RollingBack? || s.callers[i].phase.Releasing?) {
      OwedReceiveNeverBlocks(s, i);
    } else {
      var i :| 0 <= i < |s.callers| && s.callers[i].phase.Acquiring?;
      AcquirersProgress(s, i);
    }
  }

  /** Image decoding only takes single permits, so it cannot deadlock. */
  lemma UnitWeightsNeverDeadlock(s: State)
    requires Reachable(s)
    requires exists i :: 0 <= i < |s.callers| && !s.callers[i].phase.Idle?
    requires forall i :: 0 <= i < |s.callers| && s.callers[i].phase.Acquiring? ==> s.callers[i].phase.weight == 1
    ensures exists a: Action ::
              (a.Take? || a.TryFails? || a.Drain? || a.BeginRelease?) && Step(s, a).Some?
  {
    PermitsConserved(s);
    UnitWeightsHaveNoExcess(s.callers);
    SomebodyMoves(s);
  }

  /** Every caller sits in Acquire(ws[i]), its context is live, and it cannot take its next permit. */
  ghost predicate Deadlocked(s: State, ws: seq<int>) {
    && 1 <= s.capacity
    && |s.callers| == |ws|
    && (forall i :: 0 <= i < |ws| ==>
          s.callers[i].phase.Acquiring? && s.callers[i].phase.weight == Clamp(ws[i], s.capacity))
    && (forall i :: 0 <= i < |ws| ==> !s.callers[i].ctxDone && Step(s, Take(i)).None?)
  }

  lemma NobodyMoves(s: State, ws: seq<int>, a: Action)
    requires Deadlocked(s, ws) && !a.CtxEnds?
    ensures Step(s, a).None?
  {
    if a.c < |ws| { assert Step(s, Take(a.c)).None?; }
  }

  /** It lasts: as long as no context ends, there is no way on. */
  lemma DeadlockLasts(s: State, ws: seq<int>, actions: seq<Action>)
    requires Deadlocked(s, ws) && actions != [] && forall a :: a in actions ==> !a.CtxEnds?
    ensures Run(s, actions).None?
  {
    assert actions[0] in actions;
    NobodyMoves(s, ws, actions[0]);
  }

  function WeightExcess(ws: seq<int>, capacity: nat): nat
    requires capacity >= 1
  {
    if ws == [] then 0 else WeightExcess(ws[..|ws| - 1], capacity) + Clamp(ws[|ws| - 1], capacity) - 1
  }

  lemma {:induction false} ExcessOfWeights(cs: seq<Caller>, ws: seq<int>, capacity: nat)
    requires capacity >= 1 && |cs| == |ws|
    requires forall i :: 0 <= i < |ws| ==> cs[i].phase.Acquiring? && cs[i].phase.weight == Clamp(ws[i], capacity)
    ensures Excess(cs) == WeightExcess(ws, capacity)
  {
    if ws != [] { ExcessOfWeights(cs[..|cs| - 1], ws[..|ws| - 1], capacity); }
  }

  lemma {:induction false} RunAppend(s: State, a: seq<Action>, b: seq<Action>)
    ensures Run(s, a + b) == (match Run(s, a) case None => None case Some(t) => Run(t, b))
    decreases |a|
  {
    if a == [] {
      assert a + b == b;
    } else {
      assert (a + b)[0] == a[0] && (a + b)[1..] == a[1..] + b;
      match Step(s, a[0]) {
        case None =>
        case Some(t) => RunAppend(t, a[1..], b);
      }
    }
  }

  lemma RunSnoc(s: State, actions: seq<Action>, a: Action)
    requires Run(s, actions).Some?
    ensures Run(s, actions + [a]) == Step(Run(s, actions).value, a)
  {
    RunAppend(s, actions, [a]);
    var t := Run(s, actions).value;
    assert [a][1..] == [];
    assert Run(t, [a]) == (match Step(t, [a][0]) case None => None case Some(u) => Run(u, [a][1..]));
  }

  function Partway(p: Phase, taken: nat): Phase
    requires p.Acquiring? || p.Trying?
  {
    if p.Acquiring? then Acquiring(p.weight, taken) else Trying(p.weight, taken)
  }

  /** Caller c, alone, pushes m tokens of its unfinished attempt. */
  lemma {:induction false} TakeSome(s: State, c: nat, m: nat) returns (actions: seq<Action>)
    requires 1 <= s.capacity && c < |s.callers|
    requires s.callers[c].phase.Acquiring? || s.callers[c].phase.Trying?
    requires s.callers[c].phase.taken + m < s.callers[c].phase.weight
    requires s.tokens + m <= s.capacity
    ensures var p := s.callers[c].phase;
            Run(s, actions) == Some(With(s, c, Partway(p, p.taken + m)).(tokens := s.tokens + m))
  {
    var p := s.callers[c].phase;
    if m == 0 {
      actions := [];
      assert s.callers[c := s.callers[c]] == s.callers;
    } else {
      var front := TakeSome(s, c, m - 1);
      RunSnoc(s, front, Take(c));
      actions := front + [Take(c)];
      var t := Run(s, front).value;
      assert Step(t, Take(c)).value.callers == With(s, c, Partway(p, p.taken + m)).callers;
    }
  }

  function Min(a: nat, b: nat): nat { if a < b then a else b }

  /** The first k callers have each taken all but one of their permits, as far as the channel had room. */
  ghost predicate Greedy(s: State, n: int, ws: seq<int>, k: nat, limit: nat) {
    && k <= |ws| == |s.callers| && s.capacity == Capacity(n) && s.pixelLimit == limit
    && s.tokens == Min(s.capacity, WeightExcess(ws[..k], s.capacity))
    && (forall i :: 0 <= i < k ==>
          && s.callers[i].phase.Acquiring? && !s.callers[i].ctxDone
          && s.callers[i].phase.weight == Clamp(ws[i], s.capacity)
          && s.callers[i].phase.taken < s.callers[i].phase.weight)
    && (forall i :: k <= i < |ws| ==> s.callers[i] == Caller(Idle, false, 0))
  }

  lemma {:induction false} GreedyRun(n: int, ws: seq<int>, k: nat, limit: nat) returns (actions: seq<Action>)
    requires k <= |ws|
    ensures Run(Init(n, |ws|, limit), actions).Some?
    ensures Greedy(Run(Init(n, |ws|, limit), actions).value, n, ws, k, limit)
  {
    var start := Init(n, |ws|, limit);
    if k == 0 {
      actions := [];
    } else {
      var front := GreedyRun(n, ws, k - 1, limit);
      var s := Run(start, front).value;
      var c := k - 1;
      RunSnoc(start, front, BeginAcquire(c, ws[c]));
      var begun := front + [BeginAcquire(c, ws[c])];
      var t := Run(start, begun).value;
      assert ws[..k][..|ws[..k]| - 1] == ws[..c];
      var m := Min(Clamp(ws[c], s.capacity) - 1, s.capacity - s.tokens);
      var more := TakeSome(t, c, m);
      RunAppend(start, begun, more);
      actions := begun + more;
    }
  }

  /**
   Deadlock is reachable exactly when the callers' weights can fill the channel
   with incomplete acquires: the sum of (weight - 1) reaches the capacity.
   */
  lemma DeadlockIff(n: int, ws: seq<int>, limit: nat)
    requires |ws| > 0
    ensures (exists actions: seq<Action> ::
               Run(Init(n, |ws|, limit), actions).Some? && Deadlocked(Run(Init(n, |ws|, limit), actions).value, ws))
            <==> WeightExcess(ws, Capacity(n)) >= Capacity(n)
  {
    var start := Init(n, |ws|, limit);
    if WeightExcess(ws, Capacity(n)) >= Capacity(n) {
      var actions := GreedyRun(n, ws, |ws|, limit);
      GreedyIsStuck(Run(start, actions).value, n, ws, limit);
    }
    if actions: seq<Action> :| Run(start, actions).Some? && Deadlocked(Run(start, actions).value, ws) {
      StuckMeansExcess(n, ws, limit, actions);
    }
  }

  lemma GreedyIsStuck(s: State, n: int, ws: seq<int>, limit: nat)
    requires Greedy(s, n, ws, |ws|, limit) && WeightExcess(ws, s.capacity) >= s.capacity
    ensures Deadlocked(s, ws)
  {
    assert ws[..|ws|] == ws;
    FullIsStuck(s, ws);
  }

  lemma FullIsStuck(s: State, ws: seq<int>)
    requires 1 <= s.capacity == s.tokens && |s.callers| == |ws|
    requires forall i :: 0 <= i < |ws| ==>
               && s.callers[i].phase.Acquiring? && !s.callers[i].ctxDone
               && s.callers[i].phase.weight == Clamp(ws[i], s.capacity)
    ensures Deadlocked(s, ws)
  {
    forall i | 0 <= i < |ws| ensures Step(s, Take(i)).None? {}
  }

  lemma StuckMeansExcess(n: int, ws: seq<int>, limit: nat, actions: seq<Action>)
    requires |ws| > 0 && Run(Init(n, |ws|, limit), actions).Some?
    requires Deadlocked(Run(Init(n, |ws|, limit), actions).value, ws)
    ensures WeightExcess(ws, Capacity(n)) >= Capacity(n)
  {
    var start := Init(n, |ws|, limit);
    var s := Run(start, actions).value;
    IdleHoldsNothing(start.callers);
    RunConserves(start, actions);
    ExcessOfWeights(s.callers, ws, s.capacity);
    AcquirersHoldAtMostExcess(s, s.callers);
    assert Step(s, Take(0)).None?;
  }

  /** Two callers of weight 2 at capacity 2 can each end up with one token for ever. */
  lemma TwoHeavyCallersDeadlock(limit: nat)
    ensures exists actions: seq<Action> ::
              Run(Init(2, 2, limit), actions).Some? && Deadlocked(Run(Init(2, 2, limit), actions).value, [2, 2])
  {
    var ws := [2, 2];
    assert ws[..1] == [2] && [2][..0] == [];
    assert WeightExcess([2], 2) == WeightExcess([2][..0], 2) + 1;
    DeadlockIff(2, ws, limit);
  }

  // ----- what one call leaves behind -----

  function Repeat(a: Action, k: nat): seq<Action> { seq(k, _ => a) }

  lemma DrainOne(s: State, c: nat) returns (t: State)
    requires Conserved(s) && c < |s.callers|
    requires s.callers[c].phase.RollingBack? || s.callers[c].phase.Releasing?
    ensures s.tokens >= s.callers[c].phase.owed > 0 && Step(s, Drain(c)) == Some(t) && Conserved(t)
    ensures c < |t.callers| && t.callers[c].phase == AfterDrain(s.callers[c].phase) && t.tokens == s.tokens - 1
    ensures With(t, c, Idle) == With(s, c, Idle).(tokens := t.tokens)
  {
    HeldSumUpdate(s.callers, c, s.callers[c]);
    assert CallerOk(s.callers[c], s);
    t := Step(s, Drain(c)).value;
    StepConserves(s, Drain(c));
    assert With(t, c, Idle).callers == With(s, c, Idle).callers;
  }

  /** A rolling-back or releasing caller gives back exactly what it owes and changes nothing else. */
  lemma {:induction false} DrainsToIdle(s: State, c: nat)
    requires Conserved(s) && c < |s.callers|
    requires s.callers[c].phase.RollingBack? || s.callers[c].phase.Releasing?
    ensures s.tokens >= Held(s.callers[c].phase)
    ensures Run(s, Repeat(Drain(c), s.callers[c].phase.owed)) ==
            Some(With(s, c, Idle).(tokens := s.tokens - Held(s.callers[c].phase)))
    decreases s.callers[c].phase.owed
  {
    var t := DrainOne(s, c);
    var owed := s.callers[c].phase.owed;
    RunOne(s, Drain(c));
    RepeatMore(Drain(c), owed - 1);
    RunTwo(s, t, [Drain(c)], Repeat(Drain(c), owed - 1));
    if owed > 1 { DrainsToIdle(t, c); }
  }

  /** A caller running alone completes an attempt with k more takes if the channel has room for them. */
  lemma {:induction false} TakesComplete(s: State, c: nat)
    requires Conserved(s) && c < |s.callers|
    requires s.callers[c].phase.Acquiring? || s.callers[c].phase.Trying?
    ensures var p := s.callers[c].phase;
            var k := p.weight - p.taken;
            Run(s, Repeat(Take(c), k)) ==
              if s.tokens + k <= s.capacity then Some(With(s, c, Holding(p.weight)).(tokens := s.tokens + k)) else None
    decreases s.capacity - s.tokens
  {
    var p := s.callers[c].phase;
    assert CallerOk(s.callers[c], s);
    var k := p.weight - p.taken;
    var takes := Repeat(Take(c), k);
    assert takes[0] == Take(c);
    assert takes[1..] == Repeat(Take(c), k - 1);
    if s.tokens < s.capacity {
      var t := Step(s, Take(c)).value;
      StepConserves(s, Take(c));
      if k > 1 {
        TakesComplete(t, c);
        assert With(t, c, Holding(p.weight)).callers == With(s, c, Holding(p.weight)).callers;
      }
    }
  }

  /** What caller i's work comes to when the others let it finish: it is out, and its tokens are back. */
  function Without(s: State, i: nat): State
    requires i < |s.callers| && s.tokens >= Held(s.callers[i].phase)
  {
    s.(callers := s.callers[i := Caller(Idle, s.callers[i].ctxDone || s.callers[i].phase.Acquiring?, 0)],
       tokens := s.tokens - Held(s.callers[i].phase))
  }

  lemma RunOne(s: State, a: Action)
    ensures Run(s, [a]) == Step(s, a)
  {
    assert [a][1..] == [];
    if Step(s, a).Some? { assert Run(Step(s, a).value, []) == Step(s, a); }
  }

  lemma RunTwo(s: State, t: State, a: seq<Action>, b: seq<Action>)
    requires Run(s, a) == Some(t)
    ensures Run(s, a + b) == Run(t, b)
  {
    RunAppend(s, a, b);
  }

  lemma ReleaseOut(s: State, i: nat) returns (actions: seq<Action>)
    requires Conserved(s) && i < |s.callers| && s.callers[i].phase.Holding?
    ensures s.tokens >= Held(s.callers[i].phase) && Run(s, actions) == Some(Without(s, i))
  {
    assert CallerOk(s.callers[i], s);
    HeldSumUpdate(s.callers, i, s.callers[i]);
    var t := Step(s, BeginRelease(i)).value;
    StepConserves(s, BeginRelease(i));
    RunOne(s, BeginRelease(i));
    DrainsToIdle(t, i);
    var drains := Repeat(Drain(i), t.callers[i].phase.owed);
    RunTwo(s, t, [BeginRelease(i)], drains);
    actions := [BeginRelease(i)] + drains;
    assert With(t, i, Idle).callers == Without(s, i).callers;
  }

  lemma DrainOut(s: State, i: nat) returns (actions: seq<Action>)
    requires Conserved(s) && i < |s.callers|
    requires s.callers[i].phase.Idle? || s.callers[i].phase.RollingBack? || s.callers[i].phase.Releasing?
    ensures s.tokens >= Held(s.callers[i].phase) && Run(s, actions) == Some(Without(s, i))
  {
    assert CallerOk(s.callers[i], s);
    if s.callers[i].phase.Idle? {
      actions := [];
      assert Without(s, i).callers == s.callers;
    } else {
      DrainsToIdle(s, i);
      actions := Repeat(Drain(i), s.callers[i].phase.owed);
      assert With(s, i, Idle).callers == Without(s, i).callers;
    }
  }

  lemma CancelStarts(s: State, i: nat) returns (u: State)
    requires Conserved(s) && i < |s.callers| && s.callers[i].phase.Acquiring?
    ensures Conserved(u) && |u.callers| == |s.callers| && u.callers == s.callers[i := u.callers[i]] && u.capacity == s.capacity
    ensures Run(s, [CtxEnds(i)] + [Cancel(i)]) == Some(u) && Step(Step(s, CtxEnds(i)).value, Cancel(i)) == Some(u)
  {
    var t := Step(s, CtxEnds(i)).value;
    StepConserves(s, CtxEnds(i));
    RunOne(s, CtxEnds(i));
    u := Step(t, Cancel(i)).value;
    StepConserves(t, Cancel(i));
    RunOne(t, Cancel(i));
    RunTwo(s, t, [CtxEnds(i)], [Cancel(i)]);
  }

  lemma CancelOut(s: State, i: nat) returns (actions: seq<Action>)
    requires Conserved(s) && i < |s.callers| && s.callers[i].phase.Acquiring?
    ensures s.tokens >= Held(s.callers[i].phase) && Run(s, actions) == Some(Without(s, i))
  {
    assert CallerOk(s.callers[i], s);
    var u := CancelStarts(s, i);
    var drains := DrainOut(u, i);
    RunTwo(s, u, [CtxEnds(i)] + [Cancel(i)], drains);
    actions := [CtxEnds(i)] + [Cancel(i)] + drains;
    assert Without(u, i).callers == Without(s, i).callers;
  }

  lemma FullTryOut(s: State, i: nat) returns (actions: seq<Action>)
    requires Conserved(s) && i < |s.callers| && s.callers[i].phase.Trying? && s.tokens == s.capacity
    ensures s.tokens >= Held(s.callers[i].phase) && Run(s, actions) == Some(Without(s, i))
  {
    HeldSumUpdate(s.callers, i, s.callers[i]);
    assert CallerOk(s.callers[i], s);
    var t := Step(s, TryFails(i)).value;
    StepConserves(s, TryFails(i));
    RunOne(s, TryFails(i));
    var drains := DrainOut(t, i);
    RunTwo(s, t, [TryFails(i)], drains);
    actions := [TryFails(i)] + drains;
    assert Without(t, i).callers == Without(s, i).callers;
  }

  /** Going on trying first, up to success or a full channel, changes nothing about the way out. */
  lemma TryOutAfter(s: State, i: nat, takes: seq<Action>, t: State) returns (actions: seq<Action>)
    requires Conserved(s) && i < |s.callers| && s.callers[i].phase.Trying?
    requires Run(s, takes) == Some(t) && t == s.(callers := t.callers, tokens := t.tokens)
    requires i < |t.callers| && t.callers == s.callers[i := s.callers[i].(phase := t.callers[i].phase)]
    requires t.callers[i].phase.Holding? || (t.callers[i].phase.Trying? && t.tokens == t.capacity)
    ensures s.tokens >= Held(s.callers[i].phase) && Run(s, actions) == Some(Without(s, i))
  {
    RunConserves(s, takes);
    SameWayOut(s, t, i);
    var rest: seq<Action>;
    if t.callers[i].phase.Holding? { rest := ReleaseOut(t, i); } else { rest := FullTryOut(t, i); }
    RunTwo(s, t, takes, rest);
    actions := takes + rest;
  }

  lemma SameWayOut(s: State, t: State, i: nat)
    requires Conserved(s) && Conserved(t) && i < |s.callers| == |t.callers|
    requires t == s.(callers := t.callers, tokens := t.tokens)
    requires t.callers == s.callers[i := s.callers[i].(phase := t.callers[i].phase)]
    requires s.callers[i].phase.Trying? && !t.callers[i].phase.Acquiring?
    ensures s.tokens >= Held(s.callers[i].phase) && t.tokens >= Held(t.callers[i].phase) && Without(t, i) == Without(s, i)
  {
    HeldSumUpdate(s.callers, i, s.callers[i]);
    HeldSumUpdate(s.callers, i, t.callers[i]);
    assert Without(t, i).callers == Without(s, i).callers;
  }

  lemma TryOut(s: State, i: nat) returns (actions: seq<Action>)
    requires Conserved(s) && i < |s.callers| && s.callers[i].phase.Trying?
    ensures s.tokens >= Held(s.callers[i].phase) && Run(s, actions) == Some(Without(s, i))
  {
    assert CallerOk(s.callers[i], s);
    var p := s.callers[i].phase;
    if s.tokens + (p.weight - p.taken) <= s.capacity {
      var takes := Repeat(Take(i), p.weight - p.taken);
      TakesComplete(s, i);
      actions := TryOutAfter(s, i, takes, Run(s, takes).value);
    } else {
      var takes := TakeSome(s, i, s.capacity - s.tokens);
      actions := TryOutAfter(s, i, takes, Run(s, takes).value);
    }
  }

  /** Any caller can be brought out of the semaphore while the others stand still. */
  lemma CallerOut(s: State, i: nat) returns (actions: seq<Action>)
    requires Conserved(s) && i < |s.callers|
    ensures s.tokens >= Held(s.callers[i].phase) && Run(s, actions) == Some(Without(s, i))
  {
    match s.callers[i].phase
    case Holding(_) => actions := ReleaseOut(s, i);
    case Acquiring(_, _) => actions := CancelOut(s, i);
    case Trying(_, _) => actions := TryOut(s, i);
    case _ => actions := DrainOut(s, i);
  }

  /** The first k callers other than c are out of the semaphore and c is where it was. */
  ghost predicate OthersOut(s: State, t: State, c: nat, k: nat) {
    && Conserved(t) && t.capacity == s.capacity && |t.callers| == |s.callers| && c < |s.callers|
    && t.callers[c] == s.callers[c]
    && forall i :: 0 <= i < k && i < |t.callers| && i != c ==> t.callers[i].phase.Idle?
  }

  lemma {:induction false} AllOthersOut(s: State, c: nat, k: nat) returns (actions: seq<Action>)
    requires Conserved(s) && c < |s.callers| && k <= |s.callers|
    ensures Run(s, actions).Some? && OthersOut(s, Run(s, actions).value, c, k)
  {
    if k == 0 {
      actions := [];
    } else {
      var front := AllOthersOut(s, c, k - 1);
      if k - 1 == c { return front; }
      var t := Run(s, front).value;
      var more := CallerOut(t, k - 1);
      RunConserves(t, more);
      RunTwo(s, t, front, more);
      actions := front + more;
    }
  }

  lemma {:induction false} OnlyOneHolds(cs: seq<Caller>, c: nat)
    requires c < |cs| && forall i :: 0 <= i < |cs| && i != c ==> cs[i].phase.Idle?
    ensures HeldSum(cs) == Held(cs[c].phase)
  {
    var last := |cs| - 1;
    if c == last { IdleHoldsNothing(cs[..last]); } else { OnlyOneHolds(cs[..last], c); }
  }

  /**
   The comment on Acquire promises false, and nothing taken, when ctx was already done.
   The select picks freely between two ready branches, so the promise is kept in no state:
   from every one of them the call can still end up holding its permits, and it can also
   give up and leave everything as it was.
   */
  lemma CancelledAcquireMaySucceed(s: State, c: nat, weight: int) returns (actions: seq<Action>)
    requires Conserved(s) && c < |s.callers| && s.callers[c] == Caller(Idle, true, 0)
    ensures var end := Run(s, [BeginAcquire(c, weight)] + actions);
            && end.Some? && c < |end.value.callers|
            && end.value.callers[c] == Caller(Holding(Clamp(weight, s.capacity)), true, 0)
    ensures Run(s, [BeginAcquire(c, weight), Cancel(c)]) == Some(s)
  {
    var w, begin := Clamp(weight, s.capacity), BeginAcquire(c, weight);
    var t := Step(s, begin).value;
    StepConserves(s, begin);
    RunOne(s, begin);
    var out := AllOthersOut(t, c, |t.callers|);
    var u := Run(t, out).value;
    OnlyOneHolds(u.callers, c);
    TakesComplete(u, c);
    RunTwo(t, u, out, Repeat(Take(c), w));
    actions := out + Repeat(Take(c), w);
    RunTwo(s, t, [begin], actions);
    GivesUpAtOnce(s, c, weight);
  }

  lemma GivesUpAtOnce(s: State, c: nat, weight: int)
    requires Conserved(s) && c < |s.callers| && s.callers[c] == Caller(Idle, true, 0)
    ensures Run(s, [BeginAcquire(c, weight), Cancel(c)]) == Some(s)
  {
    var begin := BeginAcquire(c, weight);
    var t := Step(s, begin).value;
    RunOne(s, begin);
    RunOne(t, Cancel(c));
    RunTwo(s, t, [begin], [Cancel(c)]);
    assert [begin] + [Cancel(c)] == [begin, Cancel(c)];
    assert Step(t, Cancel(c)).value.callers == s.callers;
  }

  /** While nobody else moves, such a call can succeed exactly when its permits are free at the start. */
  lemma CancelledAcquireAlone(s: State, c: nat, weight: int)
    requires Conserved(s) && c < |s.callers| && s.callers[c] == Caller(Idle, true, 0)
    ensures var w := Clamp(weight, s.capacity);
            Run(s, [BeginAcquire(c, weight)] + Repeat(Take(c), w)).Some? <==> s.tokens + w <= s.capacity
  {
    var w, begin := Clamp(weight, s.capacity), BeginAcquire(c, weight);
    var t := Step(s, begin).value;
    StepConserves(s, begin);
    RunOne(s, begin);
    RunTwo(s, t, [begin], Repeat(Take(c), w));
    TakesComplete(t, c);
  }

  /** The moves caller c itself makes in a run; the end of its context is not its own doing. */
  function OwnMoves(actions: seq<Action>, c: nat): seq<Action> {
    if actions == [] then []
    else (if actions[0].c == c && !actions[0].CtxEnds? then [actions[0]] else []) + OwnMoves(actions[1..], c)
  }

  lemma StepOfOthers(s: State, c: nat, a: Action)
    requires c < |s.callers| && Step(s, a).Some? && (a.c != c || a.CtxEnds?)
    ensures Step(s, a).value.callers[c].phase == s.callers[c].phase && |Step(s, a).value.callers| == |s.callers|
  {}

  /**
   A roll-back, under every schedule: while it owes permits a caller does nothing but give
   them back, one a move, no move of it ever blocks, and after the last it is out.
   */
  lemma {:induction false} RollBackRuns(s: State, c: nat, actions: seq<Action>)
    requires Conserved(s) && c < |s.callers| && Run(s, actions).Some?
    requires s.callers[c].phase.RollingBack? && |OwnMoves(actions, c)| <= s.callers[c].phase.owed
    ensures var own, owed, t := OwnMoves(actions, c), s.callers[c].phase.owed, Run(s, actions).value;
            && own == Repeat(Drain(c), |own|) && c < |t.callers|
            && t.callers[c].phase == Owing(owed - |own|)
            && (|own| < owed ==> Step(t, Drain(c)).Some?)
    decreases |actions|
  {
    if actions == [] {
      HeldSumUpdate(s.callers, c, s.callers[c]);
      assert CallerOk(s.callers[c], s);
    } else {
      var a, rest := actions[0], actions[1..];
      var t := Step(s, a).value;
      StepConserves(s, a);
      if a.c != c || a.CtxEnds? {
        StepOfOthers(s, c, a);
        RollBackRuns(t, c, rest);
      } else {
        OwedMove(s, c, a);
        var own := OwnMoves(rest, c);
        RepeatMore(Drain(c), |own|);
        assert OwnMoves(actions, c) == [a] + own;
        if t.callers[c].phase.RollingBack? { RollBackRuns(t, c, rest); } else { OutStaysOut(t, c, rest); }
      }
    }
  }

  /** The only thing such a caller can do is to give one permit back. */
  lemma OwedMove(s: State, c: nat, a: Action)
    requires c < |s.callers| && s.callers[c].phase.RollingBack? && Step(s, a).Some? && a.c == c && !a.CtxEnds?
    ensures a == Drain(c) && s.callers[c].phase.owed > 0 && |Step(s, a).value.callers| == |s.callers|
    ensures Step(s, a).value.callers[c].phase == Owing(s.callers[c].phase.owed - 1)
  {}

  lemma RepeatMore(a: Action, k: nat)
    ensures [a] + Repeat(a, k) == Repeat(a, k + 1)
  {}

  lemma {:induction false} OutStaysOut(s: State, c: nat, actions: seq<Action>)
    requires c < |s.callers| && Run(s, actions).Some? && OwnMoves(actions, c) == []
    ensures var t := Run(s, actions).value; c < |t.callers| && t.callers[c].phase == s.callers[c].phase
    decreases |actions|
  {
    if actions != [] {
      StepOfOthers(s, c, actions[0]);
      OutStaysOut(Step(s, actions[0]).value, c, actions[1..]);
    }
  }

  /**
   A TryAcquire that finds the channel full gives back all it took, under every schedule:
   its own moves are receives that never block, and after as many as it had taken it holds nothing.
   */
  lemma FailedTryLeavesNothing(s: State, c: nat, actions: seq<Action>)
    requires Conserved(s) && c < |s.callers| && s.callers[c].phase.Trying?
    requires Run(s, [TryFails(c)] + actions).Some?
    requires |OwnMoves(actions, c)| <= s.callers[c].phase.taken
    ensures var own, taken, t := OwnMoves(actions, c), s.callers[c].phase.taken, Run(s, [TryFails(c)] + actions).value;
            && own == Repeat(Drain(c), |own|) && c < |t.callers|
            && t.callers[c].phase == Owing(taken - |own|)
            && (|own| < taken ==> Step(t, Drain(c)).Some?)
  {
    RunAppend(s, [TryFails(c)], actions);
    RunOne(s, TryFails(c));
    var t := Step(s, TryFails(c)).value;
    StepConserves(s, TryFails(c));
    if t.callers[c].phase.RollingBack? { RollBackRuns(t, c, actions); } else { OutStaysOut(t, c, actions); }
  }

  /** Release's own comment promises a panic without a matching Acquire; the receive it performs instead. */
  function StrayReceive(s: State): Option<State> {
    if s.tokens == 0 then None else Some(s.(tokens := s.tokens - 1))
  }

  /** It blocks exactly when nobody holds a permit, and otherwise takes one away from somebody. */
  lemma UnmatchedReleaseBlocksOrSteals(s: State)
    requires Reachable(s)
    ensures StrayReceive(s).None? <==> forall i :: 0 <= i < |s.callers| ==> Held(s.callers[i].phase) == 0
    ensures StrayReceive(s).Some? ==> StrayReceive(s).value.tokens + 1 == HeldSum(s.callers)
    ensures StrayReceive(s).Some? ==> !Conserved(StrayReceive(s).value)
  {
    PermitsConserved(s);
    if s.tokens == 0 {
      forall i | 0 <= i < |s.callers| ensures Held(s.callers[i].phase) == 0 {
        HeldSumUpdate(s.callers, i, s.callers[i]);
      }
    } else {
      SomebodyHolds(s.callers);
    }
  }

  lemma {:induction false} SomebodyHolds(cs: seq<Caller>)
    requires HeldSum(cs) > 0
    ensures exists i :: 0 <= i < |cs| && Held(cs[i].phase) > 0
  {
    var last := |cs| - 1;
    if Held(cs[last].phase) == 0 {
      SomebodyHolds(cs[..last]);
      var i :| 0 <= i < |cs[..last]| && Held(cs[..last][i].phase) > 0;
      assert Held(cs[i].phase) > 0;
    }
  }

  // ----- the source's loops, run undisturbed -----

  /** The channel with the loops of bounded.go; `doneAt` is the iteration at which ctx.Done() is picked. */
  class Weighted {
    const capacity: nat
    var tokens: nat

    ghost predicate Valid() reads this { 1 <= capacity && tokens <= capacity }

    constructor (n: int)
      ensures Valid() && tokens == 0 && capacity == Capacity(n)
    {
      capacity := if n < 1 then 1 else n;
      tokens := 0;
    }

    /** Takes all of its clamped weight or nothing, and fails exactly when they are not all free. */
    method TryAcquire(weight: int) returns (ok: bool)
      requires Valid()
      modifies this
      ensures Valid()
      ensures ok <==> old(tokens) + Clamp(weight, capacity) <= capacity
      ensures tokens == if ok then old(tokens) + Clamp(weight, capacity) else old(tokens)
    {
      var w := Clamp(weight, capacity);
      var i := 0;
      while i < w
        invariant 0 <= i <= w
        invariant Valid() && tokens == old(tokens) + i
      {
        if tokens < capacity {
          tokens := tokens + 1;
        } else {
          var j := 0;
          while j < i
            invariant 0 <= j <= i
            invariant tokens == old(tokens) + i - j <= capacity
          {
            tokens := tokens - 1;
            j := j + 1;
          }
          return false;
        }
        i := i + 1;
      }
      return true;
    }

    /** A cancelled Acquire leaks nothing; an uncancelled one holds its clamped weight. */
    method Acquire(weight: int, doneAt: Option<nat>) returns (ok: bool)
      requires Valid()
      requires doneAt.None? ==> tokens + Clamp(weight, capacity) <= capacity   // otherwise it blocks
      requires doneAt.Some? ==> tokens + Min(doneAt.value, Clamp(weight, capacity)) <= capacity
      modifies this
      ensures Valid()
      ensures ok <==> doneAt.None? || doneAt.value >= Clamp(weight, capacity)
      ensures tokens == if ok then old(tokens) + Clamp(weight, capacity) else old(tokens)
    {
      var w := Clamp(weight, capacity);
      var i := 0;
      while i < w
        invariant 0 <= i <= w
        invariant Valid() && tokens == old(tokens) + i
        invariant doneAt.Some? ==> i <= doneAt.value
      {
        if doneAt == Some(i) {
          var j := 0;
          while j < i
            invariant 0 <= j <= i
            invariant tokens == old(tokens) + i - j <= capacity
          {
            tokens := tokens - 1;
            j := j + 1;
          }
          return false;
        }
        tokens := tokens + 1;
        i := i + 1;
      }
      return true;
    }

    /** Release(weight) undoes a completed Acquire(weight) of the same raw weight. */
    method Release(weight: int)
      requires Valid() && tokens >= Clamp(weight, capacity)   // otherwise the receive blocks
      modifies this
      ensures Valid() && tokens == old(tokens) - Clamp(weight, capacity)
    {
      var w := Clamp(weight, capacity);
      var i := 0;
      while i < w
        invariant 0 <= i <= w
        invariant tokens == old(tokens) - i
      {
        tokens := tokens - 1;
        i := i + 1;
      }
    }
  }
}
