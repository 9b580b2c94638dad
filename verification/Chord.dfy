/**
 One-handed mode (player/a11y.go): tapping the chord button turns the next D-pad
 press into a face button, its release is rewritten to match, and hold-to-repeat
 must not see the rewritten press as a direction.
 */
module Chord {
  import opened Prelude
  import opened Keymap

  datatype Event = Press(button: int) | Release(button: int)

  /** a11yChordRuntime: `pressed` maps a physical direction to the face button it became. */
  datatype State = State(latched: bool, held: bool, pressed: map<int, int>)

  const RESET := State(false, false, map[])

  /** The delivered button, or None when the event is dropped. */
  datatype Outcome = Outcome(state: State, delivered: Option<int>)

  predicate Direction(b: int) { b in {DPAD_UP, DPAD_DOWN, DPAD_LEFT, DPAD_RIGHT} }

  predicate Face(b: int) { b in {A, B, X, Y} }

  /** The buttons that can act as the chord modifier. */
  predicate ChordButton(b: int) { b in {LEFT_SHOULDER, RIGHT_SHOULDER, BACK, LEFT_STICK} }

  function ChordTarget(dir: int): Option<int> {
    if dir == DPAD_UP then Some(A) else if dir == DPAD_DOWN then Some(B)
    else if dir == DPAD_LEFT then Some(X) else if dir == DPAD_RIGHT then Some(Y)
    else None
  }

  function Deliver(l: Layout, b: int): Option<int> {
    if Resolve(l, b).dropped then None else Some(Resolve(l, b).button)
  }

  /** a11yRemapEvent with one-handed mode on; `mod` is the chord button. */
  function Remap(l: Layout, mod: int, s: State, e: Event): Outcome {
    match e
    case Release(b) =>
      var s' := if b == mod then s.(held := false) else s;
      if b in s.pressed then Outcome(s'.(pressed := s.pressed - {b}), Some(s.pressed[b]))
      else Outcome(s', Some(b))
    case Press(b) =>
      if b == mod then
        if s.held then Outcome(s, None) else Outcome(s.(held := true, latched := !s.latched), None)
      else if s.latched && ChordTarget(b).Some? then
        var face := ChordTarget(b).value;
        Outcome(s.(latched := false, pressed := s.pressed[b := face]), Deliver(l, face))
      else Outcome(s, Deliver(l, b))
  }

  function After(l: Layout, mod: int, es: seq<Event>): State {
    if es == [] then RESET else Remap(l, mod, After(l, mod, es[..|es| - 1]), es[|es| - 1]).state
  }

  // ----- one tap, one direction -----

  /** Event i was a tap of the chord button that changed the latch. */
  predicate Accepted(l: Layout, mod: int, es: seq<Event>, i: nat)
    requires i < |es|
  {
    es[i] == Press(mod) && !After(l, mod, es[..i]).held
  }

  /** Event i was a direction rewritten to a face button. */
  predicate Rewritten(l: Layout, mod: int, es: seq<Event>, i: nat)
    requires i < |es|
  {
    es[i].Press? && es[i].button != mod && Direction(es[i].button) && After(l, mod, es[..i]).latched
  }

  function Taps(l: Layout, mod: int, es: seq<Event>, n: nat): nat
    requires n <= |es|
  {
    if n == 0 then 0 else Taps(l, mod, es, n - 1) + if Accepted(l, mod, es, n - 1) then 1 else 0
  }

  function Rewrites(l: Layout, mod: int, es: seq<Event>, n: nat): nat
    requires n <= |es|
  {
    if n == 0 then 0 else Rewrites(l, mod, es, n - 1) + if Rewritten(l, mod, es, n - 1) then 1 else 0
  }

  lemma AfterStep(l: Layout, mod: int, es: seq<Event>, i: nat)
    requires i < |es|
    ensures After(l, mod, es[..i + 1]) == Remap(l, mod, After(l, mod, es[..i]), es[i]).state
  {
    assert es[..i + 1][..i] == es[..i];
  }

  /** The chord button is held exactly while it is down, so a tap counts exactly when it was up. */
  lemma {:induction false} HeldIsDown(l: Layout, mod: int, es: seq<Event>)
    ensures After(l, mod, es).held <==> mod in Down(es)
  {
    if es != [] { HeldIsDown(l, mod, es[..|es| - 1]); }
  }

  lemma AcceptedIff(l: Layout, mod: int, es: seq<Event>, i: nat)
    requires i < |es|
    ensures Accepted(l, mod, es, i) <==> es[i] == Press(mod) && mod !in Down(es[..i])
  {
    HeldIsDown(l, mod, es[..i]);
  }

  /** Each accepted tap turns the latch on or off again, and each rewrite uses it up. */
  lemma {:induction false} LatchIsParity(l: Layout, mod: int, es: seq<Event>, n: nat)
    requires n <= |es|
    ensures After(l, mod, es[..n]).latched <==> (Taps(l, mod, es, n) + Rewrites(l, mod, es, n)) % 2 == 1
  {
    if n > 0 {
      LatchIsParity(l, mod, es, n - 1);
      AfterStep(l, mod, es, n - 1);
    }
  }

  /**
   With the latch on, up, down, left and right arrive as A, B, X and Y, in SDL's codes and
   through the layout; with the latch off they arrive as the layout has them.
   */
  lemma ArmedDirections(l: Layout, mod: int, s: State)
    requires ChordButton(mod) && s.latched
    ensures Remap(l, mod, s, Press(11)).delivered == Deliver(l, 0)
    ensures Remap(l, mod, s, Press(12)).delivered == Deliver(l, 1)
    ensures Remap(l, mod, s, Press(13)).delivered == Deliver(l, 2)
    ensures Remap(l, mod, s, Press(14)).delivered == Deliver(l, 3)
    ensures forall b :: b != mod && b !in {11, 12, 13, 14} ==> Remap(l, mod, s, Press(b)) == Outcome(s, Deliver(l, b))
    ensures forall b :: b != mod ==> Remap(l, mod, s.(latched := false), Press(b)).delivered == Deliver(l, b)
  {}

  /** Every rewrite and every pending latch is paid for by its own accepted tap. */
  lemma {:induction false} TapsPayForRewrites(l: Layout, mod: int, es: seq<Event>, n: nat)
    requires n <= |es|
    ensures Rewrites(l, mod, es, n) + (if After(l, mod, es[..n]).latched then 1 else 0) <= Taps(l, mod, es, n)
  {
    if n > 0 {
      TapsPayForRewrites(l, mod, es, n - 1);
      AfterStep(l, mod, es, n - 1);
    }
  }

  /** Between two rewrites there is always another accepted tap, in every run. */
  lemma OneTapOneRewrite(l: Layout, mod: int, es: seq<Event>, i: nat, j: nat)
    requires i < j < |es| && Rewritten(l, mod, es, i) && Rewritten(l, mod, es, j)
    ensures exists k :: i < k < j && Accepted(l, mod, es, k)
  {
    AfterStep(l, mod, es, i);
    if forall k :: i < k < j ==> !Accepted(l, mod, es, k) { StaysUnlatched(l, mod, es, i, j); }
  }

  lemma {:induction false} StaysUnlatched(l: Layout, mod: int, es: seq<Event>, i: nat, j: nat)
    requires i < j < |es| && !After(l, mod, es[..i + 1]).latched
    requires forall k :: i < k < j ==> !Accepted(l, mod, es, k)
    ensures !After(l, mod, es[..j]).latched
    decreases j
  {
    if j > i + 1 {
      StaysUnlatched(l, mod, es, i, j - 1);
      AfterStep(l, mod, es, j - 1);
      assert !Accepted(l, mod, es, j - 1);
    }
  }

  predicate DirectionPress(mod: int, e: Event) { e.Press? && e.button != mod && Direction(e.button) }

  /** An accepted tap at k armed the chord, and the chord button was left down until j. */
  ghost predicate HeldSince(l: Layout, mod: int, es: seq<Event>, k: nat, j: nat) {
    && k < j <= |es| && Accepted(l, mod, es, k) && After(l, mod, es[..k + 1]).latched
    && forall i :: k < i < j ==> es[i].button != mod
  }

  /** While the button stays down, the latch is on until the first direction press. */
  lemma {:induction false} LatchWhileHeld(l: Layout, mod: int, es: seq<Event>, k: nat, j: nat)
    requires HeldSince(l, mod, es, k, j)
    ensures After(l, mod, es[..j]).held
    ensures After(l, mod, es[..j]).latched <==> forall i :: k < i < j ==> !DirectionPress(mod, es[i])
    decreases j
  {
    AfterStep(l, mod, es, j - 1);
    if j > k + 1 { LatchWhileHeld(l, mod, es, k, j - 1); }
  }

  /**
   The comment says that holding the chord button does the same for as long as it is
   down. In every run a direction pressed during such a hold is rewritten if and only if
   it is the first one of that hold.
   */
  lemma HoldingRewritesOnlyOnce(l: Layout, mod: int, es: seq<Event>, k: nat, j: nat)
    requires j < |es| && HeldSince(l, mod, es, k, j) && DirectionPress(mod, es[j])
    ensures After(l, mod, es[..j]).held
    ensures Rewritten(l, mod, es, j) <==> forall i :: k < i < j ==> !DirectionPress(mod, es[i])
  {
    LatchWhileHeld(l, mod, es, k, j);
  }

  // ----- releases, in runs where each button's presses and releases alternate -----

  function Down(es: seq<Event>): set<int> {
    if es == [] then {}
    else
      var before, e := Down(es[..|es| - 1]), es[|es| - 1];
      if e.Press? then before + {e.button} else before - {e.button}
  }

  predicate Alternating(es: seq<Event>) {
    es == [] ||
    var front, e := es[..|es| - 1], es[|es| - 1];
    Alternating(front) && (e.Press? <==> e.button !in Down(front))
  }

  /** Was button b's press that is still down delivered as a face button? */
  predicate DownAsFace(l: Layout, mod: int, es: seq<Event>, b: int) {
    es != [] &&
    var front, e := es[..|es| - 1], es[|es| - 1];
    if e == Press(b) then b != mod && Direction(b) && After(l, mod, front).latched
    else e != Release(b) && DownAsFace(l, mod, front, b)
  }

  /** The record of rewritten presses is exact: those still down, each with its face button. */
  lemma {:induction false} PressedIsExact(l: Layout, mod: int, es: seq<Event>, b: int)
    requires Alternating(es) && ChordButton(mod)
    ensures var s := After(l, mod, es);
            && (b in s.pressed <==> DownAsFace(l, mod, es, b))
            && (b in s.pressed ==> b in Down(es) && ChordTarget(b) == Some(s.pressed[b]))
  {
    if es != [] { PressedIsExact(l, mod, es[..|es| - 1], b); }
  }

  /** A release is delivered as the face button recorded at its press, and as itself if there was none. */
  lemma ReleaseMatchesPress(l: Layout, mod: int, es: seq<Event>, b: int)
    requires Alternating(es) && ChordButton(mod) && b in Down(es)
    ensures Remap(l, mod, After(l, mod, es), Release(b)).delivered ==
            if DownAsFace(l, mod, es, b) then ChordTarget(b) else Some(b)
    ensures b !in Remap(l, mod, After(l, mod, es), Release(b)).state.pressed
  {
    PressedIsExact(l, mod, es, b);
  }

  /** The button whose fate the layout decides when b is pressed in state s. */
  function Meant(mod: int, s: State, b: int): int
    requires b != mod
  {
    if s.latched && ChordTarget(b).Some? then ChordTarget(b).value else b
  }

  function Delivered(l: Layout, mod: int, es: seq<Event>, i: nat): Option<int>
    requires i < |es|
  {
    Remap(l, mod, After(l, mod, es[..i]), es[i]).delivered
  }

  /** Event j lets go of the button that event i pressed. */
  ghost predicate PressAndRelease(es: seq<Event>, i: nat, j: nat, b: int) {
    i < j < |es| && es[i] == Press(b) && es[j] == Release(b) && forall k :: i < k < j ==> es[k].button != b
  }

  lemma {:induction false} AlternatingPrefix(es: seq<Event>, n: nat)
    requires Alternating(es) && n <= |es|
    ensures Alternating(es[..n])
  {
    if n == |es| {
      assert es[..n] == es;
    } else {
      AlternatingPrefix(es[..|es| - 1], n);
      assert es[..|es| - 1][..n] == es[..n];
    }
  }

  /** Nothing is recorded for a button that is about to go down. */
  lemma PressedAfresh(l: Layout, mod: int, es: seq<Event>, i: nat, b: int)
    requires Alternating(es) && ChordButton(mod) && i < |es| && es[i] == Press(b)
    ensures b !in After(l, mod, es[..i]).pressed
  {
    AlternatingPrefix(es, i + 1);
    assert es[..i + 1][..i] == es[..i];
    PressedIsExact(l, mod, es[..i], b);
  }

  /** What is recorded for a button stays until its own next event. */
  lemma {:induction false} RecordStays(l: Layout, mod: int, es: seq<Event>, i: nat, j: nat, b: int)
    requires i < j <= |es| && forall k :: i < k < j ==> es[k].button != b
    ensures var s, t := After(l, mod, es[..i + 1]), After(l, mod, es[..j]);
            (b in s.pressed <==> b in t.pressed) && (b in s.pressed ==> s.pressed[b] == t.pressed[b])
    decreases j
  {
    if j > i + 1 {
      RecordStays(l, mod, es, i, j - 1, b);
      AfterStep(l, mod, es, j - 1);
    }
  }

  /**
   The comments promise that the two events of a press agree. Presses go through the
   keymap and swaps and releases do not, so in every run, whatever else happens in between,
   they agree exactly when the layout leaves the button alone that was meant.
   */
  lemma PressReleaseAgreeIff(l: Layout, mod: int, es: seq<Event>, i: nat, j: nat, b: int)
    requires Alternating(es) && ChordButton(mod) && b != mod && PressAndRelease(es, i, j, b)
    ensures var meant := Meant(mod, After(l, mod, es[..i]), b);
            Delivered(l, mod, es, i) == Delivered(l, mod, es, j) <==> Resolve(l, meant) == Resolved(meant, false)
  {
    PressedAfresh(l, mod, es, i, b);
    AfterStep(l, mod, es, i);
    RecordStays(l, mod, es, i, j, b);
  }

  /** With A and B swapped, a plain A arrives as B going down and as A coming up. */
  lemma SwapSplitsAPress(mod: int)
    requires ChordButton(mod)
    ensures var l := Layout(map[], true, false);
            && Remap(l, mod, RESET, Press(A)).delivered == Some(B)
            && Remap(l, mod, RESET, Release(A)).delivered == Some(A)
  {}

  // ----- hold-to-repeat -----

  datatype Nav = Nav(dx: int, dy: int)

  /** What one held physical button contributes; later contributions on an axis win. */
  function Contribute(l: Layout, s: State, held: set<int>, phys: int, n: Nav): Nav {
    if phys !in held then n
    else
      var logical := if phys in s.pressed then s.pressed[phys] else phys;
      var r := Resolve(l, logical);
      if r.dropped then n
      else if r.button == DPAD_LEFT then n.(dx := -1)
      else if r.button == DPAD_RIGHT then n.(dx := 1)
      else if r.button == DPAD_UP then n.(dy := -1)
      else if r.button == DPAD_DOWN then n.(dy := 1)
      else n
  }

  /** A direction that is down and was delivered as a direction. */
  predicate HeldAsDirection(s: State, held: set<int>, d: int) { d in held && d !in s.pressed }

  /** What a screen should see: only directions held as directions, right and down winning a tie. */
  function Expected(s: State, held: set<int>): Nav {
    Nav(if HeldAsDirection(s, held, DPAD_RIGHT) then 1 else if HeldAsDirection(s, held, DPAD_LEFT) then -1 else 0,
        if HeldAsDirection(s, held, DPAD_DOWN) then 1 else if HeldAsDirection(s, held, DPAD_UP) then -1 else 0)
  }

  /** Left and up are the negative directions, in SDL's codes; what a chord turned into a face button is none. */
  lemma OneDirectionHeld(s: State)
    requires forall d :: Direction(d) ==> d !in s.pressed
    ensures Expected(s, {13}) == Nav(-1, 0) && Expected(s, {14}) == Nav(1, 0)
    ensures Expected(s, {11}) == Nav(0, -1) && Expected(s, {12}) == Nav(0, 1)
    ensures Expected(s, {}) == Nav(0, 0)
    ensures forall face :: Expected(s.(pressed := map[13 := face]), {13, 12}) == Nav(0, 1)
  {}

  ghost predicate FacesOnly(s: State) {
    forall b :: b in s.pressed ==> Direction(b) && Face(s.pressed[b])
  }

  lemma {:induction false} RunFacesOnly(l: Layout, mod: int, es: seq<Event>)
    ensures FacesOnly(After(l, mod, es))
  {
    if es != [] { RunFacesOnly(l, mod, es[..|es| - 1]); }
  }

  lemma NamedNeverDirect(l: Layout, b: int)
    requires WellFormed(l.keys) && !Direction(b)
    ensures !Resolve(l, b).dropped ==> !Direction(Resolve(l, b).button)
  {}

  lemma DirectionsPassThrough(l: Layout, b: int)
    requires WellFormed(l.keys) && Direction(b)
    ensures Resolve(l, b) == Resolved(b, false)
  {}

  /**
   a11yHeldNavDirection: the four directions, then every remapped button in whatever
   order the map yields them. A press delivered as a face button never repeats as a
   direction, and under a well-formed keymap no other button does either.
   */
  method HeldNavDirection(l: Layout, s: State, held: set<int>) returns (n: Nav)
    requires WellFormed(l.keys) && FacesOnly(s)
    ensures n == Expected(s, held)
  {
    n := Nav(0, 0);
    var seen: set<int> := {};
    var fixed := [DPAD_UP, DPAD_DOWN, DPAD_LEFT, DPAD_RIGHT];
    DirectionsPassThrough(l, DPAD_UP);
    DirectionsPassThrough(l, DPAD_DOWN);
    DirectionsPassThrough(l, DPAD_LEFT);
    DirectionsPassThrough(l, DPAD_RIGHT);
    var i := 0;
    while i < 4
      invariant 0 <= i <= 4
      invariant n.dy == if i > 1 && HeldAsDirection(s, held, DPAD_DOWN) then 1
                        else if i > 0 && HeldAsDirection(s, held, DPAD_UP) then -1 else 0
      invariant n.dx == if i > 3 && HeldAsDirection(s, held, DPAD_RIGHT) then 1
                        else if i > 2 && HeldAsDirection(s, held, DPAD_LEFT) then -1 else 0
      invariant forall d :: d in seen ==> Direction(d)
    {
      if fixed[i] in held {
        seen := seen + {fixed[i]};
        if fixed[i] in s.pressed { NamedNeverDirect(l, s.pressed[fixed[i]]); }
        n := Contribute(l, s, held, fixed[i], n);
      }
      i := i + 1;
    }
    n := HeldRemapped(l, s, held, seen, n);
  }

  /** The second loop: buttons the keymap turned into something; none of them can be a direction. */
  method HeldRemapped(l: Layout, s: State, held: set<int>, seen: set<int>, before: Nav) returns (n: Nav)
    requires WellFormed(l.keys) && FacesOnly(s)
    ensures n == before
  {
    n := before;
    var rest := l.keys.Keys;
    while rest != {}
      invariant rest <= l.keys.Keys
      invariant n == before
      decreases |rest|
    {
      assert (forall b :: b !in rest) ==> rest == {};
      var phys :| phys in rest;
      if phys !in seen {
        assert Named(phys) && phys !in s.pressed;
        NamedNeverDirect(l, phys);
        n := Contribute(l, s, held, phys, n);
      }
      rest := rest - {phys};
    }
  }

  /** In every alternating run, a chorded press never repeats as a direction and a plain one always does. */
  lemma RepeatFollowsDelivery(l: Layout, mod: int, es: seq<Event>, d: int)
    requires Alternating(es) && ChordButton(mod) && Direction(d)
    ensures HeldAsDirection(After(l, mod, es), Down(es), d) <==> d in Down(es) && !DownAsFace(l, mod, es, d)
  {
    PressedIsExact(l, mod, es, d);
  }

  // ----- the runtime the event loop mutates -----

  class Runtime {
    var latched: bool
    var held: bool
    var pressed: map<int, int>

    function Now(): State reads this { State(latched, held, pressed) }

    constructor ()
      ensures Now() == RESET
    {
      latched, held, pressed := false, false, map[];
    }

    /** The event is rewritten in place: the new button, or a request to drop it. */
    method RemapEvent(l: Layout, mod: int, oneHanded: bool, e: Event) returns (drop: bool, button: int)
      modifies this
      ensures oneHanded ==> Remap(l, mod, old(Now()), e) == Outcome(Now(), if drop then None else Some(button))
      ensures !oneHanded ==> Now() == old(Now())
      ensures !oneHanded && e.Release? ==> !drop && button == e.button
      ensures !oneHanded && e.Press? ==> Deliver(l, e.button) == if drop then None else Some(button)
    {
      button := e.button;
      if e.Release? {
        if oneHanded && e.button == mod { held := false; }
        if e.button in pressed && oneHanded {
          button := pressed[e.button];
          pressed := pressed - {e.button};
        }
        return false, button;
      }
      if oneHanded {
        if e.button == mod {
          if held { return true, button; }
          held := true;
          latched := !latched;
          return true, button;
        }
        if latched {
          var face := ChordTarget(e.button);
          if face.Some? {
            latched := false;
            pressed := pressed[e.button := face.value];
            button := face.value;
          }
        }
      }
      var r := Resolve(l, button);
      if r.dropped { return true, button; }
      return false, r.button;
    }
  }
}
