/**
 Controller remapping (player/a11y.go): the saved keymap's spelling, how a physical
 button is resolved through it, and the panel rows that change it.
 */
module Keymap {
  import opened Prelude

  // SDL's game-controller button codes.
  const A := 0
  const B := 1
  const X := 2
  const Y := 3
  const BACK := 4
  const START := 6
  const LEFT_STICK := 7
  const LEFT_SHOULDER := 9
  const RIGHT_SHOULDER := 10
  const DPAD_UP := 11
  const DPAD_DOWN := 12
  const DPAD_LEFT := 13
  const DPAD_RIGHT := 14

  const DISABLED := 255

  datatype Name = Name(key: string, button: int)

  /** The stable spelling used in the saved keymap. */
  const NAMES: seq<Name> := [
    Name("a", A), Name("b", B), Name("x", X), Name("y", Y),
    Name("select", BACK), Name("start", START), Name("l1", LEFT_SHOULDER), Name("r1", RIGHT_SHOULDER)]

  type Keys = map<int, int>

  predicate Named(b: int) { b in {A, B, X, Y, BACK, START, LEFT_SHOULDER, RIGHT_SHOULDER} }

  /** Named buttons only, each sent somewhere else or swallowed. */
  ghost predicate WellFormed(m: Keys) {
    forall b :: b in m ==> Named(b) && m[b] != b && (m[b] == DISABLED || Named(m[b]))
  }

  function CodeFrom(names: seq<Name>, wanted: string): Option<int> {
    if names == [] then None else if names[0].key == wanted then Some(names[0].button) else CodeFrom(names[1..], wanted)
  }

  function KeyFrom(names: seq<Name>, button: int): Option<string> {
    if names == [] then None else if names[0].button == button then Some(names[0].key) else KeyFrom(names[1..], button)
  }

  function ButtonCode(name: string): Option<int> { CodeFrom(NAMES, Lower(Trim(GoSpace, name))) }

  function ButtonKey(button: int): Option<string> { KeyFrom(NAMES, button) }

  lemma {:induction false} CodesAreNamed(names: seq<Name>, wanted: string)
    requires forall i :: 0 <= i < |names| ==> Named(names[i].button)
    ensures CodeFrom(names, wanted).Some? ==> Named(CodeFrom(names, wanted).value)
  {
    if names != [] { CodesAreNamed(names[1..], wanted); }
  }

  // ----- reading -----

  /** strings.Split by one character: never empty, the separators removed. */
  function Split(s: string, sep: char): (parts: seq<string>)
    ensures parts != []
  {
    if s == [] then [[]]
    else if s[0] == sep then [[]] + Split(s[1..], sep)
    else
      var rest := Split(s[1..], sep);
      [[s[0]] + rest[0]] + rest[1..]
  }

  /** strings.SplitN(part, ":", 2): the text before and after the first colon. */
  function Cut(s: string): Option<(string, string)> {
    if s == [] then None
    else if s[0] == ':' then Some(([], s[1..]))
    else match Cut(s[1..])
      case None => None
      case Some(halves) => Some(([s[0]] + halves.0, halves.1))
  }

  function ParsePart(m: Keys, part: string): Keys {
    match Cut(Trim(GoSpace, part))
    case None => m
    case Some(kv) =>
      match ButtonCode(kv.0)
      case None => m
      case Some(physical) =>
        if Lower(Trim(GoSpace, kv.1)) == "none" then m[physical := DISABLED]
        else match ButtonCode(Lower(Trim(GoSpace, kv.1)))
          case None => m
          case Some(logical) => if logical == physical then m else m[physical := logical]
  }

  function ParseParts(parts: seq<string>): Keys {
    if parts == [] then map[] else ParsePart(ParseParts(parts[..|parts| - 1]), parts[|parts| - 1])
  }

  function Parse(raw: string): Keys { ParseParts(Split(raw, ',')) }

  lemma ParsePartWellFormed(m: Keys, part: string)
    requires WellFormed(m)
    ensures WellFormed(ParsePart(m, part))
  {
    NamesAreNamed();
    forall wanted { CodesAreNamed(NAMES, wanted); }
  }

  lemma NamesAreNamed()
    ensures forall i :: 0 <= i < |NAMES| ==> Named(NAMES[i].button)
  {}

  lemma {:induction false} ParsePartsWellFormed(parts: seq<string>)
    ensures WellFormed(ParseParts(parts))
  {
    if parts != [] {
      ParsePartsWellFormed(parts[..|parts| - 1]);
      ParsePartWellFormed(ParseParts(parts[..|parts| - 1]), parts[|parts| - 1]);
    }
  }

  /** a11yParseKeymap: every string, however malformed, reads as a well-formed keymap. */
  method ParseKeymap(raw: string) returns (m: Keys)
    ensures m == Parse(raw) && WellFormed(m)
  {
    m := map[];
    var parts := Split(raw, ',');
    var i := 0;
    while i < |parts|
      invariant 0 <= i <= |parts|
      invariant m == ParseParts(parts[..i])
    {
      assert parts[..i + 1][..i] == parts[..i];
      m := ParsePart(m, parts[i]);
      i := i + 1;
    }
    assert parts[..i] == parts;
    ParsePartsWellFormed(parts);
  }

  lemma {:induction false} ParsePartsStep(parts: seq<string>, part: string)
    ensures ParseParts(parts + [part]) == ParsePart(ParseParts(parts), part) && ParseParts([]) == map[]
  {
    assert (parts + [part])[..|parts|] == parts;
  }

  predicate AllSpace(s: string) { forall i :: 0 <= i < |s| ==> GoSpace(s[i]) }

  lemma LowerSpace(c: char)
    ensures GoSpace(LowerChar(c)) <==> GoSpace(c)
    ensures LowerChar(c) == ':' <==> c == ':'
  {}

  /** A name of the table in any letter case is bare text without a colon. */
  lemma SpelledIsBare(i: nat, t: string)
    requires i < |NAMES| && Lower(t) == NAMES[i].key
    ensures t != "" && Bare(GoSpace, t) && ':' !in t
  {
    NameTable(i);
    forall k | 0 <= k < |t| ensures !GoSpace(t[k]) && t[k] != ':' { LowerSpace(t[k]); }
  }

  /** A name counts in any letter case and with any white space around it. */
  lemma ButtonCodeReads(i: nat, a: string, t: string, b: string)
    requires i < |NAMES| && Lower(t) == NAMES[i].key && AllSpace(a) && AllSpace(b)
    ensures ButtonCode(a + t + b) == Some(NAMES[i].button)
  {
    SpelledIsBare(i, t);
    TrimStrips(GoSpace, a, t, b);
    NameTable(i);
  }

  lemma {:induction false} CodeUnknown(names: seq<Name>, wanted: string)
    requires forall i :: 0 <= i < |names| ==> names[i].key != wanted
    ensures CodeFrom(names, wanted) == None
  {
    if names != [] { CodeUnknown(names[1..], wanted); }
  }

  /** Where an entry leads: one of the named buttons, or nowhere. */
  lemma TargetReads(j: nat, c: string, n: string, d: string)
    requires j <= |NAMES| && Lower(n) == (if j == |NAMES| then "none" else NAMES[j].key) && AllSpace(c) && AllSpace(d)
    ensures var target := Lower(Trim(GoSpace, c + n + d));
            if j == |NAMES| then target == "none" else target != "none" && ButtonCode(target) == Some(NAMES[j].button)
  {
    forall k | 0 <= k < |n| ensures LowerChar(n[k]) == Lower(n)[k] { LowerSpace(n[k]); }
    if j < |NAMES| {
      SpelledIsBare(j, n);
      NameTable(j);
      TrimStrips(GoSpace, c, n, d);
      LowerIdempotent(n);
      assert "" + Lower(n) + "" == Lower(n);
      ButtonCodeReads(j, "", Lower(n), "");
    } else {
      NoneIsBare(n);
      TrimStrips(GoSpace, c, n, d);
    }
  }

  lemma NoneIsBare(n: string)
    requires Lower(n) == "none"
    ensures n != "" && Bare(GoSpace, n)
  {
    LowerSpace(n[0]);
    LowerSpace(n[3]);
    assert Lower(n)[0] == 'n' && Lower(n)[3] == 'e';
  }

  /** An entry is its two halves, read each on its own. */
  lemma EntryHalves(m: Keys, a: string, key: string, right: string, d: string, physical: int)
    requires AllSpace(a) && AllSpace(d) && ':' !in key && key != "" && right != ""
    requires !GoSpace(key[0]) && !GoSpace(right[|right| - 1]) && ButtonCode(key) == Some(physical)
    ensures var target := Lower(Trim(GoSpace, right));
            ParsePart(m, a + (key + ":" + right) + d)
            == if target == "none" then m[physical := DISABLED]
               else if ButtonCode(target) == None || ButtonCode(target) == Some(physical) then m
               else m[physical := ButtonCode(target).value]
  {
    var part := key + ":" + right;
    assert part[0] == key[0] && part[|part| - 1] == right[|right| - 1];
    TrimStrips(GoSpace, a, part, d);
    CutJoined(key, right);
  }

  /**
   One entry of a hand-written keymap, in any letter case and spacing: it sends the named
   button to the named target or to nowhere; naming a button as its own target says nothing.
   */
  lemma EntryReads(m: Keys, i: nat, j: nat, a: string, key: string, b: string, c: string, n: string, d: string)
    requires i < |NAMES| && Lower(key) == NAMES[i].key && AllSpace(a) && AllSpace(b) && AllSpace(c) && AllSpace(d)
    requires j <= |NAMES| && Lower(n) == (if j == |NAMES| then "none" else NAMES[j].key)
    ensures ParsePart(m, a + ((key + b) + ":" + (c + n)) + d)
            == if j == |NAMES| then m[NAMES[i].button := DISABLED]
               else if j == i then m else m[NAMES[i].button := NAMES[j].button]
  {
    SpelledIsBare(i, key);
    if j < |NAMES| { SpelledIsBare(j, n); } else { NoneIsBare(n); }
    NoColon(key, b);
    assert "" + key + b == key + b && c + n + "" == c + n;
    ButtonCodeReads(i, "", key, b);
    TargetReads(j, c, n, "");
    EntryHalves(m, a, key + b, c + n, d, NAMES[i].button);
    NamesUnambiguous();
  }

  lemma NoColon(key: string, b: string)
    requires ':' !in key && AllSpace(b)
    ensures forall k :: 0 <= k < |key + b| ==> (key + b)[k] != ':'
  {}

  /** An entry without a colon, or for an unknown button, costs only itself. */
  lemma EntrySkipped(m: Keys, part: string)
    requires Cut(Trim(GoSpace, part)) == None ||
             forall i :: 0 <= i < |NAMES| ==> NAMES[i].key != Lower(Trim(GoSpace, Cut(Trim(GoSpace, part)).value.0))
    ensures ParsePart(m, part) == m
  {
    if Cut(Trim(GoSpace, part)).Some? { CodeUnknown(NAMES, Lower(Trim(GoSpace, Cut(Trim(GoSpace, part)).value.0))); }
  }

  /** SDL's codes behind the eight names, and the code that stands for no button. */
  lemma SdlCodes()
    ensures NAMES == [Name("a", 0), Name("b", 1), Name("x", 2), Name("y", 3),
                      Name("select", 4), Name("start", 6), Name("l1", 9), Name("r1", 10)]
    ensures DISABLED == 255 && LEFT_STICK == 7
  {}

  // ----- writing -----

  function TargetName(target: int): Option<string> {
    if target == DISABLED then Some("none") else ButtonKey(target)
  }

  function PartsOf(m: Keys, n: nat): seq<string>
    requires n <= |NAMES|
  {
    if n == 0 then []
    else
      var name := NAMES[n - 1];
      PartsOf(m, n - 1) +
      if name.button in m && TargetName(m[name.button]).Some?
      then [name.key + ":" + TargetName(m[name.button]).value] else []
  }

  function Join(parts: seq<string>): string {
    if parts == [] then [] else if |parts| == 1 then parts[0] else parts[0] + "," + Join(parts[1..])
  }

  function Print(m: Keys): string { Join(PartsOf(m, |NAMES|)) }

  /** a11yKeymapString: the loop over the name table. */
  method KeymapString(m: Keys) returns (s: string)
    ensures s == Print(m)
    ensures WellFormed(m) ==> Parse(s) == m
  {
    var parts: seq<string> := [];
    if |m| != 0 {
      var i := 0;
      while i < |NAMES|
        invariant 0 <= i <= |NAMES|
        invariant parts == PartsOf(m, i)
      {
        var name := NAMES[i];
        if name.button in m {
          var target := TargetName(m[name.button]);
          if target.Some? { parts := parts + [name.key + ":" + target.value]; }
        }
        i := i + 1;
      }
    } else {
      NoParts(m, |NAMES|);
    }
    if WellFormed(m) { PrintParses(m); }
    return Join(parts);
  }

  lemma {:induction false} NoParts(m: Keys, n: nat)
    requires m == map[] && n <= |NAMES|
    ensures PartsOf(m, n) == []
  {
    if n > 0 { NoParts(m, n - 1); }
  }

  // ----- the round trip -----

  /** Lower-case letters and digits: a spelling that trimming and lower-casing leave alone. */
  predicate Plain(s: string) {
    s != [] && forall i :: 0 <= i < |s| ==> 'a' <= s[i] <= 'z' || '0' <= s[i] <= '9'
  }

  lemma PlainStays(s: string)
    requires Plain(s)
    ensures Lower(s) == s && Trim(GoSpace, s) == s
  {
    TrimIsBare(GoSpace, s);
  }

  lemma {:induction false} CutJoined(a: string, b: string)
    requires forall i :: 0 <= i < |a| ==> a[i] != ':'
    ensures Cut(a + ":" + b) == Some((a, b))
  {
    var s := a + ":" + b;
    if a == [] {
      assert s[1..] == b;
    } else {
      assert s[1..] == a[1..] + ":" + b;
      CutJoined(a[1..], b);
      assert [a[0]] + a[1..] == a;
    }
  }

  lemma {:induction false} SplitPlain(a: string, sep: char)
    requires sep !in a
    ensures Split(a, sep) == [a]
  {
    if a != [] {
      SplitPlain(a[1..], sep);
      assert [a[0]] + a[1..] == a;
    }
  }

  lemma {:induction false} SplitFirst(a: string, sep: char, rest: string)
    requires sep !in a
    ensures Split(a + [sep] + rest, sep) == [a] + Split(rest, sep)
  {
    var s := a + [sep] + rest;
    if a == [] {
      assert s[1..] == rest;
    } else {
      assert s[1..] == a[1..] + [sep] + rest;
      SplitFirst(a[1..], sep, rest);
      assert [a[0]] + a[1..] == a;
    }
  }

  lemma {:induction false} SplitJoined(parts: seq<string>)
    requires parts != [] && forall i :: 0 <= i < |parts| ==> ',' !in parts[i]
    ensures Split(Join(parts), ',') == parts
  {
    if |parts| == 1 {
      SplitPlain(parts[0], ',');
    } else {
      SplitJoined(parts[1..]);
      SplitFirst(parts[0], ',', Join(parts[1..]));
      assert parts[0] + "," + Join(parts[1..]) == parts[0] + [','] + Join(parts[1..]);
    }
  }

  lemma NameTable(i: nat)
    requires i < |NAMES|
    ensures Plain(NAMES[i].key) && NAMES[i].key != "none"
    ensures CodeFrom(NAMES, NAMES[i].key) == Some(NAMES[i].button)
    ensures KeyFrom(NAMES, NAMES[i].button) == Some(NAMES[i].key)
  {
    NamesUnambiguous();
    FindInTable(NAMES, i);
  }

  ghost predicate Unambiguous(names: seq<Name>) {
    forall i, j :: 0 <= i < j < |names| ==> names[i].key != names[j].key && names[i].button != names[j].button
  }

  lemma {:induction false} FindInTable(names: seq<Name>, i: nat)
    requires i < |names| && Unambiguous(names)
    ensures CodeFrom(names, names[i].key) == Some(names[i].button)
    ensures KeyFrom(names, names[i].button) == Some(names[i].key)
  {
    if i > 0 {
      assert Unambiguous(names[1..]);
      FindInTable(names[1..], i - 1);
    }
  }

  lemma IndexOf(b: int) returns (i: nat)
    requires Named(b)
    ensures i < |NAMES| && NAMES[i].button == b
  {
    i := if b == A then 0 else if b == B then 1 else if b == X then 2 else if b == Y then 3
         else if b == BACK then 4 else if b == START then 5 else if b == LEFT_SHOULDER then 6 else 7;
  }

  lemma TargetNames(target: int)
    requires target == DISABLED || Named(target)
    ensures TargetName(target).Some? && Plain(TargetName(target).value)
    ensures target != DISABLED ==>
              TargetName(target).value != "none" && CodeFrom(NAMES, TargetName(target).value) == Some(target)
  {
    if target != DISABLED {
      var i := IndexOf(target);
      NameTable(i);
    }
  }

  lemma PartShape(key: string, name: string)
    requires Plain(key) && Plain(name)
    ensures var part := key + ":" + name;
            Trim(GoSpace, part) == part && Cut(part) == Some((key, name)) && ',' !in part
  {
    var part := key + ":" + name;
    assert part[0] == key[0] && part[|part| - 1] == name[|name| - 1];
    TrimIsBare(GoSpace, part);
    CutJoined(key, name);
  }

  /** One printed entry reads back as that entry. */
  lemma PartParses(m: Keys, i: nat, target: int)
    requires i < |NAMES| && target != NAMES[i].button && (target == DISABLED || Named(target))
    ensures TargetName(target).Some?
    ensures var part := NAMES[i].key + ":" + TargetName(target).value;
            ParsePart(m, part) == m[NAMES[i].button := target] && ',' !in part
  {
    NameTable(i);
    TargetNames(target);
    EntryParses(m, NAMES[i].key, NAMES[i].button, TargetName(target).value, target);
  }

  lemma EntryParses(m: Keys, key: string, physical: int, name: string, target: int)
    requires Plain(key) && Plain(name) && physical != target
    requires CodeFrom(NAMES, key) == Some(physical)
    requires if target == DISABLED then name == "none" else name != "none" && CodeFrom(NAMES, name) == Some(target)
    ensures ParsePart(m, key + ":" + name) == m[physical := target] && ',' !in key + ":" + name
  {
    PartShape(key, name);
    PlainStays(key);
    PlainStays(name);
  }

  /** The entries of the first n names. */
  ghost function Upto(m: Keys, n: nat): Keys
    requires n <= |NAMES|
  {
    if n == 0 then map[]
    else if NAMES[n - 1].button in m then Upto(m, n - 1)[NAMES[n - 1].button := m[NAMES[n - 1].button]]
    else Upto(m, n - 1)
  }

  lemma {:induction false} PartsParse(m: Keys, n: nat)
    requires WellFormed(m) && n <= |NAMES|
    ensures ParseParts(PartsOf(m, n)) == Upto(m, n)
    ensures forall i :: 0 <= i < |PartsOf(m, n)| ==> ',' !in PartsOf(m, n)[i]
  {
    if n > 0 {
      PartsParse(m, n - 1);
      var b := NAMES[n - 1].button;
      var front, parts := PartsOf(m, n - 1), PartsOf(m, n);
      if b in m {
        PartParses(Upto(m, n - 1), n - 1, m[b]);
        var part := NAMES[n - 1].key + ":" + TargetName(m[b]).value;
        assert parts == front + [part];
        assert parts[..|parts| - 1] == front;
      } else {
        assert parts == front + [] == front;
      }
    }
  }

  lemma {:induction false} UptoHas(m: Keys, n: nat)
    requires n <= |NAMES|
    ensures forall b :: b in Upto(m, n) ==> b in m && Upto(m, n)[b] == m[b]
    ensures forall i :: 0 <= i < n && NAMES[i].button in m ==> NAMES[i].button in Upto(m, n)
  {
    if n > 0 { UptoHas(m, n - 1); }
  }

  /** What the panel saves is what the next launch loads: every well-formed keymap survives the round trip. */
  lemma PrintParses(m: Keys)
    requires WellFormed(m)
    ensures Parse(Print(m)) == m
  {
    var parts := PartsOf(m, |NAMES|);
    PartsParse(m, |NAMES|);
    UptoHas(m, |NAMES|);
    var all := Upto(m, |NAMES|);
    forall b ensures b in all <==> b in m {
      if b in m {
        var i := IndexOf(b);
        assert NAMES[i].button in m;
      }
    }
    forall b | b in m ensures b in all && all[b] == m[b] { assert b in all; }
    assert all == m;
    if parts == [] {
      EmptyParses();
    } else {
      SplitJoined(parts);
    }
  }

  lemma EmptyParses()
    ensures Parse("") == map[]
  {
    var parts := Split("", ',');
    assert parts == [""] && parts[..0] == [];
    assert Trim(GoSpace, "") == "";
    assert ParseParts(parts[..0]) == map[];
  }

  // ----- resolving a button -----

  /** The button layer: the general keymap and the two swap presets. */
  datatype Layout = Layout(keys: Keys, swapAB: bool, swapXY: bool)

  datatype Resolved = Resolved(button: int, dropped: bool)

  function SwapButton(l: Layout, b: int): int {
    if l.swapAB && b == A then B else if l.swapAB && b == B then A
    else if l.swapXY && b == X then Y else if l.swapXY && b == Y then X
    else b
  }

  function Resolve(l: Layout, b: int): Resolved {
    if b in l.keys && l.keys[b] == DISABLED then Resolved(b, true)
    else Resolved(SwapButton(l, if b in l.keys then l.keys[b] else b), false)
  }

  /** Without entries the layout is an exchange: pressing what a button sends gives the button back. */
  lemma SwapsExchange(l: Layout, b: int)
    requires l.keys == map[]
    ensures Resolve(l, Resolve(l, b).button) == Resolved(b, false) && !Resolve(l, b).dropped
    ensures l.swapAB <==> Resolve(l, A) == Resolved(B, false)
    ensures l.swapXY <==> Resolve(l, X) == Resolved(Y, false)
    ensures b !in {A, B, X, Y} ==> Resolve(l, b) == Resolved(b, false)
    ensures Resolve(l, b).button != b <==> (l.swapAB && (b == A || b == B)) || (l.swapXY && (b == X || b == Y))
  {}

  /** An entry is followed before the swaps: the button sends what its target sends without entries, or nothing. */
  lemma EntryThenSwap(l: Layout, b: int)
    requires b in l.keys
    ensures Resolve(l, b).dropped <==> l.keys[b] == 255
    ensures l.keys[b] != 255 ==> Resolve(l, b) == Resolve(l.(keys := map[]), l.keys[b])
    ensures l.keys[b] == 255 ==> Resolve(l, b).button == b
  {}

  // ----- the panel -----

  datatype PanelOp =
    | AdjustButton(button: int, dir: int)    // left / right on a button's own row
    | StepLayoutPreset
    | StepSelectKey
    | ResetAll
    | Reload(raw: string)                     // a hand-edited config

  /** The targets a button's row walks: every other named button, then Disabled. */
  function Targets(names: seq<Name>, button: int): seq<int> {
    if names == [] then [DISABLED]
    else if names[0].button == button then Targets(names[1..], button)
    else [names[0].button] + Targets(names[1..], button)
  }

  /** The position of `current` in the list, counted from 1; 0 when it is not there. */
  function PositionOf(targets: seq<int>, current: int): (p: nat)
    ensures p <= |targets|
    ensures p > 0 ==> targets[p - 1] == current
    ensures p == 0 ==> current !in targets
  {
    if targets == [] then 0
    else if targets[|targets| - 1] == current then |targets|
    else PositionOf(targets[..|targets| - 1], current)
  }

  function GoMod(a: int, n: int): int
    requires n > 0
  {
    if a >= 0 then a % n else -((-a) % n)
  }

  /** From the position of the current target, dir steps along "itself" followed by the targets. */
  function CycleIn(targets: seq<int>, current: int, button: int, dir: int): int {
    var positions := |targets| + 1;
    var pos := (GoMod(PositionOf(targets, current) + dir, positions) + positions) % positions;
    if pos == 0 then button else targets[pos - 1]
  }

  /** a11yCycleButtonTarget. */
  function CycleTarget(l: Layout, button: int, dir: int): int {
    CycleIn(Targets(NAMES, button), Resolve(l, button).button, button, dir)
  }

  lemma {:induction false} TargetsAre(names: seq<Name>, button: int)
    requires forall i :: 0 <= i < |names| ==> Named(names[i].button)
    ensures forall t :: t in Targets(names, button) ==> t == DISABLED || (t != button && Named(t))
    ensures var ts := Targets(names, button); |ts| > 0 && ts[|ts| - 1] == DISABLED
    ensures forall i :: 0 <= i < |Targets(names, button)| - 1 ==> Named(Targets(names, button)[i])
    ensures button !in Targets(names, button) || button == DISABLED
  {
    if names != [] { TargetsAre(names[1..], button); }
  }

  lemma TargetsStep(names: seq<Name>, i: nat, button: int, before: seq<int>)
    requires i < |names|
    ensures before + Targets(names[i..], button)
            == (before + if names[i].button != button then [names[i].button] else []) + Targets(names[i + 1..], button)
  {
    assert names[i..][1..] == names[i + 1..];
    if names[i].button == button { assert before + [] == before; }
  }

  function ClearSwapFor(l: Layout, button: int): Layout {
    if button == A || button == B then l.(swapAB := false)
    else if button == X || button == Y then l.(swapXY := false)
    else l
  }

  function ApplyPanel(l: Layout, op: PanelOp): Layout {
    match op
    case AdjustButton(button, dir) =>
      var next := CycleTarget(l, button, dir);
      ClearSwapFor(l.(keys := if next == button then l.keys - {button} else l.keys[button := next]), button)
    case StepLayoutPreset =>
      var nintendo := l.swapAB && l.swapXY && |l.keys| == 0;
      Layout(map[], !nintendo, !nintendo)
    case StepSelectKey =>
      if BACK in l.keys && l.keys[BACK] == START then l.(keys := (l.keys - {START})[BACK := DISABLED])
      else if BACK in l.keys && l.keys[BACK] == DISABLED then l.(keys := l.keys - {BACK, START})
      else l.(keys := l.keys[BACK := START][START := BACK])
    case ResetAll => Layout(map[], false, false)
    case Reload(raw) => l.(keys := Parse(raw))
  }

  function AfterPanel(ops: seq<PanelOp>): Layout {
    if ops == [] then Layout(map[], false, false) else ApplyPanel(AfterPanel(ops[..|ops| - 1]), ops[|ops| - 1])
  }

  lemma PanelStep(ops: seq<PanelOp>, op: PanelOp)
    ensures AfterPanel(ops + [op]) == ApplyPanel(AfterPanel(ops), op)
  {
    assert (ops + [op])[..|ops|] == ops;
  }

  /** At the start, and after a reset, every button sends itself. */
  lemma ResetIsPlain(ops: seq<PanelOp>, b: int)
    ensures Resolve(AfterPanel([]), b) == Resolved(b, false)
    ensures Resolve(AfterPanel(ops + [ResetAll]), b) == Resolved(b, false)
  {
    PanelStep(ops, ResetAll);
  }

  /** The preset row goes to the Nintendo order, and from there to the standard order and back. */
  lemma TwoPresetSteps(l: Layout)
    ensures var once := ApplyPanel(l, StepLayoutPreset);
            var twice := ApplyPanel(once, StepLayoutPreset);
            && once.keys == map[] && once.swapAB == once.swapXY
            && (l == Layout(map[], true, true) <==> Resolve(once, A) == Resolved(A, false))
            && twice == if l == Layout(map[], true, true) then l else Layout(map[], false, false)
  {}

  /**
   The row a user moves is to win over the preset that covered it. It does exactly unless
   the new target belongs to the other pair and that pair is still swapped.
   */
  lemma RowWinsIff(l: Layout, button: int, dir: int)
    requires WellFormed(l.keys) && Named(button)
    ensures var next, s := CycleTarget(l, button, dir), ApplyPanel(l, AdjustButton(button, dir));
            && (next == DISABLED ==> Resolve(s, button) == Resolved(button, true))
            && (next != DISABLED ==>
                  (Resolve(s, button) == Resolved(next, false)
                   <==> !(next in {A, B} && button !in {A, B} && l.swapAB) && !(next in {X, Y} && button !in {X, Y} && l.swapXY)))
  {
    NamesAreNamed();
    TargetsAre(NAMES, button);
  }

  /** A row leaves every other button's entry, and a swap is dropped only by its own two buttons. */
  lemma RowLeavesTheRest(l: Layout, button: int, dir: int, b: int)
    requires b != button
    ensures var s := ApplyPanel(l, AdjustButton(button, dir));
            && (b in s.keys <==> b in l.keys) && (b in l.keys ==> s.keys[b] == l.keys[b])
            && s.swapAB == (l.swapAB && button != A && button != B) && s.swapXY == (l.swapXY && button != X && button != Y)
  {}

  /** What the row of A walks through: the other names in the table's order, then nothing. */
  lemma TargetsOfA()
    ensures Targets(NAMES, A) == [1, 2, 3, 4, 6, 9, 10, 255]
  {
    TargetsStep(NAMES, 0, A, []);
    TargetsStep(NAMES, 1, A, []);
    TargetsStep(NAMES, 2, A, [1]);
    TargetsStep(NAMES, 3, A, [1, 2]);
    TargetsStep(NAMES, 4, A, [1, 2, 3]);
    TargetsStep(NAMES, 5, A, [1, 2, 3, 4]);
    TargetsStep(NAMES, 6, A, [1, 2, 3, 4, 6]);
    TargetsStep(NAMES, 7, A, [1, 2, 3, 4, 6, 9]);
    assert NAMES[0..] == NAMES && NAMES[8..] == [];
  }

  /** In the Nintendo order one step on A's row aims at X, and A then sends Y. */
  lemma RowOvershoots()
    ensures var l := Layout(map[], true, true);
            CycleTarget(l, A, 1) == X && Resolve(ApplyPanel(l, AdjustButton(A, 1)), A) == Resolved(Y, false)
  {
    var ts := [1, 2, 3, 4, 6, 9, 10, 255];
    TargetsOfA();
    assert PositionOf(ts, B) == 1;
    CycleStep(1, 9);
  }

  /** The panel only offers rows for named buttons. */
  predicate Offered(op: PanelOp) { op.AdjustButton? ==> Named(op.button) }

  lemma PanelKeepsWellFormed(l: Layout, op: PanelOp)
    requires WellFormed(l.keys) && Offered(op)
    ensures WellFormed(ApplyPanel(l, op).keys)
  {
    match op {
      case AdjustButton(button, dir) =>
        NamesAreNamed();
        TargetsAre(NAMES, button);
      case Reload(raw) => ParsePartsWellFormed(Split(raw, ','));
      case _ =>
    }
  }

  lemma {:induction false} PanelHistoryWellFormed(ops: seq<PanelOp>)
    requires forall i :: 0 <= i < |ops| ==> Offered(ops[i])
    ensures WellFormed(AfterPanel(ops).keys)
  {
    if ops != [] {
      PanelHistoryWellFormed(ops[..|ops| - 1]);
      PanelKeepsWellFormed(AfterPanel(ops[..|ops| - 1]), ops[|ops| - 1]);
    }
  }

  /** Whatever was done on the panel, the saved layout reloads unchanged. */
  lemma SavedLayoutReloads(ops: seq<PanelOp>)
    requires forall i :: 0 <= i < |ops| ==> Offered(ops[i])
    ensures Parse(Print(AfterPanel(ops).keys)) == AfterPanel(ops).keys
  {
    PanelHistoryWellFormed(ops);
    PrintParses(AfterPanel(ops).keys);
  }

  /** Loading a keymap that was printed, here or by hand, puts exactly it in place of the present one. */
  lemma ReloadReplaces(l: Layout, m: Keys)
    requires WellFormed(m)
    ensures ApplyPanel(l, Reload(Print(m))) == l.(keys := m)
  {
    PrintParses(m);
  }

  /** Swapping Select and Start keeps both reachable: each sends the other; then Select is off, then both are plain. */
  lemma SelectSwapKeepsBoth(l: Layout)
    requires WellFormed(l.keys) && (BACK in l.keys ==> l.keys[BACK] != START && l.keys[BACK] != DISABLED)
    ensures var s := ApplyPanel(l, StepSelectKey);
            Resolve(s, BACK) == Resolved(START, false) && Resolve(s, START) == Resolved(BACK, false)
    ensures var off := ApplyPanel(ApplyPanel(l, StepSelectKey), StepSelectKey);
            Resolve(off, BACK).dropped && Resolve(off, START) == Resolved(START, false)
    ensures var gone := ApplyPanel(ApplyPanel(ApplyPanel(l, StepSelectKey), StepSelectKey), StepSelectKey);
            gone == l.(keys := l.keys - {BACK, START})
  {}

  /**
   The row's list is not the clean cycle its comment describes. A swallowed button
   reads back as itself, so stepping right never restores the button, and stepping
   left from Disabled stays there; stepping left restores it exactly from the first target.
   */
  lemma CycleIsLopsided(l: Layout, button: int)
    requires WellFormed(l.keys) && Named(button)
    ensures CycleTarget(l, button, 1) != button
    ensures Resolve(l, button).dropped ==> CycleTarget(l, button, -1) == DISABLED
                                           && CycleTarget(l, button, 1) == Targets(NAMES, button)[0]
    ensures CycleTarget(l, button, -1) == button <==> Resolve(l, button).button == Targets(NAMES, button)[0]
  {
    NamesAreNamed();
    NamesUnambiguous();
    TargetsFit(NAMES, button);
    NeverResolvesToDisabled(l, button);
    CycleInIsLopsided(Targets(NAMES, button), Resolve(l, button).button, button);
  }

  lemma NeverResolvesToDisabled(l: Layout, button: int)
    requires WellFormed(l.keys) && Named(button)
    ensures Resolve(l, button).button != DISABLED
    ensures Resolve(l, button).dropped ==> Resolve(l, button).button == button
  {}

  lemma NamesUnambiguous()
    ensures Unambiguous(NAMES) && |NAMES| == 8
  {}

  lemma TargetsFit(names: seq<Name>, button: int)
    requires Unambiguous(names) && |names| >= 2 && Named(button)
    requires forall i :: 0 <= i < |names| ==> Named(names[i].button)
    ensures var ts := Targets(names, button);
            |ts| >= 2 && ts[|ts| - 1] == DISABLED && button !in ts && NoRepeats(ts)
  {
    TargetsAre(names, button);
    TargetsDistinct(names, button);
    TargetsLength(names, button);
  }

  lemma CycleInIsLopsided(ts: seq<int>, current: int, button: int)
    requires |ts| >= 2 && ts[|ts| - 1] == DISABLED && button !in ts && current != DISABLED
    requires NoRepeats(ts)
    ensures CycleIn(ts, current, button, 1) != button
    ensures current == button ==> CycleIn(ts, current, button, -1) == DISABLED && CycleIn(ts, current, button, 1) == ts[0]
    ensures CycleIn(ts, current, button, -1) == button <==> current == ts[0]
  {
    var p := PositionOf(ts, current);
    CycleStep(p, |ts| + 1);
    assert p < |ts|;
    assert CycleIn(ts, current, button, 1) == ts[p];
    assert CycleIn(ts, current, button, -1) == if p == 0 then ts[|ts| - 1] else if p == 1 then button else ts[p - 2];
    assert ts[p] in ts && (p > 1 ==> ts[p - 2] in ts);
  }

  lemma CycleStep(p: nat, n: nat)
    requires p < n && n >= 2
    ensures (GoMod(p + 1, n) + n) % n == if p + 1 < n then p + 1 else 0
    ensures (GoMod(p - 1, n) + n) % n == if p == 0 then n - 1 else p - 1
  {
    ModOnce(p + 1, n);
    ModOnce(GoMod(p + 1, n) + n, n);
    if p > 0 { ModOnce(p - 1, n); } else { ModOnce(1, n); }
    ModOnce(GoMod(p - 1, n) + n, n);
  }

  lemma ModOnce(x: nat, n: nat)
    requires n > 0 && x < 2 * n
    ensures x % n == if x < n then x else x - n
  {
    if x >= n { assert x == n + (x - n); assert (x - n) % n == x - n; }
  }

  lemma {:induction false} TargetsCome(names: seq<Name>, button: int, t: int)
    requires t in Targets(names, button) && t != DISABLED
    ensures exists i :: 0 <= i < |names| && names[i].button == t
  {
    if names[0].button != t {
      TargetsCome(names[1..], button, t);
      var i :| 0 <= i < |names[1..]| && names[1..][i].button == t;
      assert names[i + 1].button == t;
    }
  }

  ghost predicate NoRepeats(ts: seq<int>) { forall i, j :: 0 <= i < j < |ts| ==> ts[i] != ts[j] }

  lemma PrependNew(x: int, ts: seq<int>)
    requires NoRepeats(ts) && x !in ts
    ensures NoRepeats([x] + ts)
  {}

  /** No target is listed twice ... */
  lemma {:induction false} TargetsDistinct(names: seq<Name>, button: int)
    requires Unambiguous(names) && forall i :: 0 <= i < |names| ==> Named(names[i].button)
    ensures NoRepeats(Targets(names, button))
  {
    if names != [] {
      var rest := names[1..];
      assert Unambiguous(rest);
      TargetsDistinct(rest, button);
      forall t | t in Targets(rest, button) ensures t != names[0].button {
        if t != DISABLED {
          TargetsCome(rest, button, t);
          var i :| 0 <= i < |rest| && rest[i].button == t;
          assert names[0].button != names[i + 1].button;
        }
      }
      PrependNew(names[0].button, Targets(rest, button));
    }
  }

  /** ... and at most the button itself is left out. */
  lemma {:induction false} TargetsLength(names: seq<Name>, button: int)
    requires Unambiguous(names)
    ensures |Targets(names, button)| >= |names|
    ensures (forall i :: 0 <= i < |names| ==> names[i].button != button) ==> |Targets(names, button)| == |names| + 1
  {
    if names != [] {
      var rest := names[1..];
      assert Unambiguous(rest);
      TargetsLength(rest, button);
      if names[0].button == button {
        forall i | 0 <= i < |rest| ensures rest[i].button != button { assert names[i + 1].button != names[0].button; }
      }
    }
  }

  // ----- the settings the panel and the event loop share -----

  class Settings {
    var keys: Keys
    var swapAB: bool
    var swapXY: bool

    ghost predicate Valid() reads this { WellFormed(keys) }

    function Now(): Layout reads this { Layout(keys, swapAB, swapXY) }

    constructor ()
      ensures Valid() && Now() == AfterPanel([])
    {
      keys, swapAB, swapXY := map[], false, false;
    }

    /** a11yCycleButtonTarget builds its list and scans it for the current target. */
    method NextTarget(button: int, dir: int) returns (next: int)
      ensures next == CycleTarget(Now(), button, dir)
    {
      var targets := TargetList(button);
      var pos := LastPosition(targets, Resolve(Now(), button).button);
      var positions := |targets| + 1;
      pos := (GoMod(pos + dir, positions) + positions) % positions;
      if pos == 0 { return button; }
      return targets[pos - 1];
    }

    method LastPosition(targets: seq<int>, current: int) returns (pos: nat)
      ensures pos == PositionOf(targets, current)
    {
      pos := 0;
      var i := 0;
      while i < |targets|
        invariant 0 <= i <= |targets|
        invariant pos == PositionOf(targets[..i], current)
      {
        assert targets[..i + 1][..i] == targets[..i];
        if targets[i] == current { pos := i + 1; }
        i := i + 1;
      }
      assert targets[..i] == targets;
    }

    method TargetList(button: int) returns (targets: seq<int>)
      ensures targets == Targets(NAMES, button)
    {
      targets := [];
      var i := 0;
      while i < |NAMES|
        invariant 0 <= i <= |NAMES|
        invariant targets + Targets(NAMES[i..], button) == Targets(NAMES, button)
      {
        TargetsStep(NAMES, i, button, targets);
        if NAMES[i].button != button { targets := targets + [NAMES[i].button]; }
        i := i + 1;
      }
      assert NAMES[i..] == [];
      targets := targets + [DISABLED];
    }

    /** The explicit entry wins over the preset swap that covered the button. */
    method AdjustButtonRow(button: int, dir: int)
      requires Valid() && Named(button)
      modifies this
      ensures Valid() && Now() == ApplyPanel(old(Now()), AdjustButton(button, dir))
    {
      PanelKeepsWellFormed(Now(), AdjustButton(button, dir));
      var next := NextTarget(button, dir);
      if next == button { keys := keys - {button}; } else { keys := keys[button := next]; }
      if button == A || button == B { swapAB := false; }
      if button == X || button == Y { swapXY := false; }
    }

    method LayoutPresetRow()
      requires Valid()
      modifies this
      ensures Valid() && Now() == ApplyPanel(old(Now()), StepLayoutPreset)
    {
      var nintendo := swapAB && swapXY && |keys| == 0;
      swapAB, swapXY := !nintendo, !nintendo;
      keys := map[];
    }

    method SelectKeyRow()
      requires Valid()
      modifies this
      ensures Valid() && Now() == ApplyPanel(old(Now()), StepSelectKey)
    {
      if BACK in keys && keys[BACK] == START {
        keys := keys - {START};
        keys := keys[BACK := DISABLED];
      } else if BACK in keys && keys[BACK] == DISABLED {
        keys := keys - {BACK};
        keys := keys - {START};
      } else {
        keys := keys[BACK := START];
        keys := keys[START := BACK];
      }
    }

    method Reset()
      modifies this
      ensures Valid() && Now() == ApplyPanel(old(Now()), ResetAll)
    {
      swapAB, swapXY := false, false;
      keys := map[];
    }

    /** Saving and loading again leaves the keymap as it was. */
    method SaveAndReload()
      requires Valid()
      modifies this
      ensures Valid() && Now() == old(Now())
    {
      var saved := KeymapString(keys);
      keys := ParseKeymap(saved);
    }
  }
}
