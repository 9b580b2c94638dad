/** Import normalisation (script.js): one element, one scene name, and a whole config with its repair report. */
module Normalize {
  import opened Prelude
  import opened Json

  // ----- one element -----

  function TypeOf(e: Engine, f: Fields): string {
    var text := if Falsy(Get(f, Type)) then "" else Lower(Trim(JsSpace, JsString(e, f[Type])));
    if text == "menu-element" then "menu" else text
  }

  function IntOr(n: Option<int>, fallback: Json): Json {
    match n case None => fallback case Some(i) => Int(i)
  }

  function Clamp(r: real): real { if r < 0.0 then 0.0 else if r > 1.0 then 1.0 else r }

  function TextOf(e: Engine, f: Fields): Option<Json> {
    match Get(f, Text)
    case None => None
    case Some(t) => if t.Num? || t.NonFinite? || t.Bool? then Some(Str(JsString(e, t))) else Some(t)
  }

  /** A grid count: kept as an integer when it is one, dropped otherwise. */
  function CountOf(e: Engine, f: Fields, k: Key): Option<Json> {
    match ToInt(e, Get(f, k)) case None => None case Some(n) => Some(Int(n))
  }

  function RefreshOf(f: Fields): Option<Json> {
    match Get(f, AutoRefresh) case None => None case Some(v) => Some(Bool(v == Bool(true) || v == Str("true")))
  }

  function OpacityOf(e: Engine, f: Fields): Option<Json> {
    match ToNumber(e, Get(f, Opacity)) case None => None case Some(r) => Some(Num(Clamp(r)))
  }

  /** What one property of an accepted element becomes; None means the property is absent. */
  function NormalField(e: Engine, f: Fields, k: Key): Option<Json> {
    match k
    case Type => Some(Str(TypeOf(e, f)))
    case X => Some(IntOr(ToInt(e, Get(f, X)), Int(0)))
    case Y => Some(IntOr(ToInt(e, Get(f, Y)), Int(0)))
    case Width => Some(IntOr(ToInt(e, Get(f, Width)), Null))
    case Height => Some(IntOr(ToInt(e, Get(f, Height)), Null))
    case Text => TextOf(e, f)
    case Opacity => OpacityOf(e, f)
    case Columns => CountOf(e, f, Columns)
    case Rows => CountOf(e, f, Rows)
    case AutoRefresh => RefreshOf(f)
    case Other(name) => if name == PROTO then None else Get(f, k)
    case _ => Get(f, k)
  }

  /** Assigning an optional value to a property: undefined deletes it. */
  function SetOrDrop(f: Fields, k: Key, v: Option<Json>): Fields {
    match v case None => f - {k} case Some(j) => f[k := j]
  }

  function Placed(f: Fields, t: Json, x: Json, y: Json, w: Json, h: Json): Fields {
    f[Type := t][X := x][Y := y][Width := w][Height := h]
  }

  function Refined(f: Fields, t: Option<Json>, o: Option<Json>, c: Option<Json>, r: Option<Json>, a: Option<Json>): Fields {
    SetOrDrop(SetOrDrop(SetOrDrop(SetOrDrop(SetOrDrop(f, Text, t), Opacity, o), Columns, c), Rows, r), AutoRefresh, a)
  }

  lemma PlacedGet(f: Fields, t: Json, x: Json, y: Json, w: Json, h: Json, k: Key)
    ensures Get(Placed(f, t, x, y, w, h), k) ==
            match k
            case Type => Some(t)
            case X => Some(x)
            case Y => Some(y)
            case Width => Some(w)
            case Height => Some(h)
            case _ => Get(f, k)
  {}

  lemma SetOrDropGet(f: Fields, k: Key, v: Option<Json>, j: Key)
    ensures Get(SetOrDrop(f, k, v), j) == if j == k then v else Get(f, j)
  {}

  lemma RefinedGet(f: Fields, t: Option<Json>, o: Option<Json>, c: Option<Json>, r: Option<Json>, a: Option<Json>, k: Key)
    ensures Get(Refined(f, t, o, c, r, a), k) ==
            match k
            case Text => t
            case Opacity => o
            case Columns => c
            case Rows => r
            case AutoRefresh => a
            case _ => Get(f, k)
  {
    var f1 := SetOrDrop(f, Text, t);
    var f2 := SetOrDrop(f1, Opacity, o);
    var f3 := SetOrDrop(f2, Columns, c);
    var f4 := SetOrDrop(f3, Rows, r);
    SetOrDropGet(f, Text, t, k);
    SetOrDropGet(f1, Opacity, o, k);
    SetOrDropGet(f2, Columns, c, k);
    SetOrDropGet(f3, Rows, r, k);
    SetOrDropGet(f4, AutoRefresh, a, k);
  }

  function AcceptedFields(e: Engine, f: Fields): Fields {
    var placed := Placed(Copied(f), Str(TypeOf(e, f)), IntOr(ToInt(e, Get(f, X)), Int(0)), IntOr(ToInt(e, Get(f, Y)), Int(0)),
                         IntOr(ToInt(e, Get(f, Width)), Null), IntOr(ToInt(e, Get(f, Height)), Null));
    Refined(placed, TextOf(e, f), OpacityOf(e, f), CountOf(e, f, Columns), CountOf(e, f, Rows), RefreshOf(f))
  }

  /** normalizeElement; None is the source's null. */
  function NormalizeElement(e: Engine, raw: Json): Option<Fields> {
    if !raw.Obj? || TypeOf(e, raw.fields) == "" then None else Some(AcceptedFields(e, raw.fields))
  }

  /** The result, property by property. */
  lemma NormalizedGet(e: Engine, raw: Json, k: Key)
    requires NormalizeElement(e, raw).Some?
    ensures Get(NormalizeElement(e, raw).value, k) == NormalField(e, raw.fields, k)
  {
    var f := raw.fields;
    var t, x, y, w, h := Str(TypeOf(e, f)), IntOr(ToInt(e, Get(f, X)), Int(0)), IntOr(ToInt(e, Get(f, Y)), Int(0)),
                         IntOr(ToInt(e, Get(f, Width)), Null), IntOr(ToInt(e, Get(f, Height)), Null);
    CopiedGet(f, k);
    PlacedGet(Copied(f), t, x, y, w, h, k);
    RefinedGet(Placed(Copied(f), t, x, y, w, h), TextOf(e, f), OpacityOf(e, f), CountOf(e, f, Columns), CountOf(e, f, Rows), RefreshOf(f), k);
  }

  lemma SameFields(a: Fields, b: Fields)
    requires forall k :: Get(a, k) == Get(b, k)
    ensures a == b
  {
    forall k ensures k in a <==> k in b { assert Get(a, k) == Get(b, k); }
    forall k | k in a ensures a[k] == b[k] { assert Get(a, k) == Get(b, k); }
  }

  predicate IsIntOrNull(v: Option<Json>) { v == Some(Null) || (v.Some? && v.value.Num? && v.value == Int(Round(v.value.r))) }

  predicate NormalType(v: Option<Json>) {
    v.Some? && v.value.Str? && v.value.s != "" && v.value.s != "menu-element"
    && Bare(JsSpace, v.value.s) && Lower(v.value.s) == v.value.s
  }

  predicate IsInt(v: Option<Json>) { IsIntOrNull(v) && v != Some(Null) }

  /** What a property of an accepted element looks like. */
  predicate NormalValue(k: Key, v: Option<Json>) {
    match k
    case Type => NormalType(v)
    case X => IsInt(v)
    case Y => IsInt(v)
    case Width => IsIntOrNull(v)
    case Height => IsIntOrNull(v)
    case Text => v.None? || !(v.value.Num? || v.value.NonFinite? || v.value.Bool?)
    case Opacity => v.None? || (v.value.Num? && 0.0 <= v.value.r <= 1.0)
    case Columns => v.None? || IsInt(v)
    case Rows => v.None? || IsInt(v)
    case AutoRefresh => v.None? || v.value.Bool?
    case Other(name) => name == PROTO ==> v.None?
    case _ => true
  }

  /** The shape of an element the builder accepts as it stands. */
  ghost predicate Normal(f: Fields) { forall k :: NormalValue(k, Get(f, k)) }

  lemma LowerKeepsBare(s: string)
    requires Bare(JsSpace, s)
    ensures Bare(JsSpace, Lower(s))
  {}

  lemma TypeIsNormal(e: Engine, f: Fields)
    ensures var t := TypeOf(e, f); Bare(JsSpace, t) && Lower(t) == t && t != "menu-element"
  {
    if !Falsy(Get(f, Type)) {
      var t := Trim(JsSpace, JsString(e, f[Type]));
      TrimIsBare(JsSpace, JsString(e, f[Type]));
      LowerKeepsBare(t);
      LowerIdempotent(t);
    }
    assert Lower("menu") == "menu";
  }

  lemma ToIntIsInt(e: Engine, v: Option<Json>)
    ensures ToInt(e, v).Some? ==> IsIntOrNull(Some(Int(ToInt(e, v).value)))
  {
    if ToInt(e, v).Some? { RoundInt(ToInt(e, v).value); }
  }

  lemma NormalFieldIsNormal(e: Engine, f: Fields, k: Key)
    requires TypeOf(e, f) != ""
    ensures NormalValue(k, NormalField(e, f, k))
  {
    match k {
      case Type => TypeIsNormal(e, f);
      case Text =>
      case Opacity =>
      case AutoRefresh =>
      case Other(_) =>
      case _ =>
        RoundInt(0);
        ToIntIsInt(e, Get(f, k));
    }
  }

  lemma NormalizeYieldsNormal(e: Engine, raw: Json)
    requires NormalizeElement(e, raw).Some?
    ensures Normal(NormalizeElement(e, raw).value)
  {
    forall k ensures NormalValue(k, Get(NormalizeElement(e, raw).value, k)) {
      NormalizedGet(e, raw, k);
      NormalFieldIsNormal(e, raw.fields, k);
    }
  }

  /** On a normal element every property is already what it would become. */
  lemma NormalFieldFixed(e: Engine, f: Fields, k: Key)
    requires NormalValue(k, Get(f, k))
    ensures NormalField(e, f, k) == Get(f, k)
  {
    if k == Type { TrimIsBare(JsSpace, f[Type].s); }
  }

  /** Accepting again what was accepted once changes nothing: normal elements are exactly the fixed points. */
  lemma NormalIffFixed(e: Engine, f: Fields)
    ensures Normal(f) <==> NormalizeElement(e, Obj(f)) == Some(f)
  {
    if Normal(f) {
      assert NormalValue(Type, Get(f, Type));
      NormalFieldFixed(e, f, Type);
      var n := NormalizeElement(e, Obj(f)).value;
      forall k ensures Get(n, k) == Get(f, k) {
        NormalizedGet(e, Obj(f), k);
        NormalFieldFixed(e, f, k);
      }
      SameFields(n, f);
    } else if NormalizeElement(e, Obj(f)) == Some(f) {
      NormalizeYieldsNormal(e, Obj(f));
    }
  }

  /** Everything the builder does not interpret comes through untouched, but for __proto__, which is lost. */
  lemma NormalizeKeepsTheRest(e: Engine, raw: Json, k: Key)
    requires NormalizeElement(e, raw).Some?
    requires k !in {Type, X, Y, Width, Height, Text, Opacity, Columns, Rows, AutoRefresh}
    ensures Get(NormalizeElement(e, raw).value, k) == if k == Other(PROTO) then None else Get(raw.fields, k)
  {
    NormalizedGet(e, raw, k);
  }

  // ----- what the importer makes of a property -----

  /** A number is rounded to the nearest integer, halves upwards. */
  lemma RoundedNumber(e: Engine, r: real, n: int)
    requires n as real - 0.5 <= r < n as real + 0.5
    ensures ToInt(e, Some(Num(r))) == Some(n)
  {}

  lemma StripUnit(t: string, unit: string)
    requires unit in ["px", "pX", "Px", "PX"]
    ensures StripPx(t + unit) == t
  {
    assert (t + unit)[..|t + unit| - 2] == t;
  }

  lemma UnitOf(t: string)
    requires |t| >= 2
    ensures StripPx(t) != t <==> Lower(t[|t| - 2..]) == "px"
  {
    var u := t[|t| - 2..];
    assert LowerChar(u[0]) == 'p' <==> u[0] in "pP";
    assert LowerChar(u[1]) == 'x' <==> u[1] in "xX";
    assert |StripPx(t)| == |t| <==> StripPx(t) == t;
  }

  /** A text is read without the white space around it and without a unit of pixels. */
  lemma NumericText(e: Engine, a: string, t: string, unit: string, b: string)
    requires forall i :: 0 <= i < |a| ==> JsSpace(a[i])
    requires forall i :: 0 <= i < |b| ==> JsSpace(b[i])
    requires t != "" && Bare(JsSpace, t + unit)
    requires unit in ["px", "pX", "Px", "PX"] || (unit == "" && (|t| < 2 || Lower(t[|t| - 2..]) != "px"))
    ensures ToInt(e, Some(Str(a + (t + unit) + b)))
            == match e.number(t) case None => None case Some(r) => Some((r + 0.5).Floor)
  {
    TrimStrips(JsSpace, a, t + unit, b);
    if unit == "" {
      assert t + unit == t;
      if |t| >= 2 { UnitOf(t); }
    } else {
      StripUnit(t, unit);
    }
  }

  /** What is left out, null, empty or not finite is no number. */
  lemma NoNumber(e: Engine, v: Option<Json>)
    requires v in [None, Some(Null), Some(Str("")), Some(NonFinite)]
    ensures ToInt(e, v) == None && ToNumber(e, v) == None
  {}

  /** Places, sizes and grid counts are the integers they read as; else 0, null or left out. */
  lemma NumberReads(e: Engine, raw: Json, g: Fields, k: Key, n: int)
    requires NormalizeElement(e, raw) == Some(g)
    requires k.X? || k.Y? || k.Width? || k.Height? || k.Columns? || k.Rows?
    ensures ToInt(e, Get(raw.fields, k)) == Some(n) ==> Get(g, k) == Some(Num(n as real))
    ensures ToInt(e, Get(raw.fields, k)) == None ==>
              Get(g, k) == if k.X? || k.Y? then Some(Num(0.0)) else if k.Width? || k.Height? then Some(Null) else None
  {
    NormalizedGet(e, raw, k);
  }

  /** An opacity is moved into 0..1, and left out when it is no number. */
  lemma OpacityReads(e: Engine, raw: Json, g: Fields, r: real)
    requires NormalizeElement(e, raw) == Some(g)
    ensures ToNumber(e, Get(raw.fields, Opacity)) == Some(r) ==>
              Get(g, Opacity) == Some(Num(if 0.0 <= r <= 1.0 then r else if r < 0.0 then 0.0 else 1.0))
    ensures ToNumber(e, Get(raw.fields, Opacity)) == None ==> Get(g, Opacity) == None
  {
    NormalizedGet(e, raw, Opacity);
  }

  /** A text that was a number or a boolean becomes its spelling; autoRefresh is on only for true, in either form. */
  lemma TextReads(e: Engine, raw: Json, g: Fields, v: Json)
    requires NormalizeElement(e, raw) == Some(g)
    ensures Get(raw.fields, Text) == Some(v) ==>
              Get(g, Text) == Some(if v.Num? || v.NonFinite? || v.Bool? then Str(e.text(v)) else v)
    ensures Get(raw.fields, AutoRefresh) == Some(v) ==>
              Get(g, AutoRefresh) == Some(Bool(v == Bool(true) || v == Str("true")))
    ensures Get(raw.fields, Text) == None ==> Get(g, Text) == None
    ensures Get(raw.fields, AutoRefresh) == None ==> Get(g, AutoRefresh) == None
  {
    NormalizedGet(e, raw, Text);
    NormalizedGet(e, raw, AutoRefresh);
  }

  /** The type is trimmed and in lower case, with one name for a menu. */
  lemma TypeReads(e: Engine, raw: Json, g: Fields, s: string)
    requires NormalizeElement(e, raw) == Some(g) && Get(raw.fields, Type) == Some(Str(s))
    ensures var t := Lower(Trim(JsSpace, s)); Get(g, Type) == Some(Str(if t == "menu-element" then "menu" else t))
  {
    NormalizedGet(e, raw, Type);
  }

  /** Exactly what is a record with a type is an element. */
  lemma ElementIff(e: Engine, raw: Json)
    ensures NormalizeElement(e, raw).Some?
            <==> raw.Obj? && !Falsy(Get(raw.fields, Type)) && Trim(JsSpace, JsString(e, raw.fields[Type])) != ""
  {}

  // ----- one scene name -----

  function Numbered(base: string, index: nat): string { base + " (" + Decimal(index) + ")" }

  lemma NumberedInjective(base: string, i: nat, j: nat)
    requires Numbered(base, i) == Numbered(base, j)
    ensures i == j
  {
    var a, b := Numbered(base, i), Numbered(base, j);
    assert Decimal(i) == a[|base| + 2..|a| - 1] && Decimal(j) == b[|base| + 2..|b| - 1];
    DecimalInjective(i, j);
  }

  ghost function Tried(base: string, index: nat): set<string> { set k | 2 <= k < index :: Numbered(base, k) }

  /** One more taken name has been ruled out, so the search cannot go on for ever. */
  lemma TriedGrows(base: string, index: nat)
    requires index >= 2
    ensures Numbered(base, index) !in Tried(base, index)
    ensures Tried(base, index + 1) == Tried(base, index) + {Numbered(base, index)}
  {
    if Numbered(base, index) in Tried(base, index) {
      var k :| 2 <= k < index && Numbered(base, k) == Numbered(base, index);
      NumberedInjective(base, k, index);
    }
  }

  function FirstFree(base: string, taken: set<string>, index: nat): (r: nat)
    requires index >= 2
    ensures r >= index && Numbered(base, r) !in taken
    ensures forall k :: index <= k < r ==> Numbered(base, k) in taken
    decreases taken - Tried(base, index)
  {
    TriedGrows(base, index);
    if Numbered(base, index) in taken then FirstFree(base, taken, index + 1) else index
  }

  function BaseOf(name: string): string { if Trim(JsSpace, name) == "" then "Scene" else Trim(JsSpace, name) }

  function UniqueName(name: string, taken: set<string>): string {
    var base := BaseOf(name);
    if base !in taken then base else Numbered(base, FirstFree(base, taken, 2))
  }

  /** A name is free, trimmed and not empty; a usable name that is free is kept. */
  lemma UniqueNameIsFree(name: string, taken: set<string>)
    ensures var u := UniqueName(name, taken); u !in taken && u != "" && Bare(JsSpace, u)
    ensures Bare(JsSpace, name) && name != "" && name !in taken ==> UniqueName(name, taken) == name
  {
    TrimIsBare(JsSpace, name);
    var base := BaseOf(name);
    assert base != "" && Bare(JsSpace, base);
    if base in taken {
      var u := UniqueName(name, taken);
      assert u[0] == base[0] && u[|u| - 1] == ')';
    }
  }

  /** A name that is taken gets the first number from 2 on that is free; an empty one is called Scene. */
  lemma UniqueNameIs(name: string, taken: set<string>) returns (n: nat)
    ensures var base := if Trim(JsSpace, name) == "" then "Scene" else Trim(JsSpace, name);
            && n >= 1 && UniqueName(name, taken) == (if n == 1 then base else base + " (" + Decimal(n) + ")")
            && (n > 1 ==> base in taken) && (forall k: nat :: 2 <= k < n ==> base + " (" + Decimal(k) + ")" in taken)
            && UniqueName(name, taken) !in taken
  {
    var base := BaseOf(name);
    if base !in taken {
      n := 1;
    } else {
      n := FirstFree(base, taken, 2);
      forall k: nat | 2 <= k < n ensures base + " (" + Decimal(k) + ")" in taken { assert Numbered(base, k) in taken; }
    }
  }

  /** uniqueSceneName's loop; it ends because the taken names are finite and decimal suffixes differ. */
  method UniqueSceneName(name: string, taken: set<string>) returns (r: string)
    ensures r == UniqueName(name, taken) && r !in taken
  {
    UniqueNameIsFree(name, taken);
    var base := BaseOf(name);
    if base !in taken { return base; }
    var index := 2;
    while Numbered(base, index) in taken
      invariant index >= 2
      invariant FirstFree(base, taken, index) == FirstFree(base, taken, 2)
      decreases taken - Tried(base, index)
    {
      TriedGrows(base, index);
      index := index + 1;
    }
    return Numbered(base, index);
  }

  // ----- one list of elements -----

  /** An entry of an element list after normalising it; None was not an element. */
  type Entry = Option<Fields>

  function Entries(e: Engine, items: seq<Json>): (r: seq<Entry>)
    ensures |r| == |items|
  {
    seq(|items|, i requires 0 <= i < |items| => NormalizeElement(e, items[i]))
  }

  function Survivors(entries: seq<Entry>): seq<Json> {
    if entries == [] then []
    else
      var last := entries[|entries| - 1];
      Survivors(entries[..|entries| - 1]) + if last.Some? then [Obj(last.value)] else []
  }

  function Kept(e: Engine, items: seq<Json>): seq<Json> { Survivors(Entries(e, items)) }

  /** A property that is there but could not be a number. */
  function Repair(e: Engine, f: Fields, k: Key): nat {
    if Get(f, k).None? || f[k] == Null || f[k] == Str("") || ToInt(e, Get(f, k)).Some? then 0 else 1
  }

  function Repairs(e: Engine, f: Fields): nat {
    Repair(e, f, X) + Repair(e, f, Y) + Repair(e, f, Width) + Repair(e, f, Height) + Repair(e, f, Columns) + Repair(e, f, Rows)
  }

  /** The repairs one list entry counts for; an entry that is dropped counts none. */
  function EntryRepairs(e: Engine, item: Json): nat {
    if NormalizeElement(e, item).Some? then Repairs(e, item.fields) else 0
  }

  function Total(counts: seq<nat>): nat {
    if counts == [] then 0 else Total(counts[..|counts| - 1]) + counts[|counts| - 1]
  }

  function Fixed(e: Engine, items: seq<Json>): nat {
    Total(seq(|items|, i requires 0 <= i < |items| => EntryRepairs(e, items[i])))
  }

  lemma RepairWithout(e: Engine, f: Fields, k: Key, j: Key)
    ensures Repair(e, f - {k}, j) == if j == k then 0 else Repair(e, f, j)
    ensures Repair(e, f, k) == if k in f && ToInt(e, Some(f[k])) == None && f[k] != Null && f[k] != Str("") then 1 else 0
  {}

  /** Each of the six numbers that is there and is none counts one repair; nothing else counts. */
  lemma RepairsCount(e: Engine, f: Fields, k: Key)
    ensures Repairs(e, map[]) == 0
    ensures Repairs(e, f - {k}) == Repairs(e, f) -
              if k in [X, Y, Width, Height, Columns, Rows] && k in f && ToInt(e, Some(f[k])) == None
                 && f[k] != Null && f[k] != Str("") then 1 else 0
  {
    RepairWithout(e, f, k, X);
    RepairWithout(e, f, k, Y);
    RepairWithout(e, f, k, Width);
    RepairWithout(e, f, k, Height);
    RepairWithout(e, f, k, Columns);
    RepairWithout(e, f, k, Rows);
  }

  lemma KeptSnoc(e: Engine, items: seq<Json>, item: Json)
    ensures Kept(e, items + [item]) ==
            Kept(e, items) + if NormalizeElement(e, item).Some? then [Obj(NormalizeElement(e, item).value)] else []
  {
    var entries := Entries(e, items + [item]);
    assert entries[..|items|] == Entries(e, items);
  }

  lemma FixedSnoc(e: Engine, items: seq<Json>, item: Json)
    ensures Fixed(e, []) == 0
    ensures Fixed(e, items + [item]) == Fixed(e, items) + if NormalizeElement(e, item).Some? then Repairs(e, item.fields) else 0
  {
    var all := items + [item];
    var counts := seq(|all|, i requires 0 <= i < |all| => EntryRepairs(e, all[i]));
    assert counts[..|items|] == seq(|items|, i requires 0 <= i < |items| => EntryRepairs(e, items[i]));
  }

  method NormalizeElements(e: Engine, items: seq<Json>) returns (elements: seq<Json>, skipped: nat, repaired: nat)
    ensures elements == Kept(e, items) && repaired == Fixed(e, items)
    ensures |elements| + skipped == |items|
  {
    elements, skipped, repaired := [], 0, 0;
    var i := 0;
    while i < |items|
      invariant 0 <= i <= |items|
      invariant elements == Kept(e, items[..i]) && repaired == Fixed(e, items[..i])
      invariant |elements| + skipped == i
    {
      KeptSnoc(e, items[..i], items[i]);
      FixedSnoc(e, items[..i], items[i]);
      assert items[..i + 1] == items[..i] + [items[i]];
      var n := NormalizeElement(e, items[i]);
      if n.None? {
        skipped := skipped + 1;
      } else {
        repaired := repaired + Repairs(e, items[i].fields);
        elements := elements + [Obj(n.value)];
      }
      i := i + 1;
    }
    assert items[..i] == items;
  }

  lemma {:induction false} SurvivorsAre(entries: seq<Entry>)
    requires forall i :: 0 <= i < |entries| && entries[i].Some? ==> Normal(entries[i].value)
    ensures |Survivors(entries)| <= |entries|
    ensures AllNormal(Survivors(entries))
  {
    if entries != [] {
      SurvivorsAre(entries[..|entries| - 1]);
    }
  }

  lemma KeptIsNormal(e: Engine, items: seq<Json>)
    ensures |Kept(e, items)| <= |items|
    ensures AllNormal(Kept(e, items))
  {
    var entries := Entries(e, items);
    forall i | 0 <= i < |entries| && entries[i].Some? ensures Normal(entries[i].value) {
      NormalizeYieldsNormal(e, items[i]);
    }
    SurvivorsAre(entries);
  }

  lemma NormalNeedsNoRepair(e: Engine, f: Fields)
    requires Normal(f)
    ensures Repairs(e, f) == 0
  {
    forall k | k in {X, Y, Width, Height, Columns, Rows} ensures Repair(e, f, k) == 0 {
      assert NormalValue(k, Get(f, k));
    }
  }

  lemma NormalStays(e: Engine, element: Json)
    requires element.Obj? && Normal(element.fields)
    ensures NormalizeElement(e, element) == Some(element.fields) && Repairs(e, element.fields) == 0
  {
    NormalIffFixed(e, element.fields);
    NormalNeedsNoRepair(e, element.fields);
  }

  lemma {:induction false} AllSurvive(items: seq<Json>, entries: seq<Entry>)
    requires |entries| == |items|
    requires forall i :: 0 <= i < |items| ==> items[i].Obj? && entries[i] == Some(items[i].fields)
    ensures Survivors(entries) == items
  {
    if items != [] {
      AllSurvive(items[..|items| - 1], entries[..|items| - 1]);
    }
  }

  lemma {:induction false} NothingAddsUp(counts: seq<nat>)
    requires forall i :: 0 <= i < |counts| ==> counts[i] == 0
    ensures Total(counts) == 0
  {
    if counts != [] { NothingAddsUp(counts[..|counts| - 1]); }
  }

  lemma EntriesAgain(e: Engine, items: seq<Json>)
    requires AllNormal(items)
    ensures Survivors(Entries(e, items)) == items
  {
    var entries := Entries(e, items);
    forall i | 0 <= i < |items| ensures items[i].Obj? && entries[i] == Some(items[i].fields) {
      NormalStays(e, items[i]);
    }
    AllSurvive(items, entries);
  }

  lemma RepairsAgain(e: Engine, items: seq<Json>)
    requires AllNormal(items)
    ensures Fixed(e, items) == 0
  {
    forall i | 0 <= i < |items| ensures EntryRepairs(e, items[i]) == 0 {
      NormalStays(e, items[i]);
    }
    NothingAddsUp(seq(|items|, i requires 0 <= i < |items| => EntryRepairs(e, items[i])));
  }

  /** A second pass over kept elements keeps them all as they are and repairs nothing. */
  lemma KeptAgain(e: Engine, items: seq<Json>)
    requires AllNormal(items)
    ensures Kept(e, items) == items && Fixed(e, items) == 0
  {
    EntriesAgain(e, items);
    RepairsAgain(e, items);
  }

  // ----- the scenes -----

  datatype Report = Report(
    scenes: nat, elements: nat, skippedElements: nat,
    renamed: seq<(string, string)>, fixedFields: nat, warnings: seq<nat>)

  datatype Work = Work(report: Report, taken: set<string>, scenes: seq<Json>)

  const NOTHING := Work(Report(0, 0, 0, [], 0, []), {}, [])

  /** The own enumerable properties of a value that typeof calls an object. */
  function SceneFields(scene: Json): Option<Fields> {
    match scene
    case Obj(f) => Some(f)
    case Arr(items) => Some(IndexFields(items))
    case _ => None
  }

  function Requested(f: Fields): string {
    match Get(f, SceneName) case Some(Str(s)) => Trim(JsSpace, s) case _ => ""
  }

  function ElementsOf(f: Fields): seq<Json> {
    match Get(f, Elements) case Some(Arr(items)) => items case _ => []
  }

  function NameFor(f: Fields, index: nat, taken: set<string>): string {
    UniqueName(if Requested(f) != "" then Requested(f) else "Scene " + Decimal(index + 1), taken)
  }

  /** One entry of the scene list after its elements were read; Skipped is not an object. */
  datatype Scene = Skipped | Read(fields: Fields, elements: seq<Json>, dropped: nat, repairs: nat)

  function ReadScene(e: Engine, raw: Json): Scene {
    match SceneFields(raw)
    case None => Skipped
    case Some(f) =>
      var items := ElementsOf(f);
      var kept := Kept(e, items);
      Read(f, kept, if |items| >= |kept| then |items| - |kept| else 0, Fixed(e, items))
  }

  function ReadScenes(e: Engine, input: seq<Json>): seq<Scene> {
    if input == [] then [] else ReadScenes(e, input[..|input| - 1]) + [ReadScene(e, input[|input| - 1])]
  }

  function BuiltScene(f: Fields, name: string, elements: seq<Json>): Json {
    Obj(Copied(f)[SceneName := Str(name)][Elements := Arr(elements)])
  }

  /** One turn of the loop over the scenes. */
  function AddScene(w: Work, scene: Scene, index: nat): Work {
    match scene
    case Skipped => w.(report := w.report.(warnings := w.report.warnings + [index]))
    case Read(f, elements, dropped, repairs) =>
      var name := NameFor(f, index, w.taken);
      var r := w.report;
      Work(Report(r.scenes + 1, r.elements + |elements|, r.skippedElements + dropped,
                  r.renamed + (if Requested(f) != "" && name != Requested(f) then [(Requested(f), name)] else []),
                  r.fixedFields + repairs, r.warnings),
           w.taken + {name},
           w.scenes + [BuiltScene(f, name, elements)])
  }

  function AddScenes(input: seq<Scene>): Work {
    if input == [] then NOTHING
    else AddScene(AddScenes(input[..|input| - 1]), input[|input| - 1], |input| - 1)
  }

  // ----- the config -----

  datatype Error = NotAConfig | NoScenes | ScenesNotAList | NoUsableScenes
  datatype Outcome = Refused(error: Error) | Accepted(config: Fields, report: Report)

  function SourceOf(raw: Fields): Fields {
    if IsRecord(Get(raw, JukaConfig)) then raw[JukaConfig].fields else raw
  }

  /** A map of scenes is read in the order its keys are enumerated. */
  function FromEntries(f: Fields, names: seq<Key>, e: Engine): seq<Json> {
    if names == [] then []
    else
      var k := names[|names| - 1];
      var scene := if k in f && SceneFields(f[k]).Some? then SceneFields(f[k]).value else map[];
      FromEntries(f, names[..|names| - 1], e) + [Obj(Copied(scene)[SceneName := Str(e.keyText(k))])]
  }

  function Coalesce(f: Fields, first: Key, second: Key, third: Key): Option<Json> {
    if Get(f, first).Some? && f[first] != Null then Get(f, first)
    else if Get(f, second).Some? && f[second] != Null then Get(f, second)
    else Get(f, third)
  }

  function Size(e: Engine, v: Option<Json>, fallback: int): Json {
    match ToInt(e, v) case Some(n) => (if n > 0 then Int(n) else Int(fallback)) case None => Int(fallback)
  }

  /** The variables are copied through JSON text. */
  function VariablesOf(source: Fields): Json {
    if IsRecord(Get(source, Variables)) then Saved(source[Variables]) else Obj(map[])
  }

  function Overlaid(f: Fields, scenes: Json, variables: Json, width: Json, height: Json): Fields {
    f[Scenes := scenes][Variables := variables][TopWidth := width][TopHeight := height]
  }

  function Assembled(e: Engine, source: Fields, scenes: seq<Json>): Fields {
    Overlaid(Copied(source), Arr(scenes), VariablesOf(source),
             Size(e, Coalesce(source, TopWidth, Width, CanvasWidth), 1280),
             Size(e, Coalesce(source, TopHeight, Height, CanvasHeight), 720))
  }

  /** The list of scenes a source offers, or why there is none. */
  datatype Offer = NoOffer(error: Error) | Offer(scenes: seq<Json>)

  function OfferOf(e: Engine, source: Fields, order: seq<Key>): Offer {
    if Falsy(Get(source, Scenes)) then NoOffer(NoScenes)
    else match source[Scenes]
      case Arr(items) => Offer(items)
      case Obj(f) => Offer(FromEntries(f, order, e))
      case _ => NoOffer(ScenesNotAList)
  }

  /** normalizeImportedConfig; `order` is how the engine enumerates a scenes object, unused for a list. */
  function Normalized(e: Engine, raw: Json, order: seq<Key>): Outcome {
    if !raw.Obj? then Refused(NotAConfig)
    else
      var source := SourceOf(raw.fields);
      match OfferOf(e, source, order)
      case NoOffer(error) => Refused(error)
      case Offer(input) =>
        var w := AddScenes(ReadScenes(e, input));
        if w.scenes == [] then Refused(NoUsableScenes)
        else Accepted(Assembled(e, source, w.scenes), w.report)
  }

  // ----- what it guarantees -----

  function InputElements(input: seq<Json>): nat {
    if input == [] then 0
    else
      var f := SceneFields(input[|input| - 1]);
      InputElements(input[..|input| - 1]) + if f.Some? then |ElementsOf(f.value)| else 0
  }

  /** The same count after reading. */
  function ReadElements(input: seq<Scene>): nat {
    if input == [] then 0
    else
      var s := input[|input| - 1];
      ReadElements(input[..|input| - 1]) + if s.Read? then |s.elements| + s.dropped else 0
  }

  lemma {:induction false} ReadingAccounts(e: Engine, input: seq<Json>)
    ensures |ReadScenes(e, input)| == |input| && ReadElements(ReadScenes(e, input)) == InputElements(input)
    ensures forall i :: 0 <= i < |input| ==> SceneRead(ReadScenes(e, input)[i])
  {
    if input != [] {
      var front, last := input[..|input| - 1], input[|input| - 1];
      ReadingAccounts(e, front);
      var read := ReadScenes(e, front);
      assert (read + [ReadScene(e, last)])[..|read|] == read;
      if SceneFields(last).Some? { KeptIsNormal(e, ElementsOf(SceneFields(last).value)); }
    }
  }

  ghost predicate SceneRead(s: Scene) { s.Read? ==> AllNormal(s.elements) }

  function ElementCount(scenes: seq<Json>): nat {
    if scenes == [] then 0
    else
      var s := scenes[|scenes| - 1];
      ElementCount(scenes[..|scenes| - 1]) + if s.Obj? then |ElementsOf(s.fields)| else 0
  }

  ghost predicate AllNormal(items: seq<Json>) {
    forall i :: 0 <= i < |items| ==> items[i].Obj? && Normal(items[i].fields)
  }

  ghost predicate SceneOk(s: Json) {
    && s.Obj? && Other(PROTO) !in s.fields && SceneName in s.fields && s.fields[SceneName].Str?
    && s.fields[SceneName].s != "" && Bare(JsSpace, s.fields[SceneName].s)
    && Elements in s.fields && s.fields[Elements].Arr? && AllNormal(s.fields[Elements].items)
  }

  function NameOf(s: Json): string {
    if s.Obj? && SceneName in s.fields && s.fields[SceneName].Str? then s.fields[SceneName].s else ""
  }

  function NamesIn(scenes: seq<Json>): set<string> {
    if scenes == [] then {} else NamesIn(scenes[..|scenes| - 1]) + {NameOf(scenes[|scenes| - 1])}
  }

  /** Every scene is well-formed and no name is used twice. */
  ghost predicate ScenesOk(scenes: seq<Json>) {
    scenes == [] ||
    var front, last := scenes[..|scenes| - 1], scenes[|scenes| - 1];
    ScenesOk(front) && SceneOk(last) && NameOf(last) !in NamesIn(front)
  }

  lemma {:induction false} NamesInHas(scenes: seq<Json>, i: nat)
    requires i < |scenes|
    ensures NameOf(scenes[i]) in NamesIn(scenes)
  {
    if i < |scenes| - 1 { NamesInHas(scenes[..|scenes| - 1], i); }
  }

  lemma {:induction false} ScenesOkMeans(scenes: seq<Json>)
    requires ScenesOk(scenes)
    ensures forall i :: 0 <= i < |scenes| ==> SceneOk(scenes[i])
    ensures forall i, j :: 0 <= i < j < |scenes| ==> NameOf(scenes[i]) != NameOf(scenes[j])
  {
    if scenes != [] {
      var n := |scenes| - 1;
      var front := scenes[..n];
      ScenesOkMeans(front);
      forall i | 0 <= i < n ensures NameOf(scenes[i]) != NameOf(scenes[n]) && SceneOk(scenes[i]) {
        NamesInHas(front, i);
        assert front[i] == scenes[i];
      }
      forall i, j | 0 <= i < j < n ensures NameOf(scenes[i]) != NameOf(scenes[j]) {
        assert front[i] == scenes[i] && front[j] == scenes[j];
      }
    }
  }

  ghost predicate WorkOk(w: Work, input: seq<Scene>) {
    && ScenesOk(w.scenes) && w.taken == NamesIn(w.scenes)
    && w.report.scenes == |w.scenes| && w.report.scenes + |w.report.warnings| == |input|
    && w.report.elements == ElementCount(w.scenes)
    && w.report.elements + w.report.skippedElements == ReadElements(input)
  }

  lemma BuiltSceneOk(f: Fields, name: string, elements: seq<Json>)
    requires name != "" && Bare(JsSpace, name) && AllNormal(elements)
    ensures var s := BuiltScene(f, name, elements);
            SceneOk(s) && NameOf(s) == name && ElementsOf(s.fields) == elements
  {}

  lemma NameForIsFree(f: Fields, index: nat, taken: set<string>)
    ensures var name := NameFor(f, index, taken); name !in taken && name != "" && Bare(JsSpace, name)
  {
    UniqueNameIsFree(if Requested(f) != "" then Requested(f) else "Scene " + Decimal(index + 1), taken);
  }

  lemma ScenesSnoc(scenes: seq<Json>, s: Json)
    requires ScenesOk(scenes) && SceneOk(s) && NameOf(s) !in NamesIn(scenes)
    ensures ScenesOk(scenes + [s]) && NamesIn(scenes + [s]) == NamesIn(scenes) + {NameOf(s)}
    ensures ElementCount(scenes + [s]) == ElementCount(scenes) + |ElementsOf(s.fields)|
  {
    assert (scenes + [s])[..|scenes|] == scenes;
  }

  lemma AddSceneOk(w: Work, input: seq<Scene>, scene: Scene)
    requires WorkOk(w, input) && SceneRead(scene)
    ensures WorkOk(AddScene(w, scene, |input|), input + [scene])
  {
    assert (input + [scene])[..|input|] == input;
    if scene.Read? {
      var name := NameFor(scene.fields, |input|, w.taken);
      NameForIsFree(scene.fields, |input|, w.taken);
      BuiltSceneOk(scene.fields, name, scene.elements);
      ScenesSnoc(w.scenes, BuiltScene(scene.fields, name, scene.elements));
    }
  }

  lemma {:induction false} AddScenesOk(input: seq<Scene>)
    requires forall i :: 0 <= i < |input| ==> SceneRead(input[i])
    ensures WorkOk(AddScenes(input), input)
  {
    if input != [] {
      var front, last := input[..|input| - 1], input[|input| - 1];
      forall i | 0 <= i < |front| ensures SceneRead(front[i]) { assert front[i] == input[i]; }
      AddScenesOk(front);
      AddNextOk(front, last);
      assert front + [last] == input;
    }
  }

  lemma AddNextOk(input: seq<Scene>, scene: Scene)
    requires WorkOk(AddScenes(input), input) && SceneRead(scene)
    ensures WorkOk(AddScenes(input + [scene]), input + [scene])
  {
    AddSceneOk(AddScenes(input), input, scene);
    AddScenesSnoc(input, scene);
  }

  /**
   An accepted config has at least one scene, pairwise distinct non-empty names, normal
   elements only, and a report that accounts for every scene and element of the input.
   */
  lemma AcceptedConfigIsOk(e: Engine, raw: Json, order: seq<Key>)
    requires Normalized(e, raw, order).Accepted?
    ensures var out := Normalized(e, raw, order);
            var input := OfferOf(e, SourceOf(raw.fields), order).scenes;
            && out.config[Scenes].Arr? && out.config[Scenes].items != [] && ScenesOk(out.config[Scenes].items)
            && out.report.scenes + |out.report.warnings| == |input|
            && out.report.elements == ElementCount(out.config[Scenes].items)
            && out.report.elements + out.report.skippedElements == InputElements(input)
  {
    var input := OfferOf(e, SourceOf(raw.fields), order).scenes;
    ReadingAccounts(e, input);
    AddScenesOk(ReadScenes(e, input));
  }

  // ----- what becomes of each scene -----

  predicate IsObject(j: Json) { j.Obj? || j.Arr? }

  /** The entries that are objects, by their place in the list. */
  function Usable(input: seq<Json>): (r: seq<nat>)
    ensures forall j :: 0 <= j < |r| ==> r[j] < |input| && IsObject(input[r[j]])
    ensures forall i, j :: 0 <= i < j < |r| ==> r[i] < r[j]
    ensures forall i: nat :: i < |input| && IsObject(input[i]) ==> i in r
  {
    if input == [] then []
    else
      var n := |input| - 1;
      assert input == input[..n] + [input[n]];
      Usable(input[..n]) + if IsObject(input[n]) then [n] else []
  }

  /** The scene an entry asks for: its own name trimmed, or its number. */
  function Wanted(f: Fields, i: nat): string {
    if Get(f, SceneName).Some? && f[SceneName].Str? && Trim(JsSpace, f[SceneName].s) != "" then Trim(JsSpace, f[SceneName].s)
    else "Scene " + Decimal(i + 1)
  }

  /** What the i-th entry becomes when the scenes before it are `before`. */
  ghost predicate ImportedScene(e: Engine, f: Fields, i: nat, before: seq<Json>, scene: Json) {
    && scene.Obj?
    && (forall k :: k !in {SceneName, Elements, Other(PROTO)} ==> Get(scene.fields, k) == Get(f, k))
    && Get(scene.fields, Other(PROTO)) == None
    && Get(scene.fields, Elements)
       == Some(Arr(Kept(e, if Get(f, Elements).Some? && f[Elements].Arr? then f[Elements].items else [])))
    && (exists n: nat :: n >= 1 && Get(scene.fields, SceneName) == Some(Str(NthName(Wanted(f, i), n)))
          && forall m: nat :: 1 <= m < n ==> NthName(Wanted(f, i), m) in NamesIn(before))
  }

  /** A name, or the same name with a number from 2 on. */
  function NthName(name: string, n: nat): string { if n <= 1 then name else name + " (" + Decimal(n) + ")" }

  lemma WantedIsBare(f: Fields, i: nat)
    ensures Wanted(f, i) == if Requested(f) != "" then Requested(f) else "Scene " + Decimal(i + 1)
    ensures Wanted(f, i) != "" && Bare(JsSpace, Wanted(f, i))
  {
    if Requested(f) != "" {
      TrimIsBare(JsSpace, f[SceneName].s);
    } else {
      var s := "Scene " + Decimal(i + 1);
      assert s[0] == 'S' && s[|s| - 1] == Decimal(i + 1)[|Decimal(i + 1)| - 1];
    }
  }

  lemma SceneGet(f: Fields, name: string, elements: seq<Json>, k: Key)
    ensures var s := BuiltScene(f, name, elements).fields;
            Get(s, k) == if k == SceneName then Some(Str(name)) else if k == Elements then Some(Arr(elements))
                         else if k == Other(PROTO) then None else Get(f, k)
  {}

  lemma NameGiven(f: Fields, i: nat, taken: set<string>) returns (n: nat)
    ensures n >= 1 && NameFor(f, i, taken) == NthName(Wanted(f, i), n)
    ensures forall m: nat :: 1 <= m < n ==> NthName(Wanted(f, i), m) in taken
  {
    WantedIsBare(f, i);
    TrimIsBare(JsSpace, Wanted(f, i));
    n := UniqueNameIs(Wanted(f, i), taken);
  }

  lemma NextScene(e: Engine, f: Fields, i: nat, before: seq<Json>)
    ensures ImportedScene(e, f, i, before, BuiltScene(f, NameFor(f, i, NamesIn(before)), Kept(e, ElementsOf(f))))
  {
    var name := NameFor(f, i, NamesIn(before));
    forall k { SceneGet(f, name, Kept(e, ElementsOf(f)), k); }
    var n := NameGiven(f, i, NamesIn(before));
  }

  function Imported(e: Engine, input: seq<Json>): Work { AddScenes(ReadScenes(e, input)) }

  lemma ImportedNext(e: Engine, front: seq<Json>, last: Json)
    ensures var w, t := Imported(e, front), Imported(e, front + [last]);
            t.scenes == w.scenes + if IsObject(last) then
              [BuiltScene(SceneFields(last).value, NameFor(SceneFields(last).value, |front|, NamesIn(w.scenes)),
                          Kept(e, ElementsOf(SceneFields(last).value)))] else []
  {
    ReadingAccounts(e, front);
    AddScenesOk(ReadScenes(e, front));
    ImportedStep(e, front, last);
  }

  lemma UsableNext(front: seq<Json>, last: Json)
    ensures Usable(front + [last]) == Usable(front) + if IsObject(last) then [|front|] else []
  {
    assert (front + [last])[..|front|] == front;
  }

  /** The j-th scene is what the j-th object of the list becomes. */
  ghost predicate SceneAt(e: Engine, input: seq<Json>, scenes: seq<Json>, j: nat)
    requires j < |scenes| && j < |Usable(input)|
  {
    var i := Usable(input)[j];
    ImportedScene(e, SceneFields(input[i]).value, i, scenes[..j], scenes[j])
  }

  lemma SceneStays(e: Engine, front: seq<Json>, last: Json, scenes: seq<Json>, more: seq<Json>, j: nat)
    requires j < |scenes| && j < |Usable(front)| && SceneAt(e, front, scenes, j)
    requires j < |Usable(front + [last])| && Usable(front + [last])[j] == Usable(front)[j]
    ensures SceneAt(e, front + [last], scenes + more, j)
  {
    assert (scenes + more)[..j] == scenes[..j];
    assert (front + [last])[Usable(front)[j]] == front[Usable(front)[j]];
  }

  lemma SceneAdded(e: Engine, front: seq<Json>, last: Json, scenes: seq<Json>, scene: Json)
    requires IsObject(last) && |scenes| == |Usable(front)|
    requires ImportedScene(e, SceneFields(last).value, |front|, scenes, scene)
    ensures |Usable(front + [last])| == |scenes| + 1 && SceneAt(e, front + [last], scenes + [scene], |scenes|)
  {
    UsableNext(front, last);
    assert (scenes + [scene])[..|scenes|] == scenes;
  }

  /** Every entry that is an object becomes one scene, in order, and nothing else does. */
  lemma {:induction false} ScenesAre(e: Engine, input: seq<Json>, j: nat)
    ensures |Imported(e, input).scenes| == |Usable(input)|
    ensures j < |Usable(input)| ==> SceneAt(e, input, Imported(e, input).scenes, j)
  {
    if input != [] {
      var front, last := input[..|input| - 1], input[|input| - 1];
      var scenes := Imported(e, front).scenes;
      assert input == front + [last];
      ScenesAre(e, front, j);
      ImportedNext(e, front, last);
      UsableNext(front, last);
      if j < |scenes| {
        SceneStays(e, front, last, scenes, Imported(e, input).scenes[|scenes|..], j);
        assert Imported(e, input).scenes == scenes + Imported(e, input).scenes[|scenes|..];
      } else if IsObject(last) {
        NextScene(e, SceneFields(last).value, |front|, scenes);
        SceneAdded(e, front, last, scenes, Imported(e, input).scenes[|scenes|]);
        assert Imported(e, input).scenes == scenes + [Imported(e, input).scenes[|scenes|]];
      }
    }
  }

  /** What one more entry adds to the report: a warning, or a count of its elements and its repairs. */
  lemma ReportGrows(e: Engine, front: seq<Json>, last: Json)
    ensures Imported(e, []).report == Report(0, 0, 0, [], 0, [])
    ensures var r, t := Imported(e, front).report, Imported(e, front + [last]).report;
            if !IsObject(last) then t == r.(warnings := r.warnings + [|front|])
            else
              var items := ElementsOf(SceneFields(last).value);
              && t.warnings == r.warnings && t.scenes == r.scenes + 1 && t.elements == r.elements + |Kept(e, items)|
              && t.skippedElements == r.skippedElements + (|items| - |Kept(e, items)|)
              && t.fixedFields == r.fixedFields + Fixed(e, items)
  {
    ImportedStep(e, front, last);
    if IsObject(last) { KeptIsNormal(e, ElementsOf(SceneFields(last).value)); }
  }

  /** A rename is reported exactly when a scene that had a name got another one. */
  lemma RenamesGrow(e: Engine, front: seq<Json>, last: Json)
    requires IsObject(last)
    ensures var w, t, f := Imported(e, front), Imported(e, front + [last]), SceneFields(last).value;
            && |t.scenes| > 0
            && var given := NameOf(t.scenes[|t.scenes| - 1]);
               var asked := Get(f, SceneName).Some? && f[SceneName].Str? && Trim(JsSpace, f[SceneName].s) != "";
               t.report.renamed == w.report.renamed +
                 if asked && given != Wanted(f, |front|) then [(Wanted(f, |front|), given)] else []
  {
    var f := SceneFields(last).value;
    ImportedStep(e, front, last);
    WantedIsBare(f, |front|);
    NameIs(f, NameFor(f, |front|, Imported(e, front).taken), Kept(e, ElementsOf(f)));
  }

  lemma NameIs(f: Fields, name: string, elements: seq<Json>)
    ensures NameOf(BuiltScene(f, name, elements)) == name
  {}

  lemma ImportedStep(e: Engine, front: seq<Json>, last: Json)
    ensures Imported(e, front + [last]) == AddScene(Imported(e, front), ReadScene(e, last), |front|)
  {
    ReadingAccounts(e, front);
    AddScenesSnoc(ReadScenes(e, front), ReadScene(e, last));
    assert (front + [last])[..|front|] == front;
  }

  /** The scenes of a map are read in the order of its keys, each named after its key. */
  lemma {:induction false} MapScenes(f: Fields, names: seq<Key>, e: Engine, i: nat)
    requires i < |names|
    ensures |FromEntries(f, names, e)| == |names| && FromEntries(f, names, e)[i].Obj?
    ensures var s, v := FromEntries(f, names, e)[i].fields, Get(f, names[i]);
            && Get(s, SceneName) == Some(Str(e.keyText(names[i])))
            && Get(s, Other(PROTO)) == None
            && forall k :: k != SceneName && k != Other(PROTO) ==>
                 Get(s, k) == if v.Some? && IsObject(v.value) then Get(SceneFields(v.value).value, k) else None
  {
    var n := |names| - 1;
    if i < n {
      MapScenes(f, names[..n], e, i);
      assert names[..n][i] == names[i];
    } else if n > 0 {
      MapScenes(f, names[..n], e, n - 1);
    }
  }

  // ----- what becomes of the settings -----

  predicate Given(f: Fields, k: Key) { k in f && f[k] != Null }

  /** The variables are kept exactly when they are a record of finite values, and are empty when they are no record. */
  lemma VariablesKeptIff(source: Fields)
    ensures !IsRecord(Get(source, Variables)) ==> VariablesOf(source) == Obj(map[])
    ensures IsRecord(Get(source, Variables)) ==>
              (VariablesOf(source) == source[Variables] <==> Finite(source[Variables]))
    ensures IsRecord(Get(source, Variables)) ==> VariablesOf(source).Obj? && Finite(VariablesOf(source))
    ensures IsRecord(Get(source, Variables)) ==>
              forall k :: k in source[Variables].fields && Finite(source[Variables].fields[k])
                ==> Get(VariablesOf(source).fields, k) == Some(source[Variables].fields[k])
  {
    if IsRecord(Get(source, Variables)) {
      var v := source[Variables];
      SavedVerbatimIff(v);
      SavedIsFinite(v);
      forall k | k in v.fields { SavedVerbatimIff(v.fields[k]); }
    }
  }

  /** The size is the first of three settings that is given, if that is a positive number, else the fallback. */
  lemma SizeIsFirst(e: Engine, f: Fields, keys: seq<Key>, i: nat, n: int, fallback: int)
    requires |keys| == 3 && i <= 3 && (forall j :: 0 <= j < i ==> !Given(f, keys[j])) && (i < 3 ==> Given(f, keys[i]))
    ensures var size := Size(e, Coalesce(f, keys[0], keys[1], keys[2]), fallback);
            && (i == 3 ==> size == Int(fallback))
            && (i < 3 && ToInt(e, Some(f[keys[i]])) == Some(n) ==> size == Int(if n > 0 then n else fallback))
            && (i < 3 && ToInt(e, Some(f[keys[i]])) == None ==> size == Int(fallback))
  {}

  lemma AssembledGet(e: Engine, source: Fields, scenes: seq<Json>, k: Key)
    ensures Get(Assembled(e, source, scenes), k)
            == match k
               case Scenes => Some(Arr(scenes))
               case Variables => Some(VariablesOf(source))
               case TopWidth => Some(Size(e, Coalesce(source, TopWidth, Width, CanvasWidth), 1280))
               case TopHeight => Some(Size(e, Coalesce(source, TopHeight, Height, CanvasHeight), 720))
               case Other(name) => if name == PROTO then None else Get(source, k)
               case _ => Get(source, k)
  {
    CopiedGet(source, k);
  }

  /** A config is the record itself, or the one wrapped in it. */
  ghost predicate SourceIs(raw: Json, source: Fields) {
    raw.Obj? && if Get(raw.fields, JukaConfig).Some? && raw.fields[JukaConfig].Obj? then raw.fields[JukaConfig] == Obj(source)
                else raw == Obj(source)
  }

  lemma AcceptedIs(e: Engine, raw: Json, order: seq<Key>, source: Fields)
    requires Normalized(e, raw, order).Accepted? && SourceIs(raw, source)
    ensures OfferOf(e, source, order).Offer? && SourceOf(raw.fields) == source
    ensures Normalized(e, raw, order).config == Assembled(e, source, Imported(e, OfferOf(e, source, order).scenes).scenes)
    ensures Normalized(e, raw, order).report == Imported(e, OfferOf(e, source, order).scenes).report
  {}

  /** Every other setting of an accepted config comes through as it was, but for one named __proto__. */
  lemma SettingsKept(e: Engine, raw: Json, order: seq<Key>, source: Fields, k: Key)
    requires Normalized(e, raw, order).Accepted? && SourceIs(raw, source)
    requires k !in {Scenes, Variables, TopWidth, TopHeight}
    ensures Get(Normalized(e, raw, order).config, k) == if k == Other(PROTO) then None else Get(source, k)
  {
    AcceptedIs(e, raw, order, source);
    AssembledGet(e, source, Imported(e, OfferOf(e, source, order).scenes).scenes, k);
  }

  /**
   The variables of an accepted config are those of its source exactly when these are a
   record of finite values, and an empty record when they are no record.
   */
  lemma VariablesImported(e: Engine, raw: Json, order: seq<Key>, source: Fields)
    requires Normalized(e, raw, order).Accepted? && SourceIs(raw, source)
    ensures var v := Get(Normalized(e, raw, order).config, Variables);
            && (v == Get(source, Variables) <==> IsRecord(Get(source, Variables)) && Finite(source[Variables]))
            && (!IsRecord(Get(source, Variables)) ==> v == Some(Obj(map[])))
            && (IsRecord(Get(source, Variables)) ==> v.Some? && v.value.Obj? && Finite(v.value))
            && (IsRecord(Get(source, Variables)) ==>
                  forall k :: k in source[Variables].fields && Finite(source[Variables].fields[k])
                    ==> Get(v.value.fields, k) == Some(source[Variables].fields[k]))
  {
    AcceptedIs(e, raw, order, source);
    AssembledGet(e, source, Imported(e, OfferOf(e, source, order).scenes).scenes, Variables);
    VariablesKeptIff(source);
  }

  /** The size of an accepted config, by the i-th of the three names a config may give it under. */
  lemma SizesImported(e: Engine, raw: Json, order: seq<Key>, source: Fields, i: nat, n: int, wide: bool)
    requires Normalized(e, raw, order).Accepted? && SourceIs(raw, source) && i <= 3
    requires var keys := if wide then [TopWidth, Width, CanvasWidth] else [TopHeight, Height, CanvasHeight];
             (forall j :: 0 <= j < i ==> !Given(source, keys[j])) && (i < 3 ==> Given(source, keys[i]))
    ensures var keys := if wide then [TopWidth, Width, CanvasWidth] else [TopHeight, Height, CanvasHeight];
            var fallback := if wide then 1280 else 720;
            var size := Get(Normalized(e, raw, order).config, keys[0]);
            && (i == 3 ==> size == Some(Int(fallback)))
            && (i < 3 && ToInt(e, Some(source[keys[i]])) == Some(n) ==> size == Some(Int(if n > 0 then n else fallback)))
            && (i < 3 && ToInt(e, Some(source[keys[i]])) == None ==> size == Some(Int(fallback)))
  {
    var keys := if wide then [TopWidth, Width, CanvasWidth] else [TopHeight, Height, CanvasHeight];
    AcceptedIs(e, raw, order, source);
    AssembledGet(e, source, Imported(e, OfferOf(e, source, order).scenes).scenes, keys[0]);
    SizeIsFirst(e, source, keys, i, n, if wide then 1280 else 720);
  }

  /** The list of scenes an accepted config was read from. */
  ghost predicate InputIs(e: Engine, source: Fields, order: seq<Key>, input: seq<Json>) {
    Scenes in source &&
    match source[Scenes]
    case Arr(items) => input == items
    case Obj(f) => input == FromEntries(f, order, e)
    case _ => false
  }

  /** The j-th scene of an accepted config is what the j-th object of its source's scenes becomes. */
  lemma ScenesImported(e: Engine, raw: Json, order: seq<Key>, source: Fields, input: seq<Json>, j: nat)
    requires Normalized(e, raw, order).Accepted? && SourceIs(raw, source) && InputIs(e, source, order, input)
    ensures var scenes := Get(Normalized(e, raw, order).config, Scenes);
            && scenes.Some? && scenes.value.Arr? && |scenes.value.items| == |Usable(input)|
            && (j < |Usable(input)| ==> SceneAt(e, input, scenes.value.items, j))
  {
    AcceptedIs(e, raw, order, source);
    AssembledGet(e, source, Imported(e, OfferOf(e, source, order).scenes).scenes, Scenes);
    ScenesAre(e, input, j);
  }

  /** Given scenes, a config is accepted exactly when one of them is an object. */
  lemma AcceptedIff(e: Engine, raw: Json, order: seq<Key>, source: Fields, input: seq<Json>)
    requires SourceIs(raw, source) && InputIs(e, source, order, input)
    ensures Normalized(e, raw, order).Accepted? <==> exists i: nat :: i < |input| && IsObject(input[i])
    ensures Normalized(e, raw, order).Refused? ==> Normalized(e, raw, order).error == NoUsableScenes
  {
    assert OfferOf(e, source, order) == Offer(input);
    ScenesAre(e, input, 0);
    if Usable(input) != [] { assert IsObject(input[Usable(input)[0]]); }
  }

  /** Without scenes it is refused, for the reason that holds. */
  lemma RefusedIff(e: Engine, raw: Json, order: seq<Key>, source: Fields)
    ensures !raw.Obj? ==> Normalized(e, raw, order) == Refused(NotAConfig)
    ensures SourceIs(raw, source) && Falsy(Get(source, Scenes)) ==> Normalized(e, raw, order) == Refused(NoScenes)
    ensures SourceIs(raw, source) && !Falsy(Get(source, Scenes)) && !IsObject(source[Scenes]) ==>
              Normalized(e, raw, order) == Refused(ScenesNotAList)
  {}

  // ----- idempotence -----

  function CleanReport(scenes: seq<Json>): Report { Report(|scenes|, ElementCount(scenes), 0, [], 0, []) }

  /** Reading a scene that is already in order drops and repairs nothing. */
  lemma ReadAgain(e: Engine, scene: Json)
    requires SceneOk(scene)
    ensures ReadScene(e, scene) == Read(scene.fields, ElementsOf(scene.fields), 0, 0)
  {
    KeptAgain(e, ElementsOf(scene.fields));
  }

  /** Adding it again yields the very same scene under the very same name. */
  lemma AddSceneAgain(w: Work, scene: Json, index: nat)
    requires SceneOk(scene) && NameOf(scene) !in w.taken
    ensures var r, t := w.report, AddScene(w, Read(scene.fields, ElementsOf(scene.fields), 0, 0), index);
            && t.scenes == w.scenes + [scene] && t.taken == w.taken + {NameOf(scene)}
            && t.report == r.(scenes := r.scenes + 1, elements := r.elements + |ElementsOf(scene.fields)|)
  {
    var f, name, items := scene.fields, NameOf(scene), ElementsOf(scene.fields);
    TrimIsBare(JsSpace, name);
    UniqueNameIsFree(name, w.taken);
    assert NameFor(f, index, w.taken) == name;
    assert BuiltScene(f, name, items) == scene by {
      assert Copied(f) == f;
      assert f[SceneName := Str(name)] == f;
      assert f[Elements := Arr(items)] == f;
    }
  }

  function AsRead(scenes: seq<Json>): seq<Scene> {
    if scenes == [] then []
    else
      var s := scenes[|scenes| - 1];
      AsRead(scenes[..|scenes| - 1]) + [if s.Obj? then Read(s.fields, ElementsOf(s.fields), 0, 0) else Skipped]
  }

  lemma {:induction false} ReadScenesAgain(e: Engine, scenes: seq<Json>)
    requires ScenesOk(scenes)
    ensures ReadScenes(e, scenes) == AsRead(scenes)
  {
    if scenes != [] {
      ReadScenesAgain(e, scenes[..|scenes| - 1]);
      ReadAgain(e, scenes[|scenes| - 1]);
    }
  }

  lemma AddOneMore(front: seq<Json>, last: Json, w: Work, t: Work)
    requires last.Obj? && w == Work(CleanReport(front), NamesIn(front), front)
    requires t.scenes == w.scenes + [last] && t.taken == w.taken + {NameOf(last)}
    requires t.report == w.report.(scenes := w.report.scenes + 1, elements := w.report.elements + |ElementsOf(last.fields)|)
    ensures t == Work(CleanReport(front + [last]), NamesIn(front + [last]), front + [last])
  {
    assert (front + [last])[..|front|] == front;
  }

  lemma AsReadSnoc(front: seq<Json>, last: Json)
    requires last.Obj?
    ensures AsRead(front + [last]) == AsRead(front) + [Read(last.fields, ElementsOf(last.fields), 0, 0)]
  {
    assert (front + [last])[..|front|] == front;
  }

  lemma AddScenesSnoc(read: seq<Scene>, scene: Scene)
    ensures AddScenes(read + [scene]) == AddScene(AddScenes(read), scene, |read|)
  {
    assert (read + [scene])[..|read|] == read;
  }

  lemma AddLastAgain(front: seq<Json>, last: Json, read: seq<Scene>)
    requires SceneOk(last) && NameOf(last) !in NamesIn(front)
    requires AddScenes(read) == Work(CleanReport(front), NamesIn(front), front)
    ensures AddScenes(read + [Read(last.fields, ElementsOf(last.fields), 0, 0)])
            == Work(CleanReport(front + [last]), NamesIn(front + [last]), front + [last])
  {
    var w, scene := AddScenes(read), Read(last.fields, ElementsOf(last.fields), 0, 0);
    AddScenesSnoc(read, scene);
    AddSceneAgain(w, last, |read|);
    AddOneMore(front, last, w, AddScene(w, scene, |read|));
  }

  /** Importing what was built builds it again. */
  ghost predicate BuiltAgain(scenes: seq<Json>, read: seq<Scene>) {
    |read| == |scenes| && AddScenes(read) == Work(CleanReport(scenes), NamesIn(scenes), scenes)
  }

  lemma BuiltAgainSnoc(front: seq<Json>, last: Json, read: seq<Scene>)
    requires SceneOk(last) && NameOf(last) !in NamesIn(front) && BuiltAgain(front, read)
    ensures BuiltAgain(front + [last], read + [Read(last.fields, ElementsOf(last.fields), 0, 0)])
  {
    AddLastAgain(front, last, read);
  }

  lemma {:induction false} AddScenesAgain(scenes: seq<Json>)
    requires ScenesOk(scenes)
    ensures BuiltAgain(scenes, AsRead(scenes))
  {
    if scenes != [] {
      var front, last := scenes[..|scenes| - 1], scenes[|scenes| - 1];
      AddScenesAgain(front);
      BuiltAgainSnoc(front, last, AsRead(front));
      AsReadSnoc(front, last);
      assert scenes == front + [last];
    }
  }

  lemma OverlaidAgain(f: Fields, scenes: Json, variables: Json, width: Json, height: Json)
    ensures var c := Overlaid(Copied(f), scenes, variables, width, height);
            && Get(c, Variables) == Some(variables) && Get(c, TopWidth) == Some(width) && Get(c, TopHeight) == Some(height)
            && Overlaid(Copied(c), scenes, variables, width, height) == c
  {
    var c := Overlaid(Copied(f), scenes, variables, width, height);
    assert Copied(c) == c;
  }

  lemma VariablesAgain(source: Fields, c: Fields)
    requires Get(c, Variables) == Some(VariablesOf(source))
    ensures VariablesOf(c) == VariablesOf(source)
  {
    if IsRecord(Get(source, Variables)) {
      SavedAgain(source[Variables]);
    } else {
      assert Saved(Obj(map[])).fields == map[];
    }
  }

  lemma AssembledAgain(e: Engine, source: Fields, scenes: seq<Json>)
    ensures var c := Assembled(e, source, scenes); Assembled(e, c, scenes) == c
  {
    var c := Assembled(e, source, scenes);
    var width := Size(e, Coalesce(source, TopWidth, Width, CanvasWidth), 1280);
    var height := Size(e, Coalesce(source, TopHeight, Height, CanvasHeight), 720);
    OverlaidAgain(source, Arr(scenes), VariablesOf(source), width, height);
    VariablesAgain(source, c);
    SizeAgain(e, Coalesce(source, TopWidth, Width, CanvasWidth), 1280);
    SizeAgain(e, Coalesce(source, TopHeight, Height, CanvasHeight), 720);
  }

  lemma SizeAgain(e: Engine, v: Option<Json>, fallback: int)
    requires fallback > 0
    ensures Size(e, Some(Size(e, v, fallback)), fallback) == Size(e, v, fallback)
  {
    RoundInt(fallback);
    if ToInt(e, v).Some? { RoundInt(ToInt(e, v).value); }
  }

  lemma AssembledOffers(e: Engine, source: Fields, scenes: seq<Json>, order: seq<Key>)
    ensures OfferOf(e, Assembled(e, source, scenes), order) == Offer(scenes)
  {
    assert Get(Assembled(e, source, scenes), Scenes) == Some(Arr(scenes));
  }

  lemma ImportedAgain(e: Engine, scenes: seq<Json>)
    requires ScenesOk(scenes)
    ensures AddScenes(ReadScenes(e, scenes)) == Work(CleanReport(scenes), NamesIn(scenes), scenes)
  {
    ReadScenesAgain(e, scenes);
    AddScenesAgain(scenes);
  }

  lemma AcceptedAs(e: Engine, c: Fields, order: seq<Key>, input: seq<Json>, w: Work)
    requires !IsRecord(Get(c, JukaConfig)) && OfferOf(e, c, order) == Offer(input)
    requires w == AddScenes(ReadScenes(e, input)) && w.scenes != []
    ensures Normalized(e, Obj(c), order) == Accepted(Assembled(e, c, w.scenes), w.report)
  {}

  lemma UnwrappedAgain(e: Engine, source: Fields, scenes: seq<Json>, order: seq<Key>)
    requires ScenesOk(scenes) && scenes != []
    ensures var c := Assembled(e, source, scenes);
            !IsRecord(Get(c, JukaConfig)) ==> Normalized(e, Obj(c), order) == Accepted(c, CleanReport(scenes))
  {
    var c := Assembled(e, source, scenes);
    if !IsRecord(Get(c, JukaConfig)) {
      AssembledOffers(e, source, scenes, order);
      AssembledAgain(e, source, scenes);
      ImportedAgain(e, scenes);
      AcceptedAs(e, c, order, scenes, AddScenes(ReadScenes(e, scenes)));
    }
  }

  lemma WrappedChanges(e: Engine, source: Fields, scenes: seq<Json>, order: seq<Key>, r: Report)
    ensures var c := Assembled(e, source, scenes);
            IsRecord(Get(c, JukaConfig)) ==> Normalized(e, Obj(c), order) != Accepted(c, r)
  {
    var c := Assembled(e, source, scenes);
    if IsRecord(Get(c, JukaConfig)) {
      var inner := c[JukaConfig].fields;
      WrapperIsSmaller(inner, c);
      forall s: seq<Json> ensures Get(Assembled(e, inner, s), JukaConfig) == Get(inner, JukaConfig) {}
    }
  }

  /**
   Normalising an accepted config again yields the same config and a report without a
   single repair, exactly when the config carries no nested jukaconfig wrapper.
   */
  lemma NormalizedAgainIff(e: Engine, raw: Json, order: seq<Key>, order2: seq<Key>)
    requires Normalized(e, raw, order).Accepted?
    ensures var c := Normalized(e, raw, order).config;
            && Scenes in c && c[Scenes].Arr?
            && (Normalized(e, Obj(c), order2) == Accepted(c, CleanReport(c[Scenes].items))
                <==> !IsRecord(Get(c, JukaConfig)))
  {
    AcceptedConfigIsOk(e, raw, order);
    var source := SourceOf(raw.fields);
    var scenes := AddScenes(ReadScenes(e, OfferOf(e, source, order).scenes)).scenes;
    UnwrappedAgain(e, source, scenes, order2);
    WrappedChanges(e, source, scenes, order2, CleanReport(scenes));
  }

  /** A finite value cannot be its own wrapper. */
  lemma WrapperIsSmaller(inner: Fields, c: Fields)
    requires JukaConfig in c && c[JukaConfig] == Obj(inner)
    ensures Get(inner, JukaConfig) != Get(c, JukaConfig)
  {
    if JukaConfig in inner { NotInsideItself(inner, JukaConfig); }
  }

  lemma NotInsideItself(f: Fields, k: Key)
    requires k in f
    ensures f[k] != Obj(f)
  {
    assert Obj(f).fields[k] < Obj(f);
  }

  // ----- the source's procedure -----

  lemma ReadSceneIs(e: Engine, raw: Json, f: Fields, dropped: nat)
    requires SceneFields(raw) == Some(f) && |Kept(e, ElementsOf(f))| + dropped == |ElementsOf(f)|
    ensures ReadScene(e, raw) == Read(f, Kept(e, ElementsOf(f)), dropped, Fixed(e, ElementsOf(f)))
  {}

  /** The name the scene gets, and the rename it may add to the report. */
  method NameScene(f: Fields, index: nat, w: Work) returns (name: string, renamed: seq<(string, string)>)
    ensures name == NameFor(f, index, w.taken)
    ensures renamed == w.report.renamed + if Requested(f) != "" && name != Requested(f) then [(Requested(f), name)] else []
  {
    var requested := Requested(f);
    name := UniqueSceneName(if requested != "" then requested else "Scene " + Decimal(index + 1), w.taken);
    renamed := w.report.renamed;
    if requested != "" && name != requested {
      renamed := renamed + [(requested, name)];
    }
  }

  method ImportScene(e: Engine, raw: Json, index: nat, w: Work) returns (next: Work)
    ensures next == AddScene(w, ReadScene(e, raw), index)
  {
    var fields := SceneFields(raw);
    if fields.None? {
      return w.(report := w.report.(warnings := w.report.warnings + [index]));
    }
    var f, r := fields.value, w.report;
    var name, renamed := NameScene(f, index, w);
    var elements, skipped, repaired := NormalizeElements(e, ElementsOf(f));
    ReadSceneIs(e, raw, f, skipped);
    next := Work(Report(r.scenes + 1, r.elements + |elements|, r.skippedElements + skipped, renamed,
                        r.fixedFields + repaired, r.warnings),
                 w.taken + {name}, w.scenes + [BuiltScene(f, name, elements)]);
  }

  method NormalizeImportedConfig(e: Engine, raw: Json, order: seq<Key>) returns (out: Outcome)
    ensures out == Normalized(e, raw, order)
    ensures forall source, k ::
              out.Accepted? && SourceIs(raw, source) && k !in {Scenes, Variables, TopWidth, TopHeight, Other(PROTO)}
              ==> Get(out.config, k) == Get(source, k)
    ensures forall source :: out.Accepted? && SourceIs(raw, source) && IsRecord(Get(source, Variables))
              ==> (Finite(source[Variables]) <==> Get(out.config, Variables) == Get(source, Variables))
    ensures forall source :: out.Accepted? && SourceIs(raw, source) && !IsRecord(Get(source, Variables))
              ==> Get(out.config, Variables) == Some(Obj(map[]))
  {
    if Normalized(e, raw, order).Accepted? {
      forall source, k | SourceIs(raw, source) && k !in {Scenes, Variables, TopWidth, TopHeight, Other(PROTO)} {
        SettingsKept(e, raw, order, source, k);
      }
      forall source | SourceIs(raw, source) { VariablesImported(e, raw, order, source); }
    }
    if !raw.Obj? { return Refused(NotAConfig); }
    var source := SourceOf(raw.fields);
    var offer := OfferOf(e, source, order);
    if offer.NoOffer? { return Refused(offer.error); }
    var w := ImportScenes(e, offer.scenes);
    if |w.scenes| == 0 { return Refused(NoUsableScenes); }
    return Accepted(Assembled(e, source, w.scenes), w.report);
  }

  method ImportScenes(e: Engine, input: seq<Json>) returns (w: Work)
    ensures w == AddScenes(ReadScenes(e, input))
  {
    w := NOTHING;
    var i := 0;
    while i < |input|
      invariant 0 <= i <= |input|
      invariant w == Imported(e, input[..i]) && |ReadScenes(e, input[..i])| == i
    {
      assert input[..i + 1][..i] == input[..i];
      ghost var read := ReadScenes(e, input[..i]);
      assert (read + [ReadScene(e, input[i])])[..i] == read;
      w := ImportScene(e, input[i], i, w);
      i := i + 1;
    }
    assert input[..i] == input;
  }
}
