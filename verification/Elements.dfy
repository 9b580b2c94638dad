/**
 One builder element, from a config record to the canvas and back (script.js).
 A canvas element is its attributes, the record it came from, and the label it shows.
 An attribute is named after the config property it mirrors.
 */
module Elements {
  import opened Prelude
  import opened Json
  import opened Normalize
  import opened Numerals

  // ----- numbers as text -----

  /** A double holds every integer strictly between -2^53 and 2^53. */
  predicate Safe(n: int) { -0x20_0000_0000_0000 < n < 0x20_0000_0000_0000 }

  /** The text is the decimal numeral of the integer that parseInt reads from it. */
  predicate Digits(s: string) { ParseInt(s).Some? && s == IntText(ParseInt(s).value) }

  /**
   String(n) writes a safe integer in plain digits. Any other integer it may round to another
   such integer, which it then writes the same, or write with an exponent after one leading digit.
   */
  ghost predicate PrintsIntegers(e: Engine) {
    forall n: int {:trigger e.text(Int(n))} :: if Safe(n) then e.text(Int(n)) == IntText(n) else PrintsUnsafe(e, n)
  }

  predicate PrintsUnsafe(e: Engine, n: int) {
    var s := e.text(Int(n));
    ParseInt(s).Some? &&
    var m := ParseInt(s).value;
    && (m > 0 <==> n > 0)
    && if Digits(s) then !Safe(m) && e.text(Int(m)) == s else m != 0 && -10 < m < 10
  }

  /** A number that is not finite is written as a word. */
  predicate PrintsNonFinite(e: Engine) { e.text(NonFinite) != "" && ParseInt(e.text(NonFinite)).None? }

  function IntAttr(s: string): Option<Json> {
    match ParseInt(s) case None => None case Some(n) => Some(Int(n))
  }

  /** What an integer attribute is read back as, and that reading it back again changes nothing. */
  lemma IntAttrStable(e: Engine, n: int) returns (m: int)
    requires PrintsIntegers(e)
    ensures IntAttr(e.text(Int(n))) == Some(Int(m)) && IntAttr(e.text(Int(m))) == Some(Int(m))
    ensures ParseInt(e.text(Int(n))) == Some(m) && e.text(Int(n)) != ""
    ensures if Safe(n) then m == n else m != 0 && (m > 0 <==> n > 0)
    ensures Safe(n) || !Digits(e.text(Int(n))) || !Safe(m)
    ensures !Digits(e.text(Int(n))) ==> -10 < m < 10
  {
    if Safe(n) {
      ParseIntText(n);
      m := n;
    } else {
      assert PrintsUnsafe(e, n);
      m := ParseInt(e.text(Int(n))).value;
      ParseIntText(m);
      assert ParseInt("").None?;
    }
  }

  // ----- a canvas element -----

  type Attrs = map<Key, string>

  datatype El = El(attrs: Attrs, raw: Fields, span: Option<string>, auto: bool)

  /**
   What the builder itself writes into attributes: the defaults of the font and source
   controls, full opacity, the two states of a switch, and a missing value.
   */
  datatype Words = Words(font: string, source: string, full: string, yes: string, no: string, missing: string)

  function Shipped(): Words { Words("medium", "system", "100", "true", "false", "undefined") }

  predicate Distinct(w: Words) { w.full == "100" && w.yes != w.no && w.source != "" }

  lemma ShippedIsDistinct()
    ensures Distinct(Shipped())
    ensures Shipped().font == "medium" && Shipped().source == "system" && Shipped().yes == "true" && Shipped().no == "false"
  {
    assert |"true"| != |"false"|;
  }

  /** What the theorems ask of the engine and of the canvas. */
  ghost predicate Ready(e: Engine, c: Canvas) { PrintsIntegers(e) && PrintsNonFinite(e) && Distinct(c.words) }

  /** The width of the canvas, and the labels it paints for a type and for a text browser's source. */
  datatype Canvas = Canvas(width: int, caption: string -> string, sourceLabel: string -> string, words: Words)

  /**
   A record as the canvas reads it. Object.assign hands an own property named __proto__ to
   the prototype setter, so the properties of an object stored there are inherited.
   */
  datatype Data = Data(own: Fields, inherited: Fields)

  function See(d: Data, k: Key): Option<Json> { if k in d.own then Some(d.own[k]) else Get(d.inherited, k) }

  function JustOwn(f: Fields): Data { Data(f, map[]) }

  function Prototype(f: Fields): Fields { match Get(f, Other(PROTO)) case Some(Obj(p)) => p case _ => map[] }

  /** What the importer makes of a record, with what it inherits. */
  function Load(e: Engine, raw: Json): Option<Data> {
    match NormalizeElement(e, raw) case None => None case Some(f) => Some(Data(f, Prototype(raw.fields)))
  }

  function TypeIn(f: Fields): string { match Get(f, Type) case Some(Str(s)) => s case _ => "" }

  /** The types the builder treats specially. */
  datatype Kind = MenuBar | DynamicList | TextBrowser | Button | Label | Input | Plain

  function KindOf(typeName: string): Kind {
    if typeName == "menu" then MenuBar
    else if typeName == "dynamiclist" then DynamicList
    else if typeName == "textbrowser" then TextBrowser
    else if typeName == "button" then Button
    else if typeName == "label" then Label
    else if typeName == "input" then Input
    else Plain
  }

  function KindIn(f: Fields): Kind { KindOf(TypeIn(f)) }

  /** v || fallback, as setAttribute writes it. */
  function Or(e: Engine, v: Option<Json>, fallback: string): string {
    if Falsy(v) then fallback else JsString(e, v.value)
  }

  predicate Nullish(v: Option<Json>) { v.None? || v.value.Null? }

  /** The set() helper: null and undefined are skipped, the empty string removes the attribute. */
  function Set(e: Engine, attrs: Attrs, k: Key, v: Option<Json>): Attrs {
    if Nullish(v) then attrs
    else if v.value == Str("") then attrs - {k}
    else attrs[k := JsString(e, v.value)]
  }

  function SetAll(e: Engine, attrs: Attrs, d: Data, keys: seq<Key>): Attrs {
    if keys == [] then attrs
    else
      var k := keys[|keys| - 1];
      Set(e, SetAll(e, attrs, d, keys[..|keys| - 1]), k, See(d, k))
  }

  function PutOrDrop(attrs: Attrs, k: Key, a: Option<string>): Attrs {
    match a case None => attrs - {k} case Some(s) => attrs[k := s]
  }

  /** The declared() helper: a value the config left open carries no attribute. */
  function Declared(e: Engine, v: Option<Json>): Option<string> {
    if Nullish(v) || v.value == Str("") then None else Some(JsString(e, v.value))
  }

  /** The properties applyElementConfigAttributes copies, in its order. */
  const APPLIED_LINKS: seq<Key> := [Trigger, TriggerValue, TriggerTarget, SceneChange, ExternalAppPath, ExternalAppReturn]
  const APPLIED_MEDIA: seq<Key> :=
    [VariableChange, VariableChangeValue, MediaVariable, VideoVariable, Video, MediaVariable]
  const APPLIED_NEXT: seq<Key> := [Variable, ListVariable, Command, Placeholder, Style, Icon, Source, JsonPath, Image]
  const APPLIED_LAST: seq<Key> := [Columns, Rows, Color, BgColor, Font]

  function ApplyRefresh(w: Words, attrs: Attrs, d: Data): Attrs {
    match See(d, AutoRefresh)
    case None => attrs
    case Some(v) => attrs[AutoRefresh := if Falsy(Some(v)) then w.no else w.yes]
  }

  function ApplyPlain(e: Engine, attrs: Attrs, d: Data): Attrs {
    SetAll(e, SetAll(e, attrs, d, APPLIED_LINKS + APPLIED_MEDIA), d, APPLIED_NEXT)
  }

  function ApplyConfig(e: Engine, w: Words, attrs: Attrs, d: Data): Attrs {
    SetAll(e, ApplyRefresh(w, ApplyPlain(e, attrs, d), d), d, APPLIED_LAST)
  }

  /** The triggers that own properties. */
  datatype Effect = ExternalApp | SetVariable | PlayMedia | OtherEffect

  function EffectOf(trigger: Option<Json>): Effect {
    if trigger == Some(Str("external_app")) then ExternalApp
    else if trigger == Some(Str("set_variable")) then SetVariable
    else if trigger == Some(Str("play_video")) || trigger == Some(Str("play_image")) then PlayMedia
    else OtherEffect
  }

  function EffectIn(d: Data): Effect { EffectOf(See(d, Trigger)) }

  /** Number(v), None for NaN and the infinities. */
  function Numeric(e: Engine, v: Json): Option<real> {
    match v
    case Null => Some(0.0)
    case Num(r) => Some(r)
    case NonFinite => None
    case Bool(b) => Some(if b then 1.0 else 0.0)
    case other => e.number(JsString(e, other))
  }

  /** n / 100 */
  function Hundredth(n: int): Json { Num(n as real / 100.0) }

  /** Math.round(v * 100) */
  function Percent(e: Engine, v: Json): Option<int> {
    match Numeric(e, v) case None => None case Some(r) => Some(Round(r * 100.0))
  }

  /** The opacity attribute: a percentage, full when the config has no opacity. */
  function OpacityText(e: Engine, w: Words, v: Option<Json>): string {
    if v.None? then w.full
    else match Percent(e, v.value) case None => e.text(NonFinite) case Some(n) => e.text(Int(n))
  }

  function Written(e: Engine, w: Words, v: Option<Json>): string { match v case None => w.missing case Some(j) => JsString(e, j) }

  function PlaceAttrs(e: Engine, w: Words, d: Data): Attrs {
    PlaceWords(Written(e, w, See(d, Type)), Written(e, w, See(d, X)), Written(e, w, See(d, Y)), OpacityText(e, w, See(d, Opacity)))
  }

  function PlaceWords(typeName: string, x: string, y: string, opacity: string): Attrs {
    map[Type := typeName, X := x, Y := y, Opacity := opacity]
  }

  function Sized(attrs: Attrs, width: string, height: string): Attrs { attrs[Width := width][Height := height] }

  /** A size attribute: empty for "the player decides", and 0 counts as no size. */
  function SizeAttr(e: Engine, v: Option<Json>, fallback: int): string {
    if Nullish(v) || v.value == Str("") then "" else if Falsy(v) then e.text(Int(fallback)) else JsString(e, v.value)
  }

  function ListAttrs(attrs: Attrs, command: string, variable: string): Attrs {
    attrs[Command := command][Variable := variable]
  }

  function BrowserAttrs(attrs: Attrs, variable: string, source: string, path: string, refresh: string): Attrs {
    attrs[Variable := variable][Source := source][JsonPath := path][AutoRefresh := refresh]
  }

  function ButtonAttrs(attrs: Attrs, color: Option<string>, bgColor: Option<string>, font: Option<string>): Attrs {
    PutOrDrop(PutOrDrop(PutOrDrop(attrs, Color, color), BgColor, bgColor), Font, font)
  }

  function LabelAttrs(attrs: Attrs, color: Option<string>, font: Option<string>): Attrs {
    PutOrDrop(PutOrDrop(attrs, Color, color), Font, font)
  }

  function TypeAttrs(e: Engine, w: Words, kind: Kind, attrs: Attrs, d: Data): Attrs {
    match kind
    case DynamicList => ListAttrs(attrs, Or(e, See(d, Command), ""), Or(e, See(d, Variable), ""))
    case TextBrowser =>
      BrowserAttrs(attrs, Or(e, See(d, Variable), ""), Or(e, See(d, Source), w.source), Or(e, See(d, JsonPath), ""),
                   if Falsy(See(d, AutoRefresh)) then w.no else w.yes)
    case Button => ButtonAttrs(attrs, Declared(e, See(d, Color)), Declared(e, See(d, BgColor)), Declared(e, See(d, Font)))
    case Label => LabelAttrs(attrs, Declared(e, See(d, Color)), Declared(e, See(d, Font)))
    case _ => attrs
  }

  function MediaAttrs(attrs: Attrs, plays: bool, variable: string): Attrs {
    if plays then attrs[MediaVariable := variable] else attrs
  }

  function MenuAttrs(e: Engine, c: Canvas, d: Data): Attrs {
    var height := if Falsy(See(d, Height)) then e.text(Int(50)) else JsString(e, See(d, Height).value);
    Sized(PlaceAttrs(e, c.words, d), e.text(Int(c.width)), height)
  }

  function SizedAttrs(e: Engine, w: Words, plays: bool, d: Data): Attrs {
    var media := MediaAttrs(PlaceAttrs(e, w, d), plays, Or(e, See(d, MediaVariable), ""));
    Sized(media, SizeAttr(e, See(d, Width), 100), SizeAttr(e, See(d, Height), 40))
  }

  function BoxAttrs(e: Engine, w: Words, kind: Kind, plays: bool, d: Data): Attrs {
    ApplyConfig(e, w, TypeAttrs(e, w, kind, SizedAttrs(e, w, plays, d), d), d)
  }

  /** The label the canvas shows. */
  function Shown(e: Engine, c: Canvas, kind: Kind, d: Data): string {
    match kind
    case TextBrowser => c.sourceLabel(Or(e, See(d, Source), c.words.source))
    case Input =>
      if Falsy(See(d, Text)) && !Falsy(See(d, Placeholder)) then JsString(e, See(d, Placeholder).value)
      else Or(e, See(d, Text), c.caption(TypeIn(d.own)))
    case _ => Or(e, See(d, Text), c.caption(TypeIn(d.own)))
  }

  function CreateBy(e: Engine, c: Canvas, kind: Kind, effect: Effect, d: Data): El {
    if kind == MenuBar then El(MenuAttrs(e, c, d), SavedFields(d.own), None, false)
    else El(BoxAttrs(e, c.words, kind, effect == PlayMedia, d), SavedFields(d.own), Some(Shown(e, c, kind, d)),
            kind == TextBrowser || Falsy(See(d, Text)))
  }

  /** createElementFromData for a normalised record; a menu bar returns early with little more than its place. */
  function Create(e: Engine, c: Canvas, d: Data): El { CreateBy(e, c, KindIn(d.own), EffectIn(d), d) }

  // ----- back to a record -----

  function Attr(attrs: Attrs, k: Key): Option<string> { if k in attrs then Some(attrs[k]) else None }

  /** What a plain string attribute is exported as: nothing at all when missing or empty. */
  function Told(a: Option<string>): Option<Json> {
    match a case None => None case Some(s) => if s == "" then None else Some(Str(s))
  }

  /** The assign() helper. */
  function Assign(f: Fields, k: Key, a: Option<string>): Fields { SetOrDrop(f, k, Told(a)) }

  function AssignAll(f: Fields, attrs: Attrs, keys: seq<Key>): Fields {
    if keys == [] then f
    else Assign(AssignAll(f, attrs, keys[..|keys| - 1]), keys[|keys| - 1], Attr(attrs, keys[|keys| - 1]))
  }

  /** The assignInt() helper under its guard: a missing attribute leaves the property alone. */
  function AssignInt(f: Fields, attrs: Attrs, k: Key): Fields {
    match Attr(attrs, k) case None => f case Some(s) => SetOrDrop(f, k, IntAttr(s))
  }

  function AssignInts(f: Fields, attrs: Attrs, keys: seq<Key>): Fields {
    if keys == [] then f else AssignInt(AssignInts(f, attrs, keys[..|keys| - 1]), attrs, keys[|keys| - 1])
  }

  /** A property whose control has a default the import may not have declared. */
  function AssignUnlessDefault(f: Fields, el: El, k: Key, fallback: string): Fields {
    if k in el.attrs && (k in el.raw || el.attrs[k] != fallback) then Assign(f, k, Attr(el.attrs, k)) else f
  }

  function OpacityFrom(w: Words, el: El): Option<Json> {
    match Attr(el.attrs, Opacity)
    case None => Get(el.raw, Opacity)
    case Some(s) =>
      if s == "" || (Opacity !in el.raw && s == w.full) then Get(el.raw, Opacity)
      else match ParseInt(s) case None => Some(Null) case Some(n) => Some(Hundredth(n))
  }

  /** The properties a trigger owns. */
  function TriggerKeys(effect: Effect): seq<Key> {
    match effect
    case ExternalApp => [ExternalAppPath, ExternalAppReturn]
    case SetVariable => [VariableChange, VariableChangeValue]
    case PlayMedia => [MediaVariable]
    case OtherEffect => []
  }

  const PLACE: seq<Key> := [X, Y, Width, Height]
  const GRID: seq<Key> := [Columns, Rows]
  const LOOKS: seq<Key> := [Color, BgColor]
  const LINKS: seq<Key> := [Trigger, SceneChange]
  const CONTENTS: seq<Key> := [TriggerValue, TriggerTarget, Variable, Command, ListVariable, Placeholder]
  const MEDIA: seq<Key> := [Style, Icon, JsonPath, Video, VideoVariable, MediaVariable]

  function TextBy(c: Canvas, kind: Kind, typeName: string, el: El): Option<Json> {
    match el.span
    case None => Get(el.raw, Text)
    case Some(shown) =>
      if kind == Input then Get(el.raw, Text)
      else if el.auto && shown == Synthesized(c, kind, typeName, el.attrs) then
        if Falsy(Get(el.raw, Text)) then None else Get(el.raw, Text)
      else Told(Some(shown))
  }

  /** synthesizedTextFor */
  function Synthesized(c: Canvas, kind: Kind, typeName: string, attrs: Attrs): string {
    if kind == TextBrowser then
      c.sourceLabel(match Attr(attrs, Source) case None => c.words.source case Some(s) => if s == "" then c.words.source else s)
    else if typeName == "" then "" else c.caption(typeName)
  }

  function TypeFrom(el: El): string { match Attr(el.attrs, Type) case None => "" case Some(s) => Lower(s) }

  function TextFrom(c: Canvas, el: El): Option<Json> { TextBy(c, KindOf(TypeFrom(el)), TypeFrom(el), el) }

  /** elementToConfig, up to the font. */
  function ToConfigLooks(w: Words, el: El): Fields {
    var f := Assign(el.raw, Type, Attr(el.attrs, Type));
    AssignUnlessDefault(AssignAll(AssignInts(f, el.attrs, PLACE), el.attrs, LOOKS), el, Font, w.font)
  }

  /** Then the opacity and the link properties. */
  function ToConfigLinks(el: El, opacity: Option<Json>, looks: Fields): Fields {
    AssignAll(SetOrDrop(looks, Opacity, opacity), el.attrs, LINKS)
  }

  function ToConfigHead(w: Words, el: El): Fields { ToConfigLinks(el, OpacityFrom(w, el), ToConfigLooks(w, el)) }

  /** What the trigger owns and the payloads, given the record so far. */
  function ToConfigPayload(w: Words, el: El, effect: Effect, head: Fields): Fields {
    AssignUnlessDefault(AssignAll(AssignAll(head, el.attrs, TriggerKeys(effect)), el.attrs, CONTENTS + MEDIA), el, Source, w.source)
  }

  function ToConfigRefresh(w: Words, el: El, f: Fields): Fields {
    match Attr(el.attrs, AutoRefresh) case None => f case Some(s) => f[AutoRefresh := Bool(s == w.yes)]
  }

  /** The rest of elementToConfig. */
  function ToConfigTail(w: Words, el: El, text: Option<Json>, f: Fields): Fields {
    SetOrDrop(AssignInts(ToConfigRefresh(w, el, f), el.attrs, GRID), Text, text)
  }

  function ToConfigBody(w: Words, el: El, effect: Effect, text: Option<Json>): Fields {
    ToConfigTail(w, el, text, ToConfigPayload(w, el, effect, ToConfigHead(w, el)))
  }

  /** elementToConfig. The trigger it branches on is the one it has just assigned. */
  function ToConfig(c: Canvas, el: El): Fields {
    ToConfigBody(c.words, el, EffectOf(Get(ToConfigHead(c.words, el), Trigger)), TextFrom(c, el))
  }

  // ----- attribute by attribute, property by property -----

  function AfterSet(e: Engine, a: Option<string>, v: Option<Json>): Option<string> {
    if Nullish(v) then a else if v.value == Str("") then None else Some(JsString(e, v.value))
  }

  lemma {:induction false} SetAllAttr(e: Engine, attrs: Attrs, d: Data, keys: seq<Key>, k: Key)
    ensures Attr(SetAll(e, attrs, d, keys), k)
            == if k in keys then AfterSet(e, Attr(attrs, k), See(d, k)) else Attr(attrs, k)
  {
    if keys != [] {
      SetAllAttr(e, attrs, d, keys[..|keys| - 1], k);
      assert keys == keys[..|keys| - 1] + [keys[|keys| - 1]];
    }
  }

  lemma {:induction false} AssignAllGet(f: Fields, attrs: Attrs, keys: seq<Key>, k: Key)
    ensures Get(AssignAll(f, attrs, keys), k) == if k in keys then Told(Attr(attrs, k)) else Get(f, k)
  {
    if keys != [] {
      var last := keys[|keys| - 1];
      var front := AssignAll(f, attrs, keys[..|keys| - 1]);
      AssignAllGet(f, attrs, keys[..|keys| - 1], k);
      SetOrDropGet(front, last, Told(Attr(attrs, last)), k);
      assert keys == keys[..|keys| - 1] + [last];
    }
  }

  function IntOrKeep(attrs: Attrs, k: Key, kept: Option<Json>): Option<Json> {
    match Attr(attrs, k) case None => kept case Some(s) => IntAttr(s)
  }

  lemma AssignIntGet(f: Fields, attrs: Attrs, k: Key, j: Key)
    ensures Get(AssignInt(f, attrs, k), j) == if j == k then IntOrKeep(attrs, k, Get(f, k)) else Get(f, j)
  {
    if k in attrs { SetOrDropGet(f, k, IntAttr(attrs[k]), j); }
  }

  lemma {:induction false} AssignIntsGet(f: Fields, attrs: Attrs, keys: seq<Key>, k: Key)
    ensures Get(AssignInts(f, attrs, keys), k) == if k in keys then IntOrKeep(attrs, k, Get(f, k)) else Get(f, k)
  {
    if keys != [] {
      var last := keys[|keys| - 1];
      var front := AssignInts(f, attrs, keys[..|keys| - 1]);
      AssignIntsGet(f, attrs, keys[..|keys| - 1], k);
      AssignIntGet(front, attrs, last, k);
      assert keys == keys[..|keys| - 1] + [last];
    }
  }

  function UnlessDefault(el: El, k: Key, fallback: string): Option<Json> {
    if k in el.attrs && (k in el.raw || el.attrs[k] != fallback) then Told(Attr(el.attrs, k)) else Get(el.raw, k)
  }

  /** How a property travels through the canvas. */
  datatype Role = TypeRole | LookRole | LinkRole | PayloadRole | OwnedRole | PlaceRole | GridRole | FontRole | SourceRole
                | OpacityRole | RefreshRole | TextRole | OtherRole

  function RoleOf(k: Key): Role {
    match k
    case Type => TypeRole
    case Color => LookRole
    case BgColor => LookRole
    case Trigger => LinkRole
    case SceneChange => LinkRole
    case TriggerValue => PayloadRole
    case TriggerTarget => PayloadRole
    case Variable => PayloadRole
    case Command => PayloadRole
    case ListVariable => PayloadRole
    case Placeholder => PayloadRole
    case Style => PayloadRole
    case Icon => PayloadRole
    case JsonPath => PayloadRole
    case Video => PayloadRole
    case VideoVariable => PayloadRole
    case MediaVariable => PayloadRole
    case ExternalAppPath => OwnedRole
    case ExternalAppReturn => OwnedRole
    case VariableChange => OwnedRole
    case VariableChangeValue => OwnedRole
    case X => PlaceRole
    case Y => PlaceRole
    case Width => PlaceRole
    case Height => PlaceRole
    case Columns => GridRole
    case Rows => GridRole
    case Font => FontRole
    case Source => SourceRole
    case Opacity => OpacityRole
    case AutoRefresh => RefreshRole
    case Text => TextRole
    case _ => OtherRole
  }

  predicate IsLook(k: Key) { RoleOf(k).LookRole? }

  predicate IsLink(k: Key) { RoleOf(k).LinkRole? }

  predicate IsPayload(k: Key) { RoleOf(k).PayloadRole? }

  predicate IsOwned(k: Key) { RoleOf(k).OwnedRole? }

  predicate IsPlace(k: Key) { RoleOf(k).PlaceRole? }

  predicate IsGrid(k: Key) { RoleOf(k).GridRole? }

  /** A property every element exports as a plain string. */
  predicate IsString(k: Key) { IsLook(k) || IsLink(k) || IsPayload(k) }

  /** The properties a trigger owns. */
  predicate Owns(effect: Effect, k: Key) {
    match effect
    case ExternalApp => k == ExternalAppPath || k == ExternalAppReturn
    case SetVariable => k == VariableChange || k == VariableChangeValue
    case PlayMedia => k == MediaVariable
    case OtherEffect => false
  }

  /** AssignAll over a list whose members are known by a predicate. */
  lemma AssignedGet(f: Fields, attrs: Attrs, keys: seq<Key>, k: Key, member: bool)
    requires member <==> k in keys
    ensures Get(AssignAll(f, attrs, keys), k) == if member then Told(Attr(attrs, k)) else Get(f, k)
  {
    AssignAllGet(f, attrs, keys, k);
  }

  lemma ContentKeys(k: Key)
    ensures k in CONTENTS <==> k in {TriggerValue, TriggerTarget, Variable, Command, ListVariable, Placeholder}
  {}

  lemma MediaKeys(k: Key)
    ensures k in MEDIA <==> k in {Style, Icon, JsonPath, Video, VideoVariable, MediaVariable}
  {}

  lemma PayloadKeys(k: Key)
    ensures k in CONTENTS + MEDIA <==> IsPayload(k)
  {
    ContentKeys(k);
    MediaKeys(k);
  }

  lemma OwnedKeys(effect: Effect, k: Key)
    ensures k in TriggerKeys(effect) <==> Owns(effect, k)
  {}

  lemma LooksGet(f: Fields, attrs: Attrs, k: Key)
    ensures Get(AssignAll(f, attrs, LOOKS), k) == if IsLook(k) then Told(Attr(attrs, k)) else Get(f, k)
  {
    AssignedGet(f, attrs, LOOKS, k, IsLook(k));
  }

  lemma LinksGet(f: Fields, attrs: Attrs, k: Key)
    ensures Get(AssignAll(f, attrs, LINKS), k) == if IsLink(k) then Told(Attr(attrs, k)) else Get(f, k)
  {
    AssignedGet(f, attrs, LINKS, k, IsLink(k));
  }

  lemma PayloadsGet(f: Fields, attrs: Attrs, k: Key)
    ensures Get(AssignAll(f, attrs, CONTENTS + MEDIA), k) == if IsPayload(k) then Told(Attr(attrs, k)) else Get(f, k)
  {
    PayloadKeys(k);
    AssignedGet(f, attrs, CONTENTS + MEDIA, k, IsPayload(k));
  }

  lemma OwnedGet(f: Fields, attrs: Attrs, effect: Effect, k: Key)
    ensures Get(AssignAll(f, attrs, TriggerKeys(effect)), k) == if Owns(effect, k) then Told(Attr(attrs, k)) else Get(f, k)
  {
    OwnedKeys(effect, k);
    AssignedGet(f, attrs, TriggerKeys(effect), k, Owns(effect, k));
  }

  lemma AssignedIntsGet(f: Fields, attrs: Attrs, keys: seq<Key>, k: Key, member: bool)
    requires member <==> k in keys
    ensures Get(AssignInts(f, attrs, keys), k) == if member then IntOrKeep(attrs, k, Get(f, k)) else Get(f, k)
  {
    AssignIntsGet(f, attrs, keys, k);
  }

  lemma PlaceGet(f: Fields, attrs: Attrs, k: Key)
    ensures Get(AssignInts(f, attrs, PLACE), k) == if IsPlace(k) then IntOrKeep(attrs, k, Get(f, k)) else Get(f, k)
  {
    AssignedIntsGet(f, attrs, PLACE, k, IsPlace(k));
  }

  lemma GridGet(f: Fields, attrs: Attrs, k: Key)
    ensures Get(AssignInts(f, attrs, GRID), k) == if IsGrid(k) then IntOrKeep(attrs, k, Get(f, k)) else Get(f, k)
  {
    AssignedIntsGet(f, attrs, GRID, k, IsGrid(k));
  }

  lemma UnlessDefaultGet(f: Fields, el: El, k: Key, fallback: string, j: Key)
    ensures Get(AssignUnlessDefault(f, el, k, fallback), j)
            == if j == k && k in el.attrs && (k in el.raw || el.attrs[k] != fallback) then Told(Attr(el.attrs, k)) else Get(f, j)
  {
    SetOrDropGet(f, k, Told(Attr(el.attrs, k)), j);
  }

  function RefreshFrom(w: Words, el: El): Option<Json> {
    match Attr(el.attrs, AutoRefresh) case None => Get(el.raw, AutoRefresh) case Some(s) => Some(Bool(s == w.yes))
  }

  function HeadField(w: Words, el: El, k: Key): Option<Json> {
    match RoleOf(k)
    case TypeRole => Told(Attr(el.attrs, k))
    case LookRole => Told(Attr(el.attrs, k))
    case LinkRole => Told(Attr(el.attrs, k))
    case PlaceRole => IntOrKeep(el.attrs, k, Get(el.raw, k))
    case FontRole => UnlessDefault(el, Font, w.font)
    case OpacityRole => OpacityFrom(w, el)
    case _ => Get(el.raw, k)
  }

  function LooksField(w: Words, el: El, k: Key): Option<Json> {
    match RoleOf(k)
    case TypeRole => Told(Attr(el.attrs, k))
    case LookRole => Told(Attr(el.attrs, k))
    case PlaceRole => IntOrKeep(el.attrs, k, Get(el.raw, k))
    case FontRole => UnlessDefault(el, Font, w.font)
    case _ => Get(el.raw, k)
  }

  lemma LooksFieldGet(w: Words, el: El, k: Key)
    ensures Get(ToConfigLooks(w, el), k) == LooksField(w, el, k)
  {
    var f := Assign(el.raw, Type, Attr(el.attrs, Type));
    var placed := AssignInts(f, el.attrs, PLACE);
    SetOrDropGet(el.raw, Type, Told(Attr(el.attrs, Type)), k);
    PlaceGet(f, el.attrs, k);
    LooksGet(placed, el.attrs, k);
    UnlessDefaultGet(AssignAll(placed, el.attrs, LOOKS), el, Font, w.font, k);
    LooksChain(w, el, k, Get(f, k), Get(placed, k), Get(AssignAll(placed, el.attrs, LOOKS), k));
  }

  lemma LooksChain(w: Words, el: El, k: Key, typed: Option<Json>, placed: Option<Json>, painted: Option<Json>)
    requires typed == if k == Type then Told(Attr(el.attrs, Type)) else Get(el.raw, k)
    requires placed == if IsPlace(k) then IntOrKeep(el.attrs, k, typed) else typed
    requires painted == if IsLook(k) then Told(Attr(el.attrs, k)) else placed
    ensures LooksField(w, el, k) == if k == Font then UnlessDefault(el, Font, w.font) else painted
  {}

  lemma LinksFieldGet(el: El, opacity: Option<Json>, looks: Fields, k: Key)
    ensures Get(ToConfigLinks(el, opacity, looks), k) ==
            if IsLink(k) then Told(Attr(el.attrs, k)) else if k == Opacity then opacity else Get(looks, k)
  {
    SetOrDropGet(looks, Opacity, opacity, k);
    LinksGet(SetOrDrop(looks, Opacity, opacity), el.attrs, k);
  }

  lemma HeadGet(w: Words, el: El, k: Key)
    ensures Get(ToConfigHead(w, el), k) == HeadField(w, el, k)
  {
    LooksFieldGet(w, el, k);
    LinksFieldGet(el, OpacityFrom(w, el), ToConfigLooks(w, el), k);
  }

  function PayloadField(w: Words, el: El, effect: Effect, k: Key, before: Option<Json>): Option<Json> {
    match RoleOf(k)
    case SourceRole => UnlessDefault(el, Source, w.source)
    case PayloadRole => Told(Attr(el.attrs, k))
    case OwnedRole => if Owns(effect, k) then Told(Attr(el.attrs, k)) else before
    case _ => before
  }

  /** Only these properties are owned by a trigger; mediaVariable is a payload as well. */
  lemma OwnedRoles(effect: Effect, k: Key)
    ensures Owns(effect, k) ==> IsOwned(k) || IsPayload(k)
    ensures IsPayload(k) && Owns(effect, k) ==> k == MediaVariable
  {}

  lemma PayloadGet(w: Words, el: El, effect: Effect, head: Fields, k: Key)
    requires k == Source ==> Get(head, k) == Get(el.raw, k)
    ensures Get(ToConfigPayload(w, el, effect, head), k) == PayloadField(w, el, effect, k, Get(head, k))
  {
    var owned := AssignAll(head, el.attrs, TriggerKeys(effect));
    OwnedRoles(effect, k);
    OwnedGet(head, el.attrs, effect, k);
    PayloadsGet(owned, el.attrs, k);
    UnlessDefaultGet(AssignAll(owned, el.attrs, CONTENTS + MEDIA), el, Source, w.source, k);
  }

  function TailField(w: Words, el: El, text: Option<Json>, k: Key, before: Option<Json>): Option<Json> {
    match RoleOf(k)
    case TextRole => text
    case GridRole => IntOrKeep(el.attrs, k, before)
    case RefreshRole => RefreshFrom(w, el)
    case _ => before
  }

  lemma RefreshGet(w: Words, el: El, f: Fields, k: Key)
    requires k == AutoRefresh ==> Get(f, k) == Get(el.raw, k)
    ensures Get(ToConfigRefresh(w, el, f), k) == if k == AutoRefresh then RefreshFrom(w, el) else Get(f, k)
  {}

  lemma TailGet(w: Words, el: El, text: Option<Json>, f: Fields, k: Key)
    requires k == AutoRefresh ==> Get(f, k) == Get(el.raw, k)
    ensures Get(ToConfigTail(w, el, text, f), k) == TailField(w, el, text, k, Get(f, k))
  {
    var refresh := ToConfigRefresh(w, el, f);
    RefreshGet(w, el, f, k);
    GridGet(refresh, el.attrs, k);
    SetOrDropGet(AssignInts(refresh, el.attrs, GRID), Text, text, k);
    TailChain(w, el, text, k, Get(f, k), Get(refresh, k), Get(AssignInts(refresh, el.attrs, GRID), k));
  }

  lemma TailChain(w: Words, el: El, text: Option<Json>, k: Key, before: Option<Json>, refreshed: Option<Json>,
                  counted: Option<Json>)
    requires refreshed == if k == AutoRefresh then RefreshFrom(w, el) else before
    requires counted == if IsGrid(k) then IntOrKeep(el.attrs, k, refreshed) else refreshed
    ensures TailField(w, el, text, k, before) == if k == Text then text else counted
  {}

  /** The exported record, property by property, for any canvas element. */
  function ConfigField(w: Words, el: El, effect: Effect, text: Option<Json>, k: Key): Option<Json> {
    TailField(w, el, text, k, PayloadField(w, el, effect, k, HeadField(w, el, k)))
  }

  lemma ConfigBodyGet(w: Words, el: El, effect: Effect, text: Option<Json>, k: Key)
    ensures Get(ToConfigBody(w, el, effect, text), k) == ConfigField(w, el, effect, text, k)
  {
    var head := ToConfigHead(w, el);
    HeadGet(w, el, k);
    PayloadGet(w, el, effect, head, k);
    TailGet(w, el, text, ToConfigPayload(w, el, effect, head), k);
  }

  lemma TriggerGet(w: Words, el: El)
    ensures Get(ToConfigHead(w, el), Trigger) == Told(Attr(el.attrs, Trigger))
  {
    HeadGet(w, el, Trigger);
  }

  lemma ConfigGet(c: Canvas, el: El, effect: Effect, k: Key)
    requires effect == EffectOf(Told(Attr(el.attrs, Trigger)))
    ensures Get(ToConfig(c, el), k) == ConfigField(c.words, el, effect, TextFrom(c, el), k)
  {
    TriggerGet(c.words, el);
    ConfigBodyGet(c.words, el, effect, TextFrom(c, el), k);
  }

  // ----- the attributes of a created element -----

  predicate IsApplied(k: Key) { IsLink(k) || IsPayload(k) || IsOwned(k) || k == Source || k == Image }

  predicate IsAppliedLast(k: Key) { IsGrid(k) || IsLook(k) || k == Font }

  function ApplyField(e: Engine, w: Words, d: Data, k: Key, before: Option<string>): Option<string> {
    if IsApplied(k) || IsAppliedLast(k) then AfterSet(e, before, See(d, k))
    else if k == AutoRefresh then
      match See(d, AutoRefresh) case None => before case Some(v) => Some(if Falsy(Some(v)) then w.no else w.yes)
    else before
  }

  predicate InFirst(k: Key) { IsLink(k) || IsOwned(k) || k in {TriggerValue, TriggerTarget, MediaVariable, VideoVariable, Video} }

  predicate InNext(k: Key) { k in {Variable, ListVariable, Command, Placeholder, Style, Icon, Source, JsonPath, Image} }

  lemma AppliedLinks(k: Key)
    ensures k in APPLIED_LINKS
            <==> k in {Trigger, TriggerValue, TriggerTarget, SceneChange, ExternalAppPath, ExternalAppReturn}
  {}

  lemma AppliedMedia(k: Key)
    ensures k in APPLIED_MEDIA <==> k in {VariableChange, VariableChangeValue, MediaVariable, VideoVariable, Video}
  {}

  lemma FirstKeys(k: Key)
    ensures k in APPLIED_LINKS + APPLIED_MEDIA <==> InFirst(k)
  {
    AppliedLinks(k);
    AppliedMedia(k);
  }

  lemma NextKeys(k: Key)
    ensures k in APPLIED_NEXT <==> InNext(k)
  {}

  lemma AppliedKeys(k: Key)
    ensures IsApplied(k) <==> InFirst(k) || InNext(k)
    ensures !(InFirst(k) && InNext(k))
  {}

  lemma SetTwice(e: Engine, attrs: Attrs, d: Data, first: seq<Key>, next: seq<Key>, k: Key)
    requires (k in first <==> InFirst(k)) && (k in next <==> InNext(k))
    ensures Attr(SetAll(e, SetAll(e, attrs, d, first), d, next), k)
            == if IsApplied(k) then AfterSet(e, Attr(attrs, k), See(d, k)) else Attr(attrs, k)
  {
    AppliedKeys(k);
    SetAllAttr(e, attrs, d, first, k);
    SetAllAttr(e, SetAll(e, attrs, d, first), d, next, k);
  }

  lemma AppliedAttr(e: Engine, attrs: Attrs, d: Data, k: Key)
    ensures Attr(ApplyPlain(e, attrs, d), k) == if IsApplied(k) then AfterSet(e, Attr(attrs, k), See(d, k)) else Attr(attrs, k)
  {
    FirstKeys(k);
    NextKeys(k);
    SetTwice(e, attrs, d, APPLIED_LINKS + APPLIED_MEDIA, APPLIED_NEXT, k);
  }

  lemma LastKeys(k: Key)
    ensures k in APPLIED_LAST <==> IsAppliedLast(k)
  {}

  lemma SetAllIn(e: Engine, attrs: Attrs, d: Data, keys: seq<Key>, k: Key, member: bool)
    requires member <==> k in keys
    ensures Attr(SetAll(e, attrs, d, keys), k) == if member then AfterSet(e, Attr(attrs, k), See(d, k)) else Attr(attrs, k)
  {
    SetAllAttr(e, attrs, d, keys, k);
  }

  lemma AppliedLastAttr(e: Engine, attrs: Attrs, d: Data, k: Key)
    ensures Attr(SetAll(e, attrs, d, APPLIED_LAST), k)
            == if IsAppliedLast(k) then AfterSet(e, Attr(attrs, k), See(d, k)) else Attr(attrs, k)
  {
    LastKeys(k);
    SetAllIn(e, attrs, d, APPLIED_LAST, k, IsAppliedLast(k));
  }

  lemma ApplyConfigAttr(e: Engine, w: Words, attrs: Attrs, d: Data, k: Key)
    ensures Attr(ApplyConfig(e, w, attrs, d), k) == ApplyField(e, w, d, k, Attr(attrs, k))
  {
    AppliedAttr(e, attrs, d, k);
    AppliedLastAttr(e, ApplyRefresh(w, ApplyPlain(e, attrs, d), d), d, k);
  }

  lemma ListAttr(attrs: Attrs, command: string, variable: string, k: Key)
    ensures Attr(ListAttrs(attrs, command, variable), k)
            == if k == Command then Some(command) else if k == Variable then Some(variable) else Attr(attrs, k)
  {}

  lemma BrowserAttr(attrs: Attrs, variable: string, source: string, path: string, refresh: string, k: Key)
    ensures Attr(BrowserAttrs(attrs, variable, source, path, refresh), k) ==
            if k == Variable then Some(variable) else if k == Source then Some(source)
            else if k == JsonPath then Some(path) else if k == AutoRefresh then Some(refresh) else Attr(attrs, k)
  {}

  lemma PutOrDropAttr(attrs: Attrs, k: Key, a: Option<string>, j: Key)
    ensures Attr(PutOrDrop(attrs, k, a), j) == if j == k then a else Attr(attrs, j)
  {}

  lemma LabelAttr(attrs: Attrs, color: Option<string>, font: Option<string>, k: Key)
    ensures Attr(LabelAttrs(attrs, color, font), k) == if k == Color then color else if k == Font then font else Attr(attrs, k)
  {
    PutOrDropAttr(attrs, Color, color, k);
    PutOrDropAttr(PutOrDrop(attrs, Color, color), Font, font, k);
  }

  lemma ButtonAttr(attrs: Attrs, color: Option<string>, bgColor: Option<string>, font: Option<string>, k: Key)
    ensures Attr(ButtonAttrs(attrs, color, bgColor, font), k) ==
            if k == Color then color else if k == BgColor then bgColor else if k == Font then font else Attr(attrs, k)
  {
    var painted := PutOrDrop(attrs, Color, color);
    PutOrDropAttr(attrs, Color, color, k);
    PutOrDropAttr(painted, BgColor, bgColor, k);
    PutOrDropAttr(PutOrDrop(painted, BgColor, bgColor), Font, font, k);
  }

  function TypeField(e: Engine, w: Words, kind: Kind, d: Data, k: Key, before: Option<string>): Option<string> {
    match kind
    case DynamicList => if k == Command || k == Variable then Some(Or(e, See(d, k), "")) else before
    case TextBrowser =>
      if k == Variable || k == JsonPath then Some(Or(e, See(d, k), ""))
      else if k == Source then Some(Or(e, See(d, k), w.source))
      else if k == AutoRefresh then Some(if Falsy(See(d, k)) then w.no else w.yes)
      else before
    case Button => if IsLook(k) || k == Font then Declared(e, See(d, k)) else before
    case Label => if k == Color || k == Font then Declared(e, See(d, k)) else before
    case _ => before
  }

  lemma BrowserField(e: Engine, w: Words, attrs: Attrs, d: Data, k: Key)
    ensures Attr(TypeAttrs(e, w, TextBrowser, attrs, d), k) == TypeField(e, w, TextBrowser, d, k, Attr(attrs, k))
  {
    BrowserAttr(attrs, Or(e, See(d, Variable), ""), Or(e, See(d, Source), w.source), Or(e, See(d, JsonPath), ""),
                if Falsy(See(d, AutoRefresh)) then w.no else w.yes, k);
  }

  lemma ListField(e: Engine, w: Words, attrs: Attrs, d: Data, k: Key)
    ensures Attr(TypeAttrs(e, w, DynamicList, attrs, d), k) == TypeField(e, w, DynamicList, d, k, Attr(attrs, k))
  {
    ListAttr(attrs, Or(e, See(d, Command), ""), Or(e, See(d, Variable), ""), k);
  }

  lemma LookKeys(k: Key)
    ensures IsLook(k) <==> k == Color || k == BgColor
  {}

  lemma ButtonField(e: Engine, w: Words, attrs: Attrs, d: Data, k: Key)
    ensures Attr(TypeAttrs(e, w, Button, attrs, d), k) == TypeField(e, w, Button, d, k, Attr(attrs, k))
  {
    LookKeys(k);
    ButtonAttr(attrs, Declared(e, See(d, Color)), Declared(e, See(d, BgColor)), Declared(e, See(d, Font)), k);
  }

  lemma LabelField(e: Engine, w: Words, attrs: Attrs, d: Data, k: Key)
    ensures Attr(TypeAttrs(e, w, Label, attrs, d), k) == TypeField(e, w, Label, d, k, Attr(attrs, k))
  {
    LabelAttr(attrs, Declared(e, See(d, Color)), Declared(e, See(d, Font)), k);
  }

  lemma TypeAttrsAttr(e: Engine, w: Words, kind: Kind, attrs: Attrs, d: Data, k: Key)
    ensures Attr(TypeAttrs(e, w, kind, attrs, d), k) == TypeField(e, w, kind, d, k, Attr(attrs, k))
  {
    match kind
    case DynamicList => ListField(e, w, attrs, d, k);
    case TextBrowser => BrowserField(e, w, attrs, d, k);
    case Button => ButtonField(e, w, attrs, d, k);
    case Label => LabelField(e, w, attrs, d, k);
    case _ =>
  }

  lemma PlaceAttr(e: Engine, w: Words, d: Data, k: Key)
    ensures Attr(PlaceAttrs(e, w, d), k) == PlaceField(e, w, d, k)
  {}

  lemma MediaAttr(attrs: Attrs, plays: bool, variable: string, k: Key)
    ensures Attr(MediaAttrs(attrs, plays, variable), k) == if k == MediaVariable && plays then Some(variable) else Attr(attrs, k)
  {}

  lemma SizedAttr(attrs: Attrs, width: string, height: string, k: Key)
    ensures Attr(Sized(attrs, width, height), k)
            == if k == Width then Some(width) else if k == Height then Some(height) else Attr(attrs, k)
  {}

  function PlaceField(e: Engine, w: Words, d: Data, k: Key): Option<string> {
    match k
    case Type => Some(Written(e, w, See(d, Type)))
    case X => Some(Written(e, w, See(d, X)))
    case Y => Some(Written(e, w, See(d, Y)))
    case Opacity => Some(OpacityText(e, w, See(d, Opacity)))
    case _ => None
  }

  function SizedField(e: Engine, w: Words, plays: bool, d: Data, k: Key): Option<string> {
    match k
    case Width => Some(SizeAttr(e, See(d, Width), 100))
    case Height => Some(SizeAttr(e, See(d, Height), 40))
    case MediaVariable => if plays then Some(Or(e, See(d, MediaVariable), "")) else None
    case _ => PlaceField(e, w, d, k)
  }

  lemma SizedAttrsAttr(e: Engine, w: Words, plays: bool, d: Data, k: Key)
    ensures Attr(SizedAttrs(e, w, plays, d), k) == SizedField(e, w, plays, d, k)
  {
    var media := MediaAttrs(PlaceAttrs(e, w, d), plays, Or(e, See(d, MediaVariable), ""));
    PlaceAttr(e, w, d, k);
    MediaAttr(PlaceAttrs(e, w, d), plays, Or(e, See(d, MediaVariable), ""), k);
    SizedAttr(media, SizeAttr(e, See(d, Width), 100), SizeAttr(e, See(d, Height), 40), k);
  }

  function BoxField(e: Engine, w: Words, kind: Kind, plays: bool, d: Data, k: Key): Option<string> {
    ApplyField(e, w, d, k, TypeField(e, w, kind, d, k, SizedField(e, w, plays, d, k)))
  }

  /** Every attribute of a created element that is not a menu bar. */
  lemma BoxAttr(e: Engine, w: Words, kind: Kind, plays: bool, d: Data, k: Key)
    ensures Attr(BoxAttrs(e, w, kind, plays, d), k) == BoxField(e, w, kind, plays, d, k)
  {
    var sized := SizedAttrs(e, w, plays, d);
    SizedAttrsAttr(e, w, plays, d, k);
    TypeAttrsAttr(e, w, kind, sized, d, k);
    ApplyConfigAttr(e, w, TypeAttrs(e, w, kind, sized, d), d, k);
  }

  predicate IsTold(k: Key) { IsString(k) || IsOwned(k) }

  /** A plain string property: exported as its text, or not at all when it has none. */
  function ToldOf(e: Engine, v: Option<Json>): Option<Json> { if Nullish(v) then None else Told(Some(JsString(e, v.value))) }

  predicate Quiet(v: Option<Json>, a: Option<string>) { Nullish(v) ==> Told(a) == None }

  lemma SizedQuiet(e: Engine, w: Words, plays: bool, d: Data, k: Key)
    requires IsTold(k)
    ensures Quiet(See(d, k), SizedField(e, w, plays, d, k))
  {
    NoPlace(e, w, d, k);
  }

  lemma NoPlace(e: Engine, w: Words, d: Data, k: Key)
    requires IsTold(k)
    ensures PlaceField(e, w, d, k) == None && k != Width && k != Height
  {}

  lemma TypeQuiet(e: Engine, w: Words, kind: Kind, d: Data, k: Key, before: Option<string>)
    requires IsTold(k) && Quiet(See(d, k), before)
    ensures Quiet(See(d, k), TypeField(e, w, kind, d, k, before))
  {}

  lemma ApplyTold(e: Engine, w: Words, d: Data, k: Key, before: Option<string>)
    requires IsTold(k) && Quiet(See(d, k), before)
    ensures Told(ApplyField(e, w, d, k, before)) == ToldOf(e, See(d, k))
  {}

  lemma BoxTold(e: Engine, w: Words, kind: Kind, plays: bool, d: Data, k: Key)
    requires IsTold(k)
    ensures Told(BoxField(e, w, kind, plays, d, k)) == ToldOf(e, See(d, k))
  {
    var sized := SizedField(e, w, plays, d, k);
    SizedQuiet(e, w, plays, d, k);
    TypeQuiet(e, w, kind, d, k, sized);
    ApplyTold(e, w, d, k, TypeField(e, w, kind, d, k, sized));
  }

  function MenuField(e: Engine, c: Canvas, d: Data, k: Key): Option<string> {
    match k
    case Width => Some(e.text(Int(c.width)))
    case Height => Some(if Falsy(See(d, Height)) then e.text(Int(50)) else JsString(e, See(d, Height).value))
    case _ => PlaceField(e, c.words, d, k)
  }

  function CreatedField(e: Engine, c: Canvas, kind: Kind, effect: Effect, d: Data, k: Key): Option<string> {
    if kind == MenuBar then MenuField(e, c, d, k) else BoxField(e, c.words, kind, effect == PlayMedia, d, k)
  }

  /** A created element, attribute by attribute. */
  ghost predicate Created(e: Engine, c: Canvas, kind: Kind, effect: Effect, d: Data, el: El) {
    && el.raw == SavedFields(d.own)
    && el.span == (if kind == MenuBar then None else Some(Shown(e, c, kind, d)))
    && (kind != MenuBar ==> el.auto == (kind == TextBrowser || Falsy(See(d, Text))))
    && forall k {:trigger CreatedField(e, c, kind, effect, d, k)} :: Attr(el.attrs, k) == CreatedField(e, c, kind, effect, d, k)
  }

  lemma MenuAttr(e: Engine, c: Canvas, d: Data, k: Key)
    ensures Attr(MenuAttrs(e, c, d), k) == MenuField(e, c, d, k)
  {
    PlaceAttr(e, c.words, d, k);
    SizedAttr(PlaceAttrs(e, c.words, d), e.text(Int(c.width)),
              if Falsy(See(d, Height)) then e.text(Int(50)) else JsString(e, See(d, Height).value), k);
  }

  lemma CreateIs(e: Engine, c: Canvas, kind: Kind, effect: Effect, d: Data)
    ensures Created(e, c, kind, effect, d, CreateBy(e, c, kind, effect, d))
  {
    forall k ensures Attr(CreateBy(e, c, kind, effect, d).attrs, k) == CreatedField(e, c, kind, effect, d, k) {
      if kind == MenuBar {
        MenuAttr(e, c, d, k);
      } else {
        BoxAttr(e, c.words, kind, effect == PlayMedia, d, k);
      }
    }
  }

  // ----- export of a created element, property by property -----

  lemma MenuTold(e: Engine, c: Canvas, d: Data, k: Key)
    requires IsTold(k)
    ensures MenuField(e, c, d, k) == None
  {}

  lemma CreatedFieldTold(e: Engine, c: Canvas, kind: Kind, effect: Effect, d: Data, k: Key)
    requires IsTold(k)
    ensures Told(CreatedField(e, c, kind, effect, d, k)) == if kind == MenuBar then None else ToldOf(e, See(d, k))
  {
    if kind == MenuBar { MenuTold(e, c, d, k); } else { BoxTold(e, c.words, kind, effect == PlayMedia, d, k); }
  }

  lemma CreatedTold(e: Engine, c: Canvas, kind: Kind, effect: Effect, d: Data, el: El, k: Key)
    requires Created(e, c, kind, effect, d, el) && IsTold(k)
    ensures Told(Attr(el.attrs, k)) == if kind == MenuBar then None else ToldOf(e, See(d, k))
  {
    assert Attr(el.attrs, k) == CreatedField(e, c, kind, effect, d, k);
    CreatedFieldTold(e, c, kind, effect, d, k);
  }

  /** The effect of the trigger an exported element carries. */
  function EffectOut(e: Engine, kind: Kind, d: Data): Effect {
    if kind == MenuBar then OtherEffect else EffectOf(ToldOf(e, See(d, Trigger)))
  }

  lemma ToldInConfig(w: Words, el: El, effect: Effect, text: Option<Json>, k: Key)
    requires IsString(k)
    ensures ConfigField(w, el, effect, text, k) == Told(Attr(el.attrs, k))
  {}

  lemma OwnedInConfig(w: Words, el: El, effect: Effect, text: Option<Json>, k: Key)
    requires IsOwned(k)
    ensures ConfigField(w, el, effect, text, k) == if Owns(effect, k) then Told(Attr(el.attrs, k)) else Get(el.raw, k)
  {}

  lemma RestInConfig(w: Words, el: El, effect: Effect, text: Option<Json>, k: Key)
    requires RoleOf(k) == OtherRole
    ensures ConfigField(w, el, effect, text, k) == Get(el.raw, k)
  {}

  lemma SavedGet(f: Fields, k: Key)
    ensures Get(SavedFields(f), k) == SavedOpt(Get(f, k))
  {}

  lemma NumbersInConfig(w: Words, el: El, effect: Effect, text: Option<Json>, k: Key)
    requires IsPlace(k) || IsGrid(k)
    ensures ConfigField(w, el, effect, text, k) == IntOrKeep(el.attrs, k, Get(el.raw, k))
  {}

  /** An own value and what the canvas sees: an own value hides an inherited one. */
  predicate Sees(v: Option<Json>, u: Option<Json>) { v.Some? ==> u == v }

  lemma SeesOwn(d: Data, k: Key)
    ensures Sees(Get(d.own, k), See(d, k))
  {}

  /**
   A declared value exported as its text, and an undeclared one as it was preserved. An
   inherited value that is the control's default is not written.
   */
  function DeclaredOut(e: Engine, fallback: string, v: Option<Json>, u: Option<Json>): Option<Json> {
    if Nullish(u) || u.value == Str("") then SavedOpt(v)
    else if v.None? && JsString(e, u.value) == fallback then None
    else Told(Some(JsString(e, u.value)))
  }

  function FontOut(e: Engine, w: Words, kind: Kind, v: Option<Json>, u: Option<Json>): Option<Json> {
    if kind == MenuBar then SavedOpt(v) else DeclaredOut(e, w.font, v, u)
  }

  /** A text browser writes out the default source where the config said null. */
  function SourceOut(e: Engine, w: Words, kind: Kind, v: Option<Json>, u: Option<Json>): Option<Json> {
    if kind == MenuBar then SavedOpt(v)
    else if kind == TextBrowser && v == Some(Null) then Some(Str(w.source))
    else DeclaredOut(e, w.source, v, u)
  }

  function RefreshOut(kind: Kind, v: Option<Json>, u: Option<Json>): Option<Json> {
    if kind == MenuBar then v
    else if u.None? then if kind == TextBrowser then Some(Bool(false)) else None
    else Some(Bool(!Falsy(u)))
  }

  function OpacityOut(e: Engine, w: Words, v: Option<Json>, u: Option<Json>): Option<Json> {
    var s := OpacityText(e, w, u);
    if v.None? && s == w.full then None
    else match ParseInt(s) case None => Some(Null) case Some(n) => Some(Hundredth(n))
  }

  function GridOut(e: Engine, kind: Kind, v: Option<Json>, u: Option<Json>): Option<Json> {
    if kind == MenuBar || Nullish(u) || u.value == Str("") then v else IntAttr(JsString(e, u.value))
  }

  /** The source attribute a text browser synthesises its label from. */
  function SourceShown(e: Engine, w: Words, u: Option<Json>): string {
    if Nullish(u) || JsString(e, u.value) == "" then w.source else JsString(e, u.value)
  }

  function TextOut(e: Engine, c: Canvas, kind: Kind, source: Option<Json>, v: Option<Json>, u: Option<Json>): Option<Json> {
    match kind
    case MenuBar => SavedOpt(v)
    case Input => SavedOpt(v)
    case TextBrowser =>
      if c.sourceLabel(Or(e, source, c.words.source)) == c.sourceLabel(SourceShown(e, c.words, source)) then
        if Falsy(SavedOpt(v)) then None else SavedOpt(v)
      else Told(Some(c.sourceLabel(Or(e, source, c.words.source))))
    case _ => if Falsy(u) then None else Told(Some(JsString(e, u.value)))
  }

  lemma HundredText(e: Engine)
    requires PrintsIntegers(e)
    ensures e.text(Int(100)) == "100"
  {
    assert Decimal(10) == "10" && Decimal(100) == "100";
    assert e.text(Int(100)) == IntText(100);
  }

  lemma PercentBounds(r: real)
    requires 0.0 <= r <= 1.0
    ensures 0 <= Round(r * 100.0) <= 100
  {}

  lemma OpacityTextSaid(e: Engine, c: Canvas, u: Option<Json>)
    requires Ready(e, c)
    ensures OpacityText(e, c.words, u) != ""
  {
    if u.Some? && Percent(e, u.value).Some? { var m := IntAttrStable(e, Percent(e, u.value).value); }
  }

  lemma OpacityCase(e: Engine, w: Words, el: El, v: Option<Json>, u: Option<Json>)
    requires Attr(el.attrs, Opacity) == Some(OpacityText(e, w, u)) && Get(el.raw, Opacity) == SavedOpt(v)
    requires OpacityText(e, w, u) != ""
    ensures OpacityFrom(w, el) == OpacityOut(e, w, v, u)
  {}

  lemma ExportOpacity(e: Engine, c: Canvas, kind: Kind, effect: Effect, d: Data, el: El)
    requires Created(e, c, kind, effect, d, el) && Ready(e, c)
    ensures OpacityFrom(c.words, el) == OpacityOut(e, c.words, Get(d.own, Opacity), See(d, Opacity))
  {
    OpacityTextSaid(e, c, See(d, Opacity));
    SavedGet(d.own, Opacity);
    OpacityAttr(e, c, kind, effect, d);
    assert Attr(el.attrs, Opacity) == CreatedField(e, c, kind, effect, d, Opacity);
    OpacityCase(e, c.words, el, Get(d.own, Opacity), See(d, Opacity));
  }

  lemma OpacityAttr(e: Engine, c: Canvas, kind: Kind, effect: Effect, d: Data)
    ensures CreatedField(e, c, kind, effect, d, Opacity) == Some(OpacityText(e, c.words, See(d, Opacity)))
  {}

  /** The box a created element takes, as an attribute. */
  function PlaceText(e: Engine, c: Canvas, kind: Kind, k: Key, v: Option<Json>): string {
    match k
    case Width => if kind == MenuBar then e.text(Int(c.width)) else SizeAttr(e, v, 100)
    case Height =>
      if kind != MenuBar then SizeAttr(e, v, 40) else if Falsy(v) then e.text(Int(50)) else JsString(e, v.value)
    case _ => Written(e, c.words, v)
  }

  lemma MenuPlaces(e: Engine, c: Canvas, d: Data, k: Key)
    requires IsPlace(k) || IsGrid(k)
    ensures MenuField(e, c, d, k) == if IsPlace(k) then Some(PlaceText(e, c, MenuBar, k, See(d, k))) else None
  {}

  lemma SizedPlaces(e: Engine, c: Canvas, kind: Kind, plays: bool, d: Data, k: Key)
    requires (IsPlace(k) || IsGrid(k)) && kind != MenuBar
    ensures SizedField(e, c.words, plays, d, k) == if IsPlace(k) then Some(PlaceText(e, c, kind, k, See(d, k))) else None
  {}

  lemma TypeKeeps(e: Engine, w: Words, kind: Kind, d: Data, k: Key, before: Option<string>)
    requires IsPlace(k) || IsGrid(k)
    ensures TypeField(e, w, kind, d, k, before) == before
  {}

  lemma ApplyKeeps(e: Engine, w: Words, d: Data, k: Key, before: Option<string>)
    requires IsPlace(k) || IsGrid(k)
    ensures ApplyField(e, w, d, k, before) == if IsGrid(k) then AfterSet(e, before, See(d, k)) else before
  {
    NumbersApplied(k);
  }

  lemma NumbersApplied(k: Key)
    requires IsPlace(k) || IsGrid(k)
    ensures !IsApplied(k) && (IsAppliedLast(k) <==> IsGrid(k)) && k != AutoRefresh
  {}

  lemma BoxPlaces(e: Engine, c: Canvas, kind: Kind, plays: bool, d: Data, k: Key)
    requires (IsPlace(k) || IsGrid(k)) && kind != MenuBar
    ensures BoxField(e, c.words, kind, plays, d, k) ==
            if IsPlace(k) then Some(PlaceText(e, c, kind, k, See(d, k))) else AfterSet(e, None, See(d, k))
  {
    var sized := SizedField(e, c.words, plays, d, k);
    SizedPlaces(e, c, kind, plays, d, k);
    TypeKeeps(e, c.words, kind, d, k, sized);
    ApplyKeeps(e, c.words, d, k, sized);
  }

  lemma CreatedPlaces(e: Engine, c: Canvas, kind: Kind, effect: Effect, d: Data, k: Key)
    requires IsPlace(k) || IsGrid(k)
    ensures CreatedField(e, c, kind, effect, d, k) ==
            if IsPlace(k) then Some(PlaceText(e, c, kind, k, See(d, k)))
            else if kind == MenuBar then None else AfterSet(e, None, See(d, k))
  {
    if kind == MenuBar { MenuPlaces(e, c, d, k); } else { BoxPlaces(e, c, kind, effect == PlayMedia, d, k); }
  }

  lemma FalsySaved(v: Option<Json>)
    requires v.Some? ==> !v.value.NonFinite?
    ensures Falsy(SavedOpt(v)) == Falsy(v)
  {}

  /** The label of a text browser that shows one source while its attribute may stand for another. */
  lemma BrowserText(e: Engine, c: Canvas, el: El, typeName: string, source: Option<Json>, v: Option<Json>,
                    u: Option<Json>)
    requires Get(el.raw, Text) == SavedOpt(v) && el.auto
    requires el.span == Some(c.sourceLabel(Or(e, source, c.words.source)))
    requires Synthesized(c, TextBrowser, typeName, el.attrs) == c.sourceLabel(SourceShown(e, c.words, source))
    ensures TextBy(c, TextBrowser, typeName, el) == TextOut(e, c, TextBrowser, source, v, u)
  {}

  lemma SourceSynthesized(e: Engine, c: Canvas, typeName: string, attrs: Attrs, source: Option<Json>)
    requires Attr(attrs, Source) == AfterSet(e, Some(Or(e, source, c.words.source)), source)
    ensures Synthesized(c, TextBrowser, typeName, attrs) == c.sourceLabel(SourceShown(e, c.words, source))
  {}

  lemma BrowserSource(e: Engine, w: Words, plays: bool, d: Data)
    ensures BoxField(e, w, TextBrowser, plays, d, Source) == AfterSet(e, Some(Or(e, See(d, Source), w.source)), See(d, Source))
  {}

  /** The label of an element that is no text browser: its text, or the caption of its type. */
  lemma PlainText(e: Engine, c: Canvas, kind: Kind, el: El, typeName: string, v: Option<Json>, u: Option<Json>)
    requires kind !in {MenuBar, Input, TextBrowser} && NormalValue(Text, v) && Sees(v, u) && Get(el.raw, Text) == SavedOpt(v)
    requires el.span == Some(Or(e, u, c.caption(typeName))) && el.auto == Falsy(u) && typeName != ""
    ensures TextBy(c, kind, typeName, el) == if Falsy(u) then None else Told(Some(JsString(e, u.value)))
  {
    FalsySaved(v);
  }

  lemma ExportText(e: Engine, c: Canvas, kind: Kind, effect: Effect, d: Data, el: El)
    requires Created(e, c, kind, effect, d, el) && NormalType(Get(d.own, Type)) && NormalValue(Text, Get(d.own, Text))
    ensures TextBy(c, kind, TypeIn(d.own), el) == TextOut(e, c, kind, See(d, Source), Get(d.own, Text), See(d, Text))
  {
    SavedGet(d.own, Text);
    if kind == TextBrowser {
      assert Attr(el.attrs, Source) == CreatedField(e, c, kind, effect, d, Source);
      BrowserSource(e, c.words, effect == PlayMedia, d);
      SourceSynthesized(e, c, TypeIn(d.own), el.attrs, See(d, Source));
      BrowserText(e, c, el, TypeIn(d.own), See(d, Source), Get(d.own, Text), See(d, Text));
    } else if kind != MenuBar && kind != Input {
      SeesOwn(d, Text);
      PlainText(e, c, kind, el, TypeIn(d.own), Get(d.own, Text), See(d, Text));
    }
  }

  lemma ExportType(e: Engine, c: Canvas, kind: Kind, effect: Effect, d: Data, el: El)
    requires Created(e, c, kind, effect, d, el) && NormalType(Get(d.own, Type))
    ensures Told(Attr(el.attrs, Type)) == Get(d.own, Type) && TypeFrom(el) == TypeIn(d.own)
  {
    assert Attr(el.attrs, Type) == CreatedField(e, c, kind, effect, d, Type);
  }

  lemma DefaultCase(e: Engine, el: El, k: Key, fallback: string, v: Option<Json>, u: Option<Json>)
    requires Attr(el.attrs, k) == AfterSet(e, None, u) && Get(el.raw, k) == SavedOpt(v) && Sees(v, u)
    ensures UnlessDefault(el, k, fallback) == DeclaredOut(e, fallback, v, u)
  {}

  lemma FontAttr(e: Engine, c: Canvas, kind: Kind, effect: Effect, d: Data)
    ensures CreatedField(e, c, kind, effect, d, Font) == if kind == MenuBar then None else AfterSet(e, None, See(d, Font))
  {}

  lemma ExportFont(e: Engine, c: Canvas, kind: Kind, effect: Effect, d: Data, el: El)
    requires Created(e, c, kind, effect, d, el)
    ensures UnlessDefault(el, Font, c.words.font) == FontOut(e, c.words, kind, Get(d.own, Font), See(d, Font))
  {
    assert Attr(el.attrs, Font) == CreatedField(e, c, kind, effect, d, Font);
    FontAttr(e, c, kind, effect, d);
    SavedGet(d.own, Font);
    SeesOwn(d, Font);
    if kind != MenuBar { DefaultCase(e, el, Font, c.words.font, Get(d.own, Font), See(d, Font)); }
  }

  lemma SourceAttr(e: Engine, c: Canvas, kind: Kind, effect: Effect, d: Data)
    ensures CreatedField(e, c, kind, effect, d, Source) ==
            if kind == MenuBar then None
            else AfterSet(e, if kind == TextBrowser then Some(Or(e, See(d, Source), c.words.source)) else None, See(d, Source))
  {}

  lemma BrowserSourceCase(e: Engine, w: Words, el: El, v: Option<Json>, u: Option<Json>)
    requires Attr(el.attrs, Source) == AfterSet(e, Some(Or(e, u, w.source)), u)
    requires Get(el.raw, Source) == SavedOpt(v) && Sees(v, u) && w.source != ""
    ensures UnlessDefault(el, Source, w.source) == SourceOut(e, w, TextBrowser, v, u)
  {}

  lemma ExportSource(e: Engine, c: Canvas, kind: Kind, effect: Effect, d: Data, el: El)
    requires Created(e, c, kind, effect, d, el) && Distinct(c.words)
    ensures UnlessDefault(el, Source, c.words.source) == SourceOut(e, c.words, kind, Get(d.own, Source), See(d, Source))
  {
    assert Attr(el.attrs, Source) == CreatedField(e, c, kind, effect, d, Source);
    SourceAttr(e, c, kind, effect, d);
    SavedGet(d.own, Source);
    SeesOwn(d, Source);
    if kind == TextBrowser { BrowserSourceCase(e, c.words, el, Get(d.own, Source), See(d, Source)); }
    else if kind != MenuBar { DefaultCase(e, el, Source, c.words.source, Get(d.own, Source), See(d, Source)); }
  }

  lemma RefreshAttr(e: Engine, c: Canvas, kind: Kind, effect: Effect, d: Data)
    ensures CreatedField(e, c, kind, effect, d, AutoRefresh) ==
            if kind == MenuBar || (kind != TextBrowser && See(d, AutoRefresh).None?) then None
            else Some(if Falsy(See(d, AutoRefresh)) then c.words.no else c.words.yes)
  {}

  lemma ExportRefresh(e: Engine, c: Canvas, kind: Kind, effect: Effect, d: Data, el: El)
    requires Created(e, c, kind, effect, d, el) && Distinct(c.words) && NormalValue(AutoRefresh, Get(d.own, AutoRefresh))
    ensures RefreshFrom(c.words, el) == RefreshOut(kind, Get(d.own, AutoRefresh), See(d, AutoRefresh))
  {
    assert Attr(el.attrs, AutoRefresh) == CreatedField(e, c, kind, effect, d, AutoRefresh);
    RefreshAttr(e, c, kind, effect, d);
    SavedGet(d.own, AutoRefresh);
    SeesOwn(d, AutoRefresh);
  }

  /**
   What a property becomes on export, given its own value and the value seen, the element's
   kind, whether its trigger owns the property, and its source.
   */
  function Out(role: Role, e: Engine, c: Canvas, kind: Kind, owned: bool, source: Option<Json>, k: Key,
               v: Option<Json>, u: Option<Json>): Option<Json> {
    match role
    case TypeRole => v
    case LookRole => if kind == MenuBar then None else ToldOf(e, u)
    case LinkRole => if kind == MenuBar then None else ToldOf(e, u)
    case PayloadRole => if kind == MenuBar then None else ToldOf(e, u)
    case OwnedRole => if owned then ToldOf(e, u) else SavedOpt(v)
    case PlaceRole => IntAttr(PlaceText(e, c, kind, k, u))
    case GridRole => GridOut(e, kind, v, u)
    case FontRole => FontOut(e, c.words, kind, v, u)
    case SourceRole => SourceOut(e, c.words, kind, v, u)
    case OpacityRole => OpacityOut(e, c.words, v, u)
    case RefreshRole => RefreshOut(kind, v, u)
    case TextRole => TextOut(e, c, kind, source, v, u)
    case OtherRole => SavedOpt(v)
  }

  /** One property of the export, read off the record. */
  function Outcome(e: Engine, c: Canvas, kind: Kind, out: Effect, d: Data, k: Key): Option<Json> {
    Out(RoleOf(k), e, c, kind, Owns(out, k), See(d, Source), k, Get(d.own, k), See(d, k))
  }

  function OutField(e: Engine, c: Canvas, kind: Kind, d: Data, k: Key): Option<Json> {
    Outcome(e, c, kind, EffectOut(e, kind, d), d, k)
  }

  lemma OwnedExported(e: Engine, c: Canvas, kind: Kind, effect: Effect, d: Data, el: El, out: Effect,
                      text: Option<Json>, k: Key)
    requires Created(e, c, kind, effect, d, el) && IsOwned(k) && (kind == MenuBar ==> out == OtherEffect)
    ensures ConfigField(c.words, el, out, text, k) == if Owns(out, k) then ToldOf(e, See(d, k)) else SavedOpt(Get(d.own, k))
  {
    CreatedTold(e, c, kind, effect, d, el, k);
    SavedGet(d.own, k);
    OwnedCase(e, c.words, kind, el, out, text, k, Get(d.own, k), See(d, k));
  }

  lemma ExportedOwned(e: Engine, c: Canvas, kind: Kind, effect: Effect, d: Data, el: El, out: Effect,
                      text: Option<Json>, k: Key)
    requires Created(e, c, kind, effect, d, el) && IsOwned(k) && (kind == MenuBar ==> out == OtherEffect)
    ensures ConfigField(c.words, el, out, text, k) == Outcome(e, c, kind, out, d, k)
  {
    OwnedExported(e, c, kind, effect, d, el, out, text, k);
    OwnedOutcome(e, c, kind, out, d, k);
  }

  lemma OwnedOutcome(e: Engine, c: Canvas, kind: Kind, out: Effect, d: Data, k: Key)
    requires IsOwned(k)
    ensures Outcome(e, c, kind, out, d, k) == if Owns(out, k) then ToldOf(e, See(d, k)) else SavedOpt(Get(d.own, k))
  {}

  lemma OwnedCase(e: Engine, w: Words, kind: Kind, el: El, out: Effect, text: Option<Json>, k: Key, v: Option<Json>,
                  u: Option<Json>)
    requires IsOwned(k) && (kind == MenuBar ==> out == OtherEffect)
    requires Told(Attr(el.attrs, k)) == if kind == MenuBar then None else ToldOf(e, u)
    requires Get(el.raw, k) == SavedOpt(v)
    ensures ConfigField(w, el, out, text, k) == if Owns(out, k) then ToldOf(e, u) else SavedOpt(v)
  {
    OwnedInConfig(w, el, out, text, k);
  }

  lemma ToldOutcome(e: Engine, c: Canvas, kind: Kind, out: Effect, d: Data, k: Key)
    requires IsString(k)
    ensures Outcome(e, c, kind, out, d, k) == if kind == MenuBar then None else ToldOf(e, See(d, k))
  {}

  lemma ExportedTold(e: Engine, c: Canvas, kind: Kind, effect: Effect, d: Data, el: El, out: Effect,
                     text: Option<Json>, k: Key)
    requires Created(e, c, kind, effect, d, el) && IsString(k)
    ensures ConfigField(c.words, el, out, text, k) == Outcome(e, c, kind, out, d, k)
  {
    CreatedTold(e, c, kind, effect, d, el, k);
    ToldInConfig(c.words, el, out, text, k);
    ToldOutcome(e, c, kind, out, d, k);
  }

  lemma OtherOutcome(e: Engine, c: Canvas, kind: Kind, out: Effect, d: Data, k: Key)
    requires RoleOf(k) == OtherRole
    ensures Outcome(e, c, kind, out, d, k) == SavedOpt(Get(d.own, k))
  {}

  lemma ExportedOther(e: Engine, c: Canvas, kind: Kind, effect: Effect, d: Data, el: El, out: Effect,
                      text: Option<Json>, k: Key)
    requires Created(e, c, kind, effect, d, el) && RoleOf(k) == OtherRole
    ensures ConfigField(c.words, el, out, text, k) == Outcome(e, c, kind, out, d, k)
  {
    RestInConfig(c.words, el, out, text, k);
    SavedGet(d.own, k);
    OtherOutcome(e, c, kind, out, d, k);
  }

  lemma PlaceExported(e: Engine, c: Canvas, kind: Kind, effect: Effect, d: Data, el: El, out: Effect,
                      text: Option<Json>, k: Key)
    requires Created(e, c, kind, effect, d, el) && IsPlace(k)
    ensures ConfigField(c.words, el, out, text, k) == IntAttr(PlaceText(e, c, kind, k, See(d, k)))
  {
    assert Attr(el.attrs, k) == CreatedField(e, c, kind, effect, d, k);
    CreatedPlaces(e, c, kind, effect, d, k);
    NumbersInConfig(c.words, el, out, text, k);
  }

  lemma ExportedPlace(e: Engine, c: Canvas, kind: Kind, effect: Effect, d: Data, el: El, out: Effect,
                      text: Option<Json>, k: Key)
    requires Created(e, c, kind, effect, d, el) && IsPlace(k)
    ensures ConfigField(c.words, el, out, text, k) == Outcome(e, c, kind, out, d, k)
  {
    PlaceExported(e, c, kind, effect, d, el, out, text, k);
    PlaceOutcome(e, c, kind, out, d, k);
  }

  lemma PlaceOutcome(e: Engine, c: Canvas, kind: Kind, out: Effect, d: Data, k: Key)
    requires IsPlace(k)
    ensures Outcome(e, c, kind, out, d, k) == IntAttr(PlaceText(e, c, kind, k, See(d, k)))
  {}

  lemma GridSaved(v: Option<Json>)
    requires v.None? || IsInt(v)
    ensures SavedOpt(v) == v
  {}

  lemma GridCase(e: Engine, w: Words, kind: Kind, el: El, out: Effect, text: Option<Json>, k: Key, v: Option<Json>,
                 u: Option<Json>)
    requires IsGrid(k) && Get(el.raw, k) == v
    requires Attr(el.attrs, k) == if kind == MenuBar then None else AfterSet(e, None, u)
    ensures ConfigField(w, el, out, text, k) == GridOut(e, kind, v, u)
  {
    NumbersInConfig(w, el, out, text, k);
  }

  lemma GridAttr(e: Engine, c: Canvas, kind: Kind, effect: Effect, d: Data, el: El, k: Key)
    requires Created(e, c, kind, effect, d, el) && IsGrid(k)
    ensures Attr(el.attrs, k) == if kind == MenuBar then None else AfterSet(e, None, See(d, k))
    ensures Get(el.raw, k) == SavedOpt(Get(d.own, k))
  {
    assert Attr(el.attrs, k) == CreatedField(e, c, kind, effect, d, k);
    CreatedPlaces(e, c, kind, effect, d, k);
    SavedGet(d.own, k);
  }

  lemma NormalGrid(k: Key, v: Option<Json>)
    requires IsGrid(k) && NormalValue(k, v)
    ensures v.None? || IsInt(v)
  {}

  lemma GridExported(e: Engine, c: Canvas, kind: Kind, effect: Effect, d: Data, el: El, out: Effect,
                     text: Option<Json>, k: Key)
    requires Created(e, c, kind, effect, d, el) && NormalValue(k, Get(d.own, k)) && IsGrid(k)
    ensures ConfigField(c.words, el, out, text, k) == GridOut(e, kind, Get(d.own, k), See(d, k))
  {
    GridAttr(e, c, kind, effect, d, el, k);
    NormalGrid(k, Get(d.own, k));
    GridSaved(Get(d.own, k));
    GridCase(e, c.words, kind, el, out, text, k, Get(d.own, k), See(d, k));
  }

  lemma ExportedGrid(e: Engine, c: Canvas, kind: Kind, effect: Effect, d: Data, el: El, out: Effect,
                     text: Option<Json>, k: Key)
    requires Created(e, c, kind, effect, d, el) && NormalValue(k, Get(d.own, k)) && IsGrid(k)
    ensures ConfigField(c.words, el, out, text, k) == Outcome(e, c, kind, out, d, k)
  {
    GridExported(e, c, kind, effect, d, el, out, text, k);
    GridOutcome(e, c, kind, out, d, k);
  }

  lemma GridOutcome(e: Engine, c: Canvas, kind: Kind, out: Effect, d: Data, k: Key)
    requires IsGrid(k)
    ensures Outcome(e, c, kind, out, d, k) == GridOut(e, kind, Get(d.own, k), See(d, k))
  {}

  lemma ExportedSpecial(e: Engine, c: Canvas, kind: Kind, effect: Effect, d: Data, el: El, out: Effect,
                        text: Option<Json>, k: Key)
    requires Created(e, c, kind, effect, d, el) && Ready(e, c) && NormalType(Get(d.own, Type))
    requires NormalValue(k, Get(d.own, k))
    requires k in {Type, Font, Source, Opacity, AutoRefresh, Text}
    requires text == TextBy(c, kind, TypeIn(d.own), el)
    ensures ConfigField(c.words, el, out, text, k) == Outcome(e, c, kind, out, d, k)
  {
    SpecialInConfig(c.words, el, out, text, k);
    SpecialOutcome(e, c, kind, out, d, k);
    LateInConfig(c.words, el, out, text, k);
    LateOutcome(e, c, kind, out, d, k);
    match k
    case Type => ExportType(e, c, kind, effect, d, el);
    case Font => ExportFont(e, c, kind, effect, d, el);
    case Source => ExportSource(e, c, kind, effect, d, el);
    case Opacity => ExportOpacity(e, c, kind, effect, d, el);
    case AutoRefresh => ExportRefresh(e, c, kind, effect, d, el);
    case Text => ExportText(e, c, kind, effect, d, el);
  }

  lemma SpecialInConfig(w: Words, el: El, out: Effect, text: Option<Json>, k: Key)
    ensures k == Type ==> ConfigField(w, el, out, text, k) == Told(Attr(el.attrs, Type))
    ensures k == Font ==> ConfigField(w, el, out, text, k) == UnlessDefault(el, Font, w.font)
    ensures k == Source ==> ConfigField(w, el, out, text, k) == UnlessDefault(el, Source, w.source)
  {}

  lemma LateInConfig(w: Words, el: El, out: Effect, text: Option<Json>, k: Key)
    ensures k == Opacity ==> ConfigField(w, el, out, text, k) == OpacityFrom(w, el)
    ensures k == AutoRefresh ==> ConfigField(w, el, out, text, k) == RefreshFrom(w, el)
    ensures k == Text ==> ConfigField(w, el, out, text, k) == text
  {}

  lemma SpecialOutcome(e: Engine, c: Canvas, kind: Kind, out: Effect, d: Data, k: Key)
    ensures k == Type ==> Outcome(e, c, kind, out, d, k) == Get(d.own, k)
    ensures k == Font ==> Outcome(e, c, kind, out, d, k) == FontOut(e, c.words, kind, Get(d.own, k), See(d, k))
    ensures k == Source ==> Outcome(e, c, kind, out, d, k) == SourceOut(e, c.words, kind, Get(d.own, k), See(d, k))
  {}

  lemma LateOutcome(e: Engine, c: Canvas, kind: Kind, out: Effect, d: Data, k: Key)
    ensures k == Opacity ==> Outcome(e, c, kind, out, d, k) == OpacityOut(e, c.words, Get(d.own, k), See(d, k))
    ensures k == AutoRefresh ==> Outcome(e, c, kind, out, d, k) == RefreshOut(kind, Get(d.own, k), See(d, k))
    ensures k == Text ==> Outcome(e, c, kind, out, d, k) == TextOut(e, c, kind, See(d, Source), Get(d.own, k), See(d, k))
  {}

  lemma ExportedIs(e: Engine, c: Canvas, kind: Kind, effect: Effect, d: Data, el: El, out: Effect,
                   text: Option<Json>, k: Key)
    requires Created(e, c, kind, effect, d, el) && Ready(e, c) && NormalType(Get(d.own, Type))
    requires NormalValue(k, Get(d.own, k))
    requires text == TextBy(c, kind, TypeIn(d.own), el) && (kind == MenuBar ==> out == OtherEffect)
    ensures ConfigField(c.words, el, out, text, k) == Outcome(e, c, kind, out, d, k)
  {
    match RoleOf(k)
    case OtherRole => ExportedOther(e, c, kind, effect, d, el, out, text, k);
    case LookRole => ExportedTold(e, c, kind, effect, d, el, out, text, k);
    case LinkRole => ExportedTold(e, c, kind, effect, d, el, out, text, k);
    case PayloadRole => ExportedTold(e, c, kind, effect, d, el, out, text, k);
    case OwnedRole => ExportedOwned(e, c, kind, effect, d, el, out, text, k);
    case PlaceRole => ExportedPlace(e, c, kind, effect, d, el, out, text, k);
    case GridRole => ExportedGrid(e, c, kind, effect, d, el, out, text, k);
    case _ => ExportedSpecial(e, c, kind, effect, d, el, out, text, k);
  }

  // ----- exporting again -----

  /** What importing an exported property makes of it: a missing size becomes null, an opacity is clamped. */
  function Reread(e: Engine, k: Key, out: Option<Json>): Option<Json> {
    match k
    case Width => if out.None? then Some(Null) else out
    case Height => if out.None? then Some(Null) else out
    case Opacity => (match ToNumber(e, out) case None => None case Some(r) => Some(Num(Clamp(r))))
    case _ => out
  }

  lemma ToldAgain(e: Engine, u: Option<Json>)
    ensures ToldOf(e, ToldOf(e, u)) == ToldOf(e, u)
  {}

  lemma SavedOptAgain(v: Option<Json>)
    ensures SavedOpt(SavedOpt(v)) == SavedOpt(v)
  {
    if v.Some? { SavedAgain(v.value); }
  }

  lemma DeclaredAgain(e: Engine, fallback: string, v: Option<Json>, u: Option<Json>)
    requires Sees(v, u)
    ensures var out := DeclaredOut(e, fallback, v, u); DeclaredOut(e, fallback, out, out) == out
  {}

  lemma SourceAgain(e: Engine, w: Words, kind: Kind, v: Option<Json>, u: Option<Json>)
    requires w.source != "" && Sees(v, u)
    ensures var out := SourceOut(e, w, kind, v, u); SourceOut(e, w, kind, out, out) == out
  {
    SavedOptAgain(v);
    DeclaredAgain(e, w.source, v, u);
  }

  lemma RefreshAgain(kind: Kind, v: Option<Json>, u: Option<Json>)
    requires NormalValue(AutoRefresh, v)
    ensures var out := RefreshOut(kind, v, u); NormalValue(AutoRefresh, out) && RefreshOut(kind, out, out) == out
  {}

  /** A percentage whose attribute parseInt reads as one from 0 to 100: it is one, or it is written with an exponent. */
  predicate PercentFits(e: Engine, n: int) { 0 <= n <= 100 || (n > 0 && !Digits(e.text(Int(n)))) }

  /**
   Whether the first export of a property is also the last: always, but for an opacity or a
   grid count that is inherited, which no import has clamped or rounded.
   */
  predicate Fits(e: Engine, kind: Kind, role: Role, v: Option<Json>, u: Option<Json>) {
    match role
    case OpacityRole => v.Some? || u.None? || (Percent(e, u.value).Some? && PercentFits(e, Percent(e, u.value).value))
    case GridRole =>
      || kind == MenuBar || v.Some? || Nullish(u) || u.value == Str("")
      || (match ParseInt(JsString(e, u.value)) case None => true case Some(n) => e.text(Int(n)) == IntText(n))
    case _ => true
  }

  lemma HundredthPercent(e: Engine, m: int)
    ensures Percent(e, Hundredth(m)) == Some(m)
  {
    RoundInt(m);
  }

  /** The percentage an opacity attribute is read back as. */
  lemma ReadPercent(e: Engine, c: Canvas, u: Option<Json>) returns (m: Option<int>)
    requires Ready(e, c) && u.Some?
    ensures m == ParseInt(OpacityText(e, c.words, u)) && (m.Some? <==> Percent(e, u.value).Some?)
    ensures m.Some? ==> (0 <= m.value <= 100 <==> PercentFits(e, Percent(e, u.value).value))
    ensures m.Some? && 0 <= Percent(e, u.value).value <= 100 ==> m == Percent(e, u.value)
    ensures OpacityText(e, c.words, u) == c.words.full <==> m == Some(100)
  {
    m := ParseInt(OpacityText(e, c.words, u));
    ParseIntText(100);
    HundredText(e);
    if Percent(e, u.value).Some? { var read := IntAttrStable(e, Percent(e, u.value).value); }
  }

  /** A normal opacity is written as its rounded percentage. */
  lemma OwnOpacity(e: Engine, c: Canvas, v: Option<Json>)
    requires Ready(e, c) && NormalValue(Opacity, v)
    ensures OpacityOut(e, c.words, v, v) == if v.None? then None else Some(Hundredth(Round(v.value.r * 100.0)))
  {
    if v.Some? {
      PercentBounds(v.value.r);
      var m := ReadPercent(e, c, v);
    }
  }

  lemma HundredthStays(e: Engine, c: Canvas, m: int)
    requires Ready(e, c) && 0 <= m <= 100
    ensures OpacityOut(e, c.words, Some(Hundredth(m)), Some(Hundredth(m))) == Some(Hundredth(m))
  {
    HundredthPercent(e, m);
    var read := ReadPercent(e, c, Some(Hundredth(m)));
  }

  /** Clamping an exported opacity on import. */
  lemma RereadHundredth(e: Engine, m: int)
    ensures Reread(e, Opacity, Some(Hundredth(m))) == Some(Hundredth(if m < 0 then 0 else if m > 100 then 100 else m))
  {}

  lemma HundredthsDiffer(m: int, n: int)
    requires m != n
    ensures Hundredth(m) != Hundredth(n)
  {
    HundredthPercent(Engine(_ => "", _ => None, _ => ""), m);
    HundredthPercent(Engine(_ => "", _ => None, _ => ""), n);
  }

  lemma WrittenAgainIff(e: Engine, c: Canvas, m: int)
    requires Ready(e, c)
    ensures var again := Reread(e, Opacity, Some(Hundredth(m)));
            OpacityOut(e, c.words, again, again) == Some(Hundredth(m)) <==> 0 <= m <= 100
  {
    var n := if m < 0 then 0 else if m > 100 then 100 else m;
    RereadHundredth(e, m);
    HundredthStays(e, c, n);
    if m != n { HundredthsDiffer(m, n); }
  }

  lemma OwnPercent(e: Engine, v: Option<Json>)
    requires v.Some? && NormalValue(Opacity, v)
    ensures Percent(e, v.value).Some? && 0 <= Percent(e, v.value).value <= 100
  {
    PercentBounds(v.value.r);
  }

  lemma OpacityAgainIff(e: Engine, c: Canvas, kind: Kind, v: Option<Json>, u: Option<Json>)
    requires Ready(e, c) && NormalValue(Opacity, v) && Sees(v, u)
    ensures var out := OpacityOut(e, c.words, v, u);
            var again := Reread(e, Opacity, out);
            OpacityOut(e, c.words, again, again) == out <==> Fits(e, kind, OpacityRole, v, u)
  {
    if u.Some? {
      var m := ReadPercent(e, c, u);
      if v.Some? { OwnPercent(e, v); }
      if m.Some? { WrittenAgainIff(e, c, m.value); }
    }
  }

  /** A size is stable from the first export on; 0 is exported as the default size. */
  lemma SizeStable(e: Engine, v: Option<Json>, fallback: int)
    requires PrintsIntegers(e) && IsIntOrNull(v) && fallback > 0
    ensures var out := IntAttr(SizeAttr(e, v, fallback));
            IsIntOrNull(Reread(e, Width, out)) && IntAttr(SizeAttr(e, Reread(e, Width, out), fallback)) == out
  {
    if v != Some(Null) {
      var n := Round(v.value.r);
      var m := IntAttrStable(e, if n == 0 then fallback else n);
      SizeText(e, v, n, fallback);
      RoundInt(m);
      SizeText(e, Some(Int(m)), m, fallback);
    }
  }

  lemma SizeText(e: Engine, v: Option<Json>, n: int, fallback: int)
    requires v == Some(Int(n))
    ensures SizeAttr(e, v, fallback) == e.text(Int(if n == 0 then fallback else n))
  {}

  lemma IntStable(e: Engine, n: int)
    requires PrintsIntegers(e)
    ensures var out := IntAttr(e.text(Int(n)));
            IsInt(out) && IntAttr(JsString(e, out.value)) == out && (n != 0 ==> !Falsy(out))
  {
    var m := IntAttrStable(e, n);
    RoundInt(m);
  }

  lemma PlaceAgain(e: Engine, c: Canvas, kind: Kind, k: Key, v: Option<Json>)
    requires Ready(e, c) && IsPlace(k) && NormalValue(k, v)
    ensures var out := IntAttr(PlaceText(e, c, kind, k, v));
            NormalValue(k, Reread(e, k, out)) && IntAttr(PlaceText(e, c, kind, k, Reread(e, k, out))) == out
  {
    if k == Width {
      if kind == MenuBar { IntStable(e, c.width); } else { SizeStable(e, v, 100); }
    } else if k == Height {
      if kind == MenuBar { IntStable(e, if Falsy(v) then 50 else Round(v.value.r)); } else { SizeStable(e, v, 40); }
    } else {
      IntStable(e, Round(v.value.r));
    }
  }

  lemma ReadIsInt(s: string)
    ensures IntAttr(s).None? || IsInt(IntAttr(s))
  {
    if ParseInt(s).Some? { RoundInt(ParseInt(s).value); }
  }

  lemma GridAgainIff(e: Engine, kind: Kind, k: Key, v: Option<Json>, u: Option<Json>)
    requires PrintsIntegers(e) && IsGrid(k) && NormalValue(k, v) && Sees(v, u)
    ensures var out := GridOut(e, kind, v, u);
            NormalValue(k, out) && (GridOut(e, kind, out, out) == out <==> Fits(e, kind, GridRole, v, u))
  {
    NormalGrid(k, v);
    if kind != MenuBar && !Nullish(u) && u.value != Str("") {
      ReadIsInt(JsString(e, u.value));
      if ParseInt(JsString(e, u.value)).Some? { IntIff(e, ParseInt(JsString(e, u.value)).value); }
      if v.Some? { IntStable(e, Round(v.value.r)); }
    }
  }

  /** After one export the label a text browser shows is the one its source stands for. */
  lemma LabelSettles(e: Engine, w: Words, v: Option<Json>, u: Option<Json>)
    requires Sees(v, u)
    ensures var out := SourceOut(e, w, TextBrowser, v, u); Or(e, out, w.source) == SourceShown(e, w, out)
  {}

  lemma TextAgain(e: Engine, c: Canvas, kind: Kind, sv: Option<Json>, su: Option<Json>, v: Option<Json>,
                  u: Option<Json>)
    requires NormalValue(Text, v) && Sees(v, u) && Sees(sv, su)
    ensures var out := TextOut(e, c, kind, su, v, u);
            NormalValue(Text, out) && TextOut(e, c, kind, SourceOut(e, c.words, kind, sv, su), out, out) == out
  {
    SavedOptAgain(v);
    FalsySaved(v);
    LabelSettles(e, c.words, sv, su);
  }

  /** What the source seen becomes with the first export. */
  ghost predicate SettledSource(e: Engine, c: Canvas, kind: Kind, source: Option<Json>, settled: Option<Json>) {
    exists sv :: Sees(sv, source) && settled == SourceOut(e, c.words, kind, sv, source)
  }

  /** Exporting an exported property again gives it back. */
  predicate Stays(role: Role, e: Engine, c: Canvas, kind: Kind, owned: bool, source: Option<Json>, settled: Option<Json>, k: Key,
                  v: Option<Json>, u: Option<Json>) {
    var out := Out(role, e, c, kind, owned, source, k, v, u);
    var again := Reread(e, k, out);
    Out(role, e, c, kind, owned, settled, k, again, again) == out
  }

  lemma StaysMeans(role: Role, e: Engine, c: Canvas, kind: Kind, owned: bool, source: Option<Json>,
                   settled: Option<Json>, k: Key,
                   v: Option<Json>, u: Option<Json>, again: Option<Json>, first: Option<Json>, second: Option<Json>)
    requires first == Out(role, e, c, kind, owned, source, k, v, u) && again == Reread(e, k, first)
    requires second == Out(role, e, c, kind, owned, settled, k, again, again)
    ensures Stays(role, e, c, kind, owned, source, settled, k, v, u) <==> second == first
  {}

  lemma ToldStays(role: Role, e: Engine, c: Canvas, kind: Kind, owned: bool, source: Option<Json>,
                  settled: Option<Json>, k: Key,
                  v: Option<Json>, u: Option<Json>)
    requires role in {LookRole, LinkRole, PayloadRole, OwnedRole, OtherRole, TypeRole}
    requires k != Width && k != Height && k != Opacity
    ensures Stays(role, e, c, kind, owned, source, settled, k, v, u)
  {
    ToldAgain(e, u);
    SavedOptAgain(v);
  }

  lemma DefaultStays(role: Role, e: Engine, c: Canvas, kind: Kind, owned: bool, source: Option<Json>,
                     settled: Option<Json>, k: Key,
                     v: Option<Json>, u: Option<Json>)
    requires role in {FontRole, SourceRole} && k != Width && k != Height && k != Opacity
    requires c.words.source != "" && Sees(v, u)
    ensures Stays(role, e, c, kind, owned, source, settled, k, v, u)
  {
    FontAgain(e, c.words, kind, v, u);
    SourceAgain(e, c.words, kind, v, u);
  }

  lemma FontAgain(e: Engine, w: Words, kind: Kind, v: Option<Json>, u: Option<Json>)
    requires Sees(v, u)
    ensures var out := FontOut(e, w, kind, v, u); FontOut(e, w, kind, out, out) == out
  {
    SavedOptAgain(v);
    DeclaredAgain(e, w.font, v, u);
  }

  lemma OpacityStays(e: Engine, c: Canvas, kind: Kind, owned: bool, source: Option<Json>, settled: Option<Json>,
                     v: Option<Json>, u: Option<Json>, first: Option<Json>, again: Option<Json>)
    requires first == OpacityOut(e, c.words, v, u) && again == Reread(e, Opacity, first)
    ensures Stays(OpacityRole, e, c, kind, owned, source, settled, Opacity, v, u)
            <==> OpacityOut(e, c.words, again, again) == first
  {}

  lemma OpacityStaysIff(e: Engine, c: Canvas, kind: Kind, owned: bool, source: Option<Json>, settled: Option<Json>,
                        v: Option<Json>, u: Option<Json>)
    requires Ready(e, c) && NormalValue(Opacity, v) && Sees(v, u)
    ensures Stays(OpacityRole, e, c, kind, owned, source, settled, Opacity, v, u) <==> Fits(e, kind, OpacityRole, v, u)
  {
    var first := OpacityOut(e, c.words, v, u);
    OpacityAgainIff(e, c, kind, v, u);
    OpacityStays(e, c, kind, owned, source, settled, v, u, first, Reread(e, Opacity, first));
  }

  /** Any value is normal for a property the importer does not convert, but __proto__ is none. */
  lemma AnyIsNormal(e: Engine, k: Key, v: Option<Json>)
    requires RoleOf(k) in {LookRole, LinkRole, PayloadRole, OwnedRole, OtherRole, FontRole, SourceRole}
    requires k == Other(PROTO) ==> v.None?
    ensures NormalValue(k, v) && Reread(e, k, v) == v
  {}

  lemma PlaceStays(e: Engine, c: Canvas, kind: Kind, owned: bool, source: Option<Json>, settled: Option<Json>,
                   k: Key, v: Option<Json>)
    requires Ready(e, c) && IsPlace(k) && NormalValue(k, v)
    ensures Stays(PlaceRole, e, c, kind, owned, source, settled, k, v, v)
  {
    PlaceAgain(e, c, kind, k, v);
  }

  lemma GridStaysIff(e: Engine, c: Canvas, kind: Kind, owned: bool, source: Option<Json>, settled: Option<Json>, k: Key,
                     v: Option<Json>, u: Option<Json>)
    requires Ready(e, c) && IsGrid(k) && NormalValue(k, v) && Sees(v, u)
    ensures Stays(GridRole, e, c, kind, owned, source, settled, k, v, u) <==> Fits(e, kind, GridRole, v, u)
  {
    GridAgainIff(e, kind, k, v, u);
  }

  lemma TextStays(e: Engine, c: Canvas, kind: Kind, owned: bool, source: Option<Json>, settled: Option<Json>,
                  v: Option<Json>, u: Option<Json>)
    requires NormalValue(Text, v) && Sees(v, u) && SettledSource(e, c, kind, source, settled)
    ensures Stays(TextRole, e, c, kind, owned, source, settled, Text, v, u)
  {
    var sv :| Sees(sv, source) && settled == SourceOut(e, c.words, kind, sv, source);
    TextAgain(e, c, kind, sv, source, v, u);
  }

  lemma RefreshStays(e: Engine, c: Canvas, kind: Kind, owned: bool, source: Option<Json>, settled: Option<Json>,
                     v: Option<Json>, u: Option<Json>)
    requires NormalValue(AutoRefresh, v)
    ensures Stays(RefreshRole, e, c, kind, owned, source, settled, AutoRefresh, v, u)
  {
    RefreshAgain(kind, v, u);
  }

  lemma OtherStays(role: Role, e: Engine, c: Canvas, kind: Kind, owned: bool, source: Option<Json>,
                   settled: Option<Json>, k: Key,
                   v: Option<Json>, u: Option<Json>)
    requires role == RoleOf(k) && role !in {PlaceRole, GridRole, OpacityRole}
    requires Ready(e, c) && NormalValue(k, v) && Sees(v, u) && SettledSource(e, c, kind, source, settled)
    ensures Stays(role, e, c, kind, owned, source, settled, k, v, u)
  {
    match role
    case TextRole => TextStays(e, c, kind, owned, source, settled, v, u);
    case RefreshRole => RefreshStays(e, c, kind, owned, source, settled, v, u);
    case FontRole => DefaultStays(role, e, c, kind, owned, source, settled, k, v, u);
    case SourceRole => DefaultStays(role, e, c, kind, owned, source, settled, k, v, u);
    case _ => ToldStays(role, e, c, kind, owned, source, settled, k, v, u);
  }

  lemma StaysIff(e: Engine, c: Canvas, kind: Kind, owned: bool, source: Option<Json>, settled: Option<Json>, k: Key,
                 v: Option<Json>, u: Option<Json>)
    requires Ready(e, c) && NormalValue(k, v) && Sees(v, u) && SettledSource(e, c, kind, source, settled)
    requires (IsPlace(k) ==> u == v)
    ensures Stays(RoleOf(k), e, c, kind, owned, source, settled, k, v, u) <==> Fits(e, kind, RoleOf(k), v, u)
  {
    match RoleOf(k)
    case PlaceRole => PlaceStays(e, c, kind, owned, source, settled, k, v);
    case GridRole => GridStaysIff(e, c, kind, owned, source, settled, k, v, u);
    case OpacityRole => OpacityStaysIff(e, c, kind, owned, source, settled, v, u);
    case _ => OtherStays(RoleOf(k), e, c, kind, owned, source, settled, k, v, u);
  }

  // ----- the round trip -----

  /** Import onto the canvas and export. */
  function Export(e: Engine, c: Canvas, d: Data): Fields { ToConfig(c, Create(e, c, d)) }

  lemma ExportedField(e: Engine, c: Canvas, kind: Kind, effect: Effect, d: Data, el: El, k: Key)
    requires Created(e, c, kind, effect, d, el) && Ready(e, c) && kind == KindIn(d.own)
    requires NormalType(Get(d.own, Type)) && NormalValue(k, Get(d.own, k))
    ensures Get(ToConfig(c, el), k) == OutField(e, c, kind, d, k)
  {
    var out := EffectOut(e, kind, d);
    TriggerOut(e, c, kind, effect, d, el);
    ConfigGet(c, el, out, k);
    TextOfType(e, c, kind, effect, d, el);
    ExportedIs(e, c, kind, effect, d, el, out, TextFrom(c, el), k);
  }

  lemma TriggerOut(e: Engine, c: Canvas, kind: Kind, effect: Effect, d: Data, el: El)
    requires Created(e, c, kind, effect, d, el)
    ensures EffectOf(Told(Attr(el.attrs, Trigger))) == EffectOut(e, kind, d)
  {
    CreatedTold(e, c, kind, effect, d, el, Trigger);
  }

  lemma TextOfType(e: Engine, c: Canvas, kind: Kind, effect: Effect, d: Data, el: El)
    requires Created(e, c, kind, effect, d, el) && NormalType(Get(d.own, Type)) && kind == KindIn(d.own)
    ensures TextFrom(c, el) == TextBy(c, kind, TypeIn(d.own), el)
  {
    ExportType(e, c, kind, effect, d, el);
  }

  lemma ExportGet(e: Engine, c: Canvas, d: Data, k: Key)
    requires Ready(e, c) && Normal(d.own)
    ensures Get(Export(e, c, d), k) == OutField(e, c, KindIn(d.own), d, k)
  {
    CreateIs(e, c, KindIn(d.own), EffectIn(d), d);
    assert NormalValue(k, Get(d.own, k)) && NormalValue(Type, Get(d.own, Type));
    ExportedField(e, c, KindIn(d.own), EffectIn(d), d, Create(e, c, d), k);
  }

  /** Importing an export: every property as Reread says. */
  lemma RereadField(e: Engine, c: Canvas, kind: Kind, d: Data, r: Fields, k: Key)
    requires Ready(e, c) && NormalValue(k, Get(d.own, k)) && Get(r, k) == OutField(e, c, kind, d, k)
    ensures NormalField(e, r, k) == Reread(e, k, Get(r, k))
  {
    var v, u := Get(d.own, k), See(d, k);
    SeesOwn(d, k);
    match RoleOf(k)
    case TypeRole => NormalFieldFixed(e, r, k);
    case PlaceRole => PlaceReread(e, c, kind, d, r, k);
    case GridRole =>
      GridAgainIff(e, kind, k, v, u);
      NormalFieldFixed(e, r, k);
    case OpacityRole => assert k == Opacity;
    case TextRole =>
      TextAgain(e, c, kind, See(d, Source), See(d, Source), v, u);
      NormalFieldFixed(e, r, k);
    case RefreshRole =>
      RefreshAgain(kind, v, u);
      NormalFieldFixed(e, r, k);
    case _ =>
      AnyIsNormal(e, k, Get(r, k));
      NormalFieldFixed(e, r, k);
  }

  lemma PlaceReread(e: Engine, c: Canvas, kind: Kind, d: Data, r: Fields, k: Key)
    requires Ready(e, c) && IsPlace(k) && NormalValue(k, Get(d.own, k)) && Get(r, k) == OutField(e, c, kind, d, k)
    ensures NormalField(e, r, k) == Reread(e, k, Get(r, k))
  {
    PlaceAgain(e, c, kind, k, Get(d.own, k));
    if Reread(e, k, Get(r, k)) == Get(r, k) { NormalFieldFixed(e, r, k); }
  }

  lemma Reimported(e: Engine, c: Canvas, d: Data, r: Fields) returns (g: Fields)
    requires Ready(e, c) && Normal(d.own) && forall k :: Get(r, k) == OutField(e, c, KindIn(d.own), d, k)
    ensures NormalizeElement(e, Obj(r)) == Some(g) && Load(e, Obj(r)) == Some(JustOwn(g)) && Normal(g)
    ensures forall k :: Get(g, k) == Reread(e, k, OutField(e, c, KindIn(d.own), d, k))
  {
    forall k ensures NormalField(e, r, k) == Reread(e, k, OutField(e, c, KindIn(d.own), d, k)) {
      assert NormalValue(k, Get(d.own, k)) && Get(r, k) == OutField(e, c, KindIn(d.own), d, k);
      RereadField(e, c, KindIn(d.own), d, r, k);
    }
    assert NormalField(e, r, Type) == Get(d.own, Type) && NormalValue(Type, Get(d.own, Type));
    g := NormalizeElement(e, Obj(r)).value;
    forall k ensures Get(g, k) == Reread(e, k, OutField(e, c, KindIn(d.own), d, k)) { NormalizedGet(e, Obj(r), k); }
    NormalizeYieldsNormal(e, Obj(r));
    NoPrototype(e, c, d, r);
  }

  /** An export has no property named __proto__, for the record it started from has none. */
  lemma NoPrototype(e: Engine, c: Canvas, d: Data, r: Fields)
    requires Normal(d.own) && forall k :: Get(r, k) == OutField(e, c, KindIn(d.own), d, k)
    ensures Prototype(r) == map[]
  {
    var k := Other(PROTO);
    assert NormalValue(k, Get(d.own, k)) && Get(r, k) == OutField(e, c, KindIn(d.own), d, k);
    OtherOut(e, c, KindIn(d.own), EffectOut(e, KindIn(d.own), d), d, PROTO);
  }

  predicate FitsAt(e: Engine, d: Data, k: Key) { Fits(e, KindIn(d.own), RoleOf(k), Get(d.own, k), See(d, k)) }

  /** Whether the first export of a record is also the last. */
  predicate Settles(e: Engine, d: Data) { FitsAt(e, d, Opacity) && FitsAt(e, d, Columns) && FitsAt(e, d, Rows) }

  lemma SettlesAt(e: Engine, d: Data, k: Key)
    requires Settles(e, d)
    ensures Fits(e, KindIn(d.own), RoleOf(k), Get(d.own, k), See(d, k))
  {}

  lemma Unsettled(e: Engine, d: Data) returns (k: Key)
    requires !Settles(e, d)
    ensures !FitsAt(e, d, k)
  {
    k := if !FitsAt(e, d, Opacity) then Opacity else if !FitsAt(e, d, Columns) then Columns else Rows;
  }

  lemma SameContext(e: Engine, c: Canvas, kind: Kind, d: Data, g: Fields)
    requires forall k :: Get(g, k) == Reread(e, k, OutField(e, c, kind, d, k))
    ensures Get(g, Type) == Get(d.own, Type) && EffectOut(e, kind, JustOwn(g)) == EffectOut(e, kind, d)
    ensures Get(g, Source) == SourceOut(e, c.words, kind, Get(d.own, Source), See(d, Source))
  {
    assert Get(g, Type) == Reread(e, Type, OutField(e, c, kind, d, Type));
    assert Get(g, Trigger) == Reread(e, Trigger, OutField(e, c, kind, d, Trigger));
    assert Get(g, Source) == Reread(e, Source, OutField(e, c, kind, d, Source));
    ContextRoles(e, c, kind, d);
    SameTrigger(e, kind, d, g);
  }

  lemma ContextRoles(e: Engine, c: Canvas, kind: Kind, d: Data)
    ensures OutField(e, c, kind, d, Type) == Get(d.own, Type)
    ensures OutField(e, c, kind, d, Trigger) == if kind == MenuBar then None else ToldOf(e, See(d, Trigger))
    ensures OutField(e, c, kind, d, Source) == SourceOut(e, c.words, kind, Get(d.own, Source), See(d, Source))
  {}

  lemma SameTrigger(e: Engine, kind: Kind, d: Data, g: Fields)
    requires Get(g, Trigger) == if kind == MenuBar then None else ToldOf(e, See(d, Trigger))
    ensures EffectOut(e, kind, JustOwn(g)) == EffectOut(e, kind, d)
  {
    ToldAgain(e, See(d, Trigger));
  }

  lemma SameAgainIff(e: Engine, c: Canvas, kind: Kind, d: Data, g: Fields, k: Key)
    requires Ready(e, c) && NormalValue(k, Get(d.own, k)) && Get(g, k) == Reread(e, k, OutField(e, c, kind, d, k))
    requires EffectOut(e, kind, JustOwn(g)) == EffectOut(e, kind, d)
    requires Get(g, Source) == SourceOut(e, c.words, kind, Get(d.own, Source), See(d, Source))
    ensures OutField(e, c, kind, JustOwn(g), k) == OutField(e, c, kind, d, k)
            <==> Fits(e, kind, RoleOf(k), Get(d.own, k), See(d, k))
  {
    var owned, settled := Owns(EffectOut(e, kind, d), k), Get(g, Source);
    SeesOwn(d, k);
    SeesOwn(d, Source);
    StaysIff(e, c, kind, owned, See(d, Source), settled, k, Get(d.own, k), See(d, k));
    StaysHere(e, c, kind, d, g, k, owned);
  }

  lemma StaysHere(e: Engine, c: Canvas, kind: Kind, d: Data, g: Fields, k: Key, owned: bool)
    requires Get(g, k) == Reread(e, k, OutField(e, c, kind, d, k))
    requires EffectOut(e, kind, JustOwn(g)) == EffectOut(e, kind, d) && owned == Owns(EffectOut(e, kind, d), k)
    requires Get(g, Source) == SourceOut(e, c.words, kind, Get(d.own, Source), See(d, Source))
    ensures OutField(e, c, kind, JustOwn(g), k) == OutField(e, c, kind, d, k)
            <==> Stays(RoleOf(k), e, c, kind, owned, See(d, Source), Get(g, Source), k, Get(d.own, k), See(d, k))
  {
    OwnOutcome(e, c, kind, EffectOut(e, kind, d), g, k);
    StaysMeans(RoleOf(k), e, c, kind, owned, See(d, Source), Get(g, Source), k, Get(d.own, k), See(d, k), Get(g, k),
               OutField(e, c, kind, d, k), OutField(e, c, kind, JustOwn(g), k));
  }

  lemma OwnOutcome(e: Engine, c: Canvas, kind: Kind, out: Effect, g: Fields, k: Key)
    requires EffectOut(e, kind, JustOwn(g)) == out
    ensures OutField(e, c, kind, JustOwn(g), k)
            == Out(RoleOf(k), e, c, kind, Owns(out, k), Get(g, Source), k, Get(g, k), Get(g, k))
  {}

  /**
   Import followed by export is idempotent: normalising and drawing an exported element and
   exporting it once more gives the same record as the first export, if and only if no
   opacity or grid count that the element merely inherits is one the importer would change.
   */
  lemma ExportIdempotentIff(e: Engine, c: Canvas, raw: Json, d: Data)
    requires Ready(e, c) && Load(e, raw) == Some(d)
    ensures Load(e, Obj(Export(e, c, d))).Some?
    ensures Export(e, c, Load(e, Obj(Export(e, c, d))).value) == Export(e, c, d) <==> Settles(e, d)
  {
    NormalizeYieldsNormal(e, raw);
    var kind, r := KindIn(d.own), Export(e, c, d);
    forall k ensures Get(r, k) == OutField(e, c, kind, d, k) { ExportGet(e, c, d, k); }
    var g := Reimported(e, c, d, r);
    SameContext(e, c, kind, d, g);
    forall k ensures Get(Export(e, c, JustOwn(g)), k) == Get(r, k) <==> Fits(e, kind, RoleOf(k), Get(d.own, k), See(d, k)) {
      ExportGet(e, c, JustOwn(g), k);
      assert NormalValue(k, Get(d.own, k));
      SameAgainIff(e, c, kind, d, g, k);
    }
    if Settles(e, d) {
      forall k ensures Get(Export(e, c, JustOwn(g)), k) == Get(r, k) { SettlesAt(e, d, k); }
      SameFields(Export(e, c, JustOwn(g)), r);
    } else {
      var k := Unsettled(e, d);
      assert Get(Export(e, c, JustOwn(g)), k) != Get(r, k);
    }
  }

  /** In particular for every element that stores no object under __proto__. */
  lemma ExportIdempotent(e: Engine, c: Canvas, raw: Json, f: Fields)
    requires Ready(e, c) && NormalizeElement(e, raw) == Some(f) && !IsRecord(Get(raw.fields, Other(PROTO)))
    ensures var r := Export(e, c, JustOwn(f)); Load(e, Obj(r)).Some? && Export(e, c, Load(e, Obj(r)).value) == r
  {
    OwnSettles(e, f);
    ExportIdempotentIff(e, c, raw, JustOwn(f));
  }

  lemma OwnSettles(e: Engine, f: Fields)
    ensures Settles(e, JustOwn(f))
  {}

  /** An element that inherits opacity 5 is exported with it, and the next time with 1. */
  lemma InheritedOpacityDrifts(e: Engine, c: Canvas, raw: Json, d: Data)
    requires Ready(e, c) && Load(e, raw) == Some(d)
    requires Get(d.own, Opacity) == None && Get(Prototype(raw.fields), Opacity) == Some(Num(5.0))
    ensures Load(e, Obj(Export(e, c, d))).Some? && Export(e, c, Load(e, Obj(Export(e, c, d))).value) != Export(e, c, d)
  {
    LoadedSees(e, raw, d, Opacity);
    FiveDoesNotFit(e, KindIn(d.own), See(d, Opacity));
    UnfitOpacity(e, d);
    ExportIdempotentIff(e, c, raw, d);
  }

  /** What an element does not have itself it has from the object under __proto__. */
  lemma LoadedSees(e: Engine, raw: Json, d: Data, k: Key)
    requires Load(e, raw) == Some(d)
    ensures Get(d.own, k) == None ==> See(d, k) == Get(Prototype(raw.fields), k)
  {}

  lemma UnfitOpacity(e: Engine, d: Data)
    requires !Fits(e, KindIn(d.own), OpacityRole, Get(d.own, Opacity), See(d, Opacity))
    ensures !Settles(e, d)
  {
    assert !FitsAt(e, d, Opacity);
  }

  lemma FiveDoesNotFit(e: Engine, kind: Kind, u: Option<Json>)
    requires PrintsIntegers(e) && u == Some(Num(5.0))
    ensures !Fits(e, kind, OpacityRole, None, u)
  {
    assert Percent(e, u.value) == Some(500);
    assert e.text(Int(500)) == IntText(500);
    ParseIntText(500);
  }

  lemma OtherRoles(name: string)
    ensures RoleOf(Other(name)) == OtherRole
  {}

  lemma OtherOut(e: Engine, c: Canvas, kind: Kind, out: Effect, d: Data, name: string)
    ensures Outcome(e, c, kind, out, d, Other(name)) == SavedOpt(Get(d.own, Other(name)))
  {
    OtherRoles(name);
    OtherOutcome(e, c, kind, out, d, Other(name));
  }

  lemma OtherExported(e: Engine, c: Canvas, raw: Json, d: Data, k: Key, name: string)
    requires Ready(e, c) && Load(e, raw) == Some(d) && k == Other(name)
    ensures Get(Export(e, c, d), k) == if name == PROTO then None else SavedOpt(Get(raw.fields, k))
  {
    NormalizeKeepsTheRest(e, raw, k);
    ExportedAs(e, c, raw, d, k);
    OtherOut(e, c, KindIn(d.own), EffectOut(e, KindIn(d.own), d), d, name);
  }

  lemma SavedOptVerbatimIff(v: Option<Json>)
    ensures SavedOpt(v) == v <==> (v.Some? ==> Finite(v.value))
  {
    if v.Some? { SavedVerbatimIff(v.value); }
  }

  lemma ExportedAs(e: Engine, c: Canvas, raw: Json, d: Data, k: Key)
    requires Ready(e, c) && Load(e, raw) == Some(d)
    ensures Get(Export(e, c, d), k) == OutField(e, c, KindIn(d.own), d, k)
  {
    NormalizeYieldsNormal(e, raw);
    ExportGet(e, c, d, k);
  }

  /**
   A property the builder does not model comes back verbatim exactly when it is not named
   __proto__ and its value holds only finite numbers: the import assigns __proto__ to the
   copy's prototype, and the record is preserved as JSON text, which has no other numbers.
   */
  lemma UnmodelledVerbatimIff(e: Engine, c: Canvas, raw: Json, d: Data, name: string)
    requires Ready(e, c) && Load(e, raw) == Some(d)
    ensures Get(Export(e, c, d), Other(name)) == Get(raw.fields, Other(name))
            <==> (Other(name) in raw.fields ==> name != PROTO && Finite(raw.fields[Other(name)]))
  {
    OtherExported(e, c, raw, d, Other(name), name);
    SavedOptVerbatimIff(Get(raw.fields, Other(name)));
  }

  lemma StringOut(e: Engine, c: Canvas, kind: Kind, d: Data, k: Key, s: string)
    requires IsString(k) && See(d, k) == Some(Str(s))
    ensures OutField(e, c, kind, d, k) == Some(Str(s)) <==> s != "" && kind != MenuBar
  {}

  lemma MenuKind(e: Engine, raw: Json, f: Fields)
    requires NormalizeElement(e, raw) == Some(f)
    ensures KindIn(f) == MenuBar <==> TypeOf(e, raw.fields) == "menu"
  {
    TypeStays(e, raw, f);
  }

  lemma StringKept(e: Engine, raw: Json, f: Fields, k: Key)
    requires NormalizeElement(e, raw) == Some(f) && IsString(k)
    ensures Get(f, k) == Get(raw.fields, k)
  {
    NormalizedGet(e, raw, k);
    StringField(e, raw.fields, k);
  }

  lemma StringField(e: Engine, f: Fields, k: Key)
    requires IsString(k)
    ensures NormalField(e, f, k) == Get(f, k)
  {}

  lemma TypeStays(e: Engine, raw: Json, f: Fields)
    requires NormalizeElement(e, raw) == Some(f)
    ensures TypeIn(f) == TypeOf(e, raw.fields)
  {
    NormalizedGet(e, raw, Type);
  }

  /**
   A string the importer carries through, such as a colour, a trigger or a command, survives
   unless it is empty or the element is a menu bar, whose early return loses it.
   */
  lemma StringSurvivesIff(e: Engine, c: Canvas, raw: Json, d: Data, k: Key, s: string)
    requires Ready(e, c) && Load(e, raw) == Some(d)
    requires IsString(k) && Get(raw.fields, k) == Some(Str(s))
    ensures Get(Export(e, c, d), k) == Some(Str(s)) <==> s != "" && TypeOf(e, raw.fields) != "menu"
  {
    StringKept(e, raw, d.own, k);
    MenuKind(e, raw, d.own);
    ExportedAs(e, c, raw, d, k);
    SeesOwn(d, k);
    StringOut(e, c, KindIn(d.own), d, k, s);
  }

  // ----- which records survive unchanged -----

  predicate PlainString(v: Option<Json>) { v.None? || (v.value.Str? && v.value.s != "") }

  predicate AllFinite(v: Option<Json>) { v.Some? ==> Finite(v.value) }

  predicate StringOrOpen(v: Option<Json>) { v.None? || v.value.Null? || v.value.Str? }

  /** An integer that String() writes as it is, such as every safe one. */
  predicate PrintsExactly(e: Engine, v: Option<Json>) { IsInt(v) && e.text(v.value) == IntText(Round(v.value.r)) }

  predicate WholePercent(v: Option<Json>) {
    v.Some? ==> v.value.Num? && v.value == Hundredth(Round(v.value.r * 100.0))
  }

  /**
   What a property of a normalised record must look like to come through the canvas
   unchanged, given the element's kind and whether its trigger owns the property.
   */
  predicate FaithfulAt(e: Engine, c: Canvas, kind: Kind, owned: bool, k: Key, v: Option<Json>) {
    match RoleOf(k)
    case TypeRole => true
    case LookRole => if kind == MenuBar then v.None? else PlainString(v)
    case LinkRole => if kind == MenuBar then v.None? else PlainString(v)
    case PayloadRole => if kind == MenuBar then v.None? else PlainString(v)
    case OwnedRole => if owned then PlainString(v) else AllFinite(v)
    case PlaceRole =>
      if k == Width && kind == MenuBar then v == IntAttr(e.text(Int(c.width)))   // as wide as the canvas
      else PrintsExactly(e, v) && (k == Width || k == Height ==> v != Some(Int(0)))       // a size is given and not 0
    case GridRole => kind == MenuBar || v.None? || PrintsExactly(e, v)
    case FontRole => if kind == MenuBar then AllFinite(v) else StringOrOpen(v)
    case SourceRole =>
      if kind == MenuBar then AllFinite(v) else StringOrOpen(v) && (kind == TextBrowser ==> v != Some(Null))
    case OpacityRole => WholePercent(v)
    case RefreshRole => kind == TextBrowser ==> v.Some?
    case TextRole =>
      (match kind
       case MenuBar => AllFinite(v)
       case Input => AllFinite(v)
       case TextBrowser => v.None? || (!Falsy(v) && AllFinite(v))
       case _ => PlainString(v))
    case OtherRole => AllFinite(v)
  }

  /** A record that comes back exactly as it went in. */
  ghost predicate Faithful(e: Engine, c: Canvas, f: Fields) {
    FaithfulBy(e, c, KindIn(f), EffectIn(JustOwn(f)), f)
  }

  ghost predicate FaithfulBy(e: Engine, c: Canvas, kind: Kind, effect: Effect, f: Fields) {
    forall k :: FaithfulKey(e, c, kind, effect, f, k)
  }

  predicate FaithfulKey(e: Engine, c: Canvas, kind: Kind, effect: Effect, f: Fields, k: Key) {
    FaithfulAt(e, c, kind, Owns(effect, k), k, Get(f, k))
  }

  lemma ToldIff(e: Engine, v: Option<Json>)
    ensures ToldOf(e, v) == v <==> PlainString(v)
  {}

  lemma DeclaredIff(e: Engine, fallback: string, v: Option<Json>)
    ensures DeclaredOut(e, fallback, v, v) == v <==> StringOrOpen(v)
  {}

  lemma IntIff(e: Engine, n: int)
    requires PrintsIntegers(e)
    ensures IntAttr(e.text(Int(n))) == Some(Int(n)) <==> e.text(Int(n)) == IntText(n)
    ensures Safe(n) ==> e.text(Int(n)) == IntText(n)
  {
    ParseIntText(n);
    var m := IntAttrStable(e, n);
    if m != n { assert m as real != n as real; }
  }

  lemma NumberIff(e: Engine, v: Option<Json>)
    requires PrintsIntegers(e) && IsInt(v)
    ensures IntAttr(JsString(e, v.value)) == v <==> PrintsExactly(e, v)
  {
    IntIff(e, Round(v.value.r));
  }

  lemma SizeIff(e: Engine, v: Option<Json>, fallback: int)
    requires PrintsIntegers(e) && IsIntOrNull(v) && fallback > 0 && Safe(fallback)
    ensures IntAttr(SizeAttr(e, v, fallback)) == v <==> v != Some(Null) && PrintsExactly(e, v) && v != Some(Int(0))
  {
    if v != Some(Null) {
      if v == Some(Int(0)) { IntIff(e, fallback); } else { NumberIff(e, v); }
    }
  }

  lemma MenuHeightIff(e: Engine, v: Option<Json>)
    requires PrintsIntegers(e) && IsIntOrNull(v)
    ensures IntAttr(if Falsy(v) then e.text(Int(50)) else JsString(e, v.value)) == v
            <==> v != Some(Null) && PrintsExactly(e, v) && v != Some(Int(0))
  {
    if Falsy(v) { IntIff(e, 50); } else { NumberIff(e, v); }
  }

  /** Out gives a property back exactly when FaithfulAt says so. */
  ghost predicate Exact(e: Engine, c: Canvas, kind: Kind, owned: bool, source: Option<Json>, k: Key, v: Option<Json>) {
    Out(RoleOf(k), e, c, kind, owned, source, k, v, v) == v <==> FaithfulAt(e, c, kind, owned, k, v)
  }

  lemma PlaceIff(e: Engine, c: Canvas, kind: Kind, owned: bool, source: Option<Json>, k: Key, v: Option<Json>)
    requires Ready(e, c) && NormalValue(k, v) && IsPlace(k)
    ensures Exact(e, c, kind, owned, source, k, v)
  {
    if k == Width { WidthIff(e, c, kind, v); }
    else if k == Height { HeightIff(e, c, kind, v); }
    else { NumberIff(e, v); }
  }

  lemma WidthIff(e: Engine, c: Canvas, kind: Kind, v: Option<Json>)
    requires PrintsIntegers(e) && NormalValue(Width, v)
    ensures IntAttr(PlaceText(e, c, kind, Width, v)) == v <==> FaithfulAt(e, c, kind, false, Width, v)
  {
    SizeIff(e, v, 100);
  }

  lemma HeightIff(e: Engine, c: Canvas, kind: Kind, v: Option<Json>)
    requires PrintsIntegers(e) && NormalValue(Height, v)
    ensures IntAttr(PlaceText(e, c, kind, Height, v)) == v <==> FaithfulAt(e, c, kind, false, Height, v)
  {
    SizeIff(e, v, 40);
    MenuHeightIff(e, v);
  }

  lemma GridIff(e: Engine, c: Canvas, kind: Kind, owned: bool, source: Option<Json>, k: Key, v: Option<Json>)
    requires Ready(e, c) && NormalValue(k, v) && IsGrid(k)
    ensures Exact(e, c, kind, owned, source, k, v)
  {
    if v.Some? { NumberIff(e, v); }
  }

  lemma StringIff(e: Engine, c: Canvas, kind: Kind, owned: bool, source: Option<Json>, k: Key, v: Option<Json>)
    requires RoleOf(k) in {TypeRole, LookRole, LinkRole, PayloadRole, OwnedRole, OtherRole}
    ensures Exact(e, c, kind, owned, source, k, v)
  {
    ToldIff(e, v);
    SavedOptVerbatimIff(v);
  }

  lemma DefaultIff(e: Engine, c: Canvas, kind: Kind, owned: bool, source: Option<Json>, k: Key, v: Option<Json>)
    requires RoleOf(k) in {FontRole, SourceRole}
    ensures Exact(e, c, kind, owned, source, k, v)
  {
    DeclaredIff(e, c.words.font, v);
    DeclaredIff(e, c.words.source, v);
    SavedOptVerbatimIff(v);
  }

  lemma RefreshIff(kind: Kind, v: Option<Json>)
    requires NormalValue(AutoRefresh, v)
    ensures RefreshOut(kind, v, v) == v <==> (kind == TextBrowser ==> v.Some?)
  {}

  lemma OpacityIff(e: Engine, c: Canvas, v: Option<Json>)
    requires Ready(e, c) && NormalValue(Opacity, v)
    ensures OpacityOut(e, c.words, v, v) == v <==> WholePercent(v)
  {
    OwnOpacity(e, c, v);
  }

  /** A text browser whose source is text or open shows the label of that source. */
  lemma BrowserShows(e: Engine, w: Words, source: Option<Json>)
    requires StringOrOpen(source)
    ensures Or(e, source, w.source) == SourceShown(e, w, source)
  {}

  lemma TextIff(e: Engine, c: Canvas, kind: Kind, source: Option<Json>, v: Option<Json>)
    requires NormalValue(Text, v) && (kind == TextBrowser ==> StringOrOpen(source))
    ensures TextOut(e, c, kind, source, v, v) == v <==> FaithfulAt(e, c, kind, false, Text, v)
  {
    SavedOptVerbatimIff(v);
    FalsySaved(v);
    if kind == TextBrowser { BrowserShows(e, c.words, source); }
  }

  lemma FieldIff(e: Engine, c: Canvas, kind: Kind, owned: bool, source: Option<Json>, k: Key, v: Option<Json>)
    requires Ready(e, c) && NormalValue(k, v) && (kind == TextBrowser ==> StringOrOpen(source))
    ensures Exact(e, c, kind, owned, source, k, v)
  {
    match RoleOf(k)
    case PlaceRole => PlaceIff(e, c, kind, owned, source, k, v);
    case GridRole => GridIff(e, c, kind, owned, source, k, v);
    case FontRole => DefaultIff(e, c, kind, owned, source, k, v);
    case SourceRole => DefaultIff(e, c, kind, owned, source, k, v);
    case OpacityRole => OpacityIff(e, c, v);
    case RefreshRole => RefreshIff(kind, v);
    case TextRole => TextIff(e, c, kind, source, v);
    case _ => StringIff(e, c, kind, owned, source, k, v);
  }

  /** Once the trigger comes through, the exported trigger owns what the imported one owned. */
  lemma SameEffect(e: Engine, kind: Kind, f: Fields)
    requires if kind == MenuBar then Get(f, Trigger).None? else PlainString(Get(f, Trigger))
    ensures EffectOut(e, kind, JustOwn(f)) == EffectIn(JustOwn(f))
  {
    ToldIff(e, Get(f, Trigger));
  }

  /** What faithfulness at the trigger and the source means for the other properties. */
  lemma FaithfulContext(e: Engine, c: Canvas, kind: Kind, effect: Effect, f: Fields)
    requires FaithfulBy(e, c, kind, effect, f) && effect == EffectIn(JustOwn(f))
    ensures EffectOut(e, kind, JustOwn(f)) == effect && (kind == TextBrowser ==> StringOrOpen(Get(f, Source)))
  {
    assert FaithfulKey(e, c, kind, effect, f, Trigger) && FaithfulKey(e, c, kind, effect, f, Source);
    SameEffect(e, kind, f);
  }

  lemma KeptContext(e: Engine, c: Canvas, kind: Kind, f: Fields)
    requires OutField(e, c, kind, JustOwn(f), Trigger) == Get(f, Trigger)
    requires OutField(e, c, kind, JustOwn(f), Source) == Get(f, Source)
    ensures EffectOut(e, kind, JustOwn(f)) == EffectIn(JustOwn(f)) && (kind == TextBrowser ==> StringOrOpen(Get(f, Source)))
  {
    ToldIff(e, Get(f, Trigger));
    DeclaredIff(e, c.words.source, Get(f, Source));
    SameEffect(e, kind, f);
  }

  lemma KeptAtIff(e: Engine, c: Canvas, kind: Kind, effect: Effect, f: Fields, k: Key)
    requires Ready(e, c) && Normal(f) && EffectOut(e, kind, JustOwn(f)) == effect
    requires kind == TextBrowser ==> StringOrOpen(Get(f, Source))
    ensures OutField(e, c, kind, JustOwn(f), k) == Get(f, k) <==> FaithfulAt(e, c, kind, Owns(effect, k), k, Get(f, k))
  {
    assert NormalValue(k, Get(f, k));
    FieldIff(e, c, kind, Owns(effect, k), Get(f, Source), k, Get(f, k));
  }

  /** All properties come through exactly when the record is faithful. */
  lemma AllKeptIff(e: Engine, c: Canvas, kind: Kind, effect: Effect, f: Fields)
    requires Ready(e, c) && Normal(f) && effect == EffectIn(JustOwn(f))
    ensures (forall k :: OutField(e, c, kind, JustOwn(f), k) == Get(f, k)) <==> FaithfulBy(e, c, kind, effect, f)
  {
    var d := JustOwn(f);
    if FaithfulBy(e, c, kind, effect, f) {
      FaithfulContext(e, c, kind, effect, f);
      forall k ensures OutField(e, c, kind, d, k) == Get(f, k) {
        assert FaithfulKey(e, c, kind, effect, f, k);
        KeptAtIff(e, c, kind, effect, f, k);
      }
    } else if forall k :: OutField(e, c, kind, d, k) == Get(f, k) {
      assert OutField(e, c, kind, d, Trigger) == Get(f, Trigger) && OutField(e, c, kind, d, Source) == Get(f, Source);
      KeptContext(e, c, kind, f);
      forall k ensures FaithfulKey(e, c, kind, effect, f, k) {
        KeptAtIff(e, c, kind, effect, f, k);
      }
    }
  }

  /** Import onto the canvas and export gives a normalised record back exactly when it is faithful. */
  lemma ExportedUnchangedIff(e: Engine, c: Canvas, f: Fields)
    requires Ready(e, c) && Normal(f)
    ensures Export(e, c, JustOwn(f)) == f <==> Faithful(e, c, f)
  {
    var d := JustOwn(f);
    AllKeptIff(e, c, KindIn(f), EffectIn(d), f);
    forall k ensures Get(Export(e, c, d), k) == OutField(e, c, KindIn(f), d, k) { ExportGet(e, c, d, k); }
    SameFieldsIff(Export(e, c, d), f);
  }

  lemma SameFieldsIff(a: Fields, b: Fields)
    ensures a == b <==> forall k :: Get(a, k) == Get(b, k)
  {
    if forall k :: Get(a, k) == Get(b, k) { SameFields(a, b); }
  }

  /** An element of width 0 comes back 100 wide, unless it is a menu bar. */
  lemma ZeroWidthGrows(e: Engine, c: Canvas, raw: Json, d: Data)
    requires Ready(e, c) && Load(e, raw) == Some(d) && TypeOf(e, raw.fields) != "menu"
    requires Get(raw.fields, Width) == Some(Int(0))
    ensures Get(Export(e, c, d), Width) == Some(Int(100))
  {
    MenuKind(e, raw, d.own);
    ZeroStays(e, raw, d.own);
    ZeroOut(e, c, KindIn(d.own), d);
    ExportedAs(e, c, raw, d, Width);
  }

  lemma ZeroStays(e: Engine, raw: Json, f: Fields)
    requires NormalizeElement(e, raw) == Some(f) && Get(raw.fields, Width) == Some(Int(0))
    ensures Get(f, Width) == Some(Int(0))
  {
    NormalizedGet(e, raw, Width);
    RoundInt(0);
  }

  lemma ZeroOut(e: Engine, c: Canvas, kind: Kind, d: Data)
    requires PrintsIntegers(e) && kind != MenuBar && See(d, Width) == Some(Int(0))
    ensures OutField(e, c, kind, d, Width) == Some(Int(100))
  {
    ZeroSize(e, See(d, Width));
    assert RoleOf(Width) == PlaceRole;
  }

  lemma ZeroSize(e: Engine, v: Option<Json>)
    requires PrintsIntegers(e) && v == Some(Int(0))
    ensures IntAttr(SizeAttr(e, v, 100)) == Some(Int(100))
  {
    IntIff(e, 100);
  }

  /**
   What the canvas shows: nothing on a menu bar, the name of its source on a text browser, else
   the text, on an empty field its placeholder, and otherwise the caption of the type. A label
   is marked as painted by the builder when there is no text, and always on a text browser.
   */
  lemma ShownLabel(e: Engine, c: Canvas, d: Data, s: string)
    ensures var el, kind := Create(e, c, d), KindIn(d.own);
            && (kind == MenuBar ==> el.span == None)
            && (kind == TextBrowser && See(d, Source) == Some(Str(s)) && s != "" ==> el.span == Some(c.sourceLabel(s)))
            && (kind == TextBrowser && Falsy(See(d, Source)) ==> el.span == Some(c.sourceLabel(c.words.source)))
            && (kind !in {MenuBar, TextBrowser} && See(d, Text) == Some(Str(s)) && s != "" ==> el.span == Some(s))
            && (kind == Input && Falsy(See(d, Text)) && See(d, Placeholder) == Some(Str(s)) && s != "" ==> el.span == Some(s))
            && (kind !in {MenuBar, TextBrowser} && Falsy(See(d, Text)) && (kind == Input ==> Falsy(See(d, Placeholder))) ==>
                  el.span == Some(c.caption(TypeIn(d.own))))
            && (el.auto <==> kind == TextBrowser || (kind != MenuBar && Falsy(See(d, Text))))
  {
    CreateIs(e, c, KindIn(d.own), EffectIn(d), d);
  }

  /** The triggers that own properties, by name. */
  lemma EffectsAre(v: Option<Json>)
    ensures EffectOf(v) == ExternalApp <==> v == Some(Str("external_app"))
    ensures EffectOf(v) == SetVariable <==> v == Some(Str("set_variable"))
    ensures EffectOf(v) == PlayMedia <==> v == Some(Str("play_video")) || v == Some(Str("play_image"))
  {
    assert "external_app"[0] == 'e' && "set_variable"[0] == 's' && "play_video"[0] == 'p' && "play_image"[0] == 'p';
  }

  /** An opacity is read as Number() reads it: null as 0, a boolean as 1 or 0, a text by its numeral. */
  lemma OpacitiesRead(e: Engine, b: bool, s: string, r: real)
    ensures Percent(e, Null) == Some(0) && Percent(e, Bool(b)) == Some(if b then 100 else 0) && Percent(e, NonFinite) == None
    ensures e.number(s) == Some(r) ==> Percent(e, Str(s)) == Percent(e, Num(r))
    ensures Percent(e, Num(r)) == Some((r * 100.0 + 0.5).Floor)
  {}

  /** The size a drawn element carries: none when the import left it open, the canvas's own for 0, else the given one. */
  lemma SizesDrawn(e: Engine, c: Canvas, d: Data, k: Key, s: string)
    requires KindIn(d.own) != MenuBar && (k == Width || k == Height)
    ensures var size := Attr(Create(e, c, d).attrs, k);
            && (See(d, k) in [None, Some(Null), Some(Str(""))] ==> size == Some(""))
            && (See(d, k) == Some(Num(0.0)) ==> size == Some(e.text(Int(if k == Width then 100 else 40))))
            && (See(d, k) == Some(Str(s)) && s != "" ==> size == Some(s))
  {
    SizeAttribute(e, c, d, k);
    SizeCases(e, See(d, k), if k == Width then 100 else 40, s);
  }

  lemma SizeAttribute(e: Engine, c: Canvas, d: Data, k: Key)
    requires KindIn(d.own) != MenuBar && (k == Width || k == Height)
    ensures Attr(Create(e, c, d).attrs, k) == Some(SizeAttr(e, See(d, k), if k == Width then 100 else 40))
  {
    var kind, effect := KindIn(d.own), EffectIn(d);
    CreateIs(e, c, kind, effect, d);
    assert Attr(CreateBy(e, c, kind, effect, d).attrs, k) == CreatedField(e, c, kind, effect, d, k);
    CreatedPlaces(e, c, kind, effect, d, k);
  }

  lemma SizeCases(e: Engine, v: Option<Json>, fallback: int, s: string)
    ensures v in [None, Some(Null), Some(Str(""))] ==> SizeAttr(e, v, fallback) == ""
    ensures v == Some(Num(0.0)) ==> SizeAttr(e, v, fallback) == e.text(Int(fallback))
    ensures v == Some(Str(s)) && s != "" ==> SizeAttr(e, v, fallback) == s
  {}

  /** The types that are handled on their own, by name. */
  lemma KindsAre(typeName: string)
    ensures KindOf("menu") == MenuBar && KindOf("textbrowser") == TextBrowser && KindOf("input") == Input
    ensures KindOf("button") == Button && KindOf("label") == Label && KindOf("dynamiclist") == DynamicList
    ensures typeName !in ["menu", "textbrowser", "input", "button", "label", "dynamiclist"] ==> KindOf(typeName) == Plain
  {
    assert |"menu"| == 4 && |"textbrowser"| == 11 && |"input"| == 5 && |"button"| == 6 && |"label"| == 5 && |"dynamiclist"| == 11;
    assert "input"[0] == 'i' && "label"[0] == 'l' && "textbrowser"[0] == 't' && "dynamiclist"[0] == 'd';
  }

  // ----- edits on the canvas -----

  /** An element after a control has written one attribute. */
  function Edited(el: El, k: Key, s: string): El { el.(attrs := el.attrs[k := s]) }

  lemma EditedAttr(el: El, k: Key, s: string, j: Key)
    ensures Attr(Edited(el, k, s).attrs, j) == if j == k then Some(s) else Attr(el.attrs, j)
  {}

  lemma SameLabel(c: Canvas, a: El, b: El)
    requires a.span == b.span && a.auto == b.auto && a.raw == b.raw
    requires Attr(a.attrs, Type) == Attr(b.attrs, Type) && Attr(a.attrs, Source) == Attr(b.attrs, Source)
    ensures TextFrom(c, a) == TextFrom(c, b)
  {}

  /** The export of an edited element, by what the edit leaves as it was. */
  lemma EditedField(c: Canvas, el: El, k: Key, s: string, j: Key) returns (out: El, effect: Effect, text: Option<Json>)
    ensures Get(ToConfig(c, Edited(el, k, s)), j) == ConfigField(c.words, out, effect, text, j)
    ensures out.raw == el.raw && Attr(out.attrs, j) == if j == k then Some(s) else Attr(el.attrs, j)
    ensures k != Trigger ==> effect == EffectOf(Told(Attr(el.attrs, Trigger)))
    ensures k !in {Type, Source} ==> text == TextFrom(c, el)
  {
    out := Edited(el, k, s);
    effect := EffectOf(Told(Attr(out.attrs, Trigger)));
    text := TextFrom(c, out);
    ConfigGet(c, out, effect, j);
    EditedAttr(el, k, s, j);
    EditedAttr(el, k, s, Trigger);
    if k != Type && k != Source {
      EditedAttr(el, k, s, Type);
      EditedAttr(el, k, s, Source);
      SameLabel(c, out, el);
    }
  }

  /** The properties that are plain text. */
  lemma StringKeys(k: Key)
    ensures k == Type || IsString(k)
            <==> k in {Type, Trigger, SceneChange, Color, BgColor, TriggerValue, TriggerTarget, Variable, Command,
                       ListVariable, Placeholder, Style, Icon, JsonPath, Video, VideoVariable, MediaVariable}
  {}

  /** A text written into one of these attributes is exported as it is, and an empty one is not exported. */
  lemma EditedString(c: Canvas, el: El, k: Key, s: string)
    requires k == Type || IsString(k)
    ensures Get(ToConfig(c, Edited(el, k, s)), k) == if s == "" then None else Some(Str(s))
  {
    var out, effect, text := EditedField(c, el, k, s, k);
    ToldEdited(c.words, out, effect, text, k);
  }

  lemma ToldEdited(w: Words, el: El, effect: Effect, text: Option<Json>, k: Key)
    requires k == Type || IsString(k)
    ensures ConfigField(w, el, effect, text, k) == Told(Attr(el.attrs, k))
  {}

  /** A number written into one of these is exported as that number, and a text that holds none drops the property. */
  lemma EditedNumber(c: Canvas, el: El, k: Key, s: string, n: int)
    requires k in {X, Y, Width, Height, Columns, Rows}
    ensures s == IntText(n) ==> Get(ToConfig(c, Edited(el, k, s)), k) == Some(Int(n))
    ensures s == "" || ParseInt(s).None? ==> Get(ToConfig(c, Edited(el, k, s)), k) == None
  {
    var out, effect, text := EditedField(c, el, k, s, k);
    NumberEdited(c.words, out, effect, text, k);
    ParseIntText(n);
    assert ParseInt("").None?;
  }

  lemma NumberEdited(w: Words, el: El, effect: Effect, text: Option<Json>, k: Key)
    requires (IsPlace(k) || IsGrid(k)) && k in el.attrs
    ensures ConfigField(w, el, effect, text, k) == IntAttr(el.attrs[k])
  {}

  /** The default of the font and the source control is not exported unless the import declared one. */
  lemma EditedDefault(c: Canvas, el: El, k: Key, s: string)
    requires k == Font || k == Source
    ensures Get(ToConfig(c, Edited(el, k, s)), k)
            == if s == "" || (k !in el.raw && s == if k == Font then c.words.font else c.words.source) then None
               else Some(Str(s))
  {
    var out, effect, text := EditedField(c, el, k, s, k);
    DefaultEdited(c.words, out, effect, text, k);
  }

  lemma DefaultEdited(w: Words, el: El, effect: Effect, text: Option<Json>, k: Key)
    requires k == Font || k == Source
    ensures ConfigField(w, el, effect, text, k) == UnlessDefault(el, k, if k == Font then w.font else w.source)
  {}

  /** A percentage is exported as a fraction; the full one only when the import declared an opacity. */
  lemma EditedOpacity(c: Canvas, el: El, n: int)
    requires c.words.full == "100"
    ensures Get(ToConfig(c, Edited(el, Opacity, IntText(n))), Opacity)
            == if n == 100 && Opacity !in el.raw then None else Some(Num(n as real / 100.0))
  {
    var out, effect, text := EditedField(c, el, Opacity, IntText(n), Opacity);
    OpacityEdited(c.words, out, effect, text, n);
  }

  lemma OpacityEdited(w: Words, el: El, effect: Effect, text: Option<Json>, n: int)
    requires w.full == "100" && Attr(el.attrs, Opacity) == Some(IntText(n))
    ensures ConfigField(w, el, effect, text, Opacity)
            == if n == 100 && Opacity !in el.raw then None else Some(Num(n as real / 100.0))
  {
    ParseIntText(n);
    FullText(n);
    assert OpacityFrom(w, el) == if n == 100 && Opacity !in el.raw then None else Some(Hundredth(n));
  }

  lemma FullText(n: int)
    ensures IntText(n) != "" && (IntText(n) == "100" <==> n == 100)
  {
    ParseIntText(n);
    ParseIntText(100);
    assert Decimal(1) == "1" && Decimal(10) == "10" && IntText(100) == "100";
  }

  lemma EditedSwitch(c: Canvas, el: El, s: string)
    ensures Get(ToConfig(c, Edited(el, AutoRefresh, s)), AutoRefresh) == Some(Bool(s == c.words.yes))
  {
    var out, effect, text := EditedField(c, el, AutoRefresh, s, AutoRefresh);
  }

  /** What belongs to a trigger is exported as it is while that trigger is set, and otherwise stays as imported. */
  lemma EditedOwned(c: Canvas, el: El, k: Key, s: string, trigger: string)
    requires Attr(el.attrs, Trigger) == Some(trigger) && IsOwned(k)
    ensures Get(ToConfig(c, Edited(el, k, s)), k)
            == if trigger != (if k in {ExternalAppPath, ExternalAppReturn} then "external_app" else "set_variable")
               then Get(el.raw, k) else if s == "" then None else Some(Str(s))
  {
    var out, effect, text := EditedField(c, el, k, s, k);
    OwnedEdited(c.words, out, effect, text, k);
    SetByTrigger(trigger, k);
  }

  lemma OwnedEdited(w: Words, el: El, effect: Effect, text: Option<Json>, k: Key)
    requires IsOwned(k)
    ensures ConfigField(w, el, effect, text, k) == if Owns(effect, k) then Told(Attr(el.attrs, k)) else Get(el.raw, k)
  {}

  lemma SetByTrigger(trigger: string, k: Key)
    requires IsOwned(k)
    ensures k in {ExternalAppPath, ExternalAppReturn, VariableChange, VariableChangeValue}
    ensures Owns(EffectOf(Told(Some(trigger))), k)
            <==> trigger == if k in {ExternalAppPath, ExternalAppReturn} then "external_app" else "set_variable"
  {}

  /** Writing one attribute changes no other property, save what a type, a source or a trigger decides. */
  lemma EditsAreLocal(c: Canvas, el: El, k: Key, s: string, j: Key)
    requires j != k
    requires k in {Type, Source} ==> j != Text
    requires k == Trigger ==> !IsOwned(j)
    ensures Get(ToConfig(c, Edited(el, k, s)), j) == Get(ToConfig(c, el), j)
  {
    var out, after, text := EditedField(c, el, k, s, j);
    var before := EffectOf(Told(Attr(el.attrs, Trigger)));
    ConfigGet(c, el, before, j);
    LocalField(c.words, el, out, before, after, TextFrom(c, el), text, j);
  }

  lemma LocalField(w: Words, a: El, b: El, before: Effect, after: Effect, t: Option<Json>, u: Option<Json>, j: Key)
    requires Attr(a.attrs, j) == Attr(b.attrs, j) && a.raw == b.raw && (j == Text ==> t == u)
    requires IsOwned(j) ==> before == after
    ensures ConfigField(w, a, before, t, j) == ConfigField(w, b, after, u, j)
  {}

  /** A new label changes no other property. */
  lemma LabelIsLocal(c: Canvas, el: El, s: string, j: Key)
    requires j != Text
    ensures Get(ToConfig(c, el.(span := Some(s))), j) == Get(ToConfig(c, el), j)
  {
    var out := el.(span := Some(s));
    var effect := EffectOf(Told(Attr(el.attrs, Trigger)));
    ConfigGet(c, el, effect, j);
    ConfigGet(c, out, effect, j);
    LocalField(c.words, el, out, effect, effect, TextFrom(c, el), TextFrom(c, out), j);
  }

  /** The exported text is decided by the label alone. */
  lemma LabelText(c: Canvas, el: El)
    ensures Get(ToConfig(c, el), Text) == TextFrom(c, el)
  {
    ConfigGet(c, el, EffectOf(Told(Attr(el.attrs, Trigger))), Text);
  }

  lemma DrawnLabel(e: Engine, c: Canvas, d: Data, s: string)
    requires Normal(d.own)
    ensures var el := Create(e, c, d).(span := Some(s));
            && Get(ToConfig(c, el), Text) == TextBy(c, KindIn(d.own), TypeIn(d.own), el)
            && Get(el.raw, Text) == SavedOpt(Get(d.own, Text))
  {
    var kind, effect := KindIn(d.own), EffectIn(d);
    var made := Create(e, c, d);
    CreateIs(e, c, kind, effect, d);
    assert NormalValue(Type, Get(d.own, Type));
    ExportType(e, c, kind, effect, d, made);
    LabelText(c, made.(span := Some(s)));
    SavedGet(d.own, Text);
  }

  /**
   The label a user gives an imported element is its text in the export, whether or not the
   import had one; only the caption the builder itself had painted is not exported.
   */
  lemma EditedLabelIff(e: Engine, c: Canvas, d: Data, s: string)
    requires Normal(d.own) && KindIn(d.own) !in {MenuBar, TextBrowser, Input} && s != ""
    ensures var text := Get(ToConfig(c, Create(e, c, d).(span := Some(s))), Text);
            && (text == Some(Str(s)) <==> !(Falsy(See(d, Text)) && s == c.caption(TypeIn(d.own))))
            && (text != Some(Str(s)) ==> text == None)
  {
    DrawnLabel(e, c, d, s);
    assert NormalValue(Type, Get(d.own, Type)) && NormalValue(Text, Get(d.own, Text));
    SeesOwn(d, Text);
    LabelCase(c, KindIn(d.own), TypeIn(d.own), Create(e, c, d).(span := Some(s)), Get(d.own, Text), See(d, Text), s);
  }

  lemma LabelCase(c: Canvas, kind: Kind, typeName: string, el: El, v: Option<Json>, u: Option<Json>, s: string)
    requires kind !in {MenuBar, TextBrowser, Input} && NormalValue(Text, v) && Sees(v, u) && Get(el.raw, Text) == SavedOpt(v)
    requires el.span == Some(s) && s != "" && el.auto == Falsy(u) && typeName != ""
    ensures TextBy(c, kind, typeName, el) == if Falsy(u) && s == c.caption(typeName) then None else Some(Str(s))
  {
    FalsySaved(v);
  }

  /** An emptied label drops the text. */
  lemma EmptiedLabel(e: Engine, c: Canvas, d: Data)
    requires Normal(d.own) && KindIn(d.own) !in {MenuBar, TextBrowser, Input} && c.caption(TypeIn(d.own)) != ""
    ensures Get(ToConfig(c, Create(e, c, d).(span := Some(""))), Text) == None
  {
    DrawnLabel(e, c, d, "");
  }

  /** A text browser's label is text only while it differs from the label of its source; a field's text is no label. */
  lemma OtherLabels(e: Engine, c: Canvas, d: Data, s: string)
    requires Normal(d.own) && s != ""
    ensures KindIn(d.own) == Input ==> Get(ToConfig(c, Create(e, c, d).(span := Some(s))), Text) == SavedOpt(Get(d.own, Text))
    ensures KindIn(d.own) == TextBrowser && s != c.sourceLabel(SourceShown(e, c.words, See(d, Source)))
            ==> Get(ToConfig(c, Create(e, c, d).(span := Some(s))), Text) == Some(Str(s))
  {
    var kind, effect := KindIn(d.own), EffectIn(d);
    DrawnLabel(e, c, d, s);
    if kind == TextBrowser {
      CreateIs(e, c, kind, effect, d);
      assert Attr(Create(e, c, d).attrs, Source) == CreatedField(e, c, kind, effect, d, Source);
      BrowserSource(e, c.words, effect == PlayMedia, d);
      SourceSynthesized(e, c, TypeIn(d.own), Create(e, c, d).attrs, See(d, Source));
    }
  }

  /** Without a type the canvas has no caption of its own, so any label is text. */
  lemma UntypedLabel(c: Canvas, el: El, s: string)
    requires el.span == Some(s) && s != "" && (Attr(el.attrs, Type) == None || Attr(el.attrs, Type) == Some(""))
    ensures Get(ToConfig(c, el), Text) == Some(Str(s))
  {
    LabelText(c, el);
    assert Lower("") == "";
  }

  /** The letter case of the type does not matter to the label. */
  lemma TypeCaseIgnored(c: Canvas, el: El, s: string, t: string)
    requires Lower(s) == Lower(t)
    ensures Get(ToConfig(c, Edited(el, Type, s)), Text) == Get(ToConfig(c, Edited(el, Type, t)), Text)
  {
    var a, b := Edited(el, Type, s), Edited(el, Type, t);
    LabelText(c, a);
    LabelText(c, b);
    EditedAttr(el, Type, s, Source);
    EditedAttr(el, Type, t, Source);
    assert TypeFrom(a) == TypeFrom(b);
  }

  // ----- the element on the canvas -----

  /** An element whose attributes are set step by step, as the builder does it. */
  class CanvasElement {
    var attrs: Attrs
    var raw: Fields
    var span: Option<string>
    var auto: bool

    function View(): El
      reads this
    {
      El(attrs, raw, span, auto)
    }

    /** createElementFromData */
    constructor (e: Engine, c: Canvas, d: Data)
      ensures View() == Create(e, c, d)
    {
      attrs := PlaceAttrs(e, c.words, d);
      raw := SavedFields(d.own);
      span := None;
      auto := false;
      new;
      Draw(e, c, KindIn(d.own), EffectIn(d), d);
    }

    /** The part of it that depends on the kind of element. */
    method Draw(e: Engine, c: Canvas, kind: Kind, effect: Effect, d: Data)
      requires View() == El(PlaceAttrs(e, c.words, d), SavedFields(d.own), None, false)
      modifies this
      ensures View() == CreateBy(e, c, kind, effect, d)
    {
      if kind == MenuBar {
        DrawMenu(e, c, d);
      } else {
        span := Some(Shown(e, c, kind, d));
        auto := kind == TextBrowser || Falsy(See(d, Text));
        DrawBox(e, c.words, kind, effect == PlayMedia, d);
      }
    }

    /** A menu bar is as wide as the canvas, and carries nothing but its place. */
    method DrawMenu(e: Engine, c: Canvas, d: Data)
      requires attrs == PlaceAttrs(e, c.words, d)
      modifies this`attrs
      ensures attrs == MenuAttrs(e, c, d)
    {
      attrs := attrs[Width := e.text(Int(c.width))];
      attrs := attrs[Height := if Falsy(See(d, Height)) then e.text(Int(50)) else JsString(e, See(d, Height).value)];
    }

    /** The attributes of anything but a menu bar. */
    method DrawBox(e: Engine, w: Words, kind: Kind, plays: bool, d: Data)
      requires attrs == PlaceAttrs(e, w, d)
      modifies this`attrs
      ensures attrs == BoxAttrs(e, w, kind, plays, d)
    {
      attrs := MediaAttrs(attrs, plays, Or(e, See(d, MediaVariable), ""));
      attrs := attrs[Width := SizeAttr(e, See(d, Width), 100)];
      attrs := attrs[Height := SizeAttr(e, See(d, Height), 40)];
      attrs := TypeAttrs(e, w, kind, attrs, d);
      ApplyConfigAttributes(e, w, d);
    }

    /** applyElementConfigAttributes */
    method ApplyConfigAttributes(e: Engine, w: Words, d: Data)
      modifies this`attrs
      ensures attrs == ApplyConfig(e, w, old(attrs), d)
      ensures forall k :: Attr(attrs, k) == ApplyField(e, w, d, k, Attr(old(attrs), k))
    {
      ghost var before := attrs;
      CopyProperties(e, d, APPLIED_LINKS + APPLIED_MEDIA);
      CopyProperties(e, d, APPLIED_NEXT);
      var refresh := See(d, AutoRefresh);
      if refresh.Some? {
        attrs := attrs[AutoRefresh := if Falsy(refresh) then w.no else w.yes];
      }
      CopyProperties(e, d, APPLIED_LAST);
      forall k { ApplyConfigAttr(e, w, before, d, k); }
    }

    /** A run of set() calls. */
    method CopyProperties(e: Engine, d: Data, keys: seq<Key>)
      modifies this`attrs
      ensures attrs == SetAll(e, old(attrs), d, keys)
    {
      for i := 0 to |keys|
        invariant attrs == SetAll(e, old(attrs), d, keys[..i])
      {
        assert keys[..i + 1][..i] == keys[..i];
        var v := See(d, keys[i]);
        if v.Some? && !v.value.Null? {
          if v.value == Str("") { attrs := attrs - {keys[i]}; } else { attrs := attrs[keys[i] := JsString(e, v.value)]; }
        }
      }
      assert keys[..|keys|] == keys;
    }

    /** editElementText with the prompt's answer: only a button, a label or a video has a label to edit. */
    method EditElementText(answer: Option<string>)
      modifies this`span
      ensures span == if Attr(attrs, Type) in {Some("button"), Some("label"), Some("video")} && old(span).Some? && answer.Some?
                      then answer else old(span)
    {
      var typeName := Attr(attrs, Type);
      if !(typeName == Some("button") || typeName == Some("label") || typeName == Some("video")) { return; }
      if span.None? || answer.None? || answer == span { return; }
      span := answer;
    }

    /** elementToConfig on the element created from an accepted record, and once more on the element drawn from that. */
    method ExportTwice(e: Engine, c: Canvas, data: Json) returns (again: Fields)
      requires Ready(e, c) && Load(e, data).Some?
      requires View() == Create(e, c, Load(e, data).value)
      ensures again == ToConfig(c, View()) <==> Settles(e, Load(e, data).value)
    {
      var first := ToConfig(c, View());
      ExportIdempotentIff(e, c, data, Load(e, data).value);
      var redrawn := new CanvasElement(e, c, Load(e, Obj(first)).value);
      again := ToConfig(c, redrawn.View());
    }
  }
}
