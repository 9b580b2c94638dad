/**
 JSON values as the builder handles them, and the conversions of the JavaScript
 engine it relies on. Property names the builder mentions are constructors of Key,
 so Other stands for every name it does not mention.
 */
module Json {
  import opened Prelude

  datatype Key =
    | JukaConfig | Scenes | Variables | TopWidth | TopHeight | CanvasWidth | CanvasHeight
    | SceneName | Elements
    | Type | X | Y | Width | Height | Text | Opacity | Columns | Rows | AutoRefresh
    | Color | BgColor | Font | Trigger | TriggerValue | TriggerTarget | SceneChange
    | ExternalAppPath | ExternalAppReturn | VariableChange | VariableChangeValue
    | MediaVariable | VideoVariable | Video | Command | Variable | ListVariable
    | Placeholder | Style | Icon | Source | JsonPath | Image
    | Other(name: string)

  type Fields = map<Key, Json>

  datatype Json =
    | Null
    | Bool(b: bool)
    | Num(r: real)
    | NonFinite            // what JSON.parse makes of an overlarge literal
    | Str(s: string)
    | Arr(items: seq<Json>)
    | Obj(fields: Fields)

  /** The engine's own conversions of values the model leaves open. */
  datatype Engine = Engine(
    text: Json -> string,               // String(v) for anything but a string
    number: string -> Option<real>,     // Number(s), None for NaN and the infinities
    keyText: Key -> string)             // the property name a key stands for

  function Get(f: Fields, k: Key): Option<Json> { if k in f then Some(f[k]) else None }

  function JsString(e: Engine, v: Json): string {
    if v.Str? then v.s else e.text(v)
  }

  /** v || fallback picks the fallback for these; None is undefined. */
  predicate Falsy(v: Option<Json>) {
    v.None? || v.value.Null? || v.value == Bool(false) || v.value == Num(0.0) || v.value == Str("")
  }

  predicate IsRecord(v: Option<Json>) { v.Some? && v.value.Obj? }

  function Round(r: real): int { (r + 0.5).Floor }

  /** replace(/px$/i, '') */
  function StripPx(s: string): string {
    if |s| >= 2 && s[|s| - 2] in "pP" && s[|s| - 1] in "xX" then s[..|s| - 2] else s
  }

  /** toIntOrNull */
  function ToInt(e: Engine, v: Option<Json>): Option<int> {
    if v.None? || v.value.Null? || v.value == Str("") then None
    else match v.value
      case Num(r) => Some(Round(r))
      case NonFinite => None
      case other =>
        var text := StripPx(Trim(JsSpace, JsString(e, other)));
        if text == "" then None
        else match e.number(text)
          case None => None
          case Some(r) => Some(Round(r))
  }

  /** toNumberOrNull */
  function ToNumber(e: Engine, v: Option<Json>): Option<real> {
    if v.None? || v.value.Null? || v.value == Str("") then None
    else match v.value
      case Num(r) => Some(r)
      case NonFinite => None
      case Bool(b) => Some(if b then 1.0 else 0.0)
      case other => e.number(JsString(e, other))
  }

  function Int(n: int): Json { Num(n as real) }

  /** JavaScript's falsy values, among those JSON can hold. */
  lemma FalsyAre(v: Option<Json>)
    ensures Falsy(v) <==> v in [None, Some(Null), Some(Bool(false)), Some(Num(0.0)), Some(Str(""))]
  {}

  /** Number() of a value that is given: a number is itself, a boolean is 1 or 0, a text what the engine reads in it. */
  lemma NumbersAre(e: Engine, r: real, b: bool, s: string)
    ensures ToNumber(e, Some(Num(r))) == Some(r) && ToNumber(e, Some(Bool(b))) == Some(if b then 1.0 else 0.0)
    ensures ToNumber(e, Some(Str(s))) == if s == "" then None else e.number(s)
    ensures forall v :: v in [None, Some(Null), Some(NonFinite)] ==> ToNumber(e, v) == None
  {}

  lemma RoundInt(n: int)
    ensures Round(n as real) == n
  {}

  /** Object.assign({}, list, ...) copies the indices of an array. */
  function IndexFields(items: seq<Json>): Fields {
    if items == [] then map[]
    else IndexFields(items[..|items| - 1])[Other(Decimal(|items| - 1)) := items[|items| - 1]]
  }

  // ----- copies -----

  /** Object.assign({}, f): what is named __proto__ goes to the prototype setter. */
  function Copied(f: Fields): Fields { f - {Other(PROTO)} }

  lemma CopiedGet(f: Fields, k: Key)
    ensures Get(Copied(f), k) == if k == Other(PROTO) then None else Get(f, k)
  {}

  /** A value after JSON.stringify and JSON.parse: a number that is not finite comes back as null. */
  function Saved(j: Json): Json {
    match j
    case NonFinite => Null
    case Arr(items) => Arr(seq(|items|, i requires 0 <= i < |items| => Saved(items[i])))
    case Obj(f) => Obj(map k | k in f :: Saved(f[k]))
    case _ => j
  }

  function SavedFields(f: Fields): Fields { map k | k in f :: Saved(f[k]) }

  /** No non-finite number anywhere inside. */
  predicate Finite(j: Json) {
    match j
    case NonFinite => false
    case Arr(items) => forall i :: 0 <= i < |items| ==> Finite(items[i])
    case Obj(f) => forall k | k in f :: Finite(f[k])
    case _ => true
  }

  lemma {:induction false} SavedIsFinite(j: Json)
    ensures Finite(Saved(j))
  {
    match j {
      case Arr(items) => forall i | 0 <= i < |items| { SavedIsFinite(items[i]); }
      case Obj(f) => forall k | k in f { SavedIsFinite(f[k]); }
      case _ =>
    }
  }

  /** A value is preserved verbatim exactly when all its numbers are finite. */
  lemma {:induction false} SavedVerbatimIff(j: Json)
    ensures Saved(j) == j <==> Finite(j)
  {
    match j {
      case Arr(items) =>
        forall i | 0 <= i < |items| { SavedVerbatimIff(items[i]); }
        if Finite(j) {
          assert Saved(j).items == items;
        } else if Saved(j) == j {
          SavedIsFinite(j);
        }
      case Obj(f) =>
        forall k | k in f { SavedVerbatimIff(f[k]); }
        if Finite(j) {
          assert Saved(j).fields == f;
        } else if Saved(j) == j {
          SavedIsFinite(j);
        }
      case _ =>
    }
  }

  lemma SavedAgain(j: Json)
    ensures Saved(Saved(j)) == Saved(j)
  {
    SavedIsFinite(j);
    SavedVerbatimIff(Saved(j));
  }

  function SavedOpt(v: Option<Json>): Option<Json> { match v case None => None case Some(j) => Some(Saved(j)) }
}
