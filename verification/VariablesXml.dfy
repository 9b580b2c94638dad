/** The variables block of a config, written as XML and read back (script.js). */
module VariablesXml {
  import opened Numerals
  import opened Prelude

  // ----- the tree -----

  /** A scalar; a number that is not a safe integer is known by the text String() gives it. */
  datatype Value = Int(n: int) | Float(text: string) | Bool(b: bool) | Text(s: string) | Null

  datatype Entry = Entry(key: string, val: Tree)

  /** A block keeps the insertion order of its keys. */
  datatype Tree = Leaf(v: Value) | Block(entries: seq<Entry>)

  const MAX_SAFE: int := 9007199254740991

  predicate Safe(n: int) { -MAX_SAFE <= n <= MAX_SAFE }

  /** String(v), and the empty string for null. */
  function TextOf(v: Value): string {
    match v
    case Int(n) => IntText(n)
    case Float(text) => text
    case Bool(b) => if b then "true" else "false"
    case Text(s) => s
    case Null => ""
  }

  // ----- escaping -----

  /** s.replace(/c/g, sub) */
  function Replace(s: string, c: char, sub: string): string {
    if s == [] then [] else (if s[0] == c then sub else [s[0]]) + Replace(s[1..], c, sub)
  }

  const RULES := 5

  /** The characters escapeXml replaces, in its order, and the predefined entities of XML 1.0, section 4.6. */
  function Special(i: nat): char
    requires i < RULES
  {
    match i case 0 => '&' case 1 => '<' case 2 => '>' case 3 => '"' case _ => '\''
  }

  function Entity(i: nat): string
    requires i < RULES
  {
    match i case 0 => "&amp;" case 1 => "&lt;" case 2 => "&gt;" case 3 => "&quot;" case _ => "&apos;"
  }

  /** The replacements from the i-th on, one after the other. */
  function EscapeFrom(i: nat, s: string): string
    decreases RULES - i
  {
    if i >= RULES then s else EscapeFrom(i + 1, Replace(s, Special(i), Entity(i)))
  }

  /** escapeXml: five replacements in turn, the ampersand first. */
  function EscapeXml(s: string): string { EscapeFrom(0, s) }

  /** What one character becomes under the rules from the i-th on. */
  function EscapeChar(i: nat, c: char): string
    decreases RULES - i
  {
    if i >= RULES then [c] else if c == Special(i) then Entity(i) else EscapeChar(i + 1, c)
  }

  function Escape(s: string): string { if s == [] then [] else EscapeChar(0, s[0]) + Escape(s[1..]) }

  lemma {:induction false} ReplaceConcat(a: string, b: string, c: char, sub: string)
    ensures Replace(a + b, c, sub) == Replace(a, c, sub) + Replace(b, c, sub)
  {
    if a == [] {
      assert a + b == b;
    } else {
      var head := if a[0] == c then sub else [a[0]];
      ReplaceConcat(a[1..], b, c, sub);
      assert (a + b)[0] == a[0] && (a + b)[1..] == a[1..] + b;
      assert head + (Replace(a[1..], c, sub) + Replace(b, c, sub)) == (head + Replace(a[1..], c, sub)) + Replace(b, c, sub);
    }
  }

  lemma {:induction false} ReplaceAbsent(s: string, c: char, sub: string)
    requires c !in s
    ensures Replace(s, c, sub) == s
  {
    if s != [] { ReplaceAbsent(s[1..], c, sub); }
  }

  lemma ReplaceOne(x: char, c: char, sub: string)
    ensures Replace([x], c, sub) == if x == c then sub else [x]
  {
    assert Replace([x][1..], c, sub) == [];
  }

  lemma {:induction false} EscapeConcat(i: nat, a: string, b: string)
    ensures EscapeFrom(i, a + b) == EscapeFrom(i, a) + EscapeFrom(i, b)
    decreases RULES - i
  {
    if i < RULES {
      ReplaceConcat(a, b, Special(i), Entity(i));
      EscapeConcat(i + 1, Replace(a, Special(i), Entity(i)), Replace(b, Special(i), Entity(i)));
    }
  }

  /** No entity contains a character that a later rule replaces. */
  lemma EntityIsFinal(i: nat, j: nat)
    requires i < j < RULES
    ensures Special(j) !in Entity(i)
  {}

  lemma {:induction false} EntityKept(i: nat, j: nat)
    requires i < j && i < RULES
    ensures EscapeFrom(j, Entity(i)) == Entity(i)
    decreases RULES - j
  {
    if j < RULES {
      EntityIsFinal(i, j);
      ReplaceAbsent(Entity(i), Special(j), Entity(j));
      EntityKept(i, j + 1);
    }
  }

  lemma {:induction false} EscapeOne(i: nat, c: char)
    ensures EscapeFrom(i, [c]) == EscapeChar(i, c)
    decreases RULES - i
  {
    if i < RULES {
      ReplaceOne(c, Special(i), Entity(i));
      if c == Special(i) { EntityKept(i, i + 1); } else { EscapeOne(i + 1, c); }
    }
  }

  lemma {:induction false} EscapeNothing(i: nat)
    ensures EscapeFrom(i, []) == []
    decreases RULES - i
  {
    if i < RULES { EscapeNothing(i + 1); }
  }

  /** The five replacements in turn never touch one another's output: each character is escaped once. */
  lemma {:induction false} EscapeXmlIsCharwise(s: string)
    ensures EscapeXml(s) == Escape(s)
  {
    if s == [] {
      EscapeNothing(0);
    } else {
      EscapeXmlIsCharwise(s[1..]);
      EscapeOne(0, s[0]);
      EscapeConcat(0, [s[0]], s[1..]);
      assert [s[0]] + s[1..] == s;
    }
  }

  /** The five characters that are markup become the predefined entities; every other character stays. */
  lemma EscapesAre(c: char)
    ensures EscapeXml("&") == "&amp;" && EscapeXml("<") == "&lt;" && EscapeXml(">") == "&gt;"
    ensures EscapeXml("\"") == "&quot;" && EscapeXml("'") == "&apos;"
    ensures c !in "&<>\"'" ==> EscapeXml([c]) == [c]
  {
    forall i: nat | i < RULES ensures EscapeXml([Special(i)]) == Entity(i) {
      EscapeOne(0, Special(i));
      var j := EscapeCharIs(0, Special(i));
    }
    assert [Special(0), Special(1), Special(2), Special(3), Special(4)] == ['&', '<', '>', '"', '\''];
    EscapeOne(0, c);
    var j := EscapeCharIs(0, c);
  }

  // ----- printing -----

  predicate TagChar(c: char) { 'a' <= c <= 'z' || 'A' <= c <= 'Z' || IsDigit(c) || c == '_' || c == '-' }

  /** xmlEscapeKey; a character outside the basic plane is two UTF-16 units. */
  function TagOf(key: string): string {
    if key == [] then []
    else (if TagChar(key[0]) then [key[0]] else if key[0] as int >= 0x1_0000 then "__" else "_") + TagOf(key[1..])
  }

  function Open(tag: string): string { "<" + tag + ">" }

  function Close(tag: string): string { "</" + tag + ">" }

  function PrintEntry(e: Entry, indent: string): string
    decreases e
  {
    var tag := TagOf(e.key);
    match e.val
    case Leaf(v) => indent + Open(tag) + EscapeXml(TextOf(v)) + Close(tag) + "\n"
    case Block(inner) =>
      if inner == [] then [] else indent + Open(tag) + "\n" + PrintEntries(inner, indent + "  ") + indent + Close(tag) + "\n"
  }

  function PrintEntries(es: seq<Entry>, indent: string): string
    decreases es
  {
    if es == [] then [] else PrintEntry(es[0], indent) + PrintEntries(es[1..], indent)
  }

  /** The printed lines: a scalar on one, a block between two with its entries deeper, an empty block not at all. */
  lemma LinesAre(key: string, v: Value, inner: seq<Entry>, indent: string)
    ensures PrintEntry(Entry(key, Leaf(v)), indent)
            == indent + ("<" + TagOf(key) + ">") + Escape(TextOf(v)) + ("</" + TagOf(key) + ">") + "\n"
    ensures PrintEntry(Entry(key, Block(inner)), indent)
            == if inner == [] then ""
               else indent + ("<" + TagOf(key) + ">") + "\n" + PrintEntries(inner, indent + "  ") + indent
                    + ("</" + TagOf(key) + ">") + "\n"
  {
    EscapeXmlIsCharwise(TextOf(v));
  }

  lemma LinesInTurn(es: seq<Entry>, e: Entry, indent: string)
    ensures PrintEntries([e] + es, indent) == PrintEntry(e, indent) + PrintEntries(es, indent) && PrintEntries([], indent) == ""
  {
    assert ([e] + es)[1..] == es;
  }

  // ----- a parser for the documents that are printed -----

  /** An element as the reader sees it: its child elements, and the text directly inside it. */
  datatype Elem = Elem(name: string, kids: seq<Elem>, text: string)

  datatype Parsed = Parsed(kids: seq<Elem>, text: string, rest: string)

  /** The production Char of XML 1.0, section 2.2. */
  predicate XmlChar(c: char) {
    var n := c as int;
    n == 0x9 || n == 0xA || n == 0xD || 0x20 <= n <= 0xD7FF || 0xE000 <= n <= 0xFFFD || 0x1_0000 <= n
  }

  /** The ASCII part of NameStartChar and NameChar, section 2.3. */
  predicate NameStart(c: char) { 'a' <= c <= 'z' || 'A' <= c <= 'Z' || c == '_' }

  predicate NameChar(c: char) { NameStart(c) || IsDigit(c) || c == '-' || c == '.' }

  function NameRun(s: string): (n: nat)
    ensures n <= |s|
  {
    if s != [] && NameChar(s[0]) then 1 + NameRun(s[1..]) else 0
  }

  predicate IsName(s: string) { s != [] && NameStart(s[0]) && NameRun(s) == |s| }

  /** The character a reference stands for, and its length; only the five predefined entities are known. */
  function Reference(i: nat, s: string): Option<(char, nat)>
    ensures Reference(i, s).Some? ==> 0 < Reference(i, s).value.1 <= |s|
    decreases RULES - i
  {
    if i >= RULES then None
    else if Entity(i) <= s then Some((Special(i), |Entity(i)|))
    else Reference(i + 1, s)
  }

  /** One character of text; line ends are normalised as section 2.11 asks. */
  function CharData(s: string): Option<(char, nat)>
    requires s != [] && s[0] != '<'
    ensures CharData(s).Some? ==> 0 < CharData(s).value.1 <= |s|
  {
    if s[0] == '&' then Reference(0, s)
    else if s[0] == '\r' then Some(('\n', if |s| >= 2 && s[1] == '\n' then 2 else 1))
    else if XmlChar(s[0]) then Some((s[0], 1))
    else None
  }

  function WithText(c: char, p: Option<Parsed>): Option<Parsed> {
    match p case None => None case Some(q) => Some(q.(text := [c] + q.text))
  }

  function WithKid(el: Elem, p: Option<Parsed>): Option<Parsed> {
    match p case None => None case Some(q) => Some(q.(kids := [el] + q.kids))
  }

  /** The content of an element, up to its end tag; None is a parse error. */
  function Content(s: string): (r: Option<Parsed>)
    ensures r.Some? ==> |r.value.rest| <= |s|
    decreases |s|, 1
  {
    if s == [] || "</" <= s then Some(Parsed([], [], s))
    else if s[0] == '<' then
      match Element(s)
      case None => None
      case Some((el, rest)) => WithKid(el, Content(rest))
    else
      match CharData(s)
      case None => None
      case Some((c, n)) => WithText(c, Content(s[n..]))
  }

  function Element(s: string): (r: Option<(Elem, string)>)
    requires s != [] && s[0] == '<'
    ensures r.Some? ==> |r.value.1| < |s|
    decreases |s|, 0
  {
    var n := NameRun(s[1..]);
    var name, after := s[1..][..n], s[1..][n..];
    if !IsName(name) || after == [] || after[0] != '>' then None
    else
      match Content(after[1..])
      case None => None
      case Some(p) => if Close(name) <= p.rest then Some((Elem(name, p.kids, p.text), p.rest[|Close(name)|..])) else None
  }

  // ----- reading -----

  predicate AllDigitChars(s: string) { forall i :: 0 <= i < |s| ==> IsDigit(s[i]) }

  function Unsigned(s: string): string { if s != [] && (s[0] == '+' || s[0] == '-') then s[1..] else s }

  /** ^[+-]?\d+$ */
  predicate IntForm(s: string) { Unsigned(s) != [] && AllDigitChars(Unsigned(s)) }

  predicate ExponentForm(s: string) { s == [] || ((s[0] == 'e' || s[0] == 'E') && IntForm(s[1..])) }

  /** ^[+-]?(\d+\.\d*|\.\d+)([eE][+-]?\d+)?$ */
  predicate FloatForm(s: string) {
    var u := Unsigned(s);
    var n := DigitRun(u);
    n < |u| && u[n] == '.' &&
    var tail := u[n + 1..];
    var m := DigitRun(tail);
    (n > 0 || m > 0) && ExponentForm(tail[m..])
  }

  /** The number whose String() is `text`. */
  function NumberOf(text: string): Value {
    match ParseInt(text)
    case None => Float(text)
    case Some(n) => if Safe(n) && IntText(n) == text then Int(n) else Float(text)
  }

  /** String() of the number an integer or decimal numeral reads as; `canon` is the engine's for numerals that are not safe integers. */
  function Canonical(canon: string -> string, s: string): string {
    match if IntForm(s) then ParseInt(s) else None
    case None => canon(s)
    case Some(n) => if Safe(n) then IntText(n) else canon(s)
  }

  /** coerceXmlValue */
  function Coerce(canon: string -> string, raw: string): Value {
    var trimmed := Trim(JsSpace, raw);
    if Lower(trimmed) == "true" || Lower(trimmed) == "false" then Bool(Lower(trimmed) == "true")
    else if IntForm(trimmed) && Canonical(canon, trimmed) == trimmed then NumberOf(trimmed)
    else if FloatForm(trimmed) then NumberOf(canon(trimmed))
    else Text(raw)
  }

  /** out[key] = val: an existing key keeps its place, and __proto__ never becomes a key of its own. */
  function Put(es: seq<Entry>, key: string, val: Tree): seq<Entry> {
    if key == PROTO then es
    else if es == [] then [Entry(key, val)]
    else if es[0].key == key then [Entry(key, val)] + es[1..]
    else [es[0]] + Put(es[1..], key, val)
  }

  function ReadElem(canon: string -> string, el: Elem): Tree
    decreases el
  {
    if el.kids == [] then Leaf(Coerce(canon, el.text)) else Block(ReadKids(canon, el.kids))
  }

  /** xmlVariablesToObject */
  function ReadKids(canon: string -> string, kids: seq<Elem>): seq<Entry>
    decreases kids
  {
    if kids == [] then []
    else Put(ReadKids(canon, kids[..|kids| - 1]), kids[|kids| - 1].name, ReadElem(canon, kids[|kids| - 1]))
  }

  /** The variables element of an exported config. */
  function PrintVariables(es: seq<Entry>): string {
    Open("variables") + "\n" + PrintEntries(es, "    ") + "  " + Close("variables")
  }

  /** Parsing the element and reading it back; None is a parse error. */
  function ReadVariables(canon: string -> string, s: string): Option<seq<Entry>> {
    if s == [] || s[0] != '<' then None
    else match Element(s)
      case None => None
      case Some((el, rest)) => if rest == [] then Some(ReadKids(canon, el.kids)) else None
  }

  // ----- parsing what was printed: text -----

  function Prefixed(text: string, p: Option<Parsed>): Option<Parsed> {
    match p case None => None case Some(q) => Some(q.(text := text + q.text))
  }

  predicate AllXml(s: string) { s == [] || (XmlChar(s[0]) && AllXml(s[1..])) }

  function LineEnds(s: string): string {
    if s == [] then []
    else if s[0] == '\r' then ['\n'] + LineEnds(if |s| >= 2 && s[1] == '\n' then s[2..] else s[1..])
    else [s[0]] + LineEnds(s[1..])
  }

  lemma PrefixedAgain(c: char, text: string, p: Option<Parsed>)
    ensures WithText(c, Prefixed(text, p)) == Prefixed([c] + text, p)
  {
    if p.Some? { assert [c] + (text + p.value.text) == [c] + text + p.value.text; }
  }

  lemma PrefixedNothing(p: Option<Parsed>)
    ensures Prefixed([], p) == p
  {
    if p.Some? { assert [] + p.value.text == p.value.text; }
  }

  predicate Blank(s: string) { s == [] || ((s[0] == ' ' || s[0] == '\n') && Blank(s[1..])) }

  lemma {:induction false} ContentBlank(ws: string, rest: string)
    requires Blank(ws)
    ensures Content(ws + rest) == Prefixed(ws, Content(rest))
  {
    if ws == [] {
      assert ws + rest == rest;
      PrefixedNothing(Content(rest));
    } else {
      var s := ws + rest;
      ContentBlank(ws[1..], rest);
      assert s[0] == ws[0] && s[1..] == ws[1..] + rest;
      assert CharData(s) == Some((ws[0], 1));
      PrefixedAgain(ws[0], ws[1..], Content(rest));
      assert [ws[0]] + ws[1..] == ws;
    }
  }

  lemma EntitiesDiffer(i: nat, j: nat)
    requires i < RULES && j < RULES && i != j
    ensures |Entity(i)| > 2 && |Entity(j)| > 2
    ensures Entity(i)[1] != Entity(j)[1] || Entity(i)[2] != Entity(j)[2]
  {}

  /** No entity is the beginning of another, so a reference is read as the character it was written for. */
  lemma {:induction false} ReferenceReads(j: nat, i: nat, rest: string)
    requires j <= i < RULES
    ensures Reference(j, Entity(i) + rest) == Some((Special(i), |Entity(i)|))
    decreases i - j
  {
    var s := Entity(i) + rest;
    assert Entity(i) <= s;
    if j < i {
      EntitiesDiffer(i, j);
      assert s[1] == Entity(i)[1] && s[2] == Entity(i)[2];
      ReferenceReads(j + 1, i, rest);
    }
  }

  /** The escape of a character is itself, or one of the entities. */
  lemma {:induction false} EscapeCharIs(i: nat, c: char) returns (j: nat)
    requires i <= RULES
    ensures i <= j <= RULES
    ensures if j < RULES then c == Special(j) && EscapeChar(i, c) == Entity(j) else EscapeChar(i, c) == [c]
    ensures j == RULES ==> forall k :: i <= k < RULES ==> Special(k) != c
    decreases RULES - i
  {
    if i == RULES { j := RULES; }
    else if c == Special(i) { j := i; }
    else { j := EscapeCharIs(i + 1, c); }
  }

  lemma EscapeHead(s: string)
    requires s != []
    ensures Escape(s) != [] && (Escape(s)[0] == '\n' <==> s[0] == '\n')
  {
    var j := EscapeCharIs(0, s[0]);
    assert EscapeChar(0, s[0]) != [];
    assert Escape(s)[0] == EscapeChar(0, s[0])[0];
  }

  lemma ContentReference(i: nat, rest: string)
    requires i < RULES
    ensures Content(Entity(i) + rest) == WithText(Special(i), Content(rest))
  {
    var s := Entity(i) + rest;
    ReferenceReads(0, i, rest);
    assert s[0] == '&';
    assert s[|Entity(i)|..] == rest;
  }

  lemma ContentChar(c: char, rest: string)
    requires c != '&' && c != '<' && c != '\r'
    ensures Content([c] + rest) == if XmlChar(c) then WithText(c, Content(rest)) else None
  {
    var s := [c] + rest;
    assert s[0] == c && s[1..] == rest;
  }

  lemma ContentReturn(rest: string)
    ensures Content("\r" + rest)
            == WithText('\n', Content(if rest != [] && rest[0] == '\n' then rest[1..] else rest))
  {
    var s := "\r" + rest;
    assert s[0] == '\r' && s[1..] == rest;
    if rest != [] && rest[0] == '\n' { assert s[2..] == rest[1..]; }
  }

  lemma Assoc(a: string, b: string, c: string)
    ensures (a + b) + c == a + (b + c)
  {}

  lemma Halves(a: string, b: string)
    ensures (a + b)[..|a|] == a && (a + b)[|a|..] == b
  {}

  lemma EscapedReturn(s: string, rest: string)
    requires s != [] && s[0] == '\r' && rest != [] && rest[0] == '<'
    ensures Content(Escape(s) + rest)
            == WithText('\n', Content(Escape(if |s| >= 2 && s[1] == '\n' then s[2..] else s[1..]) + rest))
  {
    var more := Escape(s[1..]) + rest;
    assert EscapeChar(0, '\r') == "\r";
    Assoc("\r", Escape(s[1..]), rest);
    ContentReturn(more);
    if |s| >= 2 {
      EscapeHead(s[1..]);
      if s[1] == '\n' {
        assert EscapeChar(0, '\n') == "\n" && s[1..][1..] == s[2..];
        Assoc("\n", Escape(s[2..]), rest);
        Halves("\n", Escape(s[2..]) + rest);
      }
    }
  }

  lemma EscapedOther(s: string, rest: string)
    requires s != [] && s[0] != '\r'
    ensures Content(Escape(s) + rest)
            == if XmlChar(s[0]) then WithText(s[0], Content(Escape(s[1..]) + rest)) else None
  {
    var j := EscapeCharIs(0, s[0]);
    Assoc(EscapeChar(0, s[0]), Escape(s[1..]), rest);
    if j < RULES {
      ContentReference(j, Escape(s[1..]) + rest);
      assert XmlChar(s[0]);
    } else {
      assert Special(0) != s[0] && Special(1) != s[0];
      ContentChar(s[0], Escape(s[1..]) + rest);
    }
  }

  /** Character data is read back with its line ends normalised, unless it holds a character XML does not allow. */
  lemma {:induction false} ContentEscaped(s: string, rest: string)
    requires rest != [] && rest[0] == '<'
    ensures Content(Escape(s) + rest) == if AllXml(s) then Prefixed(LineEnds(s), Content(rest)) else None
    decreases |s|
  {
    if s == [] {
      assert Escape(s) + rest == rest;
      PrefixedNothing(Content(rest));
    } else if s[0] == '\r' {
      var t := if |s| >= 2 && s[1] == '\n' then s[2..] else s[1..];
      EscapedReturn(s, rest);
      ContentEscaped(t, rest);
      assert AllXml(s) == AllXml(t) by { assert AllXml(s) == AllXml(s[1..]); if |s| >= 2 { assert s[1..][1..] == s[2..]; } }
      PrefixedAgain('\n', LineEnds(t), Content(rest));
    } else {
      EscapedOther(s, rest);
      ContentEscaped(s[1..], rest);
      PrefixedAgain(s[0], LineEnds(s[1..]), Content(rest));
    }
  }

  // ----- parsing what was printed: elements -----

  predicate AllTagChars(s: string) { s == [] || (TagChar(s[0]) && AllTagChars(s[1..])) }

  lemma {:induction false} TagOfChars(key: string)
    ensures AllTagChars(TagOf(key))
  {
    if key != [] {
      TagOfChars(key[1..]);
      var t := TagOf(key[1..]);
      if !TagChar(key[0]) && key[0] as int >= 0x1_0000 {
        assert TagOf(key)[1..] == ['_'] + t && (['_'] + t)[1..] == t;
      } else {
        assert TagOf(key)[1..] == t;
      }
    }
  }

  /** ASCII letters, digits, the hyphen and the underscore stay; any other UTF-16 unit becomes one underscore. */
  lemma {:induction false} TagOfEach(a: string, n: int, b: string)
    requires 0 <= n < 0xD800 || 0xE000 <= n < 0x11_0000
    ensures TagOf(a + [n as char] + b)
            == TagOf(a) + (if 48 <= n <= 57 || 65 <= n <= 90 || 97 <= n <= 122 || n in {45, 95} then [n as char]
                           else if n < 0x1_0000 then "_" else "__") + TagOf(b)
  {
    var s := a + [n as char] + b;
    if a == [] {
      assert s[0] == n as char && s[1..] == b;
    } else {
      assert s[0] == a[0] && s[1..] == a[1..] + [n as char] + b;
      TagOfEach(a[1..], n, b);
    }
  }

  /** A key is kept exactly when it needs no replacement. */
  lemma {:induction false} TagKeptIff(key: string)
    ensures TagOf(key) == key <==> AllTagChars(key)
    ensures |TagOf(key)| >= |key|
  {
    if key != [] {
      TagKeptIff(key[1..]);
      var t := TagOf(key[1..]);
      if TagChar(key[0]) {
        assert TagOf(key) == [key[0]] + t && key == [key[0]] + key[1..];
        if TagOf(key) == key { assert t == TagOf(key)[1..]; }
      }
    }
  }

  lemma {:induction false} NameRunOf(tag: string, rest: string)
    requires AllTagChars(tag) && (rest == [] || !NameChar(rest[0]))
    ensures NameRun(tag + rest) == |tag|
  {
    if tag == [] {
      assert tag + rest == rest;
    } else {
      NameRunOf(tag[1..], rest);
      assert (tag + rest)[0] == tag[0] && (tag + rest)[1..] == tag[1..] + rest;
    }
  }

  predicate IsTag(tag: string) { tag != [] && NameStart(tag[0]) && AllTagChars(tag) }

  lemma TagIsName(tag: string)
    requires AllTagChars(tag)
    ensures IsName(tag) <==> IsTag(tag)
  {
    NameRunOf(tag, []);
    assert tag + [] == tag;
  }

  lemma OpenSplit(tag: string, inner: string)
    ensures var s := Open(tag) + inner; s[0] == '<' && s[1..] == tag + (">" + inner)
  {
    Assoc("<" + tag, ">", inner);
    Assoc("<", tag, ">" + inner);
    Halves("<", tag + (">" + inner));
  }

  lemma ElementSplit(tag: string, inner: string)
    requires AllTagChars(tag)
    ensures var s := Open(tag) + inner;
            && s[0] == '<' && NameRun(s[1..]) == |tag| && s[1..][..|tag|] == tag
            && s[1..][|tag|..] != [] && s[1..][|tag|..][0] == '>' && s[1..][|tag|..][1..] == inner
  {
    OpenSplit(tag, inner);
    NameRunOf(tag, ">" + inner);
    Halves(tag, ">" + inner);
    Halves(">", inner);
  }

  lemma ElementReads(tag: string, inner: string, kids: seq<Elem>, text: string, rest: string)
    requires IsTag(tag) && Content(inner) == Some(Parsed(kids, text, Close(tag) + rest))
    ensures Element(Open(tag) + inner) == Some((Elem(tag, kids, text), rest))
  {
    ElementSplit(tag, inner);
    TagIsName(tag);
    assert Close(tag) <= Close(tag) + rest;
    assert (Close(tag) + rest)[|Close(tag)|..] == rest;
  }

  lemma ElementFails(tag: string, inner: string)
    requires AllTagChars(tag) && (!IsTag(tag) || Content(inner) == None)
    ensures Element(Open(tag) + inner) == None
  {
    ElementSplit(tag, inner);
    TagIsName(tag);
  }

  lemma ContentOpen(tag: string, inner: string)
    requires AllTagChars(tag)
    ensures Content(Open(tag) + inner) ==
            match Element(Open(tag) + inner) case None => None case Some((el, rest)) => WithKid(el, Content(rest))
  {
    var s := Open(tag) + inner;
    ElementSplit(tag, inner);
    assert s[1] == if tag == [] then '>' else tag[0];
  }

  lemma ContentClose(tag: string, rest: string)
    ensures Content(Close(tag) + rest) == Some(Parsed([], [], Close(tag) + rest))
  {
    assert "</" <= Close(tag) + rest;
  }

  // ----- parsing what was printed: entries -----

  /** The element an entry is printed as: none for an empty block, none that parses for a bad name or text. */
  datatype Dom = Skipped | Broken | Made(el: Elem)

  datatype Doms = BrokenDoms | Doms(kids: seq<Elem>, spaces: string)

  function DomOf(e: Entry, indent: string): Dom
    decreases e
  {
    var tag := TagOf(e.key);
    match e.val
    case Leaf(v) => if IsTag(tag) && AllXml(TextOf(v)) then Made(Elem(tag, [], LineEnds(TextOf(v)))) else Broken
    case Block(inner) =>
      if inner == [] then Skipped
      else match DomsOf(inner, indent + "  ")
        case BrokenDoms => Broken
        case Doms(kids, spaces) => if IsTag(tag) then Made(Elem(tag, kids, "\n" + spaces + indent)) else Broken
  }

  function DomsOf(es: seq<Entry>, indent: string): Doms
    decreases es
  {
    if es == [] then Doms([], [])
    else
      match DomOf(es[0], indent)
      case Broken => BrokenDoms
      case Skipped => DomsOf(es[1..], indent)
      case Made(el) =>
        match DomsOf(es[1..], indent)
        case BrokenDoms => BrokenDoms
        case Doms(kids, spaces) => Doms([el] + kids, indent + "\n" + spaces)
  }

  /** What parsing the printed entries followed by something yields. */
  function Joined(doms: Doms, p: Option<Parsed>): Option<Parsed> {
    match doms
    case BrokenDoms => None
    case Doms(kids, spaces) =>
      match p case None => None case Some(q) => Some(Parsed(kids + q.kids, spaces + q.text, q.rest))
  }

  function One(d: Dom, indent: string): Doms {
    match d case Skipped => Doms([], []) case Broken => BrokenDoms case Made(el) => Doms([el], indent + "\n")
  }

  lemma JoinedNothing(p: Option<Parsed>)
    ensures Joined(Doms([], []), p) == p
  {
    if p.Some? { assert [] + p.value.kids == p.value.kids && [] + p.value.text == p.value.text; }
  }

  lemma JoinedTwice(d: Dom, indent: string, es: seq<Entry>, p: Option<Parsed>)
    requires es != [] && d == DomOf(es[0], indent)
    ensures Joined(One(d, indent), Joined(DomsOf(es[1..], indent), p)) == Joined(DomsOf(es, indent), p)
  {
    var more := DomsOf(es[1..], indent);
    if d.Skipped? { JoinedNothing(Joined(more, p)); }
    else if d.Made? && more.Doms? && p.Some? {
      assert [d.el] + (more.kids + p.value.kids) == ([d.el] + more.kids) + p.value.kids;
      assert (indent + "\n") + (more.spaces + p.value.text) == (indent + "\n" + more.spaces) + p.value.text;
    }
  }

  lemma JoinedLine(indent: string, el: Elem, p: Option<Parsed>)
    ensures Prefixed(indent, WithKid(el, Prefixed("\n", p))) == Joined(Doms([el], indent + "\n"), p)
  {
    if p.Some? { Assoc(indent, "\n", p.value.text); }
  }

  /** An element on a line of its own. */
  lemma LineContent(indent: string, tag: string, inner: string, d: Dom, rest: string)
    requires Blank(indent) && AllTagChars(tag) && !d.Skipped?
    requires Element(Open(tag) + inner) == match d case Made(el) => Some((el, "\n" + rest)) case _ => None
    ensures Content(indent + (Open(tag) + inner)) == Joined(One(d, indent), Content(rest))
  {
    ContentBlank(indent, Open(tag) + inner);
    ContentOpen(tag, inner);
    if d.Made? {
      ContentBlank("\n", rest);
      JoinedLine(indent, d.el, Content(rest));
    }
  }

  lemma LeafElement(tag: string, text: string, rest: string)
    requires AllTagChars(tag)
    ensures Element(Open(tag) + (Escape(text) + (Close(tag) + rest)))
            == if IsTag(tag) && AllXml(text) then Some((Elem(tag, [], LineEnds(text)), rest)) else None
  {
    var end := Close(tag) + rest;
    ContentEscaped(text, end);
    ContentClose(tag, rest);
    if IsTag(tag) && AllXml(text) {
      assert LineEnds(text) + [] == LineEnds(text);
      ElementReads(tag, Escape(text) + end, [], LineEnds(text), rest);
    } else {
      ElementFails(tag, Escape(text) + end);
    }
  }

  lemma RegroupLeaf(a: string, b: string, c: string, d: string, e: string, rest: string)
    ensures (a + b + c + d + e) + rest == a + (b + (c + (d + (e + rest))))
  {}

  lemma LeafContent(e: Entry, indent: string, rest: string)
    requires Blank(indent) && e.val.Leaf?
    ensures Content(PrintEntry(e, indent) + rest) == Joined(One(DomOf(e, indent), indent), Content(rest))
  {
    var tag, text := TagOf(e.key), TextOf(e.val.v);
    TagOfChars(e.key);
    EscapeXmlIsCharwise(text);
    LeafElement(tag, text, "\n" + rest);
    LineContent(indent, tag, Escape(text) + (Close(tag) + ("\n" + rest)), DomOf(e, indent), rest);
    RegroupLeaf(indent, Open(tag), Escape(text), Close(tag), "\n", rest);
  }

  /** The inside of a block, up to its end tag. */
  lemma InsideContent(tag: string, doms: Doms, printed: string, indent: string, rest: string)
    requires Blank(indent)
    requires var end := indent + (Close(tag) + rest); Content(printed + end) == Joined(doms, Content(end))
    ensures Content("\n" + (printed + (indent + (Close(tag) + rest)))) ==
            match doms
            case BrokenDoms => None
            case Doms(kids, spaces) => Some(Parsed(kids, "\n" + spaces + indent, Close(tag) + rest))
  {
    var end := indent + (Close(tag) + rest);
    ContentBlank("\n", printed + end);
    ContentBlank(indent, Close(tag) + rest);
    ContentClose(tag, rest);
    assert indent + [] == indent;
    if doms.Doms? {
      assert doms.kids + [] == doms.kids;
      assert "\n" + (doms.spaces + indent) == "\n" + doms.spaces + indent;
    }
  }

  lemma BlankDeeper(indent: string)
    requires Blank(indent)
    ensures Blank(indent + "  ")
  {
    if indent == [] {
      assert "  "[1..] == " " && " "[1..] == "";
      assert indent + "  " == "  ";
    } else {
      BlankDeeper(indent[1..]);
      assert (indent + "  ")[1..] == indent[1..] + "  ";
    }
  }

  lemma {:induction false} EntryContent(e: Entry, indent: string, rest: string)
    requires Blank(indent)
    ensures Content(PrintEntry(e, indent) + rest) == Joined(One(DomOf(e, indent), indent), Content(rest))
    decreases e
  {
    if e.val.Leaf? {
      LeafContent(e, indent, rest);
    } else if e.val.entries == [] {
      assert PrintEntry(e, indent) + rest == rest;
      JoinedNothing(Content(rest));
    } else {
      var tag, deeper := TagOf(e.key), indent + "  ";
      var end := indent + (Close(tag) + ("\n" + rest));
      BlankDeeper(indent);
      EntriesContent(e.val.entries, deeper, end);
      BlockContent(e, indent, rest);
    }
  }

  lemma BlockElement(tag: string, doms: Doms, printed: string, indent: string, rest: string)
    requires Blank(indent) && AllTagChars(tag)
    requires var end := indent + (Close(tag) + rest); Content(printed + end) == Joined(doms, Content(end))
    ensures Element(Open(tag) + ("\n" + (printed + (indent + (Close(tag) + rest)))))
            == if IsTag(tag) && doms.Doms? then Some((Elem(tag, doms.kids, "\n" + doms.spaces + indent), rest)) else None
  {
    var inner := "\n" + (printed + (indent + (Close(tag) + rest)));
    InsideContent(tag, doms, printed, indent, rest);
    if doms.Doms? && IsTag(tag) {
      ElementReads(tag, inner, doms.kids, "\n" + doms.spaces + indent, rest);
    } else {
      ElementFails(tag, inner);
    }
  }

  lemma RegroupBlock(a: string, b: string, c: string, d: string, e: string, f: string, g: string, rest: string)
    ensures (a + b + c + d + e + f + g) + rest == a + (b + (c + (d + (e + (f + (g + rest))))))
  {}

  lemma BlockContent(e: Entry, indent: string, rest: string)
    requires Blank(indent) && e.val.Block? && e.val.entries != []
    requires var end := indent + (Close(TagOf(e.key)) + ("\n" + rest));
             Content(PrintEntries(e.val.entries, indent + "  ") + end)
             == Joined(DomsOf(e.val.entries, indent + "  "), Content(end))
    ensures Content(PrintEntry(e, indent) + rest) == Joined(One(DomOf(e, indent), indent), Content(rest))
  {
    var tag, printed := TagOf(e.key), PrintEntries(e.val.entries, indent + "  ");
    var doms := DomsOf(e.val.entries, indent + "  ");
    TagOfChars(e.key);
    BlockElement(tag, doms, printed, indent, "\n" + rest);
    LineContent(indent, tag, "\n" + (printed + (indent + (Close(tag) + ("\n" + rest)))), DomOf(e, indent), rest);
    RegroupBlock(indent, Open(tag), "\n", printed, indent, Close(tag), "\n", rest);
  }

  /** Printed entries parse to the elements they stand for, or not at all. */
  lemma {:induction false} EntriesContent(es: seq<Entry>, indent: string, rest: string)
    requires Blank(indent)
    ensures Content(PrintEntries(es, indent) + rest) == Joined(DomsOf(es, indent), Content(rest))
    decreases es
  {
    if es == [] {
      assert PrintEntries(es, indent) + rest == rest;
      JoinedNothing(Content(rest));
    } else {
      var more := PrintEntries(es[1..], indent) + rest;
      EntriesContent(es[1..], indent, rest);
      EntryContent(es[0], indent, more);
      Assoc(PrintEntry(es[0], indent), PrintEntries(es[1..], indent), rest);
      JoinedTwice(DomOf(es[0], indent), indent, es, Content(rest));
    }
  }

  // ----- which scalars survive -----

  predicate NumeralChar(c: char) { IsDigit(c) || c == 'e' || c == 'E' || c == '+' || c == '-' || c == '.' }

  predicate Numeral(s: string) { s != [] && forall i :: 0 <= i < |s| ==> NumeralChar(s[i]) }

  /** Safe integers are kept as such; any other number by the text the engine gives it. */
  predicate WellFormedValue(canon: string -> string, v: Value) {
    match v
    case Int(n) => Safe(n)
    case Float(text) =>
      Numeral(text) && canon(text) == text && (IntForm(text) ==> ParseInt(text).Some? && !Safe(ParseInt(text).value))
    case _ => true
  }

  /** Text that reads as a boolean or a number once trimmed. */
  predicate LooksTyped(canon: string -> string, s: string) {
    var trimmed := Trim(JsSpace, s);
    || Lower(trimmed) == "true" || Lower(trimmed) == "false"
    || (IntForm(trimmed) && Canonical(canon, trimmed) == trimmed) || FloatForm(trimmed)
  }

  /** The scalars that read back as they were. */
  predicate Survives(canon: string -> string, v: Value) {
    match v
    case Int(_) => true
    case Bool(_) => true
    case Null => false
    case Float(text) => IntForm(text) || FloatForm(text)
    case Text(s) => AllXml(s) && '\r' !in s && !LooksTyped(canon, s)
  }

  lemma {:induction false} LineEndsClean(s: string)
    ensures '\r' !in LineEnds(s)
    ensures '\r' !in s ==> LineEnds(s) == s
    decreases |s|
  {
    if s != [] {
      if s[0] == '\r' {
        LineEndsClean(if |s| >= 2 && s[1] == '\n' then s[2..] else s[1..]);
      } else {
        LineEndsClean(s[1..]);
      }
    }
  }

  lemma LineEndsKeptIff(s: string)
    ensures LineEnds(s) == s <==> '\r' !in s
  {
    LineEndsClean(s);
  }

  predicate Visible(c: char) { 0x21 <= c as int < 0x7F }

  lemma VisibleIsNoSpace(c: char)
    requires Visible(c)
    ensures !JsSpace(c) && XmlChar(c) && c != '\r'
  {}

  lemma {:induction false} VisibleIsXml(s: string)
    requires forall i :: 0 <= i < |s| ==> Visible(s[i])
    ensures AllXml(s) && '\r' !in s
  {
    if s != [] {
      VisibleIsNoSpace(s[0]);
      VisibleIsXml(s[1..]);
      assert s == [s[0]] + s[1..];
    }
  }

  /** Visible text passes through printing, parsing and trimming untouched. */
  lemma VisibleIsPlain(s: string)
    requires s != [] && forall i :: 0 <= i < |s| ==> Visible(s[i])
    ensures AllXml(s) && LineEnds(s) == s && Trim(JsSpace, s) == s
  {
    VisibleIsXml(s);
    LineEndsClean(s);
    VisibleIsNoSpace(s[0]);
    VisibleIsNoSpace(s[|s| - 1]);
    TrimIsBare(JsSpace, s);
  }

  lemma NumeralIsPlain(s: string)
    requires Numeral(s)
    ensures AllXml(s) && LineEnds(s) == s && Trim(JsSpace, s) == s
    ensures Lower(s) != "true" && Lower(s) != "false"
  {
    forall i | 0 <= i < |s| ensures Visible(s[i]) { assert NumeralChar(s[i]); }
    VisibleIsPlain(s);
    assert NumeralChar(s[0]);
    assert Lower(s)[0] == LowerChar(s[0]);
    assert "true"[0] == 't' && "false"[0] == 'f';
  }

  lemma IntTextChars(n: int)
    ensures Numeral(IntText(n)) && IntForm(IntText(n)) && '.' !in IntText(n)
  {
    var s := IntText(n);
    if n < 0 {
      assert s[1..] == Decimal(-n);
    }
    assert AllDigitChars(Unsigned(s));
  }

  lemma IntSurvives(canon: string -> string, n: int)
    requires Safe(n)
    ensures Coerce(canon, IntText(n)) == Int(n)
  {
    var s := IntText(n);
    IntTextChars(n);
    NumeralIsPlain(s);
    ParseIntText(n);
  }

  lemma FloatFormHasPoint(s: string)
    requires FloatForm(s)
    ensures '.' in s && !IntForm(s)
  {
    var u := Unsigned(s);
    assert u[DigitRun(u)] == '.';
    assert u[DigitRun(u)] in u;
  }

  lemma FloatNumber(canon: string -> string, text: string)
    requires WellFormedValue(canon, Float(text)) && (IntForm(text) || FloatForm(text))
    ensures NumberOf(text) == Float(text)
  {
    if FloatForm(text) { FloatFormHasPoint(text); }
    if ParseInt(text).Some? { IntTextChars(ParseInt(text).value); }
  }

  lemma FloatSurvivesIff(canon: string -> string, text: string)
    requires WellFormedValue(canon, Float(text))
    ensures Coerce(canon, text) == Float(text) <==> IntForm(text) || FloatForm(text)
  {
    NumeralIsPlain(text);
    if IntForm(text) || FloatForm(text) { FloatNumber(canon, text); }
  }

  lemma BoolText(b: bool)
    ensures var s := TextOf(Bool(b)); s != [] && Lower(s) == s && forall i :: 0 <= i < |s| ==> Visible(s[i])
  {
    var s := TextOf(Bool(b));
    forall i | 0 <= i < |s| ensures LowerChar(s[i]) == s[i] && Visible(s[i]) {
      assert s[i] in "truefals";
    }
  }

  lemma BoolSurvives(canon: string -> string, b: bool)
    ensures AllXml(TextOf(Bool(b))) && Coerce(canon, LineEnds(TextOf(Bool(b)))) == Bool(b)
  {
    BoolText(b);
    VisibleIsPlain(TextOf(Bool(b)));
    assert |"true"| != |"false"|;
  }

  /** null is printed as nothing, and nothing reads as an empty text. */
  lemma NullIsLost(canon: string -> string)
    ensures Coerce(canon, TextOf(Null)) == Text("") && TextOf(Null) == ""
  {
    assert Lower("") == "";
  }

  /** A safe integer is one of which a double holds the next one too. */
  lemma SafeIs(n: int)
    ensures Safe(n) <==> -0x20_0000_0000_0000 < n < 0x20_0000_0000_0000
  {}

  /** XML takes every character but the control characters other than tab, line feed and return, and two non-characters. */
  lemma XmlCharIs(c: char)
    ensures XmlChar(c) <==> !((c as int) < 0x20 && c !in "\t\n\r") && c as int != 0xFFFE && c as int != 0xFFFF
  {}

  lemma TextSurvivesIff(canon: string -> string, s: string)
    ensures AllXml(s) && Coerce(canon, LineEnds(s)) == Text(s) <==> Survives(canon, Text(s))
  {
    LineEndsKeptIff(s);
  }

  /** A scalar reads back as itself exactly when it survives. */
  lemma SurvivesIff(canon: string -> string, v: Value)
    requires WellFormedValue(canon, v)
    ensures AllXml(TextOf(v)) && Coerce(canon, LineEnds(TextOf(v))) == v <==> Survives(canon, v)
  {
    match v
    case Int(n) => IntTextChars(n); NumeralIsPlain(IntText(n)); IntSurvives(canon, n);
    case Float(text) => NumeralIsPlain(text); FloatSurvivesIff(canon, text);
    case Bool(b) => BoolSurvives(canon, b);
    case Text(s) => TextSurvivesIff(canon, s);
    case Null => NullIsLost(canon);
  }

  // ----- what any text reads as -----

  predicate IsSign(s: string) { s == "" || s == "+" || s == "-" }

  /** An optional sign and at least one digit. */
  ghost predicate IntegerNumeral(s: string) {
    exists sign: string, digits: string ::
      s == sign + digits && IsSign(sign) && digits != [] && AllDigitChars(digits)
  }

  /** Nothing, or the letter e in either case and an integer numeral. */
  ghost predicate Exponent(s: string) { s == "" || (s[0] in "eE" && IntegerNumeral(s[1..])) }

  /** An optional sign, digits with one point among or beside them, and an optional exponent. */
  ghost predicate IsDecimal(s: string, sign: string, whole: string, fraction: string, exponent: string) {
    && s == sign + (whole + ("." + (fraction + exponent))) && IsSign(sign)
    && AllDigitChars(whole) && AllDigitChars(fraction) && (whole != [] || fraction != []) && Exponent(exponent)
  }

  ghost predicate DecimalNumeral(s: string) {
    exists sign: string, whole: string, fraction: string, exponent: string ::
      IsDecimal(s, sign, whole, fraction, exponent)
  }

  function SignOf(s: string): string { s[..|s| - |Unsigned(s)|] }

  lemma SignSplit(s: string)
    ensures IsSign(SignOf(s)) && s == SignOf(s) + Unsigned(s)
  {
    if s != [] && s[0] == '+' { assert SignOf(s) == "+"; }
    if s != [] && s[0] == '-' { assert SignOf(s) == "-"; }
    if Unsigned(s) == s { assert SignOf(s) == ""; }
  }

  lemma SignJoin(sign: string, rest: string)
    requires IsSign(sign) && rest != [] && rest[0] != '+' && rest[0] != '-'
    ensures Unsigned(sign + rest) == rest
  {
    if sign == "" { assert sign + rest == rest; }
  }

  lemma IntFormIff(s: string)
    ensures IntForm(s) <==> IntegerNumeral(s)
  {
    if IntForm(s) { SignSplit(s); }
    if sign: string, digits: string :|
      s == sign + digits && IsSign(sign) && digits != [] && AllDigitChars(digits)
    {
      SignJoin(sign, digits);
    }
  }

  lemma {:induction false} DigitRunSplit(s: string)
    ensures AllDigitChars(s[..DigitRun(s)])
    ensures DigitRun(s) == |s| || !IsDigit(s[DigitRun(s)])
  {
    if s != [] && IsDigit(s[0]) {
      DigitRunSplit(s[1..]);
      assert s[..DigitRun(s)] == [s[0]] + s[1..][..DigitRun(s[1..])];
    }
  }

  lemma PointSplit(u: string, n: nat, m: nat)
    requires n < |u| && u[n] == '.' && m <= |u[n + 1..]|
    ensures u == u[..n] + ("." + (u[n + 1..][..m] + u[n + 1..][m..]))
  {
    var tail := u[n + 1..];
    assert tail == tail[..m] + tail[m..];
    assert u[n..] == "." + tail;
    assert u == u[..n] + u[n..];
  }

  lemma FromParts(s: string, sign: string, u: string, n: nat, m: nat)
    requires IsSign(sign) && s == sign + u
    requires n < |u| && u[n] == '.' && AllDigitChars(u[..n])
    requires m <= |u[n + 1..]| && AllDigitChars(u[n + 1..][..m]) && (n > 0 || m > 0) && Exponent(u[n + 1..][m..])
    ensures DecimalNumeral(s)
  {
    PointSplit(u, n, m);
    assert IsDecimal(s, sign, u[..n], u[n + 1..][..m], u[n + 1..][m..]);
  }

  lemma ExponentFormIff(s: string)
    ensures ExponentForm(s) <==> Exponent(s)
  {
    if s != [] { IntFormIff(s[1..]); }
  }

  lemma FloatFormSplits(s: string)
    requires FloatForm(s)
    ensures DecimalNumeral(s)
  {
    var u := Unsigned(s);
    var n := DigitRun(u);
    var m := DigitRun(u[n + 1..]);
    SignSplit(s);
    DigitRunSplit(u);
    DigitRunSplit(u[n + 1..]);
    ExponentFormIff(u[n + 1..][m..]);
    FromParts(s, SignOf(s), u, n, m);
  }

  lemma FloatFormJoins(s: string, sign: string, whole: string, fraction: string, exponent: string)
    requires IsDecimal(s, sign, whole, fraction, exponent)
    ensures FloatForm(s)
  {
    var tail := fraction + exponent;
    var u := whole + ("." + tail);
    assert u[0] == '.' || IsDigit(u[0]);
    SignJoin(sign, u);
    DigitRunIs(whole, "." + tail);
    assert u[|whole|] == '.' && u[|whole| + 1..] == tail;
    DigitRunIs(fraction, exponent);
    assert tail[|fraction|..] == exponent;
    ExponentFormIff(exponent);
  }

  lemma FloatFormIff(s: string)
    ensures FloatForm(s) <==> DecimalNumeral(s)
  {
    if FloatForm(s) { FloatFormSplits(s); }
    if sign: string, whole: string, fraction: string, exponent: string :|
      IsDecimal(s, sign, whole, fraction, exponent)
    {
      FloatFormJoins(s, sign, whole, fraction, exponent);
    }
  }

  /** An integer numeral beyond the safe range that String() gives back as it stands. */
  ghost predicate LongInteger(canon: string -> string, t: string) {
    IntegerNumeral(t) && canon(t) == t && !exists n :: Safe(n) && ParseInt(t) == Some(n)
  }

  ghost predicate SafeText(t: string) { exists n :: Safe(n) && t == IntText(n) }

  lemma SafeTextIs(canon: string -> string, t: string)
    ensures SafeText(t) <==> ParseInt(t).Some? && Safe(ParseInt(t).value) && IntText(ParseInt(t).value) == t
    ensures SafeText(t) ==> IntForm(t) && Canonical(canon, t) == t
  {
    if n :| Safe(n) && t == IntText(n) {
      ParseIntText(n);
      IntTextChars(n);
    }
  }

  /** String() of the number an integer numeral reads as is that numeral in just two cases. */
  lemma CanonicalIff(canon: string -> string, t: string)
    ensures IntForm(t) && Canonical(canon, t) == t <==> SafeText(t) || LongInteger(canon, t)
  {
    IntFormIff(t);
    SafeTextIs(canon, t);
  }

  /**
   What a text reads as, for every text and every spelling: only what is left after trimming
   counts, a boolean in any letter case, a number as String() would print it, and any other
   text as it stands, padding included.
   */
  lemma CoerceIs(canon: string -> string, s: string, v: Value)
    ensures var t := Trim(JsSpace, s);
            Coerce(canon, s) == v <==>
              match v
              case Null => false
              case Bool(b) => Lower(t) == if b then "true" else "false"
              case Int(n) => Safe(n) && (t == IntText(n) || (DecimalNumeral(t) && canon(t) == IntText(n)))
              case Float(text) =>
                (DecimalNumeral(t) && canon(t) == text && !SafeText(text)) || (LongInteger(canon, t) && t == text)
              case Text(raw) =>
                && raw == s && Lower(t) != "true" && Lower(t) != "false"
                && !DecimalNumeral(t) && !SafeText(t) && !LongInteger(canon, t)
  {
    var t := Trim(JsSpace, s);
    CanonicalIff(canon, t);
    FloatFormIff(t);
    SafeTextIs(canon, t);
    SafeTextIs(canon, canon(t));
    NotBoth(t);
    if v.Int? { ParseIntText(v.n); IntTextChars(v.n); }
    assert |"true"| != |"false"|;
  }

  /** The booleans, the integers and the decimals are three separate families. */
  lemma NotBoth(t: string)
    ensures IntForm(t) || FloatForm(t) ==> Lower(t) != "true" && Lower(t) != "false"
    ensures !(IntForm(t) && FloatForm(t))
  {
    if FloatForm(t) { FloatFormHasPoint(t); }
    if IntForm(t) || FloatForm(t) {
      var u := Unsigned(t);
      DigitRunSplit(u);
      assert u[0] == '.' || IsDigit(u[0]);
      assert Lower(t)[0] == LowerChar(t[0]);
      assert "true"[0] == 't' && "false"[0] == 'f';
    }
  }

  /** White space around a scalar, and the letter case of a boolean, never change what it reads as. */
  lemma PaddingIsIgnored(canon: string -> string, a: string, t: string, b: string)
    requires Bare(JsSpace, t)
    requires forall i :: 0 <= i < |a| ==> JsSpace(a[i])
    requires forall i :: 0 <= i < |b| ==> JsSpace(b[i])
    ensures Lower(t) == "true" ==> Coerce(canon, a + t + b) == Bool(true)
    ensures Lower(t) == "false" ==> Coerce(canon, a + t + b) == Bool(false)
    ensures !Coerce(canon, t).Text? ==> Coerce(canon, a + t + b) == Coerce(canon, t)
    ensures Coerce(canon, t).Text? ==> Coerce(canon, a + t + b) == Text(a + t + b)
  {
    TrimStrips(JsSpace, a, t, b);
    TrimIsBare(JsSpace, t);
  }

  // ----- which trees survive -----

  predicate KeyKept(key: string) { IsTag(key) && key != PROTO }

  /** A JavaScript object has each key once. */
  predicate WellFormed(canon: string -> string, es: seq<Entry>)
    decreases es
  {
    && (forall i, j :: 0 <= i < j < |es| ==> es[i].key != es[j].key)
    && forall i :: 0 <= i < |es| ==> WellFormedEntry(canon, es[i])
  }

  predicate WellFormedEntry(canon: string -> string, e: Entry)
    decreases e
  {
    match e.val case Leaf(v) => WellFormedValue(canon, v) case Block(inner) => WellFormed(canon, inner)
  }

  predicate EntrySurvives(canon: string -> string, e: Entry)
    decreases e
  {
    && KeyKept(e.key)
    && match e.val
       case Leaf(v) => Survives(canon, v)
       case Block(inner) => inner != [] && AllSurvive(canon, inner)
  }

  predicate AllSurvive(canon: string -> string, es: seq<Entry>)
    decreases es
  {
    forall i :: 0 <= i < |es| ==> EntrySurvives(canon, es[i])
  }

  // ----- rebuilding the object -----

  lemma {:induction false} PutGrows(es: seq<Entry>, key: string, val: Tree)
    ensures |Put(es, key, val)| <= |es| + 1
    ensures |Put(es, key, val)| == |es| + 1 ==> key != PROTO && Put(es, key, val) == es + [Entry(key, val)]
    ensures key != PROTO && (forall i :: 0 <= i < |es| ==> es[i].key != key) ==> |Put(es, key, val)| == |es| + 1
  {
    if key != PROTO && es != [] && es[0].key != key {
      PutGrows(es[1..], key, val);
      assert es == [es[0]] + es[1..];
    }
  }

  /** The entries an object gets from its child elements when none is lost. */
  function Keys(es: seq<Entry>): seq<string> { seq(|es|, i requires 0 <= i < |es| => es[i].key) }

  predicate Distinct(names: seq<string>) { forall i, j :: 0 <= i < j < |names| ==> names[i] != names[j] }

  /** The names in the order they first appear, without __proto__. */
  function FirstNames(kids: seq<Elem>): seq<string> {
    if kids == [] then []
    else
      var before, name := FirstNames(kids[..|kids| - 1]), kids[|kids| - 1].name;
      if name == PROTO || name in before then before else before + [name]
  }

  lemma KeysSplit(es: seq<Entry>)
    requires es != []
    ensures Keys(es) == [es[0].key] + Keys(es[1..])
  {}

  lemma DistinctSplit(es: seq<Entry>)
    requires es != [] && Distinct(Keys(es))
    ensures Distinct(Keys(es[1..])) && forall e :: e in es[1..] ==> e.key != es[0].key
  {
    assert forall i :: 0 <= i < |es| - 1 ==> es[1..][i] == es[i + 1] && Keys(es)[i + 1] == es[i + 1].key;
    assert forall i :: 0 <= i < |es| - 1 ==> Keys(es[1..])[i] == Keys(es)[i + 1];
    assert Keys(es)[0] == es[0].key;
  }

  lemma {:induction false} PutKeys(es: seq<Entry>, key: string, val: Tree)
    requires key != PROTO
    ensures Keys(Put(es, key, val)) == if key in Keys(es) then Keys(es) else Keys(es) + [key]
  {
    KeysSplit(Put(es, key, val));
    if es != [] {
      KeysSplit(es);
      if es[0].key != key {
        PutKeys(es[1..], key, val);
        assert Put(es, key, val)[1..] == Put(es[1..], key, val);
      } else {
        assert Put(es, key, val)[1..] == es[1..];
      }
    }
  }

  /** Assigning a key drops its earlier value and leaves every other entry. */
  lemma {:induction false} PutHolds(es: seq<Entry>, key: string, val: Tree, e: Entry)
    requires Distinct(Keys(es)) && key != PROTO
    ensures e in Put(es, key, val) <==> e == Entry(key, val) || (e in es && e.key != key)
  {
    if es != [] {
      DistinctSplit(es);
      assert es == [es[0]] + es[1..];
      if es[0].key != key { PutHolds(es[1..], key, val, e); }
    }
  }

  lemma FirstNamesDistinct(kids: seq<Elem>)
    ensures Distinct(FirstNames(kids)) && PROTO !in FirstNames(kids)
  {}

  /** The object holds each name once, in the order of first appearance, but never __proto__ ... */
  lemma {:induction false} ReadKidsKeys(canon: string -> string, kids: seq<Elem>)
    ensures Keys(ReadKids(canon, kids)) == FirstNames(kids)
  {
    if kids != [] {
      var front, last := kids[..|kids| - 1], kids[|kids| - 1];
      ReadKidsKeys(canon, front);
      if last.name != PROTO { PutKeys(ReadKids(canon, front), last.name, ReadElem(canon, last)); }
    }
  }

  /** ... and under each name the last child that bears it. */
  lemma {:induction false} LastChildWins(canon: string -> string, kids: seq<Elem>, i: nat)
    requires i < |kids| && kids[i].name != PROTO && forall j :: i < j < |kids| ==> kids[j].name != kids[i].name
    ensures Entry(kids[i].name, ReadElem(canon, kids[i])) in ReadKids(canon, kids)
    decreases |kids|
  {
    var front, last := kids[..|kids| - 1], kids[|kids| - 1];
    var e := Entry(kids[i].name, ReadElem(canon, kids[i]));
    if last.name != PROTO {
      FirstNamesDistinct(front);
      ReadKidsKeys(canon, front);
      PutHolds(ReadKids(canon, front), last.name, ReadElem(canon, last), e);
    }
    if i < |front| { LastChildWins(canon, front, i); }
  }

  predicate Reads(canon: string -> string, es: seq<Entry>, kids: seq<Elem>) {
    |es| == |kids| && forall i :: 0 <= i < |es| ==>
      es[i].key == kids[i].name && es[i].key != PROTO && es[i].val == ReadElem(canon, kids[i])
  }

  lemma ReadsSnoc(canon: string -> string, es: seq<Entry>, kids: seq<Elem>, last: Elem)
    requires Reads(canon, es, kids) && last.name != PROTO
    ensures Reads(canon, es + [Entry(last.name, ReadElem(canon, last))], kids + [last])
  {}

  lemma {:induction false} ReadKidsShort(canon: string -> string, kids: seq<Elem>)
    ensures |ReadKids(canon, kids)| <= |kids|
    ensures |ReadKids(canon, kids)| == |kids| ==> Reads(canon, ReadKids(canon, kids), kids)
  {
    if kids != [] {
      var front, last := kids[..|kids| - 1], kids[|kids| - 1];
      ReadKidsShort(canon, front);
      var es, all := ReadKids(canon, front), ReadKids(canon, kids);
      PutGrows(es, last.name, ReadElem(canon, last));
      if |all| == |kids| {
        ReadsSnoc(canon, es, front, last);
        assert front + [last] == kids;
      }
    }
  }

  lemma PutLast(canon: string -> string, front: seq<Entry>, last: Entry, kids: seq<Elem>)
    requires |kids| == |front| + 1 && ReadKids(canon, kids[..|front|]) == front
    requires last.key == kids[|front|].name != PROTO && last.val == ReadElem(canon, kids[|front|])
    requires forall i :: 0 <= i < |front| ==> front[i].key != last.key
    ensures ReadKids(canon, kids) == front + [last]
  {
    PutGrows(front, last.key, last.val);
  }

  lemma {:induction false} ReadKidsAll(canon: string -> string, es: seq<Entry>, kids: seq<Elem>)
    requires Reads(canon, es, kids) && forall i, j :: 0 <= i < j < |es| ==> es[i].key != es[j].key
    ensures ReadKids(canon, kids) == es
  {
    if es != [] {
      var n := |es| - 1;
      var front := es[..n];
      ReadKidsAll(canon, front, kids[..n]);
      PutLast(canon, front, es[n], kids);
      assert es == front + [es[n]];
    }
  }

  /** The elements of a block, when no entry is skipped. */
  lemma {:induction false} DomsShape(es: seq<Entry>, indent: string)
    requires DomsOf(es, indent).Doms?
    ensures var kids := DomsOf(es, indent).kids;
            |kids| <= |es| && (|kids| == |es| ==> forall i :: 0 <= i < |es| ==> DomOf(es[i], indent) == Made(kids[i]))
    decreases |es|
  {
    if es != [] {
      DomsShape(es[1..], indent);
      var kids := DomsOf(es, indent).kids;
      if |kids| == |es| {
        forall i | 0 <= i < |es| ensures DomOf(es[i], indent) == Made(kids[i]) {
          if i > 0 { assert es[i] == es[1..][i - 1] && kids[i] == DomsOf(es[1..], indent).kids[i - 1]; }
        }
      }
    }
  }

  lemma {:induction false} DomsMade(es: seq<Entry>, indent: string)
    requires forall i :: 0 <= i < |es| ==> DomOf(es[i], indent).Made?
    ensures DomsOf(es, indent).Doms? && |DomsOf(es, indent).kids| == |es|
    decreases |es|
  {
    if es != [] {
      forall i | 0 <= i < |es[1..]| ensures DomOf(es[1..][i], indent).Made? { assert es[1..][i] == es[i + 1]; }
      DomsMade(es[1..], indent);
    }
  }

  /** An entry is printed as an element that reads back as the same entry. */
  predicate ReadsAs(canon: string -> string, e: Entry, d: Dom) {
    d.Made? && d.el.name == e.key && e.key != PROTO && ReadElem(canon, d.el) == e.val
  }

  lemma LeafReadsIff(canon: string -> string, e: Entry, indent: string)
    requires e.val.Leaf? && WellFormedEntry(canon, e)
    ensures ReadsAs(canon, e, DomOf(e, indent)) <==> EntrySurvives(canon, e)
  {
    TagKeptIff(e.key);
    SurvivesIff(canon, e.val.v);
  }

  lemma {:induction false} EntryReadsIff(canon: string -> string, e: Entry, indent: string)
    requires WellFormedEntry(canon, e)
    ensures ReadsAs(canon, e, DomOf(e, indent)) <==> EntrySurvives(canon, e)
    decreases e
  {
    if e.val.Leaf? {
      LeafReadsIff(canon, e, indent);
    } else if e.val.entries != [] {
      TagKeptIff(e.key);
      EntriesReadIff(canon, e.val.entries, indent + "  ");
    }
  }

  /** The object read back is the object printed exactly when every entry survives. */
  lemma {:induction false} EntriesReadIff(canon: string -> string, es: seq<Entry>, indent: string)
    requires WellFormed(canon, es)
    ensures DomsOf(es, indent).Doms? && ReadKids(canon, DomsOf(es, indent).kids) == es <==> AllSurvive(canon, es)
    decreases es
  {
    forall i | 0 <= i < |es| ensures ReadsAs(canon, es[i], DomOf(es[i], indent)) <==> EntrySurvives(canon, es[i]) {
      EntryReadsIff(canon, es[i], indent);
    }
    ReadsWhenKidsDo(canon, es, indent);
  }

  lemma ReadsWhenKidsDo(canon: string -> string, es: seq<Entry>, indent: string)
    requires forall i, j :: 0 <= i < j < |es| ==> es[i].key != es[j].key
    ensures DomsOf(es, indent).Doms? && ReadKids(canon, DomsOf(es, indent).kids) == es
            <==> forall i :: 0 <= i < |es| ==> ReadsAs(canon, es[i], DomOf(es[i], indent))
  {
    if DomsOf(es, indent).Doms? && ReadKids(canon, DomsOf(es, indent).kids) == es {
      DomsShape(es, indent);
      ReadKidsShort(canon, DomsOf(es, indent).kids);
    } else if forall i :: 0 <= i < |es| ==> ReadsAs(canon, es[i], DomOf(es[i], indent)) {
      DomsMade(es, indent);
      DomsShape(es, indent);
      ReadKidsAll(canon, es, DomsOf(es, indent).kids);
    }
  }

  // ----- the round trip -----

  lemma VariablesIsTag()
    ensures IsTag("variables")
  {
    TagKeptIff("variables");
    TagOfChars("variables");
  }

  lemma RegroupRoot(a: string, b: string, c: string, d: string, e: string)
    ensures a + b + c + d + e == a + (b + (c + (d + (e + []))))
  {}

  lemma RootElement(tag: string, es: seq<Entry>, indent: string, deeper: string)
    requires IsTag(tag) && Blank(indent) && Blank(deeper)
    ensures var doms, s := DomsOf(es, deeper), Open(tag) + "\n" + PrintEntries(es, deeper) + indent + Close(tag);
            Element(s) == if doms.Doms? then Some((Elem(tag, doms.kids, "\n" + doms.spaces + indent), [])) else None
  {
    var printed := PrintEntries(es, deeper);
    EntriesContent(es, deeper, indent + (Close(tag) + []));
    BlockElement(tag, DomsOf(es, deeper), printed, indent, []);
    RegroupRoot(Open(tag), "\n", printed, indent, Close(tag));
  }

  /** What reading a printed block yields, for every tree. */
  lemma ReadPrinted(canon: string -> string, es: seq<Entry>)
    ensures var doms := DomsOf(es, "    ");
            ReadVariables(canon, PrintVariables(es)) == if doms.Doms? then Some(ReadKids(canon, doms.kids)) else None
  {
    VariablesIsTag();
    RootElement("variables", es, "  ", "    ");
    StartsWithTag("variables", "\n", PrintEntries(es, "    "), "  ");
  }

  lemma StartsWithTag(tag: string, a: string, b: string, c: string)
    ensures var s := Open(tag) + a + b + c + Close(tag); s != [] && s[0] == '<'
  {}

  /**
   Reading back a printed variables block returns the very same typed tree exactly when
   every key is an XML name other than __proto__, no block is empty, and every scalar
   survives on its own.
   */
  lemma VariablesRoundTripIff(canon: string -> string, es: seq<Entry>)
    requires WellFormed(canon, es)
    ensures ReadVariables(canon, PrintVariables(es)) == Some(es) <==> AllSurvive(canon, es)
  {
    ReadPrinted(canon, es);
    EntriesReadIff(canon, es, "    ");
  }

  // ----- the source's procedures -----

  /** variablesToXml: one line per scalar, a nested call per block, empty blocks skipped. */
  method VariablesToXml(es: seq<Entry>, indent: string) returns (xml: string)
    ensures xml == PrintEntries(es, indent)
    decreases es
  {
    xml := "";
    var i := 0;
    while i < |es|
      invariant 0 <= i <= |es|
      invariant xml + PrintEntries(es[i..], indent) == PrintEntries(es, indent)
    {
      var e := es[i];
      ghost var before := xml;
      assert es[i..][1..] == es[i + 1..];
      if e.val.Block? {
        if e.val.entries != [] {
          var inside := VariablesToXml(e.val.entries, indent + "  ");
          xml := xml + (indent + Open(TagOf(e.key)) + "\n" + inside + indent + Close(TagOf(e.key)) + "\n");
        }
      } else {
        xml := xml + (indent + Open(TagOf(e.key)) + EscapeXml(TextOf(e.val.v)) + Close(TagOf(e.key)) + "\n");
      }
      assert xml == before + PrintEntry(e, indent);
      Assoc(before, PrintEntry(e, indent), PrintEntries(es[i + 1..], indent));
      i := i + 1;
    }
    assert es[i..] == [];
  }

  /** xmlVariablesToObject: each child assigns its key, a repeated name overwriting the earlier value. */
  method XmlVariablesToObject(canon: string -> string, kids: seq<Elem>) returns (out: seq<Entry>)
    ensures out == ReadKids(canon, kids)
    decreases kids
  {
    out := [];
    var i := 0;
    while i < |kids|
      invariant 0 <= i <= |kids|
      invariant out == ReadKids(canon, kids[..i])
    {
      var child := kids[i];
      assert kids[..i + 1][..i] == kids[..i];
      if |child.kids| > 0 {
        var inside := XmlVariablesToObject(canon, child.kids);
        out := Put(out, child.name, Block(inside));
      } else {
        out := Put(out, child.name, Leaf(Coerce(canon, child.text)));
      }
      i := i + 1;
    }
    assert kids[..i] == kids;
  }
}
