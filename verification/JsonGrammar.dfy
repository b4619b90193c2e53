/**
 JSON texts as the grammar of RFC 8259, sections 2 to 7, writes them: concrete syntax trees that
 keep every choice of whitespace, escape and number spelling, and the printing that flattens one.
 Text is a sequence of UTF-16 code units, which is what a JavaScript string is.
 */
module JsonGrammar {

  type CodeUnit = n: int | 0 <= n < 0x1_0000
  type Text = seq<CodeUnit>

  const TAB: CodeUnit := 0x09
  const LINE_FEED: CodeUnit := 0x0a
  const CARRIAGE_RETURN: CodeUnit := 0x0d
  const SPACE: CodeUnit := 0x20
  const QUOTE: CodeUnit := 0x22
  const PLUS: CodeUnit := 0x2b
  const COMMA: CodeUnit := 0x2c
  const MINUS: CodeUnit := 0x2d
  const DOT: CodeUnit := 0x2e
  const SLASH: CodeUnit := 0x2f
  const ZERO: CodeUnit := 0x30
  const COLON: CodeUnit := 0x3a
  const UPPER_E: CodeUnit := 0x45
  const OPEN_ARRAY: CodeUnit := 0x5b
  const BACKSLASH: CodeUnit := 0x5c
  const CLOSE_ARRAY: CodeUnit := 0x5d
  const LOWER_B: CodeUnit := 0x62
  const LOWER_E: CodeUnit := 0x65
  const LOWER_F: CodeUnit := 0x66
  const LOWER_N: CodeUnit := 0x6e
  const LOWER_R: CodeUnit := 0x72
  const LOWER_T: CodeUnit := 0x74
  const LOWER_U: CodeUnit := 0x75
  const OPEN_OBJECT: CodeUnit := 0x7b
  const CLOSE_OBJECT: CodeUnit := 0x7d

  const TRUE_TEXT: Text := [0x74, 0x72, 0x75, 0x65]
  const FALSE_TEXT: Text := [0x66, 0x61, 0x6c, 0x73, 0x65]
  const NULL_TEXT: Text := [0x6e, 0x75, 0x6c, 0x6c]

  // Lexical classes.

  predicate IsSpace(c: CodeUnit) {
    c == TAB || c == LINE_FEED || c == CARRIAGE_RETURN || c == SPACE
  }

  predicate IsDigit(c: CodeUnit) { ZERO <= c <= 0x39 }

  predicate IsHexDigit(c: CodeUnit) {
    IsDigit(c) || 0x41 <= c <= 0x46 || 0x61 <= c <= 0x66
  }

  predicate IsShortEscape(c: CodeUnit) {
    c == QUOTE || c == BACKSLASH || c == SLASH || c == LOWER_B || c == LOWER_F
    || c == LOWER_N || c == LOWER_R || c == LOWER_T
  }

  predicate IsPlain(c: CodeUnit) { c > 0x1f && c != QUOTE && c != BACKSLASH }

  predicate IsHighSurrogate(c: CodeUnit) { 0xd800 <= c <= 0xdbff }

  predicate IsLowSurrogate(c: CodeUnit) { 0xdc00 <= c <= 0xdfff }

  predicate Spaces(s: Text) { forall k :: 0 <= k < |s| ==> IsSpace(s[k]) }

  predicate Digits(s: Text) { forall k :: 0 <= k < |s| ==> IsDigit(s[k]) }

  // Section 7: strings.

  datatype JsonChar =
    | Plain(unit: CodeUnit)
    | Short(escape: CodeUnit)
    | Hex(digits: Text)

  predicate ValidChar(c: JsonChar) {
    match c
    case Plain(u) => IsPlain(u)
    case Short(e) => IsShortEscape(e)
    case Hex(d) => |d| == 4 && forall k :: 0 <= k < 4 ==> IsHexDigit(d[k])
  }

  predicate ValidChars(cs: seq<JsonChar>) { forall k :: 0 <= k < |cs| ==> ValidChar(cs[k]) }

  function PrintChar(c: JsonChar): Text {
    match c
    case Plain(u) => [u]
    case Short(e) => [BACKSLASH, e]
    case Hex(d) => [BACKSLASH, LOWER_U] + d
  }

  function PrintChars(cs: seq<JsonChar>): Text {
    if cs == [] then [] else PrintChar(cs[0]) + PrintChars(cs[1..])
  }

  function PrintString(cs: seq<JsonChar>): Text { [QUOTE] + (PrintChars(cs) + [QUOTE]) }

  function HexValue(c: CodeUnit): int {
    if IsDigit(c) then c - ZERO else if 0x41 <= c <= 0x46 then c - 0x37 else c - 0x57
  }

  /** The code unit a string character stands for; escaped aliases of one unit agree here. */
  function DecodeChar(c: JsonChar): int {
    match c
    case Plain(u) => u
    case Short(e) =>
      if e == LOWER_B then 0x08
      else if e == LOWER_F then 0x0c
      else if e == LOWER_N then LINE_FEED
      else if e == LOWER_R then CARRIAGE_RETURN
      else if e == LOWER_T then TAB
      else e
    case Hex(d) =>
      if |d| != 4 then 0
      else 0x1000 * HexValue(d[0]) + 0x100 * HexValue(d[1]) + 0x10 * HexValue(d[2]) + HexValue(d[3])
  }

  function Decode(cs: seq<JsonChar>): seq<int> {
    if cs == [] then [] else [DecodeChar(cs[0])] + Decode(cs[1..])
  }

  // Section 6: numbers.

  datatype Number = Number(minus: bool, whole: Text, fraction: Text, exponent: Text)

  predicate ValidWhole(w: Text) {
    |w| > 0 && Digits(w) && (w[0] == ZERO ==> |w| == 1)
  }

  predicate ValidFraction(f: Text) {
    f == [] || (|f| > 1 && f[0] == DOT && Digits(f[1..]))
  }

  predicate IsSign(c: CodeUnit) { c == PLUS || c == MINUS }

  predicate IsExponentMark(c: CodeUnit) { c == LOWER_E || c == UPPER_E }

  predicate ValidExponent(e: Text) {
    e == []
    || (&& |e| > 1 && IsExponentMark(e[0])
        && if IsSign(e[1]) then |e| > 2 && Digits(e[2..]) else Digits(e[1..]))
  }

  predicate ValidNumber(n: Number) {
    ValidWhole(n.whole) && ValidFraction(n.fraction) && ValidExponent(n.exponent)
  }

  function PrintNumber(n: Number): Text {
    (if n.minus then [MINUS] else []) + (n.whole + (n.fraction + n.exponent))
  }

  // Sections 2 to 5: values, objects and arrays, with the whitespace around each.

  datatype Value =
    | Null
    | True
    | False
    | Num(number: Number)
    | Str(chars: seq<JsonChar>)
    | Arr(gap: Text, items: seq<Item>)
    | Obj(gap: Text, members: seq<Member>)

  /** A value with the whitespace on either side of it. A JSON text is one item. */
  datatype Item = Item(before: Text, value: Value, after: Text)

  datatype Member = Member(before: Text, name: seq<JsonChar>, colonGap: Text, item: Item)

  predicate ValidItem(x: Item) {
    Spaces(x.before) && ValidValue(x.value) && Spaces(x.after)
  }

  predicate ValidMember(m: Member) {
    Spaces(m.before) && ValidChars(m.name) && Spaces(m.colonGap) && ValidItem(m.item)
  }

  predicate ValidItems(items: seq<Item>) {
    forall k :: 0 <= k < |items| ==> ValidItem(items[k])
  }

  predicate ValidMembers(members: seq<Member>) {
    forall k :: 0 <= k < |members| ==> ValidMember(members[k])
  }

  /** Only an empty array or object has whitespace of its own; the rest belongs to its parts. */
  predicate ValidValue(v: Value) {
    match v
    case Null => true
    case True => true
    case False => true
    case Num(n) => ValidNumber(n)
    case Str(cs) => ValidChars(cs)
    case Arr(gap, items) =>
      Spaces(gap) && (items != [] ==> gap == []) && ValidItems(items)
    case Obj(gap, members) =>
      Spaces(gap) && (members != [] ==> gap == []) && ValidMembers(members)
  }

  function PrintItem(x: Item): Text
    decreases x
  {
    x.before + (PrintValue(x.value) + x.after)
  }

  function PrintMember(m: Member): Text
    decreases m
  {
    m.before + (PrintString(m.name) + (m.colonGap + ([COLON] + PrintItem(m.item))))
  }

  /** A non-empty element list, commas between, with the closing bracket. */
  function PrintItems(items: seq<Item>): Text
    requires items != []
    decreases items
  {
    PrintItem(items[0])
    + if |items| == 1 then [CLOSE_ARRAY] else [COMMA] + PrintItems(items[1..])
  }

  function PrintMembers(members: seq<Member>): Text
    requires members != []
    decreases members
  {
    PrintMember(members[0])
    + if |members| == 1 then [CLOSE_OBJECT] else [COMMA] + PrintMembers(members[1..])
  }

  function PrintValue(v: Value): Text
    decreases v
  {
    match v
    case Null => NULL_TEXT
    case True => TRUE_TEXT
    case False => FALSE_TEXT
    case Num(n) => PrintNumber(n)
    case Str(cs) => PrintString(cs)
    case Arr(gap, items) =>
      [OPEN_ARRAY] + if items == [] then gap + [CLOSE_ARRAY] else PrintItems(items)
    case Obj(gap, members) =>
      [OPEN_OBJECT] + if members == [] then gap + [CLOSE_OBJECT] else PrintMembers(members)
  }

  // The two side conditions the strict reader adds to the grammar.

  /** Nesting fits: arrays and objects are at most `budget` deep. */
  predicate Fits(v: Value, budget: int)
    decreases v
  {
    match v
    case Arr(_, items) =>
      budget >= 1 && forall k :: 0 <= k < |items| ==> Fits(items[k].value, budget - 1)
    case Obj(_, members) =>
      budget >= 1 && forall k :: 0 <= k < |members| ==> Fits(members[k].item.value, budget - 1)
    case _ => true
  }

  predicate DistinctNames(members: seq<Member>) {
    forall j, k :: 0 <= j < k < |members| ==> Decode(members[j].name) != Decode(members[k].name)
  }

  /** No object anywhere inside has two members whose decoded names are equal. */
  predicate UniqueNames(v: Value)
    decreases v
  {
    match v
    case Arr(_, items) => forall k :: 0 <= k < |items| ==> UniqueNames(items[k].value)
    case Obj(_, members) =>
      DistinctNames(members)
      && forall k :: 0 <= k < |members| ==> UniqueNames(members[k].item.value)
    case _ => true
  }
}
