/**
 What the characters of a JSON string stand for, by the tables of section 7 of RFC 8259: every code unit
 can be written plainly or escaped in several ways, and all its spellings decode to it and to nothing
 else. Names are compared by what they stand for, so one name in two spellings is a repeated name.
 */
module JsonEscapes {
  import opened JsonGrammar
  import opened JsonReader
  import opened JsonReaderProofs
  import opened JsonFaults
  import opened StrictJson

  // The tables.

  /** The sixteen digits, 0 to 9 and then a to f, in lower and in upper case. */
  const LOWER_DIGITS: Text :=
    [0x30, 0x31, 0x32, 0x33, 0x34, 0x35, 0x36, 0x37, 0x38, 0x39, 0x61, 0x62, 0x63, 0x64, 0x65, 0x66]

  const UPPER_DIGITS: Text :=
    [0x30, 0x31, 0x32, 0x33, 0x34, 0x35, 0x36, 0x37, 0x38, 0x39, 0x41, 0x42, 0x43, 0x44, 0x45, 0x46]

  predicate DigitFor(c: CodeUnit, n: int) { 0 <= n < 16 && (c == LOWER_DIGITS[n] || c == UPPER_DIGITS[n]) }

  /** The letter after the backslash, and the code unit it names. */
  const SHORT_ESCAPES: seq<(CodeUnit, CodeUnit)> :=
    [(0x22, 0x22), (0x5c, 0x5c), (0x2f, 0x2f), (0x62, 0x08), (0x66, 0x0c), (0x6e, 0x0a), (0x72, 0x0d), (0x74, 0x09)]

  /** The four digits of a code unit, most significant first. */
  predicate DigitsFor(d: Text, u: CodeUnit) {
    && |d| == 4 && DigitFor(d[0], u / 0x1000) && DigitFor(d[1], u / 0x100 % 0x10)
    && DigitFor(d[2], u / 0x10 % 0x10) && DigitFor(d[3], u % 0x10)
  }

  /** One way to write a code unit in a string. */
  predicate Spells(c: JsonChar, u: CodeUnit) {
    match c
    case Plain(unit) => unit == u && 0x20 <= u && u != 0x22 && u != 0x5c
    case Short(e) => (e, u) in SHORT_ESCAPES
    case Hex(d) => DigitsFor(d, u)
  }

  predicate SpellsText(cs: seq<JsonChar>, t: Text) {
    |cs| == |t| && forall k :: 0 <= k < |cs| ==> Spells(cs[k], t[k])
  }

  // Decoding inverts every spelling.

  lemma DigitValue(c: CodeUnit, n: int)
    ensures DigitFor(c, n) <==> IsHexDigit(c) && HexValue(c) == n
  {
    assert forall k :: 0 <= k < 10 ==> LOWER_DIGITS[k] == UPPER_DIGITS[k] == 0x30 + k;
    assert forall k :: 10 <= k < 16 ==> LOWER_DIGITS[k] == 0x57 + k && UPPER_DIGITS[k] == 0x37 + k;
  }

  lemma FourDigits(a: int, b: int, c: int, d: int, u: CodeUnit)
    requires 0 <= a < 16 && 0 <= b < 16 && 0 <= c < 16 && 0 <= d < 16
    ensures 0x1000 * a + 0x100 * b + 0x10 * c + d == u
            <==> a == u / 0x1000 && b == u / 0x100 % 0x10 && c == u / 0x10 % 0x10 && d == u % 0x10
  {
    LastDigit(u, 0x100 * a + 0x10 * b + c, d);
    LastDigit(u / 0x10, 0x10 * a + b, c);
    LastDigit(u / 0x100, a, b);
    assert u / 0x10 / 0x10 == u / 0x100 && u / 0x100 / 0x10 == u / 0x1000;
  }

  lemma LastDigit(u: int, front: int, last: int)
    requires 0 <= last < 16
    ensures u == 0x10 * front + last <==> front == u / 0x10 && last == u % 0x10
  {
  }

  lemma HexSpells(d: Text, u: CodeUnit)
    ensures DigitsFor(d, u) <==> ValidChar(Hex(d)) && DecodeChar(Hex(d)) == u
  {
    hide HexValue, IsHexDigit, DigitFor;
    if |d| == 4 {
      DigitValue(d[0], HexValue(d[0]));
      DigitValue(d[1], HexValue(d[1]));
      DigitValue(d[2], HexValue(d[2]));
      DigitValue(d[3], HexValue(d[3]));
      DigitValue(d[0], u / 0x1000);
      DigitValue(d[1], u / 0x100 % 0x10);
      DigitValue(d[2], u / 0x10 % 0x10);
      DigitValue(d[3], u % 0x10);
      DigitBounds(d);
      if ValidChar(Hex(d)) { FourDigits(HexValue(d[0]), HexValue(d[1]), HexValue(d[2]), HexValue(d[3]), u); }
    }
  }

  lemma DigitBounds(d: Text)
    ensures forall k :: 0 <= k < |d| && IsHexDigit(d[k]) ==> 0 <= HexValue(d[k]) < 16
  {
  }

  lemma ShortSpells(e: CodeUnit, u: CodeUnit)
    ensures (e, u) in SHORT_ESCAPES <==> ValidChar(Short(e)) && DecodeChar(Short(e)) == u
  {
    assert SHORT_ESCAPES[0] == (0x22, 0x22) && SHORT_ESCAPES[1] == (0x5c, 0x5c) && SHORT_ESCAPES[2] == (0x2f, 0x2f);
    assert SHORT_ESCAPES[3] == (0x62, 0x08) && SHORT_ESCAPES[4] == (0x66, 0x0c) && SHORT_ESCAPES[5] == (0x6e, 0x0a);
    assert SHORT_ESCAPES[6] == (0x72, 0x0d) && SHORT_ESCAPES[7] == (0x74, 0x09);
  }

  /** A character is legal and decodes to a code unit exactly when it is one of that unit's spellings. */
  lemma SpellsExactly(c: JsonChar, u: CodeUnit)
    ensures Spells(c, u) <==> ValidChar(c) && DecodeChar(c) == u
  {
    hide DigitsFor;
    match c
    case Plain(_) =>
    case Short(e) => ShortSpells(e, u);
    case Hex(d) => HexSpells(d, u);
  }

  /** Every code unit has a spelling by its four digits, in either letter case and in any mixture. */
  lemma EveryUnitIsSpelled(u: CodeUnit, d: Text)
    requires DigitsFor(d, u)
    ensures ValidChar(Hex(d)) && Decode([Hex(d)]) == [u]
    ensures DigitsFor([LOWER_DIGITS[u / 0x1000], LOWER_DIGITS[u / 0x100 % 0x10], LOWER_DIGITS[u / 0x10 % 0x10],
                       LOWER_DIGITS[u % 0x10]], u)
  {
    HexSpells(d, u);
  }

  /** A short escape stands for what the four digits of its control character, quote or slash stand for. */
  lemma ShortEscapeIsHex(n: nat, d: Text)
    requires n < |SHORT_ESCAPES| && DigitsFor(d, SHORT_ESCAPES[n].1)
    ensures ValidChar(Short(SHORT_ESCAPES[n].0)) && Decode([Short(SHORT_ESCAPES[n].0)]) == Decode([Hex(d)])
  {
    var (e, u) := SHORT_ESCAPES[n];
    assert (e, u) in SHORT_ESCAPES;
    ShortSpells(e, u);
    HexSpells(d, u);
  }

  /** A legal string decodes to a text exactly when it spells it, unit by unit. */
  lemma {:induction false} SpellingsDecode(cs: seq<JsonChar>, t: Text)
    ensures SpellsText(cs, t) <==> ValidChars(cs) && Decode(cs) == t
    decreases |cs|
  {
    hide Spells, ValidChar, DecodeChar;
    if cs != [] && t != [] {
      SpellsExactly(cs[0], t[0]);
      SpellingsDecode(cs[1..], t[1..]);
      assert cs == [cs[0]] + cs[1..] && t == [t[0]] + t[1..];
      if SpellsText(cs, t) { assert SpellsText(cs[1..], t[1..]); }
    }
  }

  lemma {:induction false} DecodesToUnits(cs: seq<JsonChar>)
    requires ValidChars(cs)
    ensures forall k :: 0 <= k < |Decode(cs)| ==> 0 <= Decode(cs)[k] < 0x1_0000
  {
    if cs != [] {
      DecodesToUnits(cs[1..]);
      UnitDecodes(cs[0]);
    }
  }

  lemma UnitDecodes(c: JsonChar)
    requires ValidChar(c)
    ensures 0 <= DecodeChar(c) < 0x1_0000
  {
  }

  // Names that stand for one text.

  /** Two members of the object are named by spellings of one text. */
  ghost predicate SpelledTwice(members: seq<Member>) {
    exists j, k, t :: 0 <= j < k < |members| && SpellsText(members[j].name, t) && SpellsText(members[k].name, t)
  }

  lemma SpelledTwiceExactly(members: seq<Member>)
    requires ValidMembers(members)
    ensures DistinctNames(members) <==> !SpelledTwice(members)
  {
    hide SpellsText;
    if SpelledTwice(members) {
      var j, k, t :| 0 <= j < k < |members| && SpellsText(members[j].name, t) && SpellsText(members[k].name, t);
      SpellingsDecode(members[j].name, t);
      SpellingsDecode(members[k].name, t);
    }
    if !DistinctNames(members) {
      var j, k :| 0 <= j < k < |members| && Decode(members[j].name) == Decode(members[k].name);
      assert ValidMember(members[j]) && ValidMember(members[k]);
      DecodesToUnits(members[j].name);
      var t: Text := Decode(members[j].name);
      SpellingsDecode(members[j].name, t);
      SpellingsDecode(members[k].name, t);
    }
  }

  /** No object anywhere inside has two members named by spellings of one text. */
  ghost predicate NoneSpelledTwice(v: Value)
    decreases v
  {
    match v
    case Arr(_, items) => forall k :: 0 <= k < |items| ==> NoneSpelledTwice(items[k].value)
    case Obj(_, members) =>
      !SpelledTwice(members) && forall k :: 0 <= k < |members| ==> NoneSpelledTwice(members[k].item.value)
    case _ => true
  }

  lemma {:induction false} UniqueMeansSpelledOnce(v: Value)
    requires ValidValue(v)
    ensures UniqueNames(v) <==> NoneSpelledTwice(v)
    decreases v
  {
    hide SpelledTwice, DistinctNames, ValidMember;
    match v
    case Arr(_, items) =>
      forall k | 0 <= k < |items| ensures UniqueNames(items[k].value) <==> NoneSpelledTwice(items[k].value) {
        assert ValidItem(items[k]);
        UniqueMeansSpelledOnce(items[k].value);
      }
    case Obj(_, members) =>
      SpelledTwiceExactly(members);
      forall k | 0 <= k < |members|
        ensures UniqueNames(members[k].item.value) <==> NoneSpelledTwice(members[k].item.value)
      {
        MemberHasValidItem(members, k);
        UniqueMeansSpelledOnce(members[k].item.value);
      }
    case _ =>
  }

  lemma MemberHasValidItem(members: seq<Member>, k: nat)
    requires ValidMembers(members) && k < |members|
    ensures ValidValue(members[k].item.value)
  {
    hide ValidValue;
    assert ValidMember(members[k]) && ValidItem(members[k].item);
  }

  /** The reader accepts exactly the texts of the grammar that fit and spell no name twice in an object. */
  lemma AcceptsUnlessSpelledTwice(raw: Text, maxDepth: nat)
    ensures Accepts(raw, maxDepth) <==>
              exists x :: ValidItem(x) && PrintItem(x) == raw && Fits(x.value, maxDepth) && NoneSpelledTwice(x.value)
  {
    hide Fits, UniqueNames, NoneSpelledTwice, Accepts;
    AcceptsExactly(raw, maxDepth);
    forall x | ValidItem(x) ensures UniqueNames(x.value)
        <==> NoneSpelledTwice(x.value) { UniqueMeansSpelledOnce(x.value); }
  }

  /** An object holding one name in two spellings is rejected, at any depth limit. */
  lemma EscapedAliasRejected(x: Item, maxDepth: nat, j: nat, k: nat, t: Text)
    requires ValidItem(x) && x.value.Obj? && j < k < |x.value.members|
    requires SpellsText(x.value.members[j].name, t) && SpellsText(x.value.members[k].name, t)
    ensures !Accepts(PrintItem(x), maxDepth)
  {
    SpellingsDecode(x.value.members[j].name, t);
    SpellingsDecode(x.value.members[k].name, t);
    RepeatedNameRejected(x, maxDepth, j, k);
  }

  // One name written with its letter and with its escape, as the repository's own tests do.

  function OneDigit(d: CodeUnit): Item { Item([], Num(Number(false, [d], [], [])), []) }

  /** {"é":1,"\u00e9":2} */
  const ALIASED := Item([], Obj([], [Member([], [Plain(0xe9)], [], OneDigit(0x31)),
                                     Member([], [Hex([0x30, 0x30, 0x65, 0x39])], [], OneDigit(0x32))]), [])

  const ALIASED_TEXT: Text := [0x7b, 0x22, 0xe9, 0x22, 0x3a, 0x31, 0x2c, 0x22, 0x5c, 0x75, 0x30, 0x30, 0x65, 0x39, 0x22,
                               0x3a, 0x32, 0x7d]

  lemma AliasedIsRejected()
    ensures PrintItem(ALIASED) == ALIASED_TEXT && FaultOf(ALIASED_TEXT, 64) == DuplicateMember
  {
    hide PrintItem, FirstFault, FaultOf;
    AliasedPrints();
    assert ValidItem(ALIASED) by { AliasedIsValid(); }
    DocumentComplete(ALIASED);
    FirstFaultWins(ALIASED_TEXT, 64);
    AliasedRepeats();
  }

  lemma AliasedIsValid()
    ensures ValidItem(ALIASED)
  {
    assert ValidMember(ALIASED.value.members[0]) && ValidMember(ALIASED.value.members[1]);
  }

  lemma AliasedPrints()
    ensures PrintItem(ALIASED) == ALIASED_TEXT
  {
    hide PrintMember, PrintMembers, PrintItem, PrintChars;
    var m, n := ALIASED.value.members[0], ALIASED.value.members[1];
    LetterPrints(0xe9);
    HexPrints([0x30, 0x30, 0x65, 0x39]);
    DigitMemberPrints(m.name, 0x31);
    DigitMemberPrints(n.name, 0x32);
    TwoMembersPrint(m, n);
  }

  lemma TwoMembersPrint(m: Member, n: Member)
    ensures PrintItem(Item([], Obj([], [m, n]), [])) == [0x7b] + PrintMember(m) + [0x2c] + PrintMember(n) + [0x7d]
  {
    hide PrintMember;
    assert [m, n][1..] == [n];
    assert PrintMembers([n]) == PrintMember(n) + [0x7d];
    assert PrintMembers([m, n]) == PrintMember(m) + ([0x2c] + PrintMembers([n]));
  }

  lemma DigitMemberPrints(name: seq<JsonChar>, d: CodeUnit)
    ensures PrintMember(Member([], name, [], OneDigit(d))) == [0x22] + PrintChars(name) + [0x22, 0x3a, d]
  {
    hide PrintChars;
    var item := OneDigit(d);
    assert PrintItem(item) == [d] by { DigitPrints(d); }
    var printed := PrintMember(Member([], name, [], item));
    assert printed == PrintString(name) + ([COLON] + [d]);
  }

  lemma DigitPrints(d: CodeUnit)
    ensures PrintItem(OneDigit(d)) == [d]
  {
    assert PrintNumber(Number(false, [d], [], [])) == [d];
  }

  lemma LetterPrints(u: CodeUnit)
    ensures PrintChars([Plain(u)]) == [u]
  {
    assert [Plain(u)][1..] == [];
  }

  lemma HexPrints(d: Text)
    ensures PrintChars([Hex(d)]) == [0x5c, 0x75] + d
  {
    assert [Hex(d)][1..] == [];
  }

  lemma AliasedRepeats()
    ensures FirstFault(ALIASED.value, 64) == DuplicateMember
  {
    hide Decode, SpellsText, FaultInMembers;
    BothSpell();
    var m, n := ALIASED.value.members[0], ALIASED.value.members[1];
    SpellingsDecode(m.name, [0xe9]);
    SpellingsDecode(n.name, [0xe9]);
    NameFaults(m, n, 63);
  }

  lemma BothSpell()
    ensures SpellsText([Plain(0xe9)], [0xe9]) && SpellsText([Hex([0x30, 0x30, 0x65, 0x39])], [0xe9])
  {
  }

  /** The second of two members with one name is at fault, if the first is not. */
  lemma NameFaults(m: Member, n: Member, budget: int)
    requires Decode(m.name) == Decode(n.name) && FirstFault(m.item.value, budget) == NoFault
    ensures FaultInMembers([m, n], {}, budget) == DuplicateMember
  {
    hide FirstFault, Decode;
    assert [m, n][1..] == [n];
  }
}
