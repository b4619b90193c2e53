/**
 Reading and printing invert each other: what is read prints back as the text read
 (`ValueSound`, `ItemSound`), and every printing is read back as the tree printed
 (`ValueComplete`, `ItemComplete`). `GrammarIsUnambiguous` follows.
 */
module JsonReaderProofs {
  import opened JsonGrammar
  import opened JsonReader

  // Reading is sound.

  lemma FractionSound(raw: Text, i: nat)
    requires i <= |raw|
    ensures ValidFraction(raw[i..FractionEnd(raw, i)])
  {
    var e := FractionEnd(raw, i);
    if e != i {
      DigitsEndSound(raw, i + 1);
      assert raw[i..e][1..] == raw[i + 1..e];
      assert DigitsEnd(raw, i + 1) > i + 1;
    }
  }

  lemma ExponentSound(raw: Text, i: nat)
    requires i <= |raw|
    ensures ValidExponent(raw[i..ExponentEnd(raw, i)])
  {
    var e := ExponentEnd(raw, i);
    if e != i {
      if DigitAt(raw, i + 1) {
        DigitsEndSound(raw, i + 1);
        assert raw[i..e][1..] == raw[i + 1..e];
      } else {
        DigitsEndSound(raw, i + 2);
        assert raw[i..e][2..] == raw[i + 2..e];
      }
    }
  }

  lemma UnsignedSound(raw: Text, w: nat)
    requires DigitAt(raw, w)
    ensures var f := WholeEnd(raw, w);
            var x := FractionEnd(raw, f);
            var e := ExponentEnd(raw, x);
            && ValidWhole(raw[w..f]) && ValidFraction(raw[f..x]) && ValidExponent(raw[x..e])
            && Spans(raw, w, e, raw[w..f] + (raw[f..x] + raw[x..e]))
  {
    var f := WholeEnd(raw, w);
    var x := FractionEnd(raw, f);
    var e := ExponentEnd(raw, x);
    DigitsEndSound(raw, w);
    FractionSound(raw, f);
    ExponentSound(raw, x);
    assert raw[w..f][0] == raw[w];
    Join(raw, f, x, e, raw[f..x], raw[x..e]);
    Join(raw, w, f, e, raw[w..f], raw[f..x] + raw[x..e]);
  }

  lemma NumberSound(raw: Text, i: nat)
    requires i <= |raw| && NumberAt(raw, i).Got?
    ensures ValidNumber(NumberAt(raw, i).value)
    ensures Spans(raw, i, NumberAt(raw, i).end, PrintNumber(NumberAt(raw, i).value))
  {
    var r := NumberAt(raw, i);
    var n := r.value;
    var sign := if n.minus then [MINUS] else [];
    UnsignedSound(raw, i + |sign|);
    Join(raw, i, i + |sign|, r.end, sign, n.whole + (n.fraction + n.exponent));
  }

  lemma CharSound(raw: Text, i: nat)
    requires i < |raw| && CharAt(raw, i).Got?
    ensures ValidChar(CharAt(raw, i).value)
    ensures Spans(raw, i, CharAt(raw, i).end, PrintChar(CharAt(raw, i).value))
  {
  }

  lemma {:induction false} CharsSound(raw: Text, i: nat)
    requires i <= |raw| && CharsAt(raw, i).Got?
    ensures ValidChars(CharsAt(raw, i).value)
    ensures Spans(raw, i, CharsAt(raw, i).end, PrintChars(CharsAt(raw, i).value) + [QUOTE])
    decreases |raw| - i
  {
    if raw[i] != QUOTE {
      var c := CharAt(raw, i);
      var rest := CharsAt(raw, c.end);
      var cs := [c.value] + rest.value;
      CharSound(raw, i);
      CharsSound(raw, c.end);
      Join(raw, i, c.end, rest.end, PrintChar(c.value), PrintChars(rest.value) + [QUOTE]);
      assert cs[0] == c.value && cs[1..] == rest.value;
      assert PrintChars(cs) + [QUOTE] == PrintChar(c.value) + (PrintChars(rest.value) + [QUOTE]);
    }
  }

  lemma StringSound(raw: Text, i: nat)
    requires i <= |raw| && StringAt(raw, i).Got?
    ensures ValidChars(StringAt(raw, i).value)
    ensures Spans(raw, i, StringAt(raw, i).end, PrintString(StringAt(raw, i).value))
  {
    CharsSound(raw, i + 1);
    var r := CharsAt(raw, i + 1);
    Join(raw, i, i + 1, r.end, [QUOTE], PrintChars(r.value) + [QUOTE]);
  }

  lemma {:induction false} ValueSound(raw: Text, i: nat)
    requires i <= |raw| && ValueAt(raw, i).Got?
    ensures ValidValue(ValueAt(raw, i).value)
    ensures Spans(raw, i, ValueAt(raw, i).end, PrintValue(ValueAt(raw, i).value))
    decreases |raw| - i, 1
  {
    if raw[i] == QUOTE {
      StringSound(raw, i);
    } else if raw[i] == OPEN_OBJECT {
      ObjectSound(raw, i);
    } else if raw[i] == OPEN_ARRAY {
      ArraySound(raw, i);
    } else if raw[i] != LOWER_T && raw[i] != LOWER_F && raw[i] != LOWER_N {
      NumberSound(raw, i);
    }
  }

  lemma JoinEmpty(raw: Text, i: nat, j: nat)
    requires i < j < |raw|
    ensures Spans(raw, i, j + 1, [raw[i]] + (raw[i + 1..j] + [raw[j]]))
  {
    Join(raw, i + 1, j, j + 1, raw[i + 1..j], [raw[j]]);
    Join(raw, i, i + 1, j + 1, [raw[i]], raw[i + 1..j] + [raw[j]]);
  }

  lemma {:induction false} ObjectSound(raw: Text, i: nat)
    requires i < |raw| && raw[i] == OPEN_OBJECT && ValueAt(raw, i).Got?
    ensures ValidValue(ValueAt(raw, i).value)
    ensures Spans(raw, i, ValueAt(raw, i).end, PrintValue(ValueAt(raw, i).value))
    decreases |raw| - i, 0
  {
    var j := SpacesEnd(raw, i + 1);
    var r := ValueAt(raw, i);
    SpacesEndSound(raw, i + 1);
    if j < |raw| && raw[j] == CLOSE_OBJECT {
      JoinEmpty(raw, i, j);
    } else {
      MembersSound(raw, i + 1);
      Join(raw, i, i + 1, r.end, [OPEN_OBJECT], PrintMembers(r.value.members));
    }
  }

  lemma {:induction false} ArraySound(raw: Text, i: nat)
    requires i < |raw| && raw[i] == OPEN_ARRAY && ValueAt(raw, i).Got?
    ensures ValidValue(ValueAt(raw, i).value)
    ensures Spans(raw, i, ValueAt(raw, i).end, PrintValue(ValueAt(raw, i).value))
    decreases |raw| - i, 0
  {
    var j := SpacesEnd(raw, i + 1);
    var r := ValueAt(raw, i);
    SpacesEndSound(raw, i + 1);
    if j < |raw| && raw[j] == CLOSE_ARRAY {
      JoinEmpty(raw, i, j);
    } else {
      ItemsSound(raw, i + 1);
      Join(raw, i, i + 1, r.end, [OPEN_ARRAY], PrintItems(r.value.items));
    }
  }

  lemma {:induction false} ItemSound(raw: Text, i: nat)
    requires i <= |raw| && ItemAt(raw, i).Got?
    ensures ValidItem(ItemAt(raw, i).value)
    ensures Spans(raw, i, ItemAt(raw, i).end, PrintItem(ItemAt(raw, i).value))
    decreases |raw| - i, 2
  {
    var j := SpacesEnd(raw, i);
    var v := ValueAt(raw, j);
    var e := SpacesEnd(raw, v.end);
    SpacesEndSound(raw, i);
    SpacesEndSound(raw, v.end);
    ValueSound(raw, j);
    Join(raw, j, v.end, e, PrintValue(v.value), raw[v.end..e]);
    Join(raw, i, j, e, raw[i..j], PrintValue(v.value) + raw[v.end..e]);
  }

  lemma {:induction false} MemberSound(raw: Text, i: nat)
    requires i <= |raw| && MemberAt(raw, i).Got?
    ensures ValidMember(MemberAt(raw, i).value)
    ensures Spans(raw, i, MemberAt(raw, i).end, PrintMember(MemberAt(raw, i).value))
    decreases |raw| - i, 2
  {
    hide MemberAt, ItemAt, StringAt, ValidItem, PrintItem, PrintString, PrintMember;
    var j, k, c := MemberReads(raw, i);
    SpacesEndSound(raw, i);
    StringSound(raw, j);
    SpacesEndSound(raw, k);
    ItemSound(raw, c + 1);
    JoinMember(raw, i, j, k, c, MemberAt(raw, i).end, MemberAt(raw, i).value);
  }

  lemma MemberReads(raw: Text, i: nat) returns (j: nat, k: nat, c: nat)
    requires i <= |raw| && MemberAt(raw, i).Got?
    ensures var r := MemberAt(raw, i); var m := r.value;
            && j == SpacesEnd(raw, i) && Spans(raw, i, j, m.before)
            && StringAt(raw, j) == Got(m.name, k)
            && c == SpacesEnd(raw, k) && Spans(raw, k, c, m.colonGap)
            && c < |raw| && raw[c] == COLON
            && ItemAt(raw, c + 1) == Got(m.item, r.end)
  {
    j := SpacesEnd(raw, i);
    k := StringAt(raw, j).end;
    c := SpacesEnd(raw, k);
  }

  lemma JoinMember(raw: Text, i: nat, j: nat, k: nat, c: nat, e: nat, m: Member)
    requires Spans(raw, i, j, m.before) && Spans(raw, j, k, PrintString(m.name))
    requires Spans(raw, k, c, m.colonGap) && Spans(raw, c, c + 1, [COLON])
    requires Spans(raw, c + 1, e, PrintItem(m.item))
    ensures Spans(raw, i, e, PrintMember(m))
  {
    var tail := [COLON] + PrintItem(m.item);
    Join(raw, c, c + 1, e, [COLON], PrintItem(m.item));
    Join(raw, k, c, e, m.colonGap, tail);
    Join(raw, j, k, e, PrintString(m.name), m.colonGap + tail);
    Join(raw, i, j, e, m.before, PrintString(m.name) + (m.colonGap + tail));
  }

  lemma {:induction false} ItemsSound(raw: Text, i: nat)
    requires i <= |raw| && ItemsAt(raw, i).Got?
    ensures ValidShownItems(raw, i, ItemsAt(raw, i).end, ItemsAt(raw, i).value)
    decreases |raw| - i, 3
  {
    hide ItemAt, ValidItem, PrintItem;
    var x := ItemAt(raw, i);
    ItemSound(raw, i);
    if raw[x.end] == CLOSE_ARRAY {
      Join(raw, i, x.end, x.end + 1, PrintItem(x.value), [CLOSE_ARRAY]);
    } else {
      var rest := ItemsAt(raw, x.end + 1);
      ItemsSound(raw, x.end + 1);
      JoinItems(raw, i, x.end, rest.end, x.value, rest.value);
    }
  }

  predicate ValidShownItems(raw: Text, i: nat, e: nat, list: seq<Item>) {
    list != [] && ValidItems(list) && Spans(raw, i, e, PrintItems(list))
  }

  lemma JoinItems(raw: Text, i: nat, j: nat, e: nat, x: Item, rest: seq<Item>)
    requires ValidItem(x) && Spans(raw, i, j, PrintItem(x)) && j < |raw| && raw[j] == COMMA
    requires ValidShownItems(raw, j + 1, e, rest)
    ensures ValidShownItems(raw, i, e, [x] + rest)
  {
    Join(raw, j, j + 1, e, [COMMA], PrintItems(rest));
    Join(raw, i, j, e, PrintItem(x), [COMMA] + PrintItems(rest));
    assert ([x] + rest)[1..] == rest;
  }

  lemma {:induction false} MembersSound(raw: Text, i: nat)
    requires i <= |raw| && MembersAt(raw, i).Got?
    ensures ValidShownMembers(raw, i, MembersAt(raw, i).end, MembersAt(raw, i).value)
    decreases |raw| - i, 3
  {
    hide MemberAt, ValidMember, PrintMember;
    var x := MemberAt(raw, i);
    MemberSound(raw, i);
    if raw[x.end] == CLOSE_OBJECT {
      Join(raw, i, x.end, x.end + 1, PrintMember(x.value), [CLOSE_OBJECT]);
    } else {
      var rest := MembersAt(raw, x.end + 1);
      MembersSound(raw, x.end + 1);
      JoinMembers(raw, i, x.end, rest.end, x.value, rest.value);
    }
  }

  predicate ValidShownMembers(raw: Text, i: nat, e: nat, list: seq<Member>) {
    list != [] && ValidMembers(list) && Spans(raw, i, e, PrintMembers(list))
  }

  lemma JoinMembers(raw: Text, i: nat, j: nat, e: nat, m: Member, rest: seq<Member>)
    requires ValidMember(m) && Spans(raw, i, j, PrintMember(m)) && j < |raw| && raw[j] == COMMA
    requires ValidShownMembers(raw, j + 1, e, rest)
    ensures ValidShownMembers(raw, i, e, [m] + rest)
  {
    Join(raw, j, j + 1, e, [COMMA], PrintMembers(rest));
    Join(raw, i, j, e, PrintMember(m), [COMMA] + PrintMembers(rest));
    assert ([m] + rest)[1..] == rest;
  }

  // Reading is complete.

  /** A value may be followed by whitespace, a separator, a closing bracket or the end. */
  predicate Follow(raw: Text, e: nat) {
    e < |raw| ==> raw[e] == COMMA || raw[e] == CLOSE_ARRAY || raw[e] == CLOSE_OBJECT
  }

  predicate Boundary(raw: Text, e: nat) { Follow(raw, e) || IsSpace(raw[e]) }

  lemma FractionComplete(raw: Text, i: nat, e: nat)
    requires i <= e <= |raw| && ValidFraction(raw[i..e])
    requires !DigitAt(raw, e) && (e < |raw| ==> raw[e] != DOT)
    ensures FractionEnd(raw, i) == e
  {
    if i < e {
      assert raw[i] == raw[i..e][0];
      assert raw[i + 1] == raw[i..e][1..][0];
      assert raw[i + 1..e] == raw[i..e][1..];
      DigitsEndComplete(raw, i + 1, e);
    }
  }

  lemma ExponentComplete(raw: Text, i: nat, e: nat)
    requires i <= e <= |raw| && ValidExponent(raw[i..e])
    requires !DigitAt(raw, e) && (e < |raw| ==> !IsExponentMark(raw[e]))
    ensures ExponentEnd(raw, i) == e
  {
    if i < e {
      var t := raw[i..e];
      assert raw[i] == t[0] && raw[i + 1] == t[1];
      if IsSign(t[1]) {
        assert raw[i + 2..e] == t[2..];
        assert raw[i + 2] == t[2..][0];
        DigitsEndComplete(raw, i + 2, e);
      } else {
        assert raw[i + 1..e] == t[1..];
        assert raw[i + 1] == t[1..][0];
        DigitsEndComplete(raw, i + 1, e);
      }
    }
  }

  lemma NumberComplete(raw: Text, i: nat, e: nat, n: Number)
    requires ValidNumber(n) && Spans(raw, i, e, PrintNumber(n)) && Boundary(raw, e)
    ensures NumberAt(raw, i) == Got(n, e)
    ensures i < e && (raw[i] == MINUS || IsDigit(raw[i]))
  {
    var sign := if n.minus then [MINUS] else [];
    Part(raw, i, e, sign, n.whole + (n.fraction + n.exponent));
    var w := i + |sign|;
    if n.minus { SpanAt(raw, i, w, sign, 0); }
    UnsignedComplete(raw, w, e, n);
  }

  lemma UnsignedComplete(raw: Text, w: nat, e: nat, n: Number)
    requires ValidNumber(n) && Boundary(raw, e)
    requires Spans(raw, w, e, n.whole + (n.fraction + n.exponent))
    ensures DigitAt(raw, w)
    ensures var f := WholeEnd(raw, w);
            var x := FractionEnd(raw, f);
            && raw[w..f] == n.whole && raw[f..x] == n.fraction
            && raw[x..e] == n.exponent && ExponentEnd(raw, x) == e
  {
    hide FractionEnd, ExponentEnd, ValidFraction, ValidExponent;
    Part(raw, w, e, n.whole, n.fraction + n.exponent);
    var f := w + |n.whole|;
    SpanAt(raw, w, f, n.whole, 0);
    TailComplete(raw, f, e, n);
    if n.whole[0] != ZERO { DigitsEndComplete(raw, w, f); }
  }

  /** The fraction and the exponent, which no digit starts. */
  lemma TailComplete(raw: Text, f: nat, e: nat, n: Number)
    requires ValidNumber(n) && Boundary(raw, e) && Spans(raw, f, e, n.fraction + n.exponent)
    ensures var x := FractionEnd(raw, f);
            raw[f..x] == n.fraction && raw[x..e] == n.exponent && ExponentEnd(raw, x) == e
    ensures !DigitAt(raw, f)
  {
    hide FractionEnd, ExponentEnd, ValidWhole;
    Part(raw, f, e, n.fraction, n.exponent);
    var x := f + |n.fraction|;
    if x < e { SpanAt(raw, x, e, n.exponent, 0); }
    if f < x { SpanAt(raw, f, x, n.fraction, 0); }
    ExponentComplete(raw, x, e);
    FractionComplete(raw, f, x);
  }

  lemma {:induction false} CharsComplete(raw: Text, i: nat, e: nat, cs: seq<JsonChar>)
    requires ValidChars(cs) && Spans(raw, i, e, PrintChars(cs) + [QUOTE])
    ensures CharsAt(raw, i) == Got(cs, e)
    decreases |cs|
  {
    if cs == [] {
      SpanAt(raw, i, e, [QUOTE], 0);
    } else {
      var first, rest := PrintChar(cs[0]), PrintChars(cs[1..]) + [QUOTE];
      assert PrintChars(cs) + [QUOTE] == first + rest;
      Part(raw, i, e, first, rest);
      CharComplete(raw, i, i + |first|, cs[0]);
      CharsComplete(raw, i + |first|, e, cs[1..]);
      CharsStep(raw, i, i + |first|, e, cs);
    }
  }

  lemma CharsStep(raw: Text, i: nat, j: nat, e: nat, cs: seq<JsonChar>)
    requires cs != [] && i < j <= |raw| && raw[i] != QUOTE
    requires CharAt(raw, i) == Got(cs[0], j) && CharsAt(raw, j) == Got(cs[1..], e)
    ensures CharsAt(raw, i) == Got(cs, e)
  {
    assert cs == [cs[0]] + cs[1..];
  }

  lemma CharComplete(raw: Text, i: nat, j: nat, c: JsonChar)
    requires ValidChar(c) && Spans(raw, i, j, PrintChar(c))
    ensures i < |raw| && raw[i] != QUOTE && CharAt(raw, i) == Got(c, j)
  {
    SpanAt(raw, i, j, PrintChar(c), 0);
    if !c.Plain? { SpanAt(raw, i, j, PrintChar(c), 1); }
    if c.Hex? {
      SpanAt(raw, i, j, PrintChar(c), 2);
      SpanAt(raw, i, j, PrintChar(c), 3);
      SpanAt(raw, i, j, PrintChar(c), 4);
      SpanAt(raw, i, j, PrintChar(c), 5);
      assert raw[i + 2..i + 6] == raw[i..j][2..] == c.digits;
    }
  }

  lemma StringComplete(raw: Text, i: nat, e: nat, cs: seq<JsonChar>)
    requires ValidChars(cs) && Spans(raw, i, e, PrintString(cs))
    ensures i < e && raw[i] == QUOTE && StringAt(raw, i) == Got(cs, e)
  {
    Part(raw, i, e, [QUOTE], PrintChars(cs) + [QUOTE]);
    SpanAt(raw, i, i + 1, [QUOTE], 0);
    CharsComplete(raw, i + 1, e, cs);
  }

  /** A value never starts with whitespace, a separator or a closing bracket. */
  predicate Head(c: CodeUnit) {
    !IsSpace(c) && c != COMMA && c != CLOSE_ARRAY && c != CLOSE_OBJECT && c != COLON
  }

  lemma {:induction false} ValueComplete(raw: Text, i: nat, e: nat, v: Value)
    requires ValidValue(v) && Spans(raw, i, e, PrintValue(v)) && Boundary(raw, e)
    ensures i < e && Head(raw[i]) && ValueAt(raw, i) == Got(v, e)
    decreases v, 1
  {
    match v
    case Null => LiteralComplete(raw, i, e, NULL_TEXT);
    case True => LiteralComplete(raw, i, e, TRUE_TEXT);
    case False => LiteralComplete(raw, i, e, FALSE_TEXT);
    case Num(n) => NumberComplete(raw, i, e, n);
    case Str(cs) => StringComplete(raw, i, e, cs);
    case Arr(_, _) => ArrayComplete(raw, i, e, v);
    case Obj(_, _) => ObjectComplete(raw, i, e, v);
  }

  lemma LiteralComplete(raw: Text, i: nat, e: nat, literal: Text)
    requires literal != [] && Spans(raw, i, e, literal)
    ensures i < e == i + |literal| && raw[i] == literal[0] && LiteralAt(raw, i, literal)
  {
    SpanAt(raw, i, e, literal, 0);
  }

  lemma {:induction false} ArrayComplete(raw: Text, i: nat, e: nat, v: Value)
    requires v.Arr? && ValidValue(v) && Spans(raw, i, e, PrintValue(v))
    ensures i < e && raw[i] == OPEN_ARRAY && ValueAt(raw, i) == Got(v, e)
    decreases v, 0
  {
    if v.items == [] {
      EmptyComplete(raw, i, e, OPEN_ARRAY, v.gap, CLOSE_ARRAY);
    } else {
      Part(raw, i, e, [OPEN_ARRAY], PrintItems(v.items));
      SpanAt(raw, i, i + 1, [OPEN_ARRAY], 0);
      ItemsComplete(raw, i + 1, e, v.items);
    }
  }

  lemma {:induction false} ObjectComplete(raw: Text, i: nat, e: nat, v: Value)
    requires v.Obj? && ValidValue(v) && Spans(raw, i, e, PrintValue(v))
    ensures i < e && raw[i] == OPEN_OBJECT && ValueAt(raw, i) == Got(v, e)
    decreases v, 0
  {
    if v.members == [] {
      EmptyComplete(raw, i, e, OPEN_OBJECT, v.gap, CLOSE_OBJECT);
    } else {
      Part(raw, i, e, [OPEN_OBJECT], PrintMembers(v.members));
      SpanAt(raw, i, i + 1, [OPEN_OBJECT], 0);
      MembersComplete(raw, i + 1, e, v.members);
    }
  }

  lemma EmptyComplete(raw: Text, i: nat, e: nat, open: CodeUnit, gap: Text, close: CodeUnit)
    requires Spaces(gap) && !IsSpace(close) && Spans(raw, i, e, [open] + (gap + [close]))
    ensures i + 1 < e && raw[i] == open
    ensures SpacesEnd(raw, i + 1) == e - 1 && raw[e - 1] == close && raw[i + 1..e - 1] == gap
  {
    Part(raw, i, e, [open], gap + [close]);
    SpanAt(raw, i, i + 1, [open], 0);
    Part(raw, i + 1, e, gap, [close]);
    SpanAt(raw, e - 1, e, [close], 0);
    SpacesEndComplete(raw, i + 1, e - 1);
  }

  lemma {:induction false} ItemComplete(raw: Text, i: nat, e: nat, x: Item)
    requires ValidItem(x) && Spans(raw, i, e, PrintItem(x)) && Follow(raw, e)
    ensures i < e && ItemAt(raw, i) == Got(x, e)
    ensures SpacesEnd(raw, i) < |raw| && Head(raw[SpacesEnd(raw, i)])
    decreases x, 0
  {
    Part(raw, i, e, x.before, PrintValue(x.value) + x.after);
    var j := i + |x.before|;
    Part(raw, j, e, PrintValue(x.value), x.after);
    var k := j + |PrintValue(x.value)|;
    if k < e { SpanAt(raw, k, e, x.after, 0); }
    ValueComplete(raw, j, k, x.value);
    SpacesEndComplete(raw, i, j);
    SpacesEndComplete(raw, k, e);
  }

  lemma MemberParts(raw: Text, i: nat, e: nat, m: Member)
    returns (j: nat, k: nat, c: nat)
    requires Spans(raw, i, e, PrintMember(m))
    ensures Spans(raw, i, j, m.before) && Spans(raw, j, k, PrintString(m.name))
    ensures Spans(raw, k, c, m.colonGap) && c < |raw| && raw[c] == COLON
    ensures Spans(raw, c + 1, e, PrintItem(m.item))
  {
    hide PrintItem, PrintString;
    var tail := [COLON] + PrintItem(m.item);
    Part(raw, i, e, m.before, PrintString(m.name) + (m.colonGap + tail));
    j := i + |m.before|;
    Part(raw, j, e, PrintString(m.name), m.colonGap + tail);
    k := j + |PrintString(m.name)|;
    Part(raw, k, e, m.colonGap, tail);
    c := k + |m.colonGap|;
    Part(raw, c, e, [COLON], PrintItem(m.item));
    SpanAt(raw, c, c + 1, [COLON], 0);
  }

  lemma {:induction false} MemberComplete(raw: Text, i: nat, e: nat, m: Member)
    requires ValidMember(m) && Spans(raw, i, e, PrintMember(m)) && Follow(raw, e)
    ensures i < e && MemberAt(raw, i) == Got(m, e)
    ensures SpacesEnd(raw, i) < |raw| && raw[SpacesEnd(raw, i)] == QUOTE
    decreases m
  {
    var j, k, c := MemberParts(raw, i, e, m);
    StringComplete(raw, j, k, m.name);
    SpacesEndComplete(raw, i, j);
    SpacesEndComplete(raw, k, c);
    ItemComplete(raw, c + 1, e, m.item);
  }

  /** The separator or bracket that follows an element keeps it readable. */
  lemma TailFollows(raw: Text, i: nat, e: nat, first: Text, tail: Text)
    requires Spans(raw, i, e, first + tail) && tail != []
    requires tail[0] == COMMA || tail[0] == CLOSE_ARRAY || tail[0] == CLOSE_OBJECT
    ensures Spans(raw, i, i + |first|, first) && Spans(raw, i + |first|, e, tail)
    ensures i + |first| < |raw| && raw[i + |first|] == tail[0] && Follow(raw, i + |first|)
  {
    Part(raw, i, e, first, tail);
    SpanAt(raw, i + |first|, e, tail, 0);
  }

  lemma {:induction false} ItemsComplete(raw: Text, i: nat, e: nat, items: seq<Item>)
    requires items != [] && ValidItems(items)
    requires Spans(raw, i, e, PrintItems(items))
    ensures i < e && ItemsAt(raw, i) == Got(items, e)
    ensures SpacesEnd(raw, i) < |raw| && Head(raw[SpacesEnd(raw, i)])
    decreases items, 1
  {
    if |items| == 1 {
      LastItemComplete(raw, i, e, items[0]);
      assert items == [items[0]];
    } else {
      var j := FirstItemPart(raw, i, e, items);
      ItemComplete(raw, i, j, items[0]);
      ItemsComplete(raw, j + 1, e, items[1..]);
      ItemsStep(raw, i, j, e, items);
    }
  }

  lemma FirstItemPart(raw: Text, i: nat, e: nat, items: seq<Item>) returns (j: nat)
    requires |items| > 1 && Spans(raw, i, e, PrintItems(items))
    ensures Spans(raw, i, j, PrintItem(items[0])) && j < |raw| && raw[j] == COMMA
    ensures Spans(raw, j + 1, e, PrintItems(items[1..]))
  {
    var first, rest := PrintItem(items[0]), PrintItems(items[1..]);
    j := i + |first|;
    TailFollows(raw, i, e, first, [COMMA] + rest);
    Part(raw, j, e, [COMMA], rest);
  }

  lemma {:induction false} LastItemComplete(raw: Text, i: nat, e: nat, x: Item)
    requires ValidItem(x) && Spans(raw, i, e, PrintItem(x) + [CLOSE_ARRAY])
    ensures i < e && ItemsAt(raw, i) == Got([x], e)
    ensures SpacesEnd(raw, i) < |raw| && Head(raw[SpacesEnd(raw, i)])
    decreases x, 1
  {
    TailFollows(raw, i, e, PrintItem(x), [CLOSE_ARRAY]);
    ItemComplete(raw, i, i + |PrintItem(x)|, x);
  }

  lemma ItemsStep(raw: Text, i: nat, j: nat, e: nat, items: seq<Item>)
    requires items != [] && i <= |raw| && j < |raw| && raw[j] == COMMA
    requires ItemAt(raw, i) == Got(items[0], j) && ItemsAt(raw, j + 1) == Got(items[1..], e)
    ensures ItemsAt(raw, i) == Got(items, e)
  {
    assert items == [items[0]] + items[1..];
  }

  lemma {:induction false} MembersComplete(raw: Text, i: nat, e: nat, members: seq<Member>)
    requires members != [] && ValidMembers(members)
    requires Spans(raw, i, e, PrintMembers(members))
    ensures i < e && MembersAt(raw, i) == Got(members, e)
    ensures SpacesEnd(raw, i) < |raw| && raw[SpacesEnd(raw, i)] == QUOTE
    decreases members
  {
    if |members| == 1 {
      var first := PrintMember(members[0]);
      TailFollows(raw, i, e, first, [CLOSE_OBJECT]);
      MemberComplete(raw, i, i + |first|, members[0]);
      assert members == [members[0]];
    } else {
      var j := FirstMemberPart(raw, i, e, members);
      MemberComplete(raw, i, j, members[0]);
      MembersComplete(raw, j + 1, e, members[1..]);
      MembersStep(raw, i, j, e, members);
    }
  }

  lemma FirstMemberPart(raw: Text, i: nat, e: nat, members: seq<Member>) returns (j: nat)
    requires |members| > 1 && Spans(raw, i, e, PrintMembers(members))
    ensures Spans(raw, i, j, PrintMember(members[0])) && j < |raw| && raw[j] == COMMA
    ensures Spans(raw, j + 1, e, PrintMembers(members[1..]))
  {
    var first, rest := PrintMember(members[0]), PrintMembers(members[1..]);
    j := i + |first|;
    TailFollows(raw, i, e, first, [COMMA] + rest);
    Part(raw, j, e, [COMMA], rest);
  }

  lemma MembersStep(raw: Text, i: nat, j: nat, e: nat, members: seq<Member>)
    requires members != [] && i <= |raw| && j < |raw| && raw[j] == COMMA
    requires MemberAt(raw, i) == Got(members[0], j) && MembersAt(raw, j + 1) == Got(members[1..], e)
    ensures MembersAt(raw, i) == Got(members, e)
  {
    assert members == [members[0]] + members[1..];
  }

  // Whole texts.

  /** The text `raw` as one value with whitespace around it, if it is a JSON text. */
  function Document(raw: Text): (r: Read<Item>) {
    var x := ItemAt(raw, 0);
    if x.Got? && x.end == |raw| then x else Fail
  }

  lemma DocumentSound(raw: Text)
    requires Document(raw).Got?
    ensures ValidItem(Document(raw).value) && PrintItem(Document(raw).value) == raw
  {
    ItemSound(raw, 0);
    assert raw[0..|raw|] == raw;
  }

  lemma DocumentComplete(x: Item)
    requires ValidItem(x)
    ensures Document(PrintItem(x)) == Got(x, |PrintItem(x)|)
  {
    var raw := PrintItem(x);
    assert raw[0..|raw|] == raw;
    ItemComplete(raw, 0, |raw|, x);
  }

  lemma GrammarIsUnambiguous(x: Item, y: Item)
    requires ValidItem(x) && ValidItem(y) && PrintItem(x) == PrintItem(y)
    ensures x == y
  {
    DocumentComplete(x);
    DocumentComplete(y);
  }
}
