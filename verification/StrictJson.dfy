/**
 The strict JSON reader: one cursor moved over the text by mutually recursive scanners, with a set
 of decoded member names for every object. Each scanner is proved to stop at the first fault of its
 text, and `AcceptsExactly` says which texts get through.
 */
module StrictJson {
  import opened JsonGrammar
  import opened JsonReader
  import opened JsonReaderProofs
  import opened JsonFaults

  const MAX_STRICT_JSON_DEPTH := 64
  const MAX_SAFE_INTEGER := 0x1f_ffff_ffff_ffff

  datatype Result = Parsed(document: Item) | Rejected(fault: Fault) | BadOptions

  /** A scanner reports what the text's own scan comes to, and after no fault stands at its end. */
  predicate Follows(fault: Fault, index: nat, scan: Scan) {
    match scan
    case Passed(end) => fault == NoFault && index == end
    case Stopped(why) => fault == why
  }

  /** The name a string lexeme denotes. */
  function ParseName(lexeme: Text): seq<int> {
    var r := StringAt(lexeme, 0);
    if r.Got? then Decode(r.value) else []
  }

  lemma ParseNameOfSlice(raw: Text, i: nat)
    requires i <= |raw| && StringAt(raw, i).Got?
    ensures ParseName(raw[i..StringAt(raw, i).end]) == Decode(StringAt(raw, i).value)
  {
    var r := StringAt(raw, i);
    var lexeme := raw[i..r.end];
    StringSound(raw, i);
    assert lexeme[0..|lexeme|] == lexeme;
    StringComplete(lexeme, 0, |lexeme|, r.value);
  }

  class Scanner {
    const raw: Text
    const maxDepth: nat
    var index: nat

    constructor (raw: Text, maxDepth: nat)
      ensures this.raw == raw && this.maxDepth == maxDepth && index == 0
    {
      this.raw, this.maxDepth, index := raw, maxDepth, 0;
    }

    method SkipWhitespace()
      requires index <= |raw|
      modifies this`index
      ensures index == SpacesEnd(raw, old(index))
    {
      while index < |raw| && IsSpace(raw[index])
        invariant index <= |raw|
        invariant SpacesEnd(raw, index) == SpacesEnd(raw, old(index))
      {
        index := index + 1;
      }
    }

    method ScanString() returns (fault: Fault, lexeme: Text)
      requires index <= |raw|
      modifies this`index
      ensures index <= |raw| && fault != DuplicateMember
      ensures fault == NoFault <==> StringAt(raw, old(index)).Got?
      ensures fault == NoFault ==>
                index == StringAt(raw, old(index)).end && lexeme == raw[old(index)..index]
    {
      if index >= |raw| || raw[index] != QUOTE { return InvalidJson, []; }
      hide CharsAt;
      var start := index;
      index := index + 1;
      while index < |raw|
        invariant start < index <= |raw|
        invariant SameRest(raw, start + 1, index)
        decreases |raw| - index
      {
        RestStep(raw, index);
        var character := raw[index];
        if character == QUOTE {
          index := index + 1;
          return NoFault, raw[start..index];
        }
        if character <= 0x1f { return InvalidJson, []; }
        if character != BACKSLASH {
          index := index + 1;
          continue;
        }
        ghost var escape := index;
        index := index + 1;
        if index >= |raw| { return InvalidJson, []; }
        if IsShortEscape(raw[index]) {
          index := index + 1;
          continue;
        }
        if raw[index] != LOWER_U { return InvalidJson, []; }
        index := index + 1;
        for offset := 0 to 4
          invariant index == escape + 2 + offset <= |raw|
          invariant forall k :: escape + 2 <= k < index ==> IsHexDigit(raw[k])
        {
          if index >= |raw| || !IsHexDigit(raw[index]) {
            assert CharAt(raw, escape).Fail?;
            return InvalidJson, [];
          }
          index := index + 1;
        }
        assert CharAt(raw, escape).end == index;
      }
      RestAtEnd(raw);
      return InvalidJson, [];
    }

    method ScanNumber() returns (fault: Fault)
      requires index <= |raw|
      modifies this`index
      ensures index <= |raw|
      ensures fault == (if NumberAt(raw, old(index)).Got? then NoFault else InvalidJson)
      ensures fault == NoFault ==> index == NumberAt(raw, old(index)).end
    {
      var longest := NumberAt(raw, index);
      if longest.Fail? { return InvalidJson; }
      index := longest.end;
      return NoFault;
    }

    method ScanLiteral(literal: Text) returns (fault: Fault)
      requires index <= |raw|
      modifies this`index
      ensures index <= |raw|
      ensures fault == (if LiteralAt(raw, old(index), literal) then NoFault else InvalidJson)
      ensures fault == NoFault ==> index == old(index) + |literal|
    {
      if !LiteralAt(raw, index, literal) { return InvalidJson; }
      index := index + |literal|;
      return NoFault;
    }

    method ScanValue(depth: nat) returns (fault: Fault)
      requires index <= |raw|
      modifies this`index
      ensures index <= |raw|
      ensures Follows(fault, index, ValueScan(raw, SpacesEnd(raw, old(index)), maxDepth - depth))
      decreases |raw| - index, 1
    {
      SkipWhitespace();
      if index < |raw| && raw[index] == QUOTE {
        var lexeme;
        fault, lexeme := ScanString();
      } else if index < |raw| && raw[index] == OPEN_OBJECT {
        fault := ScanObject(depth + 1);
      } else if index < |raw| && raw[index] == OPEN_ARRAY {
        fault := ScanArray(depth + 1);
      } else if index < |raw| && raw[index] == LOWER_T {
        fault := ScanLiteral(TRUE_TEXT);
      } else if index < |raw| && raw[index] == LOWER_F {
        fault := ScanLiteral(FALSE_TEXT);
      } else if index < |raw| && raw[index] == LOWER_N {
        fault := ScanLiteral(NULL_TEXT);
      } else {
        fault := ScanNumber();
      }
    }

    method ScanArray(depth: nat) returns (fault: Fault)
      requires depth > 0 && index < |raw| && raw[index] == OPEN_ARRAY
      modifies this`index
      ensures index <= |raw|
      ensures Follows(fault, index, ValueScan(raw, old(index), maxDepth - depth + 1))
      decreases |raw| - index, 0
    {
      if depth > maxDepth { return InvalidJson; }
      index := index + 1;
      ghost var first := index;
      SkipWhitespace();
      if index < |raw| && raw[index] == CLOSE_ARRAY {
        index := index + 1;
        return NoFault;
      }
      SpacesEndAgain(raw, first);
      fault := ScanItems(depth, first);
    }

    /** A value and the whitespace after it; `next` is where the whitespace before it began. */
    method ScanItem(depth: nat, ghost next: nat) returns (fault: Fault)
      requires next <= index <= |raw| && SpacesEnd(raw, next) == SpacesEnd(raw, index)
      modifies this`index
      ensures index <= |raw|
      ensures Follows(fault, index, ItemScan(raw, next, maxDepth - depth))
      ensures fault == NoFault ==> old(index) < index
      decreases |raw| - index, 2
    {
      hide ValueScan;
      fault := ScanValue(depth);
      if fault == NoFault { SkipWhitespace(); }
    }

    /** The element loop of an array, from `first`, just after its opening bracket. */
    method ScanItems(depth: nat, ghost first: nat) returns (fault: Fault)
      requires first <= index <= |raw| && SpacesEnd(raw, first) == SpacesEnd(raw, index)
      requires 0 < depth <= maxDepth
      modifies this`index
      ensures index <= |raw|
      ensures Follows(fault, index, ItemsScan(raw, first, maxDepth - depth))
      decreases |raw| - index, 3
    {
      hide ItemScan;
      ghost var next := first;
      while index < |raw|
        invariant first <= next <= index <= |raw|
        invariant SpacesEnd(raw, next) == SpacesEnd(raw, index)
        invariant ItemsScan(raw, next, maxDepth - depth) == ItemsScan(raw, first, maxDepth - depth)
        decreases |raw| - index
      {
        fault := ScanItem(depth, next);
        if fault != NoFault { return; }
        if index < |raw| && raw[index] == CLOSE_ARRAY {
          index := index + 1;
          return NoFault;
        }
        if index >= |raw| || raw[index] != COMMA { return InvalidJson; }
        index := index + 1;
        next := index;
      }
      NothingAtEnd(raw, next, {}, maxDepth - depth);
      return InvalidJson;
    }

    method ScanObject(depth: nat) returns (fault: Fault)
      requires depth > 0 && index < |raw| && raw[index] == OPEN_OBJECT
      modifies this`index
      ensures index <= |raw|
      ensures Follows(fault, index, ValueScan(raw, old(index), maxDepth - depth + 1))
      decreases |raw| - index, 0
    {
      if depth > maxDepth { return InvalidJson; }
      index := index + 1;
      ghost var first := index;
      SkipWhitespace();
      if index < |raw| && raw[index] == CLOSE_OBJECT {
        index := index + 1;
        return NoFault;
      }
      SpacesEndAgain(raw, first);
      fault := ScanMembers(depth, first);
    }

    /** A member name, decoded. */
    method ScanName() returns (fault: Fault, name: seq<int>)
      requires index <= |raw|
      modifies this`index
      ensures index <= |raw| && (fault == NoFault || fault == InvalidJson)
      ensures var r := StringAt(raw, SpacesEnd(raw, old(index)));
              && (fault == NoFault <==> r.Got?)
              && (fault == NoFault ==> index == r.end && name == Decode(r.value))
    {
      SkipWhitespace();
      ghost var start := index;
      var encodedName;
      fault, encodedName := ScanString();
      if fault != NoFault { return fault, []; }
      ParseNameOfSlice(raw, start);
      name := ParseName(encodedName);
    }

    /** One member, from its name to the whitespace after its value, refused if its name is taken. */
    method ScanMember(depth: nat, names: set<seq<int>>, ghost next: nat)
      returns (fault: Fault, name: seq<int>)
      requires next <= index <= |raw| && SpacesEnd(raw, next) == SpacesEnd(raw, index)
      modifies this`index
      ensures index <= |raw|
      ensures Follows(fault, index, MemberScan(raw, next, names, maxDepth - depth))
      ensures fault == NoFault ==> name == NameAt(raw, next) && old(index) < index
      decreases |raw| - index, 3
    {
      hide ItemScan, StringAt;
      fault, name := ScanName();
      if fault != NoFault { return; }
      if name in names { return DuplicateMember, name; }
      SkipWhitespace();
      if index >= |raw| || raw[index] != COLON { return InvalidJson, name; }
      index := index + 1;
      fault := ScanItem(depth, index);
    }

    /** The member loop of an object, from `first`, just after its opening brace. */
    method ScanMembers(depth: nat, ghost first: nat) returns (fault: Fault)
      requires first <= index <= |raw| && SpacesEnd(raw, first) == SpacesEnd(raw, index)
      requires 0 < depth <= maxDepth
      modifies this`index
      ensures index <= |raw|
      ensures Follows(fault, index, MembersScan(raw, first, {}, maxDepth - depth))
      decreases |raw| - index, 4
    {
      hide MemberScan, StringAt;
      var names: set<seq<int>> := {};
      ghost var next := first;
      while index < |raw|
        invariant first <= next <= index <= |raw|
        invariant SpacesEnd(raw, next) == SpacesEnd(raw, index)
        invariant MembersScan(raw, next, names, maxDepth - depth) == MembersScan(raw, first, {}, maxDepth - depth)
        decreases |raw| - index
      {
        var name;
        fault, name := ScanMember(depth, names, next);
        if fault != NoFault { return; }
        names := names + {name};
        if index < |raw| && raw[index] == CLOSE_OBJECT {
          index := index + 1;
          return NoFault;
        }
        if index >= |raw| || raw[index] != COMMA { return InvalidJson; }
        index := index + 1;
        next := index;
      }
      NothingAtEnd(raw, next, names, maxDepth - depth);
      return InvalidJson;
    }
  }

  lemma NothingAtEnd(raw: Text, next: nat, names: set<seq<int>>, budget: int)
    requires next <= |raw| && SpacesEnd(raw, next) == |raw|
    ensures ItemScan(raw, next, budget) == Stopped(InvalidJson)
    ensures MemberScan(raw, next, names, budget) == Stopped(InvalidJson)
  {
  }

  /** Reading the rest of a string from `i` and from `j` comes to the same thing. */
  ghost predicate SameRest(raw: Text, i: nat, j: nat)
    requires i <= |raw| && j <= |raw|
  {
    var r, s := CharsAt(raw, i), CharsAt(raw, j);
    (r.Got? <==> s.Got?) && (r.Got? ==> r.end == s.end)
  }

  lemma RestStep(raw: Text, i: nat)
    requires i < |raw|
    ensures raw[i] == QUOTE ==> CharsAt(raw, i) == Got([], i + 1)
    ensures raw[i] != QUOTE && CharAt(raw, i).Fail? ==> CharsAt(raw, i).Fail?
    ensures raw[i] != QUOTE && CharAt(raw, i).Got? ==> SameRest(raw, i, CharAt(raw, i).end)
  {
  }

  lemma RestAtEnd(raw: Text)
    ensures CharsAt(raw, |raw|).Fail?
  {
  }

  // The whole reader.

  predicate Accepts(raw: Text, maxDepth: nat) {
    var r := Document(raw);
    r.Got? && Fits(r.value.value, maxDepth) && UniqueNames(r.value.value)
  }

  /** Either the parsed document, or the first fault from the left. */
  method ParseRejectingDuplicateMembers(raw: Text, maxDepth: int) returns (r: Result)
    ensures r.BadOptions? <==> maxDepth < 1 || maxDepth > MAX_SAFE_INTEGER
    ensures r.Parsed? ==> Accepts(raw, maxDepth) && r.document == Document(raw).value
    ensures r.Rejected? ==> !Accepts(raw, maxDepth) && r.fault == FaultOf(raw, maxDepth)
  {
    if maxDepth < 1 || maxDepth > MAX_SAFE_INTEGER { return BadOptions; }
    hide ValueScan, FirstFault, Fits, UniqueNames;
    FirstFaultWins(raw, maxDepth);
    var scanner := new Scanner(raw, maxDepth);
    var fault := scanner.ScanValue(0);
    if fault != NoFault { return Rejected(fault); }
    scanner.SkipWhitespace();
    if scanner.index != |raw| { return Rejected(InvalidJson); }
    return Parsed(Document(raw).value);
  }

  /** Soundness and completeness against the grammar, with both side conditions. */
  lemma AcceptsExactly(raw: Text, maxDepth: nat)
    ensures Accepts(raw, maxDepth) <==>
              exists x :: ValidItem(x) && PrintItem(x) == raw
                          && Fits(x.value, maxDepth) && UniqueNames(x.value)
  {
    if Accepts(raw, maxDepth) { DocumentSound(raw); }
    forall x | ValidItem(x) && PrintItem(x) == raw && Fits(x.value, maxDepth) && UniqueNames(x.value)
      ensures Accepts(raw, maxDepth)
    {
      DocumentComplete(x);
    }
  }

  /** However a tree is spelled, its printing is consumed exactly, or refused for one of its own faults. */
  lemma PrintingDecides(x: Item, maxDepth: nat)
    requires ValidItem(x)
    ensures Accepts(PrintItem(x), maxDepth) <==> Fits(x.value, maxDepth) && UniqueNames(x.value)
    ensures Document(PrintItem(x)) == Got(x, |PrintItem(x)|)
  {
    DocumentComplete(x);
  }

  /** An object with two names that decode alike is refused at any depth limit. */
  lemma RepeatedNameRejected(x: Item, maxDepth: nat, j: nat, k: nat)
    requires ValidItem(x) && x.value.Obj? && j < k < |x.value.members|
    requires Decode(x.value.members[j].name) == Decode(x.value.members[k].name)
    ensures !Accepts(PrintItem(x), maxDepth)
  {
    PrintingDecides(x, maxDepth);
  }
}
