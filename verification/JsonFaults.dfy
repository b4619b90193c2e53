/**
 Which fault a strict reader reports: the first one from the left. `ValueScan` reads a text in order
 until it meets a fault, and `FirstFault` walks a tree in order; on a readable text they agree.
 */
module JsonFaults {
  import opened JsonGrammar
  import opened JsonReader
  import opened JsonReaderProofs

  /** The two SyntaxErrors the reader throws. */
  datatype Fault = NoFault | InvalidJson | DuplicateMember

  // The first fault of a text.

  /** Where a scan has got to, or the fault it has stopped at. */
  datatype Scan = Passed(end: nat) | Stopped(fault: Fault)

  function ValueScan(raw: Text, i: nat, budget: int): (r: Scan)
    requires i <= |raw|
    ensures r.Passed? ==> i < r.end <= |raw|
    ensures r.Stopped? ==> r.fault != NoFault
    decreases |raw| - i, 1
  {
    if i < |raw| && raw[i] == OPEN_OBJECT then
      var j := SpacesEnd(raw, i + 1);
      if budget < 1 then Stopped(InvalidJson)
      else if j < |raw| && raw[j] == CLOSE_OBJECT then Passed(j + 1)
      else MembersScan(raw, i + 1, {}, budget - 1)
    else if i < |raw| && raw[i] == OPEN_ARRAY then
      var j := SpacesEnd(raw, i + 1);
      if budget < 1 then Stopped(InvalidJson)
      else if j < |raw| && raw[j] == CLOSE_ARRAY then Passed(j + 1)
      else ItemsScan(raw, i + 1, budget - 1)
    else
      var r := ValueAt(raw, i);
      if r.Fail? then Stopped(InvalidJson) else Passed(r.end)
  }

  function ItemScan(raw: Text, i: nat, budget: int): (r: Scan)
    requires i <= |raw|
    ensures r.Passed? ==> i < r.end <= |raw|
    ensures r.Stopped? ==> r.fault != NoFault
    decreases |raw| - i, 2
  {
    var v := ValueScan(raw, SpacesEnd(raw, i), budget);
    if v.Stopped? then v else Passed(SpacesEnd(raw, v.end))
  }

  function ItemsScan(raw: Text, i: nat, budget: int): (r: Scan)
    requires i <= |raw|
    ensures r.Passed? ==> i < r.end <= |raw|
    ensures r.Stopped? ==> r.fault != NoFault
    decreases |raw| - i, 3
  {
    var x := ItemScan(raw, i, budget);
    if x.Stopped? then x
    else if x.end < |raw| && raw[x.end] == CLOSE_ARRAY then Passed(x.end + 1)
    else if x.end < |raw| && raw[x.end] == COMMA then ItemsScan(raw, x.end + 1, budget)
    else Stopped(InvalidJson)
  }

  /** A repeated name counts as soon as it is read, whatever comes after it. */
  function MemberScan(raw: Text, i: nat, names: set<seq<int>>, budget: int): (r: Scan)
    requires i <= |raw|
    ensures r.Passed? ==> i < r.end <= |raw| && StringAt(raw, SpacesEnd(raw, i)).Got?
    ensures r.Stopped? ==> r.fault != NoFault
    decreases |raw| - i, 2
  {
    var name := StringAt(raw, SpacesEnd(raw, i));
    if name.Fail? then Stopped(InvalidJson)
    else if Decode(name.value) in names then Stopped(DuplicateMember)
    else
      var c := SpacesEnd(raw, name.end);
      if c == |raw| || raw[c] != COLON then Stopped(InvalidJson) else ItemScan(raw, c + 1, budget)
  }

  /** The decoded name of the member at `i`. */
  function NameAt(raw: Text, i: nat): seq<int>
    requires i <= |raw| && StringAt(raw, SpacesEnd(raw, i)).Got?
  {
    Decode(StringAt(raw, SpacesEnd(raw, i)).value)
  }

  function MembersScan(raw: Text, i: nat, names: set<seq<int>>, budget: int): (r: Scan)
    requires i <= |raw|
    ensures r.Passed? ==> i < r.end <= |raw|
    ensures r.Stopped? ==> r.fault != NoFault
    decreases |raw| - i, 3
  {
    var m := MemberScan(raw, i, names, budget);
    if m.Stopped? then m
    else if m.end < |raw| && raw[m.end] == CLOSE_OBJECT then Passed(m.end + 1)
    else if m.end < |raw| && raw[m.end] == COMMA then MembersScan(raw, m.end + 1, names + {NameAt(raw, i)}, budget)
    else Stopped(InvalidJson)
  }

  /** The first fault of a whole text. */
  function FaultOf(raw: Text, maxDepth: int): Fault {
    var x := ItemScan(raw, 0, maxDepth);
    if x.Stopped? then x.fault else if x.end == |raw| then NoFault else InvalidJson
  }

  // The first fault of a tree.

  function FirstFault(v: Value, budget: int): Fault
    decreases v
  {
    match v
    case Arr(_, items) => if budget < 1 then InvalidJson else FaultInItems(items, budget - 1)
    case Obj(_, members) => if budget < 1 then InvalidJson else FaultInMembers(members, {}, budget - 1)
    case _ => NoFault
  }

  function FaultInItems(items: seq<Item>, budget: int): Fault
    decreases items
  {
    if items == [] then NoFault
    else
      var fault := FirstFault(items[0].value, budget);
      if fault != NoFault then fault else FaultInItems(items[1..], budget)
  }

  function FaultInMembers(members: seq<Member>, names: set<seq<int>>, budget: int): Fault
    decreases members
  {
    if members == [] then NoFault
    else if Decode(members[0].name) in names then DuplicateMember
    else
      var fault := FirstFault(members[0].item.value, budget);
      if fault != NoFault then fault else FaultInMembers(members[1..], names + {Decode(members[0].name)}, budget)
  }

  // A tree has no fault exactly when it meets both side conditions; a fault names the one it breaks.

  predicate FaultFits(fault: Fault, fits: bool, unique: bool) {
    && (fault == NoFault <==> fits && unique)
    && (fault == InvalidJson ==> !fits)
    && (fault == DuplicateMember ==> !unique)
  }

  lemma {:induction false} FirstFaultFits(v: Value, budget: int)
    ensures FaultFits(FirstFault(v, budget), Fits(v, budget), UniqueNames(v))
    decreases v
  {
    hide FaultInItems, FaultInMembers, Decode;
    match v
    case Arr(_, items) => if budget >= 1 { ItemsFaultFits(items, budget - 1); }
    case Obj(_, members) => if budget >= 1 { MembersFaultFits(members, {}, budget - 1); }
    case _ =>
  }

  lemma {:induction false} ItemsFaultFits(items: seq<Item>, budget: int)
    ensures FaultFits(FaultInItems(items, budget),
                      forall k :: 0 <= k < |items| ==> Fits(items[k].value, budget),
                      forall k :: 0 <= k < |items| ==> UniqueNames(items[k].value))
    decreases items
  {
    hide FirstFault, Fits, UniqueNames;
    if items != [] {
      FirstFaultFits(items[0].value, budget);
      ItemsFaultFits(items[1..], budget);
      assert items == [items[0]] + items[1..];
    }
  }

  ghost predicate NamesApart(members: seq<Member>, names: set<seq<int>>) {
    DistinctNames(members) && forall k :: 0 <= k < |members| ==> Decode(members[k].name) !in names
  }

  lemma {:induction false} MembersFaultFits(members: seq<Member>, names: set<seq<int>>, budget: int)
    ensures FaultFits(FaultInMembers(members, names, budget),
                      forall k :: 0 <= k < |members| ==> Fits(members[k].item.value, budget),
                      NamesApart(members, names)
                      && forall k :: 0 <= k < |members| ==> UniqueNames(members[k].item.value))
    decreases members
  {
    hide FirstFault, Fits, UniqueNames, NamesApart;
    NothingApart(names);
    if members != [] {
      var m, rest := members[0], members[1..];
      FirstFaultFits(m.item.value, budget);
      MembersFaultFits(rest, names + {Decode(m.name)}, budget);
      assert members == [m] + rest;
      ApartStep(m, rest, names);
    }
  }

  lemma NothingApart(names: set<seq<int>>)
    ensures NamesApart([], names)
  {
  }

  lemma ApartStep(m: Member, rest: seq<Member>, names: set<seq<int>>)
    ensures NamesApart([m] + rest, names) <==> Decode(m.name) !in names && NamesApart(rest, names + {Decode(m.name)})
  {
    var all := [m] + rest;
    assert all[0] == m && forall k :: 0 <= k < |rest| ==> all[k + 1] == rest[k];
    if Decode(m.name) !in names && NamesApart(rest, names + {Decode(m.name)}) {
      forall j, k | 0 <= j < k < |all| ensures Decode(all[j].name) != Decode(all[k].name) {
        assert all[k] == rest[k - 1];
        if j > 0 { assert all[j] == rest[j - 1]; }
      }
    }
  }

  // On a readable text the scan reports the tree's first fault, and on any other it stops.

  /** What a scan makes of a readable value with this first fault. */
  function ScanFor(fault: Fault, end: nat): Scan { if fault == NoFault then Passed(end) else Stopped(fault) }

  lemma {:induction false} ValueScanAgrees(raw: Text, i: nat, budget: int)
    requires i <= |raw|
    ensures var r := ValueAt(raw, i);
            && (r.Fail? ==> ValueScan(raw, i, budget).Stopped?)
            && (r.Got? ==> ValueScan(raw, i, budget) == ScanFor(FirstFault(r.value, budget), r.end))
    decreases |raw| - i, 1
  {
    hide MembersScan, ItemsScan, MembersAt, ItemsAt, FaultInMembers, FaultInItems, StringAt, NumberAt, LiteralAt;
    EmptyHasNoFault();
    if i < |raw| && raw[i] == OPEN_OBJECT && budget >= 1 {
      MembersScanAgrees(raw, i + 1, {}, budget - 1);
    } else if i < |raw| && raw[i] == OPEN_ARRAY && budget >= 1 {
      ItemsScanAgrees(raw, i + 1, budget - 1);
    }
  }

  lemma EmptyHasNoFault()
    ensures forall budget :: FaultInItems([], budget) == NoFault && FaultInMembers([], {}, budget) == NoFault
  {
  }

  lemma {:induction false} ItemScanAgrees(raw: Text, i: nat, budget: int)
    requires i <= |raw|
    ensures var r := ItemAt(raw, i);
            && (r.Fail? ==> ItemScan(raw, i, budget).Stopped?)
            && (r.Got? ==> ItemScan(raw, i, budget) == ScanFor(FirstFault(r.value.value, budget), r.end))
    decreases |raw| - i, 2
  {
    hide ValueAt, ValueScan, FirstFault;
    ValueScanAgrees(raw, SpacesEnd(raw, i), budget);
  }

  lemma {:induction false} ItemsScanAgrees(raw: Text, i: nat, budget: int)
    requires i <= |raw|
    ensures var r := ItemsAt(raw, i);
            && (r.Fail? ==> ItemsScan(raw, i, budget).Stopped?)
            && (r.Got? ==> ItemsScan(raw, i, budget) == ScanFor(FaultInItems(r.value, budget), r.end))
    decreases |raw| - i, 3
  {
    hide ItemAt, ItemScan, FirstFault;
    ItemScanAgrees(raw, i, budget);
    var x := ItemAt(raw, i);
    if x.Got? && x.end < |raw| && raw[x.end] == COMMA {
      ItemsScanAgrees(raw, x.end + 1, budget);
      var rest := ItemsAt(raw, x.end + 1);
      if rest.Got? { assert ([x.value] + rest.value)[1..] == rest.value; }
    }
  }

  lemma {:induction false} MembersScanAgrees(raw: Text, i: nat, names: set<seq<int>>, budget: int)
    requires i <= |raw|
    ensures var r := MembersAt(raw, i);
            && (r.Fail? ==> MembersScan(raw, i, names, budget).Stopped?)
            && (r.Got? ==> MembersScan(raw, i, names, budget) == ScanFor(FaultInMembers(r.value, names, budget), r.end))
    decreases |raw| - i, 3
  {
    hide MemberAt, MemberScan, FirstFault;
    MemberScanAgrees(raw, i, names, budget);
    var m := MemberAt(raw, i);
    if m.Got? && m.end < |raw| && raw[m.end] == COMMA {
      MembersScanAgrees(raw, m.end + 1, names + {Decode(m.value.name)}, budget);
      var rest := MembersAt(raw, m.end + 1);
      if rest.Got? { assert ([m.value] + rest.value)[1..] == rest.value; }
    }
  }

  function FaultInMember(m: Member, names: set<seq<int>>, budget: int): Fault {
    if Decode(m.name) in names then DuplicateMember else FirstFault(m.item.value, budget)
  }

  lemma {:induction false} MemberScanAgrees(raw: Text, i: nat, names: set<seq<int>>, budget: int)
    requires i <= |raw|
    ensures var r := MemberAt(raw, i);
            && (r.Fail? ==> MemberScan(raw, i, names, budget).Stopped?)
            && (r.Got? ==> StringAt(raw, SpacesEnd(raw, i)).Got? && NameAt(raw, i) == Decode(r.value.name)
                           && MemberScan(raw, i, names, budget)
                               == ScanFor(FaultInMember(r.value, names, budget), r.end))
    decreases |raw| - i, 2
  {
    hide ItemAt, ItemScan, FirstFault, StringAt;
    var name := StringAt(raw, SpacesEnd(raw, i));
    if name.Got? {
      var c := SpacesEnd(raw, name.end);
      if c < |raw| && raw[c] == COLON { ItemScanAgrees(raw, c + 1, budget); }
    }
  }

  /** A readable text has its tree's first fault; any other text has one, and it is accepted if it has none. */
  lemma FirstFaultWins(raw: Text, maxDepth: int)
    ensures Document(raw).Got? ==> FaultOf(raw, maxDepth) == FirstFault(Document(raw).value.value, maxDepth)
    ensures Document(raw).Fail? ==> FaultOf(raw, maxDepth) != NoFault
    ensures var d := Document(raw);
            FaultOf(raw, maxDepth) == NoFault <==> d.Got? && Fits(d.value.value, maxDepth) && UniqueNames(d.value.value)
  {
    hide ItemAt, ItemScan, FirstFault, Fits, UniqueNames;
    ItemScanAgrees(raw, 0, maxDepth);
    if ItemAt(raw, 0).Got? { FirstFaultFits(ItemAt(raw, 0).value.value, maxDepth); }
  }

  // Even in an unreadable text, a repeated name is one that stands there twice.

  /** A string that stands in the text at `at`, with this decoding. */
  predicate StandsAt(raw: Text, at: nat, name: seq<int>) {
    at <= |raw| && StringAt(raw, at).Got? && Decode(StringAt(raw, at).value) == name
  }

  ghost predicate StandsTwice(raw: Text) {
    exists j, k, name :: 0 <= j < k && StandsAt(raw, j, name) && StandsAt(raw, k, name)
  }

  lemma {:induction false} ValueRepeats(raw: Text, i: nat, budget: int)
    requires i <= |raw| && ValueScan(raw, i, budget) == Stopped(DuplicateMember)
    ensures StandsTwice(raw)
    decreases |raw| - i, 1
  {
    if raw[i] == OPEN_OBJECT {
      MembersRepeat(raw, i + 1, {}, budget - 1);
    } else {
      ItemsRepeat(raw, i + 1, budget - 1);
    }
  }

  lemma {:induction false} ItemsRepeat(raw: Text, i: nat, budget: int)
    requires i <= |raw| && ItemsScan(raw, i, budget) == Stopped(DuplicateMember)
    ensures StandsTwice(raw)
    decreases |raw| - i, 3
  {
    hide ValueScan;
    var x := ItemScan(raw, i, budget);
    if x.Stopped? { ValueRepeats(raw, SpacesEnd(raw, i), budget); } else { ItemsRepeat(raw, x.end + 1, budget); }
  }

  lemma {:induction false} MembersRepeat(raw: Text, i: nat, names: set<seq<int>>, budget: int)
    requires i <= |raw| && MembersScan(raw, i, names, budget) == Stopped(DuplicateMember)
    requires forall name :: name in names ==> exists j :: 0 <= j < i && StandsAt(raw, j, name)
    ensures StandsTwice(raw)
    decreases |raw| - i, 3
  {
    hide ValueScan, StringAt;
    var at := SpacesEnd(raw, i);
    var name := StringAt(raw, at);
    var m := MemberScan(raw, i, names, budget);
    assert StandsAt(raw, at, Decode(name.value));
    if m.Stopped? && Decode(name.value) in names {
      var j :| 0 <= j < i && StandsAt(raw, j, Decode(name.value));
    } else if m.Stopped? {
      ValueRepeats(raw, SpacesEnd(raw, SpacesEnd(raw, name.end) + 1), budget);
    } else {
      NameIsPassed(raw, i, names, budget);
      MembersRepeat(raw, m.end + 1, names + {Decode(name.value)}, budget);
    }
  }

  lemma NameIsPassed(raw: Text, i: nat, names: set<seq<int>>, budget: int)
    requires i <= |raw| && MemberScan(raw, i, names, budget).Passed?
    ensures SpacesEnd(raw, i) < MemberScan(raw, i, names, budget).end
  {
    hide ItemScan;
  }

  /** A text is rejected for a repeated name only if one decoded name stands in it twice. */
  lemma RepeatedNameStandsTwice(raw: Text, maxDepth: int)
    requires FaultOf(raw, maxDepth) == DuplicateMember
    ensures StandsTwice(raw)
  {
    ValueRepeats(raw, SpacesEnd(raw, 0), maxDepth);
  }
}
