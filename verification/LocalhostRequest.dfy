/**
 What the loopback listener checks before a request is forwarded: the raw header list, which must
 name every framing header at most once, and a body read chunk by chunk up to a limit.
 */
module LocalhostRequest {
  import opened Collections
  import opened ByteChunks
  import opened Decimals
  import opened JsonGrammar
  import opened RemoteActionReceipt
  import opened RemoteActionReceiptJson
  import opened LocalhostListener
  import TailscaleIngress
  import StrictJson

  // Headers.

  const AUTHORIZATION := Units("authorization")
  const CONTENT_TYPE := Units("content-type")
  const CAPABILITIES := Units("tailscale-app-capabilities")
  const CONTENT_ENCODING := Units("content-encoding")
  const CONTENT_LENGTH := Units("content-length")
  const EXPECT := Units("expect")
  const HOST := Units("host")
  const TRAILER := Units("trailer")
  const TRANSFER_ENCODING := Units("transfer-encoding")

  predicate IsForwarded(name: Text) { name == AUTHORIZATION || name == CONTENT_TYPE || name == CAPABILITIES }

  predicate IsFraming(name: Text) {
    IsForwarded(name) || name == CONTENT_ENCODING || name == CONTENT_LENGTH || name == EXPECT
    || name == HOST || name == TRAILER || name == TRANSFER_ENCODING
  }

  /** Header names are ASCII tokens. */
  function LowerCase(t: Text): Text {
    seq(|t|, i requires 0 <= i < |t| => if 0x41 <= t[i] <= 0x5a then t[i] + 0x20 else t[i])
  }

  /** The values a header has in a raw list of names and values, in order. */
  function ValuesOf(raw: seq<Text>, name: Text): seq<Text> {
    if |raw| < 2 then []
    else
      ValuesOf(raw[..|raw| - 2], name)
      + if LowerCase(raw[|raw| - 2]) == name then [raw[|raw| - 1]] else []
  }

  datatype Inspected = Inspected(headers: map<Text, Text>, contentLength: nat)

  /** A decimal without leading zeros that spells a positive safe integer. */
  predicate IsContentLength(t: Text) {
    && t != [] && Digits(t) && (t[0] == ZERO ==> |t| == 1)
    && 0 < DigitsValue(t) <= StrictJson.MAX_SAFE_INTEGER
  }

  /** The requests whose headers pass: one value at most for every framing header, and the right ones. */
  ghost predicate HeadersPass(raw: seq<Text>, authority: Option<Text>) {
    && |raw| % 2 == 0 && |raw| / 2 <= LOCALHOST_MAX_HEADERS
    && (forall name :: IsFraming(name) ==> |ValuesOf(raw, name)| <= 1)
    && authority.Some? && ValuesOf(raw, HOST) == [authority.value]
    && ValuesOf(raw, TRANSFER_ENCODING) == [] && ValuesOf(raw, CONTENT_ENCODING) == []
    && ValuesOf(raw, TRAILER) == [] && ValuesOf(raw, EXPECT) == []
    && |ValuesOf(raw, CONTENT_LENGTH)| == 1 && IsContentLength(ValuesOf(raw, CONTENT_LENGTH)[0])
  }

  /** The map holds exactly the first value of each selected header seen so far. */
  ghost predicate Holds(m: map<Text, Text>, raw: seq<Text>, selected: Text -> bool) {
    && (forall name :: name in m <==> selected(name) && ValuesOf(raw, name) != [])
    && (forall name :: name in m ==> ValuesOf(raw, name) == [m[name]])
  }

  /** A content length is the decimal of a positive safe integer, which is its worth. */
  lemma ContentLengthExactly(t: Text)
    ensures IsContentLength(t) <==> exists n: nat :: 0 < n <= 0x1f_ffff_ffff_ffff && t == Decimal(n)
    ensures forall n: nat :: IsContentLength(t) && t == Decimal(n) ==> DigitsValue(t) == n
  {
    hide Decimal, DigitsValue;
    forall n: nat { DecimalsExactly(t, n); }
    if IsContentLength(t) { assert t == Decimal(DigitsValue(t)); }
  }

  /** Names are compared with capital letters as small ones, and everything else as it is. */
  lemma LowerCaseExactly(t: Text, i: nat)
    requires i < |t|
    ensures |LowerCase(t)| == |t|
    ensures LowerCase(t)[i] == if 'A' as int <= t[i] <= 'Z' as int then t[i] - 'A' as int + 'a' as int else t[i]
  {
  }

  method InspectHeaders(raw: seq<Text>, authority: Option<Text>) returns (r: Option<Inspected>)
    ensures r.Some? <==> HeadersPass(raw, authority)
    ensures r.Some? ==> Holds(r.value.headers, raw, IsForwarded)
    ensures r.Some? ==> r.value.contentLength == DigitsValue(ValuesOf(raw, CONTENT_LENGTH)[0])
  {
    hide IsFraming, IsForwarded, ValuesOf, IsContentLength, FramingPasses;
    if |raw| % 2 != 0 || |raw| / 2 > LOCALHOST_MAX_HEADERS { return None; }
    NothingSeen();
    var headers: map<Text, Text> := map[];
    var framing: map<Text, Text> := map[];
    var index := 0;
    while index < |raw|
      invariant index % 2 == 0 && 0 <= index <= |raw|
      invariant Holds(framing, raw[..index], IsFraming)
      invariant Holds(headers, raw[..index], IsForwarded)
    {
      var name, value := LowerCase(raw[index]), raw[index + 1];
      ForwardedIsFraming(headers, framing, raw[..index], name);
      HoldsStep(framing, raw, index, IsFraming);
      HoldsStep(headers, raw, index, IsForwarded);
      if IsFraming(name) {
        if name in framing {
          SecondValue(raw, index, name);
          return None;
        }
        framing := framing[name := value];
      }
      if IsForwarded(name) { headers := headers[name := value]; }
      index := index + 2;
    }
    assert raw[..index] == raw;
    PassingFraming(raw, framing, authority);
    return if FramingPasses(framing, authority) then Some(Inspected(headers, LengthIn(framing))) else None;
  }

  predicate FramingPasses(framing: map<Text, Text>, authority: Option<Text>) {
    && HOST in framing && authority == Some(framing[HOST])
    && TRANSFER_ENCODING !in framing && CONTENT_ENCODING !in framing && TRAILER !in framing && EXPECT !in framing
    && CONTENT_LENGTH in framing && IsContentLength(framing[CONTENT_LENGTH])
  }

  function LengthIn(framing: map<Text, Text>): (n: nat)
    requires exists authority :: FramingPasses(framing, authority)
  {
    DigitsValue(framing[CONTENT_LENGTH])
  }

  lemma PassingFraming(raw: seq<Text>, framing: map<Text, Text>, authority: Option<Text>)
    requires Holds(framing, raw, IsFraming) && |raw| % 2 == 0 && |raw| / 2 <= LOCALHOST_MAX_HEADERS
    ensures FramingPasses(framing, authority) <==> HeadersPass(raw, authority)
    ensures FramingPasses(framing, authority) ==> framing[CONTENT_LENGTH] == ValuesOf(raw, CONTENT_LENGTH)[0]
  {
    hide Units, IsContentLength;
    FramingNames();
  }

  lemma NothingSeen()
    ensures Holds(map[], [], IsFraming) && Holds(map[], [], IsForwarded)
  {
  }

  lemma FramingNames()
    ensures IsFraming(HOST) && IsFraming(TRANSFER_ENCODING) && IsFraming(CONTENT_ENCODING)
    ensures IsFraming(TRAILER) && IsFraming(EXPECT) && IsFraming(CONTENT_LENGTH)
  {
  }

  /** What is forwarded is also unique, so a name new to `framing` is new to `headers`. */
  lemma ForwardedIsFraming(headers: map<Text, Text>, framing: map<Text, Text>, raw: seq<Text>, name: Text)
    requires Holds(framing, raw, IsFraming) && Holds(headers, raw, IsForwarded)
    ensures IsForwarded(name) ==> IsFraming(name)
    ensures name in headers ==> name in framing
  {
  }

  lemma HoldsStep(m: map<Text, Text>, raw: seq<Text>, index: nat, selected: Text -> bool)
    requires index + 1 < |raw| && Holds(m, raw[..index], selected)
    ensures var name := LowerCase(raw[index]);
            && (selected(name) && name !in m ==> Holds(m[name := raw[index + 1]], raw[..index + 2], selected))
            && (!selected(name) ==> Holds(m, raw[..index + 2], selected))
            && (name in m ==> ValuesOf(raw[..index], name) != [])
  {
    ValuesStep(raw, index);
  }

  lemma ValuesStep(raw: seq<Text>, index: nat)
    requires index + 1 < |raw|
    ensures forall name ::
              ValuesOf(raw[..index + 2], name)
              == ValuesOf(raw[..index], name) + if LowerCase(raw[index]) == name then [raw[index + 1]] else []
  {
    assert raw[..index + 2][..index] == raw[..index];
  }

  /** A framing header seen again is a header with two values, whatever follows. */
  lemma SecondValue(raw: seq<Text>, index: nat, name: Text)
    requires index % 2 == 0 && |raw| % 2 == 0 && index + 1 < |raw|
    requires LowerCase(raw[index]) == name && ValuesOf(raw[..index], name) != []
    ensures |ValuesOf(raw, name)| > 1
  {
    ValuesStep(raw, index);
    ValuesGrow(raw, index + 2, name);
  }

  lemma {:induction false} ValuesGrow(raw: seq<Text>, n: nat, name: Text)
    requires n <= |raw| && n % 2 == 0 && |raw| % 2 == 0
    ensures |ValuesOf(raw[..n], name)| <= |ValuesOf(raw, name)|
    decreases |raw|
  {
    if n == |raw| {
      assert raw[..n] == raw;
    } else {
      ValuesGrow(raw[..|raw| - 2], n, name);
      assert raw[..|raw| - 2][..n] == raw[..n];
    }
  }

  // The body.

  /** How the stream ends after its last chunk. */
  datatype Ending = Ended(complete: bool) | AbortedEarly | StreamError

  datatype BodyRead = Complete(body: seq<Byte>) | TooLarge | Aborted | Failed

  method ReadBoundedBody(chunks: seq<seq<Byte>>, ending: Ending) returns (r: BodyRead)
    ensures r == TooLarge <==> |Joined(chunks)| > TailscaleIngress.MAX_REMOTE_ACTION_BODY_BYTES
    ensures r == Complete(Joined(chunks)) <==>
              ending == Ended(true) && |Joined(chunks)| <= TailscaleIngress.MAX_REMOTE_ACTION_BODY_BYTES
    ensures r == Failed <==>
              ending == StreamError && |Joined(chunks)| <= TailscaleIngress.MAX_REMOTE_ACTION_BODY_BYTES
  {
    var body: seq<Byte> := [];
    var index := 0;
    while index < |chunks|
      invariant 0 <= index <= |chunks|
      invariant body == Joined(chunks[..index])
      invariant |body| <= TailscaleIngress.MAX_REMOTE_ACTION_BODY_BYTES
    {
      assert chunks[..index + 1][..index] == chunks[..index];
      body := body + chunks[index];
      if |body| > TailscaleIngress.MAX_REMOTE_ACTION_BODY_BYTES {
        JoinedGrows(chunks, index + 1);
        return TooLarge;
      }
      index := index + 1;
    }
    assert chunks[..index] == chunks;
    match ending
    case Ended(complete) => return if complete then Complete(body) else Aborted;
    case AbortedEarly => return Aborted;
    case StreamError => return Failed;
  }

  lemma {:induction false} JoinedGrows(chunks: seq<seq<Byte>>, n: nat)
    requires n <= |chunks|
    ensures |Joined(chunks[..n])| <= |Joined(chunks)|
    decreases |chunks|
  {
    if n == |chunks| {
      assert chunks[..n] == chunks;
    } else {
      JoinedGrows(chunks[..|chunks| - 1], n);
      assert chunks[..|chunks| - 1][..n] == chunks[..n];
    }
  }
}
