/**
 Texts as sequences of UTF-16 code units, and the Unicode scalar values they stand for: what
 well-formedness, a number of code points and a number of UTF-8 bytes mean.
 */
module Unicode {
  import opened JsonGrammar

  predicate IsScalar(p: int) { 0 <= p < 0xd800 || 0xe000 <= p < 0x11_0000 }

  predicate Scalars(points: seq<int>) { forall k :: 0 <= k < |points| ==> IsScalar(points[k]) }

  /** The code units of one scalar value: itself, or a surrogate pair. */
  function Units16(p: int): (t: Text)
    requires IsScalar(p)
    ensures 1 <= |t| <= 2
  {
    if p < 0x1_0000 then [p] else [0xd800 + (p - 0x1_0000) / 0x400, 0xdc00 + (p - 0x1_0000) % 0x400]
  }

  function Utf16(points: seq<int>): Text
    requires Scalars(points)
  {
    if points == [] then [] else Units16(points[0]) + Utf16(points[1..])
  }

  /** The bytes of one scalar value in UTF-8. */
  function Bytes(p: int): nat { if p < 0x80 then 1 else if p < 0x800 then 2 else if p < 0x1_0000 then 3 else 4 }

  function Utf8Bytes(points: seq<int>): nat { if points == [] then 0 else Bytes(points[0]) + Utf8Bytes(points[1..]) }

  /** The first scalar value of a text that has one, and the rest. */
  lemma FirstScalar(points: seq<int>)
    requires Scalars(points) && points != []
    ensures var p, t := points[0], Utf16(points);
            && t == Units16(p) + Utf16(points[1..]) && |t| >= |Units16(p)|
            && (p < 0x1_0000 ==> t[0] == p && t[1..] == Utf16(points[1..])
                                 && !IsHighSurrogate(t[0]) && !IsLowSurrogate(t[0]))
            && (p >= 0x1_0000 ==> |t| >= 2 && IsHighSurrogate(t[0]) && IsLowSurrogate(t[1])
                                  && t[2..] == Utf16(points[1..]))
  {
    var p, rest := points[0], Utf16(points[1..]);
    if p < 0x1_0000 { assert ([p] + rest)[1..] == rest; } else { assert (Units16(p) + rest)[2..] == rest; }
  }
}
