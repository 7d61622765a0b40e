/** The size the link charges a text is the length of its UTF-8 form (section 3 of RFC 3629). */
module Utf8 {
  import opened Text

  type Byte = b: int | 0 <= b < 0x100

  /** A code point other than a surrogate. */
  type Scalar = c: int | 0 <= c < 0xD800 || 0xE000 <= c < 0x11_0000

  const REPLACEMENT: Scalar := 0xFFFD

  /** The code point at the front of `t`; an unpaired surrogate is read as the replacement character. */
  function HeadScalar(t: Text): Scalar
    requires t != []
  {
    if Width(t) == 2 then 0x1_0000 + (t[0] - 0xD800) * 0x400 + (t[1] - 0xDC00)
    else if High(t[0]) || Low(t[0]) then REPLACEMENT
    else t[0]
  }

  function Scalars(t: Text): seq<Scalar> {
    if t == [] then [] else [HeadScalar(t)] + Scalars(t[Width(t)..])
  }

  /** What a trailing byte carries: the lowest six bits. */
  function Trail(c: nat): Byte {
    0x80 + c % 0x40
  }

  /** The table of section 3: the bits of the code point, six to a trailing byte. */
  function Octets(c: Scalar): (bs: seq<Byte>)
    ensures 1 <= |bs| <= 4
  {
    if c < 0x80 then [c]
    else if c < 0x800 then [0xC0 + c / 0x40, Trail(c)]
    else if c < 0x1_0000 then [0xE0 + c / 0x40 / 0x40, Trail(c / 0x40), Trail(c)]
    else [0xF0 + c / 0x40 / 0x40 / 0x40, Trail(c / 0x40 / 0x40), Trail(c / 0x40), Trail(c)]
  }

  function Encoded(cs: seq<Scalar>): seq<Byte> {
    if cs == [] then [] else Octets(cs[0]) + Encoded(cs[1..])
  }

  predicate Trailing(b: Byte) {
    0x80 <= b < 0xC0
  }

  /** How many bytes the first one announces; none if it cannot come first. */
  function Announced(b: Byte): nat {
    if b < 0x80 then 1
    else if b < 0xC0 then 0
    else if b < 0xE0 then 2
    else if b < 0xF0 then 3
    else if b < 0xF8 then 4
    else 0
  }

  /** `high` with the six bits of a trailing byte behind it. */
  function Shifted(high: int, b: Byte): int {
    high * 0x40 + (b as int - 0x80)
  }

  /** The number that the first bytes stand for. */
  function Value(bs: seq<Byte>): Option<int> {
    var n := if bs == [] then 0 else Announced(bs[0]);
    if n == 0 || n > |bs| || exists i :: 1 <= i < n && !Trailing(bs[i]) then None
    else
      var b: int := bs[0];
      if n == 1 then Some(b)
      else if n == 2 then Some(Shifted(b - 0xC0, bs[1]))
      else if n == 3 then Some(Shifted(Shifted(b - 0xE0, bs[1]), bs[2]))
      else Some(Shifted(Shifted(Shifted(b - 0xF0, bs[1]), bs[2]), bs[3]))
  }

  function Decoded(bs: seq<Byte>): Option<seq<int>> {
    if bs == [] then Some([])
    else
      var c := Value(bs);
      if c.None? then None
      else
        var rest := Decoded(bs[Announced(bs[0])..]);
        if rest.None? then None else Some([c.value] + rest.value)
  }

  lemma ShiftBack(c: nat)
    ensures Shifted(c / 0x40, Trail(c)) == c && Trailing(Trail(c))
  {
  }

  /** One code point is read back whatever follows it. */
  lemma OctetsReadBack(c: Scalar, rest: seq<Byte>)
    ensures var bs := Octets(c) + rest; Announced(bs[0]) == |Octets(c)| && Value(bs) == Some(c)
  {
    ShiftBack(c);
    ShiftBack(c / 0x40);
    ShiftBack(c / 0x40 / 0x40);
    var bs := Octets(c) + rest;
    assert forall i :: 0 <= i < |Octets(c)| ==> bs[i] == Octets(c)[i];
    assert Announced(bs[0]) == |Octets(c)|;
    hide Shifted, Trail, Announced, Trailing;
  }

  /** Encoding loses nothing. */
  lemma {:induction false} EncodedReadsBack(cs: seq<Scalar>)
    ensures Decoded(Encoded(cs)) == Some(cs)
  {
    if cs != [] {
      EncodedReadsBack(cs[1..]);
      OctetsReadBack(cs[0], Encoded(cs[1..]));
      var bs := Encoded(cs);
      assert bs[|Octets(cs[0])|..] == Encoded(cs[1..]);
      assert [cs[0]] + cs[1..] == cs;
    }
  }

  /** The size of a text is the number of bytes of its UTF-8 form. */
  lemma {:induction false} ByteLengthIsUtf8(t: Text)
    ensures ByteLength(t) == |Encoded(Scalars(t))|
    decreases |t|
  {
    if t != [] {
      ByteLengthIsUtf8(t[Width(t)..]);
      assert Scalars(t)[1..] == Scalars(t[Width(t)..]);
    }
  }
}
