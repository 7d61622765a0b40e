/** Text as UTF-16 code units, and its length in UTF-8 (section 3 of RFC 3629). */
module Text {

  datatype Option<+T> = None | Some(value: T)

  /** One UTF-16 code unit. */
  type Unit = u: int | 0 <= u < 0x1_0000

  type Text = seq<Unit>

  predicate High(u: Unit) {
    0xD800 <= u <= 0xDBFF
  }

  predicate Low(u: Unit) {
    0xDC00 <= u <= 0xDFFF
  }

  /** How many units the code point at the front of `t` takes: a surrogate pair is one code point. */
  function Width(t: Text): (w: nat)
    requires t != []
    ensures 1 <= w <= 2 && w <= |t|
  {
    if |t| >= 2 && High(t[0]) && Low(t[1]) then 2 else 1
  }

  /** UTF-8 size of the code point at the front of `t`; an unpaired surrogate counts three bytes. */
  function HeadBytes(t: Text): (n: nat)
    requires t != []
    ensures 1 <= n <= 4
  {
    if Width(t) == 2 then 4
    else if t[0] <= 0x7f then 1
    else if t[0] <= 0x7ff then 2
    else 3
  }

  function ByteLength(t: Text): nat {
    if t == [] then 0 else HeadBytes(t) + ByteLength(t[Width(t)..])
  }

  /** Cutting between `a` and `b` cuts a surrogate pair in two. */
  predicate SplitsPair(a: Text, b: Text) {
    a != [] && b != [] && High(a[|a| - 1]) && Low(b[0])
  }

  /** Joining two texts adds up their sizes, except that a pair rejoined across the cut
      shrinks from twice three bytes to four. */
  lemma {:induction false} ByteLengthConcat(a: Text, b: Text)
    ensures ByteLength(a + b) == ByteLength(a) + ByteLength(b) - (if SplitsPair(a, b) then 2 else 0)
  {
    if a == [] {
      assert a + b == b;
    } else if |a| == 1 && SplitsPair(a, b) {
      assert (a + b)[2..] == b[1..];
      assert Width(b) == 1;
      assert a[1..] == [];
    } else {
      var w := Width(a);
      assert Width(a + b) == w && HeadBytes(a + b) == HeadBytes(a);
      assert (a + b)[w..] == a[w..] + b;
      ByteLengthConcat(a[w..], b);
    }
  }

  /** The scan the transport runs over a string, code point by code point. */
  method MeasureBytes(text: Text) returns (bytes: nat)
    ensures bytes == ByteLength(text)
  {
    bytes := 0;
    var index := 0;
    while index < |text|
      invariant 0 <= index <= |text|
      invariant bytes + ByteLength(text[index..]) == ByteLength(text)
    {
      var rest := text[index..];
      bytes := bytes + HeadBytes(rest);
      assert rest[Width(rest)..] == text[index + Width(rest)..];
      index := index + Width(rest);
    }
  }

  function Join(parts: seq<Text>): Text {
    if parts == [] then [] else parts[0] + Join(parts[1..])
  }

  function TotalBytes(parts: seq<Text>): nat {
    if parts == [] then 0 else ByteLength(parts[0]) + TotalBytes(parts[1..])
  }

  lemma {:induction false} JoinAppend(parts: seq<Text>, last: Text)
    ensures Join(parts + [last]) == Join(parts) + last
    ensures TotalBytes(parts + [last]) == TotalBytes(parts) + ByteLength(last)
  {
    if parts == [] {
      assert parts + [last] == [last];
    } else {
      assert (parts + [last])[1..] == parts[1..] + [last];
      JoinAppend(parts[1..], last);
    }
  }

  /** Concatenation never makes a text longer than its pieces counted one by one. */
  lemma {:induction false} JoinBytes(parts: seq<Text>)
    ensures ByteLength(Join(parts)) <= TotalBytes(parts)
  {
    if parts != [] {
      ByteLengthConcat(parts[0], Join(parts[1..]));
      JoinBytes(parts[1..]);
    }
  }
}
