/**
 * The standard base64 encoding of section 4 of RFC 4648 (alphabet
 * A-Z a-z 0-9 + /, '=' padding), as Go's `base64.StdEncoding.Encode`
 * writes it, and a decoder that inverts it.
 */
module Base64 {
  import opened Wrappers
  import opened Kube

  /** ASCII '='. */
  const Pad: byte := 61

  /** The alphabet symbol (an ASCII code) for a 6-bit value. */
  function Symbol(i: int): (c: byte)
    requires 0 <= i < 64
    ensures c != Pad
  {
    if i < 26 then (65 + i) as byte        // 'A'..'Z'
    else if i < 52 then (71 + i) as byte   // 'a'..'z'
    else if i < 62 then (i - 4) as byte    // '0'..'9'
    else if i == 62 then 43                // '+'
    else 47                                // '/'
  }

  /** The 6-bit value of an alphabet symbol, `None` for any other byte. */
  function Value(c: byte): (r: Option<int>)
    ensures r.Some? ==> 0 <= r.value < 64 && Symbol(r.value) == c
  {
    if 65 <= c <= 90 then Some(c as int - 65)
    else if 97 <= c <= 122 then Some(c as int - 71)
    else if 48 <= c <= 57 then Some(c as int + 4)
    else if c == 43 then Some(62)
    else if c == 47 then Some(63)
    else None
  }

  lemma ValueOfSymbol(i: int)
    requires 0 <= i < 64
    ensures Value(Symbol(i)) == Some(i)
  {
  }

  /** True of the bytes `Encode` may write: alphabet symbols and '='. */
  predicate IsEncodingByte(c: byte) {
    Value(c).Some? || c == Pad
  }

  /** Three input bytes as four symbols. */
  function Group(b0: byte, b1: byte, b2: byte): seq<byte> {
    [Symbol(b0 as int / 4),
     Symbol((b0 as int % 4) * 16 + b1 as int / 16),
     Symbol((b1 as int % 16) * 4 + b2 as int / 64),
     Symbol(b2 as int % 64)]
  }

  /** The standard encoding of `s`; the output length is 4 * ceil(|s| / 3). */
  function Encode(s: Bytes): (r: Bytes)
    ensures |r| == 4 * ((|s| + 2) / 3)
    decreases |s|
  {
    if |s| == 0 then []
    else if |s| == 1 then
      [Symbol(s[0] as int / 4), Symbol((s[0] as int % 4) * 16), Pad, Pad]
    else if |s| == 2 then
      [Symbol(s[0] as int / 4), Symbol((s[0] as int % 4) * 16 + s[1] as int / 16),
       Symbol((s[1] as int % 16) * 4), Pad]
    else
      Group(s[0], s[1], s[2]) + Encode(s[3..])
  }

  /** Four symbols back to three bytes, given their 6-bit values. */
  function Ungroup(v0: int, v1: int, v2: int, v3: int): seq<byte>
    requires 0 <= v0 < 64 && 0 <= v1 < 64 && 0 <= v2 < 64 && 0 <= v3 < 64
  {
    [(v0 * 4 + v1 / 16) as byte, ((v1 % 16) * 16 + v2 / 4) as byte, ((v2 % 4) * 64 + v3) as byte]
  }

  /** Decodes one 4-byte quantum; padding is accepted only in the final one. */
  function DecodeQuantum(q: Bytes, last: bool): (r: Option<Bytes>)
    requires |q| == 4
  {
    var v0, v1, v2, v3 := Value(q[0]), Value(q[1]), Value(q[2]), Value(q[3]);
    if v0.None? || v1.None? then None
    else if last && q[2] == Pad && q[3] == Pad then
      Some(Ungroup(v0.value, v1.value, 0, 0)[..1])
    else if v2.None? then None
    else if last && q[3] == Pad then
      Some(Ungroup(v0.value, v1.value, v2.value, 0)[..2])
    else if v3.None? then None
    else Some(Ungroup(v0.value, v1.value, v2.value, v3.value))
  }

  /** The decoder of the standard encoding: `None` for text that is not one. */
  function Decode(t: Bytes): (r: Option<Bytes>)
    decreases |t|
  {
    if |t| == 0 then Some([])
    else if |t| < 4 then None
    else
      var q := DecodeQuantum(t[..4], |t| == 4);
      var rest := Decode(t[4..]);
      if q.None? || rest.None? then None else Some(q.value + rest.value)
  }

  /** The arithmetic of splitting three bytes into four 6-bit values and joining them again. */
  lemma UngroupGroup(b0: byte, b1: byte, b2: byte)
    ensures Ungroup(b0 as int / 4, (b0 as int % 4) * 16 + b1 as int / 16,
                    (b1 as int % 16) * 4 + b2 as int / 64, b2 as int % 64) == [b0, b1, b2]
  {
    JoinFirst(b0, b1 as int / 16);
    JoinSecond(b0, b1, b2 as int / 64);
  }

  lemma JoinFirst(b0: byte, hi: int)
    requires 0 <= hi < 16
    ensures (b0 as int / 4) * 4 + ((b0 as int % 4) * 16 + hi) / 16 == b0 as int
  {
  }

  lemma JoinSecond(b0: byte, b1: byte, hi: int)
    requires 0 <= hi < 4
    ensures (((b0 as int % 4) * 16 + b1 as int / 16) % 16) * 16 + ((b1 as int % 16) * 4 + hi) / 4 == b1 as int
  {
  }

  /** A full quantum decodes to the three bytes it encodes. */
  lemma DecodeGroup(b0: byte, b1: byte, b2: byte, last: bool)
    ensures DecodeQuantum(Group(b0, b1, b2), last) == Some([b0, b1, b2])
  {
    ValueOfSymbol(b0 as int / 4);
    ValueOfSymbol((b0 as int % 4) * 16 + b1 as int / 16);
    ValueOfSymbol((b1 as int % 16) * 4 + b2 as int / 64);
    ValueOfSymbol(b2 as int % 64);
    UngroupGroup(b0, b1, b2);
  }

  /** A text of one quantum decodes as that final quantum. */
  lemma {:induction false} DecodeLastQuantum(q: Bytes)
    requires |q| == 4
    ensures Decode(q) == DecodeQuantum(q, true)
  {
    assert q[..4] == q && q[4..] == [];
    assert Decode(q[4..]) == Some([]);
    var d := DecodeQuantum(q, true);
    if d.Some? {
      assert d.value + [] == d.value;
    }
  }

  /** The final quantum of a one-byte remainder decodes to that byte. */
  lemma {:induction false} DecodeOneByteTail(s: Bytes)
    requires |s| == 1
    ensures Decode(Encode(s)) == Some(s)
  {
    var b := s[0];
    var v0, v1 := b as int / 4, (b as int % 4) * 16;
    ValueOfSymbol(v0);
    ValueOfSymbol(v1);
    var q := [Symbol(v0), Symbol(v1), Pad, Pad];
    assert Encode(s) == q;
    JoinFirst(b, 0);
    assert Ungroup(v0, v1, 0, 0)[..1] == [b];
    assert DecodeQuantum(q, true) == Some([b]);
    DecodeLastQuantum(q);
    assert s == [b];
  }

  /** The final quantum of a two-byte remainder decodes to those bytes. */
  lemma {:induction false} DecodeTwoByteTail(s: Bytes)
    requires |s| == 2
    ensures Decode(Encode(s)) == Some(s)
  {
    var b0, b1 := s[0], s[1];
    var v0, v1, v2 := b0 as int / 4, (b0 as int % 4) * 16 + b1 as int / 16, (b1 as int % 16) * 4;
    ValueOfSymbol(v0);
    ValueOfSymbol(v1);
    ValueOfSymbol(v2);
    var q := [Symbol(v0), Symbol(v1), Symbol(v2), Pad];
    assert Encode(s) == q;
    JoinFirst(b0, b1 as int / 16);
    JoinSecond(b0, b1, 0);
    assert Ungroup(v0, v1, v2, 0)[..2] == [b0, b1];
    assert DecodeQuantum(q, true) == Some([b0, b1]);
    DecodeLastQuantum(q);
    assert s == [b0, b1];
    assert Decode(Encode(s)) == Decode(q);
  }

  /** A quantum followed by more text decodes quantum by quantum. */
  lemma {:induction false} DecodeQuantumThenRest(q: Bytes, rest: Bytes, x: Bytes, y: Bytes)
    requires |q| == 4 && DecodeQuantum(q, rest == []) == Some(x) && Decode(rest) == Some(y)
    ensures Decode(q + rest) == Some(x + y)
  {
    var t := q + rest;
    assert t[..4] == q && t[4..] == rest;
  }

  /** Decoding the encoding of any byte string gives it back. */
  lemma {:induction false} DecodeEncode(s: Bytes)
    ensures Decode(Encode(s)) == Some(s)
    decreases |s|
  {
    if |s| == 1 {
      DecodeOneByteTail(s);
    } else if |s| == 2 {
      DecodeTwoByteTail(s);
    } else if |s| > 2 {
      var g, rest := Group(s[0], s[1], s[2]), Encode(s[3..]);
      assert Encode(s) == g + rest;
      DecodeGroup(s[0], s[1], s[2], rest == []);
      DecodeEncode(s[3..]);
      DecodeQuantumThenRest(g, rest, [s[0], s[1], s[2]], s[3..]);
      assert [s[0], s[1], s[2]] + s[3..] == s;
    }
  }

  /** Every byte of an encoding is an alphabet symbol, except '=' in the last two places. */
  lemma {:induction false} EncodeAlphabet(s: Bytes)
    ensures forall k | 0 <= k < |Encode(s)| ::
      Value(Encode(s)[k]).Some? || (Encode(s)[k] == Pad && k >= |Encode(s)| - 2)
    decreases |s|
  {
    if |s| > 2 {
      EncodeAlphabet(s[3..]);
      var g, rest := Group(s[0], s[1], s[2]), Encode(s[3..]);
      forall k | 0 <= k < |g| ensures Value(g[k]).Some? {
        ValueOfSymbol(s[0] as int / 4);
        ValueOfSymbol((s[0] as int % 4) * 16 + s[1] as int / 16);
        ValueOfSymbol((s[1] as int % 16) * 4 + s[2] as int / 64);
        ValueOfSymbol(s[2] as int % 64);
      }
      forall k | 0 <= k < |g + rest|
        ensures Value((g + rest)[k]).Some? || ((g + rest)[k] == Pad && k >= |g + rest| - 2)
      {
        if k >= 4 { assert (g + rest)[k] == rest[k - 4]; }
      }
    } else if |s| > 0 {
      ValueOfSymbol(s[0] as int / 4);
      ValueOfSymbol((s[0] as int % 4) * 16);
      if |s| == 2 {
        ValueOfSymbol((s[0] as int % 4) * 16 + s[1] as int / 16);
        ValueOfSymbol((s[1] as int % 16) * 4);
      }
    }
  }

  /** Different byte strings have different encodings. */
  lemma EncodeInjective(s: Bytes, s': Bytes)
    requires Encode(s) == Encode(s')
    ensures s == s'
  {
    DecodeEncode(s);
    DecodeEncode(s');
  }
}
