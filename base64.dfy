/** The base 64 encoding of section 4 of RFC 4648 (standard alphabet, `=` padding), used for
    the project archive sent to the build server and for the `dist` archive it sends back. */
module Base64 {
  import opened Common

  type Byte = bv8

  /** The character for a 6-bit value (table 1 of RFC 4648). */
  function CharOf(v: bv8): (c: char)
    requires v < 64
  {
    if v < 26 then ('A' as int + v as int) as char
    else if v < 52 then ('a' as int + (v as int - 26)) as char
    else if v < 62 then ('0' as int + (v as int - 52)) as char
    else if v == 62 then '+'
    else '/'
  }

  /** The 6-bit value of an alphabet character; `None` for anything else, `=` included. */
  function ValueOf(c: char): (r: Option<bv8>)
    ensures r.Some? ==> r.value < 64
  {
    if 'A' <= c <= 'Z' then Some((c as int - 'A' as int) as bv8)
    else if 'a' <= c <= 'z' then Some((c as int - 'a' as int + 26) as bv8)
    else if '0' <= c <= '9' then Some((c as int - '0' as int + 52) as bv8)
    else if c == '+' then Some(62)
    else if c == '/' then Some(63)
    else None
  }

  lemma ValueOfCharOf(v: bv8)
    requires v < 64
    ensures ValueOf(CharOf(v)) == Some(v)
    ensures CharOf(v) != '='
  {
    if v < 26 {
      CharOfRange(v, 0, 'A');
    } else if v < 52 {
      CharOfRange(v, 26, 'a');
    } else if v < 62 {
      CharOfRange(v, 52, '0');
    }
  }

  /** Within one run of the alphabet, the value `v` is the character `first + (v - low)`,
      which `ValueOf` maps back to `v`. */
  lemma CharOfRange(v: bv8, low: bv8, first: char)
    requires (low, first) in {(0, 'A'), (26, 'a'), (52, '0')}
    requires low <= v && v - low < (if low == 52 then 10 else 26)
    ensures CharOf(v) == (first as int + (v - low) as int) as char
    ensures ValueOf(CharOf(v)) == Some(v)
  {
    var k := (v - low) as int;
    assert v as int == low as int + k;
    assert ((low as int + k) as bv8) == v;
  }

  /** Three octets as four characters. */
  function Quad(a: Byte, b: Byte, c: Byte): string {
    [CharOf(a >> 2), CharOf(((a & 3) << 4) | (b >> 4)), CharOf(((b & 15) << 2) | (c >> 6)), CharOf(c & 63)]
  }

  /** Two final octets as three characters and one pad. */
  function PairQuad(a: Byte, b: Byte): string {
    [CharOf(a >> 2), CharOf(((a & 3) << 4) | (b >> 4)), CharOf((b & 15) << 2), '=']
  }

  /** One final octet as two characters and two pads. */
  function SingleQuad(a: Byte): string {
    [CharOf(a >> 2), CharOf((a & 3) << 4), '=', '=']
  }

  /** `Base64.getEncoder().encodeToString`, and Node's `buffer.toString('base64')`. */
  function Encode(bs: seq<Byte>): (s: string)
    ensures |s| == 4 * ((|bs| + 2) / 3)
  {
    if |bs| >= 3 then Quad(bs[0], bs[1], bs[2]) + Encode(bs[3..])
    else if |bs| == 2 then PairQuad(bs[0], bs[1])
    else if |bs| == 1 then SingleQuad(bs[0])
    else ""
  }

  /** A character that is neither in the alphabet nor the pad. */
  predicate Foreign(c: char) {
    c != '=' && ValueOf(c).None?
  }

  /** How many `=` end the text (at most two are counted). */
  function Pads(s: string): nat {
    if |s| >= 2 && s[|s| - 1] == '=' && s[|s| - 2] == '=' then 2
    else if |s| >= 1 && s[|s| - 1] == '=' then 1
    else 0
  }

  /** One group of four characters; padding is accepted only in the `last` group. Unused
      low-order bits of a padded group are ignored, as the Java decoder does. */
  function DecodeQuad(q: string, last: bool): (r: Option<seq<Byte>>)
    requires |q| == 4
    ensures Foreign(q[0]) || Foreign(q[1]) || Foreign(q[2]) || Foreign(q[3]) ==> r.None?
    ensures !last && '=' in q ==> r.None?
    ensures r.Some? ==> |r.value| == 3 - Pads(q)
  {
    var v0, v1, v2, v3 := ValueOf(q[0]), ValueOf(q[1]), ValueOf(q[2]), ValueOf(q[3]);
    if v0.None? || v1.None? then None
    else if q[2] == '=' && q[3] == '=' then
      if last then Some([(v0.value << 2) | (v1.value >> 4)]) else None
    else if v2.None? then None
    else if q[3] == '=' then
      if last then Some([(v0.value << 2) | (v1.value >> 4), (v1.value << 4) | (v2.value >> 2)]) else None
    else if v3.None? then None
    else Some([(v0.value << 2) | (v1.value >> 4), (v1.value << 4) | (v2.value >> 2), (v2.value << 6) | v3.value])
  }

  /** The final group, of one to four characters. A group of two or three characters is
      read as if it were padded; a lone character, and `xx=` with one pad missing, are
      refused. */
  function DecodeLast(t: string): (r: Option<seq<Byte>>)
    requires 1 <= |t| <= 4
    ensures |t| == 1 ==> r.None?
    ensures (exists i | 0 <= i < |t| :: Foreign(t[i])) ==> r.None?
    ensures r.Some? ==> |r.value| == |t| - 1 - Pads(t)
  {
    if |t| == 4 then DecodeQuad(t, true)
    else if |t| == 3 then (if t[2] == '=' then None else DecodeQuad(t + "=", true))
    else if |t| == 2 then DecodeQuad(t + "==", true)
    else None
  }

  /** `Base64.getDecoder().decode` (the basic decoder): `None` where it throws. Groups of
      four characters are decoded in turn; padding is accepted only at the very end and may
      be left out. */
  function Decode(s: string): (r: Option<seq<Byte>>)
    ensures r.Some? ==> |r.value| < |s| || s == ""
    decreases |s|
  {
    if |s| == 0 then Some([])
    else if |s| <= 4 then DecodeLast(s)
    else
      var q := DecodeQuad(s[..4], false);
      if q.None? then None
      else
        var rest := Decode(s[4..]);
        if rest.None? then None else Some(q.value + rest.value)
  }

  lemma QuadRoundTrip(a: Byte, b: Byte, c: Byte, last: bool)
    ensures DecodeQuad(Quad(a, b, c), last) == Some([a, b, c])
  {
    ValueOfCharOf(a >> 2);
    ValueOfCharOf(((a & 3) << 4) | (b >> 4));
    ValueOfCharOf(((b & 15) << 2) | (c >> 6));
    ValueOfCharOf(c & 63);
    assert ((a >> 2) << 2) | ((((a & 3) << 4) | (b >> 4)) >> 4) == a;
    assert ((((a & 3) << 4) | (b >> 4)) << 4) | ((((b & 15) << 2) | (c >> 6)) >> 2) == b;
    assert ((((b & 15) << 2) | (c >> 6)) << 6) | (c & 63) == c;
  }

  lemma PairRoundTrip(a: Byte, b: Byte)
    ensures DecodeQuad(PairQuad(a, b), true) == Some([a, b])
  {
    ValueOfCharOf(a >> 2);
    ValueOfCharOf(((a & 3) << 4) | (b >> 4));
    ValueOfCharOf((b & 15) << 2);
    assert ((a >> 2) << 2) | ((((a & 3) << 4) | (b >> 4)) >> 4) == a;
    assert ((((a & 3) << 4) | (b >> 4)) << 4) | (((b & 15) << 2) >> 2) == b;
  }

  lemma SingleRoundTrip(a: Byte)
    ensures DecodeQuad(SingleQuad(a), true) == Some([a])
  {
    ValueOfCharOf(a >> 2);
    ValueOfCharOf((a & 3) << 4);
    assert ((a >> 2) << 2) | (((a & 3) << 4) >> 4) == a;
  }

  /** The last group of an encoding, on its own. */
  lemma LastGroupsRoundTrip(a: Byte, b: Byte, c: Byte)
    ensures Decode(Encode([a, b, c])) == Some([a, b, c])
    ensures Decode(Encode([a, b])) == Some([a, b])
    ensures Decode(Encode([a])) == Some([a])
  {
    var three, two, one := Quad(a, b, c), PairQuad(a, b), SingleQuad(a);
    assert Encode([a, b, c]) == three by {
      assert [a, b, c][3..] == [];
    }
    assert Decode(three) == DecodeQuad(three, true) by {
      QuadRoundTrip(a, b, c, true);
    }
    assert Decode(two) == DecodeQuad(two, true) by {
      PairRoundTrip(a, b);
    }
    assert Decode(one) == DecodeQuad(one, true) by {
      SingleRoundTrip(a);
    }
    QuadRoundTrip(a, b, c, true);
    PairRoundTrip(a, b);
    SingleRoundTrip(a);
  }

  /** Decoding undoes encoding, for every byte string. */
  lemma {:induction false} DecodeEncode(bs: seq<Byte>)
    ensures Decode(Encode(bs)) == Some(bs)
  {
    var s := Encode(bs);
    if |bs| > 3 {
      var q := Quad(bs[0], bs[1], bs[2]);
      assert s == q + Encode(bs[3..]);
      QuadRoundTrip(bs[0], bs[1], bs[2], false);
      DecodeEncode(bs[3..]);
      DecodeConcat(q, Encode(bs[3..]));
      assert bs == [bs[0], bs[1], bs[2]] + bs[3..];
    } else if |bs| > 0 {
      DecodeEncodeShort(bs);
    }
  }

  lemma DecodeEncodeShort(bs: seq<Byte>)
    requires 0 < |bs| <= 3
    ensures Decode(Encode(bs)) == Some(bs)
  {
    var a := bs[0];
    var b := if |bs| >= 2 then bs[1] else 0;
    var c := if |bs| == 3 then bs[2] else 0;
    LastGroupsRoundTrip(a, b, c);
    var t := if |bs| == 3 then [a, b, c] else if |bs| == 2 then [a, b] else [a];
    assert t == bs;
  }

  /** The encoding with its `=` padding left out, as an encoder without padding writes it. */
  function EncodeUnpadded(bs: seq<Byte>): (s: string)
    ensures |s| == (4 * |bs| + 2) / 3
    ensures s == Encode(bs)[..|s|]
  {
    if |bs| >= 3 then
      var rest := EncodeUnpadded(bs[3..]);
      assert Encode(bs) == Quad(bs[0], bs[1], bs[2]) + Encode(bs[3..]);
      Quad(bs[0], bs[1], bs[2]) + rest
    else if |bs| == 2 then PairQuad(bs[0], bs[1])[..3]
    else if |bs| == 1 then SingleQuad(bs[0])[..2]
    else ""
  }

  /** Unpadded text decodes as if it were padded: the decoder accepts what an encoder
      without padding writes, and gives back the bytes. */
  lemma {:induction false} DecodeUnpadded(bs: seq<Byte>)
    ensures Decode(EncodeUnpadded(bs)) == Some(bs)
  {
    var s := EncodeUnpadded(bs);
    if |bs| > 3 {
      var q := Quad(bs[0], bs[1], bs[2]);
      assert s == q + EncodeUnpadded(bs[3..]);
      QuadRoundTrip(bs[0], bs[1], bs[2], false);
      DecodeUnpadded(bs[3..]);
      DecodeConcat(q, EncodeUnpadded(bs[3..]));
      assert bs == [bs[0], bs[1], bs[2]] + bs[3..];
    } else if |bs| == 3 {
      assert [bs[0], bs[1], bs[2]] == bs;
      LastGroupsUnpadded(bs[0], bs[1], bs[2]);
    } else if |bs| == 2 {
      assert [bs[0], bs[1]] == bs;
      LastGroupsUnpadded(bs[0], bs[1], 0);
    } else if |bs| == 1 {
      assert [bs[0]] == bs;
      LastGroupsUnpadded(bs[0], 0, 0);
    }
  }

  lemma LastGroupsUnpadded(a: Byte, b: Byte, c: Byte)
    ensures Decode(EncodeUnpadded([a, b, c])) == Some([a, b, c])
    ensures Decode(EncodeUnpadded([a, b])) == Some([a, b])
    ensures Decode(EncodeUnpadded([a])) == Some([a])
  {
    LastGroupsRoundTrip(a, b, c);
    var two, one := PairQuad(a, b), SingleQuad(a);
    assert EncodeUnpadded([a, b, c]) == Encode([a, b, c]) by {
      assert [a, b, c][3..] == [];
    }
    assert Decode(two[..3]) == DecodeQuad(two, true) by {
      ValueOfCharOf((b & 15) << 2);
      assert two[..3] + "=" == two;
    }
    assert Decode(one[..2]) == DecodeQuad(one, true) by {
      assert one[..2] + "==" == one;
    }
    PairRoundTrip(a, b);
    SingleRoundTrip(a);
  }

  /** `"QQ"` is the single octet `A`; a lone character, `xx=` with one pad missing, and a
      padded group followed by an unpadded one are refused. */
  lemma UnpaddedExamples()
    ensures Decode("QQ") == Some([0x41])
    ensures Decode("QUI") == Some([0x41, 0x42])
    ensures Decode("Q") == None && Decode("QQ=") == None
    ensures Decode("QQ==QQ") == None
  {
    DecodeRefusesInnerPad("QQ==QQ", 2);
    LastGroupsUnpadded(0x41, 0x42, 0);
    assert EncodeUnpadded([0x41]) == "QQ";
    assert EncodeUnpadded([0x41, 0x42]) == "QUI";
  }

  /** How `Decode` splits a text longer than one group: it fails when the first group or
      the rest fails. */
  lemma DecodeSplit(s: string)
    requires |s| > 4
    ensures DecodeQuad(s[..4], false).None? ==> Decode(s).None?
    ensures Decode(s[4..]).None? ==> Decode(s).None?
    ensures DecodeQuad(s[..4], false).Some? && Decode(s[4..]).Some? ==>
      Decode(s) == Some(DecodeQuad(s[..4], false).value + Decode(s[4..]).value)
  {
  }

  /** A full group followed by an accepted non-empty rest decodes to the two in turn. */
  lemma DecodeConcat(q: string, t: string)
    requires |q| == 4 && |t| > 0
    requires DecodeQuad(q, false).Some? && Decode(t).Some?
    ensures Decode(q + t) == Some(DecodeQuad(q, false).value + Decode(t).value)
  {
    var s := q + t;
    assert s[..4] == q && s[4..] == t;
    DecodeSplit(s);
  }

  /** An accepted text of n characters, p of them final pads, holds ⌊3n/4⌋ − p bytes;
      this counts a final group of two or three characters written without pads. */
  lemma {:induction false} DecodeLength(s: string)
    ensures Decode(s).Some? ==> |Decode(s).value| == 3 * |s| / 4 - Pads(s)
    decreases |s|
  {
    if 0 < |s| <= 4 {
      assert Decode(s) == DecodeLast(s);
    } else if |s| > 4 {
      var q, t := s[..4], s[4..];
      DecodeSplit(s);
      if DecodeQuad(q, false).Some? && Decode(t).Some? {
        DecodeLength(t);
        if |t| >= 2 {
          assert t[|t| - 1] == s[|s| - 1] && t[|t| - 2] == s[|s| - 2];
          assert Pads(t) == Pads(s);
        }
      }
    }
  }

  /** Text whose length leaves a lone character in the last group is refused. */
  lemma {:induction false} DecodeRefusesDangling(s: string)
    requires |s| % 4 == 1
    ensures Decode(s) == None
    decreases |s|
  {
    var n := |s|;
    OneMoreThanFour(n);
    if n > 4 {
      var t := s[4..];
      assert |t| == n - 4;
      DecodeRefusesDangling(t);
      DecodeRefusedRest(s);
    } else {
      DecodeShort(s);
    }
  }

  /** A length one more than a multiple of four is 1, or stays so once a group is taken off. */
  lemma OneMoreThanFour(n: nat)
    requires n % 4 == 1
    ensures n <= 4 ==> n == 1
    ensures n > 4 ==> (n - 4) % 4 == 1
  {
  }

  /** Text whose groups after the first are refused is refused. */
  lemma DecodeRefusedRest(s: string)
    requires |s| > 4 && Decode(s[4..]) == None
    ensures Decode(s) == None
  {
    DecodeSplit(s);
  }

  /** Text of one to four characters is decoded as a final group. */
  lemma DecodeShort(s: string)
    requires 1 <= |s| <= 4
    ensures Decode(s) == DecodeLast(s)
  {
  }

  /** Text holding a character outside the alphabet and other than `=` is refused. */
  lemma {:induction false} DecodeRefusesForeign(s: string, i: nat)
    requires i < |s| && Foreign(s[i])
    ensures Decode(s) == None
    decreases |s|
  {
    if |s| <= 4 {
      ForeignInLast(s, i);
    } else if i < 4 {
      ForeignInFirst(s, i);
    } else {
      DecodeSplit(s);
      DecodeRefusesForeign(s[4..], i - 4);
    }
  }

  lemma ForeignInLast(s: string, i: nat)
    requires i < |s| <= 4 && Foreign(s[i])
    ensures Decode(s) == None
  {
    assert Decode(s) == DecodeLast(s);
  }

  lemma ForeignInFirst(s: string, i: nat)
    requires i < 4 < |s| && Foreign(s[i])
    ensures Decode(s) == None
  {
    var q := s[..4];
    assert Foreign(q[i]);
    assert Foreign(q[0]) || Foreign(q[1]) || Foreign(q[2]) || Foreign(q[3]);
    DecodeSplit(s);
  }

  /** A pad anywhere before the last group is refused. */
  lemma {:induction false} DecodeRefusesInnerPad(s: string, i: nat)
    requires i < 4 * ((|s| - 1) / 4) && s[i] == '='
    ensures Decode(s) == None
    decreases |s|
  {
    DecodeSplit(s);
    if i < 4 {
      assert s[..4][i] == '=';
    } else {
      DecodeRefusesInnerPad(s[4..], i - 4);
    }
  }

  /** Encodings of different byte strings differ. */
  lemma EncodeInjective(a: seq<Byte>, b: seq<Byte>)
    requires Encode(a) == Encode(b)
    ensures a == b
  {
    DecodeEncode(a);
    DecodeEncode(b);
  }
}
