/**
 * The base64 encoding of section 4 of RFC 4648 (the alphabet of its
 * Table 1, with "=" padding), as `btoa` applies it to a string of
 * characters below 256, and a decoder that inverts it.
 */
module Base64 {
  import opened Js

  type Byte = x: int | 0 <= x < 256

  type Sextet = x: int | 0 <= x < 64

  /** Table 1 of RFC 4648: "A"-"Z", "a"-"z", "0"-"9", "+", "/". */
  function Sym(i: Sextet): char
  {
    if i < 26 then ('A' as int + i) as char
    else if i < 52 then ('a' as int + (i - 26)) as char
    else if i < 62 then ('0' as int + (i - 52)) as char
    else if i == 62 then '+'
    else '/'
  }

  /** The value a character of the alphabet stands for. */
  function ValueOf(c: char): (r: Option<Sextet>)
    ensures r.Some? ==> Sym(r.value) == c
  {
    if 'A' <= c <= 'Z' then Some(c as int - 'A' as int)
    else if 'a' <= c <= 'z' then Some(c as int - 'a' as int + 26)
    else if '0' <= c <= '9' then Some(c as int - '0' as int + 52)
    else if c == '+' then Some(62)
    else if c == '/' then Some(63)
    else None
  }

  lemma ValueOfSym(i: Sextet)
    ensures ValueOf(Sym(i)) == Some(i)
    ensures Sym(i) != '='
  {
  }

  /** Three bytes as four characters. */
  function Quad(a: Byte, b: Byte, c: Byte): string
  {
    [Sym(a / 4), Sym((a % 4) * 16 + b / 16), Sym((b % 16) * 4 + c / 64), Sym(c % 64)]
  }

  /** The encoding: whole groups of three bytes, then a final group of one
    * or two bytes padded to four characters with "=". */
  function Encode(bytes: seq<Byte>): string
    decreases |bytes|
  {
    if |bytes| == 0 then ""
    else if |bytes| == 1 then [Sym(bytes[0] / 4), Sym((bytes[0] % 4) * 16), '=', '=']
    else if |bytes| == 2 then [Sym(bytes[0] / 4), Sym((bytes[0] % 4) * 16 + bytes[1] / 16), Sym((bytes[1] % 16) * 4), '=']
    else Quad(bytes[0], bytes[1], bytes[2]) + Encode(bytes[3..])
  }

  /** The bytes of a final group of two characters and "==". */
  function Single(v0: Sextet, v1: Sextet): seq<Byte>
  {
    [v0 * 4 + v1 / 16]
  }

  /** The bytes of a final group of three characters and "=". */
  function Pair(v0: Sextet, v1: Sextet, v2: Sextet): seq<Byte>
  {
    [v0 * 4 + v1 / 16, (v1 % 16) * 16 + v2 / 4]
  }

  /** The bytes of a full group of four characters. */
  function Triple(v0: Sextet, v1: Sextet, v2: Sextet, v3: Sextet): seq<Byte>
  {
    [v0 * 4 + v1 / 16, (v1 % 16) * 16 + v2 / 4, (v2 % 4) * 64 + v3]
  }

  /** The bytes a text encodes, or `None` when it is not a canonical
    * encoding (a length not a multiple of four, a character outside the
    * alphabet, padding not at the end, or non-zero padding bits). */
  function Decode(s: string): (r: Option<seq<Byte>>)
    decreases |s|
  {
    if |s| == 0 then Some([])
    else if |s| < 4 then None
    else
      var v0, v1, v2, v3 := ValueOf(s[0]), ValueOf(s[1]), ValueOf(s[2]), ValueOf(s[3]);
      if v0.None? || v1.None? then None
      else if |s| == 4 && s[2] == '=' && s[3] == '=' then
        if v1.value % 16 == 0 then Some(Single(v0.value, v1.value)) else None
      else if v2.None? then None
      else if |s| == 4 && s[3] == '=' then
        if v2.value % 4 == 0 then Some(Pair(v0.value, v1.value, v2.value)) else None
      else if v3.None? then None
      else
        match Decode(s[4..])
        case None => None
        case Some(rest) => Some(Triple(v0.value, v1.value, v2.value, v3.value) + rest)
  }

  // ----- Properties of the encoding -----

  /** Four characters per started group of three bytes. */
  lemma {:induction false} EncodeLength(bytes: seq<Byte>)
    ensures |Encode(bytes)| == 4 * ((|bytes| + 2) / 3)
    decreases |bytes|
  {
    if |bytes| >= 3 {
      EncodeLength(bytes[3..]);
      GroupCount(|bytes|);
    }
  }

  lemma GroupCount(n: int)
    requires n >= 3
    ensures (n + 2) / 3 == (n - 3 + 2) / 3 + 1
  {
  }

  /** Every character is in the alphabet or is padding, and padding only
    * ends the text. */
  lemma {:induction false} EncodeAlphabet(bytes: seq<Byte>)
    ensures forall i :: 0 <= i < |Encode(bytes)| ==> ValueOf(Encode(bytes)[i]).Some? || Encode(bytes)[i] == '='
    ensures forall i :: 0 <= i < |Encode(bytes)| && Encode(bytes)[i] == '=' ==> |Encode(bytes)| - 2 <= i
    decreases |bytes|
  {
    if |bytes| >= 3 {
      EncodeAlphabet(bytes[3..]);
      var q := Quad(bytes[0], bytes[1], bytes[2]);
      var e := Encode(bytes);
      assert e == q + Encode(bytes[3..]);
      QuadAlphabet(bytes[0], bytes[1], bytes[2]);
      forall i | 4 <= i < |e| ensures e[i] == Encode(bytes[3..])[i - 4] {
      }
    } else if |bytes| == 2 {
      ValueOfSym(bytes[0] / 4);
      ValueOfSym((bytes[0] % 4) * 16 + bytes[1] / 16);
      ValueOfSym((bytes[1] % 16) * 4);
    } else if |bytes| == 1 {
      ValueOfSym(bytes[0] / 4);
      ValueOfSym((bytes[0] % 4) * 16);
    }
  }

  lemma QuadAlphabet(a: Byte, b: Byte, c: Byte)
    ensures forall i :: 0 <= i < 4 ==> ValueOf(Quad(a, b, c)[i]).Some?
  {
    ValueOfSym(a / 4);
    ValueOfSym((a % 4) * 16 + b / 16);
    ValueOfSym((b % 16) * 4 + c / 64);
    ValueOfSym(c % 64);
  }

  /** Splitting bytes into sextets and regrouping them gives the bytes back. */
  lemma Ungroup(a: Byte, b: Byte, c: Byte)
    ensures Single(a / 4, (a % 4) * 16) == [a]
    ensures Pair(a / 4, (a % 4) * 16 + b / 16, (b % 16) * 4) == [a, b]
    ensures Triple(a / 4, (a % 4) * 16 + b / 16, (b % 16) * 4 + c / 64, c % 64) == [a, b, c]
  {
    FirstByte(a, b);
    FirstByte(a, 0);
    SecondByte(b, c);
    SecondByte(b, 0);
    ThirdByte(c);
  }

  /** The first byte is the first sextet and the top of the second. */
  lemma FirstByte(a: Byte, b: Byte)
    ensures (a / 4) * 4 + ((a % 4) * 16 + b / 16) / 16 == a
    ensures ((a % 4) * 16 + b / 16) % 16 == b / 16
  {
  }

  /** The second byte is the bottom of the second sextet and the top of the third. */
  lemma SecondByte(b: Byte, c: Byte)
    ensures (b / 16) * 16 + ((b % 16) * 4 + c / 64) / 4 == b
    ensures ((b % 16) * 4 + c / 64) % 4 == c / 64
  {
  }

  /** The third byte is the bottom of the third sextet and the fourth. */
  lemma ThirdByte(c: Byte)
    ensures (c / 64) * 64 + c % 64 == c
  {
  }

  /** Regrouping sextets as bytes and splitting them again gives the sextets back. */
  lemma Regroup(v0: Sextet, v1: Sextet, v2: Sextet, v3: Sextet)
    ensures v1 % 16 == 0 ==> var t := Single(v0, v1); t[0] / 4 == v0 && (t[0] % 4) * 16 == v1
    ensures v2 % 4 == 0 ==> var t := Pair(v0, v1, v2);
      t[0] / 4 == v0 && (t[0] % 4) * 16 + t[1] / 16 == v1 && (t[1] % 16) * 4 == v2
    ensures var t := Triple(v0, v1, v2, v3);
      t[0] / 4 == v0 && (t[0] % 4) * 16 + t[1] / 16 == v1 && (t[1] % 16) * 4 + t[2] / 64 == v2 && t[2] % 64 == v3
  {
  }

  /** How `Decode` reads a leading full group of four alphabet characters. */
  lemma DecodeFull(s: string)
    requires |s| >= 4 && ValueOf(s[0]).Some? && ValueOf(s[1]).Some? && ValueOf(s[2]).Some? && ValueOf(s[3]).Some?
    ensures Decode(s) == match Decode(s[4..])
      case None => None
      case Some(rest) => Some(Triple(ValueOf(s[0]).value, ValueOf(s[1]).value, ValueOf(s[2]).value, ValueOf(s[3]).value) + rest)
  {
    assert s[2] != '=' && s[3] != '=';
  }

  lemma DecodeOne(a: Byte)
    ensures Decode([Sym(a / 4), Sym((a % 4) * 16), '=', '=']) == Some([a])
  {
    ValueOfSym(a / 4);
    ValueOfSym((a % 4) * 16);
    Ungroup(a, 0, 0);
  }

  lemma DecodeTwo(a: Byte, b: Byte)
    ensures Decode([Sym(a / 4), Sym((a % 4) * 16 + b / 16), Sym((b % 16) * 4), '=']) == Some([a, b])
  {
    ValueOfSym(a / 4);
    ValueOfSym((a % 4) * 16 + b / 16);
    ValueOfSym((b % 16) * 4);
    Ungroup(a, b, 0);
  }

  /** A leading group decodes to its three bytes. */
  lemma DecodeGroup(a: Byte, b: Byte, c: Byte, t: string)
    ensures Decode(Quad(a, b, c) + t) == match Decode(t) case None => None case Some(rest) => Some([a, b, c] + rest)
  {
    var q := Quad(a, b, c);
    var s := q + t;
    assert s[4..] == t;
    assert s[0] == q[0] && s[1] == q[1] && s[2] == q[2] && s[3] == q[3];
    ValueOfSym(a / 4);
    ValueOfSym((a % 4) * 16 + b / 16);
    ValueOfSym((b % 16) * 4 + c / 64);
    ValueOfSym(c % 64);
    Ungroup(a, b, c);
    DecodeFull(s);
  }

  /** Decoding an encoding gives the bytes back. */
  lemma {:induction false} DecodeEncode(bytes: seq<Byte>)
    ensures Decode(Encode(bytes)) == Some(bytes)
    decreases |bytes|
  {
    if |bytes| == 1 {
      DecodeOne(bytes[0]);
      Singleton(bytes);
    } else if |bytes| == 2 {
      DecodeTwo(bytes[0], bytes[1]);
      Doubleton(bytes);
    } else if |bytes| >= 3 {
      DecodeEncode(bytes[3..]);
      DecodeGroup(bytes[0], bytes[1], bytes[2], Encode(bytes[3..]));
      Front3(bytes);
    }
  }

  lemma Singleton(bytes: seq<Byte>)
    requires |bytes| == 1
    ensures bytes == [bytes[0]]
  {
  }

  lemma Doubleton(bytes: seq<Byte>)
    requires |bytes| == 2
    ensures bytes == [bytes[0], bytes[1]]
  {
  }

  lemma Front3(bytes: seq<Byte>)
    requires |bytes| >= 3
    ensures bytes == [bytes[0], bytes[1], bytes[2]] + bytes[3..]
  {
  }

  /** A text that decodes is the encoding of what it decodes to: the
    * encoding is the only text for its bytes. */
  lemma {:induction false} EncodeDecode(s: string)
    requires Decode(s).Some?
    ensures Encode(Decode(s).value) == s
    decreases |s|
  {
    if |s| == 4 && s[2] == '=' && s[3] == '=' {
      EncodeLastOne(s);
    } else if |s| == 4 && s[3] == '=' {
      EncodeLastTwo(s);
    } else if |s| > 0 {
      EncodeFirstGroup(s);
      EncodeDecode(s[4..]);
      var b := Decode(s).value;
      assert Encode(b) == Quad(b[0], b[1], b[2]) + Encode(b[3..]);
      assert s == s[..4] + s[4..];
    }
  }

  lemma EncodeLastOne(s: string)
    requires |s| == 4 && s[2] == '=' && s[3] == '=' && Decode(s).Some?
    ensures Encode(Decode(s).value) == s
  {
    var v0, v1 := ValueOf(s[0]).value, ValueOf(s[1]).value;
    assert Decode(s).value == Single(v0, v1);
    Regroup(v0, v1, 0, 0);
    assert s == [s[0], s[1], s[2], s[3]];
  }

  lemma EncodeLastTwo(s: string)
    requires |s| == 4 && !(s[2] == '=' && s[3] == '=') && s[3] == '=' && Decode(s).Some?
    ensures Encode(Decode(s).value) == s
  {
    var v0, v1, v2 := ValueOf(s[0]).value, ValueOf(s[1]).value, ValueOf(s[2]).value;
    assert Decode(s).value == Pair(v0, v1, v2);
    Regroup(v0, v1, v2, 0);
    assert s == [s[0], s[1], s[2], s[3]];
  }

  lemma FirstFour(s: string)
    requires |s| >= 4
    ensures s[..4] == [s[0], s[1], s[2], s[3]]
  {
  }

  /** A decoding text that does not end after one padded group starts
    * with a full group, the encoding of the first three bytes. */
  lemma EncodeFirstGroup(s: string)
    requires |s| > 0 && Decode(s).Some?
    requires !(|s| == 4 && s[3] == '=')
    ensures |s| >= 4 && Decode(s[4..]).Some?
    ensures var b := Decode(s).value;
      |b| >= 3 && b[3..] == Decode(s[4..]).value && Quad(b[0], b[1], b[2]) == s[..4]
  {
    FullGroupShape(s);
    DecodeFull(s);
    var v0, v1, v2, v3 := ValueOf(s[0]).value, ValueOf(s[1]).value, ValueOf(s[2]).value, ValueOf(s[3]).value;
    var t := Triple(v0, v1, v2, v3);
    GroupQuad(s);
    TripleFront(t, Decode(s[4..]).value);
  }

  /** A decoding text other than one padded group opens with four alphabet
    * characters, and what follows them decodes too. */
  lemma FullGroupShape(s: string)
    requires |s| > 0 && Decode(s).Some?
    requires !(|s| == 4 && s[3] == '=')
    ensures |s| >= 4 && ValueOf(s[0]).Some? && ValueOf(s[1]).Some? && ValueOf(s[2]).Some? && ValueOf(s[3]).Some?
    ensures Decode(s[4..]).Some?
  {
  }

  /** The bytes of a group of four alphabet characters encode back to them. */
  lemma GroupQuad(s: string)
    requires |s| >= 4 && ValueOf(s[0]).Some? && ValueOf(s[1]).Some? && ValueOf(s[2]).Some? && ValueOf(s[3]).Some?
    ensures var t := Triple(ValueOf(s[0]).value, ValueOf(s[1]).value, ValueOf(s[2]).value, ValueOf(s[3]).value);
      Quad(t[0], t[1], t[2]) == s[..4]
  {
    var v0, v1, v2, v3 := ValueOf(s[0]).value, ValueOf(s[1]).value, ValueOf(s[2]).value, ValueOf(s[3]).value;
    Regroup(v0, v1, v2, v3);
    FirstFour(s);
  }

  lemma TripleFront(t: seq<Byte>, rest: seq<Byte>)
    requires |t| == 3
    ensures (t + rest)[3..] == rest && (t + rest)[0] == t[0] && (t + rest)[1] == t[1] && (t + rest)[2] == t[2]
  {
  }

  /** `btoa`: a character above 255 makes it throw; otherwise each
    * character is the byte of its code. */
  function Btoa(binary: string): (r: Option<string>)
    ensures r.Some? <==> forall i :: 0 <= i < |binary| ==> binary[i] as int < 256
    ensures r.Some? ==> Decode(r.value) == Some(Codes(binary))
  {
    if forall i :: 0 <= i < |binary| ==> binary[i] as int < 256 then
      DecodeEncode(Codes(binary));
      Some(Encode(Codes(binary)))
    else None
  }

  /** The character codes of a string of characters below 256. */
  function Codes(binary: string): (r: seq<Byte>)
    ensures |r| == |binary|
    ensures forall i :: 0 <= i < |binary| && binary[i] as int < 256 ==> r[i] == binary[i] as int
    decreases |binary|
  {
    if |binary| == 0 then []
    else
      var c := binary[|binary| - 1] as int;
      Codes(binary[..|binary| - 1]) + [if c < 256 then c else 0]
  }
}
