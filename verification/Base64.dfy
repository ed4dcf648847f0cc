// Standard base64 with padding, as in section 4 of RFC 4648: three bytes become four digits of six bits each, and one
// or two bytes at the end become two or three digits and padding. Decoding accepts exactly what encoding produces: no
// other length, no padding inside, no leftover bits that are not zero.

module Base64 {

  import opened Common

  type Byte = x: int | 0 <= x < 256

  type Sextet = x: int | 0 <= x < 64

  function Digit(v: Sextet): char {
    if v < 26 then ('A' as int + v) as char
    else if v < 52 then ('a' as int + (v - 26)) as char
    else if v < 62 then ('0' as int + (v - 52)) as char
    else if v == 62 then '+' else '/'
  }

  function Value(c: char): Option<Sextet> {
    if 'A' <= c <= 'Z' then Some(c as int - 'A' as int)
    else if 'a' <= c <= 'z' then Some(c as int - 'a' as int + 26)
    else if '0' <= c <= '9' then Some(c as int - '0' as int + 52)
    else if c == '+' then Some(62)
    else if c == '/' then Some(63)
    else None
  }

  lemma DigitValue(c: char, v: Sextet)
    ensures Value(c) == Some(v) <==> c == Digit(v)
    ensures Value(Digit(v)) == Some(v) && Digit(v) != '='
  {
  }

  /** The four digits that three bytes are written as. */
  function High(a: Byte): Sextet {
    a / 4
  }

  function Upper(a: Byte, b: Byte): Sextet {
    a % 4 * 16 + b / 16
  }

  function Lower(b: Byte, c: Byte): Sextet {
    b % 16 * 4 + c / 64
  }

  function Low(c: Byte): Sextet {
    c % 64
  }

  /** The three bytes that four digits stand for. */
  function First(p: Sextet, q: Sextet): Byte {
    p * 4 + q / 16
  }

  function Second(q: Sextet, r: Sextet): Byte {
    q % 16 * 16 + r / 4
  }

  function Third(r: Sextet, t: Sextet): Byte {
    r % 4 * 64 + t
  }

  lemma SextetsOfBytes(a: Byte, b: Byte, c: Byte)
    ensures First(High(a), Upper(a, b)) == a
    ensures Second(Upper(a, b), Lower(b, c)) == b
    ensures Third(Lower(b, c), Low(c)) == c
    ensures Upper(a, 0) % 16 == 0 && Lower(b, 0) % 4 == 0
  {
  }

  lemma BytesOfSextets(p: Sextet, q: Sextet, r: Sextet, t: Sextet)
    ensures High(First(p, q)) == p
    ensures Upper(First(p, q), Second(q, r)) == q
    ensures Lower(Second(q, r), Third(r, t)) == r
    ensures Low(Third(r, t)) == t
    ensures q % 16 == 0 ==> Upper(First(p, q), 0) == q
    ensures r % 4 == 0 ==> Lower(Second(q, r), 0) == r
  {
  }

  function EncodeThree(a: Byte, b: Byte, c: Byte): (r: string)
    ensures |r| == 4
  {
    [Digit(High(a)), Digit(Upper(a, b)), Digit(Lower(b, c)), Digit(Low(c))]
  }

  function EncodeTwo(a: Byte, b: Byte): (r: string)
    ensures |r| == 4
  {
    [Digit(High(a)), Digit(Upper(a, b)), Digit(Lower(b, 0)), '=']
  }

  function EncodeOne(a: Byte): (r: string)
    ensures |r| == 4
  {
    [Digit(High(a)), Digit(Upper(a, 0)), '=', '=']
  }

  function Encode(s: seq<Byte>): string {
    if s == [] then ""
    else if |s| == 1 then EncodeOne(s[0])
    else if |s| == 2 then EncodeTwo(s[0], s[1])
    else EncodeThree(s[0], s[1], s[2]) + Encode(s[3..])
  }

  /** A group of four digits, or of three or two digits and padding; padding only where the text ends. */
  function DecodeGroup(s: string, last: bool): Option<seq<Byte>>
    requires |s| == 4
  {
    var p, q := Value(s[0]), Value(s[1]);
    if p.None? || q.None? then None
    else
      var first := First(p.value, q.value);
      if s[2] == '=' then
        if last && s[3] == '=' && q.value % 16 == 0 then Some([first]) else None
      else
        var r := Value(s[2]);
        if r.None? then None
        else
          var second := Second(q.value, r.value);
          if s[3] == '=' then
            if last && r.value % 4 == 0 then Some([first, second]) else None
          else
            var t := Value(s[3]);
            if t.None? then None else Some([first, second, Third(r.value, t.value)])
  }

  function Decode(s: string): Option<seq<Byte>> {
    if s == [] then Some([])
    else if |s| < 4 then None
    else
      match DecodeGroup(s[..4], |s| == 4)
      case None => None
      case Some(bytes) =>
        match Decode(s[4..])
        case None => None
        case Some(rest) => Some(bytes + rest)
  }

  lemma FullGroup(s: string, last: bool, p: Sextet, q: Sextet, r: Sextet, t: Sextet)
    requires |s| == 4 && s[2] != '=' && s[3] != '='
    requires Value(s[0]) == Some(p) && Value(s[1]) == Some(q) && Value(s[2]) == Some(r) && Value(s[3]) == Some(t)
    ensures DecodeGroup(s, last) == Some([First(p, q), Second(q, r), Third(r, t)])
  {
    hide Value;
  }

  lemma GroupOfThree(a: Byte, b: Byte, c: Byte, last: bool)
    ensures DecodeGroup(EncodeThree(a, b, c), last) == Some([a, b, c])
  {
    hide Digit, Value, DecodeGroup, High, Upper, Lower, Low, First, Second, Third;
    DigitValue('=', High(a));
    DigitValue('=', Upper(a, b));
    DigitValue('=', Lower(b, c));
    DigitValue('=', Low(c));
    FullGroup(EncodeThree(a, b, c), last, High(a), Upper(a, b), Lower(b, c), Low(c));
    SextetsOfBytes(a, b, c);
  }

  lemma GroupOfTwo(a: Byte, b: Byte)
    ensures DecodeGroup(EncodeTwo(a, b), true) == Some([a, b])
  {
    hide Digit, Value, High, Upper, Lower, Low, First, Second, Third;
    DigitValue('=', High(a));
    DigitValue('=', Upper(a, b));
    DigitValue('=', Lower(b, 0));
    SextetsOfBytes(a, b, 0);
  }

  lemma GroupOfOne(a: Byte)
    ensures DecodeGroup(EncodeOne(a), true) == Some([a])
  {
    hide Digit, Value, High, Upper, Lower, Low, First, Second, Third;
    DigitValue('=', High(a));
    DigitValue('=', Upper(a, 0));
    SextetsOfBytes(a, 0, 0);
  }

  /** The digits are those of the standard alphabet, in its order: A to Z, a to z, 0 to 9, plus and slash. */
  lemma DigitsAreStandard(v: Sextet)
    ensures Digit(0) == 'A' && Digit(25) == 'Z' && Digit(26) == 'a' && Digit(51) == 'z'
    ensures Digit(52) == '0' && Digit(61) == '9' && Digit(62) == '+' && Digit(63) == '/'
    ensures v < 62 && v != 25 && v != 51 && v != 61 ==> Digit(v + 1) as int == Digit(v) as int + 1
  {
  }

  /** Three of the test vectors of section 10 of RFC 4648: "f", "fo" and "foo". */
  lemma StandardVectors()
    ensures Encode([0x66]) == "Zg==" && Encode([0x66, 0x6F]) == "Zm8=" && Encode([0x66, 0x6F, 0x6F]) == "Zm9v"
  {
    var foo: seq<Byte> := [0x66, 0x6F, 0x6F];
    assert foo[3..] == [];
    assert Encode(foo) == EncodeThree(0x66, 0x6F, 0x6F) + Encode(foo[3..]);
  }

  /** Decoding undoes encoding. */
  lemma {:induction false} DecodeEncode(s: seq<Byte>)
    ensures Decode(Encode(s)) == Some(s)
  {
    assert Decode("") == Some([]);
    hide Decode, DecodeGroup, EncodeOne, EncodeTwo, EncodeThree;
    if |s| == 1 {
      GroupOfOne(s[0]);
      LastGroup(Encode(s));
      assert [s[0]] == s;
    } else if |s| == 2 {
      GroupOfTwo(s[0], s[1]);
      LastGroup(Encode(s));
      assert [s[0], s[1]] == s;
    } else if |s| > 2 {
      DecodeEncode(s[3..]);
      ThreeThenRest(s[0], s[1], s[2], s[3..]);
      assert [s[0], s[1], s[2]] + s[3..] == s;
    }
  }

  lemma ThreeThenRest(a: Byte, b: Byte, c: Byte, rest: seq<Byte>)
    requires Decode(Encode(rest)) == Some(rest)
    ensures Decode(EncodeThree(a, b, c) + Encode(rest)) == Some([a, b, c] + rest)
  {
    hide Decode, DecodeGroup, Encode, EncodeThree;
    GroupOfThree(a, b, c, Encode(rest) == []);
    GroupThenRest(EncodeThree(a, b, c), Encode(rest));
  }

  lemma GroupThenRest(group: string, rest: string)
    requires |group| == 4 && DecodeGroup(group, rest == []).Some? && Decode(rest).Some?
    ensures Decode(group + rest) == Some(DecodeGroup(group, rest == []).value + Decode(rest).value)
  {
    hide DecodeGroup;
    assert (group + rest)[..4] == group && (group + rest)[4..] == rest;
  }

  lemma LastGroup(s: string)
    requires |s| == 4
    ensures Decode(s) == DecodeGroup(s, true)
  {
    assert s[..4] == s && s[4..] == [];
    if DecodeGroup(s, true).Some? {
      assert DecodeGroup(s, true).value + [] == DecodeGroup(s, true).value;
    }
  }

  function EncodeGroup(bytes: seq<Byte>): string
    requires 1 <= |bytes| <= 3
  {
    if |bytes| == 1 then EncodeOne(bytes[0])
    else if |bytes| == 2 then EncodeTwo(bytes[0], bytes[1])
    else EncodeThree(bytes[0], bytes[1], bytes[2])
  }

  /** What a group decodes to encodes to that group. */
  lemma GroupBack(s: string, last: bool)
    requires |s| == 4 && DecodeGroup(s, last).Some?
    ensures var bytes := DecodeGroup(s, last).value;
            1 <= |bytes| <= 3 && (!last ==> |bytes| == 3) && s == EncodeGroup(bytes)
  {
    if s[3] != '=' {
      FullGroupBack(s, last);
    } else {
      PaddedGroupBack(s, last);
    }
  }

  lemma EncodeBack(p: Sextet, q: Sextet, r: Sextet, t: Sextet)
    ensures EncodeThree(First(p, q), Second(q, r), Third(r, t)) == [Digit(p), Digit(q), Digit(r), Digit(t)]
  {
    hide Digit, High, Upper, Lower, Low, First, Second, Third;
    BytesOfSextets(p, q, r, t);
  }

  lemma FullGroupBack(s: string, last: bool)
    requires |s| == 4 && DecodeGroup(s, last).Some? && s[3] != '='
    ensures var bytes := DecodeGroup(s, last).value;
            |bytes| == 3 && s == EncodeGroup(bytes)
  {
    assert s[2] != '=';
    var p, q, r, t := Value(s[0]).value, Value(s[1]).value, Value(s[2]).value, Value(s[3]).value;
    DigitValue(s[0], p);
    DigitValue(s[1], q);
    DigitValue(s[2], r);
    DigitValue(s[3], t);
    FullGroup(s, last, p, q, r, t);
    hide Digit, Value, DecodeGroup, EncodeThree, First, Second, Third;
    EncodeBack(p, q, r, t);
  }

  lemma EncodeTwoBack(p: Sextet, q: Sextet, r: Sextet)
    requires r % 4 == 0
    ensures EncodeTwo(First(p, q), Second(q, r)) == [Digit(p), Digit(q), Digit(r), '=']
  {
    hide Digit, High, Upper, Lower, Low, First, Second, Third;
    BytesOfSextets(p, q, r, 0);
  }

  lemma EncodeOneBack(p: Sextet, q: Sextet)
    requires q % 16 == 0
    ensures EncodeOne(First(p, q)) == [Digit(p), Digit(q), '=', '=']
  {
    hide Digit, High, Upper, Lower, Low, First, Second, Third;
    BytesOfSextets(p, q, 0, 0);
  }

  lemma PaddedGroupBack(s: string, last: bool)
    requires |s| == 4 && DecodeGroup(s, last).Some? && s[3] == '='
    ensures var bytes := DecodeGroup(s, last).value;
            last && 1 <= |bytes| <= 2 && s == EncodeGroup(bytes)
  {
    var p, q := Value(s[0]).value, Value(s[1]).value;
    DigitValue(s[0], p);
    DigitValue(s[1], q);
    assert Value('=') == None;
    hide Digit, EncodeTwo, EncodeOne, First, Second, Third;
    if s[2] == '=' {
      hide Value;
      EncodeOneBack(p, q);
    } else {
      var r := Value(s[2]).value;
      DigitValue(s[2], r);
      hide Value;
      EncodeTwoBack(p, q, r);
    }
  }

  /** Only encodings decode: a text and its bytes determine each other. */
  lemma {:induction false} DecodeExactly(s: string, bytes: seq<Byte>)
    ensures Decode(s) == Some(bytes) <==> s == Encode(bytes)
  {
    DecodeEncode(bytes);
    if Decode(s) == Some(bytes) { EncodeDecode(s); }
  }

  lemma {:induction false} EncodeDecode(s: string)
    requires Decode(s).Some?
    ensures Encode(Decode(s).value) == s
  {
    if s != [] {
      GroupBack(s[..4], |s| == 4);
      EncodeDecode(s[4..]);
      var bytes, rest := DecodeGroup(s[..4], |s| == 4).value, Decode(s[4..]).value;
      assert s == s[..4] + s[4..];
      if |bytes| == 3 {
        assert (bytes + rest)[3..] == rest;
      } else {
        assert rest == [] && bytes + rest == bytes;
        assert s[..4] == s;
      }
    }
  }

  /** An encoding holds letters, digits, '+', '/' and '=' only. */
  lemma {:induction false} PlainText(s: seq<Byte>, c: char)
    requires Value(c).None? && c != '='
    ensures c !in Encode(s)
  {
    forall v: Sextet ensures Digit(v) != c { DigitValue(Digit(v), v); }
    if |s| > 2 { PlainText(s[3..], c); }
  }
}
