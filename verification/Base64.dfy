/** Base64 with the standard alphabet and no padding (RFC 4648, sections 4 and 3.2), and its lenient decoder. */
module Base64 {
  import opened Prelude

  type Byte = b: int | 0 <= b < 256
  type Sextet = d: int | 0 <= d < 64

  // --------------------------------------------------------------- alphabet

  function CharOf(d: Sextet): char {
    if d < 26 then ('A' as int + d) as char
    else if d < 52 then ('a' as int + (d - 26)) as char
    else if d < 62 then ('0' as int + (d - 52)) as char
    else if d == 62 then '+' else '/'
  }

  function SextetOf(c: char): Option<Sextet> {
    if 'A' <= c <= 'Z' then Some(c as int - 'A' as int)
    else if 'a' <= c <= 'z' then Some(c as int - 'a' as int + 26)
    else if '0' <= c <= '9' then Some(c as int - '0' as int + 52)
    else if c == '+' then Some(62)
    else if c == '/' then Some(63)
    else None
  }

  /** The alphabet is read back exactly; nothing else is read. */
  lemma AlphabetReads(d: Sextet, c: char)
    ensures SextetOf(c) == Some(d) <==> c == CharOf(d)
  {
  }

  /** It is the standard's table: capitals, small letters, digits, plus and slash, each block in order. */
  lemma AlphabetIsStandard()
    ensures CharOf(0) == 'A' && CharOf(25) == 'Z' && CharOf(26) == 'a' && CharOf(51) == 'z'
    ensures CharOf(52) == '0' && CharOf(61) == '9' && CharOf(62) == '+' && CharOf(63) == '/'
    ensures forall d :: 0 <= d < 61 && d != 25 && d != 51 ==> CharOf(d + 1) as int == CharOf(d) as int + 1
  {
  }

  predicate InAlphabet(c: char) {
    exists d: Sextet :: CharOf(d) == c
  }

  lemma ReadableIffInAlphabet(c: char)
    ensures SextetOf(c).Some? <==> InAlphabet(c)
  {
    if SextetOf(c).Some? { AlphabetReads(SextetOf(c).value, c); }
    if d: Sextet :| CharOf(d) == c { AlphabetReads(d, c); }
  }

  function Chars(digits: seq<Sextet>): string {
    seq(|digits|, i requires 0 <= i < |digits| => CharOf(digits[i]))
  }

  /** None when a character is outside the alphabet; line breaks are skipped. */
  function Read(s: string): Option<seq<Sextet>> {
    if s == "" then Some([])
    else if s[0] == '\r' || s[0] == '\n' then Read(s[1..])
    else
      var first, rest := SextetOf(s[0]), Read(s[1..]);
      if first.None? || rest.None? then None else Some([first.value] + rest.value)
  }

  lemma {:induction false} ReadChars(digits: seq<Sextet>)
    ensures Read(Chars(digits)) == Some(digits)
  {
    if digits != [] {
      ReadChars(digits[1..]);
      AlphabetReads(digits[0], CharOf(digits[0]));
      assert Chars(digits)[1..] == Chars(digits[1..]);
      assert digits == [digits[0]] + digits[1..];
    }
  }

  /** The text without its line breaks. */
  function Kept(s: string): string {
    if s == "" then "" else (if s[0] == '\r' || s[0] == '\n' then "" else [s[0]]) + Kept(s[1..])
  }

  /** Reading takes exactly the texts of alphabet characters and line breaks, and reads the characters in order. */
  lemma {:induction false} ReadMeaning(s: string)
    ensures Read(s).Some? <==> forall c :: c in Kept(s) ==> InAlphabet(c)
    ensures Read(s).Some? ==> Chars(Read(s).value) == Kept(s)
  {
    if s != "" {
      ReadMeaning(s[1..]);
      if s[0] != '\r' && s[0] != '\n' {
        ReadableIffInAlphabet(s[0]);
        assert Kept(s) == [s[0]] + Kept(s[1..]);
        assert forall c :: c in Kept(s) <==> c == s[0] || c in Kept(s[1..]);
        if Read(s).Some? {
          AlphabetReads(SextetOf(s[0]).value, s[0]);
          assert Chars(Read(s).value) == [s[0]] + Chars(Read(s[1..]).value);
        }
      }
    }
  }

  /** Decoding refuses a foreign character and a single left-over character, and nothing else. */
  lemma {:induction false} DecodeAccepts(s: string)
    ensures Decode(s).Some? <==> (forall c :: c in Kept(s) ==> InAlphabet(c)) && |Kept(s)| % 4 != 1
  {
    ReadMeaning(s);
    if Read(s).Some? { ByteCount(Read(s).value); }
  }

  // ---------------------------------------------------------------- quanta

  function First(b0: Byte): Sextet { b0 / 4 }
  function Second(b0: Byte, b1: Byte): Sextet { b0 % 4 * 16 + b1 / 16 }
  function Third(b1: Byte, b2: Byte): Sextet { b1 % 16 * 4 + b2 / 64 }
  function Fourth(b2: Byte): Sextet { b2 % 64 }

  /** Three bytes become four sextets; one or two bytes left over become two or three. */
  function Digits(bytes: seq<Byte>): seq<Sextet> {
    if bytes == [] then []
    else if |bytes| == 1 then [First(bytes[0]), Second(bytes[0], 0)]
    else if |bytes| == 2 then [First(bytes[0]), Second(bytes[0], bytes[1]), Third(bytes[1], 0)]
    else
      [First(bytes[0]), Second(bytes[0], bytes[1]), Third(bytes[1], bytes[2]), Fourth(bytes[2])] + Digits(bytes[3..])
  }

  function Byte0(d0: Sextet, d1: Sextet): Byte { d0 * 4 + d1 / 16 }
  function Byte1(d1: Sextet, d2: Sextet): Byte { d1 % 16 * 16 + d2 / 4 }
  function Byte2(d2: Sextet, d3: Sextet): Byte { d2 % 4 * 64 + d3 }

  /** One sextet left over is an error; bits left over are dropped without a look. */
  function Bytes(digits: seq<Sextet>): Option<seq<Byte>> {
    if digits == [] then Some([])
    else if |digits| == 1 then None
    else if |digits| == 2 then Some([Byte0(digits[0], digits[1])])
    else if |digits| == 3 then Some([Byte0(digits[0], digits[1]), Byte1(digits[1], digits[2])])
    else
      var rest := Bytes(digits[4..]);
      if rest.None? then None
      else Some([Byte0(digits[0], digits[1]), Byte1(digits[1], digits[2]), Byte2(digits[2], digits[3])] + rest.value)
  }

  lemma BytesBack(b0: Byte, b1: Byte, b2: Byte)
    ensures Byte0(First(b0), Second(b0, b1)) == b0
    ensures Byte1(Second(b0, b1), Third(b1, b2)) == b1
    ensures Byte2(Third(b1, b2), Fourth(b2)) == b2
  {
  }

  lemma {:induction false} BytesOfDigits(bytes: seq<Byte>)
    ensures Bytes(Digits(bytes)) == Some(bytes)
  {
    if |bytes| >= 3 {
      BytesOfDigits(bytes[3..]);
      BytesOfGroup(bytes[0], bytes[1], bytes[2], Digits(bytes[3..]));
      assert bytes == [bytes[0], bytes[1], bytes[2]] + bytes[3..];
    } else if bytes != [] {
      BytesOfTail(bytes[0], if |bytes| == 2 then bytes[1] else 0);
      assert bytes == if |bytes| == 2 then [bytes[0], bytes[1]] else [bytes[0]];
    }
  }

  lemma {:induction false} BytesOfGroup(b0: Byte, b1: Byte, b2: Byte, rest: seq<Sextet>)
    ensures var digits := [First(b0), Second(b0, b1), Third(b1, b2), Fourth(b2)] + rest;
            Bytes(digits) == if Bytes(rest).None? then None else Some([b0, b1, b2] + Bytes(rest).value)
  {
    var digits := [First(b0), Second(b0, b1), Third(b1, b2), Fourth(b2)] + rest;
    BytesBack(b0, b1, b2);
    assert digits[4..] == rest;
  }

  lemma BytesOfTail(b0: Byte, b1: Byte)
    ensures Bytes([First(b0), Second(b0, 0)]) == Some([b0])
    ensures Bytes([First(b0), Second(b0, b1), Third(b1, 0)]) == Some([b0, b1])
  {
    BytesBack(b0, 0, 0);
    BytesBack(b0, b1, 0);
    TwoSextets(First(b0), Second(b0, 0));
    ThreeSextets(First(b0), Second(b0, b1), Third(b1, 0));
  }

  lemma TwoSextets(d0: Sextet, d1: Sextet)
    ensures Bytes([d0, d1]) == Some([Byte0(d0, d1)])
  {
  }

  lemma ThreeSextets(d0: Sextet, d1: Sextet, d2: Sextet)
    ensures Bytes([d0, d1, d2]) == Some([Byte0(d0, d1), Byte1(d1, d2)])
  {
  }

  function Encode(bytes: seq<Byte>): string {
    Chars(Digits(bytes))
  }

  function Decode(s: string): Option<seq<Byte>> {
    var digits := Read(s);
    if digits.None? then None else Bytes(digits.value)
  }

  /** Every byte sequence is read back from its encoding. */
  lemma DecodeEncode(bytes: seq<Byte>)
    ensures Decode(Encode(bytes)) == Some(bytes)
  {
    ReadChars(Digits(bytes));
    BytesOfDigits(bytes);
  }

  lemma EncodeInAlphabet(bytes: seq<Byte>)
    ensures '$' !in Encode(bytes)
  {
    forall c | c in Encode(bytes) ensures SextetOf(c).Some? {
      var i :| 0 <= i < |Encode(bytes)| && Encode(bytes)[i] == c;
      AlphabetReads(Digits(bytes)[i], c);
    }
  }

  // --------------------------------------------- the standard's bit stream

  /** The i-th pair of bits of a byte, the most significant first. */
  function PairOfByte(b: Byte, i: nat): int
    requires i < 4
  {
    if i == 0 then b / 64 else if i == 1 then b / 16 % 4 else if i == 2 then b / 4 % 4 else b % 4
  }

  function PairOfSextet(d: Sextet, i: nat): int
    requires i < 3
  {
    if i == 0 then d / 16 else if i == 1 then d / 4 % 4 else d % 4
  }

  /** The k-th pair of the bit stream that the bytes, or the sextets, stand for. */
  function BytePair(bytes: seq<Byte>, k: nat): int
    requires k < 4 * |bytes|
  {
    PairOfByte(bytes[k / 4], k % 4)
  }

  function SextetPair(digits: seq<Sextet>, k: nat): int
    requires k < 3 * |digits|
  {
    PairOfSextet(digits[k / 3], k % 3)
  }

  lemma FirstPairs(b0: Byte, b1: Byte, i: nat)
    requires i < 3
    ensures PairOfSextet(First(b0), i) == PairOfByte(b0, i)
    ensures PairOfSextet(Second(b0, b1), i) == if i == 0 then PairOfByte(b0, 3) else PairOfByte(b1, i - 1)
  {
  }

  lemma LastPairs(b1: Byte, b2: Byte, i: nat)
    requires i < 3
    ensures PairOfSextet(Third(b1, b2), i) == if i < 2 then PairOfByte(b1, i + 2) else PairOfByte(b2, 0)
    ensures PairOfSextet(Fourth(b2), i) == PairOfByte(b2, i + 1)
  {
    SplitThird(b1, b2 / 64);
    SplitFourth(b2);
  }

  lemma SplitThird(b1: Byte, t: int)
    requires 0 <= t < 4
    ensures var d := b1 % 16 * 4 + t; d / 16 == b1 / 4 % 4 && d / 4 % 4 == b1 % 4 && d % 4 == t
  {
    var q := b1 / 4;
    assert b1 == 4 * q + b1 % 4 && b1 % 16 == q % 4 * 4 + b1 % 4;
    ThreePairs(q % 4, b1 % 4, t, b1 % 16 * 4 + t);
  }

  lemma SplitFourth(b2: Byte)
    ensures var d := b2 % 64; d / 16 == b2 / 16 % 4 && d / 4 % 4 == b2 / 4 % 4 && d % 4 == b2 % 4
  {
    var q, h := b2 / 4, b2 / 16;
    assert b2 == 4 * q + b2 % 4 && q == 4 * h + q % 4 && h == 4 * (b2 / 64) + h % 4;
    assert b2 % 64 == h % 4 * 16 + q % 4 * 4 + b2 % 4;
    ThreePairs(b2 / 16 % 4, q % 4, b2 % 4, b2 % 64);
  }

  lemma ThreePairs(hi: int, mid: int, lo: int, d: int)
    requires 0 <= hi < 4 && 0 <= mid < 4 && 0 <= lo < 4 && d == hi * 16 + mid * 4 + lo
    ensures d / 16 == hi && d / 4 % 4 == mid && d % 4 == lo
  {
  }

  /** Every sextet is a stretch of its group's bytes, and the other way round. */
  lemma Regrouped(d0: Sextet, d1: Sextet, d2: Sextet, d3: Sextet)
    ensures First(Byte0(d0, d1)) == d0
    ensures Second(Byte0(d0, d1), Byte1(d1, d2)) == d1
    ensures Third(Byte1(d1, d2), Byte2(d2, d3)) == d2
    ensures Fourth(Byte2(d2, d3)) == d3
  {
  }

  /** A byte of a group, and the place in the group's four sextets where its pair k lies. */
  function InGroup(b0: Byte, b1: Byte, b2: Byte, k: nat): int
    requires k < 12
  {
    if k < 4 then PairOfByte(b0, k) else if k < 8 then PairOfByte(b1, k - 4) else PairOfByte(b2, k - 8)
  }

  lemma GroupPairs(b0: Byte, b1: Byte, b2: Byte, k: nat)
    requires k < 12
    ensures InGroup(b0, b1, b2, k)
         == if k < 3 then PairOfSextet(First(b0), k)
            else if k < 6 then PairOfSextet(Second(b0, b1), k - 3)
            else if k < 9 then PairOfSextet(Third(b1, b2), k - 6)
            else PairOfSextet(Fourth(b2), k - 9)
  {
    FirstPairs(b0, b1, k % 3);
    LastPairs(b1, b2, k % 3);
  }

  lemma {:induction false} DigitCount(bytes: seq<Byte>)
    ensures |Digits(bytes)| == (4 * |bytes| + 2) / 3
  {
    if |bytes| >= 3 { DigitCount(bytes[3..]); }
  }

  /** The sextets carry the bit stream of the bytes, filled with zeros to a whole sextet. */
  lemma {:induction false} EncodingKeepsBits(bytes: seq<Byte>, k: nat)
    requires k < 3 * |Digits(bytes)|
    ensures SextetPair(Digits(bytes), k) == if k < 4 * |bytes| then BytePair(bytes, k) else 0
    decreases |bytes|
  {
    DigitCount(bytes);
    if k >= 12 {
      var rest := bytes[3..];
      DigitCount(rest);
      EncodingKeepsBits(rest, k - 12);
      assert Digits(bytes)[4..] == Digits(rest);
      assert SextetPair(Digits(bytes), k) == SextetPair(Digits(rest), k - 12) by { ShiftPlaces(k); }
      assert k < 4 * |bytes| ==> BytePair(bytes, k) == BytePair(rest, k - 12) by { ShiftPlaces(k); }
    } else {
      GroupEncodes(bytes, k);
    }
  }

  lemma ShiftPlaces(k: nat)
    requires k >= 12
    ensures (k - 12) / 3 == k / 3 - 4 && (k - 12) % 3 == k % 3
    ensures (k - 12) / 4 == k / 4 - 3 && (k - 12) % 4 == k % 4
  {
  }

  lemma {:induction false} GroupEncodes(bytes: seq<Byte>, k: nat)
    requires bytes != [] && k < 12 && k < 3 * |Digits(bytes)| && |Digits(bytes)| == (4 * |bytes| + 2) / 3
    ensures SextetPair(Digits(bytes), k) == if k < 4 * |bytes| then BytePair(bytes, k) else 0
  {
    var digits := Digits(bytes);
    var b1 := if |bytes| > 1 then bytes[1] else 0;
    var b2 := if |bytes| > 2 then bytes[2] else 0;
    assert digits[0] == First(bytes[0]) && digits[1] == Second(bytes[0], b1);
    assert |digits| > 2 ==> digits[2] == Third(b1, b2);
    assert |digits| > 3 ==> digits[3] == Fourth(b2);
    GroupPairs(bytes[0], b1, b2, k);
    SextetPlace(digits, k);
    if k < 4 * |bytes| { BytePlace(bytes, k); }
  }

  lemma {:induction false} ByteCount(digits: seq<Sextet>)
    ensures Bytes(digits).None? <==> |digits| % 4 == 1
    ensures Bytes(digits).Some? ==> |Bytes(digits).value| == |digits| * 3 / 4
    decreases |digits|
  {
    if |digits| >= 4 { ByteCount(digits[4..]); }
  }

  /** Decoding keeps the bit stream too, up to the last whole byte; only a single left-over sextet is refused. */
  lemma {:induction false} DecodingKeepsBits(digits: seq<Sextet>)
    ensures Bytes(digits).None? <==> |digits| % 4 == 1
    ensures Bytes(digits).Some? ==> |Bytes(digits).value| == |digits| * 3 / 4
    ensures Bytes(digits).Some? ==>
              forall k :: 0 <= k < 4 * |Bytes(digits).value| ==>
                BytePair(Bytes(digits).value, k) == SextetPair(digits, k)
    decreases |digits|
  {
    ByteCount(digits);
    if |digits| >= 4 { DecodingKeepsBits(digits[4..]); }
    if Bytes(digits).Some? {
      forall k | 0 <= k < 4 * |Bytes(digits).value| ensures BytePair(Bytes(digits).value, k) == SextetPair(digits, k) {
        if k >= 12 {
          LaterDecodes(digits, Bytes(digits).value, k);
        } else {
          GroupDecodes(digits, Bytes(digits).value, k);
        }
      }
    }
  }

  lemma {:induction false} LaterDecodes(digits: seq<Sextet>, bytes: seq<Byte>, k: nat)
    requires |digits| >= 4 && Bytes(digits) == Some(bytes) && |bytes| == |digits| * 3 / 4 && 12 <= k < 4 * |bytes|
    requires var rest := Bytes(digits[4..]);
             && rest.Some? && |rest.value| == |bytes| - 3
             && BytePair(rest.value, k - 12) == SextetPair(digits[4..], k - 12)
    ensures BytePair(bytes, k) == SextetPair(digits, k)
  {
    assert bytes[3..] == Bytes(digits[4..]).value;
    ShiftPlaces(k);
  }

  lemma {:induction false} GroupDecodes(digits: seq<Sextet>, bytes: seq<Byte>, k: nat)
    requires Bytes(digits) == Some(bytes) && |bytes| == |digits| * 3 / 4 && k < 12 && k < 4 * |bytes|
    ensures BytePair(bytes, k) == SextetPair(digits, k)
  {
    var d2 := if |digits| > 2 then digits[2] else 0;
    var d3 := if |digits| > 3 then digits[3] else 0;
    Regrouped(digits[0], digits[1], d2, d3);
    assert bytes[0] == Byte0(digits[0], digits[1]);
    assert |digits| > 2 ==> bytes[1] == Byte1(digits[1], d2);
    assert |digits| > 3 ==> bytes[2] == Byte2(d2, d3);
    SextetPlace(digits, k);
    BytePlace(bytes, k);
    GroupPairs(Byte0(digits[0], digits[1]), Byte1(digits[1], d2), Byte2(d2, d3), k);
  }

  lemma BytePlace(bytes: seq<Byte>, k: nat)
    requires k < 12 && k < 4 * |bytes|
    ensures BytePair(bytes, k)
         == InGroup(bytes[0], if |bytes| > 1 then bytes[1] else 0, if |bytes| > 2 then bytes[2] else 0, k)
  {
  }

  lemma SextetPlace(digits: seq<Sextet>, k: nat)
    requires k < 12 && k < 3 * |digits|
    ensures SextetPair(digits, k)
         == if k < 3 then PairOfSextet(digits[0], k)
            else if k < 6 then PairOfSextet(digits[1], k - 3)
            else if k < 9 then PairOfSextet(digits[2], k - 6)
            else PairOfSextet(digits[3], k - 9)
  {
    assert k >= 3 ==> k % 3 == if k < 6 then k - 3 else if k < 9 then k - 6 else k - 9;
  }
}
