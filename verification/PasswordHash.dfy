/** The stored form of a password hash: printed by Hash, parsed and compared by Verify. */
module PasswordHash {
  import opened Prelude
  import opened Base64

  const UINT32: int := 0x1_0000_0000
  const UINT8: int := 0x100

  datatype Params = Params(memory: int, iterations: int, parallelism: int)

  datatype Stored = Stored(params: Params, salt: seq<Byte>, key: seq<Byte>)

  datatype Verdict = Accepted | InvalidPassword | InvalidHash

  /** Argon2id: password, salt, parameters and key length; any function whose result has that length. */
  type Derive = (seq<Byte>, seq<Byte>, Params, int) -> seq<Byte>

  ghost predicate GivesKeyLength(derive: Derive) {
    forall password, salt, params, n :: 0 <= n < UINT32 ==> |derive(password, salt, params, n)| == n
  }

  ghost predicate Storable(p: Params) {
    0 <= p.memory < UINT32 && 0 <= p.iterations < UINT32 && 0 <= p.parallelism < UINT8
  }

  // ---------------------------------------------------------------- decimal

  predicate IsDigit(c: char) { '0' <= c <= '9' }

  function DigitChar(d: int): (c: char)
    requires 0 <= d < 10
    ensures IsDigit(c) && c as int - '0' as int == d
  {
    ('0' as int + d) as char
  }

  function Decimal(n: nat): string {
    if n < 10 then [DigitChar(n)] else Decimal(n / 10) + [DigitChar(n % 10)]
  }

  function Value(s: string): nat
    requires forall c :: c in s ==> IsDigit(c)
    decreases |s|
  {
    if s == "" then 0
    else
      assert IsDigit(s[|s| - 1]);
      10 * Value(s[..|s| - 1]) + (s[|s| - 1] as int - '0' as int)
  }

  predicate AllDigits(s: string) {
    forall c :: c in s ==> IsDigit(c)
  }

  /** Base ten: no sign, no space, not empty, in range. Leading zeros pass. */
  function ParseUint(s: string, bound: int): Option<int> {
    if s == "" || !AllDigits(s) || Value(s) >= bound then None else Some(Value(s))
  }

  lemma {:induction false} DecimalReads(n: nat)
    ensures Decimal(n) != "" && AllDigits(Decimal(n)) && Value(Decimal(n)) == n
    ensures n > 0 ==> Decimal(n)[0] != '0'
    ensures n == 0 ==> Decimal(n) == "0"
  {
    if n >= 10 {
      DecimalReads(n / 10);
      assert Decimal(n)[..|Decimal(n)| - 1] == Decimal(n / 10);
    } else {
      assert Decimal(n)[..0] == "";
    }
  }

  // ------------------------------------------------------------------ parts

  /** The parts between separators; one more than there are separators. */
  function Split(s: string, sep: char): (parts: seq<string>)
    ensures |parts| >= 1
  {
    if s == "" then [""]
    else
      var rest := Split(s[1..], sep);
      if s[0] == sep then [""] + rest else [[s[0]] + rest[0]] + rest[1..]
  }

  function Join(parts: seq<string>, sep: char): string
    requires |parts| >= 1
  {
    if |parts| == 1 then parts[0] else parts[0] + [sep] + Join(parts[1..], sep)
  }

  lemma {:induction false} SplitPart(part: string, rest: string, sep: char)
    requires sep !in part
    ensures Split(part + [sep] + rest, sep) == [part] + Split(rest, sep)
  {
    var s := part + [sep] + rest;
    if part == "" {
      assert s[1..] == rest;
    } else {
      SplitPart(part[1..], rest, sep);
      assert s[1..] == part[1..] + [sep] + rest;
      assert [part[0]] + part[1..] == part;
    }
  }

  lemma {:induction false} SplitWhole(part: string, sep: char)
    requires sep !in part
    ensures Split(part, sep) == [part]
  {
    if part != "" {
      SplitWhole(part[1..], sep);
      assert [part[0]] + part[1..] == part;
    }
  }

  /** Splitting undoes joining whenever no part holds the separator. */
  lemma {:induction false} SplitJoin(parts: seq<string>, sep: char)
    requires |parts| >= 1 && forall i :: 0 <= i < |parts| ==> sep !in parts[i]
    ensures Split(Join(parts, sep), sep) == parts
  {
    if |parts| == 1 {
      SplitWhole(parts[0], sep);
    } else {
      SplitJoin(parts[1..], sep);
      SplitPart(parts[0], Join(parts[1..], sep), sep);
    }
  }

  /** And joining undoes splitting; no part holds the separator. */
  lemma {:induction false} JoinSplit(s: string, sep: char)
    ensures Join(Split(s, sep), sep) == s
    ensures forall i :: 0 <= i < |Split(s, sep)| ==> sep !in Split(s, sep)[i]
  {
    if s != "" {
      var rest := Split(s[1..], sep);
      JoinSplit(s[1..], sep);
      assert s == [s[0]] + s[1..];
      if s[0] == sep {
        assert ([""] + rest)[1..] == rest;
      } else {
        var parts := [[s[0]] + rest[0]] + rest[1..];
        assert parts[1..] == rest[1..];
      }
    }
  }

  // -------------------------------------------------------- print and parse

  function Parts(h: Stored): seq<string>
    requires h.params.memory >= 0 && h.params.iterations >= 0 && h.params.parallelism >= 0
  {
    ["argon2id", Decimal(h.params.memory), Decimal(h.params.iterations), Decimal(h.params.parallelism),
     Encode(h.salt), Encode(h.key)]
  }

  function Print(h: Stored): string
    requires h.params.memory >= 0 && h.params.iterations >= 0 && h.params.parallelism >= 0
  {
    Join(Parts(h), '$')
  }

  function Parse(s: string): Option<Stored> {
    var parts := Split(s, '$');
    if |parts| != 6 || parts[0] != "argon2id" then None
    else
      var memory := ParseUint(parts[1], UINT32);
      var iterations := ParseUint(parts[2], UINT32);
      var parallelism := ParseUint(parts[3], UINT8);
      var salt, key := Decode(parts[4]), Decode(parts[5]);
      if memory.None? || iterations.None? || parallelism.None? || salt.None? || key.None? then None
      else Some(Stored(Params(memory.value, iterations.value, parallelism.value), salt.value, key.value))
  }

  /** The stored form, written out. */
  lemma PrintedForm(h: Stored)
    requires h.params.memory >= 0 && h.params.iterations >= 0 && h.params.parallelism >= 0
    ensures Print(h) == "argon2id" + "$" + (Decimal(h.params.memory) + "$" + (Decimal(h.params.iterations) + "$"
                        + (Decimal(h.params.parallelism) + "$" + (Encode(h.salt) + "$" + Encode(h.key)))))
  {
    var p := Parts(h);
    assert p[1..][1..] == p[2..] && p[2..][1..] == p[3..] && p[3..][1..] == p[4..] && p[4..][1..] == p[5..];
    assert Join(p[5..], '$') == p[5] && Join(p[4..], '$') == p[4] + "$" + p[5];
    assert Join(p[3..], '$') == p[3] + "$" + Join(p[4..], '$');
    assert Join(p[2..], '$') == p[2] + "$" + Join(p[3..], '$');
    assert Join(p[1..], '$') == p[1] + "$" + Join(p[2..], '$');
  }

  /** An unsigned decimal below the bound; leading zeros are allowed. */
  predicate Numeral(s: string, bound: int) {
    s != "" && AllDigits(s) && Value(s) < bound
  }

  /** Six parts: the name, three numbers that fit 32, 32 and 8 bits, two texts that decode. */
  predicate WellFormed(parts: seq<string>) {
    && |parts| == 6 && (forall i :: 0 <= i < 6 ==> '$' !in parts[i])
    && parts[0] == "argon2id"
    && Numeral(parts[1], 4294967296) && Numeral(parts[2], 4294967296) && Numeral(parts[3], 256)
    && Decode(parts[4]).Some? && Decode(parts[5]).Some?
  }

  /** A string parses exactly when it is six well-formed parts, and to what they say. */
  lemma ParseReadsParts(s: string)
    ensures Parse(s).Some? <==> exists parts :: WellFormed(parts) && s == Join(parts, '$')
    ensures forall parts :: WellFormed(parts) && s == Join(parts, '$') ==>
              Parse(s) == Some(Stored(Params(Value(parts[1]), Value(parts[2]), Value(parts[3])),
                                      Decode(parts[4]).value, Decode(parts[5]).value))
  {
    JoinSplit(s, '$');
    if Parse(s).Some? {
      assert WellFormed(Split(s, '$')) && s == Join(Split(s, '$'), '$');
    }
    forall parts | WellFormed(parts) && s == Join(parts, '$') ensures Split(s, '$') == parts {
      SplitJoin(parts, '$');
    }
  }

  /** A printed hash parses to what was printed, and to nothing unless its numbers fit their fields. */
  lemma ParsePrint(h: Stored)
    requires h.params.memory >= 0 && h.params.iterations >= 0 && h.params.parallelism >= 0
    ensures Storable(h.params) <==> Parse(Print(h)) == Some(h)
    ensures !Storable(h.params) <==> Parse(Print(h)).None?
  {
    DecimalReads(h.params.memory);
    DecimalReads(h.params.iterations);
    DecimalReads(h.params.parallelism);
    EncodeInAlphabet(h.salt);
    EncodeInAlphabet(h.key);
    assert forall i :: 0 <= i < 6 ==> '$' !in Parts(h)[i] by {
      assert '$' !in "argon2id" && !IsDigit('$');
    }
    SplitJoin(Parts(h), '$');
    DecodeEncode(h.salt);
    DecodeEncode(h.key);
  }

  /** Whatever parses can be printed again and parses to the same: printing picks one spelling of each hash. */
  lemma PrintParse(s: string)
    requires Parse(s).Some?
    ensures Parse(Print(Parse(s).value)) == Parse(s)
  {
    ParsePrint(Parse(s).value);
  }

  /** Two hashes with one printed form are the same hash. */
  lemma PrintInjective(a: Stored, b: Stored)
    requires Storable(a.params) && Storable(b.params) && Print(a) == Print(b)
    ensures a == b
  {
    ParsePrint(a);
    ParsePrint(b);
  }

  // ---------------------------------------------------------- hash and verify

  function Hash(derive: Derive, p: Params, keyLength: int, password: seq<Byte>, salt: seq<Byte>): string
    requires Storable(p)
  {
    Print(Stored(p, salt, derive(password, salt, p, keyLength)))
  }

  function Verify(derive: Derive, stored: string, password: seq<Byte>): Verdict {
    Judge(derive, Parse(stored), password)
  }

  /** The key is derived again at the stored key's own length, cut to 32 bits. */
  function Judge(derive: Derive, h: Option<Stored>, password: seq<Byte>): Verdict {
    if h.None? then InvalidHash
    else if derive(password, h.value.salt, h.value.params, |h.value.key| % UINT32) != h.value.key then InvalidPassword
    else Accepted
  }

  /**
   A hash is never malformed; its own password verifies, and another password
   verifies exactly when it derives the same key.
   */
  lemma VerifyHash(
      derive: Derive, p: Params, keyLength: int, password: seq<Byte>, salt: seq<Byte>, attempt: seq<Byte>)
    requires GivesKeyLength(derive) && Storable(p) && 0 <= keyLength < UINT32
    ensures var stored := Hash(derive, p, keyLength, password, salt);
            && Verify(derive, stored, password) == Accepted
            && Verify(derive, stored, attempt) != InvalidHash
            && (Verify(derive, stored, attempt) == Accepted
                <==> derive(attempt, salt, p, keyLength) == derive(password, salt, p, keyLength))
  {
    var key := derive(password, salt, p, keyLength);
    var stored := Stored(p, salt, key);
    ParsePrint(stored);
    VerifyParsed(derive, Print(stored), stored, password);
    VerifyParsed(derive, Print(stored), stored, attempt);
  }

  /** A stored string is called malformed exactly when it is not six well-formed parts. */
  lemma VerifyRefusesMalformed(derive: Derive, s: string, password: seq<Byte>)
    ensures Verify(derive, s, password) == InvalidHash
            <==> forall parts :: WellFormed(parts) ==> s != Join(parts, '$')
  {
    ParseReadsParts(s);
  }

  /** Against a well-formed hash the verdict compares the derived key with the stored one, nothing else. */
  lemma VerifyParsed(derive: Derive, s: string, h: Stored, password: seq<Byte>)
    requires Parse(s) == Some(h) && |h.key| < UINT32
    ensures Verify(derive, s, password)
         == if derive(password, h.salt, h.params, |h.key|) == h.key then Accepted else InvalidPassword
  {
    assert Verify(derive, s, password) == Judge(derive, Some(h), password);
  }
}
