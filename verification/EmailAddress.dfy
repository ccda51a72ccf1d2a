/** The canonical form of an e-mail address, and what it identifies. */
module EmailAddress {
  import opened Prelude

  /** Lower-casing, character by character, and white space, as the text library has them. */
  datatype Charset = Charset(lower: char -> char, space: char -> bool)

  ghost predicate Lawful(cs: Charset) {
    && (forall c :: cs.lower(cs.lower(c)) == cs.lower(c))
    && (forall c :: cs.space(cs.lower(c)) == cs.space(c))
    && (forall c :: (cs.lower(c) == '@' <==> c == '@') && (cs.lower(c) == '.' <==> c == '.')
                    && (cs.lower(c) == '+' <==> c == '+'))
    && (forall c :: 'a' <= c <= 'z' ==> cs.lower(c) == c)
    && (forall c :: 'a' <= c <= 'z' || c == '@' || c == '.' || c == '+' ==> !cs.space(c))
  }

  datatype Rule = Rule(canonicalDomain: string, stripDots: bool, stripPlusTag: bool)

  const RULES: map<string, Rule> :=
    map["gmail.com" := Rule("gmail.com", true, true), "googlemail.com" := Rule("gmail.com", true, true)]

  function Lower(cs: Charset, s: string): (r: string)
    ensures |r| == |s|
  {
    seq(|s|, i requires 0 <= i < |s| => cs.lower(s[i]))
  }

  /** Every character is lower-cased, in its place, and nothing else happens. */
  lemma LowerIsPointwise(cs: Charset, s: string)
    ensures |Lower(cs, s)| == |s| && forall i :: 0 <= i < |s| ==> Lower(cs, s)[i] == cs.lower(s[i])
  {
  }

  /** The strings differ at most in case, character by character. */
  predicate SameIgnoringCase(cs: Charset, a: string, b: string) {
    |a| == |b| && forall i :: 0 <= i < |a| ==> cs.lower(a[i]) == cs.lower(b[i])
  }

  lemma LowerDecidesCase(cs: Charset, a: string, b: string)
    ensures Lower(cs, a) == Lower(cs, b) <==> SameIgnoringCase(cs, a, b)
  {
    if Lower(cs, a) == Lower(cs, b) {
      forall i | 0 <= i < |a| ensures cs.lower(a[i]) == cs.lower(b[i]) {
        assert Lower(cs, a)[i] == Lower(cs, b)[i];
      }
    }
  }

  function TrimLeft(cs: Charset, s: string): string {
    if s != "" && cs.space(s[0]) then TrimLeft(cs, s[1..]) else s
  }

  function TrimRight(cs: Charset, s: string): string
    decreases |s|
  {
    if s != "" && cs.space(s[|s| - 1]) then TrimRight(cs, s[..|s| - 1]) else s
  }

  function Trim(cs: Charset, s: string): string {
    TrimRight(cs, TrimLeft(cs, s))
  }

  /** Just after the last '@', or 0 when there is none. */
  function AfterLastAt(s: string): (n: nat)
    ensures n <= |s| && (n > 0 ==> s[n - 1] == '@') && '@' !in s[n..]
    decreases |s|
  {
    if s == "" then 0 else if s[|s| - 1] == '@' then |s| else AfterLastAt(s[..|s| - 1])
  }

  /** Up to the first '+'. */
  function CutAtPlus(s: string): string {
    if s == "" || s[0] == '+' then "" else [s[0]] + CutAtPlus(s[1..])
  }

  function WithoutDots(s: string): string {
    if s == "" then "" else (if s[0] == '.' then "" else [s[0]]) + WithoutDots(s[1..])
  }

  function ApplyRule(rule: Rule, local: string): string {
    var cut := if rule.stripPlusTag then CutAtPlus(local) else local;
    (if rule.stripDots then WithoutDots(cut) else cut) + "@" + rule.canonicalDomain
  }

  function NormalizeEmail(cs: Charset, email: string): string {
    Canonicalize(Lower(cs, Trim(cs, email)))
  }

  function Canonicalize(e: string): string {
    var n := AfterLastAt(e);
    if n == 0 || e[n..] !in RULES then e else ApplyRule(RULES[e[n..]], e[..n - 1])
  }

  // ----------------------------------------------------------- basic facts

  predicate Trimmed(cs: Charset, s: string) {
    s != "" ==> !cs.space(s[0]) && !cs.space(s[|s| - 1])
  }

  lemma {:induction false} TrimRightTrims(cs: Charset, s: string)
    ensures var r := TrimRight(cs, s); r <= s && (r != "" ==> !cs.space(r[|r| - 1]))
    decreases |s|
  {
    if s != "" && cs.space(s[|s| - 1]) { TrimRightTrims(cs, s[..|s| - 1]); }
  }

  lemma {:induction false} TrimLeftTrims(cs: Charset, s: string)
    ensures var r := TrimLeft(cs, s); r != "" ==> !cs.space(r[0])
  {
    if s != "" && cs.space(s[0]) { TrimLeftTrims(cs, s[1..]); }
  }

  lemma TrimTrims(cs: Charset, s: string)
    ensures Trimmed(cs, Trim(cs, s))
    ensures Trimmed(cs, s) ==> Trim(cs, s) == s
  {
    TrimLeftTrims(cs, s);
    TrimRightTrims(cs, TrimLeft(cs, s));
  }

  lemma {:induction false} TrimRightLower(cs: Charset, s: string)
    requires Lawful(cs)
    ensures TrimRight(cs, Lower(cs, s)) == Lower(cs, TrimRight(cs, s))
    decreases |s|
  {
    if s != "" && cs.space(s[|s| - 1]) {
      TrimRightLower(cs, s[..|s| - 1]);
      assert Lower(cs, s)[..|s| - 1] == Lower(cs, s[..|s| - 1]);
    }
  }

  lemma {:induction false} TrimLeftLower(cs: Charset, s: string)
    requires Lawful(cs)
    ensures TrimLeft(cs, Lower(cs, s)) == Lower(cs, TrimLeft(cs, s))
  {
    if s != "" && cs.space(s[0]) {
      TrimLeftLower(cs, s[1..]);
      assert Lower(cs, s)[1..] == Lower(cs, s[1..]);
    }
  }

  lemma TrimLower(cs: Charset, s: string)
    requires Lawful(cs)
    ensures Trim(cs, Lower(cs, s)) == Lower(cs, Trim(cs, s))
  {
    TrimLeftLower(cs, s);
    TrimRightLower(cs, TrimLeft(cs, s));
  }

  lemma LowerConcat(cs: Charset, a: string, b: string)
    ensures Lower(cs, a + b) == Lower(cs, a) + Lower(cs, b)
  {
  }

  lemma {:induction false} LastAt(local: string, domain: string)
    requires '@' !in domain
    ensures AfterLastAt(local + "@" + domain) == |local| + 1
    decreases |domain|
  {
    var s := local + "@" + domain;
    if domain != "" {
      var shorter := domain[..|domain| - 1];
      assert s[..|s| - 1] == local + "@" + shorter;
      assert domain[|domain| - 1] in domain;
      LastAt(local, shorter);
    }
  }

  lemma {:induction false} CutConcat(a: string, b: string)
    ensures '+' in a ==> CutAtPlus(a + b) == CutAtPlus(a)
    ensures '+' !in a ==> CutAtPlus(a + b) == a + CutAtPlus(b)
  {
    if a == "" {
      assert a + b == b;
    } else {
      CutConcat(a[1..], b);
      assert (a + b)[1..] == a[1..] + b;
      assert a == [a[0]] + a[1..];
    }
  }

  lemma {:induction false} CutIsPrefix(s: string)
    ensures '+' !in CutAtPlus(s)
    ensures if '+' in s then |CutAtPlus(s)| < |s| && s == CutAtPlus(s) + "+" + s[|CutAtPlus(s)| + 1..]
            else CutAtPlus(s) == s
  {
    if s != "" && s[0] != '+' {
      var rest := s[1..];
      CutIsPrefix(rest);
      assert s == [s[0]] + rest && CutAtPlus(s) == [s[0]] + CutAtPlus(rest);
      if '+' in rest { TagFollows(s[0], rest, CutAtPlus(rest)); }
    }
  }

  lemma TagFollows(c: char, rest: string, cut: string)
    requires |cut| < |rest| && rest == cut + "+" + rest[|cut| + 1..]
    ensures var s, longer := [c] + rest, [c] + cut;
            s == longer + "+" + s[|longer| + 1..]
  {
    var s, longer := [c] + rest, [c] + cut;
    assert s[|longer| + 1..] == rest[|cut| + 1..];
  }

  lemma {:induction false} DotsCons(c: char, rest: string)
    ensures WithoutDots([c] + rest) == (if c == '.' then "" else [c]) + WithoutDots(rest)
  {
    assert ([c] + rest)[1..] == rest;
  }

  lemma {:induction false} DotsConcat(a: string, b: string)
    ensures WithoutDots(a + b) == WithoutDots(a) + WithoutDots(b)
    decreases |a|
  {
    if a == "" {
      assert a + b == b;
    } else {
      var c, rest := a[0], a[1..];
      var head := if c == '.' then "" else [c];
      DotsConcat(rest, b);
      DotsCons(c, rest);
      DotsCons(c, rest + b);
      assert a == [c] + rest && a + b == [c] + (rest + b);
      Associate(head, WithoutDots(rest), WithoutDots(b));
    }
  }

  lemma Associate(a: string, b: string, c: string)
    ensures a + (b + c) == (a + b) + c
  {
  }

  /** Only dots go, nothing else changes. */
  lemma {:induction false} DotlessMeaning(s: string)
    ensures '.' !in WithoutDots(s)
    ensures forall c :: c in WithoutDots(s) <==> c in s && c != '.'
    ensures '.' !in s ==> WithoutDots(s) == s
  {
    if s != "" {
      DotlessMeaning(s[1..]);
      assert s == [s[0]] + s[1..];
    }
  }

  // -------------------------------------------------------- ruled addresses

  predicate Google(domain: string) {
    domain == "gmail.com" || domain == "googlemail.com"
  }

  function Mailbox(local: string): string {
    WithoutDots(CutAtPlus(local))
  }

  lemma GoogleDomain(cs: Charset, domain: string)
    requires Lawful(cs) && Google(domain)
    ensures Lower(cs, domain) == domain && '@' !in domain
    ensures domain in RULES && RULES[domain].canonicalDomain == "gmail.com"
    ensures domain != "" && !cs.space(domain[|domain| - 1])
  {
    assert domain[|domain| - 1] == 'm';
  }

  /** The canonical form of a trimmed address at a Google domain. */
  lemma NormalizeGoogle(cs: Charset, local: string, domain: string)
    requires Lawful(cs) && Google(domain) && Trimmed(cs, local + "@" + domain)
    ensures NormalizeEmail(cs, local + "@" + domain) == Mailbox(Lower(cs, local)) + "@" + "gmail.com"
  {
    var email := local + "@" + domain;
    var low := Lower(cs, local);
    GoogleDomain(cs, domain);
    TrimTrims(cs, email);
    assert Lower(cs, email) == low + "@" + domain by {
      LowerConcat(cs, local + "@", domain);
      LowerConcat(cs, local, "@");
      assert Lower(cs, "@") == "@";
    }
    CanonicalizeGoogle(low, domain);
  }

  lemma CanonicalizeGoogle(local: string, domain: string)
    requires Google(domain)
    ensures Canonicalize(local + "@" + domain) == Mailbox(local) + "@" + "gmail.com"
  {
    var e := local + "@" + domain;
    LastAt(local, domain);
    assert e[|local| + 1..] == domain && e[..|local|] == local;
    assert ApplyRule(RULES[domain], local) == Mailbox(local) + "@" + "gmail.com";
  }

  lemma LowerMailbox(cs: Charset, local: string)
    requires Lawful(cs)
    ensures '+' in Lower(cs, local) <==> '+' in local
    ensures Lower(cs, Lower(cs, local)) == Lower(cs, local)
  {
    forall i | 0 <= i < |local| ensures Lower(cs, local)[i] == '+' <==> local[i] == '+' {
    }
  }

  // ------------------------------------------------------------ idempotence

  /** The local part of an address whose domain has a rule, lower-cased and trimmed like the address. */
  function RuledLocal(cs: Charset, email: string): Option<string> {
    var e := Lower(cs, Trim(cs, email));
    var n := AfterLastAt(e);
    if n == 0 || e[n..] !in RULES then None else Some(e[..n - 1])
  }

  /** No white space comes to the front when the dots before it go. */
  predicate Stable(cs: Charset, email: string) {
    var local := RuledLocal(cs, email);
    local.Some? ==> var box := Mailbox(local.value); box == "" || !cs.space(box[0])
  }

  lemma {:induction false} SubstringOfLower(cs: Charset, s: string, t: string)
    requires Lawful(cs) && Lower(cs, s) == s && forall c :: c in t ==> c in s
    ensures Lower(cs, t) == t
  {
    forall i | 0 <= i < |t| ensures Lower(cs, t)[i] == t[i] {
      assert t[i] in s;
      var j :| 0 <= j < |s| && s[j] == t[i];
      assert Lower(cs, s)[j] == s[j];
    }
  }

  lemma MailboxIsCanonical(cs: Charset, local: string)
    requires Lawful(cs) && Lower(cs, local) == local
    ensures var box := Mailbox(local);
            Lower(cs, box) == box && '+' !in box && '.' !in box && Mailbox(box) == box
  {
    var cut := CutAtPlus(local);
    CutIsPrefix(local);
    DotlessMeaning(cut);
    assert forall c :: c in cut ==> c in local;
    SubstringOfLower(cs, local, WithoutDots(cut));
    CutIsPrefix(WithoutDots(cut));
    DotlessMeaning(WithoutDots(cut));
  }

  lemma RuledShape(cs: Charset, email: string)
    requires Lawful(cs) && RuledLocal(cs, email).Some?
    ensures var e := Lower(cs, Trim(cs, email));
            var local := RuledLocal(cs, email).value;
            && e == local + "@" + e[AfterLastAt(e)..] && Google(e[AfterLastAt(e)..])
            && Trimmed(cs, e) && Lower(cs, local) == local
            && NormalizeEmail(cs, email) == Mailbox(local) + "@" + "gmail.com"
  {
    var e := Lower(cs, Trim(cs, email));
    var n := AfterLastAt(e);
    TrimTrims(cs, email);
    assert e == e[..n - 1] + "@" + e[n..];
    LowerMailbox(cs, Trim(cs, email));
    SubstringOfLower(cs, e, e[..n - 1]);
  }

  lemma UnruledIsFixed(cs: Charset, email: string)
    requires Lawful(cs) && RuledLocal(cs, email).None?
    ensures var e := Lower(cs, Trim(cs, email)); NormalizeEmail(cs, email) == e && Lower(cs, Trim(cs, e)) == e
  {
    TrimTrims(cs, email);
    TrimLower(cs, Trim(cs, email));
    LowerMailbox(cs, Trim(cs, email));
  }

  /** Normalising twice is normalising once, exactly for the stable addresses. */
  lemma IdempotentIffStable(cs: Charset, email: string)
    requires Lawful(cs)
    ensures NormalizeEmail(cs, NormalizeEmail(cs, email)) == NormalizeEmail(cs, email) <==> Stable(cs, email)
  {
    var once := NormalizeEmail(cs, email);
    var local := RuledLocal(cs, email);
    if local.None? {
      UnruledIsFixed(cs, email);
    } else {
      var box := Mailbox(local.value);
      RuledShape(cs, email);
      MailboxIsCanonical(cs, local.value);
      if Stable(cs, email) {
        assert Trimmed(cs, box + "@" + "gmail.com");
        NormalizeGoogle(cs, box, "gmail.com");
      } else {
        NormalizeShrinks(cs, once);
      }
    }
  }

  lemma {:induction false} TrimRightShrinks(cs: Charset, s: string)
    ensures |TrimRight(cs, s)| <= |s|
    decreases |s|
  {
    if s != "" && cs.space(s[|s| - 1]) { TrimRightShrinks(cs, s[..|s| - 1]); }
  }

  lemma {:induction false} TrimLeftShrinks(cs: Charset, s: string)
    ensures |TrimLeft(cs, s)| <= |s|
  {
    if s != "" && cs.space(s[0]) { TrimLeftShrinks(cs, s[1..]); }
  }

  lemma {:induction false} DotlessShrinks(s: string)
    ensures |WithoutDots(s)| <= |s|
  {
    if s != "" { DotlessShrinks(s[1..]); }
  }

  /** A leading space is lost, and no rule makes an address longer than a trimmed one. */
  lemma NormalizeShrinks(cs: Charset, email: string)
    requires Lawful(cs) && email != "" && cs.space(email[0])
    ensures |NormalizeEmail(cs, email)| < |email|
  {
    TrimLeftShrinks(cs, email[1..]);
    TrimRightShrinks(cs, TrimLeft(cs, email));
    if RuledLocal(cs, email).Some? {
      var local := RuledLocal(cs, email).value;
      RuledShape(cs, email);
      CutIsPrefix(local);
      DotlessShrinks(CutAtPlus(local));
    }
  }

  /** An address without white space in it, once trimmed, is stable. */
  lemma NoSpaceIsStable(cs: Charset, email: string)
    requires Lawful(cs) && forall c :: c in Trim(cs, email) ==> !cs.space(c)
    ensures NormalizeEmail(cs, NormalizeEmail(cs, email)) == NormalizeEmail(cs, email)
  {
    IdempotentIffStable(cs, email);
    var local := RuledLocal(cs, email);
    if local.Some? {
      var trimmed := Trim(cs, email);
      CutIsPrefix(local.value);
      DotlessMeaning(CutAtPlus(local.value));
      forall c | c in Mailbox(local.value) ensures !cs.space(c) {
        assert c in CutAtPlus(local.value) && c in local.value;
        var i :| 0 <= i < |local.value| && local.value[i] == c;
        assert cs.lower(trimmed[i]) == c && trimmed[i] in trimmed;
      }
    }
  }

  // -------------------------------------------- what the form identifies

  /** The ways of writing one address that the normal form is meant to collapse. */
  datatype Edit =
    | Pad(space: char, front: bool)
    | Recase
    | Dot(u: string, v: string, domain: string)
    | Tag(u: string, tag: string, domain: string)
    | Alias(u: string, domain: string, other: string)

  ghost predicate Edits(cs: Charset, edit: Edit, a: string, b: string) {
    match edit
    case Pad(c, front) => cs.space(c) && b == if front then [c] + a else a + [c]
    case Recase => SameIgnoringCase(cs, a, b)
    case Dot(u, v, domain) =>
      && Google(domain) && Trimmed(cs, a) && Trimmed(cs, b)
      && a == u + v + "@" + domain && b == u + "." + v + "@" + domain
    case Tag(u, tag, domain) =>
      && Google(domain) && Trimmed(cs, a) && Trimmed(cs, b) && '+' !in u
      && a == u + "@" + domain && b == u + "+" + tag + "@" + domain
    case Alias(u, domain, other) =>
      && Google(domain) && Google(other) && Trimmed(cs, a)
      && a == u + "@" + domain && b == u + "@" + other
  }

  ghost predicate OneEdit(cs: Charset, a: string, b: string) {
    exists edit :: Edits(cs, edit, a, b) || Edits(cs, edit, b, a)
  }

  ghost predicate Path(cs: Charset, p: seq<string>, a: string, b: string) {
    && |p| > 0 && p[0] == a && p[|p| - 1] == b
    && forall i :: 0 <= i < |p| - 1 ==> OneEdit(cs, p[i], p[i + 1])
  }

  /** One address becomes the other by some sequence of such edits. */
  ghost predicate Same(cs: Charset, a: string, b: string) {
    exists p: seq<string> :: Path(cs, p, a, b)
  }

  lemma SameRefl(cs: Charset, a: string)
    ensures Same(cs, a, a)
  {
    assert Path(cs, [a], a, a);
  }

  lemma SameEdit(cs: Charset, a: string, b: string, edit: Edit)
    requires Edits(cs, edit, a, b) || Edits(cs, edit, b, a)
    ensures Same(cs, a, b)
  {
    assert OneEdit(cs, a, b);
    assert Path(cs, [a, b], a, b);
  }

  lemma SameTrans(cs: Charset, a: string, b: string, c: string)
    requires Same(cs, a, b) && Same(cs, b, c)
    ensures Same(cs, a, c)
  {
    var p: seq<string> :| Path(cs, p, a, b);
    var q: seq<string> :| Path(cs, q, b, c);
    var r := p + q[1..];
    forall i | 0 <= i < |r| - 1 ensures OneEdit(cs, r[i], r[i + 1]) {
      if i < |p| - 1 { assert OneEdit(cs, p[i], p[i + 1]); }
      else { assert OneEdit(cs, q[i + 1 - |p|], q[i + 2 - |p|]); }
    }
    assert Path(cs, r, a, c);
  }

  lemma SameSym(cs: Charset, a: string, b: string)
    requires Same(cs, a, b)
    ensures Same(cs, b, a)
  {
    var p: seq<string> :| Path(cs, p, a, b);
    var r := seq(|p|, i requires 0 <= i < |p| => p[|p| - 1 - i]);
    forall i | 0 <= i < |r| - 1 ensures OneEdit(cs, r[i], r[i + 1]) {
      assert OneEdit(cs, p[|p| - 2 - i], p[|p| - 2 - i + 1]);
    }
    assert Path(cs, r, b, a);
  }

  // -- each edit keeps the normal form

  lemma {:induction false} TrimRightPad(cs: Charset, s: string, c: char)
    requires cs.space(c)
    ensures TrimRight(cs, s + [c]) == TrimRight(cs, s)
  {
    assert (s + [c])[..|s|] == s;
  }

  lemma {:induction false} TrimLeftPad(cs: Charset, s: string, c: char)
    requires cs.space(c)
    ensures TrimLeft(cs, s + [c]) == TrimLeft(cs, s) + [c] || (TrimLeft(cs, s) == "" && TrimLeft(cs, s + [c]) == "")
  {
    if s != "" && cs.space(s[0]) {
      TrimLeftPad(cs, s[1..], c);
      assert (s + [c])[1..] == s[1..] + [c];
    } else if s == "" {
      assert (s + [c])[1..] == "";
    }
  }

  lemma PadKeeps(cs: Charset, a: string, c: char)
    requires cs.space(c)
    ensures Trim(cs, [c] + a) == Trim(cs, a) && Trim(cs, a + [c]) == Trim(cs, a)
  {
    assert ([c] + a)[1..] == a;
    TrimLeftPad(cs, a, c);
    TrimRightPad(cs, TrimLeft(cs, a), c);
  }

  lemma DotKeeps(cs: Charset, u: string, v: string)
    requires Lawful(cs)
    ensures Mailbox(Lower(cs, u + "." + v)) == Mailbox(Lower(cs, u + v))
  {
    var lu, lv := Lower(cs, u), Lower(cs, v);
    assert Lower(cs, u + "." + v) == lu + ("." + lv) && Lower(cs, u + v) == lu + lv;
    CutConcat(lu, "." + lv);
    CutConcat(lu, lv);
    CutConcat(".", lv);
    if '+' !in lu {
      DotsConcat(lu, "." + CutAtPlus(lv));
      DotsConcat(lu, CutAtPlus(lv));
      DotsConcat(".", CutAtPlus(lv));
    }
  }

  lemma TagKeeps(cs: Charset, u: string, tag: string)
    requires Lawful(cs) && '+' !in u
    ensures Mailbox(Lower(cs, u + "+" + tag)) == Mailbox(Lower(cs, u))
  {
    var lu := Lower(cs, u);
    LowerMailbox(cs, u);
    assert Lower(cs, u + "+" + tag) == lu + ("+" + Lower(cs, tag));
    CutConcat(lu, "+" + Lower(cs, tag));
    assert CutAtPlus("+" + Lower(cs, tag)) == "" && lu + "" == lu;
    CutIsPrefix(lu);
  }

  lemma EditKeeps(cs: Charset, edit: Edit, a: string, b: string)
    requires Lawful(cs) && Edits(cs, edit, a, b)
    ensures NormalizeEmail(cs, a) == NormalizeEmail(cs, b)
  {
    match edit
    case Pad(c, front) =>
      PadKeeps(cs, a, c);
    case Recase =>
      LowerDecidesCase(cs, a, b);
      TrimLower(cs, a);
      TrimLower(cs, b);
    case Dot(u, v, domain) =>
      NormalizeGoogle(cs, u + v, domain);
      NormalizeGoogle(cs, u + "." + v, domain);
      DotKeeps(cs, u, v);
    case Tag(u, tag, domain) =>
      NormalizeGoogle(cs, u, domain);
      NormalizeGoogle(cs, u + "+" + tag, domain);
      TagKeeps(cs, u, tag);
    case Alias(u, domain, other) =>
      GoogleDomain(cs, domain);
      GoogleDomain(cs, other);
      NormalizeGoogle(cs, u, domain);
      NormalizeGoogle(cs, u, other);
  }

  lemma {:induction false} PathKeeps(cs: Charset, p: seq<string>, a: string, b: string)
    requires Lawful(cs) && Path(cs, p, a, b)
    ensures NormalizeEmail(cs, a) == NormalizeEmail(cs, b)
    decreases |p|
  {
    if |p| > 1 {
      assert OneEdit(cs, p[0], p[0 + 1]);
      var edit :| Edits(cs, edit, p[0], p[1]) || Edits(cs, edit, p[1], p[0]);
      if Edits(cs, edit, p[0], p[1]) { EditKeeps(cs, edit, p[0], p[1]); } else { EditKeeps(cs, edit, p[1], p[0]); }
      forall i | 0 <= i < |p[1..]| - 1 ensures OneEdit(cs, p[1..][i], p[1..][i + 1]) {
        assert OneEdit(cs, p[i + 1], p[i + 1 + 1]);
      }
      PathKeeps(cs, p[1..], p[1], b);
    }
  }

  // -- every address reaches a representative of its normal form

  lemma {:induction false} ReachTrimRight(cs: Charset, s: string)
    ensures Same(cs, s, TrimRight(cs, s))
    decreases |s|
  {
    if s != "" && cs.space(s[|s| - 1]) {
      var shorter := s[..|s| - 1];
      ReachTrimRight(cs, shorter);
      assert s == shorter + [s[|s| - 1]];
      SameEdit(cs, s, shorter, Pad(s[|s| - 1], false));
      SameTrans(cs, s, shorter, TrimRight(cs, shorter));
    } else {
      SameRefl(cs, s);
    }
  }

  lemma {:induction false} ReachTrimLeft(cs: Charset, s: string)
    ensures Same(cs, s, TrimLeft(cs, s))
  {
    if s != "" && cs.space(s[0]) {
      ReachTrimLeft(cs, s[1..]);
      assert s == [s[0]] + s[1..];
      SameEdit(cs, s, s[1..], Pad(s[0], true));
      SameTrans(cs, s, s[1..], TrimLeft(cs, s[1..]));
    } else {
      SameRefl(cs, s);
    }
  }

  lemma ReachLower(cs: Charset, email: string)
    requires Lawful(cs)
    ensures Same(cs, email, Lower(cs, Trim(cs, email)))
  {
    var left := TrimLeft(cs, email);
    var trimmed := Trim(cs, email);
    ReachTrimLeft(cs, email);
    ReachTrimRight(cs, left);
    SameTrans(cs, email, left, trimmed);
    LowerMailbox(cs, trimmed);
    LowerDecidesCase(cs, trimmed, Lower(cs, trimmed));
    SameEdit(cs, trimmed, Lower(cs, trimmed), Recase);
    SameTrans(cs, email, trimmed, Lower(cs, trimmed));
  }

  predicate StartsTrimmed(cs: Charset, local: string) {
    local == "" || !cs.space(local[0])
  }

  lemma GmailTrimmed(cs: Charset, local: string)
    requires Lawful(cs) && StartsTrimmed(cs, local)
    ensures Trimmed(cs, local + "@" + "gmail.com")
  {
    var s := local + "@" + "gmail.com";
    assert s[|s| - 1] == 'm' && s[0] == if local == "" then '@' else local[0];
  }

  lemma {:induction false} ReachDotless(cs: Charset, p: string, w: string)
    requires Lawful(cs) && p != "" && !cs.space(p[0])
    ensures Same(cs, p + w + "@" + "gmail.com", p + WithoutDots(w) + "@" + "gmail.com")
    decreases |w|
  {
    var goal := p + WithoutDots(w) + "@" + "gmail.com";
    if w == "" {
      SameRefl(cs, goal);
    } else if w[0] == '.' {
      var shorter := p + w[1..] + "@" + "gmail.com";
      assert p + w == p + "." + w[1..];
      assert WithoutDots(w) == WithoutDots(w[1..]);
      GmailTrimmed(cs, p + w);
      GmailTrimmed(cs, p + w[1..]);
      SameEdit(cs, p + w + "@" + "gmail.com", shorter, Dot(p, w[1..], "gmail.com"));
      ReachDotless(cs, p, w[1..]);
      SameTrans(cs, p + w + "@" + "gmail.com", shorter, goal);
    } else {
      assert p + w == (p + [w[0]]) + w[1..];
      assert p + WithoutDots(w) == (p + [w[0]]) + WithoutDots(w[1..]);
      ReachDotless(cs, p + [w[0]], w[1..]);
    }
  }

  /** The mailbox, kept behind one dot where it would otherwise begin with white space. */
  function Shielded(cs: Charset, box: string): string {
    if box != "" && cs.space(box[0]) then "." + box else box
  }

  lemma {:induction false} ReachMailbox(cs: Charset, w: string)
    requires Lawful(cs) && StartsTrimmed(cs, w)
    ensures Same(cs, w + "@" + "gmail.com", Shielded(cs, WithoutDots(w)) + "@" + "gmail.com")
  {
    var box := WithoutDots(w);
    if w == "" {
      SameRefl(cs, w + "@" + "gmail.com");
    } else {
      var p, rest := [w[0]], w[1..];
      assert p + rest == w;
      ReachDotless(cs, p, rest);
      assert w[0] != '.' ==> p + WithoutDots(rest) == box;
      assert w[0] == '.' ==> p == "." && WithoutDots(rest) == box;
      if w[0] == '.' && StartsTrimmed(cs, box) {
        var dotted := "." + box + "@" + "gmail.com";
        assert "" + "." + box == "." + box && "" + box == box;
        GmailTrimmed(cs, box);
        GmailTrimmed(cs, "." + box);
        SameEdit(cs, dotted, box + "@" + "gmail.com", Dot("", box, "gmail.com"));
        SameTrans(cs, w + "@" + "gmail.com", dotted, box + "@" + "gmail.com");
      }
    }
  }

  function Representative(cs: Charset, email: string): string {
    var local := RuledLocal(cs, email);
    if local.None? then Lower(cs, Trim(cs, email))
    else Shielded(cs, Mailbox(local.value)) + "@" + "gmail.com"
  }

  lemma ReachRepresentative(cs: Charset, email: string)
    requires Lawful(cs)
    ensures Same(cs, email, Representative(cs, email))
  {
    var e := Lower(cs, Trim(cs, email));
    ReachLower(cs, email);
    var local := RuledLocal(cs, email);
    if local.Some? {
      RuledShape(cs, email);
      ReachFromRuled(cs, local.value, e[AfterLastAt(e)..]);
      SameTrans(cs, email, e, Representative(cs, email));
    }
  }

  lemma ReachFromRuled(cs: Charset, local: string, domain: string)
    requires Lawful(cs) && Google(domain) && Trimmed(cs, local + "@" + domain)
    ensures Same(cs, local + "@" + domain, Shielded(cs, Mailbox(local)) + "@" + "gmail.com")
  {
    var start, gmail := local + "@" + domain, local + "@" + "gmail.com";
    var cut := CutAtPlus(local);
    var goal := Shielded(cs, Mailbox(local)) + "@" + "gmail.com";
    assert StartsTrimmed(cs, local) by { assert local != "" ==> start[0] == local[0]; }
    SameEdit(cs, start, gmail, Alias(local, domain, "gmail.com"));
    CutIsPrefix(local);
    assert StartsTrimmed(cs, cut);
    if '+' in local {
      GmailTrimmed(cs, local);
      GmailTrimmed(cs, cut);
      SameEdit(cs, gmail, cut + "@" + "gmail.com", Tag(cut, local[|cut| + 1..], "gmail.com"));
    } else {
      SameRefl(cs, gmail);
    }
    SameTrans(cs, start, gmail, cut + "@" + "gmail.com");
    ReachMailbox(cs, cut);
    SameTrans(cs, start, cut + "@" + "gmail.com", goal);
  }

  lemma SameLocal(x: string, y: string, domain: string)
    requires x + "@" + domain == y + "@" + domain
    ensures x == y
  {
    assert |x| == |y| && x == (x + "@" + domain)[..|x|] && y == (y + "@" + domain)[..|y|];
  }

  /** Equal normal forms are equal kinds of address, and equal mailboxes. */
  lemma SameFormSameRepresentative(cs: Charset, a: string, b: string)
    requires Lawful(cs) && NormalizeEmail(cs, a) == NormalizeEmail(cs, b)
    ensures Representative(cs, a) == Representative(cs, b)
  {
    var la, lb := RuledLocal(cs, a), RuledLocal(cs, b);
    if la.Some? { RuledShape(cs, a); NotUnruled(cs, b, Mailbox(la.value)); }
    if lb.Some? { RuledShape(cs, b); NotUnruled(cs, a, Mailbox(lb.value)); }
    if la.Some? && lb.Some? {
      var x, y := Mailbox(la.value), Mailbox(lb.value);
      SameLocal(x, y, "gmail.com");
    }
  }

  lemma NotUnruled(cs: Charset, email: string, box: string)
    requires Lawful(cs) && NormalizeEmail(cs, email) == box + "@" + "gmail.com"
    ensures RuledLocal(cs, email).Some?
  {
    EndsAtGmail(Lower(cs, Trim(cs, email)), box);
  }

  lemma {:induction false} EndsAtGmail(e: string, box: string)
    requires Canonicalize(e) == box + "@" + "gmail.com"
    ensures AfterLastAt(e) > 0 && e[AfterLastAt(e)..] in RULES
  {
    var gmail := box + "@" + "gmail.com";
    LastAt(box, "gmail.com");
    assert gmail[|box| + 1..] == "gmail.com";
  }

  /**
   Two addresses have one normal form exactly when one can be rewritten into
   the other by padding, case, and, at the Google domains, dots, tags and the
   domain's alias: nothing else is collapsed, and nothing of this is missed.
   */
  lemma NormalFormsDecideSameness(cs: Charset, a: string, b: string)
    requires Lawful(cs)
    ensures NormalizeEmail(cs, a) == NormalizeEmail(cs, b) <==> Same(cs, a, b)
  {
    if Same(cs, a, b) {
      var p: seq<string> :| Path(cs, p, a, b);
      PathKeeps(cs, p, a, b);
    }
    if NormalizeEmail(cs, a) == NormalizeEmail(cs, b) {
      SameFormSameRepresentative(cs, a, b);
      ReachRepresentative(cs, a);
      ReachRepresentative(cs, b);
      SameSym(cs, b, Representative(cs, b));
      SameTrans(cs, a, Representative(cs, a), b);
    }
  }

  /** Two addresses with a rule agree exactly when their local parts do, cut at the first plus and without dots. */
  lemma RuledAddressesAgree(cs: Charset, a: string, b: string)
    requires Lawful(cs) && RuledLocal(cs, a).Some? && RuledLocal(cs, b).Some?
    ensures NormalizeEmail(cs, a) == NormalizeEmail(cs, b)
            <==> Mailbox(RuledLocal(cs, a).value) == Mailbox(RuledLocal(cs, b).value)
  {
    RuledShape(cs, a);
    RuledShape(cs, b);
    var x, y := Mailbox(RuledLocal(cs, a).value), Mailbox(RuledLocal(cs, b).value);
    if x + "@" + "gmail.com" == y + "@" + "gmail.com" { SameLocal(x, y, "gmail.com"); }
  }

  /** Outside the rule table only white space at the ends and case are ignored. */
  lemma OtherDomainsKeepLocalParts(cs: Charset, a: string, b: string)
    requires Lawful(cs) && RuledLocal(cs, a).None?
    ensures NormalizeEmail(cs, a) == NormalizeEmail(cs, b) <==> SameIgnoringCase(cs, Trim(cs, a), Trim(cs, b))
  {
    LowerDecidesCase(cs, Trim(cs, a), Trim(cs, b));
    if NormalizeEmail(cs, a) == NormalizeEmail(cs, b) && RuledLocal(cs, b).Some? {
      RuledShape(cs, b);
      NotUnruled(cs, a, Mailbox(RuledLocal(cs, b).value));
    }
  }

  // ------------------------------------------------------------------ ASCII

  const ASCII: Charset := Charset(
    c => if 'A' <= c <= 'Z' then (c as int + 32) as char else c,
    c => c == ' ' || '\t' <= c <= '\r')

  lemma AsciiIsLawful()
    ensures Lawful(ASCII)
    ensures forall c :: ASCII.lower(c) as int == if 'A' <= c <= 'Z' then c as int + 32 else c as int
  {
  }

  /** The address on which normalising twice differs from normalising once. */
  lemma NotIdempotent()
    ensures NormalizeEmail(ASCII, ". a@gmail.com") == " a@gmail.com"
    ensures NormalizeEmail(ASCII, " a@gmail.com") == "a@gmail.com"
  {
    AsciiIsLawful();
    Spellings();
    SmallCases();
    NormalizeGoogle(ASCII, ". a", "gmail.com");
    NormalizeGoogle(ASCII, "a", "gmail.com");
    EditKeeps(ASCII, Pad(' ', true), "a@gmail.com", " a@gmail.com");
  }

  lemma Spellings()
    ensures ". a@gmail.com" == ". a" + "@" + "gmail.com" && "a@gmail.com" == "a" + "@" + "gmail.com"
    ensures " a@gmail.com" == " a" + "@" + "gmail.com" && [' '] + "a@gmail.com" == " a@gmail.com"
    ensures Trimmed(ASCII, ". a@gmail.com") && Trimmed(ASCII, "a@gmail.com")
  {
  }

  lemma SmallCases()
    ensures Mailbox(Lower(ASCII, ". a")) == " a" && Mailbox(Lower(ASCII, "a")) == "a"
  {
    assert Lower(ASCII, ". a") == ['.', ' ', 'a'] && Lower(ASCII, "a") == ['a'];
    var d, sp, a := ['.', ' ', 'a'], [' ', 'a'], ['a'];
    assert d[1..] == sp && sp[1..] == a && a[1..] == "";
    assert CutAtPlus(a) == a && CutAtPlus(sp) == sp && CutAtPlus(d) == d;
    assert WithoutDots(a) == a && WithoutDots(sp) == sp && WithoutDots(d) == sp;
  }
}
