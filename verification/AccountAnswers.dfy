/**
 Why a call was answered as it was: over every run, each answer of register,
 resend, the OAuth callback and verify rests on something the call met in the
 run, whatever the other calls did between its statements. And what a call
 writes: each statement just its rows.
 */
module AccountAnswers {
  import opened Prelude
  import opened AccountProtocol
  import opened AccountTheorems
  import opened AccountResults

  /** What one event of a run may show about a call. */
  datatype Mark =
    | EmailTaken(email: string)             // its lookup found an account
    | RowRefused                            // a row it inserts broke a key or a check
    | Broke                                 // it crashed, or a statement it depends on was not accepted
    | NobodyToVerify(email: string)         // its lookup found no unverified account
    | NotVouched(identity: Identity)        // it found an account of the address, and not both sides vouch
    | Vouched(identity: Identity, user: Id, active: bool) // both sides vouch, and the account had such a status
    | Unowned(identity: Identity)           // it found no account of the address
    | MetLinked(user: Id, active: bool)     // it met the linked account with such a status
    | MailLost                              // its mail was not accepted
    | Minting(raw: string, expiresAt: Time) // it minted a token, to expire then
    | Loaded(user: Id, status: Status, at: Time) // it loaded the owner of the token it checked
    | NoToken(hash: string, at: Time)       // its lookup found no token
    | SawUnconsumed(hash: string)           // its lookup found the token unconsumed
    | SawExpired(hash: string, at: Time)    // it checked the token at or after its expiry
    | SawStamp(user: Id, at: Time)          // it met, or wrote, this verification time

  predicate TokenClash(w: World, m: Minted) {
    m.id in w.tokens || (exists t :: t in w.tokens && w.tokens[t].hash == m.row.hash) || m.row.expiresAt <= w.now
  }

  predicate UserClash(w: World, userId: Id, email: string) {
    userId in w.users || exists u :: u in w.users && w.users[u].email == email
  }

  /** The rows the call is about to insert break a key or a check. */
  predicate Clashes(w: World, pc: Pc) {
    match pc
    case RegCommit(userId, account, m) => UserClash(w, userId, account.email) || TokenClash(w, m)
    case SendCreate(m) => TokenClash(w, m)
    case CbRegister(identity, userId, account, m) =>
      UserClash(w, userId, account.email) || identity.key in w.links || (m.Some? && TokenClash(w, m.value))
    case CbLink(identity, _, _) => identity.key in w.links
    case _ => false
  }

  /** The statements whose failure ends the call; keeping the raw token and mailing it are not among them. */
  predicate MayBreak(pc: Pc) {
    pc.RegCommit? || pc.SendFromCache? || pc.SendCreate? || pc.CbRegister? || pc.CbLink? || pc.VerCommit?
  }

  predicate HasStatus(w: World, user: Id, active: bool) {
    user in w.users && (w.users[user].status == Active <==> active)
  }

  ghost predicate MoveMark(cfg: Config, w: World, pc: Pc, c: Choice, m: Mark) {
    var w' := Advance(cfg, w, pc, c).0;
    match m
    case EmailTaken(email) => pc == RegLookup(email) && exists u :: HasEmail(w.users, email, u)
    case RowRefused => Clashes(w, pc)
    case Broke => !c.ok && MayBreak(pc)
    case NobodyToVerify(email) =>
      pc == SendLookup(email) && forall u :: HasEmail(w.users, email, u) ==> w.users[u].verifiedAt.Some?
    case NotVouched(identity) =>
      pc == CbFindEmail(identity)
      && exists u :: HasEmail(w.users, identity.email, u) && !(identity.emailVerified && IsVerified(w, u))
    case Vouched(identity, user, active) =>
      pc == CbFindEmail(identity) && HasEmail(w.users, identity.email, user)
      && identity.emailVerified && IsVerified(w, user) && HasStatus(w, user, active)
    case Unowned(identity) => pc == CbFindEmail(identity) && forall u :: !HasEmail(w.users, identity.email, u)
    case MetLinked(user, active) => pc.CbLoginLinked? && pc.user == user && HasStatus(w, user, active)
    case MailLost => pc.Publish? && !c.ok
    case Minting(raw, expiresAt) =>
      (pc.RegMint? || pc.SendMint? || pc.CbMint?) && c.raw == raw && expiresAt == w.now + cfg.ttl
    case Loaded(user, status, at) =>
      pc.VerLoad? && pc.token.user == user && user in w.users && w.users[user].status == status && w.now == at
    case NoToken(hash, at) =>
      pc.VerFindToken? && w.now == at && forall t :: t in w.tokens ==> w.tokens[t].hash != hash
    case SawUnconsumed(hash) =>
      pc.VerFindToken? && exists t :: HasHash(w.tokens, hash, t) && w.tokens[t].consumedAt.None?
    case SawExpired(hash, at) =>
      pc.VerCheck? && w.now == at && exists t :: HasHash(w.tokens, hash, t) && w.tokens[t].expiresAt <= at
    case SawStamp(user, at) => StoredAt(w, user, at) || StoredAt(w', user, at)
  }

  ghost predicate MarkAt(cfg: Config, t: State, e: Event, call: Id, m: Mark) {
    || (m.Broke? && e == Crash(call))
    || (e.Move? && e.call == call && call in t.calls && MoveMark(cfg, t.world, t.calls[call], e.choice, m))
  }

  /** Everything the run has shown about the call. */
  ghost function Marks(cfg: Config, s: State, run: seq<Event>, call: Id): iset<Mark> {
    iset m | MarkedBy(cfg, s, run, call, m)
  }

  ghost predicate MarkedBy(cfg: Config, s: State, run: seq<Event>, call: Id, m: Mark) {
    exists k :: 0 <= k < |run| && MarkedAt(cfg, s, run, call, m, k)
  }

  ghost predicate MarkedAt(cfg: Config, s: State, run: seq<Event>, call: Id, m: Mark, k: nat)
    requires k < |run|
  {
    MarkAt(cfg, Exec(cfg, s, run[..k]), run[k], call, m)
  }

  ghost predicate Extends(cfg: Config, t: State, e: Event, call: Id, marks: iset<Mark>, marks': iset<Mark>) {
    marks <= marks' && forall m :: MarkAt(cfg, t, e, call, m) ==> m in marks'
  }

  lemma {:induction false} MarksExtend(cfg: Config, s: State, run: seq<Event>, call: Id, n: nat)
    requires |run| == n + 1
    ensures Extends(cfg, Exec(cfg, s, run[..n]), run[n], call, Marks(cfg, s, run[..n], call), Marks(cfg, s, run, call))
  {
    forall m | MarkedBy(cfg, s, run[..n], call, m) ensures MarkedBy(cfg, s, run, call, m) {
      var k :| 0 <= k < n && MarkedAt(cfg, s, run[..n], call, m, k);
      assert run[..n][..k] == run[..k] && run[..n][k] == run[k];
      assert MarkedAt(cfg, s, run, call, m, k);
    }
    forall m | MarkAt(cfg, Exec(cfg, s, run[..n]), run[n], call, m) ensures MarkedBy(cfg, s, run, call, m) {
      assert MarkedAt(cfg, s, run, call, m, n);
    }
  }

  /** Marks stay, and a statement adds its own. */
  ghost predicate Grows(cfg: Config, w: World, pc: Pc, c: Choice, marks: iset<Mark>, marks': iset<Mark>) {
    marks <= marks' && forall m :: MoveMark(cfg, w, pc, c, m) ==> m in marks'
  }

  // ---------------------------------------------------------- four courses

  /** The account of the address, with a password and this token. */
  ghost predicate AccountWith(cfg: Config, w: World, email: string, raw: string, expiresAt: Time) {
    exists u, t :: HasEmail(w.users, email, u) && w.users[u].hasPassword && TokenFor(w, cfg.hash(raw), t, u)
                   && w.tokens[t].expiresAt == expiresAt
  }

  ghost predicate RegisterCourse(cfg: Config, w: World, email: string, pc: Pc, marks: iset<Mark>) {
    match pc
    case RegLookup(e) => e == email
    case RegMint(e) => e == email
    case RegCommit(_, account, m) =>
      account == UserRow(cfg.canonical(email), Active, None, true) && Minting(m.raw, m.row.expiresAt) in marks
    case StoreRaw(_, raw, expiresAt, next) =>
      && next == Registered && Minting(raw, expiresAt) in marks
      && AccountWith(cfg, w, cfg.canonical(email), raw, expiresAt)
    case Publish(raw, expiresAt, next) =>
      && next == Registered && Minting(raw, expiresAt) in marks
      && AccountWith(cfg, w, cfg.canonical(email), raw, expiresAt)
    case Done(outcome) =>
      || (outcome.Registered?
          && exists raw, expiresAt :: AccountWith(cfg, w, cfg.canonical(email), raw, expiresAt)
                                      && Minting(raw, expiresAt) in marks
                                      && (MailLost in marks || Mail(raw, expiresAt) in w.mails))
      || (outcome.AlreadyExists? && EmailTaken(email) in marks)
      || (outcome.Failed? && (Broke in marks || RowRefused in marks))
    case _ => false
  }

  /** The raw token belongs to a token of the account of the address. */
  ghost predicate TokenOf(cfg: Config, w: World, email: string, raw: string, expiresAt: Time) {
    exists t :: t in w.tokens && w.tokens[t].hash == cfg.hash(raw) && w.tokens[t].expiresAt == expiresAt
                && HasEmail(w.users, email, w.tokens[t].user)
  }

  ghost predicate ResendCourse(cfg: Config, w: World, email: string, pc: Pc, marks: iset<Mark>) {
    match pc
    case SendLookup(e) => e == email
    case SendFindActive(user) => HasEmail(w.users, email, user)
    case SendFromCache(user, _, token) => HasEmail(w.users, email, user) && token.user == user
    case SendMint(user) => HasEmail(w.users, email, user)
    case SendCreate(m) => HasEmail(w.users, email, m.row.user)
    case StoreRaw(_, raw, expiresAt, next) => next == Sent && TokenOf(cfg, w, email, raw, expiresAt)
    case Publish(raw, expiresAt, next) => next == Sent && TokenOf(cfg, w, email, raw, expiresAt)
    case Done(outcome) =>
      || (outcome.Sent? && (NobodyToVerify(email) in marks || MailLost in marks
                            || exists m :: m in w.mails && TokenOf(cfg, w, email, m.raw, m.expiresAt)))
      || (outcome.Failed? && (Broke in marks || RowRefused in marks))
    case _ => false
  }

  ghost predicate TokenOfUser(cfg: Config, w: World, user: Id, raw: string, expiresAt: Time) {
    exists t :: TokenFor(w, cfg.hash(raw), t, user) && w.tokens[t].expiresAt == expiresAt
  }

  /** A token of the user was mailed, unless the provider vouches for the address or the mail was lost. */
  ghost predicate ToldToVerify(cfg: Config, w: World, identity: Identity, user: Id, marks: iset<Mark>) {
    identity.emailVerified || MailLost in marks
    || exists m :: m in w.mails && TokenOfUser(cfg, w, user, m.raw, m.expiresAt) && Minting(m.raw, m.expiresAt) in marks
  }

  /** About to sign in the account just made for the identity. */
  ghost predicate Welcomes(
      cfg: Config, w: World, identity: Identity, raw: string, expiresAt: Time, next: Outcome, marks: iset<Mark>)
  {
    && next.SignedIn? && next.via == identity.key && LinkedTo(w, identity.key, next.user)
    && Unowned(identity) in marks && Minting(raw, expiresAt) in marks
    && TokenOfUser(cfg, w, next.user, raw, expiresAt)
  }

  ghost predicate CallbackCourse(cfg: Config, w: World, identity: Identity, pc: Pc, marks: iset<Mark>) {
    match pc
    case CbFindLink(i) => i == identity
    case CbLoginLinked(i, user) => i == identity && LinkedTo(w, i.key, user)
    case CbFindEmail(i) => i == identity
    case CbMint(i) => i == identity && Unowned(identity) in marks
    case CbRegister(i, userId, account, m) =>
      && i == identity && Unowned(identity) in marks && account.status == Active
      && (m.None? <==> identity.emailVerified)
      && (m.Some? ==> m.value.row == MintedRow(cfg, userId, m.value)
                      && Minting(m.value.raw, m.value.row.expiresAt) in marks)
    case CbLink(i, user, account) => i == identity && Vouched(identity, user, account.status == Active) in marks
    case StoreRaw(_, raw, expiresAt, next) => Welcomes(cfg, w, identity, raw, expiresAt, next, marks)
    case Publish(raw, expiresAt, next) => Welcomes(cfg, w, identity, raw, expiresAt, next, marks)
    case Done(outcome) =>
      || (outcome.SignedIn? && outcome.via == identity.key && LinkedTo(w, identity.key, outcome.user)
          && (|| MetLinked(outcome.user, true) in marks || Vouched(identity, outcome.user, true) in marks
              || (Unowned(identity) in marks && ToldToVerify(cfg, w, identity, outcome.user, marks))))
      || (outcome.AccountLocked?
          && exists u :: LinkedTo(w, identity.key, u)
                         && (MetLinked(u, false) in marks || Vouched(identity, u, false) in marks))
      || (outcome.AlreadyExists? && NotVouched(identity) in marks)
      || (outcome.Failed? && (Broke in marks || RowRefused in marks))
    case _ => false
  }

  /** The row a call minted for the user. */
  function MintedRow(cfg: Config, user: Id, m: Minted): TokenRow {
    TokenRow(user, cfg.hash(m.raw), m.row.createdAt, m.row.expiresAt, None)
  }

  /** The token behind the presented hash, and its owner. */
  ghost predicate TokenFor(w: World, hash: string, t: Id, user: Id) {
    HasHash(w.tokens, hash, t) && w.tokens[t].user == user
  }

  ghost predicate SpentFor(w: World, hash: string, user: Id) {
    exists t :: TokenFor(w, hash, t, user) && w.tokens[t].consumedAt.Some?
  }

  ghost predicate VerifyCourse(cfg: Config, w: World, raw: string, pc: Pc, marks: iset<Mark>) {
    var hash := cfg.hash(raw);
    match pc
    case VerFindToken(r) => r == raw
    case VerCheck(t, row) =>
      TokenFor(w, hash, t, row.user) && (row.consumedAt.None? ==> SawUnconsumed(hash) in marks)
    case VerLoad(t, row) => TokenFor(w, hash, t, row.user)
    case VerCommit(t, user, status, at) => TokenFor(w, hash, t, user) && Loaded(user, status, at) in marks
    case VerReread(user) => SpentFor(w, hash, user)
    case Done(outcome) =>
      || (outcome.InvalidToken? && (NoToken(hash, outcome.at) in marks
                                    || (SawUnconsumed(hash) in marks && SawExpired(hash, outcome.at) in marks)))
      || (outcome.Verified? && TokenFor(w, hash, outcome.token, outcome.user) && SpentFor(w, hash, outcome.user)
          && SawStamp(outcome.user, outcome.at) in marks
          && exists status :: Loaded(outcome.user, status, outcome.at) in marks)
      || (outcome.Confirmed? && SpentFor(w, hash, outcome.user) && SawStamp(outcome.user, outcome.at) in marks)
      || (outcome.Failed? && Broke in marks)
    case _ => false
  }

  /** The course a call is on is set by its first statement. */
  ghost predicate OnCourse(cfg: Config, w: World, entry: Pc, pc: Pc, marks: iset<Mark>)
    requires Entry(entry)
  {
    match entry
    case RegLookup(email) => RegisterCourse(cfg, w, email, pc, marks)
    case SendLookup(email) => ResendCourse(cfg, w, email, pc, marks)
    case CbFindLink(identity) => CallbackCourse(cfg, w, identity, pc, marks)
    case VerFindToken(raw) => VerifyCourse(cfg, w, raw, pc, marks)
  }

  // ------------------------------------------------- a call that stands still

  lemma HasEmailStays(w: World, w': World, email: string, user: Id)
    requires Evolves(w, w') && HasEmail(w.users, email, user)
    ensures HasEmail(w'.users, email, user)
  {
    assert UserEvolves(w.users[user], w'.users[user]);
  }

  lemma AccountStays(cfg: Config, w: World, w': World, email: string, raw: string, expiresAt: Time)
    requires Evolves(w, w') && AccountWith(cfg, w, email, raw, expiresAt)
    ensures AccountWith(cfg, w', email, raw, expiresAt)
  {
    var u, t :| HasEmail(w.users, email, u) && w.users[u].hasPassword && TokenFor(w, cfg.hash(raw), t, u)
      && w.tokens[t].expiresAt == expiresAt;
    assert UserEvolves(w.users[u], w'.users[u]) && TokenEvolves(w.tokens[t], w'.tokens[t]);
    assert HasEmail(w'.users, email, u) && w'.users[u].hasPassword && TokenFor(w', cfg.hash(raw), t, u);
  }

  lemma TokenOfUserStays(cfg: Config, w: World, w': World, user: Id, raw: string, expiresAt: Time)
    requires Evolves(w, w') && TokenOfUser(cfg, w, user, raw, expiresAt)
    ensures TokenOfUser(cfg, w', user, raw, expiresAt)
  {
    var t :| TokenFor(w, cfg.hash(raw), t, user) && w.tokens[t].expiresAt == expiresAt;
    assert TokenEvolves(w.tokens[t], w'.tokens[t]) && TokenFor(w', cfg.hash(raw), t, user);
  }

  lemma TokenOfStays(cfg: Config, w: World, w': World, email: string, raw: string, expiresAt: Time)
    requires Evolves(w, w') && TokenOf(cfg, w, email, raw, expiresAt)
    ensures TokenOf(cfg, w', email, raw, expiresAt)
  {
    var t :| t in w.tokens && w.tokens[t].hash == cfg.hash(raw) && w.tokens[t].expiresAt == expiresAt
      && HasEmail(w.users, email, w.tokens[t].user);
    assert TokenEvolves(w.tokens[t], w'.tokens[t]);
    HasEmailStays(w, w', email, w.tokens[t].user);
  }

  lemma TokenForStays(w: World, w': World, hash: string, t: Id, user: Id)
    requires Evolves(w, w') && TokenFor(w, hash, t, user)
    ensures TokenFor(w', hash, t, user)
  {
    assert TokenEvolves(w.tokens[t], w'.tokens[t]);
  }

  lemma SpentForStays(w: World, w': World, hash: string, user: Id)
    requires Evolves(w, w') && SpentFor(w, hash, user)
    ensures SpentFor(w', hash, user)
  {
    var t :| TokenFor(w, hash, t, user) && w.tokens[t].consumedAt.Some?;
    assert TokenEvolves(w.tokens[t], w'.tokens[t]);
    TokenForStays(w, w', hash, t, user);
  }

  lemma RegisterCourseStays(
      cfg: Config, w: World, w': World, email: string, pc: Pc, marks: iset<Mark>, marks': iset<Mark>)
    requires Evolves(w, w') && marks <= marks' && RegisterCourse(cfg, w, email, pc, marks)
    ensures RegisterCourse(cfg, w', email, pc, marks')
  {
    var stored := cfg.canonical(email);
    forall raw, expiresAt | AccountWith(cfg, w, stored, raw, expiresAt)
      ensures AccountWith(cfg, w', stored, raw, expiresAt)
    {
      AccountStays(cfg, w, w', stored, raw, expiresAt);
    }
  }

  lemma ResendCourseStays(
      cfg: Config, w: World, w': World, email: string, pc: Pc, marks: iset<Mark>, marks': iset<Mark>)
    requires Evolves(w, w') && marks <= marks' && ResendCourse(cfg, w, email, pc, marks)
    ensures ResendCourse(cfg, w', email, pc, marks')
  {
    forall u | HasEmail(w.users, email, u) ensures HasEmail(w'.users, email, u) { HasEmailStays(w, w', email, u); }
    forall raw, expiresAt | TokenOf(cfg, w, email, raw, expiresAt) ensures TokenOf(cfg, w', email, raw, expiresAt) {
      TokenOfStays(cfg, w, w', email, raw, expiresAt);
    }
  }

  lemma CallbackCourseStays(
      cfg: Config, w: World, w': World, identity: Identity, pc: Pc, marks: iset<Mark>, marks': iset<Mark>)
    requires Evolves(w, w') && marks <= marks' && CallbackCourse(cfg, w, identity, pc, marks)
    ensures CallbackCourse(cfg, w', identity, pc, marks')
  {
    forall u | LinkedTo(w, identity.key, u) ensures LinkedTo(w', identity.key, u) {
    }
    forall u, raw, expiresAt | TokenOfUser(cfg, w, u, raw, expiresAt) ensures TokenOfUser(cfg, w', u, raw, expiresAt) {
      TokenOfUserStays(cfg, w, w', u, raw, expiresAt);
    }
  }

  lemma VerifyCourseStays(
      cfg: Config, w: World, w': World, raw: string, pc: Pc, marks: iset<Mark>, marks': iset<Mark>)
    requires Evolves(w, w') && marks <= marks' && VerifyCourse(cfg, w, raw, pc, marks)
    ensures VerifyCourse(cfg, w', raw, pc, marks')
  {
    var hash := cfg.hash(raw);
    forall t, u | TokenFor(w, hash, t, u) ensures TokenFor(w', hash, t, u) { TokenForStays(w, w', hash, t, u); }
    forall u | SpentFor(w, hash, u) ensures SpentFor(w', hash, u) { SpentForStays(w, w', hash, u); }
  }

  lemma CourseStays(cfg: Config, w: World, w': World, entry: Pc, pc: Pc, marks: iset<Mark>, marks': iset<Mark>)
    requires Entry(entry) && Evolves(w, w') && marks <= marks' && OnCourse(cfg, w, entry, pc, marks)
    ensures OnCourse(cfg, w', entry, pc, marks')
  {
    match entry
    case RegLookup(email) => RegisterCourseStays(cfg, w, w', email, pc, marks, marks');
    case SendLookup(email) => ResendCourseStays(cfg, w, w', email, pc, marks, marks');
    case CbFindLink(identity) => CallbackCourseStays(cfg, w, w', identity, pc, marks, marks');
    case VerFindToken(raw) => VerifyCourseStays(cfg, w, w', raw, pc, marks, marks');
  }

  // ---------------------------------------------------- a call that moves on

  lemma TokenFits(w: World, m: Minted)
    requires m.row.user in w.users
    ensures TokenInsertable(w, m.id, Stamped(m, w.now)) <==> !TokenClash(w, m)
  {
    if exists t :: t in w.tokens && w.tokens[t].hash == m.row.hash {
      var t :| t in w.tokens && w.tokens[t].hash == m.row.hash;
      assert HasHash(w.tokens, m.row.hash, t);
    } else {
      assert forall t :: !HasHash(w.tokens, m.row.hash, t);
    }
  }

  lemma UserFits(w: World, id: Id, row: UserRow)
    ensures UserInsertable(w, id, row) <==> !UserClash(w, id, row.email)
  {
    if exists u :: u in w.users && w.users[u].email == row.email {
      var u :| u in w.users && w.users[u].email == row.email;
      assert HasEmail(w.users, row.email, u);
    } else {
      assert forall u :: !HasEmail(w.users, row.email, u);
    }
  }

  lemma RegisterStep(cfg: Config, w: World, email: string, pc: Pc, c: Choice, marks: iset<Mark>, marks': iset<Mark>)
    requires WorldOk(cfg, w) && PcOk(cfg, w, pc) && RegisterCourse(cfg, w, email, pc, marks)
    requires Grows(cfg, w, pc, c, marks, marks') && !pc.Done?
    ensures var (w', pc') := Advance(cfg, w, pc, c); RegisterCourse(cfg, w', email, pc', marks')
  {
    if pc.RegLookup? {
      RegisterLooks(cfg, w, email, pc, c, marks, marks');
    } else if pc.RegMint? {
      assert MoveMark(cfg, w, pc, c, Minting(c.raw, w.now + cfg.ttl));
    } else if pc.RegCommit? {
      RegisterCommits(cfg, w, email, pc, c, marks, marks');
    } else if pc.StoreRaw? || pc.Publish? {
      RegisterDelivers(cfg, w, email, pc, c, marks, marks');
    }
  }

  lemma RegisterLooks(cfg: Config, w: World, email: string, pc: Pc, c: Choice, marks: iset<Mark>, marks': iset<Mark>)
    requires pc == RegLookup(email) && Grows(cfg, w, pc, c, marks, marks')
    ensures var (w', pc') := Advance(cfg, w, pc, c); RegisterCourse(cfg, w', email, pc', marks')
  {
    var pc' := Advance(cfg, w, pc, c).1;
    assert pc'.Done? ==> MoveMark(cfg, w, pc, c, EmailTaken(email));
  }

  lemma RegisterDelivers(cfg: Config, w: World, email: string, pc: Pc, c: Choice, marks: iset<Mark>, marks': iset<Mark>)
    requires (pc.StoreRaw? || pc.Publish?) && RegisterCourse(cfg, w, email, pc, marks)
    requires Grows(cfg, w, pc, c, marks, marks')
    ensures var (w', pc') := Advance(cfg, w, pc, c); RegisterCourse(cfg, w', email, pc', marks')
  {
    var w' := Advance(cfg, w, pc, c).0;
    assert Evolves(w, w');
    AccountStays(cfg, w, w', cfg.canonical(email), pc.raw, pc.expiresAt);
    if pc.Publish? {
      if c.ok { assert Mail(pc.raw, pc.expiresAt) in w'.mails; } else { assert MoveMark(cfg, w, pc, c, MailLost); }
    }
  }

  lemma RegisterCommits(cfg: Config, w: World, email: string, pc: Pc, c: Choice, marks: iset<Mark>, marks': iset<Mark>)
    requires PcOk(cfg, w, pc) && pc.RegCommit? && RegisterCourse(cfg, w, email, pc, marks)
    requires Grows(cfg, w, pc, c, marks, marks')
    ensures var (w', pc') := Advance(cfg, w, pc, c); RegisterCourse(cfg, w', email, pc', marks')
  {
    var (w', pc') := Advance(cfg, w, pc, c);
    var w1 := InsertUser(w, pc.userId, pc.account);
    UserFits(w, pc.userId, pc.account);
    TokenFits(w1, pc.minted);
    if !c.ok {
      assert MoveMark(cfg, w, pc, c, Broke);
    } else if Clashes(w, pc) {
      assert MoveMark(cfg, w, pc, c, RowRefused);
    } else {
      assert HasEmail(w'.users, cfg.canonical(email), pc.userId);
      assert TokenFor(w', cfg.hash(pc.minted.raw), pc.minted.id, pc.userId);
      assert AccountWith(cfg, w', cfg.canonical(email), pc.minted.raw, pc.minted.row.expiresAt);
    }
  }

  lemma ResendStep(cfg: Config, w: World, email: string, pc: Pc, c: Choice, marks: iset<Mark>, marks': iset<Mark>)
    requires WorldOk(cfg, w) && PcOk(cfg, w, pc) && ResendCourse(cfg, w, email, pc, marks)
    requires Grows(cfg, w, pc, c, marks, marks') && !pc.Done?
    ensures var (w', pc') := Advance(cfg, w, pc, c); ResendCourse(cfg, w', email, pc', marks')
  {
    if pc.SendLookup? {
      ResendLooks(cfg, w, email, pc, c, marks, marks');
    } else if pc.SendCreate? {
      ResendCreates(cfg, w, email, pc, c, marks, marks');
    } else if pc.SendFromCache? {
      ResendFromCache(cfg, w, email, pc, c, marks, marks');
    } else if pc.StoreRaw? || pc.Publish? {
      ResendDelivers(cfg, w, email, pc, c, marks, marks');
    }
  }

  lemma ResendLooks(cfg: Config, w: World, email: string, pc: Pc, c: Choice, marks: iset<Mark>, marks': iset<Mark>)
    requires WorldOk(cfg, w) && pc == SendLookup(email) && Grows(cfg, w, pc, c, marks, marks')
    ensures var (w', pc') := Advance(cfg, w, pc, c); ResendCourse(cfg, w', email, pc', marks')
  {
    var found := UserWithEmail(w.users, email);
    if found.None? || w.users[found.value].verifiedAt.Some? {
      forall u | HasEmail(w.users, email, u) ensures w.users[u].verifiedAt.Some? {
        assert found.Some? && found.value == u;
      }
      assert MoveMark(cfg, w, pc, c, NobodyToVerify(email));
    }
  }

  lemma ResendFromCache(cfg: Config, w: World, email: string, pc: Pc, c: Choice, marks: iset<Mark>, marks': iset<Mark>)
    requires WorldOk(cfg, w) && PcOk(cfg, w, pc) && pc.SendFromCache? && ResendCourse(cfg, w, email, pc, marks)
    requires Grows(cfg, w, pc, c, marks, marks')
    ensures var (w', pc') := Advance(cfg, w, pc, c); ResendCourse(cfg, w', email, pc', marks')
  {
    var raw := CachedRaw(w, pc.tokenId);
    if !c.ok {
      assert MoveMark(cfg, w, pc, c, Broke);
    } else if raw.Some? {
      assert TokenEvolves(pc.token, w.tokens[pc.tokenId]);
      assert TokenOf(cfg, w, email, raw.value, pc.token.expiresAt);
    }
  }

  lemma ResendCreates(cfg: Config, w: World, email: string, pc: Pc, c: Choice, marks: iset<Mark>, marks': iset<Mark>)
    requires PcOk(cfg, w, pc) && pc.SendCreate? && ResendCourse(cfg, w, email, pc, marks)
    requires Grows(cfg, w, pc, c, marks, marks')
    ensures var (w', pc') := Advance(cfg, w, pc, c); ResendCourse(cfg, w', email, pc', marks')
  {
    var w' := Advance(cfg, w, pc, c).0;
    TokenFits(w, pc.minted);
    if !c.ok {
      assert MoveMark(cfg, w, pc, c, Broke);
    } else if TokenClash(w, pc.minted) {
      assert MoveMark(cfg, w, pc, c, RowRefused);
    } else {
      assert w'.tokens[pc.minted.id] == Stamped(pc.minted, w.now);
      assert TokenOf(cfg, w', email, pc.minted.raw, pc.minted.row.expiresAt);
    }
  }

  lemma ResendDelivers(cfg: Config, w: World, email: string, pc: Pc, c: Choice, marks: iset<Mark>, marks': iset<Mark>)
    requires (pc.StoreRaw? || pc.Publish?) && ResendCourse(cfg, w, email, pc, marks)
    requires Grows(cfg, w, pc, c, marks, marks')
    ensures var (w', pc') := Advance(cfg, w, pc, c); ResendCourse(cfg, w', email, pc', marks')
  {
    var w' := Advance(cfg, w, pc, c).0;
    assert Evolves(w, w');
    TokenOfStays(cfg, w, w', email, pc.raw, pc.expiresAt);
    if pc.Publish? {
      if c.ok { assert Mail(pc.raw, pc.expiresAt) in w'.mails; } else { assert MoveMark(cfg, w, pc, c, MailLost); }
    }
  }

  lemma CallbackStep(
      cfg: Config, w: World, identity: Identity, pc: Pc, c: Choice, marks: iset<Mark>, marks': iset<Mark>)
    requires WorldOk(cfg, w) && PcOk(cfg, w, pc) && CallbackCourse(cfg, w, identity, pc, marks)
    requires Grows(cfg, w, pc, c, marks, marks') && !pc.Done?
    ensures var (w', pc') := Advance(cfg, w, pc, c); CallbackCourse(cfg, w', identity, pc', marks')
  {
    if pc.CbRegister? {
      CallbackRegisters(cfg, w, identity, pc, c, marks, marks');
    } else if pc.CbLink? {
      CallbackLinks(cfg, w, identity, pc, c, marks, marks');
    } else if pc.CbFindEmail? {
      CallbackFindsEmail(cfg, w, identity, pc, c, marks, marks');
    } else if pc.CbMint? {
      assert MoveMark(cfg, w, pc, c, Minting(c.raw, w.now + cfg.ttl));
    } else if pc.CbLoginLinked? {
      assert MoveMark(cfg, w, pc, c, MetLinked(pc.user, w.users[pc.user].status == Active));
    } else if pc.StoreRaw? || pc.Publish? {
      CallbackDelivers(cfg, w, identity, pc, c, marks, marks');
    }
  }

  lemma CallbackFindsEmail(
      cfg: Config, w: World, identity: Identity, pc: Pc, c: Choice, marks: iset<Mark>, marks': iset<Mark>)
    requires pc == CbFindEmail(identity) && Grows(cfg, w, pc, c, marks, marks')
    ensures var (w', pc') := Advance(cfg, w, pc, c); CallbackCourse(cfg, w', identity, pc', marks')
  {
    var found := UserWithEmail(w.users, identity.email);
    if found.None? {
      assert MoveMark(cfg, w, pc, c, Unowned(identity));
    } else if identity.emailVerified && IsVerified(w, found.value) {
      assert MoveMark(cfg, w, pc, c, Vouched(identity, found.value, w.users[found.value].status == Active));
    } else {
      assert MoveMark(cfg, w, pc, c, NotVouched(identity));
    }
  }

  lemma CallbackDelivers(
      cfg: Config, w: World, identity: Identity, pc: Pc, c: Choice, marks: iset<Mark>, marks': iset<Mark>)
    requires (pc.StoreRaw? || pc.Publish?) && CallbackCourse(cfg, w, identity, pc, marks)
    requires Grows(cfg, w, pc, c, marks, marks')
    ensures var (w', pc') := Advance(cfg, w, pc, c); CallbackCourse(cfg, w', identity, pc', marks')
  {
    var w' := Advance(cfg, w, pc, c).0;
    assert Evolves(w, w');
    TokenOfUserStays(cfg, w, w', pc.next.user, pc.raw, pc.expiresAt);
    if pc.Publish? {
      if c.ok { assert Mail(pc.raw, pc.expiresAt) in w'.mails; } else { assert MoveMark(cfg, w, pc, c, MailLost); }
    }
  }

  lemma CallbackLinks(
      cfg: Config, w: World, identity: Identity, pc: Pc, c: Choice, marks: iset<Mark>, marks': iset<Mark>)
    requires PcOk(cfg, w, pc) && pc.CbLink? && CallbackCourse(cfg, w, identity, pc, marks)
    requires Grows(cfg, w, pc, c, marks, marks')
    ensures var (w', pc') := Advance(cfg, w, pc, c); CallbackCourse(cfg, w', identity, pc', marks')
  {
    if !c.ok {
      assert MoveMark(cfg, w, pc, c, Broke);
    } else if identity.key in w.links {
      assert MoveMark(cfg, w, pc, c, RowRefused);
    } else {
      assert LinkedTo(Advance(cfg, w, pc, c).0, identity.key, pc.user);
    }
  }

  lemma CallbackRegisters(
      cfg: Config, w: World, identity: Identity, pc: Pc, c: Choice, marks: iset<Mark>, marks': iset<Mark>)
    requires PcOk(cfg, w, pc) && pc.CbRegister? && CallbackCourse(cfg, w, identity, pc, marks)
    requires Grows(cfg, w, pc, c, marks, marks')
    ensures var (w', pc') := Advance(cfg, w, pc, c); CallbackCourse(cfg, w', identity, pc', marks')
  {
    var (w', pc') := Advance(cfg, w, pc, c);
    var w1 := InsertUser(w, pc.userId, pc.account);
    var w2 := InsertLink(w1, identity.key, LinkRow(pc.userId, identity.email, WithAccount));
    UserFits(w, pc.userId, pc.account);
    if pc.verification.Some? { TokenFits(w2, pc.verification.value); }
    if !c.ok {
      assert MoveMark(cfg, w, pc, c, Broke);
    } else if Clashes(w, pc) {
      assert MoveMark(cfg, w, pc, c, RowRefused);
    } else {
      assert LinkedTo(w', identity.key, pc.userId);
      if pc.verification.Some? {
        var m := pc.verification.value;
        assert TokenFor(w', cfg.hash(m.raw), m.id, pc.userId);
        assert TokenOfUser(cfg, w', pc.userId, m.raw, m.row.expiresAt);
      }
    }
  }

  lemma VerifyStep(cfg: Config, w: World, raw: string, pc: Pc, c: Choice, marks: iset<Mark>, marks': iset<Mark>)
    requires WorldOk(cfg, w) && PcOk(cfg, w, pc) && VerifyCourse(cfg, w, raw, pc, marks)
    requires Grows(cfg, w, pc, c, marks, marks') && !pc.Done?
    ensures var (w', pc') := Advance(cfg, w, pc, c); VerifyCourse(cfg, w', raw, pc', marks')
  {
    if pc.VerFindToken? {
      VerifyFinds(cfg, w, raw, pc, c, marks, marks');
    } else if pc.VerCheck? {
      VerifyChecks(cfg, w, raw, pc, c, marks, marks');
    } else if pc.VerLoad? {
      assert MoveMark(cfg, w, pc, c, Loaded(pc.token.user, w.users[pc.token.user].status, w.now));
    } else if pc.VerCommit? {
      VerifyCommits(cfg, w, raw, pc, c, marks, marks');
    } else if pc.VerReread? {
      assert MoveMark(cfg, w, pc, c, SawStamp(pc.user, w.users[pc.user].verifiedAt.value));
    }
  }

  lemma VerifyFinds(cfg: Config, w: World, raw: string, pc: Pc, c: Choice, marks: iset<Mark>, marks': iset<Mark>)
    requires pc == VerFindToken(raw) && Grows(cfg, w, pc, c, marks, marks')
    ensures var (w', pc') := Advance(cfg, w, pc, c); VerifyCourse(cfg, w', raw, pc', marks')
  {
    var hash := cfg.hash(raw);
    var found := TokenWithHash(w.tokens, hash);
    if found.None? {
      forall t | t in w.tokens ensures w.tokens[t].hash != hash { assert !HasHash(w.tokens, hash, t); }
      assert MoveMark(cfg, w, pc, c, NoToken(hash, w.now));
    } else if w.tokens[found.value].consumedAt.None? {
      assert MoveMark(cfg, w, pc, c, SawUnconsumed(hash));
    }
  }

  lemma VerifyChecks(cfg: Config, w: World, raw: string, pc: Pc, c: Choice, marks: iset<Mark>, marks': iset<Mark>)
    requires PcOk(cfg, w, pc) && pc.VerCheck? && VerifyCourse(cfg, w, raw, pc, marks)
    requires Grows(cfg, w, pc, c, marks, marks')
    ensures var (w', pc') := Advance(cfg, w, pc, c); VerifyCourse(cfg, w', raw, pc', marks')
  {
    assert TokenEvolves(pc.token, w.tokens[pc.tokenId]);
    if pc.token.consumedAt.Some? {
      assert SpentFor(w, cfg.hash(raw), pc.token.user);
    } else if pc.token.expiresAt <= w.now {
      assert MoveMark(cfg, w, pc, c, SawExpired(cfg.hash(raw), w.now));
    }
  }

  lemma VerifyCommits(cfg: Config, w: World, raw: string, pc: Pc, c: Choice, marks: iset<Mark>, marks': iset<Mark>)
    requires TokensOk(w) && PcOk(cfg, w, pc) && pc.VerCommit? && VerifyCourse(cfg, w, raw, pc, marks)
    requires Grows(cfg, w, pc, c, marks, marks')
    ensures var (w', pc') := Advance(cfg, w, pc, c); VerifyCourse(cfg, w', raw, pc', marks')
  {
    var (w', pc') := Advance(cfg, w, pc, c);
    var hash := cfg.hash(raw);
    if !c.ok {
      assert MoveMark(cfg, w, pc, c, Broke);
    } else {
      assert TokenFor(w', hash, pc.tokenId, pc.user) && w'.tokens[pc.tokenId].consumedAt.Some?;
      assert SpentFor(w', hash, pc.user);
      if pc'.Done? { assert StoredAt(w', pc.user, pc.at) && MoveMark(cfg, w, pc, c, SawStamp(pc.user, pc.at)); }
    }
  }

  lemma CourseStep(cfg: Config, w: World, entry: Pc, pc: Pc, c: Choice, marks: iset<Mark>, marks': iset<Mark>)
    requires Entry(entry) && WorldOk(cfg, w) && PcOk(cfg, w, pc) && OnCourse(cfg, w, entry, pc, marks)
    requires Grows(cfg, w, pc, c, marks, marks') && !pc.Done?
    ensures var (w', pc') := Advance(cfg, w, pc, c); OnCourse(cfg, w', entry, pc', marks')
  {
    match entry
    case RegLookup(email) => RegisterStep(cfg, w, email, pc, c, marks, marks');
    case SendLookup(email) => ResendStep(cfg, w, email, pc, c, marks, marks');
    case CbFindLink(identity) => CallbackStep(cfg, w, identity, pc, c, marks, marks');
    case VerFindToken(raw) => VerifyStep(cfg, w, raw, pc, c, marks, marks');
  }

  lemma EventOnCourse(cfg: Config, t: State, e: Event, call: Id, entry: Pc, marks: iset<Mark>, marks': iset<Mark>)
    requires Inv(cfg, t) && Entry(entry) && call in t.calls && OnCourse(cfg, t.world, entry, t.calls[call], marks)
    requires Extends(cfg, t, e, call, marks, marks')
    ensures var t' := Step(cfg, t, e); call in t'.calls && OnCourse(cfg, t'.world, entry, t'.calls[call], marks')
  {
    var pc := t.calls[call];
    if e.Move? && e.call == call && !pc.Done? {
      assert PcOk(cfg, t.world, pc);
      forall m | MoveMark(cfg, t.world, pc, e.choice, m) ensures m in marks' {
        assert MarkAt(cfg, t, e, call, m);
      }
      CourseStep(cfg, t.world, entry, pc, e.choice, marks, marks');
    } else {
      StepKeeps(cfg, t, e);
      StandsStill(cfg, t, e, call);
      CourseStays(cfg, t.world, Step(cfg, t, e).world, entry, pc, marks, marks');
      if e == Crash(call) { assert MarkAt(cfg, t, e, call, Broke); }
    }
  }

  lemma StandsStill(cfg: Config, t: State, e: Event, call: Id)
    requires call in t.calls && !(e.Move? && e.call == call && !t.calls[call].Done?)
    ensures var t' := Step(cfg, t, e);
            && call in t'.calls
            && (t'.calls[call] == t.calls[call] || (e == Crash(call) && t'.calls[call] == Done(Failed)))
  {
  }

  lemma {:induction false} AnswersJustified(cfg: Config, s: State, run: seq<Event>, call: Id, entry: Pc)
    requires Inv(cfg, s) && Entry(entry) && call in s.calls && s.calls[call] == entry
    ensures var s' := Exec(cfg, s, run);
            call in s'.calls && OnCourse(cfg, s'.world, entry, s'.calls[call], Marks(cfg, s, run, call))
    decreases |run|
  {
    if run != [] {
      var n := |run| - 1;
      AnswersJustified(cfg, s, run[..n], call, entry);
      RunKeeps(cfg, s, run[..n]);
      MarksExtend(cfg, s, run, call, n);
      EventOnCourse(cfg, Exec(cfg, s, run[..n]), run[n], call, entry, Marks(cfg, s, run[..n], call),
                    Marks(cfg, s, run, call));
    }
  }

  // ------------------------------------------------------------ the results

  /**
   Over every run: a registration is told that the address is taken only if its
   lookup found an account; it fails only if it was broken or a row it inserts
   breaks a key or a check; and when it answers well the account is there, with
   a password and a token, and the token was mailed unless the mail was lost.
   */
  lemma {:induction false} RegisterAnswersJustified(cfg: Config, s: State, run: seq<Event>, call: Id, email: string)
    requires Inv(cfg, s) && call in s.calls && s.calls[call] == RegLookup(email)
    ensures var s' := Exec(cfg, s, run);
            call in s'.calls && RegisterCourse(cfg, s'.world, email, s'.calls[call], Marks(cfg, s, run, call))
  {
    AnswersJustified(cfg, s, run, call, RegLookup(email));
  }

  /**
   Over every run: a resend that answers well has mailed a token of the
   address's account, unless its lookup found no unverified account or the
   mail was lost; it fails only if broken or refused a row.
   */
  lemma {:induction false} ResendAnswersJustified(cfg: Config, s: State, run: seq<Event>, call: Id, email: string)
    requires Inv(cfg, s) && call in s.calls && s.calls[call] == SendLookup(email)
    ensures var s' := Exec(cfg, s, run);
            call in s'.calls && ResendCourse(cfg, s'.world, email, s'.calls[call], Marks(cfg, s, run, call))
  {
    AnswersJustified(cfg, s, run, call, SendLookup(email));
  }

  /**
   Over every run: a callback signs in only to the account its identity is
   linked to, and only when it met the link with that account active, or found
   it active with both sides vouching, or found no account and made this one,
   telling it to verify unless the provider vouches; it locks out only an
   account met otherwise in the first two ways, and refuses an address only if
   it found its account without both sides vouching.
   */
  lemma {:induction false} CallbackAnswersJustified(
      cfg: Config, s: State, run: seq<Event>, call: Id, identity: Identity)
    requires Inv(cfg, s) && call in s.calls && s.calls[call] == CbFindLink(identity)
    ensures var s' := Exec(cfg, s, run);
            call in s'.calls && CallbackCourse(cfg, s'.world, identity, s'.calls[call], Marks(cfg, s, run, call))
  {
    AnswersJustified(cfg, s, run, call, CbFindLink(identity));
  }

  /**
   Over every run: a verification is refused only if no token had the hash, or
   it found it unconsumed and checked it at or after its expiry; it answers
   only a time it met or wrote; and it fails only if broken.
   */
  lemma {:induction false} VerifyAnswersJustified(cfg: Config, s: State, run: seq<Event>, call: Id, raw: string)
    requires Inv(cfg, s) && call in s.calls && s.calls[call] == VerFindToken(raw)
    ensures var s' := Exec(cfg, s, run);
            call in s'.calls && VerifyCourse(cfg, s'.world, raw, s'.calls[call], Marks(cfg, s, run, call))
  {
    AnswersJustified(cfg, s, run, call, VerFindToken(raw));
  }

  // ---------------------------------------------------------------- writes

  /** A minted token as the statement that inserts it leaves it. */
  predicate NewToken(w: World, w': World, m: Minted) {
    m.id !in w.tokens && (forall t :: t in w.tokens ==> w.tokens[t].hash != m.row.hash)
    && w'.tokens == w.tokens[m.id := TokenRow(m.row.user, m.row.hash, w.now, m.row.expiresAt, None)]
  }

  predicate NewUser(w: World, w': World, userId: Id, account: UserRow) {
    userId !in w.users && (forall u :: u in w.users ==> w.users[u].email != account.email)
    && w'.users == w.users[userId := account]
  }

  predicate NewLink(w: World, w': World, identity: Identity, user: Id, origin: Origin) {
    identity.key !in w.links && w'.links == w.links[identity.key := LinkRow(user, identity.email, origin)]
  }

  /** The token is consumed and its owner verified as of the time it was loaded; PENDING becomes ACTIVE. */
  predicate NewlyVerified(w: World, w': World, t: Id, user: Id, status: Status, at: Time) {
    && t in w.tokens && w.tokens[t].consumedAt.None? && user in w.users
    && w'.tokens == w.tokens[t := w.tokens[t].(consumedAt := Some(w.now))]
    && w'.users == w.users[user := w.users[user].(verifiedAt := Some(at),
                                                  status := if status == Pending then Active else status)]
  }

  /** The statements that may write, and what each writes. */
  ghost predicate Writes(cfg: Config, w: World, w': World, pc: Pc) {
    match pc
    case RegCommit(userId, account, m) =>
      && NewUser(w, w', userId, account) && NewToken(w, w', m)
      && w' == w.(users := w'.users, tokens := w'.tokens)
    case SendCreate(m) => NewToken(w, w', m) && w' == w.(tokens := w'.tokens)
    case CbRegister(identity, userId, account, m) =>
      && NewUser(w, w', userId, account) && NewLink(w, w', identity, userId, WithAccount)
      && (if m.Some? then NewToken(w, w', m.value) else w'.tokens == w.tokens)
      && w' == w.(users := w'.users, tokens := w'.tokens, links := w'.links)
    case CbLink(identity, user, _) =>
      NewLink(w, w', identity, user, AutoLinked(identity.emailVerified)) && w' == w.(links := w'.links)
    case VerCommit(t, user, status, at) =>
      NewlyVerified(w, w', t, user, status, at) && w' == w.(users := w'.users, tokens := w'.tokens)
    case StoreRaw(t, raw, _, _) =>
      w' == w.(cache := w'.cache) && w'.cache == w.cache[t := CacheEntry(raw, w.now + cfg.ttl)]
    case Publish(raw, expiresAt, _) =>
      w' == w.(mails := w'.mails) && w'.mails == w.mails + {Mail(raw, expiresAt)}
    case _ => false
  }

  lemma UserIsNew(w: World, w': World, userId: Id, account: UserRow)
    requires UserInsertable(w, userId, account) && w'.users == w.users[userId := account]
    ensures NewUser(w, w', userId, account)
  {
    UserFits(w, userId, account);
  }

  lemma TokenIsNew(w: World, w': World, mid: World, m: Minted)
    requires TokenInsertable(mid, m.id, Stamped(m, w.now)) && mid.tokens == w.tokens && m.row.consumedAt.None?
    requires w'.tokens == w.tokens[m.id := Stamped(m, w.now)]
    ensures NewToken(w, w', m)
  {
    forall t | t in w.tokens ensures w.tokens[t].hash != m.row.hash {
      assert !HasHash(mid.tokens, m.row.hash, t);
    }
  }

  lemma RegisterWrites(cfg: Config, w: World, pc: Pc, c: Choice)
    requires PcOk(cfg, w, pc) && pc.RegCommit?
    ensures var w' := Advance(cfg, w, pc, c).0; w' == w || Writes(cfg, w, w', pc)
  {
    var w' := Advance(cfg, w, pc, c).0;
    if w' != w {
      UserIsNew(w, w', pc.userId, pc.account);
      TokenIsNew(w, w', InsertUser(w, pc.userId, pc.account), pc.minted);
    }
  }

  lemma ResendWrites(cfg: Config, w: World, pc: Pc, c: Choice)
    requires PcOk(cfg, w, pc) && pc.SendCreate?
    ensures var w' := Advance(cfg, w, pc, c).0; w' == w || Writes(cfg, w, w', pc)
  {
    var w' := Advance(cfg, w, pc, c).0;
    if w' != w { TokenIsNew(w, w', w, pc.minted); }
  }

  lemma CallbackWrites(cfg: Config, w: World, pc: Pc, c: Choice)
    requires PcOk(cfg, w, pc) && pc.CbRegister?
    ensures var w' := Advance(cfg, w, pc, c).0; w' == w || Writes(cfg, w, w', pc)
  {
    var w' := Advance(cfg, w, pc, c).0;
    var w1 := InsertUser(w, pc.userId, pc.account);
    if w' != w {
      UserIsNew(w, w', pc.userId, pc.account);
      if pc.verification.Some? {
        var w2 := InsertLink(w1, pc.identity.key, LinkRow(pc.userId, pc.identity.email, WithAccount));
        TokenIsNew(w, w', w2, pc.verification.value);
      }
    }
  }

  lemma StatementWrites(cfg: Config, w: World, pc: Pc, c: Choice)
    requires WorldOk(cfg, w) && PcOk(cfg, w, pc)
    ensures var w' := Advance(cfg, w, pc, c).0; w' == w || Writes(cfg, w, w', pc)
  {
    if pc.RegCommit? {
      RegisterWrites(cfg, w, pc, c);
    } else if pc.SendCreate? {
      ResendWrites(cfg, w, pc, c);
    } else if pc.CbRegister? {
      CallbackWrites(cfg, w, pc, c);
    }
  }

  /**
   Over every run the world changes by these statements alone, apart from the
   clock, lost cache entries and an operator's change of status; each writes
   just its rows, whatever ran since its call last looked.
   */
  lemma {:induction false} WorldChangesByStatements(cfg: Config, s: State, run: seq<Event>, k: nat)
    requires Inv(cfg, s) && k < |run| && (run[k].Start? || run[k].Move? || run[k].Crash?)
    ensures var t := Exec(cfg, s, run[..k]);
            var w' := Exec(cfg, s, run[..k + 1]).world;
            || w' == t.world
            || (run[k].Move? && run[k].call in t.calls && Writes(cfg, t.world, w', t.calls[run[k].call]))
  {
    assert run[..k + 1][..k] == run[..k];
    var t := Exec(cfg, s, run[..k]);
    RunKeeps(cfg, s, run[..k]);
    if run[k].Move? && run[k].call in t.calls {
      StatementWrites(cfg, t.world, t.calls[run[k].call], run[k].choice);
    }
  }
}
