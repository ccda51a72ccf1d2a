/**
 Why a call was answered as it was: over every run, each answer of refresh,
 logout and session issuing rests on something that happened in the run,
 whatever the other calls did between its statements. And what a call writes:
 the tables change by four kinds of commit alone.
 */
module SessionAnswers {
  import opened Prelude
  import opened TokenTables
  import opened TokenChains
  import opened RefreshProtocol
  import opened IssueProtocol
  import opened SessionMachine
  import opened SessionInvariant
  import opened SessionPreservation
  import opened SessionMoves

  /** What one event of a run may show about a call. */
  datatype Mark =
    | Unknown(hash: string)               // it looked for a hash no row had
    | Minting(child: Id, hash: string, expiresAt: Time)
    | Exchanged(parent: Id, child: Id, hash: string, expiresAt: Time)  // its commit did just this to the tables
    | ChildRefused                        // its new token broke a key or a check
    | Crashed
    | Ended(session: Id, family: Id)      // it committed; afterwards session and family are revoked
    | BegunAt(time: Time)                 // its transaction began then
    | FoundActive(session: Id)            // it found this session active in its slot
    | JudgedOld(session: Id)              // it judged the session it had found: past the grace period
    | RowRefused                          // its session or root token broke a key or a check
    | RootExpires(at: Time)               // the expiry it gave its root token
    | TookSlot(start: Time, root: Time)   // it committed; afterwards the slot is its own

  predicate NoRow(db: Db, hash: string) {
    forall t :: t in db.tokens ==> db.tokens[t].hash != hash
  }

  predicate TokenBreaks(db: Db, id: Id, hash: string, createdAt: Time, expiresAt: Time) {
    id in db.tokens || !NoRow(db, hash) || expiresAt <= createdAt
  }

  ghost predicate AllRevoked(db: Db, session: Id, family: Id) {
    && session in db.sessions && db.sessions[session].revoked.Some?
    && forall t :: InFamily(db.tokens, family, t) ==> db.tokens[t].revoked.Some?
  }

  /** Of the rows of two tables only the slot's differ: the former session is superseded, the new one is there. */
  ghost predicate SlotTaken(cfg: Config, db: Db, db': Db, req: Request, start: Time, rootExpiry: Time) {
    && (forall id :: ActiveIn(db', req.user, req.device, id) <==> id == req.sessionId)
    && req.sessionId !in db.sessions && req.sessionId in db'.sessions
    && db'.sessions[req.sessionId] == SessionRow(req.user, req.device, start, start + cfg.sessionTtl, None, None)
    && (forall id :: id in db.sessions ==>
          && id in db'.sessions
          && if ActiveIn(db, req.user, req.device, id)
             then db'.sessions[id].revoked.Some? && db'.sessions[id].revoked.value.reason == SessionSuperseded
             else db'.sessions[id] == db.sessions[id])
    && req.tokenId !in db.tokens && req.tokenId in db'.tokens
    && db'.tokens == db.tokens[req.tokenId := db'.tokens[req.tokenId]]
    && var root := db'.tokens[req.tokenId];
       && root.session == req.sessionId && root.family == req.familyId && root.parent.None? && root.hash == req.hash
       && root.createdAt == start && root.expiresAt == rootExpiry && root.consumedAt.None? && root.revoked.None?
  }

  /** The parent is consumed, one child of it is there, its session is marked as refreshed, and that is all. */
  predicate TokenExchanged(db: Db, db': Db, now: Time, parent: Id, child: Id, hash: string, expiresAt: Time) {
    && parent in db.tokens && db.tokens[parent].consumedAt.None? && child !in db.tokens && NoRow(db, hash)
    && var row := db.tokens[parent];
       && row.session in db.sessions
       && db'.tokens == db.tokens[parent := row.(consumedAt := Some(now))]
                                 [child := TokenRow(row.session, row.family, Some(parent), hash, now, expiresAt,
                                                    None, None)]
       && db'.sessions
          == db.sessions[row.session := db.sessions[row.session].(lastRefreshedAt := Some(now))]
  }

  ghost predicate MarkAt(cfg: Config, t: State, e: Event, call: Id, m: Mark) {
    match m
    case Unknown(hash) =>
      (e == Refresh(call, ReadToken) || e == Logout(call, LogoutReadToken)) && NoRow(t.db, hash)
    case Minting(child, hash, expiresAt) =>
      e == Refresh(call, Mint(child, hash)) && expiresAt == t.now + cfg.refreshTtl
    case Exchanged(parent, child, hash, expiresAt) =>
      && e.Refresh? && e.call == call && e.refresh.Rotate?
      && TokenExchanged(t.db, Step(cfg, t, e).db, t.now, parent, child, hash, expiresAt)
    case ChildRefused =>
      && e.Refresh? && e.call == call && e.refresh.Rotate? && call in t.refreshes && t.refreshes[call].Minted?
      && var pc := t.refreshes[call];
         TokenBreaks(t.db, pc.childId, pc.child.hash, t.now, pc.child.expiresAt)
    case Crashed => e == Refresh(call, RefreshCrash) || e == Logout(call, LogoutCrash) || e == Issue(call, IssueCrash)
    case Ended(session, family) =>
      e == Logout(call, LogoutCommit) && AllRevoked(Step(cfg, t, e).db, session, family)
    case BegunAt(time) => e == Issue(call, Begin) && t.now == time
    case FoundActive(id) =>
      e == Issue(call, Find) && call in t.issues
      && ActiveIn(t.db, t.issues[call].req.user, t.issues[call].req.device, id)
    case JudgedOld(id) =>
      && e == Issue(call, Decide) && call in t.issues && t.issues[call].pc.Looked?
      && t.issues[call].pc.found == Some(id)
      && InSlot(t.db, t.issues[call].req, id) && t.now - t.db.sessions[id].createdAt > cfg.grace
    case RowRefused =>
      && (e == Issue(call, WriteSession) || e == Issue(call, Commit)) && call in t.issues
      && var Issuing(req, pc) := t.issues[call];
         || req.sessionId in t.db.sessions || cfg.sessionTtl <= 0
         || (pc.TokenWritten? && TokenBreaks(t.db, req.tokenId, req.hash, pc.txStart, pc.tokenExpiresAt))
    case RootExpires(at) => e == Issue(call, WriteToken) && at == t.now + cfg.refreshTtl
    case TookSlot(start, root) =>
      e == Issue(call, Commit) && call in t.issues
      && SlotTaken(cfg, t.db, Step(cfg, t, e).db, t.issues[call].req, start, root)
  }

  /** Everything the run has shown about the call. */
  ghost function Marks(cfg: Config, s: State, run: seq<Event>, call: Id): iset<Mark> {
    iset m | MarkedBy(cfg, s, run, call, m)
  }

  ghost predicate MarkedBy(cfg: Config, s: State, run: seq<Event>, call: Id, m: Mark) {
    exists k :: 0 <= k < |run| && MarkedAt(cfg, s, run, call, m, k)
  }

  ghost predicate MarkedAt(cfg: Config, s: State, run: seq<Event>, call: Id, m: Mark, k: nat)
    requires k < |run|
  {
    MarkAt(cfg, Exec(cfg, s, run[..k]), run[k], call, m)
  }

  /** Marks stay, and the last event adds its own. */
  ghost predicate Extends(cfg: Config, t: State, e: Event, call: Id, marks: iset<Mark>, marks': iset<Mark>) {
    marks <= marks' && forall m :: MarkAt(cfg, t, e, call, m) ==> m in marks'
  }

  lemma {:induction false} MarksExtend(cfg: Config, s: State, run: seq<Event>, call: Id, n: nat)
    requires |run| == n + 1
    ensures Extends(cfg, Exec(cfg, s, run[..n]), run[n], call, Marks(cfg, s, run[..n], call), Marks(cfg, s, run, call))
  {
    forall m | MarkedBy(cfg, s, run[..n], call, m) ensures MarkedBy(cfg, s, run, call, m) {
      var k :| 0 <= k < n && MarkedAt(cfg, s, run[..n], call, m, k);
      assert run[..n][..k] == run[..k] && run[..n][k] == run[k];
      assert MarkedAt(cfg, s, run, call, m, k);
    }
    forall m | MarkAt(cfg, Exec(cfg, s, run[..n]), run[n], call, m) ensures MarkedBy(cfg, s, run, call, m) {
      assert MarkedAt(cfg, s, run, call, m, n);
    }
  }

  // --------------------------------------------------------------- refresh

  /** The token cannot be exchanged any more: revoked, past its expiry, or its session is. */
  ghost predicate Spent(db: Db, now: Time, id: Id)
    requires id in db.tokens
  {
    var row := db.tokens[id];
    || row.revoked.Some? || row.expiresAt < now
    || (row.session in db.sessions
        && (db.sessions[row.session].revoked.Some? || db.sessions[row.session].expiresAt < now))
  }

  ghost predicate RefreshCourse(db: Db, now: Time, pc: RefreshPc, hash: string, marks: iset<Mark>) {
    match pc
    case Presented(h) => h == hash
    case TokenRead(id, _) => HasHash(db.tokens, hash, id)
    case SessionRead(id, _, _) => HasHash(db.tokens, hash, id)
    case TokenPassed(id, _, _) => HasHash(db.tokens, hash, id)
    case SessionPassed(id, _, _) => HasHash(db.tokens, hash, id)
    case Minted(id, _, _, childId, child) =>
      HasHash(db.tokens, hash, id) && Minting(childId, child.hash, child.expiresAt) in marks
    case Replaying(id, _) => HasHash(db.tokens, hash, id)
    case RefreshDone(outcome) =>
      match outcome
      case Rotated(parent, child, _) =>
        && HasHash(db.tokens, hash, parent)
        && exists h: string, at: Time ::
             Minting(child, h, at) in marks && Exchanged(parent, child, h, at) in marks
      case ReplayDetected(token, _) => HasHash(db.tokens, hash, token)
      case InvalidToken => Unknown(hash) in marks || exists id :: HasHash(db.tokens, hash, id) && Spent(db, now, id)
      case RefreshFailed => Crashed in marks || ChildRefused in marks
  }

  lemma RefreshCourseStays(
      db: Db, now: Time, db': Db, now': Time, pc: RefreshPc, hash: string, marks: iset<Mark>, marks': iset<Mark>)
    requires DbEvolves(db, db') && now <= now' && marks <= marks' && RefreshCourse(db, now, pc, hash, marks)
    ensures RefreshCourse(db', now', pc, hash, marks')
  {
    if pc.RefreshDone? && pc.outcome.InvalidToken? && Unknown(hash) !in marks {
      var id :| HasHash(db.tokens, hash, id) && Spent(db, now, id);
      assert TokenEvolves(db.tokens[id], db'.tokens[id]);
      assert HasHash(db'.tokens, hash, id) && Spent(db', now', id);
    }
  }

  /** One statement of the call keeps it on course. */
  lemma RefreshCourseStep(
      cfg: Config, t: State, call: Id, ev: RefreshEvent, hash: string, marks: iset<Mark>, marks': iset<Mark>)
    requires Inv(cfg, t) && call in t.refreshes && Extends(cfg, t, Refresh(call, ev), call, marks, marks')
    requires RefreshCourse(t.db, t.now, t.refreshes[call], hash, marks) && !RotationWaits(t, call, ev)
    ensures RefreshCourse(t.db, t.now, RefreshStep(cfg.refreshTtl, t.db, t.now, t.refreshes[call], ev).1, hash, marks')
  {
    if ev.CheckToken? || ev.CheckSession? {
      CheckOnCourse(cfg, t, call, ev, hash, marks, marks');
    } else if ev.Rotate? || ev.RevokeReplayed? {
      RotateOnCourse(cfg, t, call, ev, hash, marks, marks');
    } else if ev.Mint? {
      MintOnCourse(cfg, t, call, ev, hash, marks, marks');
    } else {
      ReadOnCourse(cfg, t, call, ev, hash, marks, marks');
    }
  }

  lemma CheckOnCourse(
      cfg: Config, t: State, call: Id, ev: RefreshEvent, hash: string, marks: iset<Mark>, marks': iset<Mark>)
    requires Inv(cfg, t) && call in t.refreshes && Extends(cfg, t, Refresh(call, ev), call, marks, marks')
    requires RefreshCourse(t.db, t.now, t.refreshes[call], hash, marks) && (ev.CheckToken? || ev.CheckSession?)
    ensures RefreshCourse(t.db, t.now, RefreshStep(cfg.refreshTtl, t.db, t.now, t.refreshes[call], ev).1, hash, marks')
  {
    assert RefreshOk(t.db, t.refreshes[call]);
    SpentTokens(t.db, t.now, t.refreshes[call]);
  }

  lemma RotateOnCourse(
      cfg: Config, t: State, call: Id, ev: RefreshEvent, hash: string, marks: iset<Mark>, marks': iset<Mark>)
    requires Inv(cfg, t) && call in t.refreshes && Extends(cfg, t, Refresh(call, ev), call, marks, marks')
    requires RefreshCourse(t.db, t.now, t.refreshes[call], hash, marks)
    requires (ev.Rotate? || ev.RevokeReplayed?) && !RotationWaits(t, call, ev)
    ensures RefreshCourse(t.db, t.now, RefreshStep(cfg.refreshTtl, t.db, t.now, t.refreshes[call], ev).1, hash, marks')
  {
    if ev.Rotate? && t.refreshes[call].Minted? {
      RotationRefusal(cfg, t, call, ev);
      RotationExchanges(cfg, t, call, ev.delivered);
    }
  }

  lemma ReadOnCourse(
      cfg: Config, t: State, call: Id, ev: RefreshEvent, hash: string, marks: iset<Mark>, marks': iset<Mark>)
    requires Inv(cfg, t) && call in t.refreshes && Extends(cfg, t, Refresh(call, ev), call, marks, marks')
    requires RefreshCourse(t.db, t.now, t.refreshes[call], hash, marks)
    requires ev.ReadToken? || ev.ReadSession? || ev.RefreshCrash?
    ensures RefreshCourse(t.db, t.now, RefreshStep(cfg.refreshTtl, t.db, t.now, t.refreshes[call], ev).1, hash, marks')
  {
    assert RefreshOk(t.db, t.refreshes[call]);
    if ev.RefreshCrash? { assert MarkAt(cfg, t, Refresh(call, ev), call, Crashed); }
    if ev.ReadToken? { LookMarks(cfg, t, Refresh(call, ev), call, hash); }
  }

  lemma MintOnCourse(
      cfg: Config, t: State, call: Id, ev: RefreshEvent, hash: string, marks: iset<Mark>, marks': iset<Mark>)
    requires call in t.refreshes && Extends(cfg, t, Refresh(call, ev), call, marks, marks') && ev.Mint?
    requires RefreshCourse(t.db, t.now, t.refreshes[call], hash, marks)
    ensures RefreshCourse(t.db, t.now, RefreshStep(cfg.refreshTtl, t.db, t.now, t.refreshes[call], ev).1, hash, marks')
  {
    assert MarkAt(cfg, t, Refresh(call, ev), call, Minting(ev.childId, ev.childHash, t.now + cfg.refreshTtl));
  }

  lemma LookMarks(cfg: Config, t: State, e: Event, call: Id, hash: string)
    requires e == Refresh(call, ReadToken) || e == Logout(call, LogoutReadToken)
    ensures TokenWithHash(t.db.tokens, hash).None? ==> MarkAt(cfg, t, e, call, Unknown(hash))
  {
    if TokenWithHash(t.db.tokens, hash).None? {
      forall x | x in t.db.tokens ensures t.db.tokens[x].hash != hash {
        assert !HasHash(t.db.tokens, hash, x);
      }
    }
  }

  /** What a call has seen of a spent token or session is still true. */
  lemma SpentTokens(db: Db, now: Time, pc: RefreshPc)
    requires RefreshOk(db, pc)
    ensures pc.SessionRead? && (pc.token.revoked.Some? || pc.token.expiresAt < now) ==> Spent(db, now, pc.id)
    ensures pc.TokenPassed? && (pc.session.revoked.Some? || pc.session.expiresAt < now) ==> Spent(db, now, pc.id)
  {
    if pc.SessionRead? { assert TokenEvolves(pc.token, db.tokens[pc.id]); }
    if pc.TokenPassed? { assert SessionEvolves(pc.session, db.sessions[pc.token.session]); }
  }

  /** The only rotation that fails is one whose new row breaks a key or a check. */
  lemma RotationRefusal(cfg: Config, t: State, call: Id, ev: RefreshEvent)
    requires Inv(cfg, t) && call in t.refreshes && t.refreshes[call].Minted? && ev.Rotate?
    ensures RefreshStep(cfg.refreshTtl, t.db, t.now, t.refreshes[call], ev).1 == RefreshDone(RefreshFailed)
            ==> MarkAt(cfg, t, Refresh(call, ev), call, ChildRefused)
  {
    var pc := t.refreshes[call];
    assert RefreshOk(t.db, pc);
    var child := pc.child.(createdAt := t.now);
    if !TokenBreaks(t.db, pc.childId, pc.child.hash, t.now, pc.child.expiresAt) {
      assert forall x :: !HasHash(ConsumeToken(t.db, pc.id, t.now).tokens, pc.child.hash, x);
      assert TokenInsertable(ConsumeToken(t.db, pc.id, t.now), pc.childId, child);
    }
  }

  /** It waits for the row of its session while another call holds it. */
  ghost predicate RotationWaits(t: State, call: Id, ev: RefreshEvent)
    requires call in t.refreshes
  {
    t.refreshes[call].Minted? && ev.Rotate? && RowLocked(t, t.refreshes[call].token.session)
  }

  /** Whatever ran since the token was read, a rotation that commits exchanges it and does nothing else. */
  lemma RotationExchanges(cfg: Config, t: State, call: Id, delivered: bool)
    requires Inv(cfg, t) && call in t.refreshes && t.refreshes[call].Minted?
    requires !RotationWaits(t, call, Rotate(delivered))
    ensures var pc := t.refreshes[call];
            RotateStep(t.db, t.now, pc, delivered).1 == RefreshDone(Rotated(pc.id, pc.childId, delivered)) ==>
              MarkAt(cfg, t, Refresh(call, Rotate(delivered)), call,
                     Exchanged(pc.id, pc.childId, pc.child.hash, pc.child.expiresAt))
  {
    assert RefreshOk(t.db, t.refreshes[call]);
    assert Step(cfg, t, Refresh(call, Rotate(delivered))).db == RotateStep(t.db, t.now, t.refreshes[call], delivered).0;
    ExchangesToken(t.db, t.now, t.refreshes[call], delivered);
  }

  lemma ExchangesToken(db: Db, now: Time, pc: RefreshPc, delivered: bool)
    requires pc.Minted? && RefreshOk(db, pc)
    ensures var (db', pc') := RotateStep(db, now, pc, delivered);
            pc' == RefreshDone(Rotated(pc.id, pc.childId, delivered)) ==>
              TokenExchanged(db, db', now, pc.id, pc.childId, pc.child.hash, pc.child.expiresAt)
  {
    var consumed := ConsumeToken(db, pc.id, now);
    if TokenInsertable(consumed, pc.childId, pc.child.(createdAt := now)) {
      forall x | x in db.tokens ensures db.tokens[x].hash != pc.child.hash {
        assert !HasHash(consumed.tokens, pc.child.hash, x);
      }
    }
  }

  lemma TimePasses(cfg: Config, s: State, e: Event)
    ensures s.now <= Step(cfg, s, e).now
  {
  }

  /**
   Over every run: a refresh is refused as invalid only if no row had the
   presented hash when it looked, or the token or its session is revoked or
   past its expiry; it fails only by a crash or a new row that breaks a key or
   a check; it exchanges, or replays, no other token than the presented one;
   and its commit then consumes it, adds the one child it minted, in the same
   session and family, marks the session as refreshed and changes nothing else.
   */
  lemma {:induction false} RefreshAnswersJustified(cfg: Config, s: State, run: seq<Event>, call: Id, hash: string)
    requires cfg.variant == AsBuilt && Inv(cfg, s) && call in s.refreshes && s.refreshes[call] == Presented(hash)
    ensures var s' := Exec(cfg, s, run);
            && call in s'.refreshes
            && RefreshCourse(s'.db, s'.now, s'.refreshes[call], hash, Marks(cfg, s, run, call))
    decreases |run|
  {
    if run != [] {
      var n := |run| - 1;
      var t := Exec(cfg, s, run[..n]);
      RefreshAnswersJustified(cfg, s, run[..n], call, hash);
      RunPreserves(cfg, s, run[..n]);
      MarksExtend(cfg, s, run, call, n);
      RefreshEventOnCourse(cfg, t, run[n], call, hash, Marks(cfg, s, run[..n], call), Marks(cfg, s, run, call));
    }
  }

  lemma RefreshEventOnCourse(
      cfg: Config, t: State, e: Event, call: Id, hash: string, marks: iset<Mark>, marks': iset<Mark>)
    requires cfg.variant == AsBuilt && Inv(cfg, t) && call in t.refreshes && Extends(cfg, t, e, call, marks, marks')
    requires RefreshCourse(t.db, t.now, t.refreshes[call], hash, marks)
    ensures var t' := Step(cfg, t, e);
            call in t'.refreshes && RefreshCourse(t'.db, t'.now, t'.refreshes[call], hash, marks')
  {
    var t' := Step(cfg, t, e);
    StepPreserves(cfg, t, e);
    TimePasses(cfg, t, e);
    RefreshMoved(cfg, t, e, call);
    if t'.refreshes[call] == t.refreshes[call] {
      RefreshCourseStays(t.db, t.now, t'.db, t'.now, t.refreshes[call], hash, marks, marks');
    } else {
      RefreshCourseStep(cfg, t, call, e.refresh, hash, marks, marks');
      RefreshCourseStays(t.db, t.now, t'.db, t'.now, t'.refreshes[call], hash, marks', marks');
    }
  }

  lemma RefreshMoved(cfg: Config, t: State, e: Event, call: Id)
    requires call in t.refreshes
    ensures var t' := Step(cfg, t, e);
            && call in t'.refreshes
            && (t'.refreshes[call] != t.refreshes[call] ==>
                  && e.Refresh? && e.call == call && !RotationWaits(t, call, e.refresh)
                  && t'.refreshes[call] == RefreshStep(cfg.refreshTtl, t.db, t.now, t.refreshes[call], e.refresh).1)
  {
    StepCallsMove(cfg, t, e);
  }

  // ---------------------------------------------------------------- logout

  ghost predicate LogoutCourse(db: Db, pc: LogoutPc, hash: string, marks: iset<Mark>) {
    match pc
    case LogoutPresented(h) => h == hash
    case LogoutTokenRead(id, token) => HasHash(db.tokens, hash, id) && HoldsToken(db, id, token)
    case LogoutSessionRead(id, token) => HasHash(db.tokens, hash, id) && HoldsToken(db, id, token)
    case LogoutDone(outcome) =>
      match outcome
      case LogoutInvalid => Unknown(hash) in marks
      case LogoutFailed => Crashed in marks
      case LoggedOutOk(session, family) =>
        && Ended(session, family) in marks
        && session in db.sessions && db.sessions[session].revoked.Some?
        && exists id :: HasHash(db.tokens, hash, id)
             && db.tokens[id].session == session && db.tokens[id].family == family
  }

  lemma LogoutCourseStays(db: Db, db': Db, pc: LogoutPc, hash: string, marks: iset<Mark>, marks': iset<Mark>)
    requires DbEvolves(db, db') && marks <= marks' && LogoutCourse(db, pc, hash, marks)
    ensures LogoutCourse(db', pc, hash, marks')
  {
    if pc.LogoutDone? && pc.outcome.LoggedOutOk? {
      var id :| HasHash(db.tokens, hash, id) && db.tokens[id].session == pc.outcome.session
        && db.tokens[id].family == pc.outcome.family;
      assert HasHash(db'.tokens, hash, id) && TokenEvolves(db.tokens[id], db'.tokens[id]);
    }
  }

  /** Whatever ran between its reads and its commit, a logout that commits has ended session and family. */
  lemma LogoutCommitEnds(cfg: Config, t: State, call: Id)
    requires Inv(cfg, t) && call in t.logouts && t.logouts[call].LogoutSessionRead?
    requires LogoutOk(t.db, t.logouts[call]) && !RowLocked(t, t.logouts[call].token.session)
    ensures var token := t.logouts[call].token;
            var t' := Step(cfg, t, Logout(call, LogoutCommit));
            && t'.logouts[call] == LogoutDone(LoggedOutOk(token.session, token.family))
            && AllRevoked(t'.db, token.session, token.family)
  {
    var token := t.logouts[call].token;
    assert t.db.tokens[t.logouts[call].id].session == token.session;
    assert token.session in t.db.sessions && RevocationAllowed(t.db, token.session, t.now);
  }

  lemma LogoutCourseStep(
      cfg: Config, t: State, call: Id, ev: LogoutEvent, hash: string, marks: iset<Mark>, marks': iset<Mark>)
    requires cfg.variant == AsBuilt && Inv(cfg, t) && call in t.logouts
    requires Extends(cfg, t, Logout(call, ev), call, marks, marks') && LogoutCourse(t.db, t.logouts[call], hash, marks)
    ensures var t' := Step(cfg, t, Logout(call, ev));
            call in t'.logouts && LogoutCourse(t'.db, t'.logouts[call], hash, marks')
  {
    var pc := t.logouts[call];
    assert LogoutOk(t.db, pc);
    if pc.LogoutSessionRead? && ev.LogoutCommit? {
      LogoutCommitOnCourse(cfg, t, call, hash, marks, marks');
    } else {
      LogoutReads(cfg, t, call, ev);
      LogoutCourseStays(t.db, t.db, pc, hash, marks, marks');
      if ev.LogoutCrash? { assert MarkAt(cfg, t, Logout(call, ev), call, Crashed); }
      if ev.LogoutReadToken? { LookMarks(cfg, t, Logout(call, ev), call, hash); }
    }
  }

  lemma LogoutReads(cfg: Config, t: State, call: Id, ev: LogoutEvent)
    requires call in t.logouts && !(t.logouts[call].LogoutSessionRead? && ev.LogoutCommit?)
    ensures Step(cfg, t, Logout(call, ev)).db == t.db
    ensures Step(cfg, t, Logout(call, ev)).logouts
         == t.logouts[call := LogoutStep(t.db, t.now, t.logouts[call], ev).1]
  {
  }

  lemma LogoutCommitOnCourse(cfg: Config, t: State, call: Id, hash: string, marks: iset<Mark>, marks': iset<Mark>)
    requires cfg.variant == AsBuilt && Inv(cfg, t) && call in t.logouts && t.logouts[call].LogoutSessionRead?
    requires LogoutOk(t.db, t.logouts[call]) && LogoutCourse(t.db, t.logouts[call], hash, marks)
    requires Extends(cfg, t, Logout(call, LogoutCommit), call, marks, marks')
    ensures var t' := Step(cfg, t, Logout(call, LogoutCommit));
            call in t'.logouts && LogoutCourse(t'.db, t'.logouts[call], hash, marks')
  {
    var pc := t.logouts[call];
    if RowLocked(t, pc.token.session) {
      LogoutCourseStays(t.db, t.db, pc, hash, marks, marks');
    } else {
      var t' := Step(cfg, t, Logout(call, LogoutCommit));
      StepPreserves(cfg, t, Logout(call, LogoutCommit));
      LogoutCommitEnds(cfg, t, call);
      assert MarkAt(cfg, t, Logout(call, LogoutCommit), call, Ended(pc.token.session, pc.token.family));
      assert TokenEvolves(t.db.tokens[pc.id], t'.db.tokens[pc.id]);
      assert HasHash(t'.db.tokens, hash, pc.id);
    }
  }

  lemma LogoutEventOnCourse(
      cfg: Config, t: State, e: Event, call: Id, hash: string, marks: iset<Mark>, marks': iset<Mark>)
    requires cfg.variant == AsBuilt && Inv(cfg, t) && call in t.logouts && Extends(cfg, t, e, call, marks, marks')
    requires LogoutCourse(t.db, t.logouts[call], hash, marks)
    ensures var t' := Step(cfg, t, e); call in t'.logouts && LogoutCourse(t'.db, t'.logouts[call], hash, marks')
  {
    if e.Logout? && e.call == call {
      LogoutCourseStep(cfg, t, call, e.logout, hash, marks, marks');
    } else {
      var t' := Step(cfg, t, e);
      StepPreserves(cfg, t, e);
      LogoutStandsStill(cfg, t, e, call);
      LogoutCourseStays(t.db, t'.db, t.logouts[call], hash, marks, marks');
    }
  }

  lemma LogoutStandsStill(cfg: Config, t: State, e: Event, call: Id)
    requires call in t.logouts && !(e.Logout? && e.call == call)
    ensures call in Step(cfg, t, e).logouts && Step(cfg, t, e).logouts[call] == t.logouts[call]
  {
  }

  /**
   Over every run: a logout that answers well has, at its commit, revoked the
   session and every token then in the family of the presented token, whatever
   ran in between, and the session stays revoked; it is refused only if no row
   had the hash, and fails only by a crash.
   */
  lemma {:induction false} LogoutAnswersJustified(cfg: Config, s: State, run: seq<Event>, call: Id, hash: string)
    requires cfg.variant == AsBuilt && Inv(cfg, s) && call in s.logouts && s.logouts[call] == LogoutPresented(hash)
    ensures var s' := Exec(cfg, s, run);
            call in s'.logouts && LogoutCourse(s'.db, s'.logouts[call], hash, Marks(cfg, s, run, call))
    decreases |run|
  {
    if run != [] {
      var n := |run| - 1;
      LogoutAnswersJustified(cfg, s, run[..n], call, hash);
      RunPreserves(cfg, s, run[..n]);
      MarksExtend(cfg, s, run, call, n);
      LogoutEventOnCourse(cfg, Exec(cfg, s, run[..n]), run[n], call, hash, Marks(cfg, s, run[..n], call),
                          Marks(cfg, s, run, call));
    }
  }

  // ----------------------------------------------------------------- issue

  /** The transaction began when the row says, and what it remembers of its slot is true. */
  ghost predicate IssueCourse(db: Db, req: Request, pc: IssuePc, marks: iset<Mark>) {
    match pc
    case Requested => true
    case Begun(start, _) => BegunAt(start) in marks
    case Locked(start, _) => BegunAt(start) in marks
    case Looked(start, found, created) =>
      && BegunAt(start) in marks
      && (found.Some? ==> FoundActive(found.value) in marks
                          && InSlot(db, req, found.value) && db.sessions[found.value].createdAt == created)
    case Admitted(start, _, _) => BegunAt(start) in marks
    case Cleared(start, _) => BegunAt(start) in marks
    case SessionWritten(start, _) => BegunAt(start) in marks
    case TokenWritten(start, _, expiresAt) => BegunAt(start) in marks && RootExpires(expiresAt) in marks
    case IssueDone(outcome) =>
      match outcome
      case Issued =>
        exists start, root ::
          BegunAt(start) in marks && RootExpires(root) in marks && TookSlot(start, root) in marks
      case DeviceSessionActive => exists id :: FoundActive(id) in marks && JudgedOld(id) in marks
      case IssueFailed => Crashed in marks || RowRefused in marks
      case _ => false
  }

  lemma IssueCourseStays(db: Db, db': Db, req: Request, pc: IssuePc, marks: iset<Mark>, marks': iset<Mark>)
    requires DbEvolves(db, db') && marks <= marks' && IssueCourse(db, req, pc, marks)
    ensures IssueCourse(db', req, pc, marks')
  {
  }

  /** A commit hands the slot over, whatever ran since the transaction looked. */
  lemma CommitTakesSlot(cfg: Config, t: State, call: Id)
    requires cfg.variant == AsBuilt && Inv(cfg, t) && call in t.issues && t.issues[call].pc.TokenWritten?
    requires IssueNext(cfg, t, call, Commit) == IssueDone(Issued)
    ensures var pc := t.issues[call].pc;
            MarkAt(cfg, t, Issue(call, Commit), call, TookSlot(pc.txStart, pc.tokenExpiresAt))
  {
    var Issuing(req, pc) := t.issues[call];
    var t' := Step(cfg, t, Issue(call, Commit));
    assert VictimOk(cfg, t.db, t.now, req, pc.victim);
    assert t'.db == AfterIssue(cfg, t.db, req, pc.txStart, pc.victim, pc.tokenExpiresAt);
    SlotTakenBy(cfg, t.db, t'.db, t.now, req, pc.txStart, pc.victim, pc.tokenExpiresAt);
  }

  lemma SlotTakenBy(
      cfg: Config, db: Db, db': Db, now: Time, req: Request, start: Time, victim: Option<Victim>, expiresAt: Time)
    requires VictimOk(cfg, db, now, req, victim) && SessionAccepted(cfg, db, req) && req.tokenId !in db.tokens
    requires db' == AfterIssue(cfg, db, req, start, victim, expiresAt)
    ensures SlotTaken(cfg, db, db', req, start, expiresAt)
  {
    ActiveAfterCommit(cfg, db, db', req, start, victim);
  }

  /** A session row or root token that is refused breaks a key or a check. */
  lemma RefusalMarks(cfg: Config, t: State, call: Id, ev: IssueEvent)
    requires cfg.variant == AsBuilt && Inv(cfg, t) && call in t.issues && (ev.WriteSession? || ev.Commit?)
    requires !t.issues[call].pc.IssueDone? && IssueNext(cfg, t, call, ev) == IssueDone(IssueFailed)
    ensures MarkAt(cfg, t, Issue(call, ev), call, RowRefused)
  {
    var Issuing(req, pc) := t.issues[call];
    if pc.TokenWritten? {
      RootFits(cfg, t.db, req, pc.txStart, pc.victim, pc.tokenExpiresAt);
    }
  }

  lemma RootFits(cfg: Config, db: Db, req: Request, start: Time, victim: Option<Victim>, expiresAt: Time)
    ensures TokenInsertable(AfterSession(cfg, db, req, start, victim), req.tokenId, RootFor(req, start, expiresAt))
            <==> !TokenBreaks(db, req.tokenId, req.hash, start, expiresAt)
  {
    var mid := AfterSession(cfg, db, req, start, victim);
    assert mid.tokens == db.tokens;
    if NoRow(db, req.hash) {
      assert forall x :: !HasHash(mid.tokens, req.hash, x);
    } else {
      var x :| x in db.tokens && db.tokens[x].hash == req.hash;
      assert HasHash(mid.tokens, req.hash, x);
    }
  }

  ghost predicate OnCourseNext(cfg: Config, t: State, call: Id, ev: IssueEvent, marks: iset<Mark>)
    requires call in t.issues
  {
    var pc' := IssueNext(cfg, t, call, ev);
    || pc' == IssueDone(SlotConflict) || pc' == IssueDone(RevocationCheck)
    || IssueCourse(t.db, t.issues[call].req, pc', marks)
  }

  lemma IssueCourseStep(cfg: Config, t: State, call: Id, ev: IssueEvent, marks: iset<Mark>, marks': iset<Mark>)
    requires cfg.variant == AsBuilt && Inv(cfg, t) && call in t.issues
    requires Extends(cfg, t, Issue(call, ev), call, marks, marks')
    requires IssueCourse(t.db, t.issues[call].req, t.issues[call].pc, marks)
    ensures OnCourseNext(cfg, t, call, ev, marks')
  {
    if ev.Decide? || ev.Revoke? {
      DecideOnCourse(cfg, t, call, ev, marks, marks');
    } else if ev.WriteSession? || ev.Commit? {
      WriteOnCourse(cfg, t, call, ev, marks, marks');
    } else {
      LookOnCourse(cfg, t, call, ev, marks, marks');
    }
  }

  /** What the steps that begin, lock, find and write the token, and a crash, make of the control state. */
  lemma LookShape(cfg: Config, t: State, call: Id, ev: IssueEvent)
    requires cfg.variant == AsBuilt && call in t.issues
    requires !ev.Decide? && !ev.Revoke? && !ev.WriteSession? && !ev.Commit?
    ensures var Issuing(req, pc) := t.issues[call];
            var pc' := IssueNext(cfg, t, call, ev);
            var found := ActiveSession(t.db, req.user, req.device);
            || pc' == pc
            || (ev.Begin? && pc' == Begun(t.now, t.db))
            || (pc.Begun? && pc' == Locked(pc.txStart, pc.snapshot))
            || (ev.Find? && pc.Locked?
                && pc' == Looked(pc.txStart, found,
                                 if found.Some? then t.db.sessions[found.value].createdAt else 0))
            || (ev.WriteToken? && pc.SessionWritten?
                && pc' == TokenWritten(pc.txStart, pc.victim, t.now + cfg.refreshTtl))
            || (ev.IssueCrash? && pc' == IssueDone(IssueFailed))
  {
  }

  lemma LookOnCourse(cfg: Config, t: State, call: Id, ev: IssueEvent, marks: iset<Mark>, marks': iset<Mark>)
    requires cfg.variant == AsBuilt && call in t.issues
    requires !ev.Decide? && !ev.Revoke? && !ev.WriteSession? && !ev.Commit?
    requires Extends(cfg, t, Issue(call, ev), call, marks, marks')
    requires IssueCourse(t.db, t.issues[call].req, t.issues[call].pc, marks)
    ensures IssueCourse(t.db, t.issues[call].req, IssueNext(cfg, t, call, ev), marks')
  {
    LookShape(cfg, t, call, ev);
    IssueCourseStays(t.db, t.db, t.issues[call].req, t.issues[call].pc, marks, marks');
    if ev.Begin? { assert MarkAt(cfg, t, Issue(call, ev), call, BegunAt(t.now)); }
    if ev.IssueCrash? { assert MarkAt(cfg, t, Issue(call, ev), call, Crashed); }
    if ev.Find? { FindMarks(cfg, t, call); }
    if ev.WriteToken? { assert MarkAt(cfg, t, Issue(call, ev), call, RootExpires(t.now + cfg.refreshTtl)); }
  }

  lemma DecideOnCourse(cfg: Config, t: State, call: Id, ev: IssueEvent, marks: iset<Mark>, marks': iset<Mark>)
    requires cfg.variant == AsBuilt && call in t.issues && (ev.Decide? || ev.Revoke?)
    requires Extends(cfg, t, Issue(call, ev), call, marks, marks')
    requires IssueCourse(t.db, t.issues[call].req, t.issues[call].pc, marks)
    ensures OnCourseNext(cfg, t, call, ev, marks')
  {
    var pc := t.issues[call].pc;
    if ev.Decide? && pc.Looked? && pc.found.Some? && t.now - pc.created > cfg.grace {
      assert MarkAt(cfg, t, Issue(call, ev), call, JudgedOld(pc.found.value));
    }
  }

  /** What the inserting statement and the commit make of the control state. */
  lemma WriteShape(cfg: Config, t: State, call: Id, ev: IssueEvent)
    requires call in t.issues && (ev.WriteSession? || ev.Commit?)
    ensures var pc := t.issues[call].pc;
            var pc' := IssueNext(cfg, t, call, ev);
            || pc' == pc || pc' == IssueDone(SlotConflict)
            || (pc.Cleared? && pc'.SessionWritten? && pc'.txStart == pc.txStart)
            || (!pc.IssueDone? && pc' == IssueDone(IssueFailed))
            || (ev.Commit? && pc.TokenWritten? && pc' == IssueDone(Issued))
  {
  }

  lemma WriteOnCourse(cfg: Config, t: State, call: Id, ev: IssueEvent, marks: iset<Mark>, marks': iset<Mark>)
    requires cfg.variant == AsBuilt && Inv(cfg, t) && call in t.issues && (ev.WriteSession? || ev.Commit?)
    requires Extends(cfg, t, Issue(call, ev), call, marks, marks')
    requires IssueCourse(t.db, t.issues[call].req, t.issues[call].pc, marks)
    ensures OnCourseNext(cfg, t, call, ev, marks')
  {
    WriteShape(cfg, t, call, ev);
    if !t.issues[call].pc.IssueDone? { WriteMarks(cfg, t, call, ev); }
    WrittenOnCourse(t.db, t.issues[call].req, t.issues[call].pc, IssueNext(cfg, t, call, ev), marks, marks');
  }

  lemma WrittenOnCourse(db: Db, req: Request, pc: IssuePc, pc': IssuePc, marks: iset<Mark>, marks': iset<Mark>)
    requires IssueCourse(db, req, pc, marks) && marks <= marks'
    requires || pc' == pc || pc' == IssueDone(SlotConflict)
             || (pc.Cleared? && pc'.SessionWritten? && pc'.txStart == pc.txStart)
             || (pc' == IssueDone(IssueFailed) && RowRefused in marks')
             || (pc.TokenWritten? && pc' == IssueDone(Issued) && TookSlot(pc.txStart, pc.tokenExpiresAt) in marks')
    ensures pc' == IssueDone(SlotConflict) || IssueCourse(db, req, pc', marks')
  {
  }

  lemma FindMarks(cfg: Config, t: State, call: Id)
    requires cfg.variant == AsBuilt && call in t.issues
    ensures var found := ActiveSession(t.db, t.issues[call].req.user, t.issues[call].req.device);
            found.Some? ==> MarkAt(cfg, t, Issue(call, Find), call, FoundActive(found.value))
  {
  }

  lemma WriteMarks(cfg: Config, t: State, call: Id, ev: IssueEvent)
    requires cfg.variant == AsBuilt && Inv(cfg, t) && call in t.issues && (ev.WriteSession? || ev.Commit?)
    requires !t.issues[call].pc.IssueDone?
    ensures IssueNext(cfg, t, call, ev) == IssueDone(IssueFailed) ==> MarkAt(cfg, t, Issue(call, ev), call, RowRefused)
    ensures var pc := t.issues[call].pc;
            IssueNext(cfg, t, call, ev) == IssueDone(Issued) && pc.TokenWritten? ==>
              MarkAt(cfg, t, Issue(call, Commit), call, TookSlot(pc.txStart, pc.tokenExpiresAt))
  {
    if IssueNext(cfg, t, call, ev) == IssueDone(IssueFailed) { RefusalMarks(cfg, t, call, ev); }
    if IssueNext(cfg, t, call, ev) == IssueDone(Issued) && t.issues[call].pc.TokenWritten? {
      CommitTakesSlot(cfg, t, call);
    }
  }

  lemma IssueEventOnCourse(cfg: Config, t: State, e: Event, call: Id, marks: iset<Mark>, marks': iset<Mark>)
    requires cfg.variant == AsBuilt && Inv(cfg, t) && call in t.issues && Extends(cfg, t, e, call, marks, marks')
    requires IssueCourse(t.db, t.issues[call].req, t.issues[call].pc, marks)
    ensures var t' := Step(cfg, t, e);
            && call in t'.issues && t'.issues[call].req == t.issues[call].req
            && IssueCourse(t'.db, t'.issues[call].req, t'.issues[call].pc, marks')
  {
    var t' := Step(cfg, t, e);
    StepPreserves(cfg, t, e);
    if e.Issue? && e.call == call {
      IssueMoved(cfg, t, call, e.issue);
      NoConflictNext(cfg, t', call);
      IssueCourseStep(cfg, t, call, e.issue, marks, marks');
      IssueCourseStays(t.db, t'.db, t'.issues[call].req, t'.issues[call].pc, marks', marks');
    } else {
      IssueStandsStill(cfg, t, e, call);
      IssueCourseStays(t.db, t'.db, t.issues[call].req, t.issues[call].pc, marks, marks');
    }
  }

  lemma IssueMoved(cfg: Config, t: State, call: Id, ev: IssueEvent)
    requires call in t.issues
    ensures var t' := Step(cfg, t, Issue(call, ev));
            call in t'.issues && t'.issues[call] == Issuing(t.issues[call].req, IssueNext(cfg, t, call, ev))
  {
  }

  lemma NoConflictNext(cfg: Config, t: State, call: Id)
    requires Inv(cfg, t) && call in t.issues
    ensures t.issues[call].pc != IssueDone(SlotConflict) && t.issues[call].pc != IssueDone(RevocationCheck)
  {
    assert IssueOk(cfg, t.db, t.now, t.issues[call].req, t.issues[call].pc);
  }

  lemma IssueStandsStill(cfg: Config, t: State, e: Event, call: Id)
    requires call in t.issues && !(e.Issue? && e.call == call)
    ensures call in Step(cfg, t, e).issues && Step(cfg, t, e).issues[call] == t.issues[call]
  {
  }

  /**
   Over every run: a request is refused only by a session it found active in
   its slot and judged past the grace period; it fails only by a crash or a row
   that breaks a key or a check; and when it is issued, its commit handed the
   slot over, with the time its transaction began as the creation time.
   */
  lemma {:induction false} IssueAnswersJustified(cfg: Config, s: State, run: seq<Event>, call: Id)
    requires cfg.variant == AsBuilt && Inv(cfg, s) && call in s.issues && s.issues[call].pc == Requested
    ensures var s' := Exec(cfg, s, run);
            && call in s'.issues && s'.issues[call].req == s.issues[call].req
            && IssueCourse(s'.db, s'.issues[call].req, s'.issues[call].pc, Marks(cfg, s, run, call))
    decreases |run|
  {
    if run != [] {
      var n := |run| - 1;
      IssueAnswersJustified(cfg, s, run[..n], call);
      RunPreserves(cfg, s, run[..n]);
      MarksExtend(cfg, s, run, call, n);
      IssueEventOnCourse(cfg, Exec(cfg, s, run[..n]), run[n], call, Marks(cfg, s, run[..n], call),
                         Marks(cfg, s, run, call));
    }
  }

  // ---------------------------------------------------------------- writes

  /** The family's unrevoked tokens get time and reason; no other token differs. */
  predicate FamilyEnded(db: Db, db': Db, now: Time, family: Id, reason: TokenReason) {
    && db'.tokens.Keys == db.tokens.Keys
    && forall t :: t in db.tokens ==>
         if db.tokens[t].family == family && db.tokens[t].revoked.None?
         then db'.tokens[t] == db.tokens[t].(revoked := Some(TokenRevocation(now, reason)))
         else db'.tokens[t] == db.tokens[t]
  }

  /** The session is revoked by its user unless it was revoked before; no other session differs. */
  predicate SessionEnded(db: Db, db': Db, now: Time, session: Id) {
    && db'.sessions.Keys == db.sessions.Keys
    && forall s :: s in db.sessions ==>
         if s == session && db.sessions[s].revoked.None?
         then db'.sessions[s] == db.sessions[s].(revoked := Some(SessionRevocation(now, UserLogout)))
         else db'.sessions[s] == db.sessions[s]
  }

  /** What a step of a refresh may write: its rotation, or a replay's revocation. */
  ghost predicate RefreshMayWrite(db: Db, db': Db, now: Time, pc: RefreshPc, ev: RefreshEvent) {
    || (ev.Rotate? && pc.Minted?
        && TokenExchanged(db, db', now, pc.id, pc.childId, pc.child.hash, pc.child.expiresAt))
    || (ev == RevokeReplayed(true) && pc.Replaying? && db'.sessions == db.sessions
        && FamilyEnded(db, db', now, pc.token.family, Replayed))
  }

  /** The four events that may write, and what each writes. */
  ghost predicate Writes(cfg: Config, t: State, e: Event, db': Db) {
    match e
    case Refresh(call, ev) => call in t.refreshes && RefreshMayWrite(t.db, db', t.now, t.refreshes[call], ev)
    case Logout(call, ev) =>
      call in t.logouts
      && var pc := t.logouts[call];
         && ev.LogoutCommit? && pc.LogoutSessionRead?
         && SessionEnded(t.db, db', t.now, pc.token.session)
         && FamilyEnded(t.db, db', t.now, pc.token.family, LoggedOut)
    case Issue(call, ev) =>
      call in t.issues
      && var Issuing(req, pc) := t.issues[call];
         && ev.Commit? && pc.TokenWritten? && SlotTaken(cfg, t.db, db', req, pc.txStart, pc.tokenExpiresAt)
    case _ => false
  }

  lemma RefreshStepWrites(ttl: Time, db: Db, now: Time, pc: RefreshPc, ev: RefreshEvent)
    requires RefreshOk(db, pc)
    ensures var db' := RefreshStep(ttl, db, now, pc, ev).0; db' == db || RefreshMayWrite(db, db', now, pc, ev)
  {
    if pc.Minted? && ev.Rotate? {
      ExchangesToken(db, now, pc, ev.delivered);
    }
  }

  lemma RefreshWrites(cfg: Config, t: State, call: Id, ev: RefreshEvent)
    requires Inv(cfg, t) && call in t.refreshes
    ensures var db' := Step(cfg, t, Refresh(call, ev)).db;
            db' == t.db || RefreshMayWrite(t.db, db', t.now, t.refreshes[call], ev)
  {
    assert RefreshOk(t.db, t.refreshes[call]);
    RefreshStepWrites(cfg.refreshTtl, t.db, t.now, t.refreshes[call], ev);
  }

  lemma LogoutWrites(cfg: Config, t: State, call: Id, ev: LogoutEvent)
    requires call in t.logouts
    ensures var db' := Step(cfg, t, Logout(call, ev)).db;
            db' == t.db || Writes(cfg, t, Logout(call, ev), db')
  {
  }

  lemma IssueWrites(cfg: Config, t: State, call: Id, ev: IssueEvent)
    requires cfg.variant == AsBuilt && Inv(cfg, t) && call in t.issues
    ensures var db' := Step(cfg, t, Issue(call, ev)).db;
            db' == t.db || Writes(cfg, t, Issue(call, ev), db')
  {
    if ev.Commit? && t.issues[call].pc.TokenWritten? && IssueNext(cfg, t, call, ev) == IssueDone(Issued) {
      CommitTakesSlot(cfg, t, call);
    }
  }

  lemma EventWrites(cfg: Config, t: State, e: Event)
    requires cfg.variant == AsBuilt && Inv(cfg, t)
    ensures Step(cfg, t, e).db == t.db || Writes(cfg, t, e, Step(cfg, t, e).db)
  {
    if e.Refresh? && e.call in t.refreshes {
      RefreshWrites(cfg, t, e.call, e.refresh);
    } else if e.Logout? && e.call in t.logouts {
      LogoutWrites(cfg, t, e.call, e.logout);
    } else if e.Issue? && e.call in t.issues {
      IssueWrites(cfg, t, e.call, e.issue);
    }
  }

  /**
   Over every run the tables change by four kinds of commit alone: a rotation,
   a replay's revocation, a logout and the hand-over of a slot, each writing
   just its rows, whatever was committed since the call last looked.
   */
  lemma {:induction false} TablesChangeByCommits(cfg: Config, s: State, run: seq<Event>, k: nat)
    requires cfg.variant == AsBuilt && Inv(cfg, s) && k < |run|
    ensures var t := Exec(cfg, s, run[..k]);
            var db' := Exec(cfg, s, run[..k + 1]).db;
            db' == t.db || Writes(cfg, t, run[k], db')
  {
    assert run[..k + 1][..k] == run[..k];
    var t := Exec(cfg, s, run[..k]);
    RunPreserves(cfg, s, run[..k]);
    EventWrites(cfg, t, run[k]);
  }
}
