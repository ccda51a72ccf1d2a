/** Every event keeps the invariant, and the tables only evolve. */
module SessionPreservation {
  import opened Prelude
  import opened TokenTables
  import opened TokenChains
  import opened RefreshProtocol
  import opened IssueProtocol
  import opened SessionMachine
  import opened SessionInvariant

  // ------------------------------------------------- effects of the writes

  /** Sessions differ at most in their refresh stamp. */
  ghost predicate SessionsKept(db: Db, db': Db) {
    && db'.sessions.Keys == db.sessions.Keys
    && forall id :: id in db.sessions ==>
         db'.sessions[id] == db.sessions[id].(lastRefreshedAt := db'.sessions[id].lastRefreshedAt)
  }

  lemma EvolvesRefl(db: Db)
    ensures DbEvolves(db, db)
  {
  }

  lemma EvolvesTrans(a: Db, b: Db, c: Db)
    requires DbEvolves(a, b) && DbEvolves(b, c)
    ensures DbEvolves(a, c)
  {
  }

  lemma TokensOkKept(db: Db, db': Db)
    requires TokensOk(db) && db'.tokens == db.tokens && db.sessions.Keys <= db'.sessions.Keys
    ensures TokensOk(db')
  {
  }

  /** What a committed rotation keeps of the token table. */
  lemma RotationTables(db: Db, now: Time, id: Id, session: Id, childId: Id, child: TokenRow)
    requires TokensOk(db) && Consumable(db, id)
    requires TokenInsertable(ConsumeToken(db, id, now), childId, child)
    requires child == Child(id, db.tokens[id], child.hash, child.expiresAt, child.createdAt)
    ensures var db' := AfterRotation(db, now, id, session, childId, child);
            TokensOk(db') && Families(db'.tokens) == Families(db.tokens) && |db'.tokens| == |db.tokens| + 1
  {
    RotationKeepsChains(db, id, now, childId, child);
    var inserted := InsertToken(ConsumeToken(db, id, now), childId, child);
    var touched := TouchSession(inserted, session, now);
    assert touched.tokens == inserted.tokens && inserted.tokens.Keys == db.tokens.Keys + {childId};
    assert |inserted.tokens| == |inserted.tokens.Keys| && |db.tokens| == |db.tokens.Keys|;
    TokensOkKept(inserted, touched);
  }

  lemma RotationEvolves(db: Db, now: Time, id: Id, session: Id, childId: Id, child: TokenRow)
    requires Consumable(db, id) && childId !in db.tokens
    ensures var db' := AfterRotation(db, now, id, session, childId, child);
            && DbEvolves(db, db') && SessionsKept(db, db')
            && id in db'.tokens && db'.tokens[id].consumedAt.Some?
            && childId in db'.tokens && db'.tokens[childId] == child
  {
  }

  lemma RotateEffect(db: Db, now: Time, pc: RefreshPc, delivered: bool)
    requires TokensOk(db) && pc.Minted? && RefreshOk(db, pc)
    ensures var (db', pc') := RotateStep(db, now, pc, delivered);
            && TokensOk(db') && Families(db'.tokens) == Families(db.tokens)
            && |db'.tokens| == |db.tokens| + (if pc'.RefreshDone? && pc'.outcome.Rotated? then 1 else 0)
            && (pc'.RefreshDone? && pc'.outcome.Rotated? ==> Consumable(db, pc'.outcome.parent))
  {
    var child := pc.child.(createdAt := now);
    if Consumable(db, pc.id) && TokenInsertable(ConsumeToken(db, pc.id, now), pc.childId, child) {
      RotationTables(db, now, pc.id, pc.token.session, pc.childId, child);
    }
  }

  lemma RotateEvolves(db: Db, now: Time, pc: RefreshPc, delivered: bool)
    requires pc.Minted? && RefreshOk(db, pc)
    ensures var (db', pc') := RotateStep(db, now, pc, delivered);
            DbEvolves(db, db') && SessionsKept(db, db') && RefreshOk(db', pc')
  {
    EvolvesRefl(db);
    var child := pc.child.(createdAt := now);
    if Consumable(db, pc.id) && TokenInsertable(ConsumeToken(db, pc.id, now), pc.childId, child) {
      RotationEvolves(db, now, pc.id, pc.token.session, pc.childId, child);
    }
  }

  lemma RevokeFamilyEffect(db: Db, family: Id, now: Time, reason: TokenReason)
    requires TokensOk(db)
    ensures var db' := RevokeFamily(db, family, now, reason);
            && TokensOk(db') && DbEvolves(db, db') && SessionsKept(db, db')
            && Families(db'.tokens) == Families(db.tokens) && |db'.tokens| == |db.tokens|
            && (forall id :: InFamily(db.tokens, family, id) ==>
                  InFamily(db'.tokens, family, id) && db'.tokens[id].revoked.Some?)
  {
    RevocationKeepsChains(db, family, now, reason);
    var db' := RevokeFamily(db, family, now, reason);
    assert |db'.tokens| == |db'.tokens.Keys| && |db.tokens| == |db.tokens.Keys|;
  }

  lemma RevokeReplayedEffect(db: Db, now: Time, pc: RefreshPc, stored: bool)
    requires TokensOk(db) && pc.Replaying? && RefreshOk(db, pc)
    ensures stored ==> ReplayAnswered(RevokeFamily(db, pc.token.family, now, Replayed), pc.id)
  {
    RevokeFamilyEffect(db, pc.token.family, now, Replayed);
    assert pc.token.family in Families(db.tokens) by { assert db.tokens[pc.id].family == pc.token.family; }
    assert InFamily(db.tokens, pc.token.family, pc.id);
    OneChild(db.tokens, pc.token.family, pc.id);
    var child :| InFamily(db.tokens, pc.token.family, child) && db.tokens[child].parent == Some(pc.id);
    assert child in RevokeFamily(db, pc.token.family, now, Replayed).tokens;
  }

  /** Everything a refresh step may do to the token table. */
  lemma RefreshEffect(ttl: Time, db: Db, now: Time, pc: RefreshPc, ev: RefreshEvent)
    requires TokensOk(db) && RefreshOk(db, pc)
    ensures var (db', pc') := RefreshStep(ttl, db, now, pc, ev);
            && TokensOk(db') && Families(db'.tokens) == Families(db.tokens)
            && (var committed := pc.Minted? && pc'.RefreshDone? && pc'.outcome.Rotated?;
                && |db'.tokens| == |db.tokens| + (if committed then 1 else 0)
                && (committed ==> Consumable(db, pc'.outcome.parent)))
            && (!pc.Minted? && pc'.RefreshDone? && pc'.outcome.Rotated? ==> pc' == pc)
  {
    if pc.Minted? && ev.Rotate? {
      RotateEffect(db, now, pc, ev.delivered);
    } else if pc.Replaying? && ev.RevokeReplayed? {
      RevokeFamilyEffect(db, pc.token.family, now, Replayed);
    } else {
      RefreshReads(ttl, db, now, pc, ev);
    }
  }

  /** And what it leaves of the rows and the snapshots. */
  lemma RefreshEvolves(ttl: Time, db: Db, now: Time, pc: RefreshPc, ev: RefreshEvent)
    requires TokensOk(db) && RefreshOk(db, pc)
    ensures var (db', pc') := RefreshStep(ttl, db, now, pc, ev);
            DbEvolves(db, db') && SessionsKept(db, db') && RefreshOk(db', pc')
  {
    EvolvesRefl(db);
    if pc.Minted? && ev.Rotate? {
      RotateEvolves(db, now, pc, ev.delivered);
    } else if pc.Replaying? && ev.RevokeReplayed? {
      RevokeEvolves(db, now, pc, ev.stored);
    } else {
      RefreshReads(ttl, db, now, pc, ev);
    }
  }

  lemma RevokeEvolves(db: Db, now: Time, pc: RefreshPc, stored: bool)
    requires TokensOk(db) && pc.Replaying? && RefreshOk(db, pc)
    ensures var db' := if stored then RevokeFamily(db, pc.token.family, now, Replayed) else db;
            DbEvolves(db, db') && SessionsKept(db, db') && RefreshOk(db', RefreshDone(ReplayDetected(pc.id, stored)))
  {
    EvolvesRefl(db);
    RevokeFamilyEffect(db, pc.token.family, now, Replayed);
    RevokeReplayedEffect(db, now, pc, stored);
  }

  /** Steps that only read leave the tables alone and remember the truth. */
  lemma RefreshReads(ttl: Time, db: Db, now: Time, pc: RefreshPc, ev: RefreshEvent)
    requires TokensOk(db) && RefreshOk(db, pc)
    requires !(pc.Minted? && ev.Rotate?) && !(pc.Replaying? && ev.RevokeReplayed?)
    ensures var (db', pc') := RefreshStep(ttl, db, now, pc, ev);
            && db' == db && RefreshOk(db, pc')
            && (pc'.RefreshDone? && pc'.outcome.Rotated? ==> pc' == pc)
  {
    if pc.Presented? && ev.ReadToken? {
    } else if pc.TokenRead? && ev.ReadSession? {
    } else if pc.SessionRead? && ev.CheckToken? {
    } else {
    }
  }

  // ------------------------------------------------------ single conjuncts

  lemma SessionsKeptKeeps(cfg: Config, s: State, s': State)
    requires SessionsOk(s.db, s.now) && SlotsOk(s.db) && DecisionsOk(cfg, s) && IssuesOk(cfg, s)
    requires SessionsKept(s.db, s'.db) && DbEvolves(s.db, s'.db)
    requires s'.now == s.now && s'.issues == s.issues && s'.decisions == s.decisions
    ensures SessionsOk(s'.db, s'.now) && SlotsOk(s'.db) && DecisionsOk(cfg, s') && IssuesOk(cfg, s')
  {
    forall user, device, id ensures ActiveIn(s'.db, user, device, id) == ActiveIn(s.db, user, device, id) {
    }
    forall id | Superseded(s'.db, id) ensures Superseded(s.db, id) {
    }
    forall call | call in s.issues
      ensures IssueOk(cfg, s'.db, s'.now, s.issues[call].req, s.issues[call].pc)
    {
      IssueOkSurvives(cfg, s.db, s.now, s'.db, s'.now, s.issues[call].req, s.issues[call].pc);
    }
  }

  lemma RefreshesSurvive(s: State, s': State, call: Id)
    requires RefreshesOk(s) && DbEvolves(s.db, s'.db)
    requires forall c :: c in s'.refreshes && c != call ==> c in s.refreshes && s'.refreshes[c] == s.refreshes[c]
    requires call in s'.refreshes ==> RefreshOk(s'.db, s'.refreshes[call])
    ensures RefreshesOk(s')
  {
    forall c | c in s'.refreshes ensures RefreshOk(s'.db, s'.refreshes[c]) {
      if c != call { RefreshOkSurvives(s.db, s'.db, s.refreshes[c]); }
    }
  }

  lemma LogoutsSurvive(s: State, s': State, call: Id)
    requires LogoutsOk(s) && DbEvolves(s.db, s'.db)
    requires forall c :: c in s'.logouts && c != call ==> c in s.logouts && s'.logouts[c] == s.logouts[c]
    requires call in s'.logouts ==> LogoutOk(s'.db, s'.logouts[call])
    ensures LogoutsOk(s')
  {
    forall c | c in s'.logouts ensures LogoutOk(s'.db, s'.logouts[c]) {
      assert c != call ==> LogoutOk(s.db, s.logouts[c]);
    }
  }

  lemma RefreshPreserves(cfg: Config, s: State, call: Id, ev: RefreshEvent)
    requires Inv(cfg, s) && call in s.refreshes
    ensures Inv(cfg, RefreshMoves(cfg, s, call, ev))
    ensures DbEvolves(s.db, RefreshMoves(cfg, s, call, ev).db)
  {
    var pc := s.refreshes[call];
    EvolvesRefl(s.db);
    if !(pc.Minted? && ev.Rotate? && RowLocked(s, pc.token.session)) {
      var (db', pc') := RefreshStep(cfg.refreshTtl, s.db, s.now, pc, ev);
      RefreshEffect(cfg.refreshTtl, s.db, s.now, pc, ev);
      RefreshEvolves(cfg.refreshTtl, s.db, s.now, pc, ev);
      RefreshedPreserves(cfg, s, call, db', pc', pc.Minted? && pc'.RefreshDone? && pc'.outcome.Rotated?);
    }
  }

  lemma RefreshedPreserves(cfg: Config, s: State, call: Id, db': Db, pc': RefreshPc, committed: bool)
    requires Inv(cfg, s) && call in s.refreshes
    requires TokensOk(db') && DbEvolves(s.db, db') && SessionsKept(s.db, db') && RefreshOk(db', pc')
    requires Families(db'.tokens) == Families(s.db.tokens)
    requires |db'.tokens| == |s.db.tokens| + (if committed then 1 else 0)
    requires (pc'.RefreshDone? && pc'.outcome.Rotated?) ==>
               pc' == s.refreshes[call] || Consumable(s.db, pc'.outcome.parent)
    ensures Inv(cfg, s.(db := db', refreshes := s.refreshes[call := pc'],
                        rotations := s.rotations + if committed then 1 else 0))
  {
    var s' := s.(db := db', refreshes := s.refreshes[call := pc'],
                 rotations := s.rotations + if committed then 1 else 0);
    SessionsKeptKeeps(cfg, s, s');
    RefreshesSurvive(s, s', call);
    LogoutsEvolve(s, s');
    SeparationKept(cfg, s, s');
    WinnersStayUnique(s, s', call, pc');
  }

  lemma LogoutsEvolve(s: State, s': State)
    requires LogoutsOk(s) && DbEvolves(s.db, s'.db) && s'.logouts == s.logouts
    ensures LogoutsOk(s')
  {
    forall c | c in s.logouts ensures LogoutOk(s'.db, s.logouts[c]) {
      assert LogoutOk(s.db, s.logouts[c]);
    }
  }

  lemma SeparationKept(cfg: Config, s: State, s': State)
    requires FamiliesSeparate(s) && LocksExclusive(cfg, s)
    requires s'.issues == s.issues && Families(s'.db.tokens) == Families(s.db.tokens)
    ensures FamiliesSeparate(s') && LocksExclusive(cfg, s')
  {
  }

  lemma WinnersStayUnique(s: State, s': State, call: Id, pc': RefreshPc)
    requires WinnersUnique(s) && RefreshesOk(s) && call in s.refreshes
    requires s'.refreshes == s.refreshes[call := pc']
    requires (pc'.RefreshDone? && pc'.outcome.Rotated?) ==>
               pc' == s.refreshes[call] || Consumable(s.db, pc'.outcome.parent)
    ensures WinnersUnique(s')
  {
    forall c, parent | c in s.refreshes && Consumable(s.db, parent) ensures !Won(s.refreshes[c], parent) {
      assert RefreshOk(s.db, s.refreshes[c]);
    }
  }

  // ---------------------------------------------------------------- logout

  lemma LogoutPreserves(cfg: Config, s: State, call: Id, ev: LogoutEvent)
    requires Inv(cfg, s) && call in s.logouts
    ensures Inv(cfg, LogoutMoves(s, call, ev))
    ensures DbEvolves(s.db, LogoutMoves(s, call, ev).db)
  {
    EvolvesRefl(s.db);
    if s.logouts[call].LogoutSessionRead? && ev.LogoutCommit? {
      LogoutCommitPreserves(cfg, s, call);
    } else {
      LogoutLocalPreserves(cfg, s, call, ev);
    }
  }

  lemma LogoutLocalPreserves(cfg: Config, s: State, call: Id, ev: LogoutEvent)
    requires Inv(cfg, s) && call in s.logouts && !(s.logouts[call].LogoutSessionRead? && ev.LogoutCommit?)
    ensures Inv(cfg, LogoutMoves(s, call, ev))
    ensures LogoutMoves(s, call, ev).db == s.db
  {
    var s' := LogoutMoves(s, call, ev);
    assert s' == s.(logouts := s'.logouts);
    assert RefreshesOk(s') && IssuesOk(cfg, s');
  }

  lemma LogoutCommitPreserves(cfg: Config, s: State, call: Id)
    requires Inv(cfg, s) && call in s.logouts && s.logouts[call].LogoutSessionRead?
    ensures Inv(cfg, LogoutMoves(s, call, LogoutCommit))
    ensures DbEvolves(s.db, LogoutMoves(s, call, LogoutCommit).db)
  {
    var s' := LogoutMoves(s, call, LogoutCommit);
    var token := s.logouts[call].token;
    EvolvesRefl(s.db);
    if !RowLocked(s, token.session) {
      if RevocationAllowed(s.db, token.session, s.now) {
        LoggedOutPreserves(cfg, s, call, token, s');
      } else {
        LogoutsSurvive(s, s', call);
      }
    }
  }

  lemma LoggedOutPreserves(cfg: Config, s: State, call: Id, token: TokenRow, s': State)
    requires Inv(cfg, s) && call in s.logouts
    requires !RowLocked(s, token.session) && RevocationAllowed(s.db, token.session, s.now)
    requires s' == s.(db := RevokeFamily(RevokeSession(s.db, token.session, s.now, UserLogout), token.family, s.now,
                                         LoggedOut),
                      logouts := s.logouts[call := LogoutDone(LoggedOutOk(token.session, token.family))])
    ensures Inv(cfg, s') && DbEvolves(s.db, s'.db)
  {
    LogoutTables(s.db, s.now, token.session, token.family);
    CallsKept(cfg, s, s'.(logouts := s.logouts));
    assert RefreshesOk(s');
    LogoutsSurvive(s, s', call);
    LogoutKeepsSlots(cfg, s, s', token.session);
    SeparationKept(cfg, s, s');
  }

  lemma LogoutTables(db: Db, now: Time, session: Id, family: Id)
    requires TokensOk(db)
    ensures var db' := RevokeFamily(RevokeSession(db, session, now, UserLogout), family, now, LoggedOut);
            && TokensOk(db') && DbEvolves(db, db')
            && Families(db'.tokens) == Families(db.tokens) && |db'.tokens| == |db.tokens|
            && db'.sessions == RevokeSession(db, session, now, UserLogout).sessions
  {
    var mid := RevokeSession(db, session, now, UserLogout);
    TokensOkKept(db, mid);
    RevokeFamilyEffect(mid, family, now, LoggedOut);
    EvolvesTrans(db, mid, RevokeFamily(mid, family, now, LoggedOut));
  }

  lemma LogoutKeepsSlots(cfg: Config, s: State, s': State, session: Id)
    requires SessionsOk(s.db, s.now) && SlotsOk(s.db) && DecisionsOk(cfg, s) && IssuesOk(cfg, s)
    requires !RowLocked(s, session) && RevocationAllowed(s.db, session, s.now)
    requires s'.db.sessions == RevokeSession(s.db, session, s.now, UserLogout).sessions
    requires DbEvolves(s.db, s'.db)
    requires s'.now == s.now && s'.issues == s.issues && s'.decisions == s.decisions
    ensures SessionsOk(s'.db, s'.now) && SlotsOk(s'.db) && DecisionsOk(cfg, s') && IssuesOk(cfg, s')
  {
    forall user, device, id
      ensures ActiveIn(s'.db, user, device, id) <==> (ActiveIn(s.db, user, device, id) && id != session)
    {
    }
    forall id | Superseded(s'.db, id) ensures Superseded(s.db, id) {
    }
    forall call | call in s.issues
      ensures IssueOk(cfg, s'.db, s'.now, s.issues[call].req, s.issues[call].pc)
    {
      IssueOkSurvives(cfg, s.db, s.now, s'.db, s'.now, s.issues[call].req, s.issues[call].pc);
    }
  }

  // --------------------------------------------------------------- issuing

  /** A step that does not commit changes only the call's own control state. */
  lemma IssueLocalPreserves(cfg: Config, s: State, call: Id, ev: IssueEvent)
    requires cfg.variant == AsBuilt && Inv(cfg, s) && call in s.issues
    requires !(s.issues[call].pc.TokenWritten? && ev.Commit?)
    ensures IssueMoves(cfg, s, call, ev).db == s.db
    ensures Inv(cfg, IssueMoves(cfg, s, call, ev))
  {
    var pc' := IssueNext(cfg, s, call, ev);
    IssueLocalOk(cfg, s, call, ev);
    IssueLocalRest(cfg, s, call, ev);
    PcReplaced(cfg, s, call, pc');
  }

  lemma IssueLocalRest(cfg: Config, s: State, call: Id, ev: IssueEvent)
    requires cfg.variant == AsBuilt && call in s.issues
    requires !(s.issues[call].pc.TokenWritten? && ev.Commit?)
    ensures var Issuing(req, pc) := s.issues[call];
            var pc' := IssueNext(cfg, s, call, ev);
            && (pc == IssueDone(Issued) <==> pc' == IssueDone(Issued))
            && (HoldsLock(pc') && !HoldsLock(pc) ==> !LockHeld(cfg, s, KeyOf(cfg, req)))
  {
  }

  lemma PcReplaced(cfg: Config, s: State, call: Id, pc': IssuePc)
    requires Inv(cfg, s) && call in s.issues && IssueOk(cfg, s.db, s.now, s.issues[call].req, pc')
    requires s.issues[call].pc == IssueDone(Issued) <==> pc' == IssueDone(Issued)
    requires (HoldsLock(pc') && !HoldsLock(s.issues[call].pc)) ==> !LockHeld(cfg, s, KeyOf(cfg, s.issues[call].req))
    ensures Inv(cfg, s.(issues := s.issues[call := Issuing(s.issues[call].req, pc')]))
  {
  }

  lemma IssueLocalOk(cfg: Config, s: State, call: Id, ev: IssueEvent)
    requires cfg.variant == AsBuilt && Inv(cfg, s) && call in s.issues
    requires !(s.issues[call].pc.TokenWritten? && ev.Commit?)
    ensures IssueOk(cfg, s.db, s.now, s.issues[call].req, IssueNext(cfg, s, call, ev))
  {
    var Issuing(req, pc) := s.issues[call];
    assert IssueOk(cfg, s.db, s.now, req, pc);
    var lockHeld := LockHeld(cfg, s, KeyOf(cfg, req));
    var rowLocked := pc.Admitted? && RowLocked(s, pc.existing);
    IssueStepOk(cfg, s.db, s.now, lockHeld, rowLocked, req, pc, ev);
  }

  lemma IssueStepOk(
      cfg: Config, db: Db, now: Time, lockHeld: bool, rowLocked: bool, req: Request, pc: IssuePc, ev: IssueEvent)
    requires cfg.variant == AsBuilt && IssueOk(cfg, db, now, req, pc) && SessionsOk(db, now) && SlotsOk(db)
    requires !(pc.TokenWritten? && ev.Commit?)
    ensures IssueOk(cfg, db, now, req, IssueStep(cfg, db, now, lockHeld, rowLocked, req, pc, ev))
  {
    match ev
    case Find => FindOk(cfg, db, now, lockHeld, rowLocked, req, pc);
    case Decide => DecideOk(cfg, db, now, lockHeld, rowLocked, req, pc);
    case Revoke => RevokeOk(cfg, db, now, lockHeld, rowLocked, req, pc);
    case WriteSession => if pc.Cleared? { SlotStaysFree(cfg, db, now, req, pc.victim); }
    case _ =>
  }

  lemma FindOk(cfg: Config, db: Db, now: Time, lockHeld: bool, rowLocked: bool, req: Request, pc: IssuePc)
    requires cfg.variant == AsBuilt && IssueOk(cfg, db, now, req, pc) && SessionsOk(db, now) && SlotsOk(db)
    ensures IssueOk(cfg, db, now, req, IssueStep(cfg, db, now, lockHeld, rowLocked, req, pc, Find))
  {
    var found := ActiveSession(db, req.user, req.device);
    assert OnlyActive(db, req, found);
  }

  lemma DecideOk(cfg: Config, db: Db, now: Time, lockHeld: bool, rowLocked: bool, req: Request, pc: IssuePc)
    requires IssueOk(cfg, db, now, req, pc)
    ensures IssueOk(cfg, db, now, req, IssueStep(cfg, db, now, lockHeld, rowLocked, req, pc, Decide))
  {
  }

  lemma RevokeOk(cfg: Config, db: Db, now: Time, lockHeld: bool, rowLocked: bool, req: Request, pc: IssuePc)
    requires cfg.variant == AsBuilt && IssueOk(cfg, db, now, req, pc) && SessionsOk(db, now)
    ensures IssueOk(cfg, db, now, req, IssueStep(cfg, db, now, lockHeld, rowLocked, req, pc, Revoke))
  {
    if pc.Admitted? && !Revocable(db, pc.existing) {
      assert OnlyActive(db, req, None);
    }
  }

  /** Whatever the transaction found, its own revocation leaves the slot free. */
  lemma SlotStaysFree(cfg: Config, db: Db, now: Time, req: Request, victim: Option<Victim>)
    requires VictimOk(cfg, db, now, req, victim)
    ensures SlotFree(AfterVictim(db, victim), req.user, req.device)
  {
    var db' := AfterVictim(db, victim);
    forall id ensures !ActiveIn(db', req.user, req.device, id) {
      if ActiveIn(db', req.user, req.device, id) {
        assert ActiveIn(db, req.user, req.device, id);
      }
    }
  }

  lemma InsertSessionEvolves(db: Db, id: Id, row: SessionRow)
    requires id !in db.sessions
    ensures DbEvolves(db, InsertSession(db, id, row))
  {
  }

  lemma InsertTokenEvolves(db: Db, id: Id, row: TokenRow)
    requires id !in db.tokens
    ensures DbEvolves(db, InsertToken(db, id, row))
    ensures |InsertToken(db, id, row).tokens| == |db.tokens| + 1
  {
    var db' := InsertToken(db, id, row);
    assert db'.tokens.Keys == db.tokens.Keys + {id};
    assert |db'.tokens| == |db'.tokens.Keys| && |db.tokens| == |db.tokens.Keys|;
  }

  /** The tables after a committed issue. */
  lemma IssueEffect(cfg: Config, db: Db, req: Request, txStart: Time, victim: Option<Victim>, expiresAt: Time)
    requires TokensOk(db)
    requires SessionAccepted(cfg, db, req) && req.familyId !in Families(db.tokens)
    requires TokenInsertable(AfterSession(cfg, db, req, txStart, victim), req.tokenId, RootFor(req, txStart, expiresAt))
    ensures var db' := AfterIssue(cfg, db, req, txStart, victim, expiresAt);
            && TokensOk(db') && DbEvolves(db, db')
            && Families(db'.tokens) == Families(db.tokens) + {req.familyId}
            && |db'.tokens| == |db.tokens| + 1
            && |Families(db'.tokens)| == |Families(db.tokens)| + 1
  {
    var revoked := AfterVictim(db, victim);
    var mid := AfterSession(cfg, db, req, txStart, victim);
    assert DbEvolves(db, revoked);
    InsertSessionEvolves(revoked, req.sessionId, SessionFor(cfg, req, txStart));
    EvolvesTrans(db, revoked, mid);
    TokensOkKept(db, mid);
    RootStartsChain(mid, req.tokenId, RootFor(req, txStart, expiresAt));
    InsertTokenEvolves(mid, req.tokenId, RootFor(req, txStart, expiresAt));
    EvolvesTrans(db, mid, AfterIssue(cfg, db, req, txStart, victim, expiresAt));
  }

  lemma IssueCommitPreserves(cfg: Config, s: State, call: Id)
    requires cfg.variant == AsBuilt && Inv(cfg, s) && call in s.issues && s.issues[call].pc.TokenWritten?
    ensures Inv(cfg, IssueMoves(cfg, s, call, Commit))
    ensures DbEvolves(s.db, IssueMoves(cfg, s, call, Commit).db)
  {
    var Issuing(req, pc) := s.issues[call];
    assert IssueOk(cfg, s.db, s.now, req, pc);
    SlotStaysFree(cfg, s.db, s.now, req, pc.victim);
    EvolvesRefl(s.db);
    if IssueNext(cfg, s, call, Commit) == IssueDone(Issued) {
      IssuedPreserves(cfg, s, call);
    } else {
      RefusedPreserves(cfg, s, call);
    }
  }

  lemma RefusedPreserves(cfg: Config, s: State, call: Id)
    requires Inv(cfg, s) && call in s.issues && s.issues[call].pc.TokenWritten?
    requires IssueNext(cfg, s, call, Commit) == IssueDone(IssueFailed)
    ensures Inv(cfg, IssueMoves(cfg, s, call, Commit))
    ensures IssueMoves(cfg, s, call, Commit).db == s.db
  {
    var s' := IssueMoves(cfg, s, call, Commit);
    assert s' == s.(issues := s'.issues);
    assert RefreshesOk(s') && LogoutsOk(s');
  }

  lemma IssuedPreserves(cfg: Config, s: State, call: Id)
    requires cfg.variant == AsBuilt && Inv(cfg, s) && call in s.issues && s.issues[call].pc.TokenWritten?
    requires IssueNext(cfg, s, call, Commit) == IssueDone(Issued)
    ensures Inv(cfg, IssueMoves(cfg, s, call, Commit))
    ensures DbEvolves(s.db, IssueMoves(cfg, s, call, Commit).db)
  {
    var s' := IssueMoves(cfg, s, call, Commit);
    var Issuing(req, pc) := s.issues[call];
    IssueEffect(cfg, s.db, req, pc.txStart, pc.victim, pc.tokenExpiresAt);
    IssueCommitSlots(cfg, s, call);
    IssuedFamilies(cfg, s, call);
    CallsKept(cfg, s, s');
  }

  /** Refreshes and logouts are untouched by a step that only lets the tables evolve. */
  lemma CallsKept(cfg: Config, s: State, s': State)
    requires RefreshesOk(s) && LogoutsOk(s) && WinnersUnique(s) && DbEvolves(s.db, s'.db)
    requires s'.refreshes == s.refreshes && s'.logouts == s.logouts
    ensures RefreshesOk(s') && LogoutsOk(s') && WinnersUnique(s')
  {
    forall c | c in s.refreshes ensures RefreshOk(s'.db, s'.refreshes[c]) {
      RefreshOkSurvives(s.db, s'.db, s.refreshes[c]);
    }
    forall c | c in s.logouts ensures LogoutOk(s'.db, s'.logouts[c]) {
      assert LogoutOk(s.db, s.logouts[c]);
    }
  }

  lemma IssuedFamilies(cfg: Config, s: State, call: Id)
    requires Inv(cfg, s) && call in s.issues && s.issues[call].pc.TokenWritten?
    requires IssueNext(cfg, s, call, Commit) == IssueDone(Issued)
    requires Families(IssueMoves(cfg, s, call, Commit).db.tokens)
          == Families(s.db.tokens) + {s.issues[call].req.familyId}
    ensures FamiliesSeparate(IssueMoves(cfg, s, call, Commit))
    ensures LocksExclusive(cfg, IssueMoves(cfg, s, call, Commit))
  {
  }

  lemma IssueCommitSlots(cfg: Config, s: State, call: Id)
    requires cfg.variant == AsBuilt && Inv(cfg, s) && call in s.issues && s.issues[call].pc.TokenWritten?
    requires IssueNext(cfg, s, call, Commit) == IssueDone(Issued)
    requires DbEvolves(s.db, IssueMoves(cfg, s, call, Commit).db)
    ensures var s' := IssueMoves(cfg, s, call, Commit);
            && SessionsOk(s'.db, s'.now) && SlotsOk(s'.db) && DecisionsOk(cfg, s') && IssuesOk(cfg, s')
  {
    var Issuing(req, pc) := s.issues[call];
    assert VictimOk(cfg, s.db, s.now, req, pc.victim);
    CommittedSlots(cfg, s, call, pc.txStart, pc.victim, IssueMoves(cfg, s, call, Commit));
  }

  lemma CommittedSlots(cfg: Config, s: State, call: Id, txStart: Time, victim: Option<Victim>, s': State)
    requires cfg.variant == AsBuilt && Inv(cfg, s) && call in s.issues && txStart <= s.now
    requires HoldsLock(s.issues[call].pc) && SessionAccepted(cfg, s.db, s.issues[call].req)
    requires VictimOk(cfg, s.db, s.now, s.issues[call].req, victim) && DbEvolves(s.db, s'.db)
    requires VictimOf(s.issues[call].pc) == victim
    requires s'.db.sessions == AfterSession(cfg, s.db, s.issues[call].req, txStart, victim).sessions
    requires s'.now == s.now
    requires s'.issues == s.issues[call := Issuing(s.issues[call].req, IssueDone(Issued))]
    requires s'.decisions == if victim.None? then s.decisions
                             else s.decisions[victim.value.id := victim.value.decidedAt]
    ensures SessionsOk(s'.db, s'.now) && SlotsOk(s'.db) && DecisionsOk(cfg, s') && IssuesOk(cfg, s')
  {
    var req := s.issues[call].req;
    ActiveAfterCommit(cfg, s.db, s'.db, req, txStart, victim);
    CommittedSessions(cfg, s, req, txStart, victim, s');
    forall c | c in s'.issues
      ensures IssueOk(cfg, s'.db, s'.now, s'.issues[c].req, s'.issues[c].pc)
    {
      if c != call {
        IssueOkSurvives(cfg, s.db, s.now, s'.db, s'.now, s.issues[c].req, s.issues[c].pc);
      }
    }
  }

  /** The new session takes the victim's place and no other slot changes. */
  lemma ActiveAfterCommit(cfg: Config, db: Db, db': Db, req: Request, txStart: Time, victim: Option<Victim>)
    requires req.sessionId !in db.sessions
    requires db'.sessions == AfterSession(cfg, db, req, txStart, victim).sessions
    ensures forall user, device, id :: ActiveIn(db', user, device, id) <==>
              ((ActiveIn(db, user, device, id) && !(victim.Some? && victim.value.id == id))
               || (id == req.sessionId && user == req.user && device == req.device))
  {
  }

  lemma CommittedSessions(cfg: Config, s: State, req: Request, txStart: Time, victim: Option<Victim>, s': State)
    requires SessionsOk(s.db, s.now) && DecisionsOk(cfg, s) && txStart <= s.now && req.sessionId !in s.db.sessions
    requires VictimOk(cfg, s.db, s.now, req, victim)
    requires s'.db.sessions == AfterSession(cfg, s.db, req, txStart, victim).sessions && s'.now == s.now
    requires s'.decisions == if victim.None? then s.decisions
                             else s.decisions[victim.value.id := victim.value.decidedAt]
    ensures SessionsOk(s'.db, s'.now) && DecisionsOk(cfg, s')
  {
  }

  // ------------------------------------------------------------ every event

  lemma TickPreserves(cfg: Config, s: State, elapsed: nat)
    requires Inv(cfg, s)
    ensures Inv(cfg, s.(now := s.now + elapsed))
  {
    var s' := s.(now := s.now + elapsed);
    EvolvesRefl(s.db);
    forall c | c in s.issues ensures IssueOk(cfg, s'.db, s'.now, s.issues[c].req, s.issues[c].pc) {
      IssueOkSurvives(cfg, s.db, s.now, s'.db, s'.now, s.issues[c].req, s.issues[c].pc);
    }
  }

  lemma StartRefreshPreserves(cfg: Config, s: State, call: Id, hash: string)
    requires Inv(cfg, s) && call !in s.refreshes
    ensures Inv(cfg, s.(refreshes := s.refreshes[call := Presented(hash)]))
  {
    var s' := s.(refreshes := s.refreshes[call := Presented(hash)]);
    EvolvesRefl(s.db);
    RefreshesSurvive(s, s', call);
    SessionsKeptKeeps(cfg, s, s');
  }

  lemma StartLogoutPreserves(cfg: Config, s: State, call: Id, hash: string)
    requires Inv(cfg, s) && call !in s.logouts
    ensures Inv(cfg, s.(logouts := s.logouts[call := LogoutPresented(hash)]))
  {
    var s' := s.(logouts := s.logouts[call := LogoutPresented(hash)]);
    EvolvesRefl(s.db);
    LogoutsSurvive(s, s', call);
    SessionsKeptKeeps(cfg, s, s');
    assert RefreshesOk(s');
  }

  lemma StartIssuePreserves(cfg: Config, s: State, call: Id, req: Request)
    requires Inv(cfg, s) && call !in s.issues && FreshFamily(s, req.familyId)
    ensures Inv(cfg, s.(issues := s.issues[call := Issuing(req, Requested)]))
  {
    var s' := s.(issues := s.issues[call := Issuing(req, Requested)]);
    EvolvesRefl(s.db);
    CallsKept(cfg, s, s');
    assert IssuesOk(cfg, s') && FamiliesSeparate(s') && LocksExclusive(cfg, s');
  }

  lemma StepPreserves(cfg: Config, s: State, e: Event)
    requires cfg.variant == AsBuilt && Inv(cfg, s)
    ensures Inv(cfg, Step(cfg, s, e))
    ensures DbEvolves(s.db, Step(cfg, s, e).db)
  {
    EvolvesRefl(s.db);
    match e
    case Refresh(call, ev) => if call in s.refreshes { RefreshPreserves(cfg, s, call, ev); }
    case Logout(call, ev) => if call in s.logouts { LogoutPreserves(cfg, s, call, ev); }
    case Issue(call, ev) => if call in s.issues { IssuePreserves(cfg, s, call, ev); }
    case _ => ArrivalPreserves(cfg, s, e);
  }

  lemma IssuePreserves(cfg: Config, s: State, call: Id, ev: IssueEvent)
    requires cfg.variant == AsBuilt && Inv(cfg, s) && call in s.issues
    ensures Inv(cfg, IssueMoves(cfg, s, call, ev)) && DbEvolves(s.db, IssueMoves(cfg, s, call, ev).db)
  {
    EvolvesRefl(s.db);
    if s.issues[call].pc.TokenWritten? && ev.Commit? {
      IssueCommitPreserves(cfg, s, call);
    } else {
      IssueLocalPreserves(cfg, s, call, ev);
    }
  }

  /** Time passes and calls arrive. */
  lemma ArrivalPreserves(cfg: Config, s: State, e: Event)
    requires Inv(cfg, s) && (e.Tick? || e.StartRefresh? || e.StartLogout? || e.StartIssue?)
    ensures Inv(cfg, Step(cfg, s, e)) && DbEvolves(s.db, Step(cfg, s, e).db)
  {
    EvolvesRefl(s.db);
    match e
    case Tick(elapsed) => TickPreserves(cfg, s, elapsed);
    case StartRefresh(call, hash) =>
      if call !in s.refreshes { StartRefreshPreserves(cfg, s, call, hash); }
    case StartLogout(call, hash) =>
      if call !in s.logouts { StartLogoutPreserves(cfg, s, call, hash); }
    case StartIssue(call, req) =>
      if call !in s.issues && FreshFamily(s, req.familyId) { StartIssuePreserves(cfg, s, call, req); }
  }

  lemma {:induction false} RunPreserves(cfg: Config, s: State, run: seq<Event>)
    requires cfg.variant == AsBuilt && Inv(cfg, s)
    ensures Inv(cfg, Exec(cfg, s, run))
    ensures DbEvolves(s.db, Exec(cfg, s, run).db)
    decreases |run|
  {
    EvolvesRefl(s.db);
    if run != [] {
      var before := Exec(cfg, s, run[..|run| - 1]);
      RunPreserves(cfg, s, run[..|run| - 1]);
      StepPreserves(cfg, before, run[|run| - 1]);
      EvolvesTrans(s.db, before.db, Exec(cfg, s, run).db);
    }
  }

  lemma ReachableInv(cfg: Config, s: State)
    requires cfg.variant == AsBuilt && Reachable(cfg, s)
    ensures Inv(cfg, s)
  {
    var start: Time, run: seq<Event> :| s == Exec(cfg, Init(start), run);
    RunPreserves(cfg, Init(start), run);
  }
}
