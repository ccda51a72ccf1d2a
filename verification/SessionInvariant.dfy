/**
 The invariant of the session machine and the proof that every event keeps it.
 A call's part of the invariant survives every step of the others because it
 speaks of the tables only through facts that evolution keeps.
 */
module SessionInvariant {
  import opened Prelude
  import opened TokenTables
  import opened TokenChains
  import opened RefreshProtocol
  import opened IssueProtocol
  import opened SessionMachine

  // ------------------------------------------------------------ refreshing

  ghost predicate HoldsToken(db: Db, id: Id, token: TokenRow) {
    id in db.tokens && TokenEvolves(token, db.tokens[id])
  }

  ghost predicate HoldsSession(db: Db, token: TokenRow, session: SessionRow) {
    token.session in db.sessions && SessionEvolves(session, db.sessions[token.session])
  }

  ghost predicate LiveSnapshot(token: TokenRow) {
    token.consumedAt.None? && token.revoked.None?
  }

  /** A consumed token, its child, and the child revoked. */
  ghost predicate ReplayAnswered(db: Db, id: Id) {
    exists child :: child in db.tokens && db.tokens[child].parent == Some(id) && db.tokens[child].revoked.Some?
  }

  ghost predicate RefreshOk(db: Db, pc: RefreshPc) {
    match pc
    case Presented(_) => true
    case TokenRead(id, token) => HoldsToken(db, id, token)
    case SessionRead(id, token, session) => HoldsToken(db, id, token) && HoldsSession(db, token, session)
    case TokenPassed(id, token, session) =>
      HoldsToken(db, id, token) && HoldsSession(db, token, session) && LiveSnapshot(token)
    case SessionPassed(id, token, session) =>
      HoldsToken(db, id, token) && HoldsSession(db, token, session) && LiveSnapshot(token) && session.revoked.None?
    case Minted(id, token, session, childId, child) =>
      && HoldsToken(db, id, token) && HoldsSession(db, token, session) && LiveSnapshot(token)
      && session.revoked.None?
      && child == Child(id, token, child.hash, child.expiresAt, child.createdAt)
    case Replaying(id, token) =>
      HoldsToken(db, id, token) && db.tokens[id].consumedAt.Some?
    case RefreshDone(outcome) =>
      && (outcome.Rotated? ==>
            && outcome.parent in db.tokens && db.tokens[outcome.parent].consumedAt.Some?
            && outcome.child in db.tokens && db.tokens[outcome.child].parent == Some(outcome.parent))
      && (outcome.ReplayDetected? ==>
            && outcome.token in db.tokens && db.tokens[outcome.token].consumedAt.Some?
            && (outcome.revoked ==> ReplayAnswered(db, outcome.token)))
  }

  lemma RefreshOkSurvives(db: Db, db': Db, pc: RefreshPc)
    requires DbEvolves(db, db') && RefreshOk(db, pc)
    ensures RefreshOk(db', pc)
  {
    if pc.RefreshDone? && pc.outcome.ReplayDetected? && pc.outcome.revoked {
      var child :| child in db.tokens && db.tokens[child].parent == Some(pc.outcome.token)
        && db.tokens[child].revoked.Some?;
      assert child in db'.tokens;
    }
  }

  ghost predicate Won(pc: RefreshPc, parent: Id) {
    pc.RefreshDone? && pc.outcome.Rotated? && pc.outcome.parent == parent
  }

  // ------------------------------------------------------ the tables alone

  ghost predicate SessionsOk(db: Db, now: Time) {
    && (forall id :: id in db.sessions ==> db.sessions[id].createdAt <= now)
    && (forall id :: id in db.sessions && db.sessions[id].revoked.Some? ==>
          db.sessions[id].createdAt <= db.sessions[id].revoked.value.at)
  }

  /** uq_sessions_active_device holds of the tables. */
  ghost predicate SlotsOk(db: Db) {
    forall user, device, a, b :: (ActiveIn(db, user, device, a) && ActiveIn(db, user, device, b)) ==> a == b
  }

  // --------------------------------------------------------------- issuing

  ghost predicate OnlyActive(db: Db, req: Request, found: Option<Id>) {
    forall id :: ActiveIn(db, req.user, req.device, id) ==> found == Some(id)
  }

  ghost predicate InSlot(db: Db, req: Request, id: Id) {
    id in db.sessions && db.sessions[id].user == req.user && db.sessions[id].device == req.device
  }

  ghost predicate Young(cfg: Config, db: Db, id: Id, decidedAt: Time) {
    id in db.sessions && db.sessions[id].createdAt <= decidedAt <= db.sessions[id].createdAt + cfg.grace
  }

  ghost predicate VictimOk(cfg: Config, db: Db, now: Time, req: Request, victim: Option<Victim>) {
    if victim.None? then
      OnlyActive(db, req, None)
    else
      && ActiveIn(db, req.user, req.device, victim.value.id)
      && OnlyActive(db, req, Some(victim.value.id))
      && Young(cfg, db, victim.value.id, victim.value.decidedAt)
      && victim.value.decidedAt <= victim.value.at <= now
      && db.sessions[victim.value.id].createdAt <= victim.value.at
  }

  ghost predicate IssueOk(cfg: Config, db: Db, now: Time, req: Request, pc: IssuePc) {
    match pc
    case Requested => true
    case Begun(txStart, _) => txStart <= now
    case Locked(txStart, _) => txStart <= now
    case Looked(txStart, found, created) =>
      && txStart <= now && OnlyActive(db, req, found)
      && (found.Some? ==> InSlot(db, req, found.value) && db.sessions[found.value].createdAt == created <= now)
    case Admitted(txStart, existing, decidedAt) =>
      && txStart <= now && OnlyActive(db, req, Some(existing))
      && Young(cfg, db, existing, decidedAt) && decidedAt <= now && InSlot(db, req, existing)
    case Cleared(txStart, victim) => txStart <= now && VictimOk(cfg, db, now, req, victim)
    case SessionWritten(txStart, victim) => txStart <= now && VictimOk(cfg, db, now, req, victim)
    case TokenWritten(txStart, victim, _) => txStart <= now && VictimOk(cfg, db, now, req, victim)
    case IssueDone(outcome) => outcome != SlotConflict && outcome != RevocationCheck
  }

  /**
   What a step of somebody else may do to the slot of `req`: active sessions may
   be revoked, except a row-locked victim; none may appear.
   */
  ghost predicate SlotRespected(db: Db, db': Db, req: Request, pc: IssuePc) {
    && (forall id :: ActiveIn(db', req.user, req.device, id) ==> ActiveIn(db, req.user, req.device, id))
    && ((VictimOf(pc).Some? && ActiveIn(db, req.user, req.device, VictimOf(pc).value.id))
          ==> ActiveIn(db', req.user, req.device, VictimOf(pc).value.id))
  }

  lemma IssueOkSurvives(cfg: Config, db: Db, now: Time, db': Db, now': Time, req: Request, pc: IssuePc)
    requires IssueOk(cfg, db, now, req, pc)
    requires DbEvolves(db, db') && now <= now'
    requires HoldsLock(pc) ==> SlotRespected(db, db', req, pc)
    ensures IssueOk(cfg, db', now', req, pc)
  {
  }

  // ------------------------------------------------------- the whole state

  ghost predicate FamiliesSeparate(s: State) {
    && (forall a, b :: a in s.issues && b in s.issues && s.issues[a].req.familyId == s.issues[b].req.familyId
          ==> a == b)
    && (forall a :: a in s.issues && s.issues[a].pc != IssueDone(Issued) ==>
          s.issues[a].req.familyId !in Families(s.db.tokens))
  }

  ghost predicate LocksExclusive(cfg: Config, s: State) {
    forall a, b :: (a in s.issues && b in s.issues && HoldsLock(s.issues[a].pc) && HoldsLock(s.issues[b].pc)
                    && KeyOf(cfg, s.issues[a].req) == KeyOf(cfg, s.issues[b].req)) ==> a == b
  }

  ghost predicate WinnersUnique(s: State) {
    forall a, b, parent :: (a in s.refreshes && b in s.refreshes
                            && Won(s.refreshes[a], parent) && Won(s.refreshes[b], parent)) ==> a == b
  }

  ghost predicate Superseded(db: Db, id: Id) {
    id in db.sessions && db.sessions[id].revoked.Some? && db.sessions[id].revoked.value.reason == SessionSuperseded
  }

  ghost predicate DecisionsOk(cfg: Config, s: State) {
    forall id :: Superseded(s.db, id) ==>
      && id in s.decisions && Young(cfg, s.db, id, s.decisions[id])
      && s.decisions[id] <= s.db.sessions[id].revoked.value.at
  }

  ghost predicate RefreshesOk(s: State) {
    forall call :: call in s.refreshes ==> RefreshOk(s.db, s.refreshes[call])
  }

  ghost predicate IssuesOk(cfg: Config, s: State) {
    forall call :: call in s.issues ==> IssueOk(cfg, s.db, s.now, s.issues[call].req, s.issues[call].pc)
  }

  ghost predicate LogoutOk(db: Db, pc: LogoutPc) {
    match pc
    case LogoutTokenRead(id, token) => HoldsToken(db, id, token)
    case LogoutSessionRead(id, token) => HoldsToken(db, id, token)
    case _ => true
  }

  ghost predicate LogoutsOk(s: State) {
    forall call :: call in s.logouts ==> LogoutOk(s.db, s.logouts[call])
  }

  ghost predicate Inv(cfg: Config, s: State) {
    && TokensOk(s.db)
    && |s.db.tokens| == |Families(s.db.tokens)| + s.rotations
    && SessionsOk(s.db, s.now)
    && SlotsOk(s.db)
    && RefreshesOk(s)
    && LogoutsOk(s)
    && IssuesOk(cfg, s)
    && FamiliesSeparate(s)
    && LocksExclusive(cfg, s)
    && WinnersUnique(s)
    && DecisionsOk(cfg, s)
  }
}
