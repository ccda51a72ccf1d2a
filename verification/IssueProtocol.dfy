/**
 One `IssueForDevice` transaction, statement by statement. Its writes are
 buffered in the control state and reach the tables only at commit, while every
 read sees the tables as last committed (READ COMMITTED).
 */
module IssueProtocol {
  import opened Prelude
  import opened TokenTables

  /**
   `AsBuilt` is the code. The other two change one decision each, to show that
   the guarantees rest on it: revoking with the transaction start time, and
   reading from a snapshot taken when the transaction begins.
   */
  datatype Variant = AsBuilt | RevokeAtTxStart | SnapshotAtBegin

  datatype Config = Config(
    grace: Time,
    sessionTtl: Time,
    refreshTtl: Time,
    lockKey: (Id, string) -> int,
    variant: Variant)

  /** What the caller and the generators fix before the transaction starts. */
  datatype Request = Request(user: Id, device: string, sessionId: Id, familyId: Id, tokenId: Id, hash: string)

  /** The buffered revocation of the superseded session, and when it was decided. */
  datatype Victim = Victim(id: Id, at: Time, decidedAt: Time)

  datatype IssueOutcome =
    | Issued
    | DeviceSessionActive  // past the grace period
    | SlotConflict         // uq_sessions_active_device
    | RevocationCheck      // sessions_revocation_check
    | IssueFailed          // another constraint, or an infrastructure error

  datatype IssuePc =
    | Requested
    | Begun(txStart: Time, snapshot: Db)
    | Locked(txStart: Time, snapshot: Db)
    | Looked(txStart: Time, found: Option<Id>, created: Time)
    | Admitted(txStart: Time, existing: Id, decidedAt: Time)
    | Cleared(txStart: Time, victim: Option<Victim>)
    | SessionWritten(txStart: Time, victim: Option<Victim>)
    | TokenWritten(txStart: Time, victim: Option<Victim>, tokenExpiresAt: Time)
    | IssueDone(outcome: IssueOutcome)

  datatype IssueEvent =
    | Begin
    | Lock
    | Find
    | Decide
    | Revoke
    | WriteSession
    | WriteToken
    | Commit
    | IssueCrash

  function SessionFor(cfg: Config, req: Request, txStart: Time): SessionRow {
    SessionRow(req.user, req.device, txStart, txStart + cfg.sessionTtl, None, None)
  }

  function RootFor(req: Request, txStart: Time, expiresAt: Time): TokenRow {
    TokenRow(req.sessionId, req.familyId, None, req.hash, txStart, expiresAt, None, None)
  }

  /** The tables as the transaction itself sees them after its buffered revocation. */
  function AfterVictim(db: Db, victim: Option<Victim>): Db {
    if victim.None? then db else RevokeSession(db, victim.value.id, victim.value.at, SessionSuperseded)
  }

  function AfterSession(cfg: Config, db: Db, req: Request, txStart: Time, victim: Option<Victim>): Db {
    InsertSession(AfterVictim(db, victim), req.sessionId, SessionFor(cfg, req, txStart))
  }

  function AfterIssue(cfg: Config, db: Db, req: Request, txStart: Time, victim: Option<Victim>, expiresAt: Time): Db {
    InsertToken(AfterSession(cfg, db, req, txStart, victim), req.tokenId, RootFor(req, txStart, expiresAt))
  }

  /** Primary key and expiry check of sessions. */
  predicate SessionAccepted(cfg: Config, db: Db, req: Request) {
    req.sessionId !in db.sessions && 0 < cfg.sessionTtl
  }

  /** Does the transaction hold its advisory lock? */
  predicate HoldsLock(pc: IssuePc) {
    pc.Locked? || pc.Looked? || pc.Admitted? || pc.Cleared? || pc.SessionWritten? || pc.TokenWritten?
  }

  /** The row lock taken by the UPDATE that revoked the victim, held until the transaction ends. */
  function VictimOf(pc: IssuePc): Option<Victim> {
    match pc
    case Cleared(_, v) => v
    case SessionWritten(_, v) => v
    case TokenWritten(_, v, _) => v
    case _ => None
  }

  /**
   The next control state of the transaction, its writes aside. `lockHeld` and
   `rowLocked` say whether another transaction holds the advisory lock or the
   row lock this statement waits for; a waiting statement does not advance.
   */
  ghost function IssueStep(
      cfg: Config, db: Db, now: Time, lockHeld: bool, rowLocked: bool, req: Request, pc: IssuePc, ev: IssueEvent)
    : IssuePc
  {
    match (pc, ev)
    case (Requested, Begin) =>
      Begun(now, db)
    case (Begun(txStart, snapshot), Lock) =>
      if lockHeld then pc else Locked(txStart, snapshot)
    case (Locked(txStart, snapshot), Find) =>
      var view := if cfg.variant == SnapshotAtBegin then snapshot else db;
      var found := ActiveSession(view, req.user, req.device);
      Looked(txStart, found, if found.Some? then view.sessions[found.value].createdAt else 0)
    case (Looked(txStart, found, created), Decide) =>
      if found.None? then Cleared(txStart, None)
      else if now - created > cfg.grace then IssueDone(DeviceSessionActive)
      else Admitted(txStart, found.value, now)
    case (Admitted(txStart, existing, decidedAt), Revoke) =>
      var at := if cfg.variant == RevokeAtTxStart then txStart else now;
      if rowLocked then pc
      else if !Revocable(db, existing) then Cleared(txStart, None)
      else if !RevocationAllowed(db, existing, at) then IssueDone(RevocationCheck)
      else Cleared(txStart, Some(Victim(existing, at, decidedAt)))
    case (Cleared(txStart, victim), WriteSession) =>
      if !SlotFree(AfterVictim(db, victim), req.user, req.device) then IssueDone(SlotConflict)
      else if !SessionAccepted(cfg, db, req) then IssueDone(IssueFailed)
      else SessionWritten(txStart, victim)
    case (SessionWritten(txStart, victim), WriteToken) =>
      TokenWritten(txStart, victim, now + cfg.refreshTtl)
    case (TokenWritten(txStart, victim, expiresAt), Commit) =>
      if !SlotFree(AfterVictim(db, victim), req.user, req.device) then IssueDone(SlotConflict)
      else if !SessionAccepted(cfg, db, req)
              || !TokenInsertable(AfterSession(cfg, db, req, txStart, victim), req.tokenId,
                                  RootFor(req, txStart, expiresAt)) then IssueDone(IssueFailed)
      else IssueDone(Issued)
    case (_, IssueCrash) =>
      if pc.IssueDone? then pc else IssueDone(IssueFailed)
    case _ =>
      pc
  }
}
