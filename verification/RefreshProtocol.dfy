/**
 One refresh call and one logout call, cut at every point where the service
 touches the database. A call's control state holds exactly the snapshots the
 running `Handle` keeps in local variables, so calls can be interleaved at
 these cuts. A step that does not apply to the control state leaves everything
 as it was.
 */
module RefreshProtocol {
  import opened Prelude
  import opened TokenTables

  datatype RefreshOutcome =
    | Rotated(parent: Id, child: Id, delivered: bool) // committed; the answer may still be lost
    | InvalidToken                                    // ErrInvalidRefreshToken
    | ReplayDetected(token: Id, revoked: bool)        // ErrRefreshTokenReplay
    | RefreshFailed                                   // an infrastructure error

  datatype RefreshPc =
    | Presented(hash: string)
    | TokenRead(id: Id, token: TokenRow)
    | SessionRead(id: Id, token: TokenRow, session: SessionRow)
    | TokenPassed(id: Id, token: TokenRow, session: SessionRow)
    | SessionPassed(id: Id, token: TokenRow, session: SessionRow)
    | Minted(id: Id, token: TokenRow, session: SessionRow, childId: Id, child: TokenRow)
    | Replaying(id: Id, token: TokenRow)
    | RefreshDone(outcome: RefreshOutcome)

  datatype RefreshEvent =
    | ReadToken
    | ReadSession
    | CheckToken
    | CheckSession
    | Mint(childId: Id, childHash: string)
    | Rotate(delivered: bool)
    | RevokeReplayed(stored: bool)
    | RefreshCrash

  /** The replacement row: same session and family, parented on the presented token. */
  function Child(id: Id, token: TokenRow, hash: string, expiresAt: Time, createdAt: Time): TokenRow {
    TokenRow(token.session, token.family, Some(id), hash, createdAt, expiresAt, None, None)
  }

  /** The tables a committed rotation leaves. */
  function AfterRotation(db: Db, now: Time, id: Id, session: Id, childId: Id, child: TokenRow): Db {
    TouchSession(InsertToken(ConsumeToken(db, id, now), childId, child), session, now)
  }

  /** Consume, create, touch, commit; or roll everything back. */
  ghost function RotateStep(db: Db, now: Time, pc: RefreshPc, delivered: bool): (Db, RefreshPc)
    requires pc.Minted?
  {
    var child := pc.child.(createdAt := now);
    var consumed := ConsumeToken(db, pc.id, now);
    if !Consumable(db, pc.id) then
      (db, Replaying(pc.id, pc.token))
    else if !TokenInsertable(consumed, pc.childId, child) then
      (db, RefreshDone(RefreshFailed))
    else
      (AfterRotation(db, now, pc.id, pc.token.session, pc.childId, child),
       RefreshDone(Rotated(pc.id, pc.childId, delivered)))
  }

  ghost function RefreshStep(ttl: Time, db: Db, now: Time, pc: RefreshPc, ev: RefreshEvent): (Db, RefreshPc) {
    match (pc, ev)
    case (Presented(hash), ReadToken) =>
      var found := TokenWithHash(db.tokens, hash);
      if found.None? then (db, RefreshDone(InvalidToken)) else (db, TokenRead(found.value, db.tokens[found.value]))
    case (TokenRead(id, token), ReadSession) =>
      if token.session in db.sessions then
        (db, SessionRead(id, token, db.sessions[token.session]))
      else
        (db, RefreshDone(InvalidToken))
    case (SessionRead(id, token, session), CheckToken) =>
      if token.consumedAt.Some? then (db, Replaying(id, token))
      else if token.revoked.Some? || token.expiresAt < now then (db, RefreshDone(InvalidToken))
      else (db, TokenPassed(id, token, session))
    case (TokenPassed(id, token, session), CheckSession) =>
      if session.revoked.Some? || session.expiresAt < now then (db, RefreshDone(InvalidToken))
      else (db, SessionPassed(id, token, session))
    case (SessionPassed(id, token, session), Mint(childId, childHash)) =>
      (db, Minted(id, token, session, childId, Child(id, token, childHash, now + ttl, now)))
    case (Minted(_, _, _, _, _), Rotate(delivered)) =>
      RotateStep(db, now, pc, delivered)
    case (Replaying(id, token), RevokeReplayed(stored)) =>
      (if stored then RevokeFamily(db, token.family, now, Replayed) else db,
       RefreshDone(ReplayDetected(id, stored)))
    case (_, RefreshCrash) =>
      if pc.RefreshDone? then (db, pc) else (db, RefreshDone(RefreshFailed))
    case _ =>
      (db, pc)
  }

  // ---------------------------------------------------------------- logout

  datatype LogoutOutcome = LoggedOutOk(session: Id, family: Id) | LogoutInvalid | LogoutFailed

  datatype LogoutPc =
    | LogoutPresented(hash: string)
    | LogoutTokenRead(id: Id, token: TokenRow)
    | LogoutSessionRead(id: Id, token: TokenRow)
    | LogoutDone(outcome: LogoutOutcome)

  datatype LogoutEvent = LogoutReadToken | LogoutReadSession | LogoutCommit | LogoutCrash

  ghost function LogoutStep(db: Db, now: Time, pc: LogoutPc, ev: LogoutEvent): (Db, LogoutPc) {
    match (pc, ev)
    case (LogoutPresented(hash), LogoutReadToken) =>
      var found := TokenWithHash(db.tokens, hash);
      if found.None? then (db, LogoutDone(LogoutInvalid))
      else (db, LogoutTokenRead(found.value, db.tokens[found.value]))
    case (LogoutTokenRead(id, token), LogoutReadSession) =>
      if token.session in db.sessions then (db, LogoutSessionRead(id, token)) else (db, LogoutDone(LogoutInvalid))
    case (LogoutSessionRead(id, token), LogoutCommit) =>
      if !RevocationAllowed(db, token.session, now) then
        (db, LogoutDone(LogoutFailed))
      else
        (RevokeFamily(RevokeSession(db, token.session, now, UserLogout), token.family, now, LoggedOut),
         LogoutDone(LoggedOutOk(token.session, token.family)))
    case (_, LogoutCrash) =>
      if pc.LogoutDone? then (db, pc) else (db, LogoutDone(LogoutFailed))
    case _ =>
      (db, pc)
  }
}
