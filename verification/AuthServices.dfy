/**
 The database as an object whose statements change rows in place, and the
 three services written over it. Each service is proved to take exactly the
 steps of its protocol, whatever the other calls do to the tables between its
 statements.
 */
module AuthServices {
  import opened Prelude
  import opened TokenTables
  import opened TokenChains
  import opened RefreshProtocol
  import opened IssueProtocol
  import opened SessionInvariant

  /** What a call finds when it next looks: the tables as others left them, and the time. */
  datatype Moment = Moment(db: Db, now: Time)

  /** Moments between which nothing else happens. */
  function Still(db: Db, now: Time, n: nat): (at: seq<Moment>)
    ensures |at| == n && forall i :: 0 <= i < n ==> at[i] == Moment(db, now)
  {
    if n == 0 then [] else Still(db, now, n - 1) + [Moment(db, now)]
  }

  class Database {
    var sessions: map<Id, SessionRow>
    var tokens: map<Id, TokenRow>
    var clock: Time
    var savepoint: Option<Db>

    ghost function Contents(): Db
      reads this
    {
      Db(sessions, tokens)
    }

    constructor ()
      ensures Contents() == Db(map[], map[]) && savepoint.None?
    {
      sessions, tokens, clock, savepoint := map[], map[], 0, None;
    }

    /** Time passes and other transactions commit. */
    method Await(m: Moment)
      modifies this
      ensures Contents() == m.db && clock == m.now && savepoint == old(savepoint)
    {
      sessions, tokens, clock := m.db.sessions, m.db.tokens, m.now;
    }

    method Begin()
      modifies this`savepoint
      ensures savepoint == Some(Contents())
    {
      savepoint := Some(Db(sessions, tokens));
    }

    method Commit()
      modifies this`savepoint
      ensures savepoint.None?
    {
      savepoint := None;
    }

    /** Everything since Begin is undone. */
    method Rollback()
      requires savepoint.Some?
      modifies this`savepoint, this`sessions, this`tokens
      ensures Contents() == old(savepoint).value && savepoint.None?
    {
      sessions, tokens := savepoint.value.sessions, savepoint.value.tokens;
      savepoint := None;
    }

    // ------------------------------------------------------------- tokens

    method GetRefreshTokenByHash(hash: string) returns (found: Option<Id>)
      requires forall i, j :: i in tokens && j in tokens && tokens[i].hash == tokens[j].hash ==> i == j
      ensures found == TokenWithHash(tokens, hash)
    {
      found := None;
      var rest := tokens.Keys;
      while found.None? && exists row :: row in rest
        invariant rest <= tokens.Keys
        invariant forall id :: id in tokens && id !in rest && HasHash(tokens, hash, id) ==> found == Some(id)
        invariant found.Some? ==> HasHash(tokens, hash, found.value)
        decreases |rest|
      {
        var id :| id in rest;
        if tokens[id].hash == hash { found := Some(id); }
        rest := rest - {id};
      }
    }

    method ConsumeRefreshToken(id: Id) returns (rows: nat)
      modifies this`tokens
      ensures Contents() == ConsumeToken(old(Contents()), id, clock)
      ensures rows == if Consumable(old(Contents()), id) then 1 else 0
    {
      rows := 0;
      if id in tokens && tokens[id].consumedAt.None? {
        tokens := tokens[id := tokens[id].(consumedAt := Some(clock))];
        rows := 1;
      }
    }

    method CreateRefreshToken(id: Id, row: TokenRow) returns (ok: bool)
      requires forall i, j :: i in tokens && j in tokens && tokens[i].hash == tokens[j].hash ==> i == j
      modifies this`tokens
      ensures ok == TokenInsertable(old(Contents()), id, row)
      ensures Contents() == if ok then InsertToken(old(Contents()), id, row) else old(Contents())
    {
      var clash := GetRefreshTokenByHash(row.hash);
      ok := id !in tokens && clash.None? && row.session in sessions && row.createdAt < row.expiresAt
        && (row.parent.None? || (row.parent.value in tokens && row.parent.value != id));
      if ok { tokens := tokens[id := row]; }
    }

    method RevokeRefreshTokenFamily(family: Id, reason: TokenReason)
      modifies this`tokens
      ensures Contents() == RevokeFamily(old(Contents()), family, clock, reason)
    {
      ghost var before := tokens;
      var rest := tokens.Keys;
      while exists row :: row in rest
        invariant rest <= tokens.Keys == before.Keys
        invariant forall id :: id in before ==>
          tokens[id] == if id in rest then before[id] else RevokedToken(before[id], family, clock, reason)
        decreases |rest|
      {
        var id :| id in rest;
        if tokens[id].family == family && tokens[id].revoked.None? {
          tokens := tokens[id := tokens[id].(revoked := Some(TokenRevocation(clock, reason)))];
        }
        rest := rest - {id};
      }
      forall id | id in before ensures tokens[id] == RevokedToken(before[id], family, clock, reason) {
        assert id !in rest;
      }
      assert tokens == RevokeFamily(old(Contents()), family, clock, reason).tokens;
    }

    // ----------------------------------------------------------- sessions

    method GetActiveSessionByUserAndDevice(user: Id, device: string) returns (found: Option<Id>)
      requires SlotsOk(Contents())
      ensures found == ActiveSession(Contents(), user, device)
    {
      found := None;
      var rest := sessions.Keys;
      while found.None? && exists row :: row in rest
        invariant rest <= sessions.Keys
        invariant forall id :: id !in rest && ActiveIn(Contents(), user, device, id) ==> found == Some(id)
        invariant found.Some? ==> ActiveIn(Contents(), user, device, found.value)
        decreases |rest|
      {
        var id :| id in rest;
        if sessions[id].user == user && sessions[id].device == device && sessions[id].revoked.None? {
          found := Some(id);
        }
        rest := rest - {id};
      }
      assert found.Some? ==> ActiveIn(Contents(), user, device, found.value);
    }

    /** Fails, changing nothing, when the row would violate sessions_revocation_check. */
    method RevokeSessionRow(id: Id, at: Time, reason: SessionReason) returns (ok: bool)
      modifies this`sessions
      ensures ok == RevocationAllowed(old(Contents()), id, at)
      ensures Contents() == if ok then RevokeSession(old(Contents()), id, at, reason) else old(Contents())
    {
      ok := true;
      if id in sessions && sessions[id].revoked.None? {
        if sessions[id].createdAt <= at {
          sessions := sessions[id := sessions[id].(revoked := Some(SessionRevocation(at, reason)))];
        } else {
          ok := false;
        }
      }
    }

    method CreateSession(id: Id, row: SessionRow) returns (ok: bool, conflict: bool)
      requires SlotsOk(Contents())
      modifies this`sessions
      ensures conflict == !SlotFree(old(Contents()), row.user, row.device)
      ensures ok == (!conflict && id !in old(sessions) && row.createdAt < row.expiresAt)
      ensures Contents() == if ok then InsertSession(old(Contents()), id, row) else old(Contents())
    {
      var holder := GetActiveSessionByUserAndDevice(row.user, row.device);
      conflict := holder.Some?;
      ok := !conflict && id !in sessions && row.createdAt < row.expiresAt;
      if ok { sessions := sessions[id := row]; }
    }

    method UpdateSessionLastRefreshedAt(id: Id)
      modifies this`sessions
      ensures Contents() == TouchSession(old(Contents()), id, clock)
    {
      if id in sessions {
        sessions := sessions[id := sessions[id].(lastRefreshedAt := Some(clock))];
      }
    }
  }

  // --------------------------------------------------------------- refresh

  /** The call's steps in order, each at the moment it happens, until the call is done. */
  ghost function RefreshRun(ttl: Time, pc: RefreshPc, at: seq<Moment>, script: seq<RefreshEvent>, i: nat)
    : (Db, RefreshPc)
    requires |at| == |script| && i < |script|
    decreases |script| - i
  {
    var (db, pc') := RefreshStep(ttl, at[i].db, at[i].now, pc, script[i]);
    if pc'.RefreshDone? || i + 1 == |script| then (db, pc') else RefreshRun(ttl, pc', at, script, i + 1)
  }

  function RefreshScript(childId: Id, childHash: string, answered: bool, stored: bool): seq<RefreshEvent> {
    [ReadToken, ReadSession, CheckToken, CheckSession, Mint(childId, childHash), Rotate(answered),
     RevokeReplayed(stored)]
  }

  class RefreshService {
    const db: Database
    const refreshTtl: Time

    constructor (db: Database, refreshTtl: Time)
      ensures this.db == db && this.refreshTtl == refreshTtl
    {
      this.db, this.refreshTtl := db, refreshTtl;
    }

    /** `answered` and `stored` say whether the access token was minted and the replay's revoke was stored. */
    method Handle(
        hash: string, childId: Id, childHash: string, answered: bool, stored: bool, at: seq<Moment>)
      returns (outcome: RefreshOutcome)
      requires |at| == 7 && forall i :: 0 <= i < 7 ==> TokensOk(at[i].db)
      modifies db
      ensures (db.Contents(), RefreshDone(outcome))
              == RefreshRun(refreshTtl, Presented(hash), at, RefreshScript(childId, childHash, answered, stored), 0)
    {
      ghost var script := RefreshScript(childId, childHash, answered, stored);
      db.Await(at[0]);
      var found := db.GetRefreshTokenByHash(hash);
      if found.None? { return InvalidToken; }
      var id := found.value;
      var current := db.tokens[id];

      db.Await(at[1]);
      if current.session !in db.sessions { return InvalidToken; }
      var session := db.sessions[current.session];
      assert RefreshRun(refreshTtl, Presented(hash), at, script, 0)
          == RefreshRun(refreshTtl, TokenRead(id, current), at, script, 1);
      assert RefreshRun(refreshTtl, TokenRead(id, current), at, script, 1)
          == RefreshRun(refreshTtl, SessionRead(id, current, session), at, script, 2);
      outcome := CheckAndRotate(id, current, session, childId, childHash, answered, stored, at);
    }

    /** The second half of Handle: the checks on both snapshots, then the rotation. */
    method CheckAndRotate(
        id: Id, current: TokenRow, session: SessionRow, childId: Id, childHash: string, answered: bool, stored: bool,
        at: seq<Moment>)
      returns (outcome: RefreshOutcome)
      requires |at| == 7 && forall i :: 0 <= i < 7 ==> TokensOk(at[i].db)
      modifies db
      ensures (db.Contents(), RefreshDone(outcome))
              == RefreshRun(refreshTtl, SessionRead(id, current, session), at,
                            RefreshScript(childId, childHash, answered, stored), 2)
    {
      ghost var script := RefreshScript(childId, childHash, answered, stored);
      ghost var read := SessionRead(id, current, session);
      db.Await(at[2]);
      if current.consumedAt.Some? {
        ReplayTail(refreshTtl, id, current, at, childId, childHash, answered, stored, 3);
        outcome := RevokeAfterReplay(id, current, stored, at[6]);
        return;
      }
      if current.revoked.Some? || current.expiresAt < db.clock { return InvalidToken; }

      ghost var live := TokenPassed(id, current, session);
      assert RefreshRun(refreshTtl, read, at, script, 2) == RefreshRun(refreshTtl, live, at, script, 3);
      db.Await(at[3]);
      if session.revoked.Some? || session.expiresAt < db.clock { return InvalidToken; }
      ghost var passed := SessionPassed(id, current, session);
      assert RefreshRun(refreshTtl, live, at, script, 3) == RefreshRun(refreshTtl, passed, at, script, 4);

      db.Await(at[4]);
      var child := TokenRow(current.session, current.family, Some(id), childHash, db.clock, db.clock + refreshTtl,
                            None, None);
      ghost var minted := Minted(id, current, session, childId, child);
      assert RefreshRun(refreshTtl, passed, at, script, 4) == RefreshRun(refreshTtl, minted, at, script, 5);

      outcome := Persist(id, current, session, childId, child, answered, stored, at);
    }

    /** The rotation transaction, and the replay response when its consume comes too late. */
    method Persist(
        id: Id, current: TokenRow, ghost session: SessionRow, childId: Id, child: TokenRow, answered: bool,
        stored: bool, at: seq<Moment>)
      returns (outcome: RefreshOutcome)
      requires |at| == 7 && forall i :: 0 <= i < 7 ==> TokensOk(at[i].db)
      modifies db
      ensures (db.Contents(), RefreshDone(outcome))
              == RefreshRun(refreshTtl, Minted(id, current, session, childId, child), at,
                            RefreshScript(childId, child.hash, answered, stored), 5)
    {
      db.Await(at[5]);
      db.Begin();
      var rows := db.ConsumeRefreshToken(id);
      if rows == 0 {
        db.Rollback();
        ReplayTail(refreshTtl, id, current, at, childId, child.hash, answered, stored, 6);
        outcome := RevokeAfterReplay(id, current, stored, at[6]);
        return;
      }
      var ok := db.CreateRefreshToken(childId, child.(createdAt := db.clock));
      if !ok {
        db.Rollback();
        return RefreshFailed;
      }
      db.UpdateSessionLastRefreshedAt(current.session);
      db.Commit();
      return Rotated(id, childId, answered);
    }

    method RevokeAfterReplay(id: Id, current: TokenRow, stored: bool, m: Moment) returns (outcome: RefreshOutcome)
      modifies db
      ensures (db.Contents(), RefreshDone(outcome))
              == RefreshStep(refreshTtl, m.db, m.now, Replaying(id, current), RevokeReplayed(stored))
    {
      db.Await(m);
      if stored { db.RevokeRefreshTokenFamily(current.family, Replayed); }
      return ReplayDetected(id, stored);
    }
  }

  /** A call that has detected a replay skips the remaining checks and revokes. */
  lemma {:induction false} ReplayTail(
      ttl: Time, id: Id, token: TokenRow, at: seq<Moment>, childId: Id, childHash: string, answered: bool,
      stored: bool, i: nat)
    requires |at| == 7 && 3 <= i <= 6
    ensures RefreshRun(ttl, Replaying(id, token), at, RefreshScript(childId, childHash, answered, stored), i)
         == RefreshStep(ttl, at[6].db, at[6].now, Replaying(id, token), RevokeReplayed(stored))
    decreases 6 - i
  {
    if i < 6 {
      var script := RefreshScript(childId, childHash, answered, stored);
      assert script[i] != RevokeReplayed(stored);
      ReplayTail(ttl, id, token, at, childId, childHash, answered, stored, i + 1);
    }
  }

  /** The token may be exchanged now: known, never exchanged, not revoked, in date, and so is its session. */
  ghost predicate Exchangeable(db: Db, id: Id, now: Time) {
    && id in db.tokens && LiveSnapshot(db.tokens[id]) && now <= db.tokens[id].expiresAt
    && db.tokens[id].session in db.sessions
    && db.sessions[db.tokens[id].session].revoked.None? && now <= db.sessions[db.tokens[id].session].expiresAt
  }

  /** What one undisturbed refresh does, in terms of the presented token alone. */
  lemma {:induction false} UndisturbedRefresh(
      ttl: Time, db: Db, now: Time, hash: string, id: Id, childId: Id, childHash: string)
    requires TokensOk(db) && HasHash(db.tokens, hash, id)
    requires 0 < ttl && childId !in db.tokens && TokenWithHash(db.tokens, childHash).None?
    ensures var at := Still(db, now, 7);
            var (db', pc) := RefreshRun(ttl, Presented(hash), at, RefreshScript(childId, childHash, true, true), 0);
            var row := db.tokens[id];
            && (pc == RefreshDone(Rotated(id, childId, true)) <==> Exchangeable(db, id, now))
            && (pc == RefreshDone(ReplayDetected(id, true)) <==> row.consumedAt.Some?)
            && (pc == RefreshDone(InvalidToken) <==> row.consumedAt.None? && !Exchangeable(db, id, now))
            && (Exchangeable(db, id, now) ==>
                  && db'.tokens == db.tokens[id := row.(consumedAt := Some(now))]
                                            [childId := Child(id, row, childHash, now + ttl, now)]
                  && db'.sessions == db.sessions[row.session :=
                       db.sessions[row.session].(lastRefreshedAt := Some(now))])
            && (row.consumedAt.Some? ==> db' == RevokeFamily(db, row.family, now, Replayed))
            && (row.consumedAt.None? && !Exchangeable(db, id, now) ==> db' == db)
  {
    var at := Still(db, now, 7);
    var script := RefreshScript(childId, childHash, true, true);
    var row := db.tokens[id];
    assert TokenWithHash(db.tokens, hash) == Some(id);
    var session := db.sessions[row.session];
    assert RefreshRun(ttl, Presented(hash), at, script, 0) == RefreshRun(ttl, TokenRead(id, row), at, script, 1);
    assert RefreshRun(ttl, TokenRead(id, row), at, script, 1)
        == RefreshRun(ttl, SessionRead(id, row, session), at, script, 2);
    if row.consumedAt.Some? {
      ReplayTail(ttl, id, row, at, childId, childHash, true, true, 3);
    } else if Exchangeable(db, id, now) {
      UndisturbedExchange(ttl, db, now, id, childId, childHash);
    } else if row.revoked.Some? || row.expiresAt < now {
    } else {
      assert RefreshRun(ttl, SessionRead(id, row, session), at, script, 2)
          == RefreshRun(ttl, TokenPassed(id, row, session), at, script, 3);
    }
  }

  /** A hash that no row has is an invalid token, not a failure, and changes nothing. */
  lemma {:induction false} UnknownRefreshIsInvalid(
      ttl: Time, db: Db, now: Time, hash: string, childId: Id, childHash: string, answered: bool, stored: bool)
    requires forall t :: t in db.tokens ==> db.tokens[t].hash != hash
    ensures RefreshRun(ttl, Presented(hash), Still(db, now, 7), RefreshScript(childId, childHash, answered, stored), 0)
         == (db, RefreshDone(InvalidToken))
  {
    assert forall t :: !HasHash(db.tokens, hash, t);
  }

  lemma {:induction false} UndisturbedExchange(
      ttl: Time, db: Db, now: Time, id: Id, childId: Id, childHash: string)
    requires TokensOk(db) && Exchangeable(db, id, now)
    requires 0 < ttl && childId !in db.tokens && TokenWithHash(db.tokens, childHash).None?
    ensures var row := db.tokens[id];
            var session := db.sessions[row.session];
            var (db', pc) := RefreshRun(ttl, SessionRead(id, row, session), Still(db, now, 7),
                                        RefreshScript(childId, childHash, true, true), 2);
            && pc == RefreshDone(Rotated(id, childId, true))
            && db'.tokens == db.tokens[id := row.(consumedAt := Some(now))]
                                      [childId := Child(id, row, childHash, now + ttl, now)]
            && db'.sessions == db.sessions[row.session := session.(lastRefreshedAt := Some(now))]
  {
    var at := Still(db, now, 7);
    var script := RefreshScript(childId, childHash, true, true);
    var row := db.tokens[id];
    var session := db.sessions[row.session];
    UndisturbedRotation(ttl, db, now, id, childId, childHash);
    assert RefreshRun(ttl, SessionRead(id, row, session), at, script, 2)
        == RefreshRun(ttl, TokenPassed(id, row, session), at, script, 3);
    assert RefreshRun(ttl, TokenPassed(id, row, session), at, script, 3)
        == RefreshRun(ttl, SessionPassed(id, row, session), at, script, 4);
    var minted := Minted(id, row, session, childId, Child(id, row, childHash, now + ttl, now));
    assert RefreshRun(ttl, SessionPassed(id, row, session), at, script, 4) == RefreshRun(ttl, minted, at, script, 5);
  }

  lemma UndisturbedRotation(ttl: Time, db: Db, now: Time, id: Id, childId: Id, childHash: string)
    requires TokensOk(db) && Exchangeable(db, id, now)
    requires 0 < ttl && childId !in db.tokens && TokenWithHash(db.tokens, childHash).None?
    ensures TokenInsertable(ConsumeToken(db, id, now), childId, Child(id, db.tokens[id], childHash, now + ttl, now))
  {
    var consumed := ConsumeToken(db, id, now);
    forall t ensures !HasHash(consumed.tokens, childHash, t) {
      assert !HasHash(db.tokens, childHash, t);
    }
  }

  // ---------------------------------------------------------------- logout

  class LogoutService {
    const db: Database

    constructor (db: Database)
      ensures this.db == db
    {
      this.db := db;
    }

    method Handle(hash: string, at: seq<Moment>) returns (outcome: LogoutOutcome)
      requires |at| == 3 && forall i :: 0 <= i < 3 ==> TokensOk(at[i].db)
      modifies db
      ensures (db.Contents(), LogoutDone(outcome)) == LogoutRun(LogoutPresented(hash), at, 0)
    {
      db.Await(at[0]);
      var found := db.GetRefreshTokenByHash(hash);
      if found.None? { return LogoutInvalid; }
      var current := db.tokens[found.value];

      db.Await(at[1]);
      if current.session !in db.sessions { return LogoutInvalid; }

      db.Await(at[2]);
      db.Begin();
      var ok := db.RevokeSessionRow(current.session, db.clock, UserLogout);
      if !ok {
        db.Rollback();
        return LogoutFailed;
      }
      db.RevokeRefreshTokenFamily(current.family, LoggedOut);
      db.Commit();
      return LoggedOutOk(current.session, current.family);
    }
  }

  const LOGOUT_SCRIPT := [LogoutReadToken, LogoutReadSession, LogoutCommit]

  ghost function LogoutRun(pc: LogoutPc, at: seq<Moment>, i: nat): (Db, LogoutPc)
    requires |at| == 3 && i < 3
    decreases 3 - i
  {
    var (db, pc') := LogoutStep(at[i].db, at[i].now, pc, LOGOUT_SCRIPT[i]);
    if pc'.LogoutDone? || i == 2 then (db, pc') else LogoutRun(pc', at, i + 1)
  }

  /** One undisturbed logout ends the presented token's session and every token of its family, whatever their state. */
  lemma {:induction false} UndisturbedLogout(db: Db, now: Time, hash: string, id: Id)
    requires TokensOk(db) && HasHash(db.tokens, hash, id) && RevocationAllowed(db, db.tokens[id].session, now)
    ensures var (db', pc) := LogoutRun(LogoutPresented(hash), Still(db, now, 3), 0);
            var session, family := db.tokens[id].session, db.tokens[id].family;
            && pc == LogoutDone(LoggedOutOk(session, family))
            && db'.tokens.Keys == db.tokens.Keys && db'.sessions.Keys == db.sessions.Keys
            && (forall s :: s in db.sessions ==>
                  if s == session && db.sessions[s].revoked.None?
                  then db'.sessions[s] == db.sessions[s].(revoked := Some(SessionRevocation(now, UserLogout)))
                  else db'.sessions[s] == db.sessions[s])
            && (forall t :: t in db.tokens ==>
                  if db.tokens[t].family == family && db.tokens[t].revoked.None?
                  then db'.tokens[t] == db.tokens[t].(revoked := Some(TokenRevocation(now, LoggedOut)))
                  else db'.tokens[t] == db.tokens[t])
  {
    var at := Still(db, now, 3);
    var row := db.tokens[id];
    assert TokenWithHash(db.tokens, hash) == Some(id);
    assert LogoutRun(LogoutPresented(hash), at, 0) == LogoutRun(LogoutTokenRead(id, row), at, 1);
    assert LogoutRun(LogoutTokenRead(id, row), at, 1) == LogoutRun(LogoutSessionRead(id, row), at, 2);
  }

  /** A logout with a hash that no row has is refused and changes nothing. */
  lemma {:induction false} UnknownLogoutIsInvalid(db: Db, now: Time, hash: string)
    requires forall t :: t in db.tokens ==> db.tokens[t].hash != hash
    ensures LogoutRun(LogoutPresented(hash), Still(db, now, 3), 0) == (db, LogoutDone(LogoutInvalid))
  {
    assert forall t :: !HasHash(db.tokens, hash, t);
  }

  /** Logging out twice is logging out once: the second call changes nothing. */
  lemma LogoutIsIdempotent(db: Db, t1: Time, t2: Time, session: Id, family: Id)
    requires RevocationAllowed(db, session, t1)
    ensures var once := RevokeFamily(RevokeSession(db, session, t1, UserLogout), family, t1, LoggedOut);
            && RevocationAllowed(once, session, t2)
            && RevokeFamily(RevokeSession(once, session, t2, UserLogout), family, t2, LoggedOut) == once
  {
    var once := RevokeFamily(RevokeSession(db, session, t1, UserLogout), family, t1, LoggedOut);
    var twice := RevokeFamily(RevokeSession(once, session, t2, UserLogout), family, t2, LoggedOut);
    forall id | id in once.tokens ensures twice.tokens[id] == once.tokens[id] {
      assert once.tokens[id] == RevokedToken(db.tokens[id], family, t1, LoggedOut);
    }
    assert twice.tokens == once.tokens;
  }

  // ----------------------------------------------------------------- issue

  const ISSUE_SCRIPT := [Begin, Lock, Find, Decide, Revoke, WriteSession, WriteToken, Commit]

  /** The transaction's statements in order, each at the moment it runs; it waits for its locks. */
  ghost function IssueRun(cfg: Config, req: Request, pc: IssuePc, at: seq<Moment>, i: nat): (Db, IssuePc)
    requires |at| == 8 && i < 8
    decreases 8 - i
  {
    var pc' := IssueStep(cfg, at[i].db, at[i].now, false, false, req, pc, ISSUE_SCRIPT[i]);
    if pc'.IssueDone? || i == 7 then
      (if pc.TokenWritten? && pc' == IssueDone(Issued)
       then AfterIssue(cfg, at[i].db, req, pc.txStart, pc.victim, pc.tokenExpiresAt) else at[i].db, pc')
    else IssueRun(cfg, req, pc', at, i + 1)
  }

  class Issuer {
    const db: Database
    const grace: Time
    const sessionTtl: Time
    const refreshTtl: Time

    constructor (db: Database, grace: Time, sessionTtl: Time, refreshTtl: Time)
      ensures this.db == db && this.grace == grace && this.sessionTtl == sessionTtl && this.refreshTtl == refreshTtl
    {
      this.db, this.grace, this.sessionTtl, this.refreshTtl := db, grace, sessionTtl, refreshTtl;
    }

    method IssueForDevice(ghost cfg: Config, req: Request, at: seq<Moment>) returns (outcome: IssueOutcome)
      requires cfg.variant == AsBuilt && cfg.grace == grace && cfg.sessionTtl == sessionTtl
      requires cfg.refreshTtl == refreshTtl
      requires |at| == 8 && forall i :: 0 <= i < 8 ==> SlotsOk(at[i].db) && TokensOk(at[i].db)
      modifies db
      ensures (db.Contents(), IssueDone(outcome)) == IssueRun(cfg, req, Requested, at, 0)
    {
      db.Await(at[0]);
      var txStart := db.clock;
      ghost var snapshot := db.Contents();
      db.Await(at[1]);                                       // the advisory lock is granted here
      db.Await(at[2]);
      var found := db.GetActiveSessionByUserAndDevice(req.user, req.device);
      var created := if found.Some? then db.sessions[found.value].createdAt else 0;
      ghost var looked := Looked(txStart, found, created);
      assert IssueRun(cfg, req, Requested, at, 0) == IssueRun(cfg, req, Begun(txStart, snapshot), at, 1);
      assert IssueRun(cfg, req, Begun(txStart, snapshot), at, 1) == IssueRun(cfg, req, looked, at, 3);

      outcome := Supersede(cfg, req, txStart, found, created, at);
    }

    /** Refuse an old occupant, revoke a young one, then write. */
    method Supersede(
        ghost cfg: Config, req: Request, txStart: Time, found: Option<Id>, created: Time, at: seq<Moment>)
      returns (outcome: IssueOutcome)
      requires cfg.variant == AsBuilt && cfg.grace == grace && cfg.sessionTtl == sessionTtl
      requires cfg.refreshTtl == refreshTtl
      requires |at| == 8 && forall i :: 0 <= i < 8 ==> SlotsOk(at[i].db) && TokensOk(at[i].db)
      modifies db
      ensures (db.Contents(), IssueDone(outcome)) == IssueRun(cfg, req, Looked(txStart, found, created), at, 3)
    {
      ghost var looked := Looked(txStart, found, created);
      db.Await(at[3]);
      var victim: Option<Victim> := None;
      if found.Some? {
        if db.clock - created > grace { return DeviceSessionActive; }
        var decidedAt := db.clock;
        ghost var admitted := Admitted(txStart, found.value, decidedAt);
        assert IssueRun(cfg, req, looked, at, 3) == IssueRun(cfg, req, admitted, at, 4);
        db.Await(at[4]);
        if found.value in db.sessions && db.sessions[found.value].revoked.None? {
          if db.clock < db.sessions[found.value].createdAt { return RevocationCheck; }
          victim := Some(Victim(found.value, db.clock, decidedAt));
        }
      }
      ghost var cleared := Cleared(txStart, victim);
      assert IssueRun(cfg, req, looked, at, 3) == IssueRun(cfg, req, cleared, at, 5);
      outcome := WriteAll(cfg, req, txStart, victim, at);
    }

    /** The writing half: insert the session and its root token, all or nothing. */
    method WriteAll(ghost cfg: Config, req: Request, txStart: Time, victim: Option<Victim>, at: seq<Moment>)
      returns (outcome: IssueOutcome)
      requires cfg.variant == AsBuilt && cfg.grace == grace && cfg.sessionTtl == sessionTtl
      requires cfg.refreshTtl == refreshTtl
      requires |at| == 8 && forall i :: 0 <= i < 8 ==> SlotsOk(at[i].db) && TokensOk(at[i].db)
      modifies db
      ensures (db.Contents(), IssueDone(outcome)) == IssueRun(cfg, req, Cleared(txStart, victim), at, 5)
    {
      var session := SessionRow(req.user, req.device, txStart, txStart + sessionTtl, None, None);
      db.Await(at[5]);
      var ok, conflict := TryWriteSession(req, session, victim, false);
      if !ok { return if conflict then SlotConflict else IssueFailed; }
      assert IssueRun(cfg, req, Cleared(txStart, victim), at, 5)
          == IssueRun(cfg, req, SessionWritten(txStart, victim), at, 6);

      outcome := WriteToken(cfg, req, txStart, victim, session, at);
    }

    /** The root token, and the commit of all that was buffered. */
    method WriteToken(
        ghost cfg: Config, req: Request, txStart: Time, victim: Option<Victim>, session: SessionRow, at: seq<Moment>)
      returns (outcome: IssueOutcome)
      requires cfg.variant == AsBuilt && cfg.sessionTtl == sessionTtl && cfg.refreshTtl == refreshTtl
      requires session == SessionFor(cfg, req, txStart)
      requires |at| == 8 && forall i :: 0 <= i < 8 ==> SlotsOk(at[i].db) && TokensOk(at[i].db)
      modifies db
      ensures (db.Contents(), IssueDone(outcome)) == IssueRun(cfg, req, SessionWritten(txStart, victim), at, 6)
    {
      db.Await(at[6]);
      var expiresAt := db.clock + refreshTtl;
      assert IssueRun(cfg, req, SessionWritten(txStart, victim), at, 6)
          == IssueRun(cfg, req, TokenWritten(txStart, victim, expiresAt), at, 7);

      db.Await(at[7]);
      var ok, conflict := TryWriteSession(req, session, victim, true);
      if !ok { return if conflict then SlotConflict else IssueFailed; }
      ok := db.CreateRefreshToken(
        req.tokenId, TokenRow(req.sessionId, req.familyId, None, req.hash, txStart, expiresAt, None, None));
      if !ok {
        db.Rollback();
        return IssueFailed;
      }
      db.Commit();
      return Issued;
    }

    /** Apply the buffered revocation and the insert; keep them only if asked to and if both were accepted. */
    method TryWriteSession(req: Request, session: SessionRow, victim: Option<Victim>, keep: bool)
      returns (ok: bool, conflict: bool)
      requires SlotsOk(db.Contents()) && session.user == req.user && session.device == req.device
      modifies db
      ensures conflict == !SlotFree(AfterVictim(old(db.Contents()), victim), req.user, req.device)
      ensures ok == (!conflict && req.sessionId !in old(db.Contents()).sessions
                     && session.createdAt < session.expiresAt)
      ensures (ok && keep) ==>
                db.Contents() == InsertSession(AfterVictim(old(db.Contents()), victim), req.sessionId, session)
      ensures ok && keep ==> db.savepoint == Some(old(db.Contents()))
      ensures !(ok && keep) ==> db.Contents() == old(db.Contents())
      ensures db.clock == old(db.clock)
    {
      db.Begin();
      if victim.Some? && victim.value.id in db.sessions && db.sessions[victim.value.id].revoked.None? {
        db.sessions := db.sessions[victim.value.id :=
          db.sessions[victim.value.id].(revoked := Some(SessionRevocation(victim.value.at, SessionSuperseded)))];
      }
      SlotsAfterVictim(db.savepoint.value, victim);
      ok, conflict := db.CreateSession(req.sessionId, session);
      if !(ok && keep) { db.Rollback(); }
    }
  }

  /** The slot's active session is older than the grace period. */
  predicate HeldByOld(cfg: Config, db: Db, now: Time, req: Request, id: Id) {
    ActiveIn(db, req.user, req.device, id) && now - db.sessions[id].createdAt > cfg.grace
  }

  /** The tables differ only by the new session, its root token, and the end of the slot's former session. */
  ghost predicate SlotHandedOver(cfg: Config, db: Db, db': Db, now: Time, req: Request) {
    && db'.tokens == db.tokens[req.tokenId :=
         TokenRow(req.sessionId, req.familyId, None, req.hash, now, now + cfg.refreshTtl, None, None)]
    && db'.sessions.Keys == db.sessions.Keys + {req.sessionId}
    && db'.sessions[req.sessionId] == SessionRow(req.user, req.device, now, now + cfg.sessionTtl, None, None)
    && forall id :: id in db.sessions ==>
         if ActiveIn(db, req.user, req.device, id)
         then db'.sessions[id] == db.sessions[id].(revoked := Some(SessionRevocation(now, SessionSuperseded)))
         else db'.sessions[id] == db.sessions[id]
  }

  /** What one undisturbed request for a session does, in terms of the slot alone. */
  lemma {:induction false} UndisturbedIssue(cfg: Config, db: Db, now: Time, req: Request)
    requires cfg.variant == AsBuilt && 0 < cfg.sessionTtl && 0 < cfg.refreshTtl
    requires SlotsOk(db) && forall id :: id in db.sessions ==> db.sessions[id].createdAt <= now
    requires req.sessionId !in db.sessions && req.tokenId !in db.tokens && TokenWithHash(db.tokens, req.hash).None?
    ensures var (db', pc) := IssueRun(cfg, req, Requested, Still(db, now, 8), 0);
            && (pc == IssueDone(DeviceSessionActive) <==> exists id :: HeldByOld(cfg, db, now, req, id))
            && (pc == IssueDone(Issued) <==> pc != IssueDone(DeviceSessionActive))
            && (if pc == IssueDone(Issued) then SlotHandedOver(cfg, db, db', now, req) else db' == db)
  {
    var found := ActiveSession(db, req.user, req.device);
    UndisturbedLook(cfg, db, now, req);
    if found.Some? && now - db.sessions[found.value].createdAt > cfg.grace {
      assert HeldByOld(cfg, db, now, req, found.value);
    } else {
      UndisturbedHandOver(cfg, db, now, req, found);
    }
  }

  /** An empty slot, or one held by a young session, is handed over. */
  lemma {:induction false} UndisturbedHandOver(cfg: Config, db: Db, now: Time, req: Request, found: Option<Id>)
    requires cfg.variant == AsBuilt && 0 < cfg.sessionTtl && 0 < cfg.refreshTtl && SlotsOk(db)
    requires found == ActiveSession(db, req.user, req.device)
    requires found.Some? ==> 0 <= now - db.sessions[found.value].createdAt <= cfg.grace
    requires req.sessionId !in db.sessions && req.tokenId !in db.tokens && TokenWithHash(db.tokens, req.hash).None?
    ensures var created := if found.Some? then db.sessions[found.value].createdAt else 0;
            var (db', pc) := IssueRun(cfg, req, Looked(now, found, created), Still(db, now, 8), 3);
            pc == IssueDone(Issued) && SlotHandedOver(cfg, db, db', now, req)
  {
    if found.Some? {
      UndisturbedRevoke(cfg, db, now, req, found.value);
      UndisturbedWrites(cfg, db, now, req, Some(Victim(found.value, now, now)));
    } else {
      SkippedRevoke(cfg, db, now, req);
      UndisturbedWrites(cfg, db, now, req, None);
    }
  }

  lemma {:induction false} UndisturbedRevoke(cfg: Config, db: Db, now: Time, req: Request, id: Id)
    requires cfg.variant == AsBuilt && ActiveIn(db, req.user, req.device, id)
    requires 0 <= now - db.sessions[id].createdAt <= cfg.grace
    ensures var at := Still(db, now, 8);
            IssueRun(cfg, req, Looked(now, Some(id), db.sessions[id].createdAt), at, 3)
            == IssueRun(cfg, req, Cleared(now, Some(Victim(id, now, now))), at, 5)
  {
    var at := Still(db, now, 8);
    var admitted := Admitted(now, id, now);
    assert IssueRun(cfg, req, Looked(now, Some(id), db.sessions[id].createdAt), at, 3)
        == IssueRun(cfg, req, admitted, at, 4);
    assert IssueRun(cfg, req, admitted, at, 4) == IssueRun(cfg, req, Cleared(now, Some(Victim(id, now, now))), at, 5);
  }

  lemma {:induction false} UndisturbedLook(cfg: Config, db: Db, now: Time, req: Request)
    requires cfg.variant == AsBuilt
    ensures var at := Still(db, now, 8);
            var found := ActiveSession(db, req.user, req.device);
            var created := if found.Some? then db.sessions[found.value].createdAt else 0;
            IssueRun(cfg, req, Requested, at, 0) == IssueRun(cfg, req, Looked(now, found, created), at, 3)
  {
    var at := Still(db, now, 8);
    assert IssueRun(cfg, req, Requested, at, 0) == IssueRun(cfg, req, Begun(now, db), at, 1);
    assert IssueRun(cfg, req, Begun(now, db), at, 1) == IssueRun(cfg, req, Locked(now, db), at, 2);
  }

  lemma {:induction false} SkippedRevoke(cfg: Config, db: Db, now: Time, req: Request)
    ensures var at := Still(db, now, 8);
            IssueRun(cfg, req, Looked(now, None, 0), at, 3) == IssueRun(cfg, req, Cleared(now, None), at, 5)
  {
    var at := Still(db, now, 8);
    assert IssueRun(cfg, req, Looked(now, None, 0), at, 3) == IssueRun(cfg, req, Cleared(now, None), at, 4);
    assert IssueRun(cfg, req, Cleared(now, None), at, 4) == IssueRun(cfg, req, Cleared(now, None), at, 5);
  }

  lemma {:induction false} UndisturbedWrites(cfg: Config, db: Db, now: Time, req: Request, victim: Option<Victim>)
    requires cfg.variant == AsBuilt && 0 < cfg.sessionTtl && 0 < cfg.refreshTtl && SlotsOk(db)
    requires req.sessionId !in db.sessions && req.tokenId !in db.tokens && TokenWithHash(db.tokens, req.hash).None?
    requires if victim.None? then forall id :: !ActiveIn(db, req.user, req.device, id)
             else ActiveIn(db, req.user, req.device, victim.value.id) && victim.value.at == now
    ensures var (db', pc) := IssueRun(cfg, req, Cleared(now, victim), Still(db, now, 8), 5);
            pc == IssueDone(Issued) && SlotHandedOver(cfg, db, db', now, req)
  {
    var at := Still(db, now, 8);
    var freed := AfterVictim(db, victim);
    forall id ensures !ActiveIn(freed, req.user, req.device, id) {
      assert ActiveIn(freed, req.user, req.device, id) ==> ActiveIn(db, req.user, req.device, id);
    }
    var written := TokenWritten(now, victim, now + cfg.refreshTtl);
    assert IssueRun(cfg, req, Cleared(now, victim), at, 5) == IssueRun(cfg, req, SessionWritten(now, victim), at, 6);
    assert IssueRun(cfg, req, SessionWritten(now, victim), at, 6) == IssueRun(cfg, req, written, at, 7);
    assert TokenInsertable(AfterSession(cfg, db, req, now, victim), req.tokenId,
                           RootFor(req, now, now + cfg.refreshTtl));
  }

  lemma SlotsAfterVictim(db: Db, victim: Option<Victim>)
    requires SlotsOk(db)
    ensures SlotsOk(AfterVictim(db, victim))
  {
    forall user, device, id | ActiveIn(AfterVictim(db, victim), user, device, id)
      ensures ActiveIn(db, user, device, id)
    {
    }
  }
}
