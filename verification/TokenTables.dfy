/**
 The `sessions` and `refresh_tokens` tables and the statements the services
 run against them. Each statement is a function from table contents to table
 contents; the constraints of the schema are predicates, and a statement that
 violates one is refused by the caller of the function.
 */
module TokenTables {
  import opened Prelude

  datatype SessionReason = UserLogout | SessionSuperseded

  datatype TokenReason = LoggedOut | Replayed

  datatype SessionRevocation = SessionRevocation(at: Time, reason: SessionReason)

  datatype TokenRevocation = TokenRevocation(at: Time, reason: TokenReason)

  datatype SessionRow = SessionRow(
    user: Id,
    device: string,
    createdAt: Time,
    expiresAt: Time,
    lastRefreshedAt: Option<Time>,
    revoked: Option<SessionRevocation>)

  datatype TokenRow = TokenRow(
    session: Id,
    family: Id,
    parent: Option<Id>,
    hash: string,
    createdAt: Time,
    expiresAt: Time,
    consumedAt: Option<Time>,
    revoked: Option<TokenRevocation>)

  datatype Db = Db(sessions: map<Id, SessionRow>, tokens: map<Id, TokenRow>)

  // ---------------------------------------------------------------- tokens

  ghost predicate HasHash(tokens: map<Id, TokenRow>, hash: string, id: Id) {
    id in tokens && tokens[id].hash == hash
  }

  /** SELECT ... WHERE token_hash = $1 */
  ghost function TokenWithHash(tokens: map<Id, TokenRow>, hash: string): (r: Option<Id>)
    ensures r.Some? ==> HasHash(tokens, hash, r.value)
    ensures r.None? ==> forall id :: !HasHash(tokens, hash, id)
  {
    if id :| HasHash(tokens, hash, id) then Some(id) else None
  }

  predicate Consumable(db: Db, id: Id) {
    id in db.tokens && db.tokens[id].consumedAt.None?
  }

  /** UPDATE ... SET consumed_at WHERE id = $1 AND consumed_at IS NULL: affects one row or none. */
  function ConsumeToken(db: Db, id: Id, now: Time): Db {
    if Consumable(db, id) then
      db.(tokens := db.tokens[id := db.tokens[id].(consumedAt := Some(now))])
    else
      db
  }

  /** Primary key, unique hash, both foreign keys and both checks of refresh_tokens. */
  ghost predicate TokenInsertable(db: Db, id: Id, row: TokenRow) {
    && id !in db.tokens
    && TokenWithHash(db.tokens, row.hash).None?
    && row.session in db.sessions
    && (row.parent.Some? ==> row.parent.value in db.tokens && row.parent.value != id)
    && row.createdAt < row.expiresAt
  }

  function InsertToken(db: Db, id: Id, row: TokenRow): Db {
    db.(tokens := db.tokens[id := row])
  }

  function RevokedToken(row: TokenRow, family: Id, now: Time, reason: TokenReason): TokenRow {
    if row.family == family && row.revoked.None? then
      row.(revoked := Some(TokenRevocation(now, reason)))
    else
      row
  }

  /** UPDATE ... SET revoked_at, revoked_reason WHERE family_id = $1 AND revoked_at IS NULL */
  function RevokeFamily(db: Db, family: Id, now: Time, reason: TokenReason): Db {
    db.(tokens := map id | id in db.tokens :: RevokedToken(db.tokens[id], family, now, reason))
  }

  ghost function Members(tokens: map<Id, TokenRow>, family: Id): set<Id> {
    set id | id in tokens && tokens[id].family == family
  }

  ghost function Families(tokens: map<Id, TokenRow>): set<Id> {
    set id | id in tokens :: tokens[id].family
  }

  // -------------------------------------------------------------- sessions

  predicate Revocable(db: Db, id: Id) {
    id in db.sessions && db.sessions[id].revoked.None?
  }

  /** sessions_revocation_check, evaluated on the row an UPDATE would leave. */
  predicate RevocationAllowed(db: Db, id: Id, at: Time) {
    Revocable(db, id) ==> db.sessions[id].createdAt <= at
  }

  /** UPDATE ... SET revoked_at, revoked_reason WHERE id = $1 AND revoked_at IS NULL */
  function RevokeSession(db: Db, id: Id, at: Time, reason: SessionReason): Db {
    if Revocable(db, id) then
      db.(sessions := db.sessions[id := db.sessions[id].(revoked := Some(SessionRevocation(at, reason)))])
    else
      db
  }

  /** UPDATE ... SET last_refreshed_at WHERE id = $1 */
  function TouchSession(db: Db, id: Id, now: Time): Db {
    if id in db.sessions then
      db.(sessions := db.sessions[id := db.sessions[id].(lastRefreshedAt := Some(now))])
    else
      db
  }

  /** "Active" tests revoked_at alone: an expired session still occupies its slot. */
  predicate ActiveIn(db: Db, user: Id, device: string, id: Id) {
    id in db.sessions && db.sessions[id].user == user && db.sessions[id].device == device
    && db.sessions[id].revoked.None?
  }

  /** SELECT ... WHERE user_id, device_id AND revoked_at IS NULL LIMIT 1 */
  ghost function ActiveSession(db: Db, user: Id, device: string): (r: Option<Id>)
    ensures r.Some? ==> ActiveIn(db, user, device, r.value)
    ensures r.None? ==> forall id :: !ActiveIn(db, user, device, id)
  {
    if id :| ActiveIn(db, user, device, id) then Some(id) else None
  }

  /** uq_sessions_active_device admits one more active session for the slot. */
  ghost predicate SlotFree(db: Db, user: Id, device: string) {
    ActiveSession(db, user, device).None?
  }

  function InsertSession(db: Db, id: Id, row: SessionRow): Db {
    db.(sessions := db.sessions[id := row])
  }

  // ------------------------------------------------------------- evolution

  /** What a row snapshot and a later version of the same row have in common. */
  predicate TokenEvolves(older: TokenRow, newer: TokenRow) {
    && older.session == newer.session
    && older.family == newer.family
    && older.parent == newer.parent
    && older.hash == newer.hash
    && older.createdAt == newer.createdAt
    && older.expiresAt == newer.expiresAt
    && (older.consumedAt.Some? ==> newer.consumedAt == older.consumedAt)
    && (older.revoked.Some? ==> newer.revoked == older.revoked)
  }

  predicate SessionEvolves(older: SessionRow, newer: SessionRow) {
    && older.user == newer.user
    && older.device == newer.device
    && older.createdAt == newer.createdAt
    && older.expiresAt == newer.expiresAt
    && (older.revoked.Some? ==> newer.revoked == older.revoked)
  }

  /** No row disappears, and every stored fact about a row stays. */
  ghost predicate DbEvolves(older: Db, newer: Db) {
    && (forall id :: id in older.tokens ==> id in newer.tokens && TokenEvolves(older.tokens[id], newer.tokens[id]))
    && (forall id :: id in older.sessions ==>
          id in newer.sessions && SessionEvolves(older.sessions[id], newer.sessions[id]))
  }
}
