/**
 Accounts, verification tokens, the raw-token cache and provider links, with
 the four calls that share them: register, resend, verify and the OAuth
 callback. A call is a straight line of statements, so its control state says
 which statement comes next and what the call remembers; every choice the
 environment makes for a statement is in a `Choice`.
 */
module AccountProtocol {
  import opened Prelude

  datatype Status = Pending | Active | Suspended | LockedOut | Deleted

  datatype UserRow = UserRow(email: string, status: Status, verifiedAt: Option<Time>, hasPassword: bool)

  datatype TokenRow = TokenRow(user: Id, hash: string, createdAt: Time, expiresAt: Time, consumedAt: Option<Time>)

  /** UNIQUE(provider, provider_user_id) is the key of the table. */
  datatype LinkKey = LinkKey(provider: string, subject: string)

  /** History, not a column: how the link came to be, and what the provider asserted then. */
  datatype Origin = WithAccount | AutoLinked(asserted: bool)

  datatype LinkRow = LinkRow(user: Id, email: string, origin: Origin)

  datatype CacheEntry = CacheEntry(raw: string, expiresAt: Time)

  /** A verification e-mail that went out. */
  datatype Mail = Mail(raw: string, expiresAt: Time)

  datatype World = World(
    now: Time,
    users: map<Id, UserRow>,
    tokens: map<Id, TokenRow>,
    links: map<LinkKey, LinkRow>,
    cache: map<Id, CacheEntry>,
    mails: set<Mail>)

  /** The hash of raw tokens and the canonical form of addresses are any functions. */
  datatype Config = Config(hash: string -> string, canonical: string -> string, ttl: Time)

  datatype Identity = Identity(key: LinkKey, email: string, emailVerified: bool)

  datatype Minted = Minted(id: Id, row: TokenRow, raw: string)

  datatype Outcome =
    | Registered
    | AlreadyExists
    | Sent                                        // also the silent no-ops of resend
    | SignedIn(user: Id, via: LinkKey)            // via: the identity that signed in
    | AccountLocked
    | InvalidToken(at: Time)
    | Verified(token: Id, user: Id, at: Time)     // this call consumed the token
    | Confirmed(user: Id, at: Time)               // it was already consumed
    | NilDereference                              // *account.EmailVerifiedAt of an unverified account
    | Failed

  datatype Pc =
    // register
    | RegLookup(email: string)
    | RegMint(email: string)
    | RegCommit(userId: Id, account: UserRow, minted: Minted)
    // resend
    | SendLookup(email: string)
    | SendFindActive(user: Id)
    | SendFromCache(user: Id, tokenId: Id, token: TokenRow)
    | SendMint(user: Id)
    | SendCreate(minted: Minted)
    // OAuth callback
    | CbFindLink(identity: Identity)
    | CbLoginLinked(identity: Identity, user: Id)
    | CbFindEmail(identity: Identity)
    | CbMint(identity: Identity)
    | CbRegister(identity: Identity, userId: Id, account: UserRow, verification: Option<Minted>)
    | CbLink(identity: Identity, user: Id, account: UserRow)
    // verify
    | VerFindToken(raw: string)
    | VerCheck(tokenId: Id, token: TokenRow)
    | VerReread(user: Id)
    | VerLoad(tokenId: Id, token: TokenRow)
    | VerCommit(tokenId: Id, user: Id, status: Status, at: Time)
    // after a commit that minted a token
    | StoreRaw(tokenId: Id, raw: string, expiresAt: Time, next: Outcome)
    | Publish(raw: string, expiresAt: Time, next: Outcome)
    | Done(outcome: Outcome)

  /** Generated ids and raw tokens, the row a query picks among equals, and whether the statement succeeds. */
  datatype Choice = Choice(userId: Id, tokenId: Id, raw: string, pick: Option<Id>, ok: bool)

  // ------------------------------------------------------------ statements

  ghost predicate HasEmail(users: map<Id, UserRow>, email: string, id: Id) {
    id in users && users[id].email == email
  }

  ghost function UserWithEmail(users: map<Id, UserRow>, email: string): (r: Option<Id>)
    ensures r.Some? ==> HasEmail(users, email, r.value)
    ensures r.None? ==> forall id :: !HasEmail(users, email, id)
  {
    if id :| HasEmail(users, email, id) then Some(id) else None
  }

  ghost predicate HasHash(tokens: map<Id, TokenRow>, hash: string, id: Id) {
    id in tokens && tokens[id].hash == hash
  }

  ghost function TokenWithHash(tokens: map<Id, TokenRow>, hash: string): (r: Option<Id>)
    ensures r.Some? ==> HasHash(tokens, hash, r.value)
    ensures r.None? ==> forall id :: !HasHash(tokens, hash, id)
  {
    if id :| HasHash(tokens, hash, id) then Some(id) else None
  }

  predicate ActiveToken(w: World, user: Id, id: Id) {
    id in w.tokens && w.tokens[id].user == user && w.tokens[id].consumedAt.None? && w.now < w.tokens[id].expiresAt
  }

  /** ORDER BY created_at DESC LIMIT 1: some newest active token, or none when there is none. */
  ghost predicate ValidPick(w: World, user: Id, pick: Option<Id>) {
    match pick
    case None => forall id :: !ActiveToken(w, user, id)
    case Some(p) =>
      ActiveToken(w, user, p)
      && forall id :: ActiveToken(w, user, id) ==> w.tokens[id].createdAt <= w.tokens[p].createdAt
  }

  ghost predicate UserInsertable(w: World, id: Id, row: UserRow) {
    id !in w.users && UserWithEmail(w.users, row.email).None?
  }

  ghost predicate TokenInsertable(w: World, id: Id, row: TokenRow) {
    id !in w.tokens && TokenWithHash(w.tokens, row.hash).None? && row.user in w.users && row.createdAt < row.expiresAt
  }

  function InsertUser(w: World, id: Id, row: UserRow): World {
    w.(users := w.users[id := row])
  }

  function InsertToken(w: World, id: Id, row: TokenRow): World {
    w.(tokens := w.tokens[id := row])
  }

  function InsertLink(w: World, key: LinkKey, row: LinkRow): World {
    w.(links := w.links[key := row])
  }

  function CachedRaw(w: World, id: Id): Option<string> {
    if id in w.cache && w.now < w.cache[id].expiresAt then Some(w.cache[id].raw) else None
  }

  /** PENDING becomes ACTIVE; any other status stays. */
  function VerifiedStatus(s: Status): Status {
    if s == Pending then Active else s
  }

  function MintFor(cfg: Config, now: Time, user: Id, c: Choice): Minted {
    Minted(c.tokenId, TokenRow(user, cfg.hash(c.raw), now, now + cfg.ttl, None), c.raw)
  }

  function AfterMint(m: Minted, next: Outcome): Pc {
    StoreRaw(m.id, m.raw, m.row.expiresAt, next)
  }

  // ----------------------------------------------------------- transactions

  /** created_at defaults to the transaction's own time. */
  function Stamped(m: Minted, now: Time): TokenRow {
    m.row.(createdAt := now)
  }

  ghost function RegisterTx(w: World, userId: Id, account: UserRow, m: Minted): (World, Pc) {
    var w1 := InsertUser(w, userId, account);
    if !UserInsertable(w, userId, account) || !TokenInsertable(w1, m.id, Stamped(m, w.now)) then (w, Done(Failed))
    else (InsertToken(w1, m.id, Stamped(m, w.now)), AfterMint(m, Registered))
  }

  ghost function CallbackTx(
      w: World, identity: Identity, userId: Id, account: UserRow, m: Option<Minted>): (World, Pc)
  {
    var w1 := InsertUser(w, userId, account);
    var w2 := InsertLink(w1, identity.key, LinkRow(userId, identity.email, WithAccount));
    if !UserInsertable(w, userId, account) || identity.key in w.links then (w, Done(Failed))
    else if m.None? then (w2, Done(SignedIn(userId, identity.key)))
    else if !TokenInsertable(w2, m.value.id, Stamped(m.value, w.now)) then (w, Done(Failed))
    else (InsertToken(w2, m.value.id, Stamped(m.value, w.now)), AfterMint(m.value, SignedIn(userId, identity.key)))
  }

  function LinkTx(w: World, identity: Identity, user: Id, account: UserRow): (World, Pc) {
    if identity.key in w.links || user !in w.users then (w, Done(Failed))
    else
      (InsertLink(w, identity.key, LinkRow(user, identity.email, AutoLinked(identity.emailVerified))),
       Done(if account.status == Active then SignedIn(user, identity.key) else AccountLocked))
  }

  /** Consume by compare-and-swap, then mark the account; the loser re-reads. */
  function VerifyTx(w: World, tokenId: Id, user: Id, status: Status, at: Time): (World, Pc) {
    if tokenId !in w.tokens || w.tokens[tokenId].consumedAt.Some? then (w, VerReread(user))
    else
      (w.(tokens := w.tokens[tokenId := w.tokens[tokenId].(consumedAt := Some(w.now))],
          users := if user in w.users
                   then w.users[user := w.users[user].(verifiedAt := Some(at), status := VerifiedStatus(status))]
                   else w.users),
       Done(Verified(tokenId, user, at)))
  }

  function Reread(w: World, user: Id): Pc {
    if user !in w.users then Done(Failed)
    else if w.users[user].verifiedAt.None? then Done(NilDereference)
    else Done(Confirmed(user, w.users[user].verifiedAt.value))
  }

  /** The next statement of a call. */
  ghost function Advance(cfg: Config, w: World, pc: Pc, c: Choice): (World, Pc) {
    match pc
    case RegLookup(email) =>
      (w, if UserWithEmail(w.users, email).Some? then Done(AlreadyExists) else RegMint(email))
    case RegMint(email) =>
      (w, RegCommit(c.userId, UserRow(cfg.canonical(email), Active, None, true), MintFor(cfg, w.now, c.userId, c)))
    case RegCommit(userId, account, minted) =>
      if c.ok then RegisterTx(w, userId, account, minted) else (w, Done(Failed))
    case SendLookup(email) =>
      var found := UserWithEmail(w.users, email);
      (w, if found.None? || w.users[found.value].verifiedAt.Some? then Done(Sent) else SendFindActive(found.value))
    case SendFindActive(user) =>
      (w, if !ValidPick(w, user, c.pick) then pc
          else if c.pick.None? then SendMint(user)
          else SendFromCache(user, c.pick.value, w.tokens[c.pick.value]))
    case SendFromCache(user, tokenId, token) =>
      var raw := CachedRaw(w, tokenId);
      (w, if !c.ok then Done(Failed)
          else if raw.Some? then Publish(raw.value, token.expiresAt, Sent)
          else SendMint(user))
    case SendMint(user) =>
      (w, SendCreate(MintFor(cfg, w.now, user, c)))
    case SendCreate(minted) =>
      var row := Stamped(minted, w.now);
      if !c.ok || !TokenInsertable(w, minted.id, row) then (w, Done(Failed))
      else (InsertToken(w, minted.id, row), AfterMint(minted, Sent))
    case CbFindLink(identity) =>
      (w, if identity.key in w.links then CbLoginLinked(identity, w.links[identity.key].user)
          else CbFindEmail(identity))
    case CbLoginLinked(identity, user) =>
      (w, if user !in w.users then Done(Failed)
          else if w.users[user].status != Active then Done(AccountLocked)
          else Done(SignedIn(user, identity.key)))
    case CbFindEmail(identity) =>
      var found := UserWithEmail(w.users, identity.email);
      (w, if found.None? then CbMint(identity)
          else if identity.emailVerified && w.users[found.value].verifiedAt.Some?
          then CbLink(identity, found.value, w.users[found.value])
          else Done(AlreadyExists))
    case CbMint(identity) =>
      var verified := if identity.emailVerified then Some(w.now) else None;
      (w, CbRegister(identity, c.userId, UserRow(cfg.canonical(identity.email), Active, verified, false),
                     if identity.emailVerified then None else Some(MintFor(cfg, w.now, c.userId, c))))
    case CbRegister(identity, userId, account, verification) =>
      if c.ok then CallbackTx(w, identity, userId, account, verification) else (w, Done(Failed))
    case CbLink(identity, user, account) =>
      if c.ok then LinkTx(w, identity, user, account) else (w, Done(Failed))
    case VerFindToken(raw) =>
      var found := TokenWithHash(w.tokens, cfg.hash(raw));
      (w, if found.None? then Done(InvalidToken(w.now)) else VerCheck(found.value, w.tokens[found.value]))
    case VerCheck(tokenId, token) =>
      (w, if token.consumedAt.Some? then VerReread(token.user)
          else if token.expiresAt <= w.now then Done(InvalidToken(w.now))
          else VerLoad(tokenId, token))
    case VerReread(user) =>
      (w, Reread(w, user))
    case VerLoad(tokenId, token) =>
      (w, if token.user !in w.users then Done(Failed)
          else VerCommit(tokenId, token.user, w.users[token.user].status, w.now))
    case VerCommit(tokenId, user, status, at) =>
      if c.ok then VerifyTx(w, tokenId, user, status, at) else (w, Done(Failed))
    case StoreRaw(tokenId, raw, expiresAt, next) =>
      (if c.ok then w.(cache := w.cache[tokenId := CacheEntry(raw, w.now + cfg.ttl)]) else w,
       Publish(raw, expiresAt, next))
    case Publish(raw, expiresAt, next) =>
      (if c.ok then w.(mails := w.mails + {Mail(raw, expiresAt)}) else w, Done(next))
    case Done(_) =>
      (w, pc)
  }

  // ---------------------------------------------------------- interleaving

  datatype State = State(world: World, calls: map<Id, Pc>)

  datatype Event =
    | Tick(elapsed: nat)
    | Start(call: Id, pc: Pc)
    | Move(call: Id, choice: Choice)
    | Crash(call: Id)
    | Evict(token: Id)                      // the cache may lose any entry
    | SetStatus(user: Id, status: Status)   // an operator; never back to PENDING

  predicate Entry(pc: Pc) {
    pc.RegLookup? || pc.SendLookup? || pc.CbFindLink? || pc.VerFindToken?
  }

  ghost function Step(cfg: Config, s: State, e: Event): State {
    match e
    case Tick(elapsed) =>
      s.(world := s.world.(now := s.world.now + elapsed))
    case Start(call, pc) =>
      if call in s.calls || !Entry(pc) then s else s.(calls := s.calls[call := pc])
    case Move(call, choice) =>
      if call !in s.calls then s
      else
        var (w, pc) := Advance(cfg, s.world, s.calls[call], choice);
        State(w, s.calls[call := pc])
    case Crash(call) =>
      if call in s.calls && !s.calls[call].Done? then s.(calls := s.calls[call := Done(Failed)]) else s
    case Evict(token) =>
      s.(world := s.world.(cache := s.world.cache - {token}))
    case SetStatus(user, status) =>
      if user in s.world.users && status != Pending then
        s.(world := s.world.(users := s.world.users[user := s.world.users[user].(status := status)]))
      else s
  }

  ghost function Exec(cfg: Config, s: State, run: seq<Event>): State
    decreases |run|
  {
    if run == [] then s else Step(cfg, Exec(cfg, s, run[..|run| - 1]), run[|run| - 1])
  }

  lemma {:induction false} ExecConcat(cfg: Config, s: State, first: seq<Event>, second: seq<Event>)
    ensures Exec(cfg, s, first + second) == Exec(cfg, Exec(cfg, s, first), second)
    decreases |second|
  {
    if second == [] {
      assert first + second == first;
    } else {
      var init := second[..|second| - 1];
      assert (first + second)[..|first + second| - 1] == first + init;
      ExecConcat(cfg, s, first, init);
    }
  }

  /** Password accounts may predate everything; PENDING ones are unverified. */
  ghost predicate Legacy(users: map<Id, UserRow>) {
    && (forall a, b :: a in users && b in users && users[a].email == users[b].email ==> a == b)
    && (forall a :: a in users ==> users[a].hasPassword && (users[a].verifiedAt.Some? ==> users[a].status != Pending))
  }

  function Init(start: Time, users: map<Id, UserRow>): State {
    State(World(start, users, map[], map[], map[], {}), map[])
  }

  ghost predicate Reachable(cfg: Config, s: State) {
    exists start: Time, users: map<Id, UserRow>, run: seq<Event> ::
      Legacy(users) && s == Exec(cfg, Init(start, users), run)
  }
}
