/**
 The account tables, the raw-token cache and the mailer as one object, and the
 four services over it. Each service is proved to take exactly the statements
 of its call, whatever the other calls do to the tables in between.
 */
module AccountServices {
  import opened Prelude
  import opened AccountProtocol
  import opened AccountTheorems

  datatype Tables = Tables(users: map<Id, UserRow>, tokens: map<Id, TokenRow>, links: map<LinkKey, LinkRow>)

  /** The unique keys on e-mail addresses and token hashes hold. */
  ghost predicate KeysOk(w: World) {
    && (forall a, b :: a in w.users && b in w.users && w.users[a].email == w.users[b].email ==> a == b)
    && (forall a, b :: a in w.tokens && b in w.tokens && w.tokens[a].hash == w.tokens[b].hash ==> a == b)
  }

  class AccountStore {
    var now: Time
    var users: map<Id, UserRow>
    var tokens: map<Id, TokenRow>
    var links: map<LinkKey, LinkRow>
    var cache: map<Id, CacheEntry>
    var mails: set<Mail>
    var savepoint: Option<Tables>

    ghost function Contents(): World
      reads this
    {
      World(now, users, tokens, links, cache, mails)
    }

    constructor ()
      ensures Contents() == World(0, map[], map[], map[], map[], {}) && savepoint.None?
    {
      now, users, tokens, links, cache, mails, savepoint := 0, map[], map[], map[], map[], {}, None;
    }

    /** Time passes and other calls run. */
    method Await(w: World)
      modifies this
      ensures Contents() == w
    {
      now, users, tokens, links, cache, mails := w.now, w.users, w.tokens, w.links, w.cache, w.mails;
    }

    method Begin()
      modifies this`savepoint
      ensures savepoint == Some(Tables(users, tokens, links))
    {
      savepoint := Some(Tables(users, tokens, links));
    }

    /** Everything written since Begin stays, or none of it. */
    method End(commit: bool)
      requires savepoint.Some?
      modifies this`savepoint, this`users, this`tokens, this`links
      ensures commit ==> Contents() == old(Contents())
      ensures !commit ==> Tables(users, tokens, links) == old(savepoint).value
      ensures savepoint.None?
    {
      if !commit { users, tokens, links := savepoint.value.users, savepoint.value.tokens, savepoint.value.links; }
      savepoint := None;
    }

    // -------------------------------------------------------------- queries

    method FindUserByEmail(email: string) returns (found: Option<Id>)
      requires KeysOk(Contents())
      ensures found == UserWithEmail(users, email)
    {
      found := None;
      var rest := users.Keys;
      while found.None? && exists row :: row in rest
        invariant rest <= users.Keys
        invariant forall id :: id !in rest && HasEmail(users, email, id) ==> found == Some(id)
        invariant found.Some? ==> HasEmail(users, email, found.value)
        decreases |rest|
      {
        var id :| id in rest;
        if users[id].email == email { found := Some(id); }
        rest := rest - {id};
      }
    }

    method FindTokenByHash(hash: string) returns (found: Option<Id>)
      requires KeysOk(Contents())
      ensures found == TokenWithHash(tokens, hash)
    {
      found := None;
      var rest := tokens.Keys;
      while found.None? && exists row :: row in rest
        invariant rest <= tokens.Keys
        invariant forall id :: id !in rest && HasHash(tokens, hash, id) ==> found == Some(id)
        invariant found.Some? ==> HasHash(tokens, hash, found.value)
        decreases |rest|
      {
        var id :| id in rest;
        if tokens[id].hash == hash { found := Some(id); }
        rest := rest - {id};
      }
    }

    /** The newest unconsumed, unexpired token of the user. */
    method FindActiveToken(user: Id) returns (pick: Option<Id>)
      ensures ValidPick(Contents(), user, pick)
    {
      pick := None;
      var rest := tokens.Keys;
      while exists row :: row in rest
        invariant rest <= tokens.Keys
        invariant pick.Some? ==> ActiveToken(Contents(), user, pick.value)
        invariant forall id :: id !in rest && ActiveToken(Contents(), user, id) ==>
                    pick.Some? && tokens[id].createdAt <= tokens[pick.value].createdAt
        decreases |rest|
      {
        var id :| id in rest;
        var row := tokens[id];
        if row.user == user && row.consumedAt.None? && now < row.expiresAt
           && (pick.None? || tokens[pick.value].createdAt <= row.createdAt) {
          pick := Some(id);
        }
        rest := rest - {id};
      }
    }

    // ------------------------------------------------------------ statements

    method CreateUser(id: Id, row: UserRow) returns (ok: bool)
      requires KeysOk(Contents())
      modifies this`users
      ensures ok == UserInsertable(old(Contents()), id, row)
      ensures Contents() == if ok then InsertUser(old(Contents()), id, row) else old(Contents())
    {
      var clash := FindUserByEmail(row.email);
      ok := id !in users && clash.None?;
      if ok { users := users[id := row]; }
    }

    method CreateToken(id: Id, row: TokenRow) returns (ok: bool)
      requires KeysOk(Contents())
      modifies this`tokens
      ensures ok == TokenInsertable(old(Contents()), id, row)
      ensures Contents() == if ok then InsertToken(old(Contents()), id, row) else old(Contents())
    {
      var clash := FindTokenByHash(row.hash);
      ok := id !in tokens && clash.None? && row.user in users && row.createdAt < row.expiresAt;
      if ok { tokens := tokens[id := row]; }
    }

    method CreateLink(key: LinkKey, row: LinkRow) returns (ok: bool)
      modifies this`links
      ensures ok == (key !in old(links) && row.user in users)
      ensures Contents() == if ok then InsertLink(old(Contents()), key, row) else old(Contents())
    {
      ok := key !in links && row.user in users;
      if ok { links := links[key := row]; }
    }

    /** Compare-and-swap on consumed_at; reports the rows changed. */
    method ConsumeToken(id: Id) returns (rows: nat)
      modifies this`tokens
      ensures rows == if id in old(tokens) && old(tokens)[id].consumedAt.None? then 1 else 0
      ensures rows == 0 ==> tokens == old(tokens)
      ensures rows == 1 ==> tokens == old(tokens)[id := old(tokens)[id].(consumedAt := Some(now))]
    {
      rows := 0;
      if id in tokens && tokens[id].consumedAt.None? {
        tokens := tokens[id := tokens[id].(consumedAt := Some(now))];
        rows := 1;
      }
    }

    method SaveVerification(user: Id, at: Time, status: Status)
      modifies this`users
      ensures users == if user in old(users)
                       then old(users)[user := old(users)[user].(verifiedAt := Some(at), status := status)]
                       else old(users)
    {
      if user in users {
        users := users[user := users[user].(verifiedAt := Some(at), status := status)];
      }
    }

    // --------------------------------------------------------- cache and mail

    method CacheGet(id: Id) returns (raw: Option<string>)
      ensures raw == CachedRaw(Contents(), id)
    {
      if id in cache && now < cache[id].expiresAt { return Some(cache[id].raw); }
      return None;
    }

    method CacheSet(id: Id, raw: string, ttl: Time)
      modifies this`cache
      ensures cache == old(cache)[id := CacheEntry(raw, now + ttl)]
    {
      cache := cache[id := CacheEntry(raw, now + ttl)];
    }

    method Send(raw: string, expiresAt: Time)
      modifies this`mails
      ensures mails == old(mails) + {Mail(raw, expiresAt)}
    {
      mails := mails + {Mail(raw, expiresAt)};
    }
  }

  // ------------------------------------------------------------ whole calls

  /** The statements of a call from the i-th moment on, each at its own moment and with its own choice. */
  ghost function CallRun(cfg: Config, pc: Pc, at: seq<World>, c: seq<Choice>, i: nat): (World, Pc)
    requires i < |at| == |c|
    decreases |at| - i
  {
    var (w, pc') := Advance(cfg, at[i], pc, c[i]);
    if pc'.Done? || i + 1 == |at| then (w, pc') else CallRun(cfg, pc', at, c, i + 1)
  }

  lemma RunNext(cfg: Config, pc: Pc, at: seq<World>, c: seq<Choice>, i: nat, pc': Pc)
    requires i + 1 < |at| == |c| && Advance(cfg, at[i], pc, c[i]).1 == pc' && !pc'.Done?
    ensures CallRun(cfg, pc, at, c, i) == CallRun(cfg, pc', at, c, i + 1)
  {
  }

  lemma {:induction false} RunLast(cfg: Config, pc: Pc, at: seq<World>, c: seq<Choice>, i: nat, w: World, pc': Pc)
    requires i < |at| == |c| && Advance(cfg, at[i], pc, c[i]) == (w, pc') && pc'.Done?
    ensures CallRun(cfg, pc, at, c, i) == (w, pc')
  {
  }

  /** Any moments at which the calls of others left the unique keys intact. */
  ghost predicate Moments(at: seq<World>, c: seq<Choice>, i: nat, steps: nat) {
    i + steps <= |at| == |c| && forall k :: 0 <= k < |at| ==> KeysOk(at[k])
  }

  // --------------------------------------------- caching and mailing a token

  class Courier {
    const store: AccountStore
    const cfg: Config

    constructor (store: AccountStore, cfg: Config)
      ensures this.store == store && this.cfg == cfg
    {
      this.store, this.cfg := store, cfg;
    }

    /** Best effort: neither a lost cache write nor a lost mail changes the answer. */
    method Deliver(m: Minted, next: Outcome, at: seq<World>, c: seq<Choice>, i: nat) returns (outcome: Outcome)
      requires Moments(at, c, i, 2)
      modifies store
      ensures (store.Contents(), Done(outcome)) == CallRun(cfg, AfterMint(m, next), at, c, i)
    {
      store.Await(at[i]);
      if c[i].ok { store.CacheSet(m.id, m.raw, cfg.ttl); }
      RunNext(cfg, AfterMint(m, next), at, c, i, Publish(m.raw, m.row.expiresAt, next));
      outcome := Mail(m.raw, m.row.expiresAt, next, at, c, i + 1);
    }

    method Mail(raw: string, expiresAt: Time, next: Outcome, at: seq<World>, c: seq<Choice>, i: nat)
      returns (outcome: Outcome)
      requires Moments(at, c, i, 1)
      modifies store
      ensures (store.Contents(), Done(outcome)) == CallRun(cfg, Publish(raw, expiresAt, next), at, c, i)
    {
      store.Await(at[i]);
      if c[i].ok { store.Send(raw, expiresAt); }
      RunLast(cfg, Publish(raw, expiresAt, next), at, c, i, store.Contents(), Done(next));
      return next;
    }
  }

  // --------------------------------------------------------------- register

  class RegisterService {
    const store: AccountStore
    const cfg: Config
    const courier: Courier

    constructor (store: AccountStore, cfg: Config)
      ensures this.store == store && this.cfg == cfg && courier.store == store && courier.cfg == cfg
    {
      this.store, this.cfg := store, cfg;
      courier := new Courier(store, cfg);
    }

    method Handle(email: string, at: seq<World>, c: seq<Choice>) returns (outcome: Outcome)
      requires courier.store == store && courier.cfg == cfg && Moments(at, c, 0, 5)
      modifies store
      ensures (store.Contents(), Done(outcome)) == CallRun(cfg, RegLookup(email), at, c, 0)
    {
      store.Await(at[0]);
      var taken := store.FindUserByEmail(email);
      if taken.Some? {
        RunLast(cfg, RegLookup(email), at, c, 0, at[0], Done(AlreadyExists));
        return AlreadyExists;
      }
      RunNext(cfg, RegLookup(email), at, c, 0, RegMint(email));

      store.Await(at[1]);
      var account := UserRow(cfg.canonical(email), Active, None, true);
      var m := MintFor(cfg, store.now, c[1].userId, c[1]);
      RunNext(cfg, RegMint(email), at, c, 1, RegCommit(c[1].userId, account, m));

      outcome := Save(c[1].userId, account, m, at, c);
    }

    /** Account and token in one transaction. */
    method Save(userId: Id, account: UserRow, m: Minted, at: seq<World>, c: seq<Choice>) returns (outcome: Outcome)
      requires courier.store == store && courier.cfg == cfg && Moments(at, c, 0, 5)
      modifies store
      ensures (store.Contents(), Done(outcome)) == CallRun(cfg, RegCommit(userId, account, m), at, c, 2)
    {
      store.Await(at[2]);
      store.Begin();
      var ok := store.CreateUser(userId, account);
      if ok {
        KeysAfterUser(at[2], userId, account);
        ok := store.CreateToken(m.id, Stamped(m, store.now));
      }
      store.End(ok && c[2].ok);
      if !ok || !c[2].ok {
        RunLast(cfg, RegCommit(userId, account, m), at, c, 2, at[2], Done(Failed));
        return Failed;
      }
      RunNext(cfg, RegCommit(userId, account, m), at, c, 2, AfterMint(m, Registered));
      outcome := courier.Deliver(m, Registered, at, c, 3);
    }
  }

  lemma KeysAfterUser(w: World, id: Id, row: UserRow)
    requires KeysOk(w) && UserInsertable(w, id, row)
    ensures KeysOk(InsertUser(w, id, row))
  {
    forall a | a in w.users ensures w.users[a].email != row.email {
      assert !HasEmail(w.users, row.email, a);
    }
  }

  // ----------------------------------------------------------------- resend

  class ResendService {
    const store: AccountStore
    const cfg: Config
    const courier: Courier

    constructor (store: AccountStore, cfg: Config)
      ensures this.store == store && this.cfg == cfg && courier.store == store && courier.cfg == cfg
    {
      this.store, this.cfg := store, cfg;
      courier := new Courier(store, cfg);
    }

    /** `picked` is the row the active-token query chose. */
    method Handle(email: string, at: seq<World>, c: seq<Choice>) returns (outcome: Outcome, ghost picked: Option<Id>)
      requires courier.store == store && courier.cfg == cfg && Moments(at, c, 0, 7)
      modifies store
      ensures (store.Contents(), Done(outcome)) == CallRun(cfg, SendLookup(email), at, Picking(c, picked), 0)
    {
      store.Await(at[0]);
      var found := store.FindUserByEmail(email);
      if found.None? || store.users[found.value].verifiedAt.Some? {
        picked := None;
        RunLast(cfg, SendLookup(email), at, Picking(c, None), 0, at[0], Done(Sent));
        return Sent, None;
      }
      outcome, picked := ReuseOrMint(found.value, at, c);
      RunNext(cfg, SendLookup(email), at, Picking(c, picked), 0, SendFindActive(found.value));
    }

    method ReuseOrMint(user: Id, at: seq<World>, c: seq<Choice>) returns (outcome: Outcome, ghost picked: Option<Id>)
      requires courier.store == store && courier.cfg == cfg && Moments(at, c, 0, 7)
      modifies store
      ensures (store.Contents(), Done(outcome)) == CallRun(cfg, SendFindActive(user), at, Picking(c, picked), 1)
    {
      store.Await(at[1]);
      var pick := store.FindActiveToken(user);
      picked := pick;
      ghost var c' := Picking(c, pick);
      if pick.None? {
        RunNext(cfg, SendFindActive(user), at, c', 1, SendMint(user));
        outcome := MintAndSend(user, at, c, 2, c');
        return;
      }
      var token := store.tokens[pick.value];
      ghost var cached := SendFromCache(user, pick.value, token);
      RunNext(cfg, SendFindActive(user), at, c', 1, cached);

      outcome := FromCache(user, pick.value, token, at, c, c');
    }

    /** The cached raw token if it is still there, a new token otherwise; a cache error ends the call. */
    method FromCache(
        user: Id, tokenId: Id, token: TokenRow, at: seq<World>, c: seq<Choice>, ghost c': seq<Choice>)
      returns (outcome: Outcome)
      requires courier.store == store && courier.cfg == cfg && Moments(at, c, 0, 7)
      requires |c'| == |c| && forall k :: 2 <= k < |c| ==> c'[k] == c[k]
      modifies store
      ensures (store.Contents(), Done(outcome)) == CallRun(cfg, SendFromCache(user, tokenId, token), at, c', 2)
    {
      ghost var cached := SendFromCache(user, tokenId, token);
      store.Await(at[2]);
      if !c[2].ok {
        RunLast(cfg, cached, at, c', 2, at[2], Done(Failed));
        return Failed;
      }
      var raw := store.CacheGet(tokenId);
      if raw.Some? {
        RunNext(cfg, cached, at, c', 2, Publish(raw.value, token.expiresAt, Sent));
        SameRun(cfg, Publish(raw.value, token.expiresAt, Sent), at, c, c', 3);
        outcome := courier.Mail(raw.value, token.expiresAt, Sent, at, c, 3);
      } else {
        RunNext(cfg, cached, at, c', 2, SendMint(user));
        outcome := MintAndSend(user, at, c, 3, c');
      }
    }

    method MintAndSend(user: Id, at: seq<World>, c: seq<Choice>, i: nat, ghost c': seq<Choice>)
      returns (outcome: Outcome)
      requires courier.store == store && courier.cfg == cfg && Moments(at, c, i, 4)
      requires |c'| == |c| && forall k :: i <= k < |c| ==> c'[k] == c[k]
      modifies store
      ensures (store.Contents(), Done(outcome)) == CallRun(cfg, SendMint(user), at, c', i)
    {
      SameRun(cfg, SendMint(user), at, c, c', i);
      store.Await(at[i]);
      var m := MintFor(cfg, store.now, user, c[i]);
      RunNext(cfg, SendMint(user), at, c, i, SendCreate(m));

      store.Await(at[i + 1]);
      var ok := false;
      if c[i + 1].ok { ok := store.CreateToken(m.id, Stamped(m, store.now)); }
      if !ok {
        RunLast(cfg, SendCreate(m), at, c, i + 1, at[i + 1], Done(Failed));
        return Failed;
      }
      RunNext(cfg, SendCreate(m), at, c, i + 1, AfterMint(m, Sent));
      outcome := courier.Deliver(m, Sent, at, c, i + 2);
    }
  }

  /** The choices of a resend whose active-token query picked this row. */
  ghost function Picking(c: seq<Choice>, pick: Option<Id>): seq<Choice>
    requires |c| > 1
  {
    c[1 := c[1].(pick := pick)]
  }

  lemma {:induction false} SameRun(cfg: Config, pc: Pc, at: seq<World>, c: seq<Choice>, c': seq<Choice>, i: nat)
    requires i < |at| == |c| == |c'| && forall k :: i <= k < |c| ==> c'[k] == c[k]
    ensures CallRun(cfg, pc, at, c, i) == CallRun(cfg, pc, at, c', i)
    decreases |at| - i
  {
    var pc' := Advance(cfg, at[i], pc, c[i]).1;
    if !pc'.Done? && i + 1 < |at| { SameRun(cfg, pc', at, c, c', i + 1); }
  }

  // --------------------------------------------------------- OAuth callback

  class OAuthCallbackService {
    const store: AccountStore
    const cfg: Config
    const courier: Courier

    constructor (store: AccountStore, cfg: Config)
      ensures this.store == store && this.cfg == cfg && courier.store == store && courier.cfg == cfg
    {
      this.store, this.cfg := store, cfg;
      courier := new Courier(store, cfg);
    }

    /** The identity is what the provider answered for the code. */
    method Handle(identity: Identity, at: seq<World>, c: seq<Choice>) returns (outcome: Outcome)
      requires courier.store == store && courier.cfg == cfg && Moments(at, c, 0, 6)
      modifies store
      ensures (store.Contents(), Done(outcome)) == CallRun(cfg, CbFindLink(identity), at, c, 0)
    {
      store.Await(at[0]);
      if identity.key in store.links {
        var user := store.links[identity.key].user;
        RunNext(cfg, CbFindLink(identity), at, c, 0, CbLoginLinked(identity, user));
        outcome := LoginLinked(identity, user, at, c);
        return;
      }
      RunNext(cfg, CbFindLink(identity), at, c, 0, CbFindEmail(identity));

      store.Await(at[1]);
      var owner := store.FindUserByEmail(identity.email);
      if owner.None? {
        RunNext(cfg, CbFindEmail(identity), at, c, 1, CbMint(identity));
        outcome := RegisterAndLink(identity, at, c);
        return;
      }
      var account := store.users[owner.value];
      if !identity.emailVerified || account.verifiedAt.None? {
        RunLast(cfg, CbFindEmail(identity), at, c, 1, at[1], Done(AlreadyExists));
        return AlreadyExists;
      }
      RunNext(cfg, CbFindEmail(identity), at, c, 1, CbLink(identity, owner.value, account));
      outcome := LinkAndLogin(identity, owner.value, account, at, c);
    }

    method LoginLinked(identity: Identity, user: Id, at: seq<World>, c: seq<Choice>) returns (outcome: Outcome)
      requires Moments(at, c, 0, 6)
      modifies store
      ensures (store.Contents(), Done(outcome)) == CallRun(cfg, CbLoginLinked(identity, user), at, c, 1)
    {
      store.Await(at[1]);
      if user !in store.users { outcome := Failed; }
      else if store.users[user].status != Active { outcome := AccountLocked; }
      else { outcome := SignedIn(user, identity.key); }
      RunLast(cfg, CbLoginLinked(identity, user), at, c, 1, at[1], Done(outcome));
    }

    method LinkAndLogin(identity: Identity, user: Id, account: UserRow, at: seq<World>, c: seq<Choice>)
      returns (outcome: Outcome)
      requires Moments(at, c, 0, 6)
      modifies store
      ensures (store.Contents(), Done(outcome)) == CallRun(cfg, CbLink(identity, user, account), at, c, 2)
    {
      store.Await(at[2]);
      store.Begin();
      var ok := store.CreateLink(identity.key, LinkRow(user, identity.email, AutoLinked(identity.emailVerified)));
      store.End(ok && c[2].ok);
      if !ok || !c[2].ok { outcome := Failed; }
      else if account.status == Active { outcome := SignedIn(user, identity.key); }
      else { outcome := AccountLocked; }
      RunLast(cfg, CbLink(identity, user, account), at, c, 2, store.Contents(), Done(outcome));
    }

    method RegisterAndLink(identity: Identity, at: seq<World>, c: seq<Choice>) returns (outcome: Outcome)
      requires courier.store == store && courier.cfg == cfg && Moments(at, c, 0, 6)
      modifies store
      ensures (store.Contents(), Done(outcome)) == CallRun(cfg, CbMint(identity), at, c, 2)
    {
      store.Await(at[2]);
      var userId := c[2].userId;
      var verifiedAt := if identity.emailVerified then Some(store.now) else None;
      var account := UserRow(cfg.canonical(identity.email), Active, verifiedAt, false);
      var m := if identity.emailVerified then None else Some(MintFor(cfg, store.now, userId, c[2]));
      RunNext(cfg, CbMint(identity), at, c, 2, CbRegister(identity, userId, account, m));

      outcome := Save(identity, userId, account, m, at, c);
    }

    /** Account, link and, for an unvouched address, its token: one transaction. */
    method Save(
        identity: Identity, userId: Id, account: UserRow, m: Option<Minted>, at: seq<World>, c: seq<Choice>)
      returns (outcome: Outcome)
      requires courier.store == store && courier.cfg == cfg && Moments(at, c, 0, 6)
      modifies store
      ensures (store.Contents(), Done(outcome)) == CallRun(cfg, CbRegister(identity, userId, account, m), at, c, 3)
    {
      ghost var pc := CbRegister(identity, userId, account, m);
      store.Await(at[3]);
      store.Begin();
      var ok := store.CreateUser(userId, account);
      if ok {
        KeysAfterUser(at[3], userId, account);
        ok := store.CreateLink(identity.key, LinkRow(userId, identity.email, WithAccount));
      }
      if ok && m.Some? { ok := store.CreateToken(m.value.id, Stamped(m.value, store.now)); }
      store.End(ok && c[3].ok);
      if !ok || !c[3].ok {
        RunLast(cfg, pc, at, c, 3, at[3], Done(Failed));
        return Failed;
      }
      if m.None? {
        RunLast(cfg, pc, at, c, 3, store.Contents(), Done(SignedIn(userId, identity.key)));
        return SignedIn(userId, identity.key);
      }
      RunNext(cfg, pc, at, c, 3, AfterMint(m.value, SignedIn(userId, identity.key)));
      outcome := courier.Deliver(m.value, SignedIn(userId, identity.key), at, c, 4);
    }
  }

  // ----------------------------------------------------------------- verify

  class VerifyService {
    const store: AccountStore
    const cfg: Config

    constructor (store: AccountStore, cfg: Config)
      ensures this.store == store && this.cfg == cfg
    {
      this.store, this.cfg := store, cfg;
    }

    method Handle(raw: string, at: seq<World>, c: seq<Choice>) returns (outcome: Outcome)
      requires Moments(at, c, 0, 5)
      modifies store
      ensures (store.Contents(), Done(outcome)) == CallRun(cfg, VerFindToken(raw), at, c, 0)
    {
      store.Await(at[0]);
      var found := store.FindTokenByHash(cfg.hash(raw));
      if found.None? {
        RunLast(cfg, VerFindToken(raw), at, c, 0, at[0], Done(InvalidToken(store.now)));
        return InvalidToken(store.now);
      }
      var token := store.tokens[found.value];
      RunNext(cfg, VerFindToken(raw), at, c, 0, VerCheck(found.value, token));

      store.Await(at[1]);
      if token.consumedAt.Some? {
        RunNext(cfg, VerCheck(found.value, token), at, c, 1, VerReread(token.user));
        outcome := ReplayVerified(token.user, at, c, 2);
        return;
      }
      if token.expiresAt <= store.now {
        RunLast(cfg, VerCheck(found.value, token), at, c, 1, at[1], Done(InvalidToken(store.now)));
        return InvalidToken(store.now);
      }
      RunNext(cfg, VerCheck(found.value, token), at, c, 1, VerLoad(found.value, token));
      outcome := Verify(found.value, token, at, c);
    }

    method Verify(tokenId: Id, token: TokenRow, at: seq<World>, c: seq<Choice>) returns (outcome: Outcome)
      requires Moments(at, c, 0, 5)
      modifies store
      ensures (store.Contents(), Done(outcome)) == CallRun(cfg, VerLoad(tokenId, token), at, c, 2)
    {
      store.Await(at[2]);
      if token.user !in store.users {
        RunLast(cfg, VerLoad(tokenId, token), at, c, 2, at[2], Done(Failed));
        return Failed;
      }
      var status := store.users[token.user].status;
      var verifiedAt := store.now;
      ghost var commit := VerCommit(tokenId, token.user, status, verifiedAt);
      RunNext(cfg, VerLoad(tokenId, token), at, c, 2, commit);
      outcome := Consume(tokenId, token.user, status, verifiedAt, at, c);
    }

    /** Consume the token and mark the account, or learn that another call already did. */
    method Consume(tokenId: Id, user: Id, status: Status, verifiedAt: Time, at: seq<World>, c: seq<Choice>)
      returns (outcome: Outcome)
      requires Moments(at, c, 0, 5)
      modifies store
      ensures (store.Contents(), Done(outcome)) == CallRun(cfg, VerCommit(tokenId, user, status, verifiedAt), at, c, 3)
    {
      ghost var commit := VerCommit(tokenId, user, status, verifiedAt);
      var marked := if status == Pending then Active else status;
      store.Await(at[3]);
      store.Begin();
      var rows := store.ConsumeToken(tokenId);
      if rows == 1 { store.SaveVerification(user, verifiedAt, marked); }
      store.End(rows == 1 && c[3].ok);
      if !c[3].ok {
        RunLast(cfg, commit, at, c, 3, at[3], Done(Failed));
        return Failed;
      }
      if rows == 0 {
        RunNext(cfg, commit, at, c, 3, VerReread(user));
        outcome := ReplayVerified(user, at, c, 4);
        return;
      }
      RunLast(cfg, commit, at, c, 3, store.Contents(), Done(Verified(tokenId, user, verifiedAt)));
      return Verified(tokenId, user, verifiedAt);
    }

    method ReplayVerified(user: Id, at: seq<World>, c: seq<Choice>, i: nat) returns (outcome: Outcome)
      requires Moments(at, c, i, 1)
      modifies store
      ensures (store.Contents(), Done(outcome)) == CallRun(cfg, VerReread(user), at, c, i)
    {
      store.Await(at[i]);
      if user !in store.users { outcome := Failed; }
      else if store.users[user].verifiedAt.None? { outcome := NilDereference; }
      else { outcome := Confirmed(user, store.users[user].verifiedAt.value); }
      RunLast(cfg, VerReread(user), at, c, i, at[i], Done(outcome));
    }
  }
}
