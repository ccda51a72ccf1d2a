/** What every interleaving of registrations, resends, verifications and callbacks keeps. */
module AccountTheorems {
  import opened Prelude
  import opened AccountProtocol

  // ------------------------------------------------------------- evolution

  predicate UserEvolves(a: UserRow, b: UserRow) {
    a.email == b.email && a.hasPassword == b.hasPassword && (a.verifiedAt.Some? ==> b.verifiedAt.Some?)
  }

  predicate TokenEvolves(a: TokenRow, b: TokenRow) {
    b.(consumedAt := a.consumedAt) == a && (a.consumedAt.Some? ==> b.consumedAt == a.consumedAt)
  }

  /** Nothing is deleted, no verification is undone, no link is re-pointed, no mail is unsent. */
  ghost predicate Evolves(a: World, b: World) {
    && a.now <= b.now
    && (forall id :: id in a.users ==> id in b.users && UserEvolves(a.users[id], b.users[id]))
    && (forall id :: id in a.tokens ==> id in b.tokens && TokenEvolves(a.tokens[id], b.tokens[id]))
    && (forall k :: k in a.links ==> k in b.links && b.links[k] == a.links[k])
    && a.mails <= b.mails
  }

  // ------------------------------------------------------------- the tables

  ghost predicate IsVerified(w: World, user: Id) {
    user in w.users && w.users[user].verifiedAt.Some?
  }

  ghost predicate Backed(cfg: Config, w: World, raw: string, expiresAt: Time) {
    exists t :: t in w.tokens && w.tokens[t].hash == cfg.hash(raw) && w.tokens[t].expiresAt == expiresAt
  }

  ghost predicate UsersOk(w: World) {
    && (forall a, b :: a in w.users && b in w.users && w.users[a].email == w.users[b].email ==> a == b)
    && (forall a :: a in w.users && w.users[a].verifiedAt.Some? ==> w.users[a].status != Pending)
  }

  ghost predicate TokensOk(w: World) {
    && (forall a, b :: a in w.tokens && b in w.tokens && w.tokens[a].hash == w.tokens[b].hash ==> a == b)
    && (forall a :: a in w.tokens ==> w.tokens[a].user in w.users)
    && (forall a :: a in w.tokens && w.tokens[a].consumedAt.Some? ==> IsVerified(w, w.tokens[a].user))
  }

  ghost predicate LinkOk(w: World, k: LinkKey)
    requires k in w.links
  {
    && w.links[k].user in w.users
    && (w.links[k].origin.AutoLinked? ==>
          && w.links[k].origin.asserted && IsVerified(w, w.links[k].user)
          && w.users[w.links[k].user].email == w.links[k].email)
    && (w.links[k].origin.WithAccount? ==> !w.users[w.links[k].user].hasPassword)
  }

  ghost predicate Linked(w: World, user: Id) {
    exists k :: k in w.links && w.links[k].user == user && w.links[k].origin.WithAccount?
  }

  ghost predicate LinksOk(w: World) {
    && (forall k :: k in w.links ==> LinkOk(w, k))
    && (forall u :: u in w.users && !w.users[u].hasPassword ==> Linked(w, u))
  }

  ghost predicate CacheOk(cfg: Config, w: World) {
    && (forall t :: t in w.cache ==> t in w.tokens && cfg.hash(w.cache[t].raw) == w.tokens[t].hash)
    && (forall m :: m in w.mails ==> Backed(cfg, w, m.raw, m.expiresAt))
  }

  ghost predicate WorldOk(cfg: Config, w: World) {
    UsersOk(w) && TokensOk(w) && LinksOk(w) && CacheOk(cfg, w)
  }

  // -------------------------------------------------------------- the calls

  predicate MintedOk(cfg: Config, m: Minted, user: Id) {
    m.row.user == user && m.row.hash == cfg.hash(m.raw) && m.row.consumedAt.None?
  }

  ghost predicate KnowsToken(w: World, id: Id, row: TokenRow) {
    id in w.tokens && TokenEvolves(row, w.tokens[id])
  }

  ghost predicate LinkedTo(w: World, key: LinkKey, user: Id) {
    key in w.links && w.links[key].user == user
  }

  /** What a call that has committed still has to answer. */
  ghost predicate NextOk(w: World, next: Outcome) {
    next == Registered || next == Sent || (next.SignedIn? && LinkedTo(w, next.via, next.user))
  }

  ghost predicate PcOk(cfg: Config, w: World, pc: Pc) {
    match pc
    case RegCommit(userId, account, minted) =>
      MintedOk(cfg, minted, userId) && account.verifiedAt.None? && account.hasPassword
    case SendFromCache(_, tokenId, token) => KnowsToken(w, tokenId, token)
    case SendCreate(minted) => MintedOk(cfg, minted, minted.row.user)
    case CbLoginLinked(identity, user) => user in w.users && LinkedTo(w, identity.key, user)
    case CbRegister(identity, userId, account, verification) =>
      && account.status == Active && !account.hasPassword
      && (verification.Some? ==> MintedOk(cfg, verification.value, userId))
    case CbLink(identity, user, account) =>
      identity.emailVerified && IsVerified(w, user) && w.users[user].email == identity.email
    case VerCheck(tokenId, token) => KnowsToken(w, tokenId, token)
    case VerLoad(tokenId, token) => KnowsToken(w, tokenId, token)
    case VerCommit(tokenId, user, _, _) => tokenId in w.tokens && w.tokens[tokenId].user == user
    case VerReread(user) => IsVerified(w, user)
    case StoreRaw(tokenId, raw, expiresAt, next) =>
      && tokenId in w.tokens && w.tokens[tokenId].hash == cfg.hash(raw) && w.tokens[tokenId].expiresAt == expiresAt
      && NextOk(w, next)
    case Publish(raw, expiresAt, next) =>
      Backed(cfg, w, raw, expiresAt) && NextOk(w, next)
    case Done(outcome) =>
      && outcome != NilDereference
      && (outcome.Verified? ==> outcome.token in w.tokens && w.tokens[outcome.token].consumedAt.Some?)
      && (outcome.Confirmed? ==> IsVerified(w, outcome.user))
      && (outcome.SignedIn? ==> LinkedTo(w, outcome.via, outcome.user))
    case _ => true
  }

  lemma BackedStays(cfg: Config, w: World, w': World, raw: string, expiresAt: Time)
    requires Evolves(w, w') && Backed(cfg, w, raw, expiresAt)
    ensures Backed(cfg, w', raw, expiresAt)
  {
    var t :| t in w.tokens && w.tokens[t].hash == cfg.hash(raw) && w.tokens[t].expiresAt == expiresAt;
    assert t in w'.tokens && TokenEvolves(w.tokens[t], w'.tokens[t]);
  }

  lemma PcOkSurvives(cfg: Config, w: World, w': World, pc: Pc)
    requires Evolves(w, w') && PcOk(cfg, w, pc)
    ensures PcOk(cfg, w', pc)
  {
    if pc.Publish? { BackedStays(cfg, w, w', pc.raw, pc.expiresAt); }
    if pc.StoreRaw? { assert TokenEvolves(w.tokens[pc.tokenId], w'.tokens[pc.tokenId]); }
    if pc.VerCommit? { assert TokenEvolves(w.tokens[pc.tokenId], w'.tokens[pc.tokenId]); }
  }

  ghost predicate Won(pc: Pc, token: Id) {
    pc.Done? && pc.outcome.Verified? && pc.outcome.token == token
  }

  ghost predicate Inv(cfg: Config, s: State) {
    && WorldOk(cfg, s.world)
    && (forall c :: c in s.calls ==> PcOk(cfg, s.world, s.calls[c]))
    && (forall a, b, t :: a in s.calls && b in s.calls && Won(s.calls[a], t) && Won(s.calls[b], t) ==> a == b)
  }

  // ------------------------------------------------------- single statements

  lemma EvolvesRefl(w: World)
    ensures Evolves(w, w)
  {
  }

  lemma EvolvesTrans(a: World, b: World, c: World)
    requires Evolves(a, b) && Evolves(b, c)
    ensures Evolves(a, c)
  {
  }

  lemma CacheOkCarries(cfg: Config, w: World, w': World)
    requires CacheOk(cfg, w) && Evolves(w, w') && w'.cache == w.cache && w'.mails == w.mails
    ensures CacheOk(cfg, w')
  {
    forall m | m in w'.mails ensures Backed(cfg, w', m.raw, m.expiresAt) {
      BackedStays(cfg, w, w', m.raw, m.expiresAt);
    }
    forall t | t in w'.cache ensures t in w'.tokens && cfg.hash(w'.cache[t].raw) == w'.tokens[t].hash {
      assert TokenEvolves(w.tokens[t], w'.tokens[t]);
    }
  }

  lemma InsertUserKeeps(cfg: Config, w: World, id: Id, row: UserRow)
    requires UsersOk(w) && TokensOk(w) && UserInsertable(w, id, row)
    requires row.verifiedAt.Some? ==> row.status != Pending
    ensures UsersOk(InsertUser(w, id, row)) && TokensOk(InsertUser(w, id, row)) && Evolves(w, InsertUser(w, id, row))
  {
    forall a | a in w.users ensures w.users[a].email != row.email {
      assert !HasEmail(w.users, row.email, a);
    }
  }

  lemma InsertTokenKeeps(cfg: Config, w: World, id: Id, row: TokenRow)
    requires TokensOk(w) && TokenInsertable(w, id, row) && row.consumedAt.None?
    ensures TokensOk(InsertToken(w, id, row)) && Evolves(w, InsertToken(w, id, row))
  {
    forall a | a in w.tokens ensures w.tokens[a].hash != row.hash {
      assert !HasHash(w.tokens, row.hash, a);
    }
  }

  lemma RegisterKeeps(cfg: Config, w: World, userId: Id, account: UserRow, m: Minted)
    requires WorldOk(cfg, w) && PcOk(cfg, w, RegCommit(userId, account, m))
    ensures var (w', pc') := RegisterTx(w, userId, account, m);
            WorldOk(cfg, w') && Evolves(w, w') && PcOk(cfg, w', pc')
  {
    EvolvesRefl(w);
    var w1 := InsertUser(w, userId, account);
    if UserInsertable(w, userId, account) && TokenInsertable(w1, m.id, Stamped(m, w.now)) {
      var w' := InsertToken(w1, m.id, Stamped(m, w.now));
      InsertUserKeeps(cfg, w, userId, account);
      InsertTokenKeeps(cfg, w1, m.id, Stamped(m, w.now));
      EvolvesTrans(w, w1, w');
      CacheOkCarries(cfg, w, w');
      PasswordUserKeepsLinks(w, w', userId);
    }
  }

  lemma PasswordUserKeepsLinks(w: World, w': World, added: Id)
    requires LinksOk(w) && Evolves(w, w') && w'.links == w.links
    requires forall u :: u in w'.users && u !in w.users ==> w'.users[u].hasPassword
    ensures LinksOk(w')
  {
    forall k | k in w'.links ensures LinkOk(w', k) {
      assert LinkOk(w, k);
    }
    forall u | u in w'.users && !w'.users[u].hasPassword ensures Linked(w', u) {
      assert u in w.users && UserEvolves(w.users[u], w'.users[u]);
      assert Linked(w, u);
    }
  }

  lemma CallbackKeeps(cfg: Config, w: World, identity: Identity, userId: Id, account: UserRow, m: Option<Minted>)
    requires WorldOk(cfg, w) && PcOk(cfg, w, CbRegister(identity, userId, account, m))
    ensures var (w', pc') := CallbackTx(w, identity, userId, account, m);
            WorldOk(cfg, w') && Evolves(w, w') && PcOk(cfg, w', pc')
  {
    EvolvesRefl(w);
    if UserInsertable(w, userId, account) && identity.key !in w.links {
      var w2 := AccountJoined(cfg, w, identity, userId, account);
      if m.Some? && TokenInsertable(w2, m.value.id, Stamped(m.value, w.now)) {
        TokenJoined(cfg, w, w2, m.value.id, Stamped(m.value, w.now));
      }
    }
  }

  lemma AccountJoined(cfg: Config, w: World, identity: Identity, userId: Id, account: UserRow) returns (w2: World)
    requires WorldOk(cfg, w) && UserInsertable(w, userId, account) && identity.key !in w.links
    requires account.status == Active && !account.hasPassword
    ensures w2 == InsertLink(InsertUser(w, userId, account), identity.key, LinkRow(userId, identity.email, WithAccount))
    ensures WorldOk(cfg, w2) && Evolves(w, w2)
  {
    w2 := InsertLink(InsertUser(w, userId, account), identity.key, LinkRow(userId, identity.email, WithAccount));
    InsertUserKeeps(cfg, w, userId, account);
    NewAccountKeepsLinks(w, w2, identity, userId, account);
    assert Evolves(w, w2) && UsersOk(w2) && TokensOk(w2);
    CacheOkCarries(cfg, w, w2);
  }

  lemma TokenJoined(cfg: Config, w: World, w2: World, id: Id, row: TokenRow)
    requires WorldOk(cfg, w2) && Evolves(w, w2) && TokenInsertable(w2, id, row) && row.consumedAt.None?
    ensures WorldOk(cfg, InsertToken(w2, id, row)) && Evolves(w, InsertToken(w2, id, row))
  {
    var w3 := InsertToken(w2, id, row);
    InsertTokenKeeps(cfg, w2, id, row);
    EvolvesTrans(w, w2, w3);
    CacheOkCarries(cfg, w2, w3);
    SameLinksOk(w2, w3);
  }

  lemma SameLinksOk(w: World, w': World)
    requires LinksOk(w) && w'.links == w.links && w'.users == w.users
    ensures LinksOk(w')
  {
    forall k | k in w'.links ensures LinkOk(w', k) { assert LinkOk(w, k); }
    forall u | u in w'.users && !w'.users[u].hasPassword ensures Linked(w', u) { assert Linked(w, u); }
  }

  lemma NewAccountKeepsLinks(w: World, w': World, identity: Identity, userId: Id, account: UserRow)
    requires LinksOk(w) && userId !in w.users && identity.key !in w.links && !account.hasPassword
    requires w'.users == w.users[userId := account]
    requires w'.links == w.links[identity.key := LinkRow(userId, identity.email, WithAccount)]
    ensures LinksOk(w')
  {
    forall k | k in w'.links ensures LinkOk(w', k) {
      if k != identity.key { assert LinkOk(w, k); }
    }
    forall u | u in w'.users && !w'.users[u].hasPassword ensures Linked(w', u) {
      if u == userId {
        assert identity.key in w'.links;
      } else {
        assert Linked(w, u);
        var k :| k in w.links && w.links[k].user == u && w.links[k].origin.WithAccount?;
        assert k in w'.links && w'.links[k] == w.links[k];
      }
    }
  }

  lemma LinkKeeps(cfg: Config, w: World, identity: Identity, user: Id, account: UserRow)
    requires WorldOk(cfg, w) && PcOk(cfg, w, CbLink(identity, user, account))
    ensures var (w', pc') := LinkTx(w, identity, user, account);
            WorldOk(cfg, w') && Evolves(w, w') && PcOk(cfg, w', pc')
  {
    EvolvesRefl(w);
    if identity.key !in w.links {
      var w' := LinkTx(w, identity, user, account).0;
      CacheOkCarries(cfg, w, w');
      forall k | k in w'.links ensures LinkOk(w', k) {
        if k != identity.key { assert LinkOk(w, k); }
      }
      forall u | u in w'.users && !w'.users[u].hasPassword ensures Linked(w', u) {
        assert Linked(w, u);
        var k :| k in w.links && w.links[k].user == u && w.links[k].origin.WithAccount?;
        assert k in w'.links && w'.links[k] == w.links[k];
      }
    }
  }

  lemma VerifyKeeps(cfg: Config, w: World, tokenId: Id, user: Id, status: Status, at: Time)
    requires WorldOk(cfg, w) && PcOk(cfg, w, VerCommit(tokenId, user, status, at))
    ensures var (w', pc') := VerifyTx(w, tokenId, user, status, at);
            && WorldOk(cfg, w') && Evolves(w, w') && PcOk(cfg, w', pc')
            && (pc'.Done? && pc'.outcome.Verified? ==>
                  pc'.outcome.token == tokenId && w.tokens[tokenId].consumedAt.None?)
  {
    EvolvesRefl(w);
    if w.tokens[tokenId].consumedAt.None? {
      var w' := VerifyTx(w, tokenId, user, status, at).0;
      VerifiedEvolves(w, tokenId, user, status, at);
      CacheOkCarries(cfg, w, w');
      PasswordUserKeepsLinks(w, w', user);
    }
  }

  lemma VerifiedEvolves(w: World, tokenId: Id, user: Id, status: Status, at: Time)
    requires UsersOk(w) && TokensOk(w) && tokenId in w.tokens && w.tokens[tokenId].user == user
    requires w.tokens[tokenId].consumedAt.None?
    ensures var w' := VerifyTx(w, tokenId, user, status, at).0;
            && user in w.users && UsersOk(w') && TokensOk(w') && Evolves(w, w')
  {
    assert user in w.users;
  }

  lemma StoreRawKeeps(cfg: Config, w: World, pc: Pc, c: Choice)
    requires WorldOk(cfg, w) && PcOk(cfg, w, pc) && pc.StoreRaw?
    ensures var (w', pc') := Advance(cfg, w, pc, c);
            WorldOk(cfg, w') && Evolves(w, w') && PcOk(cfg, w', pc')
  {
    var w' := Advance(cfg, w, pc, c).0;
    assert Evolves(w, w');
    SameLinksOk(w, w');
    assert Backed(cfg, w', pc.raw, pc.expiresAt);
    forall m | m in w'.mails ensures Backed(cfg, w', m.raw, m.expiresAt) {
      BackedStays(cfg, w, w', m.raw, m.expiresAt);
    }
  }

  lemma PublishKeeps(cfg: Config, w: World, pc: Pc, c: Choice)
    requires WorldOk(cfg, w) && PcOk(cfg, w, pc) && pc.Publish?
    ensures var (w', pc') := Advance(cfg, w, pc, c);
            WorldOk(cfg, w') && Evolves(w, w') && PcOk(cfg, w', pc')
  {
    var w' := Advance(cfg, w, pc, c).0;
    assert Evolves(w, w');
    SameLinksOk(w, w');
    forall m | m in w'.mails ensures Backed(cfg, w', m.raw, m.expiresAt) {
      if m in w.mails { BackedStays(cfg, w, w', m.raw, m.expiresAt); }
      else { BackedStays(cfg, w, w', pc.raw, pc.expiresAt); }
    }
  }

  lemma SendCreateKeeps(cfg: Config, w: World, pc: Pc, c: Choice)
    requires WorldOk(cfg, w) && PcOk(cfg, w, pc) && pc.SendCreate?
    ensures var (w', pc') := Advance(cfg, w, pc, c);
            WorldOk(cfg, w') && Evolves(w, w') && PcOk(cfg, w', pc')
  {
    EvolvesRefl(w);
    var row := Stamped(pc.minted, w.now);
    if c.ok && TokenInsertable(w, pc.minted.id, row) {
      var w' := InsertToken(w, pc.minted.id, row);
      InsertTokenKeeps(cfg, w, pc.minted.id, row);
      CacheOkCarries(cfg, w, w');
      SameLinksOk(w, w');
    }
  }

  predicate Writes(pc: Pc) {
    pc.RegCommit? || pc.SendCreate? || pc.CbRegister? || pc.CbLink? || pc.VerCommit? || pc.StoreRaw? || pc.Publish?
  }

  /** A statement that only reads leaves the tables alone and remembers the truth. */
  lemma ReadKeeps(cfg: Config, w: World, pc: Pc, c: Choice)
    requires WorldOk(cfg, w) && PcOk(cfg, w, pc) && !Writes(pc)
    ensures var (w', pc') := Advance(cfg, w, pc, c);
            w' == w && PcOk(cfg, w, pc') && (pc'.Done? && pc'.outcome.Verified? ==> pc' == pc)
  {
    if pc.VerFindToken? || pc.VerCheck? || pc.VerReread? || pc.VerLoad? {
      VerifyReads(cfg, w, pc, c);
    } else {
      OtherReads(cfg, w, pc, c);
    }
  }

  lemma VerifyReads(cfg: Config, w: World, pc: Pc, c: Choice)
    requires WorldOk(cfg, w) && PcOk(cfg, w, pc)
    requires pc.VerFindToken? || pc.VerCheck? || pc.VerReread? || pc.VerLoad?
    ensures var (w', pc') := Advance(cfg, w, pc, c);
            w' == w && PcOk(cfg, w, pc') && !(pc'.Done? && pc'.outcome.Verified?)
  {
  }

  lemma OtherReads(cfg: Config, w: World, pc: Pc, c: Choice)
    requires WorldOk(cfg, w) && PcOk(cfg, w, pc) && !Writes(pc)
    requires !(pc.VerFindToken? || pc.VerCheck? || pc.VerReread? || pc.VerLoad?)
    ensures var (w', pc') := Advance(cfg, w, pc, c);
            w' == w && PcOk(cfg, w, pc') && (pc'.Done? && pc'.outcome.Verified? ==> pc' == pc)
  {
    if pc.SendFromCache? && c.ok && CachedRaw(w, pc.tokenId).Some? {
      assert TokenEvolves(pc.token, w.tokens[pc.tokenId]);
      assert Backed(cfg, w, w.cache[pc.tokenId].raw, pc.token.expiresAt);
    }
    if pc.CbFindLink? && pc.identity.key in w.links { assert LinkOk(w, pc.identity.key); }
  }

  lemma AdvanceKeeps(cfg: Config, w: World, pc: Pc, c: Choice)
    requires WorldOk(cfg, w) && PcOk(cfg, w, pc)
    ensures var (w', pc') := Advance(cfg, w, pc, c);
            && WorldOk(cfg, w') && Evolves(w, w') && PcOk(cfg, w', pc')
            && (pc'.Done? && pc'.outcome.Verified? ==>
                  pc' == pc || (pc'.outcome.token in w.tokens && w.tokens[pc'.outcome.token].consumedAt.None?))
  {
    EvolvesRefl(w);
    if !Writes(pc) { ReadKeeps(cfg, w, pc, c); }
    else if pc.SendCreate? { SendCreateKeeps(cfg, w, pc, c); }
    else if pc.StoreRaw? { StoreRawKeeps(cfg, w, pc, c); }
    else if pc.Publish? { PublishKeeps(cfg, w, pc, c); }
    else { CommitKeeps(cfg, w, pc, c); }
  }

  lemma CommitKeeps(cfg: Config, w: World, pc: Pc, c: Choice)
    requires WorldOk(cfg, w) && PcOk(cfg, w, pc) && (pc.RegCommit? || pc.CbRegister? || pc.CbLink? || pc.VerCommit?)
    ensures var (w', pc') := Advance(cfg, w, pc, c);
            && WorldOk(cfg, w') && Evolves(w, w') && PcOk(cfg, w', pc')
            && (pc'.Done? && pc'.outcome.Verified? ==>
                  pc'.outcome.token in w.tokens && w.tokens[pc'.outcome.token].consumedAt.None?)
  {
    if !c.ok { EvolvesRefl(w); return; }
    match pc
    case RegCommit(userId, account, m) => RegisterKeeps(cfg, w, userId, account, m);
    case CbRegister(identity, userId, account, m) => CallbackKeeps(cfg, w, identity, userId, account, m);
    case CbLink(identity, user, account) => LinkKeeps(cfg, w, identity, user, account);
    case VerCommit(tokenId, user, status, at) => VerifyKeeps(cfg, w, tokenId, user, status, at);
  }

  // ------------------------------------------------------------ every event

  lemma CallsFollow(cfg: Config, s: State, s': State, moved: Id)
    requires Inv(cfg, s) && Evolves(s.world, s'.world) && WorldOk(cfg, s'.world)
    requires forall c :: c in s'.calls && c != moved ==> c in s.calls && s'.calls[c] == s.calls[c]
    requires moved in s'.calls ==> PcOk(cfg, s'.world, s'.calls[moved])
    requires forall t :: moved in s'.calls && Won(s'.calls[moved], t) ==>
               (moved in s.calls && s'.calls[moved] == s.calls[moved])
               || (t in s.world.tokens && s.world.tokens[t].consumedAt.None?)
    ensures Inv(cfg, s')
  {
    forall c | c in s'.calls ensures PcOk(cfg, s'.world, s'.calls[c]) {
      if c != moved { PcOkSurvives(cfg, s.world, s'.world, s.calls[c]); }
    }
    WinnersConsumed(cfg, s);
  }

  lemma WinnersConsumed(cfg: Config, s: State)
    requires Inv(cfg, s)
    ensures forall c, t :: c in s.calls && Won(s.calls[c], t) ==>
              t in s.world.tokens && s.world.tokens[t].consumedAt.Some?
  {
    forall c, t | c in s.calls && Won(s.calls[c], t) ensures t in s.world.tokens && s.world.tokens[t].consumedAt.Some? {
      assert PcOk(cfg, s.world, s.calls[c]);
    }
  }

  /** What the environment may do to the tables: let time pass, lose cache entries, set a status. */
  ghost predicate EnvironmentOnly(w: World, w': World) {
    && w'.tokens == w.tokens && w'.links == w.links && w'.mails == w.mails && w.now <= w'.now
    && w'.users.Keys == w.users.Keys
    && (forall u :: u in w.users ==>
          w'.users[u] == w.users[u].(status := w'.users[u].status)
          && (w'.users[u].status == w.users[u].status || w'.users[u].status != Pending))
    && (forall t :: t in w'.cache ==> t in w.cache && w'.cache[t] == w.cache[t])
  }

  lemma EnvironmentKeeps(cfg: Config, w: World, w': World)
    requires WorldOk(cfg, w) && EnvironmentOnly(w, w')
    ensures WorldOk(cfg, w') && Evolves(w, w')
  {
    assert UsersOk(w') && TokensOk(w') && Evolves(w, w');
    PasswordUserKeepsLinks(w, w', 0);
    forall m | m in w'.mails ensures Backed(cfg, w', m.raw, m.expiresAt) {
      BackedStays(cfg, w, w', m.raw, m.expiresAt);
    }
  }

  lemma MoveKeeps(cfg: Config, s: State, call: Id, choice: Choice)
    requires Inv(cfg, s) && call in s.calls
    ensures var (w, pc) := Advance(cfg, s.world, s.calls[call], choice);
            Inv(cfg, State(w, s.calls[call := pc])) && Evolves(s.world, w)
  {
    var (w, pc) := Advance(cfg, s.world, s.calls[call], choice);
    AdvanceKeeps(cfg, s.world, s.calls[call], choice);
    CallsFollow(cfg, s, State(w, s.calls[call := pc]), call);
  }

  lemma WorldMoves(cfg: Config, s: State, w: World)
    requires Inv(cfg, s) && EnvironmentOnly(s.world, w)
    ensures Inv(cfg, s.(world := w)) && Evolves(s.world, w)
  {
    EnvironmentKeeps(cfg, s.world, w);
    SameCallsFollow(cfg, s, s.(world := w));
  }

  lemma CallReplaced(cfg: Config, s: State, call: Id, pc: Pc)
    requires Inv(cfg, s) && (Entry(pc) || pc == Done(Failed))
    ensures Inv(cfg, s.(calls := s.calls[call := pc])) && Evolves(s.world, s.world)
  {
    EvolvesRefl(s.world);
    CallsFollow(cfg, s, s.(calls := s.calls[call := pc]), call);
  }

  lemma StepKeeps(cfg: Config, s: State, e: Event)
    requires Inv(cfg, s)
    ensures Inv(cfg, Step(cfg, s, e)) && Evolves(s.world, Step(cfg, s, e).world)
  {
    if e.Move? {
      if e.call in s.calls { MoveKeeps(cfg, s, e.call, e.choice); } else { EvolvesRefl(s.world); }
    } else if e.Start? || e.Crash? {
      CallEventKeeps(cfg, s, e);
    } else {
      EnvironmentShape(cfg, s, e);
      WorldMoves(cfg, s, Step(cfg, s, e).world);
    }
  }

  lemma CallEventKeeps(cfg: Config, s: State, e: Event)
    requires Inv(cfg, s) && (e.Start? || e.Crash?)
    ensures Inv(cfg, Step(cfg, s, e)) && Evolves(s.world, Step(cfg, s, e).world)
  {
    EvolvesRefl(s.world);
    match e
    case Start(call, pc) => if Entry(pc) { CallReplaced(cfg, s, call, pc); }
    case Crash(call) => CallReplaced(cfg, s, call, Done(Failed));
  }

  lemma EnvironmentShape(cfg: Config, s: State, e: Event)
    requires e.Tick? || e.Evict? || e.SetStatus?
    ensures Step(cfg, s, e) == s.(world := Step(cfg, s, e).world)
    ensures EnvironmentOnly(s.world, Step(cfg, s, e).world)
  {
  }

  lemma SameCallsFollow(cfg: Config, s: State, s': State)
    requires Inv(cfg, s) && Evolves(s.world, s'.world) && WorldOk(cfg, s'.world) && s'.calls == s.calls
    ensures Inv(cfg, s')
  {
    forall c | c in s'.calls ensures PcOk(cfg, s'.world, s'.calls[c]) {
      PcOkSurvives(cfg, s.world, s'.world, s.calls[c]);
    }
  }

  lemma {:induction false} RunKeeps(cfg: Config, s: State, run: seq<Event>)
    requires Inv(cfg, s)
    ensures Inv(cfg, Exec(cfg, s, run)) && Evolves(s.world, Exec(cfg, s, run).world)
    decreases |run|
  {
    EvolvesRefl(s.world);
    if run != [] {
      var before := Exec(cfg, s, run[..|run| - 1]);
      RunKeeps(cfg, s, run[..|run| - 1]);
      StepKeeps(cfg, before, run[|run| - 1]);
      EvolvesTrans(s.world, before.world, Exec(cfg, s, run).world);
    }
  }

  lemma ReachableInv(cfg: Config, s: State)
    requires Reachable(cfg, s)
    ensures Inv(cfg, s)
  {
    var start: Time, users: map<Id, UserRow>, run: seq<Event> :|
      Legacy(users) && s == Exec(cfg, Init(start, users), run);
    RunKeeps(cfg, Init(start, users), run);
  }
}
