/** What register, resend, verify and the OAuth callback decide when nothing else runs. */
module UndisturbedCalls {
  import opened Prelude
  import opened AccountProtocol
  import opened AccountTheorems

  /** A call on its own: at most n of its statements, one after the other. */
  ghost function Alone(cfg: Config, w: World, pc: Pc, c: Choice, n: nat): (World, Pc)
    decreases n
  {
    if n == 0 || pc.Done? then (w, pc)
    else
      var (w', pc') := Advance(cfg, w, pc, c);
      Alone(cfg, w', pc', c, n - 1)
  }

  lemma Next(cfg: Config, w: World, pc: Pc, c: Choice, n: nat, w1: World, pc1: Pc)
    requires n > 0 && !pc.Done? && Advance(cfg, w, pc, c) == (w1, pc1)
    ensures Alone(cfg, w, pc, c, n) == Alone(cfg, w1, pc1, c, n - 1)
  {
  }

  lemma {:induction false} Finished(cfg: Config, w: World, pc: Pc, c: Choice, n: nat)
    requires pc.Done?
    ensures Alone(cfg, w, pc, c, n) == (w, pc)
  {
  }

  lemma {:induction false} Last(cfg: Config, w: World, pc: Pc, c: Choice, n: nat, w1: World, pc1: Pc)
    requires n > 0 && !pc.Done? && Advance(cfg, w, pc, c) == (w1, pc1) && pc1.Done?
    ensures Alone(cfg, w, pc, c, n) == (w1, pc1)
  {
    Next(cfg, w, pc, c, n, w1, pc1);
    Finished(cfg, w1, pc1, c, n - 1);
  }

  // ----------------------------------------------------------------- verify

  /** The token a raw token stands for. */
  ghost predicate Holds(cfg: Config, w: World, raw: string, t: Id) {
    HasHash(w.tokens, cfg.hash(raw), t)
  }

  /** Everything one undisturbed verification does, by the state of the presented token. */
  lemma {:induction false} VerifyDecides(cfg: Config, w: World, raw: string, t: Id, c: Choice, n: nat)
    requires WorldOk(cfg, w) && Holds(cfg, w, raw, t) && c.ok && n >= 4
    ensures var (w', pc) := Alone(cfg, w, VerFindToken(raw), c, n);
            var row := w.tokens[t];
            var status := w.users[row.user].status;
            && (pc == Done(InvalidToken(w.now)) <==> row.consumedAt.None? && row.expiresAt <= w.now)
            && (pc == Done(Verified(t, row.user, w.now)) <==> row.consumedAt.None? && w.now < row.expiresAt)
            && (pc.Done? && pc.outcome.Confirmed? <==> row.consumedAt.Some?)
            && (pc.Done? && pc.outcome.Confirmed? ==>
                  pc.outcome.user == row.user && w.users[row.user].verifiedAt == Some(pc.outcome.at))
            && (pc.Done? && pc.outcome.Verified? ==>
                  && w'.tokens == w.tokens[t := row.(consumedAt := Some(w.now))]
                  && w'.users == w.users[row.user := w.users[row.user].(
                       verifiedAt := Some(w.now), status := if status == Pending then Active else status)])
            && (!(pc.Done? && pc.outcome.Verified?) ==> w' == w)
  {
    var row := w.tokens[t];
    Next(cfg, w, VerFindToken(raw), c, n, w, VerCheck(t, row));
    if row.consumedAt.Some? {
      Next(cfg, w, VerCheck(t, row), c, n - 1, w, VerReread(row.user));
      Last(cfg, w, VerReread(row.user), c, n - 2, w, Done(Confirmed(row.user, w.users[row.user].verifiedAt.value)));
    } else if row.expiresAt <= w.now {
      Last(cfg, w, VerCheck(t, row), c, n - 1, w, Done(InvalidToken(w.now)));
    } else {
      VerifyWins(cfg, w, t, c, n - 1);
    }
  }

  /** A raw token nobody was given is refused, and nothing changes. */
  lemma {:induction false} UnknownTokenIsRefused(cfg: Config, w: World, raw: string, c: Choice, n: nat)
    requires n >= 1 && forall t :: t in w.tokens ==> w.tokens[t].hash != cfg.hash(raw)
    ensures Alone(cfg, w, VerFindToken(raw), c, n) == (w, Done(InvalidToken(w.now)))
  {
    assert forall t :: !HasHash(w.tokens, cfg.hash(raw), t);
    Last(cfg, w, VerFindToken(raw), c, n, w, Done(InvalidToken(w.now)));
  }

  lemma {:induction false} VerifyWins(cfg: Config, w: World, t: Id, c: Choice, n: nat)
    requires WorldOk(cfg, w) && t in w.tokens && c.ok && n >= 3
    requires w.tokens[t].consumedAt.None? && w.now < w.tokens[t].expiresAt
    ensures var row := w.tokens[t];
            Alone(cfg, w, VerCheck(t, row), c, n)
            == (w.(tokens := w.tokens[t := row.(consumedAt := Some(w.now))],
                   users := w.users[row.user := w.users[row.user].(
                       verifiedAt := Some(w.now), status := VerifiedStatus(w.users[row.user].status))]),
                Done(Verified(t, row.user, w.now)))
  {
    var row := w.tokens[t];
    var commit := VerCommit(t, row.user, w.users[row.user].status, w.now);
    Next(cfg, w, VerCheck(t, row), c, n, w, VerLoad(t, row));
    Next(cfg, w, VerLoad(t, row), c, n - 1, w, commit);
    var (w', pc') := VerifyTx(w, t, row.user, w.users[row.user].status, w.now);
    Last(cfg, w, commit, c, n - 2, w', pc');
  }

  /** In every reachable state a mailed token that has not expired verifies; its account is verified afterwards. */
  lemma {:induction false} MailedTokenVerifiesAlone(cfg: Config, s: State, m: Mail, c: Choice)
    requires Reachable(cfg, s) && m in s.world.mails && s.world.now < m.expiresAt && c.ok
    ensures var (w, pc) := Alone(cfg, s.world, VerFindToken(m.raw), c, 4);
            && pc.Done? && (pc.outcome.Verified? || pc.outcome.Confirmed?)
            && pc.outcome.user in w.users && w.users[pc.outcome.user].verifiedAt == Some(pc.outcome.at)
  {
    ReachableInv(cfg, s);
    var w := s.world;
    var t :| t in w.tokens && w.tokens[t].hash == cfg.hash(m.raw) && w.tokens[t].expiresAt == m.expiresAt;
    VerifyDecides(cfg, w, m.raw, t, c, 4);
  }

  // --------------------------------------------------- minting and sending

  function Mailed(w: World, raw: string, expiresAt: Time): World {
    w.(mails := w.mails + {Mail(raw, expiresAt)})
  }

  function Cached(cfg: Config, w: World, id: Id, raw: string): World {
    w.(cache := w.cache[id := CacheEntry(raw, w.now + cfg.ttl)])
  }

  function FreshRow(cfg: Config, w: World, user: Id, raw: string): TokenRow {
    TokenRow(user, cfg.hash(raw), w.now, w.now + cfg.ttl, None)
  }

  /** A token row for the user, its raw token cached under the row's id, and the mail with it. */
  function Delivered(cfg: Config, w: World, user: Id, c: Choice): World {
    Mailed(Cached(cfg, InsertToken(w, c.tokenId, FreshRow(cfg, w, user, c.raw)), c.tokenId, c.raw),
           c.raw, w.now + cfg.ttl)
  }

  ghost predicate FreshChoice(cfg: Config, w: World, c: Choice) {
    && c.ok && c.userId !in w.users && c.tokenId !in w.tokens && 0 < cfg.ttl
    && TokenWithHash(w.tokens, cfg.hash(c.raw)).None?
  }

  lemma {:induction false} PublishAlone(
      cfg: Config, w: World, raw: string, expiresAt: Time, next: Outcome, c: Choice, n: nat)
    requires c.ok && n >= 1
    ensures Alone(cfg, w, Publish(raw, expiresAt, next), c, n) == (Mailed(w, raw, expiresAt), Done(next))
  {
    Last(cfg, w, Publish(raw, expiresAt, next), c, n, Mailed(w, raw, expiresAt), Done(next));
  }

  lemma {:induction false} StoreAlone(
      cfg: Config, w: World, id: Id, raw: string, expiresAt: Time, next: Outcome, c: Choice, n: nat)
    requires c.ok && n >= 2
    ensures Alone(cfg, w, StoreRaw(id, raw, expiresAt, next), c, n)
         == (Mailed(Cached(cfg, w, id, raw), raw, expiresAt), Done(next))
  {
    var w1 := Cached(cfg, w, id, raw);
    Next(cfg, w, StoreRaw(id, raw, expiresAt, next), c, n, w1, Publish(raw, expiresAt, next));
    PublishAlone(cfg, w1, raw, expiresAt, next, c, n - 1);
  }

  lemma {:induction false} MintAlone(cfg: Config, w: World, user: Id, c: Choice, n: nat)
    requires user in w.users && FreshChoice(cfg, w, c) && n >= 4
    ensures Alone(cfg, w, SendMint(user), c, n) == (Delivered(cfg, w, user, c), Done(Sent))
  {
    var minted := Minted(c.tokenId, FreshRow(cfg, w, user, c.raw), c.raw);
    Next(cfg, w, SendMint(user), c, n, w, SendCreate(minted));
    var w1 := InsertToken(w, c.tokenId, minted.row);
    var store := StoreRaw(c.tokenId, c.raw, w.now + cfg.ttl, Sent);
    assert Stamped(minted, w.now) == minted.row;
    Next(cfg, w, SendCreate(minted), c, n - 1, w1, store);
    StoreAlone(cfg, w1, c.tokenId, c.raw, w.now + cfg.ttl, Sent, c, n - 2);
  }

  // ----------------------------------------------------------------- resend

  /** The picked row is a live token of the user and none of its live tokens is newer; no row when it has none. */
  lemma PickIsNewest(w: World, user: Id, pick: Option<Id>, t: Id)
    requires ValidPick(w, user, pick)
    requires t in w.tokens && w.tokens[t].user == user && w.tokens[t].consumedAt.None? && w.now < w.tokens[t].expiresAt
    ensures pick.Some? && pick.value in w.tokens && w.tokens[t].createdAt <= w.tokens[pick.value].createdAt
    ensures w.tokens[pick.value].user == user && w.tokens[pick.value].consumedAt.None?
    ensures w.now < w.tokens[pick.value].expiresAt
  {
    assert ActiveToken(w, user, t);
  }

  /** Nothing is mailed to unknown or verified addresses; others get the cached token or a new one. */
  lemma {:induction false} ResendDecides(cfg: Config, w: World, email: string, c: Choice)
    requires WorldOk(cfg, w) && FreshChoice(cfg, w, c)
    requires UserWithEmail(w.users, email).Some? ==> ValidPick(w, UserWithEmail(w.users, email).value, c.pick)
    ensures var (w', pc) := Alone(cfg, w, SendLookup(email), c, 7);
            var owner := UserWithEmail(w.users, email);
            var reused := if c.pick.Some? then CachedRaw(w, c.pick.value) else None;
            && pc == Done(Sent)
            && (w' == w <==> owner.None? || w.users[owner.value].verifiedAt.Some?
                             || (reused.Some? && Mail(reused.value, w.tokens[c.pick.value].expiresAt) in w.mails))
            && (owner.Some? && w.users[owner.value].verifiedAt.None? ==>
                  w' == if reused.Some? then Mailed(w, reused.value, w.tokens[c.pick.value].expiresAt)
                        else Delivered(cfg, w, owner.value, c))
  {
    var owner := UserWithEmail(w.users, email);
    if owner.None? || w.users[owner.value].verifiedAt.Some? {
      Last(cfg, w, SendLookup(email), c, 7, w, Done(Sent));
    } else {
      Next(cfg, w, SendLookup(email), c, 7, w, SendFindActive(owner.value));
      ReuseOrMint(cfg, w, owner.value, c);
    }
  }

  lemma {:induction false} ReuseOrMint(cfg: Config, w: World, user: Id, c: Choice)
    requires user in w.users && FreshChoice(cfg, w, c) && ValidPick(w, user, c.pick)
    ensures var reused := if c.pick.Some? then CachedRaw(w, c.pick.value) else None;
            Alone(cfg, w, SendFindActive(user), c, 6)
            == (if reused.Some? then Mailed(w, reused.value, w.tokens[c.pick.value].expiresAt)
                else Delivered(cfg, w, user, c), Done(Sent))
  {
    if c.pick.None? {
      Next(cfg, w, SendFindActive(user), c, 6, w, SendMint(user));
      MintAlone(cfg, w, user, c, 5);
    } else {
      var token := w.tokens[c.pick.value];
      Next(cfg, w, SendFindActive(user), c, 6, w, SendFromCache(user, c.pick.value, token));
      FromCacheAlone(cfg, w, user, c.pick.value, token, c);
    }
  }

  lemma {:induction false} FromCacheAlone(cfg: Config, w: World, user: Id, t: Id, token: TokenRow, c: Choice)
    requires user in w.users && FreshChoice(cfg, w, c)
    ensures Alone(cfg, w, SendFromCache(user, t, token), c, 5)
            == (if CachedRaw(w, t).Some? then Mailed(w, CachedRaw(w, t).value, token.expiresAt)
                else Delivered(cfg, w, user, c), Done(Sent))
  {
    var raw := CachedRaw(w, t);
    if raw.Some? {
      Next(cfg, w, SendFromCache(user, t, token), c, 5, w, Publish(raw.value, token.expiresAt, Sent));
      PublishAlone(cfg, w, raw.value, token.expiresAt, Sent, c, 4);
    } else {
      Next(cfg, w, SendFromCache(user, t, token), c, 5, w, SendMint(user));
      MintAlone(cfg, w, user, c, 4);
    }
  }

  // --------------------------------------------------------------- register

  /** Registration creates exactly one unverified account with its first token, or nothing at all. */
  lemma {:induction false} RegisterDecides(cfg: Config, w: World, email: string, c: Choice)
    requires WorldOk(cfg, w) && FreshChoice(cfg, w, c)
    ensures var (w', pc) := Alone(cfg, w, RegLookup(email), c, 5);
            var taken := UserWithEmail(w.users, email).Some?;
            var clash := UserWithEmail(w.users, cfg.canonical(email)).Some?;
            && (pc == Done(AlreadyExists) <==> taken)
            && (pc == Done(Failed) <==> !taken && clash)
            && (pc == Done(Registered) <==> !taken && !clash)
            && w' == if taken || clash then w
                     else Delivered(cfg, InsertUser(w, c.userId, UserRow(cfg.canonical(email), Active, None, true)),
                                    c.userId, c)
  {
    if UserWithEmail(w.users, email).Some? {
      Last(cfg, w, RegLookup(email), c, 5, w, Done(AlreadyExists));
    } else {
      var account := UserRow(cfg.canonical(email), Active, None, true);
      var minted := Minted(c.tokenId, FreshRow(cfg, w, c.userId, c.raw), c.raw);
      Next(cfg, w, RegLookup(email), c, 5, w, RegMint(email));
      Next(cfg, w, RegMint(email), c, 4, w, RegCommit(c.userId, account, minted));
      RegCommitAlone(cfg, w, account, minted, c);
    }
  }

  lemma {:induction false} RegCommitAlone(cfg: Config, w: World, account: UserRow, minted: Minted, c: Choice)
    requires FreshChoice(cfg, w, c) && minted == Minted(c.tokenId, FreshRow(cfg, w, c.userId, c.raw), c.raw)
    ensures Alone(cfg, w, RegCommit(c.userId, account, minted), c, 3)
            == if UserWithEmail(w.users, account.email).Some? then (w, Done(Failed))
               else (Delivered(cfg, InsertUser(w, c.userId, account), c.userId, c), Done(Registered))
  {
    var w1 := InsertUser(w, c.userId, account);
    assert Stamped(minted, w.now) == minted.row;
    if UserWithEmail(w.users, account.email).Some? {
      Last(cfg, w, RegCommit(c.userId, account, minted), c, 3, w, Done(Failed));
    } else {
      var w2 := InsertToken(w1, c.tokenId, minted.row);
      var store := StoreRaw(c.tokenId, c.raw, w.now + cfg.ttl, Registered);
      Next(cfg, w, RegCommit(c.userId, account, minted), c, 3, w2, store);
      StoreAlone(cfg, w2, c.tokenId, c.raw, w.now + cfg.ttl, Registered, c, 2);
    }
  }

  // --------------------------------------------------------- OAuth callback

  /** A known identity changes nothing: it signs its account in when that is active, and is locked out otherwise. */
  lemma {:induction false} LinkedSignIn(cfg: Config, w: World, identity: Identity, c: Choice)
    requires WorldOk(cfg, w) && identity.key in w.links
    ensures var user := w.links[identity.key].user;
            && user in w.users
            && Alone(cfg, w, CbFindLink(identity), c, 2)
               == (w, Done(if w.users[user].status == Active then SignedIn(user, identity.key) else AccountLocked))
  {
    assert LinkOk(w, identity.key);
    var user := w.links[identity.key].user;
    Next(cfg, w, CbFindLink(identity), c, 2, w, CbLoginLinked(identity, user));
    Last(cfg, w, CbLoginLinked(identity, user), c, 1, w,
         Done(if w.users[user].status == Active then SignedIn(user, identity.key) else AccountLocked));
  }

  /** An unknown identity whose address has an account is linked only if both sides vouch for the address. */
  lemma {:induction false} UnlinkedWithAccount(cfg: Config, w: World, identity: Identity, owner: Id, c: Choice)
    requires WorldOk(cfg, w) && identity.key !in w.links && HasEmail(w.users, identity.email, owner) && c.ok
    ensures var (w', pc) := Alone(cfg, w, CbFindLink(identity), c, 5);
            var both := identity.emailVerified && IsVerified(w, owner);
            && (pc == Done(AlreadyExists) <==> !both)
            && (pc == Done(SignedIn(owner, identity.key)) <==> both && w.users[owner].status == Active)
            && (pc == Done(AccountLocked) <==> both && w.users[owner].status != Active)
            && w' == if both then InsertLink(w, identity.key, LinkRow(owner, identity.email, AutoLinked(true))) else w
  {
    assert UserWithEmail(w.users, identity.email) == Some(owner);
    var account := w.users[owner];
    Next(cfg, w, CbFindLink(identity), c, 5, w, CbFindEmail(identity));
    if identity.emailVerified && IsVerified(w, owner) {
      Next(cfg, w, CbFindEmail(identity), c, 4, w, CbLink(identity, owner, account));
      var (w1, pc1) := LinkTx(w, identity, owner, account);
      Last(cfg, w, CbLink(identity, owner, account), c, 3, w1, pc1);
    } else {
      Last(cfg, w, CbFindEmail(identity), c, 4, w, Done(AlreadyExists));
    }
  }

  /**
   An unknown identity with an unknown address gets a new account and link. It
   fails when the stored, canonical form of the address is taken, which the
   lookup of the raw address does not see.
   */
  lemma {:induction false} UnlinkedWithoutAccount(cfg: Config, w: World, identity: Identity, c: Choice)
    requires WorldOk(cfg, w) && identity.key !in w.links && UserWithEmail(w.users, identity.email).None?
    requires FreshChoice(cfg, w, c)
    ensures var (w', pc) := Alone(cfg, w, CbFindLink(identity), c, 6);
            var canonical := cfg.canonical(identity.email);
            var clash := UserWithEmail(w.users, canonical).Some?;
            var vouched := identity.emailVerified;
            var joined := Joined(w, identity, c.userId, canonical);
            && (pc == Done(Failed) <==> clash) && (pc == Done(SignedIn(c.userId, identity.key)) <==> !clash)
            && w' == if clash then w else if vouched then joined else Delivered(cfg, joined, c.userId, c)
  {
    Next(cfg, w, CbFindLink(identity), c, 6, w, CbFindEmail(identity));
    NewAccountAlone(cfg, w, identity, c);
  }

  lemma {:induction false} NewAccountAlone(cfg: Config, w: World, identity: Identity, c: Choice)
    requires identity.key !in w.links && UserWithEmail(w.users, identity.email).None? && FreshChoice(cfg, w, c)
    ensures var canonical := cfg.canonical(identity.email);
            var joined := Joined(w, identity, c.userId, canonical);
            Alone(cfg, w, CbFindEmail(identity), c, 5)
            == if UserWithEmail(w.users, canonical).Some? then (w, Done(Failed))
               else (if identity.emailVerified then joined else Delivered(cfg, joined, c.userId, c),
                     Done(SignedIn(c.userId, identity.key)))
  {
    var account := UserRow(cfg.canonical(identity.email), Active,
                           if identity.emailVerified then Some(w.now) else None, false);
    var minted := if identity.emailVerified then None
                  else Some(Minted(c.tokenId, FreshRow(cfg, w, c.userId, c.raw), c.raw));
    Next(cfg, w, CbFindEmail(identity), c, 5, w, CbMint(identity));
    Next(cfg, w, CbMint(identity), c, 4, w, CbRegister(identity, c.userId, account, minted));
    CbRegisterAlone(cfg, w, identity, account, minted, c);
  }

  /** The new account, and its link to the identity. */
  function Joined(w: World, identity: Identity, user: Id, email: string): World {
    var verifiedAt := if identity.emailVerified then Some(w.now) else None;
    InsertLink(InsertUser(w, user, UserRow(email, Active, verifiedAt, false)),
               identity.key, LinkRow(user, identity.email, WithAccount))
  }

  lemma {:induction false} CbRegisterAlone(
      cfg: Config, w: World, identity: Identity, account: UserRow, minted: Option<Minted>, c: Choice)
    requires FreshChoice(cfg, w, c) && identity.key !in w.links
    requires account == UserRow(account.email, Active, if identity.emailVerified then Some(w.now) else None, false)
    requires minted == if identity.emailVerified then None
                       else Some(Minted(c.tokenId, FreshRow(cfg, w, c.userId, c.raw), c.raw))
    ensures var joined := Joined(w, identity, c.userId, account.email);
            Alone(cfg, w, CbRegister(identity, c.userId, account, minted), c, 3)
            == if UserWithEmail(w.users, account.email).Some? then (w, Done(Failed))
               else (if identity.emailVerified then joined else Delivered(cfg, joined, c.userId, c),
                     Done(SignedIn(c.userId, identity.key)))
  {
    var pc := CbRegister(identity, c.userId, account, minted);
    var joined := Joined(w, identity, c.userId, account.email);
    var (w1, pc1) := CallbackTx(w, identity, c.userId, account, minted);
    CallbackTxAlone(cfg, w, identity, account, minted, c);
    if pc1.Done? {
      Last(cfg, w, pc, c, 3, w1, pc1);
    } else {
      Next(cfg, w, pc, c, 3, w1, pc1);
      StoreAlone(cfg, w1, c.tokenId, c.raw, w.now + cfg.ttl, SignedIn(c.userId, identity.key), c, 2);
    }
  }

  lemma CallbackTxAlone(cfg: Config, w: World, identity: Identity, account: UserRow, minted: Option<Minted>, c: Choice)
    requires FreshChoice(cfg, w, c) && identity.key !in w.links
    requires account == UserRow(account.email, Active, if identity.emailVerified then Some(w.now) else None, false)
    requires minted == if identity.emailVerified then None
                       else Some(Minted(c.tokenId, FreshRow(cfg, w, c.userId, c.raw), c.raw))
    ensures var joined := Joined(w, identity, c.userId, account.email);
            CallbackTx(w, identity, c.userId, account, minted)
            == if UserWithEmail(w.users, account.email).Some? then (w, Done(Failed))
               else if identity.emailVerified then (joined, Done(SignedIn(c.userId, identity.key)))
               else (InsertToken(joined, c.tokenId, FreshRow(cfg, w, c.userId, c.raw)),
                     StoreRaw(c.tokenId, c.raw, w.now + cfg.ttl, SignedIn(c.userId, identity.key)))
  {
    if minted.Some? { assert Stamped(minted.value, w.now) == minted.value.row; }
  }
}
