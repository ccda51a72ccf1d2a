/** The guarantees of the account protocol, over every run and for undisturbed calls. */
module AccountResults {
  import opened Prelude
  import opened AccountProtocol
  import opened AccountTheorems

  // --------------------------------------------------------------- excuses

  /** The environment made the call fail: it crashed, or one of its statements was not accepted. */
  predicate Breaks(e: Event, call: Id) {
    e == Crash(call) || (e.Move? && e.call == call && !e.choice.ok)
  }

  predicate Broken(run: seq<Event>, call: Id) {
    exists k :: 0 <= k < |run| && Breaks(run[k], call)
  }

  lemma BrokenLater(run: seq<Event>, call: Id)
    requires run != []
    ensures Broken(run, call) <==> (Broken(run[..|run| - 1], call) || Breaks(run[|run| - 1], call))
  {
    var shorter := run[..|run| - 1];
    if Broken(run, call) {
      var k :| 0 <= k < |run| && Breaks(run[k], call);
      assert k < |shorter| ==> shorter[k] == run[k];
    }
    if Broken(shorter, call) {
      var k :| 0 <= k < |shorter| && Breaks(shorter[k], call);
      assert run[k] == shorter[k];
    }
  }

  // ----------------------------------------------- published tokens verify

  /** Where a verification of a published token can be. */
  ghost predicate OnPublishedPath(pc: Pc, raw: string, expiresAt: Time, broken: bool) {
    match pc
    case VerFindToken(r) => r == raw
    case VerCheck(_, token) => token.expiresAt == expiresAt
    case VerLoad(_, _) => true
    case VerCommit(_, _, _, _) => true
    case VerReread(_) => true
    case Done(outcome) =>
      || outcome.Verified? || outcome.Confirmed?
      || (outcome.InvalidToken? && expiresAt <= outcome.at)
      || (outcome.Failed? && broken)
    case _ => false
  }

  lemma PublishedPathStep(cfg: Config, w: World, pc: Pc, c: Choice, raw: string, expiresAt: Time, broken: bool)
    requires WorldOk(cfg, w) && PcOk(cfg, w, pc) && Backed(cfg, w, raw, expiresAt)
    requires OnPublishedPath(pc, raw, expiresAt, broken)
    ensures OnPublishedPath(Advance(cfg, w, pc, c).1, raw, expiresAt, broken || !c.ok)
  {
    if pc.VerFindToken? {
      var t :| t in w.tokens && w.tokens[t].hash == cfg.hash(raw) && w.tokens[t].expiresAt == expiresAt;
      assert HasHash(w.tokens, cfg.hash(raw), t);
    }
  }

  /**
   A raw token once mailed is never refused before its expiry: whatever other
   verifications and resends do, a call presenting it verifies, confirms, or
   was broken by the environment.
   */
  lemma {:induction false} MailedTokensVerify(cfg: Config, s: State, run: seq<Event>, m: Mail, call: Id)
    requires Inv(cfg, s) && m in s.world.mails && call in s.calls && s.calls[call] == VerFindToken(m.raw)
    ensures var s' := Exec(cfg, s, run);
            call in s'.calls && OnPublishedPath(s'.calls[call], m.raw, m.expiresAt, Broken(run, call))
    decreases |run|
  {
    if run != [] {
      var shorter := run[..|run| - 1];
      MailedTokensVerify(cfg, s, shorter, m, call);
      RunKeeps(cfg, s, shorter);
      BrokenLater(run, call);
      MailedTokenStep(cfg, Exec(cfg, s, shorter), run[|run| - 1], m, call, Broken(shorter, call));
    }
  }

  lemma MailedTokenStep(cfg: Config, s: State, e: Event, m: Mail, call: Id, broken: bool)
    requires Inv(cfg, s) && m in s.world.mails && call in s.calls
    requires OnPublishedPath(s.calls[call], m.raw, m.expiresAt, broken)
    ensures var s' := Step(cfg, s, e);
            call in s'.calls && OnPublishedPath(s'.calls[call], m.raw, m.expiresAt, broken || Breaks(e, call))
  {
    if e.Move? && e.call == call {
      assert PcOk(cfg, s.world, s.calls[call]);
      PublishedPathStep(cfg, s.world, s.calls[call], e.choice, m.raw, m.expiresAt, broken);
    }
  }

  // ------------------------------------------------------ verified accounts

  /** No call dereferences a missing verification time, and consumed tokens have verified, non-PENDING owners. */
  lemma ConsumedMeansVerified(cfg: Config, s: State)
    requires Reachable(cfg, s)
    ensures forall c :: c in s.calls ==> s.calls[c] != Done(NilDereference)
    ensures forall t :: t in s.world.tokens && s.world.tokens[t].consumedAt.Some? ==>
                          IsVerified(s.world, s.world.tokens[t].user)
    ensures forall u :: IsVerified(s.world, u) ==> s.world.users[u].status != Pending
  {
    ReachableInv(cfg, s);
    forall c | c in s.calls ensures s.calls[c] != Done(NilDereference) {
      assert PcOk(cfg, s.world, s.calls[c]);
    }
  }

  /** Each token verifies an account at most once, however many calls present it. */
  lemma OneWriterPerToken(cfg: Config, s: State, a: Id, b: Id, t: Id)
    requires Reachable(cfg, s) && a in s.calls && b in s.calls && Won(s.calls[a], t) && Won(s.calls[b], t)
    ensures a == b && t in s.world.tokens && s.world.tokens[t].consumedAt.Some?
  {
    ReachableInv(cfg, s);
    assert PcOk(cfg, s.world, s.calls[a]);
  }

  predicate Consumed(w: World, token: Id) {
    token in w.tokens && w.tokens[token].consumedAt.Some?
  }

  /** Where a call that comes to commit a token already consumed can be. */
  predicate OnConfirmingPath(pc: Pc, token: Id, user: Id, broken: bool) {
    match pc
    case VerCommit(t, u, _, _) => t == token && u == user
    case VerReread(u) => u == user
    case Done(outcome) => (outcome.Confirmed? && outcome.user == user) || (outcome.Failed? && broken)
    case _ => false
  }

  /** The account's stored time at some moment of the run. */
  ghost predicate WasStored(cfg: Config, s: State, run: seq<Event>, user: Id, at: Time) {
    exists k :: 0 <= k <= |run| && StoredAt(Exec(cfg, s, run[..k]).world, user, at)
  }

  predicate StoredAt(w: World, user: Id, at: Time) {
    user in w.users && w.users[user].verifiedAt == Some(at)
  }

  /**
   The loser of the race never writes: over every run it confirms, and the
   time it answers is one the account had during the run.
   */
  lemma {:induction false} LosersConfirm(cfg: Config, s: State, run: seq<Event>, call: Id)
    requires Inv(cfg, s) && call in s.calls && s.calls[call].VerCommit? && Consumed(s.world, s.calls[call].tokenId)
    ensures var s' := Exec(cfg, s, run);
            var user := s.calls[call].user;
            && call in s'.calls
            && OnConfirmingPath(s'.calls[call], s.calls[call].tokenId, user, Broken(run, call))
            && (s'.calls[call].Done? && s'.calls[call].outcome.Confirmed? ==>
                  WasStored(cfg, s, run, user, s'.calls[call].outcome.at))
    decreases |run|
  {
    if run != [] {
      var shorter := run[..|run| - 1];
      var before := Exec(cfg, s, shorter);
      LosersConfirm(cfg, s, shorter, call);
      RunKeeps(cfg, s, shorter);
      BrokenLater(run, call);
      ConfirmingStep(cfg, before, run[|run| - 1], call, s.calls[call].tokenId, s.calls[call].user,
                     Broken(shorter, call));
      StoredStays(cfg, s, run, s.calls[call].user);
    }
  }

  lemma ConfirmingStep(cfg: Config, s: State, e: Event, call: Id, token: Id, user: Id, broken: bool)
    requires Inv(cfg, s) && call in s.calls && Consumed(s.world, token)
    requires OnConfirmingPath(s.calls[call], token, user, broken)
    ensures var s' := Step(cfg, s, e);
            && call in s'.calls && OnConfirmingPath(s'.calls[call], token, user, broken || Breaks(e, call))
            && (s'.calls[call].Done? && s'.calls[call].outcome.Confirmed? ==>
                  s'.calls[call] == s.calls[call] || StoredAt(s.world, user, s'.calls[call].outcome.at))
  {
    assert PcOk(cfg, s.world, s.calls[call]);
  }

  lemma {:induction false} StoredStays(cfg: Config, s: State, run: seq<Event>, user: Id)
    requires run != []
    ensures var shorter := run[..|run| - 1];
            forall at :: (WasStored(cfg, s, shorter, user, at) || StoredAt(Exec(cfg, s, shorter).world, user, at))
                         ==> WasStored(cfg, s, run, user, at)
  {
    var shorter := run[..|run| - 1];
    forall at | WasStored(cfg, s, shorter, user, at) ensures WasStored(cfg, s, run, user, at) {
      var k :| 0 <= k <= |shorter| && StoredAt(Exec(cfg, s, shorter[..k]).world, user, at);
      assert run[..k] == shorter[..k];
    }
  }

  /** Accounts stay verified, links keep their account, mails stay sent, over every run. */
  lemma {:induction false} FactsAreStable(cfg: Config, s: State, run: seq<Event>)
    requires Reachable(cfg, s)
    ensures Evolves(s.world, Exec(cfg, s, run).world)
  {
    ReachableInv(cfg, s);
    RunKeeps(cfg, s, run);
  }

  /** The statement that rewrites a verification time: a winning commit at another time. */
  ghost predicate Restamps(w: World, pc: Pc, c: Choice, user: Id)
    requires user in w.users
  {
    && pc.VerCommit? && c.ok && pc.user == user
    && pc.tokenId in w.tokens && w.tokens[pc.tokenId].consumedAt.None?
    && Some(pc.at) != w.users[user].verifiedAt
  }

  lemma RestampedByStatement(cfg: Config, w: World, pc: Pc, c: Choice, user: Id)
    requires user in w.users
    ensures user in Advance(cfg, w, pc, c).0.users
    ensures Advance(cfg, w, pc, c).0.users[user].verifiedAt != w.users[user].verifiedAt <==> Restamps(w, pc, c, user)
  {
  }

  // ------------------------------------------------------------------ links

  /** Every link was created with its account, or joins a vouched address to the verified account of that address. */
  lemma LinksAreJustified(cfg: Config, s: State, k: LinkKey)
    requires Reachable(cfg, s) && k in s.world.links
    ensures s.world.links[k].user in s.world.users
    ensures match s.world.links[k].origin
            case WithAccount => !s.world.users[s.world.links[k].user].hasPassword
            case AutoLinked(asserted) =>
              && asserted && IsVerified(s.world, s.world.links[k].user)
              && s.world.users[s.world.links[k].user].email == s.world.links[k].email
  {
    ReachableInv(cfg, s);
    assert LinkOk(s.world, k);
  }

  /** A callback creates account and link together: no passwordless account is ever without its link. */
  lemma NoOrphanAccounts(cfg: Config, s: State, user: Id)
    requires Reachable(cfg, s) && user in s.world.users && !s.world.users[user].hasPassword
    ensures exists k :: k in s.world.links && s.world.links[k].user == user && s.world.links[k].origin.WithAccount?
  {
    ReachableInv(cfg, s);
    assert Linked(s.world, user);
  }

  // ------------------------------------------------------ one account each

  /** What a callback does is done for one identity, from its first statement to its answer. */
  predicate OnBehalfOf(pc: Pc, key: LinkKey) {
    match pc
    case CbFindLink(identity) => identity.key == key
    case CbLoginLinked(identity, _) => identity.key == key
    case CbFindEmail(identity) => identity.key == key
    case CbMint(identity) => identity.key == key
    case CbRegister(identity, _, _, _) => identity.key == key
    case CbLink(identity, _, _) => identity.key == key
    case StoreRaw(_, _, _, next) => next.SignedIn? && next.via == key
    case Publish(_, _, next) => next.SignedIn? && next.via == key
    case Done(outcome) => outcome.SignedIn? ==> outcome.via == key
    case _ => false
  }

  lemma {:induction false} CallbackKeepsIdentity(cfg: Config, s: State, run: seq<Event>, call: Id, key: LinkKey)
    requires call in s.calls && OnBehalfOf(s.calls[call], key)
    ensures var s' := Exec(cfg, s, run); call in s'.calls && OnBehalfOf(s'.calls[call], key)
    decreases |run|
  {
    if run != [] {
      CallbackKeepsIdentity(cfg, s, run[..|run| - 1], call, key);
      CallbackStepKeepsIdentity(cfg, Exec(cfg, s, run[..|run| - 1]), run[|run| - 1], call, key);
    }
  }

  lemma CallbackStepKeepsIdentity(cfg: Config, s: State, e: Event, call: Id, key: LinkKey)
    requires call in s.calls && OnBehalfOf(s.calls[call], key)
    ensures var s' := Step(cfg, s, e); call in s'.calls && OnBehalfOf(s'.calls[call], key)
  {
  }

  /**
   All callbacks of one provider identity that sign in, however they overlap
   and whenever they start, sign in to the same account: the one its link names.
   */
  lemma {:induction false} OneAccountPerIdentity(
      cfg: Config, s: State, first: seq<Event>, second: seq<Event>, a: Id, b: Id, i: Identity, j: Identity)
    requires Reachable(cfg, s) && a in s.calls && s.calls[a] == CbFindLink(i) && i.key == j.key
    requires var t := Exec(cfg, s, first); b in t.calls && t.calls[b] == CbFindLink(j)
    ensures var s' := Exec(cfg, Exec(cfg, s, first), second);
            && a in s'.calls && b in s'.calls
            && (s'.calls[a].Done? && s'.calls[a].outcome.SignedIn? ==>
                  LinkedTo(s'.world, i.key, s'.calls[a].outcome.user))
            && ((s'.calls[a].Done? && s'.calls[a].outcome.SignedIn?
                 && s'.calls[b].Done? && s'.calls[b].outcome.SignedIn?) ==>
                  s'.calls[a].outcome.user == s'.calls[b].outcome.user)
  {
    var t := Exec(cfg, s, first);
    var s' := Exec(cfg, t, second);
    ReachableInv(cfg, s);
    RunKeeps(cfg, s, first);
    RunKeeps(cfg, t, second);
    CallbackKeepsIdentity(cfg, s, first, a, i.key);
    CallbackKeepsIdentity(cfg, t, second, a, i.key);
    CallbackKeepsIdentity(cfg, t, second, b, i.key);
    assert PcOk(cfg, s'.world, s'.calls[a]) && PcOk(cfg, s'.world, s'.calls[b]);
  }
}
