/**
 When the time of an account's verification is final: a condition on the
 tables and the calls under way that decides it, in both directions.
 */
module VerificationTimes {
  import opened Prelude
  import opened AccountProtocol
  import opened AccountTheorems
  import opened AccountResults
  import opened UndisturbedCalls

  /** The call may still add a token for the account. */
  ghost predicate Mints(w: World, pc: Pc, user: Id) {
    match pc
    case SendFindActive(u) => u == user
    case SendFromCache(u, _, _) => u == user
    case SendMint(u) => u == user
    case SendCreate(m) => m.row.user == user && TokenInsertable(w, m.id, Stamped(m, w.now))
    case _ => false
  }

  /** The call is past its expiry check and would write a time the account does not have. */
  ghost predicate Redeems(w: World, pc: Pc, user: Id)
    requires user in w.users
  {
    match pc
    case VerLoad(t, row) => row.user == user && t in w.tokens && w.tokens[t].consumedAt.None?
    case VerCommit(t, u, _, at) =>
      u == user && t in w.tokens && w.tokens[t].consumedAt.None? && Some(at) != w.users[user].verifiedAt
    case _ => false
  }

  /** No live token, nobody minting one, nobody about to redeem one. */
  ghost predicate Settled(s: State, user: Id)
    requires user in s.world.users
  {
    && (forall t :: !ActiveToken(s.world, user, t))
    && (forall c :: c in s.calls ==> !Mints(s.world, s.calls[c], user) && !Redeems(s.world, s.calls[c], user))
  }

  // -------------------------------------------------- settled means final

  ghost predicate SameStamp(w: World, w': World, user: Id) {
    user in w.users && user in w'.users && w'.users[user].verifiedAt == w.users[user].verifiedAt
  }

  /** Others' statements make no new minter or redeemer of a call that stands still. */
  lemma BystanderStays(w: World, w': World, pc: Pc, user: Id)
    requires Evolves(w, w') && SameStamp(w, w', user)
    requires pc.VerLoad? ==> pc.tokenId in w.tokens
    requires pc.VerCommit? ==> pc.tokenId in w.tokens
    ensures Mints(w', pc, user) ==> Mints(w, pc, user)
    ensures Redeems(w', pc, user) ==> Redeems(w, pc, user)
  {
    if pc.SendCreate? && Mints(w', pc, user) {
      forall t ensures !HasHash(w.tokens, pc.minted.row.hash, t) {
        if t in w.tokens {
          assert TokenEvolves(w.tokens[t], w'.tokens[t]);
          assert !HasHash(w'.tokens, pc.minted.row.hash, t);
        }
      }
    }
    if pc.VerLoad? || pc.VerCommit? { assert TokenEvolves(w.tokens[pc.tokenId], w'.tokens[pc.tokenId]); }
  }

  /** Where the verification of a settled account goes, statement by statement. */
  lemma VerifierStaysSettled(cfg: Config, w: World, pc: Pc, c: Choice, user: Id)
    requires WorldOk(cfg, w) && PcOk(cfg, w, pc) && IsVerified(w, user) && (forall t :: !ActiveToken(w, user, t))
    requires pc.VerFindToken? || pc.VerCheck? || pc.VerReread? || pc.VerLoad? || pc.VerCommit?
    requires !Redeems(w, pc, user)
    ensures var (w', pc') := Advance(cfg, w, pc, c);
            && SameStamp(w, w', user) && (forall t :: !ActiveToken(w', user, t))
            && !Mints(w', pc', user) && !Redeems(w', pc', user)
  {
    var w' := Advance(cfg, w, pc, c).0;
    if pc.VerCheck? {
      assert !ActiveToken(w, user, pc.tokenId);
    }
    forall t ensures !ActiveToken(w', user, t) {
      assert !ActiveToken(w, user, t);
    }
  }

  lemma ReaderStaysSettled(cfg: Config, w: World, pc: Pc, c: Choice, user: Id)
    requires WorldOk(cfg, w) && IsVerified(w, user) && !Writes(pc)
    requires !(pc.VerFindToken? || pc.VerCheck? || pc.VerReread? || pc.VerLoad?) && !Mints(w, pc, user)
    ensures var (w', pc') := Advance(cfg, w, pc, c); w' == w && !Mints(w, pc', user) && !Redeems(w, pc', user)
  {
    if pc.SendLookup? && UserWithEmail(w.users, pc.email).Some? {
      assert UserWithEmail(w.users, pc.email).value == user ==> w.users[user].verifiedAt.Some?;
    }
  }

  /** A token of another account, or no token: nothing becomes active for this one. */
  lemma WriterStaysSettled(cfg: Config, w: World, pc: Pc, c: Choice, user: Id)
    requires WorldOk(cfg, w) && PcOk(cfg, w, pc) && IsVerified(w, user) && (forall t :: !ActiveToken(w, user, t))
    requires Writes(pc) && !pc.VerCommit? && !Mints(w, pc, user)
    ensures var (w', pc') := Advance(cfg, w, pc, c);
            && SameStamp(w, w', user) && (forall t :: !ActiveToken(w', user, t))
            && !Mints(w', pc', user) && !Redeems(w', pc', user)
  {
    var (w', pc') := Advance(cfg, w, pc, c);
    RestampedByStatement(cfg, w, pc, c, user);
    forall t ensures !ActiveToken(w', user, t) {
      assert !ActiveToken(w, user, t);
    }
  }

  lemma AdvanceStaysSettled(cfg: Config, w: World, pc: Pc, c: Choice, user: Id)
    requires WorldOk(cfg, w) && PcOk(cfg, w, pc) && IsVerified(w, user) && (forall t :: !ActiveToken(w, user, t))
    requires !Mints(w, pc, user) && !Redeems(w, pc, user)
    ensures var (w', pc') := Advance(cfg, w, pc, c);
            && SameStamp(w, w', user) && (forall t :: !ActiveToken(w', user, t))
            && !Mints(w', pc', user) && !Redeems(w', pc', user)
  {
    if pc.VerFindToken? || pc.VerCheck? || pc.VerReread? || pc.VerLoad? || pc.VerCommit? {
      VerifierStaysSettled(cfg, w, pc, c, user);
    } else if Writes(pc) {
      WriterStaysSettled(cfg, w, pc, c, user);
    } else {
      ReaderStaysSettled(cfg, w, pc, c, user);
    }
  }

  lemma CallsStaySettled(cfg: Config, s: State, s': State, user: Id, moved: Id)
    requires Inv(cfg, s) && Evolves(s.world, s'.world) && SameStamp(s.world, s'.world, user) && Settled(s, user)
    requires forall t :: !ActiveToken(s'.world, user, t)
    requires forall c :: c in s'.calls && c != moved ==> c in s.calls && s'.calls[c] == s.calls[c]
    requires moved in s'.calls ==> !Mints(s'.world, s'.calls[moved], user) && !Redeems(s'.world, s'.calls[moved], user)
    ensures Settled(s', user)
  {
    forall c | c in s'.calls && c != moved
      ensures !Mints(s'.world, s'.calls[c], user) && !Redeems(s'.world, s'.calls[c], user)
    {
      assert PcOk(cfg, s.world, s.calls[c]);
      BystanderStays(s.world, s'.world, s.calls[c], user);
    }
  }

  lemma SettledStep(cfg: Config, s: State, e: Event, user: Id)
    requires Inv(cfg, s) && IsVerified(s.world, user) && Settled(s, user)
    ensures var s' := Step(cfg, s, e); SameStamp(s.world, s'.world, user) && Settled(s', user)
  {
    var s' := Step(cfg, s, e);
    if e.Move? && e.call in s.calls {
      MoveStaysSettled(cfg, s, e.call, e.choice, user);
    } else {
      StepKeeps(cfg, s, e);
      QuietWorld(cfg, s, e, user);
      var nobody := UnusedId(s'.calls.Keys);
      CallsStaySettled(cfg, s, s', user, if e.Start? || e.Crash? then e.call else nobody);
    }
  }

  lemma MoveStaysSettled(cfg: Config, s: State, call: Id, c: Choice, user: Id)
    requires Inv(cfg, s) && IsVerified(s.world, user) && Settled(s, user) && call in s.calls
    ensures var (w, pc) := Advance(cfg, s.world, s.calls[call], c);
            SameStamp(s.world, w, user) && Settled(State(w, s.calls[call := pc]), user)
  {
    var (w, pc) := Advance(cfg, s.world, s.calls[call], c);
    assert PcOk(cfg, s.world, s.calls[call]);
    AdvanceKeeps(cfg, s.world, s.calls[call], c);
    AdvanceStaysSettled(cfg, s.world, s.calls[call], c, user);
    CallsStaySettled(cfg, s, State(w, s.calls[call := pc]), user, call);
  }

  /** Arrivals, crashes, time and operators neither stamp the account nor revive a token. */
  lemma QuietWorld(cfg: Config, s: State, e: Event, user: Id)
    requires user in s.world.users && (forall t :: !ActiveToken(s.world, user, t))
    requires !(e.Move? && e.call in s.calls)
    ensures var s' := Step(cfg, s, e);
            && SameStamp(s.world, s'.world, user) && (forall t :: !ActiveToken(s'.world, user, t))
            && (e.Start? || e.Crash? ==> e.call in s'.calls ==>
                  s'.calls[e.call] == Done(Failed) || Entry(s'.calls[e.call]) || s' == s)
            && (!e.Start? && !e.Crash? ==> s'.calls == s.calls)
  {
    var s' := Step(cfg, s, e);
    forall t ensures !ActiveToken(s'.world, user, t) {
      assert !ActiveToken(s.world, user, t);
    }
  }

  /** Once settled, the verification time never changes again, whatever runs. */
  lemma {:induction false} SettledTimeIsFinal(cfg: Config, s: State, run: seq<Event>, user: Id)
    requires Inv(cfg, s) && IsVerified(s.world, user) && Settled(s, user)
    ensures var s' := Exec(cfg, s, run); SameStamp(s.world, s'.world, user) && Settled(s', user)
    decreases |run|
  {
    if run != [] {
      var before := Exec(cfg, s, run[..|run| - 1]);
      SettledTimeIsFinal(cfg, s, run[..|run| - 1], user);
      RunKeeps(cfg, s, run[..|run| - 1]);
      SettledStep(cfg, before, run[|run| - 1], user);
    }
  }

  // --------------------------------------------- unsettled can still change

  /** Some continuation gives the account another time than t0. */
  ghost predicate CanRestamp(cfg: Config, s: State, user: Id, t0: Option<Time>) {
    exists run: seq<Event> :: RestampsTo(cfg, s, run, user, t0)
  }

  ghost predicate RestampsTo(cfg: Config, s: State, run: seq<Event>, user: Id, t0: Option<Time>) {
    var w := Exec(cfg, s, run).world;
    user in w.users && w.users[user].verifiedAt != t0
  }

  lemma AfterStep(cfg: Config, s: State, e: Event, user: Id, t0: Option<Time>)
    requires CanRestamp(cfg, Step(cfg, s, e), user, t0)
    ensures CanRestamp(cfg, s, user, t0)
  {
    var run: seq<Event> :| RestampsTo(cfg, Step(cfg, s, e), run, user, t0);
    ExecConcat(cfg, s, [e], run);
    assert [e][..0] == [] && Exec(cfg, s, [e]) == Step(cfg, s, e);
    assert RestampsTo(cfg, s, [e] + run, user, t0);
  }

  lemma AlreadyStamped(cfg: Config, s: State, user: Id, t0: Option<Time>)
    requires user in s.world.users && s.world.users[user].verifiedAt != t0
    ensures CanRestamp(cfg, s, user, t0)
  {
    assert Exec(cfg, s, []) == s;
    assert RestampsTo(cfg, s, [], user, t0);
  }

  /** Every stored hash is the hash of some raw token. */
  ghost predicate HashKnown(cfg: Config, hash: string) {
    exists raw :: cfg.hash(raw) == hash
  }

  ghost predicate Good(cfg: Config, s: State) {
    Inv(cfg, s) && forall t :: t in s.world.tokens ==> HashKnown(cfg, s.world.tokens[t].hash)
  }

  lemma AdvanceKnowsHashes(cfg: Config, w: World, pc: Pc, c: Choice)
    requires PcOk(cfg, w, pc) && forall t :: t in w.tokens ==> HashKnown(cfg, w.tokens[t].hash)
    ensures var w' := Advance(cfg, w, pc, c).0; forall t :: t in w'.tokens ==> HashKnown(cfg, w'.tokens[t].hash)
  {
    var w' := Advance(cfg, w, pc, c).0;
    if w'.tokens != w.tokens {
      if pc.RegCommit? || pc.SendCreate? { assert HashKnown(cfg, pc.minted.row.hash); }
      if pc.CbRegister? && pc.verification.Some? { assert HashKnown(cfg, pc.verification.value.row.hash); }
    }
  }

  lemma GoodStep(cfg: Config, s: State, e: Event)
    requires Good(cfg, s)
    ensures Good(cfg, Step(cfg, s, e))
  {
    StepKeeps(cfg, s, e);
    if e.Move? && e.call in s.calls {
      assert PcOk(cfg, s.world, s.calls[e.call]);
      AdvanceKnowsHashes(cfg, s.world, s.calls[e.call], e.choice);
    }
  }

  lemma {:induction false} ReachableGood(cfg: Config, start: Time, users: map<Id, UserRow>, run: seq<Event>)
    requires Legacy(users)
    ensures Good(cfg, Exec(cfg, Init(start, users), run))
    decreases |run|
  {
    if run == [] {
      RunKeeps(cfg, Init(start, users), []);
    } else {
      ReachableGood(cfg, start, users, run[..|run| - 1]);
      GoodStep(cfg, Exec(cfg, Init(start, users), run[..|run| - 1]), run[|run| - 1]);
    }
  }

  /** A statement of the call, taken. */
  lemma Took(cfg: Config, s: State, call: Id, c: Choice, w: World, pc: Pc, user: Id, t0: Option<Time>)
    requires call in s.calls && Advance(cfg, s.world, s.calls[call], c) == (w, pc)
    requires CanRestamp(cfg, State(w, s.calls[call := pc]), user, t0)
    ensures CanRestamp(cfg, s, user, t0)
  {
    AfterStep(cfg, s, Move(call, c), user, t0);
  }

  const FINE := Choice(0, 0, "", None, true)

  lemma FromCommit(cfg: Config, s: State, call: Id, user: Id, t0: Option<Time>)
    requires call in s.calls && s.calls[call].VerCommit? && s.calls[call].user == user && user in s.world.users
    requires s.calls[call].tokenId in s.world.tokens && s.world.tokens[s.calls[call].tokenId].consumedAt.None?
    requires Some(s.calls[call].at) != t0
    ensures CanRestamp(cfg, s, user, t0)
  {
    var pc := s.calls[call];
    var (w', pc') := VerifyTx(s.world, pc.tokenId, user, pc.status, pc.at);
    AlreadyStamped(cfg, State(w', s.calls[call := pc']), user, t0);
    Took(cfg, s, call, FINE, w', pc', user, t0);
  }

  /** Loading does not look at the clock again: waiting a moment picks another time. */
  lemma FromLoad(cfg: Config, s: State, call: Id, user: Id, t0: Option<Time>)
    requires call in s.calls && s.calls[call].VerLoad? && s.calls[call].token.user == user && user in s.world.users
    requires s.calls[call].tokenId in s.world.tokens && s.world.tokens[s.calls[call].tokenId].consumedAt.None?
    ensures CanRestamp(cfg, s, user, t0)
  {
    var pc := s.calls[call];
    var wait := if Some(s.world.now) == t0 then 1 else 0;
    var later := s.(world := s.world.(now := s.world.now + wait));
    var commit := VerCommit(pc.tokenId, user, s.world.users[user].status, later.world.now);
    FromCommit(cfg, State(later.world, s.calls[call := commit]), call, user, t0);
    Took(cfg, later, call, FINE, later.world, commit, user, t0);
    AfterStep(cfg, s, Tick(wait), user, t0);
  }

  /** A live token is redeemed by a new call that presents its raw form. */
  lemma FromToken(cfg: Config, s: State, user: Id, t: Id, t0: Option<Time>)
    requires Good(cfg, s) && ActiveToken(s.world, user, t)
    ensures CanRestamp(cfg, s, user, t0)
  {
    var row := s.world.tokens[t];
    assert HashKnown(cfg, row.hash);
    var raw :| cfg.hash(raw) == row.hash;
    var call := UnusedId(s.calls.Keys);
    assert HasHash(s.world.tokens, cfg.hash(raw), t);
    FromFind(cfg, s.(calls := s.calls[call := VerFindToken(raw)]), call, user, t, t0);
    AfterStep(cfg, s, Start(call, VerFindToken(raw)), user, t0);
  }

  lemma FromFind(cfg: Config, s: State, call: Id, user: Id, t: Id, t0: Option<Time>)
    requires TokensOk(s.world) && ActiveToken(s.world, user, t)
    requires call in s.calls && s.calls[call].VerFindToken? && HasHash(s.world.tokens, cfg.hash(s.calls[call].raw), t)
    ensures CanRestamp(cfg, s, user, t0)
  {
    var row := s.world.tokens[t];
    FromCheck(cfg, s.(calls := s.calls[call := VerCheck(t, row)]), call, user, t, t0);
    Took(cfg, s, call, FINE, s.world, VerCheck(t, row), user, t0);
  }

  lemma FromCheck(cfg: Config, s: State, call: Id, user: Id, t: Id, t0: Option<Time>)
    requires TokensOk(s.world) && ActiveToken(s.world, user, t)
    requires call in s.calls && s.calls[call] == VerCheck(t, s.world.tokens[t])
    ensures CanRestamp(cfg, s, user, t0)
  {
    var row := s.world.tokens[t];
    FromLoad(cfg, s.(calls := s.calls[call := VerLoad(t, row)]), call, user, t0);
    Took(cfg, s, call, FINE, s.world, VerLoad(t, row), user, t0);
  }

  lemma FromCreate(cfg: Config, s: State, call: Id, user: Id, t0: Option<Time>)
    requires Good(cfg, s) && call in s.calls && s.calls[call].SendCreate? && Mints(s.world, s.calls[call], user)
    ensures CanRestamp(cfg, s, user, t0)
  {
    var m := s.calls[call].minted;
    var s' := Step(cfg, s, Move(call, FINE));
    assert PcOk(cfg, s.world, s.calls[call]);
    GoodStep(cfg, s, Move(call, FINE));
    assert ActiveToken(s'.world, user, m.id);
    FromToken(cfg, s', user, m.id, t0);
    AfterStep(cfg, s, Move(call, FINE), user, t0);
  }

  ghost predicate Injective(hash: string -> string) {
    forall a, b :: hash(a) == hash(b) ==> a == b
  }

  /** Raw tokens do not run out: finitely many hashes have finitely many raw forms. */
  lemma RawForms(cfg: Config, hashes: set<string>) returns (raws: set<string>)
    requires Injective(cfg.hash)
    ensures forall raw :: cfg.hash(raw) in hashes ==> raw in raws
    decreases hashes
  {
    raws := {};
    if h :| h in hashes {
      var rest := hashes - {h};
      raws := RawForms(cfg, rest);
      if raw :| cfg.hash(raw) == h { raws := raws + {raw}; }
      forall raw | cfg.hash(raw) in hashes ensures raw in raws {
        assert cfg.hash(raw) == h || cfg.hash(raw) in rest;
      }
    }
  }

  lemma FreshToken(cfg: Config, w: World) returns (c: Choice)
    requires Injective(cfg.hash)
    ensures c.ok && c.pick.None? && c.tokenId !in w.tokens && TokenWithHash(w.tokens, cfg.hash(c.raw)).None?
  {
    var id := UnusedId(w.tokens.Keys);
    var hashes := set t | t in w.tokens :: w.tokens[t].hash;
    var raws := RawForms(cfg, hashes);
    var raw := UnusedString(raws);
    c := Choice(0, id, raw, None, true);
    forall t ensures !HasHash(w.tokens, cfg.hash(raw), t) {
      assert t in w.tokens ==> w.tokens[t].hash in hashes;
    }
  }

  lemma FromMint(cfg: Config, s: State, call: Id, user: Id, t0: Option<Time>)
    requires Good(cfg, s) && Injective(cfg.hash) && 0 < cfg.ttl && user in s.world.users
    requires call in s.calls && s.calls[call] == SendMint(user)
    ensures CanRestamp(cfg, s, user, t0)
  {
    var c := FreshToken(cfg, s.world);
    var s' := Step(cfg, s, Move(call, c));
    GoodStep(cfg, s, Move(call, c));
    FromCreate(cfg, s', call, user, t0);
    AfterStep(cfg, s, Move(call, c), user, t0);
  }

  lemma FromCache(cfg: Config, s: State, call: Id, user: Id, t0: Option<Time>)
    requires Good(cfg, s) && Injective(cfg.hash) && 0 < cfg.ttl && user in s.world.users
    requires call in s.calls && s.calls[call].SendFromCache? && s.calls[call].user == user
    ensures CanRestamp(cfg, s, user, t0)
  {
    var pc := s.calls[call];
    var lost := Step(cfg, s, Evict(pc.tokenId));
    GoodStep(cfg, s, Evict(pc.tokenId));
    assert CachedRaw(lost.world, pc.tokenId).None?;
    GoodStep(cfg, lost, Move(call, FINE));
    FromMint(cfg, Step(cfg, lost, Move(call, FINE)), call, user, t0);
    AfterStep(cfg, lost, Move(call, FINE), user, t0);
    AfterStep(cfg, s, Evict(pc.tokenId), user, t0);
  }

  lemma FromFindActive(cfg: Config, s: State, call: Id, user: Id, t0: Option<Time>)
    requires Good(cfg, s) && Injective(cfg.hash) && 0 < cfg.ttl && user in s.world.users
    requires call in s.calls && s.calls[call] == SendFindActive(user)
    ensures CanRestamp(cfg, s, user, t0)
  {
    if t :| ActiveToken(s.world, user, t) {
      FromToken(cfg, s, user, t, t0);
    } else {
      GoodStep(cfg, s, Move(call, FINE));
      assert ValidPick(s.world, user, None);
      FromMint(cfg, Step(cfg, s, Move(call, FINE)), call, user, t0);
      AfterStep(cfg, s, Move(call, FINE), user, t0);
    }
  }

  lemma UnsettledCanRestamp(cfg: Config, s: State, user: Id)
    requires Good(cfg, s) && Injective(cfg.hash) && 0 < cfg.ttl && IsVerified(s.world, user) && !Settled(s, user)
    ensures CanRestamp(cfg, s, user, s.world.users[user].verifiedAt)
  {
    var t0 := s.world.users[user].verifiedAt;
    if t :| ActiveToken(s.world, user, t) {
      FromToken(cfg, s, user, t, t0);
    } else {
      var c :| c in s.calls && (Mints(s.world, s.calls[c], user) || Redeems(s.world, s.calls[c], user));
      match s.calls[c]
      case SendFindActive(_) => FromFindActive(cfg, s, c, user, t0);
      case SendFromCache(_, _, _) => FromCache(cfg, s, c, user, t0);
      case SendMint(_) => FromMint(cfg, s, c, user, t0);
      case SendCreate(_) => FromCreate(cfg, s, c, user, t0);
      case VerLoad(_, _) => FromLoad(cfg, s, c, user, t0);
      case VerCommit(_, _, _, _) => FromCommit(cfg, s, c, user, t0);
    }
  }

  /**
   The time of a verification is final exactly when the account has no live
   token, no call is minting one and none is past its checks with one:
   otherwise some continuation rewrites it.
   */
  lemma {:induction false} TimeIsFinalIffSettled(cfg: Config, s: State, user: Id)
    requires Injective(cfg.hash) && 0 < cfg.ttl && Reachable(cfg, s) && IsVerified(s.world, user)
    ensures (forall run :: SameStamp(s.world, Exec(cfg, s, run).world, user)) <==> Settled(s, user)
  {
    var start: Time, users: map<Id, UserRow>, past: seq<Event> :|
      Legacy(users) && s == Exec(cfg, Init(start, users), past);
    ReachableGood(cfg, start, users, past);
    if Settled(s, user) {
      forall run ensures SameStamp(s.world, Exec(cfg, s, run).world, user) {
        SettledTimeIsFinal(cfg, s, run, user);
      }
    } else {
      UnsettledCanRestamp(cfg, s, user);
      var run: seq<Event> :| RestampsTo(cfg, s, run, user, s.world.users[user].verifiedAt);
      assert !SameStamp(s.world, Exec(cfg, s, run).world, user);
    }
  }

  // -------------------------------------------------------------- a witness

  lemma {:induction false} AloneReachable(cfg: Config, s: State, call: Id, c: Choice, n: nat)
    requires Reachable(cfg, s) && call in s.calls
    ensures var (w, pc) := Alone(cfg, s.world, s.calls[call], c, n); Reachable(cfg, State(w, s.calls[call := pc]))
    decreases n
  {
    var pc := s.calls[call];
    if n == 0 || pc.Done? {
      assert s == State(s.world, s.calls[call := pc]);
    } else {
      var (w1, pc1) := Advance(cfg, s.world, pc, c);
      var s1 := State(w1, s.calls[call := pc1]);
      StepReachable(cfg, s, Move(call, c));
      MoveIs(cfg, s, call, c, w1, pc1);
      AloneReachable(cfg, s1, call, c, n - 1);
      Next(cfg, s.world, pc, c, n, w1, pc1);
      var last := Alone(cfg, w1, pc1, c, n - 1).1;
      assert s1.calls[call := last] == s.calls[call := last];
    }
  }

  lemma MoveIs(cfg: Config, s: State, call: Id, c: Choice, w: World, pc: Pc)
    requires call in s.calls && Advance(cfg, s.world, s.calls[call], c) == (w, pc)
    ensures Step(cfg, s, Move(call, c)) == State(w, s.calls[call := pc])
  {
  }

  lemma StepReachable(cfg: Config, s: State, e: Event)
    requires Reachable(cfg, s)
    ensures Reachable(cfg, Step(cfg, s, e))
  {
    var start: Time, users: map<Id, UserRow>, run: seq<Event> :|
      Legacy(users) && s == Exec(cfg, Init(start, users), run);
    assert (run + [e])[..|run|] == run;
    assert Step(cfg, s, e) == Exec(cfg, Init(start, users), run + [e]);
  }

  /** A new call, alone, to its end. */
  lemma CallReachable(cfg: Config, s: State, pc: Pc, c: Choice, n: nat) returns (s': State)
    requires Reachable(cfg, s) && Entry(pc)
    ensures Reachable(cfg, s') && s'.world == Alone(cfg, s.world, pc, c, n).0
  {
    var call := UnusedId(s.calls.Keys);
    var started := Step(cfg, s, Start(call, pc));
    StepReachable(cfg, s, Start(call, pc));
    AloneReachable(cfg, started, call, c, n);
    s' := State(Alone(cfg, started.world, pc, c, n).0, started.calls[call := Alone(cfg, started.world, pc, c, n).1]);
  }

  /**
   It happens: an account registered, mailed a second token after the first
   left the cache, and verified with the first, can be verified again at
   another time with the second.
   */
  lemma {:induction false} TimesAreRewritten(cfg: Config, email: string)
    requires Injective(cfg.hash) && 0 < cfg.ttl
    ensures exists s, user, run :: Reachable(cfg, s) && IsVerified(s.world, user)
                                   && !SameStamp(s.world, Exec(cfg, s, run).world, user)
  {
    var s1, c1 := RegisteredWitness(cfg, email);
    var s2, other := SecondTokenWitness(cfg, s1, cfg.canonical(email), c1.userId, c1.tokenId);
    ReachableInv(cfg, s2);
    VerifyDecides(cfg, s2.world, c1.raw, c1.tokenId, FINE, 4);
    var s3 := CallReachable(cfg, s2, VerFindToken(c1.raw), FINE, 4);
    FirstVerified(cfg, s2, c1.raw, c1.tokenId, other, s3.world);
    TimeIsFinalIffSettled(cfg, s3, c1.userId);
  }

  /** Verifying with one token leaves the other one live. */
  lemma {:induction false} FirstVerified(cfg: Config, s: State, raw: string, t: Id, other: Id, w: World)
    requires Inv(cfg, s) && Holds(cfg, s.world, raw, t) && t != other
    requires ActiveToken(s.world, s.world.tokens[t].user, t) && ActiveToken(s.world, s.world.tokens[t].user, other)
    requires w == Alone(cfg, s.world, VerFindToken(raw), FINE, 4).0
    ensures IsVerified(w, s.world.tokens[t].user) && ActiveToken(w, s.world.tokens[t].user, other)
  {
    VerifyDecides(cfg, s.world, raw, t, FINE, 4);
    VerifyKeepsClock(cfg, s.world, raw, t);
  }

  lemma {:induction false} VerifyKeepsClock(cfg: Config, w: World, raw: string, t: Id)
    requires WorldOk(cfg, w) && Holds(cfg, w, raw, t) && w.tokens[t].consumedAt.None? && w.now < w.tokens[t].expiresAt
    ensures Alone(cfg, w, VerFindToken(raw), FINE, 4).0.now == w.now
  {
    Next(cfg, w, VerFindToken(raw), FINE, 4, w, VerCheck(t, w.tokens[t]));
    VerifyWins(cfg, w, t, FINE, 3);
  }

  lemma RegisteredWitness(cfg: Config, email: string) returns (s: State, c: Choice)
    requires Injective(cfg.hash) && 0 < cfg.ttl
    ensures Reachable(cfg, s) && ActiveToken(s.world, c.userId, c.tokenId) && Holds(cfg, s.world, c.raw, c.tokenId)
    ensures HasEmail(s.world.users, cfg.canonical(email), c.userId) && s.world.users[c.userId].verifiedAt.None?
    ensures forall t :: t in s.world.tokens ==> t == c.tokenId
  {
    var s0 := Init(0, map[]);
    assert Exec(cfg, s0, []) == s0 && Reachable(cfg, s0);
    ReachableInv(cfg, s0);
    c := FINE;
    assert FreshChoice(cfg, s0.world, c);
    RegisterDecides(cfg, s0.world, email, c);
    s := CallReachable(cfg, s0, RegLookup(email), c, 5);
  }

  lemma SecondTokenWitness(cfg: Config, s: State, email: string, user: Id, t: Id) returns (s': State, other: Id)
    requires Injective(cfg.hash) && 0 < cfg.ttl && Reachable(cfg, s) && ActiveToken(s.world, user, t)
    requires HasEmail(s.world.users, email, user) && s.world.users[user].verifiedAt.None?
    requires forall o :: o in s.world.tokens ==> o == t
    ensures Reachable(cfg, s') && t != other && ActiveToken(s'.world, user, t) && ActiveToken(s'.world, user, other)
    ensures s'.world.tokens[t] == s.world.tokens[t]
  {
    var lost := Step(cfg, s, Evict(t));
    StepReachable(cfg, s, Evict(t));
    ReachableInv(cfg, lost);
    var unused := FreshToken(cfg, lost.world);
    var id := UnusedId(lost.world.users.Keys);
    var c := unused.(userId := id, pick := Some(t));
    assert UserWithEmail(lost.world.users, email) == Some(user) && ValidPick(lost.world, user, Some(t));
    ResendDecides(cfg, lost.world, email, c);
    s' := CallReachable(cfg, lost, SendLookup(email), c, 7);
    other := c.tokenId;
  }
}
