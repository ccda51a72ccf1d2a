/**
 Exactly when a family that was ended can still grow: while some call holds,
 in date and with its session's blessing, the family's unconsumed token. A
 replay ends it by its tokens, a supersession by its session, a logout by both.
 */
module FamilyGrowth {
  import opened Prelude
  import opened TokenTables
  import opened TokenChains
  import opened RefreshProtocol
  import opened IssueProtocol
  import opened SessionMachine
  import opened SessionInvariant
  import opened SessionPreservation
  import opened SessionMoves
  import opened SessionTheorems

  ghost predicate InDate(db: Db, now: Time, token: TokenRow) {
    LiveSnapshot(token) && now <= token.expiresAt
  }

  ghost predicate SessionOpen(session: SessionRow, now: Time) {
    session.revoked.None? && now <= session.expiresAt
  }

  /** Every check the call has still ahead would pass now. */
  ghost predicate CouldRotate(db: Db, now: Time, pc: RefreshPc) {
    match pc
    case TokenRead(id, token) =>
      Consumable(db, id) && InDate(db, now, token)
      && token.session in db.sessions && SessionOpen(db.sessions[token.session], now)
    case SessionRead(id, token, session) => Consumable(db, id) && InDate(db, now, token) && SessionOpen(session, now)
    case TokenPassed(id, _, session) => Consumable(db, id) && SessionOpen(session, now)
    case SessionPassed(id, _, _) => Consumable(db, id)
    case Minted(id, _, _, childId, child) =>
      Consumable(db, id) && TokenInsertable(ConsumeToken(db, id, now), childId, child.(createdAt := now))
    case _ => false
  }

  /** A call holding a token of the family could rotate it. */
  ghost predicate Threatens(s: State, call: Id, family: Id) {
    && call in s.refreshes && CouldRotate(s.db, s.now, s.refreshes[call])
    && s.refreshes[call].token.family == family
  }

  ghost predicate Ended(db: Db, family: Id) {
    FamilyRevoked(db, family) || SessionGone(db, family)
  }

  // --------------------------------------------------- nobody new threatens

  lemma ThreatWasThere(db: Db, now: Time, db': Db, now': Time, pc: RefreshPc)
    requires TokensOk(db) && DbEvolves(db, db') && now <= now' && RefreshOk(db, pc) && CouldRotate(db', now', pc)
    ensures CouldRotate(db, now, pc)
  {
    if pc.TokenRead? {
      assert SessionEvolves(db.sessions[pc.token.session], db'.sessions[pc.token.session]);
    }
    assert TokenEvolves(db.tokens[pc.id], db'.tokens[pc.id]);
    if pc.Minted? {
      forall t ensures !HasHash(ConsumeToken(db, pc.id, now).tokens, pc.child.hash, t) {
        if t in db.tokens {
          assert TokenEvolves(db.tokens[t], db'.tokens[t]);
          assert !HasHash(ConsumeToken(db', pc.id, now').tokens, pc.child.hash, t);
        }
      }
    }
  }

  /** A call that could rotate after its own step already could before it, unless it has just read the token. */
  lemma StepMakesNoThreat(ttl: Time, db: Db, now: Time, pc: RefreshPc, ev: RefreshEvent)
    requires RefreshOk(db, pc) && TokensOk(db) && !pc.Presented? && !(pc.Minted? && ev.Rotate?)
    requires var (db', pc') := RefreshStep(ttl, db, now, pc, ev); CouldRotate(db', now, pc')
    ensures CouldRotate(db, now, pc) && RefreshStep(ttl, db, now, pc, ev).1.token.family == pc.token.family
  {
    RefreshReads(ttl, db, now, pc, ev);
  }

  lemma ThreatsOnlyEnd(cfg: Config, s: State, e: Event, call: Id, family: Id)
    requires cfg.variant == AsBuilt && Inv(cfg, s) && Ended(s.db, family)
    requires Threatens(Step(cfg, s, e), call, family)
    ensures Threatens(s, call, family)
  {
    var s' := Step(cfg, s, e);
    StepPreserves(cfg, s, e);
    StepCallsMove(cfg, s, e);
    assert RefreshOk(s.db, s.refreshes[call]);
    var pc, pc' := s.refreshes[call], s'.refreshes[call];
    if pc' == pc {
      TimePasses(cfg, s, e);
      ThreatWasThere(s.db, s.now, s'.db, s'.now, pc);
    } else {
      MoverThreatened(cfg, s, call, e.refresh, family);
    }
  }

  lemma TimePasses(cfg: Config, s: State, e: Event)
    ensures s.now <= Step(cfg, s, e).now
  {
  }

  lemma MoverThreatened(cfg: Config, s: State, call: Id, ev: RefreshEvent, family: Id)
    requires Inv(cfg, s) && Ended(s.db, family) && call in s.refreshes
    requires RefreshMoves(cfg, s, call, ev).refreshes[call] != s.refreshes[call]
    requires Threatens(RefreshMoves(cfg, s, call, ev), call, family)
    ensures Threatens(s, call, family)
  {
    var pc := s.refreshes[call];
    var (db', pc') := RefreshStep(cfg.refreshTtl, s.db, s.now, pc, ev);
    assert RefreshOk(s.db, pc);
    if pc.Presented? {
      assert InFamily(s.db.tokens, family, pc'.id);
    } else {
      StepMakesNoThreat(cfg.refreshTtl, s.db, s.now, pc, ev);
    }
  }

  /** A rotation that commits was a threat just before. */
  lemma RotationWasThreat(cfg: Config, s: State, call: Id, ev: RefreshEvent)
    requires Inv(cfg, s) && call in s.refreshes && ev.Rotate? && s.refreshes[call].Minted?
    requires RefreshMoves(cfg, s, call, ev).db.tokens != s.db.tokens
    ensures CouldRotate(s.db, s.now, s.refreshes[call])
  {
  }

  /** While nobody threatens an ended family, it keeps its members and stays ended. */
  lemma {:induction false} UnthreatenedStays(cfg: Config, s: State, run: seq<Event>, family: Id)
    requires cfg.variant == AsBuilt && Inv(cfg, s) && family in Families(s.db.tokens) && Ended(s.db, family)
    requires forall call :: !Threatens(s, call, family)
    ensures var s' := Exec(cfg, s, run);
            && Members(s'.db.tokens, family) == Members(s.db.tokens, family) && Ended(s'.db, family)
            && forall call :: !Threatens(s', call, family)
    decreases |run|
  {
    if run != [] {
      var shorter := run[..|run| - 1];
      var before := Exec(cfg, s, shorter);
      UnthreatenedStays(cfg, s, shorter, family);
      RunPreserves(cfg, s, shorter);
      FamilyKept(s.db, before.db, family);
      UnthreatenedStep(cfg, before, run[|run| - 1], family);
    }
  }

  lemma UnthreatenedStep(cfg: Config, s: State, e: Event, family: Id)
    requires cfg.variant == AsBuilt && Inv(cfg, s) && family in Families(s.db.tokens) && Ended(s.db, family)
    requires forall call :: !Threatens(s, call, family)
    ensures var s' := Step(cfg, s, e);
            && Members(s'.db.tokens, family) == Members(s.db.tokens, family) && Ended(s'.db, family)
            && forall call :: !Threatens(s', call, family)
  {
    var s' := Step(cfg, s, e);
    var c := StepChange(cfg, s, e);
    StepPreserves(cfg, s, e);
    if c.Rotation? && s.db.tokens[c.id].family == family {
      RotationNeedsThreat(cfg, s, e, c, family);
    }
    MembersStay(s, s', c, family);
    if FamilyRevoked(s.db, family) {
      FrozenTokens(s, s', c, family);
    } else {
      SessionStaysGone(cfg, s, s', family);
    }
    forall call ensures !Threatens(s', call, family) {
      if Threatens(s', call, family) { ThreatsOnlyEnd(cfg, s, e, call, family); }
    }
  }

  lemma MembersStay(s: State, s': State, c: Change, family: Id)
    requires TokensChange(s, s', c) && family in Families(s.db.tokens)
    requires c.Rotation? ==> s.db.tokens[c.id].family != family
    ensures Members(s'.db.tokens, family) == Members(s.db.tokens, family)
  {
    forall id ensures id in Members(s'.db.tokens, family) <==> id in Members(s.db.tokens, family) {
    }
  }

  lemma RotationNeedsThreat(cfg: Config, s: State, e: Event, c: Change, family: Id)
    requires Inv(cfg, s) && TokensChange(s, Step(cfg, s, e), c)
    requires c.Rotation? && e.Refresh? && e.call == c.call && e.refresh.Rotate? && s.db.tokens[c.id].family == family
    ensures Threatens(s, c.call, family)
  {
    assert c.child in Step(cfg, s, e).db.tokens && c.child !in s.db.tokens;
    assert RefreshOk(s.db, s.refreshes[c.call]);
    RotationWasThreat(cfg, s, c.call, e.refresh);
  }

  // -------------------------------------------------- a threat can be made good

  /** Statements left before the rotation commits. */
  function StepsLeft(pc: RefreshPc): nat {
    match pc
    case TokenRead(_, _) => 5
    case SessionRead(_, _, _) => 4
    case TokenPassed(_, _, _) => 3
    case SessionPassed(_, _, _) => 2
    case Minted(_, _, _, _, _) => 1
    case _ => 0
  }

  /** The next statement of a call that could rotate, with unused values for the new token. */
  lemma NextStatement(cfg: Config, s: State, call: Id) returns (ev: RefreshEvent)
    requires 0 < cfg.refreshTtl && Inv(cfg, s)
    requires call in s.refreshes && CouldRotate(s.db, s.now, s.refreshes[call]) && !s.refreshes[call].Minted?
    ensures var s' := RefreshMoves(cfg, s, call, ev);
            && s'.db == s.db && CouldRotate(s'.db, s'.now, s'.refreshes[call])
            && s'.refreshes[call].token == s.refreshes[call].token && s'.issues == s.issues
            && StepsLeft(s'.refreshes[call]) < StepsLeft(s.refreshes[call])
  {
    var pc := s.refreshes[call];
    assert RefreshOk(s.db, pc);
    if pc.SessionPassed? {
      var childId := UnusedId(s.db.tokens.Keys);
      var hash := UnusedString(set t | t in s.db.tokens :: s.db.tokens[t].hash);
      ev := Mint(childId, hash);
      FreshChildFits(s.db, s.now, pc.id, pc.token, childId, hash, s.now + cfg.refreshTtl);
    } else {
      ev := if pc.TokenRead? then ReadSession else if pc.SessionRead? then CheckToken else CheckSession;
      NextCheckPasses(cfg.refreshTtl, s.db, s.now, pc, ev);
    }
  }

  lemma NextCheckPasses(ttl: Time, db: Db, now: Time, pc: RefreshPc, ev: RefreshEvent)
    requires CouldRotate(db, now, pc) && (pc.TokenRead? || pc.SessionRead? || pc.TokenPassed?)
    requires ev == if pc.TokenRead? then ReadSession else if pc.SessionRead? then CheckToken else CheckSession
    ensures var (db', pc') := RefreshStep(ttl, db, now, pc, ev);
            && db' == db && CouldRotate(db, now, pc') && pc'.token == pc.token && StepsLeft(pc') < StepsLeft(pc)
  {
  }

  lemma FreshChildFits(db: Db, now: Time, id: Id, token: TokenRow, childId: Id, hash: string, expiresAt: Time)
    requires TokensOk(db) && HoldsToken(db, id, token) && childId !in db.tokens && now < expiresAt
    requires forall t :: t in db.tokens ==> db.tokens[t].hash != hash
    ensures TokenInsertable(ConsumeToken(db, id, now), childId, Child(id, token, hash, expiresAt, now))
  {
    assert forall t :: !HasHash(ConsumeToken(db, id, now).tokens, hash, t);
  }

  /** Ending the transaction that holds the row lets the rotation through. */
  lemma Unlock(cfg: Config, s: State, session: Id) returns (run: seq<Event>)
    requires cfg.variant == AsBuilt && Inv(cfg, s)
    ensures var s' := Exec(cfg, s, run);
            s'.db == s.db && s'.now == s.now && s'.refreshes == s.refreshes && !RowLocked(s', session)
  {
    if RowLocked(s, session) {
      var call :| call in s.issues && VictimOf(s.issues[call].pc).Some?
                  && VictimOf(s.issues[call].pc).value.id == session;
      run := [Issue(call, IssueCrash)];
      CrashEndsIssue(cfg, s, call);
      var s' := Step(cfg, s, Issue(call, IssueCrash));
      assert run[..0] == [] && Exec(cfg, s, run) == s';
      CrashReleases(cfg, s, call, session, s');
    } else {
      run := [];
    }
  }

  lemma CrashEndsIssue(cfg: Config, s: State, call: Id)
    requires call in s.issues && !s.issues[call].pc.IssueDone?
    ensures Step(cfg, s, Issue(call, IssueCrash))
         == s.(issues := s.issues[call := Issuing(s.issues[call].req, IssueDone(IssueFailed))])
  {
  }

  lemma CrashReleases(cfg: Config, s: State, call: Id, session: Id, s': State)
    requires Inv(cfg, s) && call in s.issues
    requires VictimOf(s.issues[call].pc).Some? && VictimOf(s.issues[call].pc).value.id == session
    requires s'.issues == s.issues[call := Issuing(s.issues[call].req, IssueDone(IssueFailed))]
    ensures !RowLocked(s', session)
  {
    forall other | other in s'.issues && VictimOf(s'.issues[other].pc).Some?
      ensures VictimOf(s'.issues[other].pc).value.id != session
    {
      if VictimOf(s.issues[other].pc).value.id == session { OneVictimHolder(cfg, s, call, other); }
    }
  }

  lemma OneVictimHolder(cfg: Config, s: State, a: Id, b: Id)
    requires Inv(cfg, s) && a in s.issues && b in s.issues
    requires VictimOf(s.issues[a].pc).Some? && VictimOf(s.issues[b].pc).Some?
    requires VictimOf(s.issues[a].pc).value.id == VictimOf(s.issues[b].pc).value.id
    ensures a == b
  {
    assert IssueOk(cfg, s.db, s.now, s.issues[a].req, s.issues[a].pc);
    assert IssueOk(cfg, s.db, s.now, s.issues[b].req, s.issues[b].pc);
    assert KeyOf(cfg, s.issues[a].req) == KeyOf(cfg, s.issues[b].req);
  }

  /** A threat has a continuation in which the family gains a token. */
  lemma {:induction false} ThreatCanCommit(cfg: Config, s: State, call: Id, family: Id) returns (run: seq<Event>)
    requires cfg.variant == AsBuilt && 0 < cfg.refreshTtl && Inv(cfg, s) && Threatens(s, call, family)
    ensures Members(Exec(cfg, s, run).db.tokens, family) != Members(s.db.tokens, family)
    decreases StepsLeft(s.refreshes[call])
  {
    if s.refreshes[call].Minted? {
      var unlock := Unlock(cfg, s, s.refreshes[call].token.session);
      var free := Exec(cfg, s, unlock);
      RunPreserves(cfg, s, unlock);
      Commits(cfg, free, call, family);
      run := unlock + [Refresh(call, Rotate(true))];
      assert run[..|unlock|] == unlock;
    } else {
      var ev := NextStatement(cfg, s, call);
      var s' := Step(cfg, s, Refresh(call, ev));
      StepPreserves(cfg, s, Refresh(call, ev));
      var rest := ThreatCanCommit(cfg, s', call, family);
      run := [Refresh(call, ev)] + rest;
      ExecConcat(cfg, s, [Refresh(call, ev)], rest);
      assert [Refresh(call, ev)][..0] == [] && Exec(cfg, s, [Refresh(call, ev)]) == s';
    }
  }

  lemma Commits(cfg: Config, s: State, call: Id, family: Id)
    requires Inv(cfg, s) && Threatens(s, call, family) && s.refreshes[call].Minted?
    requires !RowLocked(s, s.refreshes[call].token.session)
    ensures Members(Step(cfg, s, Refresh(call, Rotate(true))).db.tokens, family) != Members(s.db.tokens, family)
  {
    var pc := s.refreshes[call];
    assert RefreshOk(s.db, pc);
    var s' := Step(cfg, s, Refresh(call, Rotate(true)));
    assert pc.childId in s'.db.tokens && s'.db.tokens[pc.childId].family == family;
    assert pc.childId in Members(s'.db.tokens, family) && pc.childId !in Members(s.db.tokens, family);
  }

  lemma {:induction false} EndedFamilyGrowsIffThreatened(cfg: Config, s: State, family: Id)
    requires cfg.variant == AsBuilt && 0 < cfg.refreshTtl && Reachable(cfg, s)
    requires family in Families(s.db.tokens) && Ended(s.db, family)
    ensures (exists run :: Members(Exec(cfg, s, run).db.tokens, family) != Members(s.db.tokens, family))
            <==> exists call :: Threatens(s, call, family)
  {
    ReachableInv(cfg, s);
    if call :| Threatens(s, call, family) {
      var run := ThreatCanCommit(cfg, s, call, family);
    } else {
      forall run ensures Members(Exec(cfg, s, run).db.tokens, family) == Members(s.db.tokens, family) {
        UnthreatenedStays(cfg, s, run, family);
      }
    }
  }

  /**
   A revoked family can gain a token in some continuation exactly when some
   call holds its unconsumed token and every check still ahead of it would pass.
   */
  lemma {:induction false} RevokedFamilyGrowsIffThreatened(cfg: Config, s: State, family: Id)
    requires cfg.variant == AsBuilt && 0 < cfg.refreshTtl && Reachable(cfg, s)
    requires family in Families(s.db.tokens) && FamilyRevoked(s.db, family)
    ensures (exists run :: Members(Exec(cfg, s, run).db.tokens, family) != Members(s.db.tokens, family))
            <==> exists call :: Threatens(s, call, family)
  {
    EndedFamilyGrowsIffThreatened(cfg, s, family);
  }

  /** The same for a family whose session is revoked while its tokens are not, as a supersession leaves it. */
  lemma {:induction false} SupersededFamilyGrowsIffThreatened(cfg: Config, s: State, family: Id)
    requires cfg.variant == AsBuilt && 0 < cfg.refreshTtl && Reachable(cfg, s)
    requires family in Families(s.db.tokens) && SessionGone(s.db, family)
    ensures (exists run :: Members(Exec(cfg, s, run).db.tokens, family) != Members(s.db.tokens, family))
            <==> exists call :: Threatens(s, call, family)
  {
    EndedFamilyGrowsIffThreatened(cfg, s, family);
  }
}
