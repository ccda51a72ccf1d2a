/**
 What every run of the session machine guarantees: the shape of rotation
 families, the effect of revocation on calls in flight, the single winner of a
 rotation, and exclusive device slots.
 */
module SessionTheorems {
  import opened Prelude
  import opened TokenTables
  import opened TokenChains
  import opened RefreshProtocol
  import opened IssueProtocol
  import opened SessionMachine
  import opened SessionInvariant
  import opened SessionPreservation
  import opened SessionMoves

  // -------------------------------------------------------- rotation chains

  /** Each family is one linear chain, and tokens are counted by families and rotations. */
  lemma FamiliesAreChains(cfg: Config, s: State, family: Id)
    requires cfg.variant == AsBuilt && Reachable(cfg, s) && family in Families(s.db.tokens)
    ensures Chained(s.db.tokens, family)
    ensures |s.db.tokens| == |Families(s.db.tokens)| + s.rotations
    ensures exists tip :: InFamily(s.db.tokens, family, tip) && s.db.tokens[tip].consumedAt.None?
    ensures forall a, b :: (InFamily(s.db.tokens, family, a) && InFamily(s.db.tokens, family, b)
                            && s.db.tokens[a].consumedAt.None? && s.db.tokens[b].consumedAt.None?) ==> a == b
    ensures forall a, b :: (InFamily(s.db.tokens, family, a) && InFamily(s.db.tokens, family, b))
                           ==> s.db.tokens[a].session == s.db.tokens[b].session
    ensures forall id :: InFamily(s.db.tokens, family, id) ==>
                           (s.db.tokens[id].consumedAt.Some? <==> HasChild(s.db.tokens, family, id))
  {
    ReachableInv(cfg, s);
    var tip := OneTip(s.db.tokens, family);
    forall a, b | InFamily(s.db.tokens, family, a) && InFamily(s.db.tokens, family, b)
      ensures s.db.tokens[a].session == s.db.tokens[b].session
    {
      OneSession(s.db.tokens, family, a, b);
    }
    forall id | InFamily(s.db.tokens, family, id)
      ensures s.db.tokens[id].consumedAt.Some? <==> HasChild(s.db.tokens, family, id)
    {
      OneChild(s.db.tokens, family, id);
    }
  }

  /** A family only ever grows at its end. */
  lemma {:induction false} ChainPrefix(
      older: Db, newer: Db, family: Id, s0: Id, c0: seq<Id>, s1: Id, c1: seq<Id>, n: nat)
    requires DbEvolves(older, newer)
    requires IsChain(older.tokens, family, s0, c0) && IsChain(newer.tokens, family, s1, c1)
    requires n <= |c0|
    ensures n <= |c1| && c0[..n] == c1[..n]
  {
    if n > 0 {
      ChainPrefix(older, newer, family, s0, c0, s1, c1, n - 1);
      var id := c0[n - 1];
      assert InFamily(older.tokens, family, id);
      assert InFamily(newer.tokens, family, id);
      var j :| 0 <= j < |c1| && c1[j] == id;
      if n == 1 {
        var root := OneRoot(newer.tokens, family);
        assert InFamily(newer.tokens, family, c1[0]);
      } else {
        assert older.tokens[c0[n - 1]].parent == Some(c0[n - 2]);
        assert newer.tokens[c1[0]].parent.None?;
        assert j > 0 && newer.tokens[c1[j]].parent == Some(c1[j - 1]);
        assert c1[j - 1] == c0[n - 2] == c0[..n - 1][n - 2] == c1[..n - 1][n - 2] == c1[n - 2];
      }
      assert j == n - 1;
      assert c0[..n] == c0[..n - 1] + [id] == c1[..n];
    }
  }

  lemma {:induction false} FamiliesOnlyGrow(cfg: Config, s: State, run: seq<Event>, family: Id)
    requires cfg.variant == AsBuilt && Reachable(cfg, s) && family in Families(s.db.tokens)
    ensures exists s0, c0, s1, c1 :: IsChain(s.db.tokens, family, s0, c0)
              && IsChain(Exec(cfg, s, run).db.tokens, family, s1, c1) && c0 <= c1
  {
    ReachableInv(cfg, s);
    RunPreserves(cfg, s, run);
    var s' := Exec(cfg, s, run);
    KeysOfFamilies(s.db.tokens, family);
    var id :| InFamily(s.db.tokens, family, id);
    assert s'.db.tokens[id].family == family;
    assert family in Families(s'.db.tokens);
    var s0, c0 :| IsChain(s.db.tokens, family, s0, c0);
    var s1, c1 :| IsChain(s'.db.tokens, family, s1, c1);
    ChainPrefix(s.db, s'.db, family, s0, c0, s1, c1, |c0|);
    assert c0[..|c0|] == c0;
  }

  // ------------------------------------------------------ revoked sessions

  ghost predicate SessionGone(db: Db, family: Id) {
    forall id :: InFamily(db.tokens, family, id) ==>
      db.tokens[id].session in db.sessions && db.sessions[db.tokens[id].session].revoked.Some?
  }

  /** Relative to `s0`: tokens created since are unconsumed, and whoever holds one has seen the revocation. */
  ghost predicate OnlyOldRotate(s0: State, s: State, family: Id) {
    && SessionGone(s.db, family)
    && (forall id :: InFamily(s.db.tokens, family, id) && id !in s0.db.tokens ==> s.db.tokens[id].consumedAt.None?)
    && (forall call :: (call in s.refreshes && HoldsBoth(s.refreshes[call])
                        && s.refreshes[call].token.family == family && s.refreshes[call].id !in s0.db.tokens)
          ==> s.refreshes[call].session.revoked.Some?)
  }

  lemma SessionStaysGone(cfg: Config, s: State, s': State, family: Id)
    requires Inv(cfg, s) && Inv(cfg, s') && DbEvolves(s.db, s'.db)
    requires family in Families(s.db.tokens) && SessionGone(s.db, family)
    ensures SessionGone(s'.db, family)
  {
    KeysOfFamilies(s.db.tokens, family);
    var seen :| InFamily(s.db.tokens, family, seen);
    assert family in Families(s'.db.tokens) by { assert s'.db.tokens[seen].family == family; }
    forall id | InFamily(s'.db.tokens, family, id)
      ensures s'.db.tokens[id].session in s'.db.sessions && s'.db.sessions[s'.db.tokens[id].session].revoked.Some?
    {
      OneSession(s'.db.tokens, family, id, seen);
    }
  }

  lemma OnlyOldRotateStep(cfg: Config, s0: State, s: State, e: Event, family: Id)
    requires cfg.variant == AsBuilt && Inv(cfg, s) && DbEvolves(s0.db, s.db)
    requires family in Families(s.db.tokens) && OnlyOldRotate(s0, s, family)
    ensures OnlyOldRotate(s0, Step(cfg, s, e), family)
  {
    var s' := Step(cfg, s, e);
    StepPreserves(cfg, s, e);
    SessionStaysGone(cfg, s, s', family);
    var c := StepChange(cfg, s, e);
    StepCallsMove(cfg, s, e);
    AddedStayUnconsumed(s0, s, s', c, family);
    LateHoldersKnow(cfg, s0, s, s', e, family);
  }

  lemma AddedStayUnconsumed(s0: State, s: State, s': State, c: Change, family: Id)
    requires TokensChange(s, s', c) && RefreshesOk(s) && OnlyOldRotate(s0, s, family)
    requires family in Families(s.db.tokens) && DbEvolves(s0.db, s.db)
    ensures forall id :: InFamily(s'.db.tokens, family, id) && id !in s0.db.tokens ==>
                           s'.db.tokens[id].consumedAt.None?
  {
    if c.Rotation? {
      assert RefreshOk(s.db, s.refreshes[c.call]);
      assert InFamily(s.db.tokens, family, c.id) ==> c.id in s0.db.tokens;
    }
    forall id | InFamily(s'.db.tokens, family, id) && id !in s0.db.tokens ensures s'.db.tokens[id].consumedAt.None? {
      assert id in s.db.tokens ==> InFamily(s.db.tokens, family, id);
    }
  }

  lemma LateHoldersKnow(cfg: Config, s0: State, s: State, s': State, e: Event, family: Id)
    requires Inv(cfg, s) && CallsMove(s, s', e) && OnlyOldRotate(s0, s, family)
    ensures forall call :: (call in s'.refreshes && HoldsBoth(s'.refreshes[call])
                            && s'.refreshes[call].token.family == family && s'.refreshes[call].id !in s0.db.tokens)
              ==> s'.refreshes[call].session.revoked.Some?
  {
    forall call | call in s'.refreshes && HoldsBoth(s'.refreshes[call])
                  && s'.refreshes[call].token.family == family && s'.refreshes[call].id !in s0.db.tokens
      ensures s'.refreshes[call].session.revoked.Some?
    {
      var pc := s.refreshes[call];
      assert RefreshOk(s.db, pc);
      if pc.TokenRead? {
        assert InFamily(s.db.tokens, family, pc.id);
      }
    }
  }

  lemma {:induction false} OnlyOldRotateRun(cfg: Config, s0: State, run: seq<Event>, family: Id)
    requires cfg.variant == AsBuilt && Inv(cfg, s0)
    requires family in Families(s0.db.tokens) && SessionGone(s0.db, family)
    ensures OnlyOldRotate(s0, Exec(cfg, s0, run), family) && family in Families(Exec(cfg, s0, run).db.tokens)
    decreases |run|
  {
    RunPreserves(cfg, s0, run);
    KeysOfFamilies(s0.db.tokens, family);
    var id :| InFamily(s0.db.tokens, family, id);
    assert Exec(cfg, s0, run).db.tokens[id].family == family;
    if run == [] {
      forall call | call in s0.refreshes && HoldsBoth(s0.refreshes[call])
        ensures s0.refreshes[call].id in s0.db.tokens
      {
        assert RefreshOk(s0.db, s0.refreshes[call]);
      }
    } else {
      OnlyOldRotateRun(cfg, s0, run[..|run| - 1], family);
      RunPreserves(cfg, s0, run[..|run| - 1]);
      OnlyOldRotateStep(cfg, s0, Exec(cfg, s0, run[..|run| - 1]), run[|run| - 1], family);
    }
  }

  /**
   Once a session is revoked, by logout or by supersession, at most one more
   rotation commits in its family, whatever is in flight; the token that
   rotation creates is never exchanged.
   */
  lemma {:induction false} RevokedSessionRotatesAtMostOnce(cfg: Config, s: State, run: seq<Event>, family: Id)
    requires cfg.variant == AsBuilt && Reachable(cfg, s)
    requires family in Families(s.db.tokens) && SessionGone(s.db, family)
    ensures var added := Members(Exec(cfg, s, run).db.tokens, family) - Members(s.db.tokens, family);
            && |added| <= 1
            && forall id :: id in added ==> Exec(cfg, s, run).db.tokens[id].consumedAt.None?
  {
    ReachableInv(cfg, s);
    RunPreserves(cfg, s, run);
    OnlyOldRotateRun(cfg, s, run, family);
    var s' := Exec(cfg, s, run);
    var added := Members(s'.db.tokens, family) - Members(s.db.tokens, family);
    var tip := OneTip(s'.db.tokens, family);
    forall id | id in added ensures id == tip && s'.db.tokens[id].consumedAt.None? {
      assert InFamily(s'.db.tokens, family, id);
      assert id !in s.db.tokens;
    }
    assert added <= {tip};
    if added != {} { assert added == {tip}; }
  }

  // ------------------------------------------------------ revoked families

  ghost predicate FamilyRevoked(db: Db, family: Id) {
    forall id :: InFamily(db.tokens, family, id) ==> db.tokens[id].revoked.Some?
  }

  /** The call still believes it holds a live token of the family. */
  ghost predicate HoldsLive(s: State, call: Id, family: Id) {
    && call in s.refreshes
    && var pc := s.refreshes[call];
       && (pc.TokenRead? || HoldsBoth(pc))
       && pc.token.family == family && LiveSnapshot(pc.token)
  }

  /** Nothing has been created since `s0`, and only calls that already held a live token then still do. */
  ghost predicate Frozen(s0: State, s: State, family: Id) {
    && Members(s.db.tokens, family) == Members(s0.db.tokens, family)
    && FamilyRevoked(s.db, family)
    && (forall call :: HoldsLive(s, call, family) ==> HoldsLive(s0, call, family))
  }

  ghost predicate RotatesFamily(cfg: Config, s: State, e: Event, call: Id, family: Id) {
    && e.Refresh? && e.call == call && e.refresh.Rotate?
    && Members(Step(cfg, s, e).db.tokens, family) != Members(s.db.tokens, family)
  }

  lemma FrozenStep(cfg: Config, s0: State, s: State, e: Event, family: Id)
    requires cfg.variant == AsBuilt && Inv(cfg, s) && family in Families(s.db.tokens) && Frozen(s0, s, family)
    ensures Frozen(s0, Step(cfg, s, e), family)
            || (e.Refresh? && HoldsLive(s0, e.call, family) && RotatesFamily(cfg, s, e, e.call, family))
  {
    var c := StepChange(cfg, s, e);
    StepCallsMove(cfg, s, e);
    FrozenByShape(s0, s, Step(cfg, s, e), e, c, family);
  }

  lemma FrozenByShape(s0: State, s: State, s': State, e: Event, c: Change, family: Id)
    requires TokensChange(s, s', c) && CallsMove(s, s', e) && RefreshesOk(s)
    requires family in Families(s.db.tokens) && Frozen(s0, s, family)
    ensures Frozen(s0, s', family)
            || (c.Rotation? && HoldsLive(s0, c.call, family)
                && Members(s'.db.tokens, family) != Members(s.db.tokens, family))
  {
    if c.Rotation? && s.db.tokens[c.id].family == family {
      FrozenRotation(s0, s, s', c, family);
    } else {
      FrozenTokens(s, s', c, family);
      FrozenCalls(s, s', e, family);
    }
  }

  lemma FrozenRotation(s0: State, s: State, s': State, c: Change, family: Id)
    requires TokensChange(s, s', c) && c.Rotation? && s.db.tokens[c.id].family == family
    requires RefreshesOk(s) && Frozen(s0, s, family)
    ensures HoldsLive(s0, c.call, family)
    ensures Members(s'.db.tokens, family) != Members(s.db.tokens, family)
  {
    assert RefreshOk(s.db, s.refreshes[c.call]);
    assert HoldsLive(s, c.call, family);
    assert c.child in Members(s'.db.tokens, family) && c.child !in Members(s.db.tokens, family);
  }

  lemma FrozenTokens(s: State, s': State, c: Change, family: Id)
    requires TokensChange(s, s', c) && FamilyRevoked(s.db, family) && family in Families(s.db.tokens)
    requires c.Rotation? ==> s.db.tokens[c.id].family != family
    ensures Members(s'.db.tokens, family) == Members(s.db.tokens, family) && FamilyRevoked(s'.db, family)
  {
    forall id ensures id in Members(s'.db.tokens, family) <==> id in Members(s.db.tokens, family) {
    }
    forall id | InFamily(s'.db.tokens, family, id) ensures s'.db.tokens[id].revoked.Some? {
      assert id in Members(s'.db.tokens, family);
      assert InFamily(s.db.tokens, family, id);
    }
  }

  lemma FrozenCalls(s: State, s': State, e: Event, family: Id)
    requires CallsMove(s, s', e) && FamilyRevoked(s.db, family)
    ensures forall call :: HoldsLive(s', call, family) ==> HoldsLive(s, call, family)
  {
    forall call | HoldsLive(s', call, family) ensures HoldsLive(s, call, family) {
      var pc, pc' := s.refreshes[call], s'.refreshes[call];
      if pc.Presented? {
        assert InFamily(s.db.tokens, family, pc'.id);
        assert false;
      }
    }
  }

  /** The k-th event is the call's rotation, the first in the family since the state s. */
  ghost predicate FirstGrowth(cfg: Config, s: State, run: seq<Event>, family: Id, k: nat, call: Id)
    requires k < |run|
  {
    var before := Exec(cfg, s, run[..k]);
    HoldsLive(s, call, family) && Frozen(s, before, family) && RotatesFamily(cfg, before, run[k], call, family)
  }

  /**
   After a family revoke, the first token created in the family, if any, is
   created by a call that held a live snapshot of the family's tip when the
   revoke took effect.
   */
  lemma {:induction false} FirstTokenAfterRevoke(cfg: Config, s: State, run: seq<Event>, family: Id)
    requires cfg.variant == AsBuilt && Inv(cfg, s)
    requires family in Families(s.db.tokens) && FamilyRevoked(s.db, family)
    ensures Frozen(s, Exec(cfg, s, run), family)
            || exists k, call :: 0 <= k < |run| && FirstGrowth(cfg, s, run, family, k, call)
    decreases |run|
  {
    if run != [] {
      var n := |run| - 1;
      FirstTokenAfterRevoke(cfg, s, run[..n], family);
      if Frozen(s, Exec(cfg, s, run[..n]), family) {
        LastEventGrows(cfg, s, run, family, n);
      } else {
        var k, call :| 0 <= k < n && FirstGrowth(cfg, s, run[..n], family, k, call);
        GrewEarlier(cfg, s, run, family, k, call);
      }
    }
  }

  lemma {:induction false} GrewEarlier(cfg: Config, s: State, run: seq<Event>, family: Id, k: nat, call: Id)
    requires k < |run| - 1 && FirstGrowth(cfg, s, run[..|run| - 1], family, k, call)
    ensures FirstGrowth(cfg, s, run, family, k, call)
  {
    assert run[..|run| - 1][..k] == run[..k];
  }

  lemma {:induction false} LastEventGrows(cfg: Config, s: State, run: seq<Event>, family: Id, n: nat)
    requires cfg.variant == AsBuilt && Inv(cfg, s) && |run| == n + 1
    requires family in Families(s.db.tokens) && Frozen(s, Exec(cfg, s, run[..n]), family)
    ensures Frozen(s, Exec(cfg, s, run), family) || exists call :: FirstGrowth(cfg, s, run, family, n, call)
  {
    var before := Exec(cfg, s, run[..n]);
    RunPreserves(cfg, s, run[..n]);
    FamilyKept(s.db, before.db, family);
    FrozenStep(cfg, s, before, run[n], family);
    if !Frozen(s, Exec(cfg, s, run), family) {
      assert FirstGrowth(cfg, s, run, family, n, run[n].call);
    }
  }

  lemma FamilyKept(db: Db, db': Db, family: Id)
    requires DbEvolves(db, db') && family in Families(db.tokens)
    ensures family in Families(db'.tokens)
  {
    KeysOfFamilies(db.tokens, family);
    var id :| InFamily(db.tokens, family, id);
    assert db'.tokens[id].family == family;
  }

  /** If nobody holds a live snapshot when the family is revoked, nothing is ever created in it again. */
  lemma {:induction false} RevokedFamilyIsDead(cfg: Config, s: State, run: seq<Event>, family: Id)
    requires cfg.variant == AsBuilt && Reachable(cfg, s)
    requires family in Families(s.db.tokens) && FamilyRevoked(s.db, family)
    requires forall call :: !HoldsLive(s, call, family)
    ensures Members(Exec(cfg, s, run).db.tokens, family) == Members(s.db.tokens, family)
    ensures FamilyRevoked(Exec(cfg, s, run).db, family)
  {
    ReachableInv(cfg, s);
    FirstTokenAfterRevoke(cfg, s, run, family);
  }

  // ---------------------------------------------------- one winner per token

  /** However many calls present a token, at most one of them commits its rotation. */
  lemma AtMostOneWinner(cfg: Config, s: State, a: Id, b: Id, token: Id)
    requires cfg.variant == AsBuilt && Reachable(cfg, s)
    requires a in s.refreshes && Won(s.refreshes[a], token)
    requires b in s.refreshes && Won(s.refreshes[b], token)
    ensures a == b
  {
    ReachableInv(cfg, s);
  }

  /** The revoke reaches the whole family, the winner's child included. */
  lemma ReplayRevokesFamily(cfg: Config, s: State, call: Id)
    requires cfg.variant == AsBuilt && Reachable(cfg, s) && call in s.refreshes && s.refreshes[call].Replaying?
    ensures var pc := s.refreshes[call];
            var s' := Step(cfg, s, Refresh(call, RevokeReplayed(true)));
            && FamilyRevoked(s'.db, pc.token.family)
            && HasChild(s'.db.tokens, pc.token.family, pc.id)
            && s'.refreshes[call] == RefreshDone(ReplayDetected(pc.id, true))
  {
    ReachableInv(cfg, s);
    assert RefreshOk(s.db, s.refreshes[call]);
    ReplayedTables(s.db, s.now, s.refreshes[call].id, s.refreshes[call].token);
  }

  lemma ReplayedTables(db: Db, now: Time, id: Id, token: TokenRow)
    requires TokensOk(db) && RefreshOk(db, Replaying(id, token))
    ensures var db' := RevokeFamily(db, token.family, now, Replayed);
            FamilyRevoked(db', token.family) && HasChild(db'.tokens, token.family, id)
  {
    assert InFamily(db.tokens, token.family, id);
    assert token.family in Families(db.tokens) by { assert db.tokens[id].family == token.family; }
    OneChild(db.tokens, token.family, id);
    RevokeChange(db, token.family, now, Replayed);
    RevisedFamily(db.tokens, RevokeFamily(db, token.family, now, Replayed).tokens, token.family, id);
  }

  lemma RevisedFamily(tokens: map<Id, TokenRow>, tokens': map<Id, TokenRow>, family: Id, id: Id)
    requires Revises(tokens, tokens', family) && HasChild(tokens, family, id)
    ensures HasChild(tokens', family, id)
    ensures forall t :: InFamily(tokens', family, t) ==> tokens'[t].revoked.Some?
  {
    var child :| InFamily(tokens, family, child) && tokens[child].parent == Some(id);
    assert InFamily(tokens', family, child) && tokens'[child].parent == Some(id);
    forall t | InFamily(tokens', family, t) ensures tokens'[t].revoked.Some? {
      assert tokens'[t] == tokens[t].(revoked := tokens'[t].revoked);
    }
  }

  /** In every state, a replay answered with a stored revoke has a consumed token whose child is revoked. */
  lemma ReplayAnswersStand(cfg: Config, s: State, call: Id, token: Id)
    requires cfg.variant == AsBuilt && Reachable(cfg, s)
    requires call in s.refreshes && s.refreshes[call] == RefreshDone(ReplayDetected(token, true))
    ensures token in s.db.tokens && s.db.tokens[token].consumedAt.Some?
    ensures forall child :: child in s.db.tokens && s.db.tokens[child].parent == Some(token) ==>
                              s.db.tokens[child].revoked.Some?
  {
    ReachableInv(cfg, s);
    assert RefreshOk(s.db, s.refreshes[call]);
    var revoked :| revoked in s.db.tokens && s.db.tokens[revoked].parent == Some(token)
      && s.db.tokens[revoked].revoked.Some?;
    forall child | child in s.db.tokens && s.db.tokens[child].parent == Some(token)
      ensures child == revoked
    {
      ParentInFamily(s.db, child);
      ParentInFamily(s.db, revoked);
      OneChild(s.db.tokens, s.db.tokens[token].family, token);
      assert InFamily(s.db.tokens, s.db.tokens[token].family, child);
      assert InFamily(s.db.tokens, s.db.tokens[token].family, revoked);
    }
  }

  lemma ParentInFamily(db: Db, child: Id)
    requires TokensOk(db) && child in db.tokens && db.tokens[child].parent.Some?
    ensures db.tokens[child].family in Families(db.tokens)
    ensures db.tokens[child].parent.value in db.tokens
    ensures db.tokens[db.tokens[child].parent.value].family == db.tokens[child].family
  {
    var family := db.tokens[child].family;
    assert family in Families(db.tokens);
    var session, chain :| IsChain(db.tokens, family, session, chain);
    assert InFamily(db.tokens, family, child);
    var i :| 0 <= i < |chain| && chain[i] == child;
    assert i > 0 && db.tokens[chain[i]].parent == Some(chain[i - 1]);
    assert InFamily(db.tokens, family, chain[i - 1]);
  }

  /** The environment made the call fail at some event of the run. */
  ghost predicate Crashes(run: seq<Event>, call: Id) {
    exists k :: 0 <= k < |run| && run[k] == Refresh(call, RefreshCrash)
  }

  lemma CrashesLater(run: seq<Event>, call: Id)
    requires run != []
    ensures Crashes(run, call) <==> (Crashes(run[..|run| - 1], call) || run[|run| - 1] == Refresh(call, RefreshCrash))
  {
    var shorter := run[..|run| - 1];
    if Crashes(run, call) {
      var k :| 0 <= k < |run| && run[k] == Refresh(call, RefreshCrash);
      assert k < |shorter| ==> shorter[k] == run[k];
    }
    if Crashes(shorter, call) {
      var k :| 0 <= k < |shorter| && shorter[k] == Refresh(call, RefreshCrash);
      assert run[k] == shorter[k];
    }
  }

  /** Where a call that first looks at a consumed token can be; it fails only by a crash. */
  ghost predicate OnReplayPath(pc: RefreshPc, hash: string, id: Id, crashed: bool) {
    match pc
    case Presented(h) => h == hash
    case TokenRead(t, token) => t == id && token.consumedAt.Some?
    case SessionRead(t, token, _) => t == id && token.consumedAt.Some?
    case Replaying(t, _) => t == id
    case RefreshDone(outcome) =>
      (outcome.RefreshFailed? && crashed) || (outcome.ReplayDetected? && outcome.token == id)
    case _ => false
  }

  /** A call that reads the token after its rotation can only end in replay, or crash. */
  lemma {:induction false} LateReaderReplays(cfg: Config, s: State, run: seq<Event>, call: Id, hash: string, id: Id)
    requires cfg.variant == AsBuilt && Inv(cfg, s)
    requires HasHash(s.db.tokens, hash, id) && s.db.tokens[id].consumedAt.Some?
    requires call in s.refreshes && s.refreshes[call] == Presented(hash)
    ensures var s' := Exec(cfg, s, run);
            call in s'.refreshes && OnReplayPath(s'.refreshes[call], hash, id, Crashes(run, call))
    decreases |run|
  {
    if run != [] {
      var shorter := run[..|run| - 1];
      LateReaderReplays(cfg, s, shorter, call, hash, id);
      RunPreserves(cfg, s, shorter);
      CrashesLater(run, call);
      LateReaderStep(cfg, Exec(cfg, s, shorter), run[|run| - 1], call, hash, id, Crashes(shorter, call));
    }
  }

  lemma LateReaderStep(cfg: Config, s: State, e: Event, call: Id, hash: string, id: Id, crashed: bool)
    requires Inv(cfg, s) && HasHash(s.db.tokens, hash, id) && s.db.tokens[id].consumedAt.Some?
    requires call in s.refreshes && OnReplayPath(s.refreshes[call], hash, id, crashed)
    ensures call in Step(cfg, s, e).refreshes
    ensures OnReplayPath(Step(cfg, s, e).refreshes[call], hash, id, crashed || e == Refresh(call, RefreshCrash))
  {
    StepCallsMove(cfg, s, e);
    if e.Refresh? && e.call == call {
      assert RefreshOk(s.db, s.refreshes[call]);
      ReplayPathStep(cfg.refreshTtl, s.db, s.now, s.refreshes[call], e.refresh, hash, id, crashed);
    }
  }

  lemma ReplayPathStep(
      ttl: Time, db: Db, now: Time, pc: RefreshPc, ev: RefreshEvent, hash: string, id: Id, crashed: bool)
    requires TokensOk(db) && RefreshOk(db, pc) && OnReplayPath(pc, hash, id, crashed)
    requires HasHash(db.tokens, hash, id) && db.tokens[id].consumedAt.Some?
    ensures OnReplayPath(RefreshStep(ttl, db, now, pc, ev).1, hash, id, crashed || ev.RefreshCrash?)
  {
    if pc.Presented? && ev.ReadToken? {
      assert TokenWithHash(db.tokens, hash) == Some(id);
    }
  }

  // ---------------------------------------------------------------- losers

  /** The call has a snapshot of the token. */
  predicate Holds(pc: RefreshPc, id: Id) {
    (pc.TokenRead? && pc.id == id) || (pc.SessionRead? && pc.id == id) || (pc.TokenPassed? && pc.id == id)
    || (pc.SessionPassed? && pc.id == id) || (pc.Minted? && pc.id == id)
  }

  /**
   Where a call that holds a token somebody else exchanged can be. Once it has
   minted it can no longer be refused as invalid: it meets the consumed row.
   */
  predicate OnLosingPath(pc: RefreshPc, id: Id, minted: bool, crashed: bool) {
    match pc
    case Replaying(t, _) => t == id
    case RefreshDone(outcome) =>
      || (outcome.ReplayDetected? && outcome.token == id)
      || (outcome.InvalidToken? && !minted)
      || (outcome.RefreshFailed? && crashed)
    case _ => Holds(pc, id) && (minted ==> pc.Minted?)
  }

  /**
   A call that holds a token already exchanged never rotates, in any run and
   from any point of its work: it ends in replay, in a refusal by its own
   checks while they are still ahead, or in a crash.
   */
  lemma {:induction false} LosersNeverRotate(cfg: Config, s: State, run: seq<Event>, call: Id, id: Id)
    requires cfg.variant == AsBuilt && Inv(cfg, s) && id in s.db.tokens && s.db.tokens[id].consumedAt.Some?
    requires call in s.refreshes && Holds(s.refreshes[call], id)
    ensures var s' := Exec(cfg, s, run);
            && call in s'.refreshes
            && OnLosingPath(s'.refreshes[call], id, s.refreshes[call].Minted?, Crashes(run, call))
    decreases |run|
  {
    if run != [] {
      var shorter := run[..|run| - 1];
      LosersNeverRotate(cfg, s, shorter, call, id);
      RunPreserves(cfg, s, shorter);
      CrashesLater(run, call);
      LosingStep(cfg, Exec(cfg, s, shorter), run[|run| - 1], call, id, s.refreshes[call].Minted?,
                 Crashes(shorter, call));
    }
  }

  lemma LosingStep(cfg: Config, s: State, e: Event, call: Id, id: Id, minted: bool, crashed: bool)
    requires Inv(cfg, s) && id in s.db.tokens && s.db.tokens[id].consumedAt.Some?
    requires call in s.refreshes && OnLosingPath(s.refreshes[call], id, minted, crashed)
    ensures call in Step(cfg, s, e).refreshes
    ensures OnLosingPath(Step(cfg, s, e).refreshes[call], id, minted, crashed || e == Refresh(call, RefreshCrash))
  {
    StepCallsMove(cfg, s, e);
    if e.Refresh? && e.call == call {
      LosingPathStep(cfg.refreshTtl, s.db, s.now, s.refreshes[call], e.refresh, id, minted, crashed);
    }
  }

  lemma LosingPathStep(
      ttl: Time, db: Db, now: Time, pc: RefreshPc, ev: RefreshEvent, id: Id, minted: bool, crashed: bool)
    requires id in db.tokens && db.tokens[id].consumedAt.Some? && OnLosingPath(pc, id, minted, crashed)
    ensures OnLosingPath(RefreshStep(ttl, db, now, pc, ev).1, id, minted, crashed || ev.RefreshCrash?)
  {
  }

  // ---------------------------------------------------------- device slots

  ghost function SlotSessions(db: Db, user: Id, device: string): set<Id> {
    set id | id in db.sessions && db.sessions[id].user == user && db.sessions[id].device == device
  }

  ghost function RevokedSessions(db: Db, user: Id, device: string): set<Id> {
    set id | id in db.sessions && db.sessions[id].user == user && db.sessions[id].device == device
             && db.sessions[id].revoked.Some?
  }

  /** A slot holds at most one unrevoked session, whatever the lock keys collide on. */
  lemma SlotsExclusive(cfg: Config, s: State, user: Id, device: string)
    requires cfg.variant == AsBuilt && Reachable(cfg, s)
    ensures forall a, b :: (ActiveIn(s.db, user, device, a) && ActiveIn(s.db, user, device, b)) ==> a == b
    ensures |SlotSessions(s.db, user, device)| <= |RevokedSessions(s.db, user, device)| + 1
  {
    ReachableInv(cfg, s);
    var all, revoked := SlotSessions(s.db, user, device), RevokedSessions(s.db, user, device);
    var active := all - revoked;
    var held := ActiveSession(s.db, user, device);
    forall a | a in active ensures held == Some(a) {
      assert ActiveIn(s.db, user, device, a);
    }
    assert active <= if held.Some? then {held.value} else {};
    assert |active| <= 1 by {
      if held.Some? && held.value in active { assert active == {held.value}; } else { assert active == {}; }
    }
    assert all == revoked + active;
    assert |all| == |revoked| + |active|;
  }

  /** No transaction is ever refused by the unique index or by the revocation check. */
  lemma NoConstraintTrips(cfg: Config, s: State, call: Id)
    requires cfg.variant == AsBuilt && Reachable(cfg, s) && call in s.issues
    ensures s.issues[call].pc != IssueDone(SlotConflict)
    ensures s.issues[call].pc != IssueDone(RevocationCheck)
  {
    ReachableInv(cfg, s);
    assert IssueOk(cfg, s.db, s.now, s.issues[call].req, s.issues[call].pc);
  }

  /** A revocation follows the creation it ends, and a superseded session was young when it was judged. */
  lemma RevocationsAreTimely(cfg: Config, s: State, id: Id)
    requires cfg.variant == AsBuilt && Reachable(cfg, s)
    requires id in s.db.sessions && s.db.sessions[id].revoked.Some?
    ensures s.db.sessions[id].createdAt <= s.db.sessions[id].revoked.value.at
    ensures s.db.sessions[id].revoked.value.reason == SessionSuperseded ==>
              && id in s.decisions
              && s.db.sessions[id].createdAt <= s.decisions[id] <= s.db.sessions[id].createdAt + cfg.grace
              && s.decisions[id] <= s.db.sessions[id].revoked.value.at
  {
    ReachableInv(cfg, s);
    if s.db.sessions[id].revoked.value.reason == SessionSuperseded {
      assert Superseded(s.db, id);
    }
  }

  /** No row is lost and no stored revocation or consumption is ever rewritten. */
  lemma {:induction false} FactsAreStable(cfg: Config, s: State, run: seq<Event>)
    requires cfg.variant == AsBuilt && Reachable(cfg, s)
    ensures DbEvolves(s.db, Exec(cfg, s, run).db)
  {
    ReachableInv(cfg, s);
    RunPreserves(cfg, s, run);
  }
}
