/**
 Concrete runs. They show that a guarantee rests on the decision named in the
 variant, and where a stronger claim about the code would be false.
 */
module SessionRuns {
  import opened Prelude
  import opened TokenTables
  import opened TokenChains
  import opened RefreshProtocol
  import opened IssueProtocol
  import opened SessionMachine
  import opened SessionInvariant

  function Cfg(variant: Variant): Config {
    Config(10, 100, 50, (user, device) => 0, variant)
  }

  const FIRST := Request(1, "phone", 11, 21, 31, "first")
  const SECOND := Request(1, "phone", 12, 22, 32, "second")

  lemma ReachInit(cfg: Config, start: Time)
    ensures Reachable(cfg, Init(start))
  {
    assert Exec(cfg, Init(start), []) == Init(start);
  }

  lemma ReachStep(cfg: Config, s: State, e: Event)
    requires Reachable(cfg, s)
    ensures Reachable(cfg, Step(cfg, s, e))
  {
    var start: Time, run: seq<Event> :| s == Exec(cfg, Init(start), run);
    assert (run + [e])[..|run + [e]| - 1] == run;
    assert Step(cfg, s, e) == Exec(cfg, Init(start), run + [e]);
  }

  /** One statement of an issuing transaction that leaves the tables alone. */
  lemma IssueTo(cfg: Config, s: State, call: Id, req: Request, pc: IssuePc, ev: IssueEvent, pc': IssuePc)
    returns (s': State)
    requires Reachable(cfg, s) && call in s.issues && s.issues[call] == Issuing(req, pc) && !pc.TokenWritten?
    requires ev.Lock? ==> !LockHeld(cfg, s, KeyOf(cfg, req))
    requires pc.Admitted? ==> !RowLocked(s, pc.existing)
    requires IssueStep(cfg, s.db, s.now, false, false, req, pc, ev) == pc'
    ensures Reachable(cfg, s') && s' == s.(issues := s.issues[call := Issuing(req, pc')])
  {
    ReachStep(cfg, s, Issue(call, ev));
    s' := Step(cfg, s, Issue(call, ev));
    assert IssueNext(cfg, s, call, ev) == pc';
  }

  /** One read or check of a refresh call. */
  lemma RefreshTo(cfg: Config, s: State, call: Id, ev: RefreshEvent, pc: RefreshPc) returns (s': State)
    requires Reachable(cfg, s) && call in s.refreshes && !s.refreshes[call].Minted?
    requires RefreshStep(cfg.refreshTtl, s.db, s.now, s.refreshes[call], ev) == (s.db, pc)
    ensures Reachable(cfg, s') && s' == s.(refreshes := s.refreshes[call := pc])
  {
    ReachStep(cfg, s, Refresh(call, ev));
    s' := Step(cfg, s, Refresh(call, ev));
  }

  lemma LogoutTo(cfg: Config, s: State, call: Id, ev: LogoutEvent, pc: LogoutPc) returns (s': State)
    requires Reachable(cfg, s) && call in s.logouts && !s.logouts[call].LogoutSessionRead?
    requires LogoutStep(s.db, s.now, s.logouts[call], ev) == (s.db, pc)
    ensures Reachable(cfg, s') && s' == s.(logouts := s.logouts[call := pc])
  {
    ReachStep(cfg, s, Logout(call, ev));
    s' := Step(cfg, s, Logout(call, ev));
  }

  /** Call 2 begins and waits while call 1 creates the slot's session and commits. */
  lemma TwoIssuers(variant: Variant) returns (s: State)
    ensures Reachable(Cfg(variant), s)
    ensures s.now == 5 && s.db.sessions == map[11 := SessionFor(Cfg(variant), FIRST, 5)]
    ensures s.issues == map[1 := Issuing(FIRST, IssueDone(Issued)),
                            2 := Issuing(SECOND, Begun(0, Db(map[], map[])))]
    ensures s.db.tokens == map[31 := RootFor(FIRST, 5, 55)]
  {
    var cfg := Cfg(variant);
    var s0 := Init(0);
    ReachInit(cfg, 0);
    ReachStep(cfg, s0, StartIssue(2, SECOND));
    var s1 := Step(cfg, s0, StartIssue(2, SECOND));
    assert s1 == s0.(issues := map[2 := Issuing(SECOND, Requested)]);
    var s2 := IssueTo(cfg, s1, 2, SECOND, Requested, Begin, Begun(0, s0.db));
    var s4 := SecondStart(cfg, s2);
    s := OneIssue(cfg, s4, 1);
  }

  lemma SecondStart(cfg: Config, s: State) returns (s': State)
    requires Reachable(cfg, s)
    requires s == Init(0).(issues := map[2 := Issuing(SECOND, Begun(0, Db(map[], map[])))])
    ensures Reachable(cfg, s')
    ensures s' == s.(now := 5, issues := s.issues[1 := Issuing(FIRST, Requested)])
  {
    ReachStep(cfg, s, Tick(5));
    var s3 := Step(cfg, s, Tick(5));
    ReachStep(cfg, s3, StartIssue(1, FIRST));
    s' := Step(cfg, s3, StartIssue(1, FIRST));
  }

  /** An undisturbed issue into empty tables. */
  lemma OneIssue(cfg: Config, s: State, call: Id) returns (s': State)
    requires Reachable(cfg, s) && call in s.issues && s.issues[call] == Issuing(FIRST, Requested)
    requires cfg == Cfg(cfg.variant) && s.db == Db(map[], map[])
    requires forall c :: c in s.issues ==> !HoldsLock(s.issues[c].pc)
    ensures Reachable(cfg, s')
    ensures s' == s.(db := Db(map[11 := SessionFor(cfg, FIRST, s.now)], map[31 := RootFor(FIRST, s.now, s.now + 50)]),
                     issues := s.issues[call := Issuing(FIRST, IssueDone(Issued))])
  {
    var s1 := IssueTo(cfg, s, call, FIRST, Requested, Begin, Begun(s.now, s.db));
    assert !LockHeld(cfg, s1, KeyOf(cfg, FIRST));
    var s2 := IssueTo(cfg, s1, call, FIRST, Begun(s.now, s.db), Lock, Locked(s.now, s.db));
    var s3 := IssueTo(cfg, s2, call, FIRST, Locked(s.now, s.db), Find, Looked(s.now, None, 0));
    s' := OneIssueWrites(cfg, s3, call, s.now);
    assert s'.issues == s.issues[call := Issuing(FIRST, IssueDone(Issued))];
  }

  lemma OneIssueWrites(cfg: Config, s: State, call: Id, t: Time) returns (s': State)
    requires Reachable(cfg, s) && cfg == Cfg(cfg.variant) && s.db == Db(map[], map[]) && s.now == t
    requires call in s.issues && s.issues[call] == Issuing(FIRST, Looked(t, None, 0))
    ensures Reachable(cfg, s')
    ensures s' == s.(db := Db(map[11 := SessionFor(cfg, FIRST, t)], map[31 := RootFor(FIRST, t, t + 50)]),
                     issues := s.issues[call := Issuing(FIRST, IssueDone(Issued))])
  {
    var s4 := IssueTo(cfg, s, call, FIRST, Looked(t, None, 0), Decide, Cleared(t, None));
    var s5 := IssueTo(cfg, s4, call, FIRST, Cleared(t, None), WriteSession, SessionWritten(t, None));
    var s6 := IssueTo(cfg, s5, call, FIRST, SessionWritten(t, None), WriteToken, TokenWritten(t, None, t + 50));
    s' := CommitFirst(cfg, s6, call, t);
    assert s'.issues == s.issues[call := Issuing(FIRST, IssueDone(Issued))];
  }

  lemma CommitFirst(cfg: Config, s: State, call: Id, t: Time) returns (s': State)
    requires Reachable(cfg, s) && cfg == Cfg(cfg.variant) && s.db == Db(map[], map[])
    requires call in s.issues && s.issues[call] == Issuing(FIRST, TokenWritten(t, None, t + 50))
    ensures Reachable(cfg, s')
    ensures s' == s.(db := Db(map[11 := SessionFor(cfg, FIRST, t)], map[31 := RootFor(FIRST, t, t + 50)]),
                     issues := s.issues[call := Issuing(FIRST, IssueDone(Issued))])
  {
    ReachStep(cfg, s, Issue(call, Commit));
    s' := Step(cfg, s, Issue(call, Commit));
    var mid := AfterSession(cfg, s.db, FIRST, t, None);
    assert TokenInsertable(mid, 31, RootFor(FIRST, t, t + 50));
  }

  const NOTHING := Db(map[], map[])

  /** Call 2 gets the lock after call 1 has committed. */
  lemma QueuedGetsLock(variant: Variant) returns (s: State)
    ensures Reachable(Cfg(variant), s) && s.now == 5
    ensures s.db == Db(map[11 := SessionFor(Cfg(variant), FIRST, 5)], map[31 := RootFor(FIRST, 5, 55)])
    ensures s.issues == map[1 := Issuing(FIRST, IssueDone(Issued)), 2 := Issuing(SECOND, Locked(0, NOTHING))]
  {
    var s0 := TwoIssuers(variant);
    assert !LockHeld(Cfg(variant), s0, KeyOf(Cfg(variant), SECOND));
    s := IssueTo(Cfg(variant), s0, 2, SECOND, Begun(0, NOTHING), Lock, Locked(0, NOTHING));
  }

  /** With the transaction start as revocation time, a queued transaction revokes before the creation. */
  lemma TxStartRevocationTripsCheck()
    ensures exists s :: Reachable(Cfg(RevokeAtTxStart), s) && 2 in s.issues
                        && s.issues[2].pc == IssueDone(RevocationCheck)
  {
    var cfg := Cfg(RevokeAtTxStart);
    var s1 := QueuedGetsLock(RevokeAtTxStart);
    assert ActiveIn(s1.db, 1, "phone", 11);
    var s2 := IssueTo(cfg, s1, 2, SECOND, Locked(0, NOTHING), Find, Looked(0, Some(11), 5));
    var s4 := RevokeTooEarly(cfg, s2);
  }

  lemma RevokeTooEarly(cfg: Config, s: State) returns (s': State)
    requires cfg == Cfg(RevokeAtTxStart) && Reachable(cfg, s) && s.now == 5
    requires s.db.sessions == map[11 := SessionFor(cfg, FIRST, 5)]
    requires s.issues == map[1 := Issuing(FIRST, IssueDone(Issued)), 2 := Issuing(SECOND, Looked(0, Some(11), 5))]
    ensures Reachable(cfg, s') && 2 in s'.issues && s'.issues[2].pc == IssueDone(RevocationCheck)
  {
    var s3 := IssueTo(cfg, s, 2, SECOND, Looked(0, Some(11), 5), Decide, Admitted(0, 11, 5));
    assert !RowLocked(s3, 11);
    s' := IssueTo(cfg, s3, 2, SECOND, Admitted(0, 11, 5), Revoke, IssueDone(RevocationCheck));
  }

  /** With one snapshot per transaction, the queued transaction misses the session it waited for. */
  lemma SnapshotReadTripsIndex()
    ensures exists s :: Reachable(Cfg(SnapshotAtBegin), s) && 2 in s.issues
                        && s.issues[2].pc == IssueDone(SlotConflict)
  {
    var cfg := Cfg(SnapshotAtBegin);
    var s1 := QueuedGetsLock(SnapshotAtBegin);
    var s2 := IssueTo(cfg, s1, 2, SECOND, Locked(0, NOTHING), Find, Looked(0, None, 0));
    var s4 := WriteIntoTakenSlot(cfg, s2);
  }

  lemma WriteIntoTakenSlot(cfg: Config, s: State) returns (s': State)
    requires cfg == Cfg(SnapshotAtBegin) && Reachable(cfg, s)
    requires s.db.sessions == map[11 := SessionFor(cfg, FIRST, 5)]
    requires 2 in s.issues && s.issues[2] == Issuing(SECOND, Looked(0, None, 0))
    ensures Reachable(cfg, s') && 2 in s'.issues && s'.issues[2].pc == IssueDone(SlotConflict)
  {
    var s3 := IssueTo(cfg, s, 2, SECOND, Looked(0, None, 0), Decide, Cleared(0, None));
    assert ActiveIn(s.db, 1, "phone", 11);
    s' := IssueTo(cfg, s3, 2, SECOND, Cleared(0, None), WriteSession, IssueDone(SlotConflict));
  }

  /**
   A refresh in flight when its session is logged out may still commit: its
   consume tests consumed_at alone. The new token is not revoked.
   */
  lemma LogoutDoesNotStopRefreshInFlight()
    ensures exists s :: Reachable(Cfg(AsBuilt), s)
              && 11 in s.db.sessions && s.db.sessions[11].revoked.Some?
              && 33 in s.db.tokens && s.db.tokens[33].session == 11 && s.db.tokens[33].revoked.None?
              && s.rotations == 1
  {
    var cfg := Cfg(AsBuilt);
    ReachInit(cfg, 0);
    ReachStep(cfg, Init(0), StartIssue(1, FIRST));
    var s0 := Step(cfg, Init(0), StartIssue(1, FIRST));
    assert s0 == Init(0).(issues := map[1 := Issuing(FIRST, Requested)]);
    var s1 := OneIssue(cfg, s0, 1);
    var root := RootFor(FIRST, 0, 50);
    var session := SessionFor(cfg, FIRST, 0);
    var s2 := RefreshUpToCommit(cfg, s1, root, session);
    var s3 := LogoutAll(cfg, s2, root, session);
    var s4 := RotateAfterLogout(cfg, s3, root, session);
  }

  lemma RotateAfterLogout(cfg: Config, s: State, root: TokenRow, session: SessionRow) returns (s': State)
    requires cfg == Cfg(AsBuilt) && Reachable(cfg, s) && s.now == 0
    requires root == RootFor(FIRST, 0, 50) && session == SessionFor(cfg, FIRST, 0)
    requires s.refreshes == map[1 := Minted(31, root, session, 33, Child(31, root, "next", 50, 0))]
    requires s.db == Db(map[11 := session.(revoked := Some(SessionRevocation(0, UserLogout)))],
                        map[31 := root.(revoked := Some(TokenRevocation(0, LoggedOut)))])
    requires forall c :: c in s.issues ==> VictimOf(s.issues[c].pc).None?
    ensures Reachable(cfg, s') && s'.rotations == s.rotations + 1
    ensures 11 in s'.db.sessions && s'.db.sessions[11].revoked.Some?
    ensures 33 in s'.db.tokens && s'.db.tokens[33].session == 11 && s'.db.tokens[33].revoked.None?
  {
    ReachStep(cfg, s, Refresh(1, Rotate(true)));
    s' := Step(cfg, s, Refresh(1, Rotate(true)));
    assert !RowLocked(s, 11);
    var consumed := ConsumeToken(s.db, 31, 0);
    assert TokenInsertable(consumed, 33, Child(31, root, "next", 50, 0));
  }

  lemma RefreshUpToCommit(cfg: Config, s: State, root: TokenRow, session: SessionRow) returns (s': State)
    requires cfg == Cfg(AsBuilt) && Reachable(cfg, s) && s.now == 0 && s.refreshes == map[]
    requires root == RootFor(FIRST, 0, 50) && session == SessionFor(cfg, FIRST, 0)
    requires s.db == Db(map[11 := session], map[31 := root])
    ensures Reachable(cfg, s')
    ensures s' == s.(refreshes := map[1 := Minted(31, root, session, 33, Child(31, root, "next", 50, 0))])
  {
    ReachStep(cfg, s, StartRefresh(1, "first"));
    var s1 := Step(cfg, s, StartRefresh(1, "first"));
    assert HasHash(s.db.tokens, "first", 31);
    var s2 := RefreshTo(cfg, s1, 1, ReadToken, TokenRead(31, root));
    var s3 := RefreshTo(cfg, s2, 1, ReadSession, SessionRead(31, root, session));
    s' := RefreshChecks(cfg, s3, root, session);
    assert s'.refreshes == map[1 := Minted(31, root, session, 33, Child(31, root, "next", 50, 0))];
  }

  lemma RefreshChecks(cfg: Config, s: State, root: TokenRow, session: SessionRow) returns (s': State)
    requires cfg == Cfg(AsBuilt) && Reachable(cfg, s) && s.now == 0
    requires root == RootFor(FIRST, 0, 50) && session == SessionFor(cfg, FIRST, 0)
    requires 1 in s.refreshes && s.refreshes[1] == SessionRead(31, root, session)
    ensures Reachable(cfg, s')
    ensures s' == s.(refreshes := s.refreshes[1 := Minted(31, root, session, 33, Child(31, root, "next", 50, 0))])
  {
    var s4 := RefreshTo(cfg, s, 1, CheckToken, TokenPassed(31, root, session));
    var s5 := RefreshTo(cfg, s4, 1, CheckSession, SessionPassed(31, root, session));
    s' := RefreshTo(cfg, s5, 1, Mint(33, "next"), Minted(31, root, session, 33, Child(31, root, "next", 50, 0)));
  }

  lemma LogoutAll(cfg: Config, s: State, root: TokenRow, session: SessionRow) returns (s': State)
    requires cfg == Cfg(AsBuilt) && Reachable(cfg, s) && s.now == 0 && s.logouts == map[]
    requires root == RootFor(FIRST, 0, 50) && session == SessionFor(cfg, FIRST, 0)
    requires s.db == Db(map[11 := session], map[31 := root])
    requires forall c :: c in s.issues ==> VictimOf(s.issues[c].pc).None?
    ensures Reachable(cfg, s') && s'.refreshes == s.refreshes && s'.issues == s.issues && s'.now == 0
    ensures s'.rotations == s.rotations
    ensures s'.db == Db(map[11 := session.(revoked := Some(SessionRevocation(0, UserLogout)))],
                        map[31 := root.(revoked := Some(TokenRevocation(0, LoggedOut)))])
  {
    ReachStep(cfg, s, StartLogout(2, "first"));
    var s1 := Step(cfg, s, StartLogout(2, "first"));
    assert HasHash(s.db.tokens, "first", 31);
    var s2 := LogoutTo(cfg, s1, 2, LogoutReadToken, LogoutTokenRead(31, root));
    var s3 := LogoutTo(cfg, s2, 2, LogoutReadSession, LogoutSessionRead(31, root));
    s' := CommitLogout(cfg, s3, root, session);
  }

  lemma CommitLogout(cfg: Config, s: State, root: TokenRow, session: SessionRow) returns (s': State)
    requires Reachable(cfg, s) && s.now == 0 && 2 in s.logouts && s.logouts[2] == LogoutSessionRead(31, root)
    requires root == RootFor(FIRST, 0, 50) && session == SessionFor(cfg, FIRST, 0)
    requires s.db == Db(map[11 := session], map[31 := root])
    requires forall c :: c in s.issues ==> VictimOf(s.issues[c].pc).None?
    ensures Reachable(cfg, s') && s'.refreshes == s.refreshes && s'.issues == s.issues && s'.now == 0
    ensures s'.rotations == s.rotations
    ensures s'.db == Db(map[11 := session.(revoked := Some(SessionRevocation(0, UserLogout)))],
                        map[31 := root.(revoked := Some(TokenRevocation(0, LoggedOut)))])
  {
    ReachStep(cfg, s, Logout(2, LogoutCommit));
    s' := Step(cfg, s, Logout(2, LogoutCommit));
    assert !RowLocked(s, 11);
    assert s'.db.tokens == map[31 := root.(revoked := Some(TokenRevocation(0, LoggedOut)))];
  }
}
