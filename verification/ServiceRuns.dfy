/**
 The bridge between services and machines: a service call, interleaved with
 any events of other calls, is a run of the machine with the same tables and
 the same answer. So what holds of every run holds of the services.
 */
module SessionServiceRuns {
  import opened Prelude
  import opened TokenTables
  import opened RefreshProtocol
  import opened IssueProtocol
  import opened SessionMachine
  import opened AuthServices

  /** Which of the three maps of calls a call lives in. */
  datatype Kind = RefreshCall | LogoutCall | IssueCall

  /** The event is not one of this call. */
  predicate Spares(e: Event, kind: Kind, call: Id) {
    match kind
    case RefreshCall => !((e.Refresh? || e.StartRefresh?) && e.call == call)
    case LogoutCall => !((e.Logout? || e.StartLogout?) && e.call == call)
    case IssueCall => !((e.Issue? || e.StartIssue?) && e.call == call)
  }

  predicate AllSpare(run: seq<Event>, kind: Kind, call: Id) {
    forall i :: 0 <= i < |run| ==> Spares(run[i], kind, call)
  }

  lemma SparedByEvent(cfg: Config, s: State, e: Event, kind: Kind, call: Id)
    requires Spares(e, kind, call)
    ensures var s' := Step(cfg, s, e);
            && (kind.RefreshCall? && call in s.refreshes ==>
                  call in s'.refreshes && s'.refreshes[call] == s.refreshes[call])
            && (kind.LogoutCall? && call in s.logouts ==> call in s'.logouts && s'.logouts[call] == s.logouts[call])
            && (kind.IssueCall? && call in s.issues ==> call in s'.issues && s'.issues[call] == s.issues[call])
  {
  }

  /** Others do not move a call. */
  lemma {:induction false} SparedByRun(cfg: Config, s: State, run: seq<Event>, kind: Kind, call: Id)
    requires AllSpare(run, kind, call)
    ensures var s' := Exec(cfg, s, run);
            && (kind.RefreshCall? && call in s.refreshes ==>
                  call in s'.refreshes && s'.refreshes[call] == s.refreshes[call])
            && (kind.LogoutCall? && call in s.logouts ==> call in s'.logouts && s'.logouts[call] == s.logouts[call])
            && (kind.IssueCall? && call in s.issues ==> call in s'.issues && s'.issues[call] == s.issues[call])
    decreases |run|
  {
    if run != [] {
      var n := |run| - 1;
      SparedByRun(cfg, s, run[..n], kind, call);
      SparedByEvent(cfg, Exec(cfg, s, run[..n]), run[n], kind, call);
    }
  }

  lemma {:induction false} OneMove(cfg: Config, s: State, others: seq<Event>, e: Event)
    ensures Exec(cfg, s, others + [e]) == Step(cfg, Exec(cfg, s, others), e)
  {
    assert (others + [e])[..|others|] == others;
  }

  // --------------------------------------------------------------- refresh

  /** Before its i-th statement others ran `others[i]`, which left the call the moment at[i] and its row unlocked. */
  ghost predicate RefreshInterleaved(
      cfg: Config, s: State, call: Id, others: seq<seq<Event>>, at: seq<Moment>, script: seq<RefreshEvent>, i: nat)
    requires |at| == |script| == |others| && i < |at|
    decreases |at| - i
  {
    && AllSpare(others[i], RefreshCall, call)
    && var t := Exec(cfg, s, others[i]);
       && at[i] == Moment(t.db, t.now) && call in t.refreshes
       && !(t.refreshes[call].Minted? && script[i].Rotate? && RowLocked(t, t.refreshes[call].token.session))
       && var t' := Step(cfg, t, Refresh(call, script[i]));
          && call in t'.refreshes
          && (t'.refreshes[call].RefreshDone? || i + 1 == |at|
              || RefreshInterleaved(cfg, t', call, others, at, script, i + 1))
  }

  /** A refresh among others is a run of the machine. */
  lemma {:induction false} RefreshIsMachineRun(
      cfg: Config, s: State, call: Id, others: seq<seq<Event>>, at: seq<Moment>, script: seq<RefreshEvent>, i: nat)
    returns (run: seq<Event>)
    requires |at| == |script| == |others| && i < |at| && call in s.refreshes
    requires RefreshInterleaved(cfg, s, call, others, at, script, i)
    ensures var s' := Exec(cfg, s, run);
            && call in s'.refreshes
            && (s'.db, s'.refreshes[call]) == RefreshRun(cfg.refreshTtl, s.refreshes[call], at, script, i)
    decreases |at| - i
  {
    var e := Refresh(call, script[i]);
    SparedByRun(cfg, s, others[i], RefreshCall, call);
    OneMove(cfg, s, others[i], e);
    var t' := Step(cfg, Exec(cfg, s, others[i]), e);
    run := others[i] + [e];
    if !t'.refreshes[call].RefreshDone? && i + 1 < |at| {
      var rest := RefreshIsMachineRun(cfg, t', call, others, at, script, i + 1);
      ExecConcat(cfg, s, run, rest);
      run := run + rest;
    }
  }

  // ---------------------------------------------------------------- logout

  ghost predicate LogoutInterleaved(
      cfg: Config, s: State, call: Id, others: seq<seq<Event>>, at: seq<Moment>, i: nat)
    requires |at| == 3 == |others| && i < 3
    decreases 3 - i
  {
    && AllSpare(others[i], LogoutCall, call)
    && var t := Exec(cfg, s, others[i]);
       && at[i] == Moment(t.db, t.now) && call in t.logouts
       && !(t.logouts[call].LogoutSessionRead? && LOGOUT_SCRIPT[i].LogoutCommit?
            && RowLocked(t, t.logouts[call].token.session))
       && var t' := Step(cfg, t, Logout(call, LOGOUT_SCRIPT[i]));
          && call in t'.logouts
          && (t'.logouts[call].LogoutDone? || i == 2 || LogoutInterleaved(cfg, t', call, others, at, i + 1))
  }

  lemma {:induction false} LogoutIsMachineRun(
      cfg: Config, s: State, call: Id, others: seq<seq<Event>>, at: seq<Moment>, i: nat)
    returns (run: seq<Event>)
    requires |at| == 3 == |others| && i < 3 && call in s.logouts && LogoutInterleaved(cfg, s, call, others, at, i)
    ensures var s' := Exec(cfg, s, run);
            call in s'.logouts && (s'.db, s'.logouts[call]) == LogoutRun(s.logouts[call], at, i)
    decreases 3 - i
  {
    var e := Logout(call, LOGOUT_SCRIPT[i]);
    SparedByRun(cfg, s, others[i], LogoutCall, call);
    OneMove(cfg, s, others[i], e);
    var t' := Step(cfg, Exec(cfg, s, others[i]), e);
    run := others[i] + [e];
    if !t'.logouts[call].LogoutDone? && i < 2 {
      var rest := LogoutIsMachineRun(cfg, t', call, others, at, i + 1);
      ExecConcat(cfg, s, run, rest);
      run := run + rest;
    }
  }

  // ----------------------------------------------------------------- issue

  /** Neither lock the statement needs is held by another transaction: it does not wait. */
  ghost predicate NotWaiting(cfg: Config, t: State, call: Id, ev: IssueEvent)
    requires call in t.issues
  {
    var Issuing(req, pc) := t.issues[call];
    && (pc.Begun? && ev.Lock? ==> !LockHeld(cfg, t, KeyOf(cfg, req)))
    && (pc.Admitted? && ev.Revoke? ==> !RowLocked(t, pc.existing))
  }

  ghost predicate IssueInterleaved(
      cfg: Config, s: State, call: Id, others: seq<seq<Event>>, at: seq<Moment>, i: nat)
    requires |at| == 8 == |others| && i < 8
    decreases 8 - i
  {
    && AllSpare(others[i], IssueCall, call)
    && var t := Exec(cfg, s, others[i]);
       && at[i] == Moment(t.db, t.now) && call in t.issues && NotWaiting(cfg, t, call, ISSUE_SCRIPT[i])
       && var t' := Step(cfg, t, Issue(call, ISSUE_SCRIPT[i]));
          && call in t'.issues
          && (t'.issues[call].pc.IssueDone? || i == 7 || IssueInterleaved(cfg, t', call, others, at, i + 1))
  }

  lemma NextWithoutWaiting(cfg: Config, t: State, call: Id, ev: IssueEvent)
    requires call in t.issues && NotWaiting(cfg, t, call, ev)
    ensures IssueNext(cfg, t, call, ev)
         == IssueStep(cfg, t.db, t.now, false, false, t.issues[call].req, t.issues[call].pc, ev)
  {
  }

  lemma IssueMove(cfg: Config, t: State, call: Id, ev: IssueEvent)
    requires call in t.issues && NotWaiting(cfg, t, call, ev)
    ensures var Issuing(req, pc) := t.issues[call];
            var pc' := IssueStep(cfg, t.db, t.now, false, false, req, pc, ev);
            var t' := Step(cfg, t, Issue(call, ev));
            && call in t'.issues && t'.issues[call] == Issuing(req, pc')
            && t'.db == if pc.TokenWritten? && pc' == IssueDone(Issued)
                        then AfterIssue(cfg, t.db, req, pc.txStart, pc.victim, pc.tokenExpiresAt) else t.db
  {
    NextWithoutWaiting(cfg, t, call, ev);
    assert Step(cfg, t, Issue(call, ev)) == IssueMoves(cfg, t, call, ev);
  }

  lemma {:induction false} IssueIsMachineRun(
      cfg: Config, s: State, call: Id, others: seq<seq<Event>>, at: seq<Moment>, i: nat)
    returns (run: seq<Event>)
    requires |at| == 8 == |others| && i < 8 && call in s.issues && IssueInterleaved(cfg, s, call, others, at, i)
    ensures var s' := Exec(cfg, s, run);
            && call in s'.issues && s'.issues[call].req == s.issues[call].req
            && (s'.db, s'.issues[call].pc) == IssueRun(cfg, s.issues[call].req, s.issues[call].pc, at, i)
    decreases 8 - i
  {
    var e := Issue(call, ISSUE_SCRIPT[i]);
    SparedByRun(cfg, s, others[i], IssueCall, call);
    OneMove(cfg, s, others[i], e);
    var t := Exec(cfg, s, others[i]);
    IssueMove(cfg, t, call, ISSUE_SCRIPT[i]);
    var t' := Step(cfg, t, e);
    run := others[i] + [e];
    if !t'.issues[call].pc.IssueDone? && i < 7 {
      var rest := IssueIsMachineRun(cfg, t', call, others, at, i + 1);
      ExecConcat(cfg, s, run, rest);
      run := run + rest;
    }
  }
}

module AccountServiceRuns {
  import opened Prelude
  import opened AccountProtocol
  import opened AccountServices
  import opened UndisturbedCalls

  predicate Spares(e: Event, call: Id) {
    !((e.Start? || e.Move? || e.Crash?) && e.call == call)
  }

  lemma {:induction false} SparedByRun(cfg: Config, s: State, run: seq<Event>, call: Id)
    requires call in s.calls && forall i :: 0 <= i < |run| ==> Spares(run[i], call)
    ensures call in Exec(cfg, s, run).calls && Exec(cfg, s, run).calls[call] == s.calls[call]
    decreases |run|
  {
    if run != [] { SparedByRun(cfg, s, run[..|run| - 1], call); }
  }

  lemma {:induction false} OneMove(cfg: Config, s: State, others: seq<Event>, e: Event)
    ensures Exec(cfg, s, others + [e]) == Step(cfg, Exec(cfg, s, others), e)
  {
    assert (others + [e])[..|others|] == others;
  }

  /** Before its i-th statement others ran `others[i]`, which left the call the tables at[i]. */
  ghost predicate Interleaved(
      cfg: Config, s: State, call: Id, others: seq<seq<Event>>, at: seq<World>, c: seq<Choice>, i: nat)
    requires |at| == |c| == |others| && i < |at|
    decreases |at| - i
  {
    && (forall k :: 0 <= k < |others[i]| ==> Spares(others[i][k], call))
    && var t := Exec(cfg, s, others[i]);
       && at[i] == t.world && call in t.calls
       && var t' := Step(cfg, t, Move(call, c[i]));
          && call in t'.calls
          && (t'.calls[call].Done? || i + 1 == |at| || Interleaved(cfg, t', call, others, at, c, i + 1))
  }

  /** A service call among others is a run of the machine. */
  lemma {:induction false} CallIsMachineRun(
      cfg: Config, s: State, call: Id, others: seq<seq<Event>>, at: seq<World>, c: seq<Choice>, i: nat)
    returns (run: seq<Event>)
    requires |at| == |c| == |others| && i < |at| && call in s.calls && Interleaved(cfg, s, call, others, at, c, i)
    ensures var s' := Exec(cfg, s, run);
            call in s'.calls && (s'.world, s'.calls[call]) == CallRun(cfg, s.calls[call], at, c, i)
    decreases |at| - i
  {
    var e := Move(call, c[i]);
    SparedByRun(cfg, s, others[i], call);
    OneMove(cfg, s, others[i], e);
    var t' := Step(cfg, Exec(cfg, s, others[i]), e);
    run := others[i] + [e];
    if !t'.calls[call].Done? && i + 1 < |at| {
      var rest := CallIsMachineRun(cfg, t', call, others, at, c, i + 1);
      ExecConcat(cfg, s, run, rest);
      run := run + rest;
    }
  }

  /** Nothing happens between the statements of the call. */
  ghost predicate Quiet(cfg: Config, pc: Pc, at: seq<World>, c: Choice, i: nat)
    requires i < |at|
    decreases |at| - i
  {
    var (w, pc') := Advance(cfg, at[i], pc, c);
    pc'.Done? || i + 1 == |at| || (at[i + 1] == w && Quiet(cfg, pc', at, c, i + 1))
  }

  /** And with nobody else about it is the undisturbed call. */
  lemma {:induction false} QuietRunIsAlone(
      cfg: Config, pc: Pc, at: seq<World>, c: Choice, cs: seq<Choice>, i: nat)
    requires i < |at| == |cs| && !pc.Done? && (forall k :: 0 <= k < |cs| ==> cs[k] == c) && Quiet(cfg, pc, at, c, i)
    ensures CallRun(cfg, pc, at, cs, i) == Alone(cfg, at[i], pc, c, |at| - i)
    decreases |at| - i
  {
    var (w, pc') := Advance(cfg, at[i], pc, c);
    Next(cfg, at[i], pc, c, |at| - i, w, pc');
    if pc'.Done? {
      Finished(cfg, w, pc', c, |at| - i - 1);
    } else if i + 1 < |at| {
      QuietRunIsAlone(cfg, pc', at, c, cs, i + 1);
    }
  }
}

module MiddlewareRuns {
  import opened Prelude
  import opened IdempotencyProtocol
  import opened IdempotencyMiddleware

  predicate Spares(e: Event, id: Id) {
    e.Tick? || e.client != id
  }

  lemma {:induction false} SparedByRun(cfg: Config, s: State, run: seq<Event>, id: Id)
    requires id in s.clients && forall i :: 0 <= i < |run| ==> Spares(run[i], id)
    ensures id in Exec(cfg, s, run).clients && Exec(cfg, s, run).clients[id] == s.clients[id]
    decreases |run|
  {
    if run != [] {
      SparedByRun(cfg, s, run[..|run| - 1], id);
      SparedByEvent(cfg, Exec(cfg, s, run[..|run| - 1]), run[|run| - 1], id);
    }
  }

  lemma SparedByEvent(cfg: Config, s: State, e: Event, id: Id)
    requires id in s.clients && Spares(e, id)
    ensures id in Step(cfg, s, e).clients && Step(cfg, s, e).clients[id] == s.clients[id]
  {
  }

  lemma {:induction false} OneMove(cfg: Config, s: State, others: seq<Event>, e: Event)
    ensures Exec(cfg, s, others + [e]) == Step(cfg, Exec(cfg, s, others), e)
  {
    assert (others + [e])[..|others|] == others;
  }

  /** The machine's events for one attempt: the command, as far as it gets, and the client hanging up while it waits. */
  function AttemptEvent(id: Id, v: View): Event {
    if v.reach.ReplyLost? then LoseClaimReply(id) else TryClaim(id, v.reach.Reached?)
  }

  function AfterAttempt(cfg: Config, t: State, id: Id, v: View): State {
    var asked := Step(cfg, t, AttemptEvent(id, v));
    if v.hangsUp && id in asked.clients && asked.clients[id].pc.Polling? then Step(cfg, asked, Die(id)) else asked
  }

  /** One attempt of the loop is one move of the machine. */
  lemma AttemptIsMove(cfg: Config, t: State, id: Id, v: View)
    requires id in t.clients && t.clients[id].pc.Polling? && v.store == t.store && v.now == t.now
    ensures var c := t.clients[id];
            var t' := AfterAttempt(cfg, t, id, v);
            && id in t'.clients && t'.clients[id] == c.(pc := Attempt(v, c.key, c.hash, c.deadline))
            && t'.now == v.now
            && t'.store == if v.reach.Unreached? then v.store
                           else AfterClaim(v.store, c.key, c.hash, v.now, cfg.reservation)
  {
    if v.reach.ReplyLost? {
      assert Step(cfg, t, AttemptEvent(id, v)) == LostReplyStep(cfg, t, id);
    } else {
      assert Step(cfg, t, AttemptEvent(id, v)) == ClaimStep(cfg, t, id, v.reach.Reached?);
    }
  }

  /** Before its i-th attempt others ran `others[i]`, which left the store as at[i] has it. */
  ghost predicate WaitInterleaved(cfg: Config, s: State, id: Id, others: seq<seq<Event>>, at: seq<View>, i: nat)
    requires |at| == |others| && i < |at|
    decreases |at| - i
  {
    && (forall k :: 0 <= k < |others[i]| ==> Spares(others[i][k], id))
    && var t := Exec(cfg, s, others[i]);
       && at[i].store == t.store && at[i].now == t.now
       && (i + 1 == |at| || WaitInterleaved(cfg, AfterAttempt(cfg, t, id, at[i]), id, others, at, i + 1))
  }

  /**
   The claim-and-poll loop among others is a run of the machine: with every
   attempt before the last a wait, the client ends as the last attempt says.
   */
  lemma {:induction false} WaitIsMachineRun(
      cfg: Config, s: State, id: Id, others: seq<seq<Event>>, at: seq<View>, i: nat)
    returns (run: seq<Event>)
    requires |at| == |others| && i < |at| && id in s.clients && s.clients[id].pc.Polling?
    requires WaitInterleaved(cfg, s, id, others, at, i)
    requires var c := s.clients[id];
             forall k :: i <= k < |at| - 1 ==> Attempt(at[k], c.key, c.hash, c.deadline).Polling?
    ensures var c := s.clients[id];
            var v := at[|at| - 1];
            var s' := Exec(cfg, s, run);
            && id in s'.clients && s'.clients[id] == c.(pc := Attempt(v, c.key, c.hash, c.deadline))
            && s'.now == v.now
            && s'.store == if v.reach.Unreached? then v.store
                           else AfterClaim(v.store, c.key, c.hash, v.now, cfg.reservation)
    decreases |at| - i
  {
    var t := Exec(cfg, s, others[i]);
    SparedByRun(cfg, s, others[i], id);
    AttemptIsMove(cfg, t, id, at[i]);
    var e := AttemptEvent(id, at[i]);
    OneMove(cfg, s, others[i], e);
    run := others[i] + [e];
    if at[i].hangsUp && Step(cfg, t, e).clients[id].pc.Polling? {
      OneMove(cfg, s, run, Die(id));
      run := run + [Die(id)];
    }
    var t' := AfterAttempt(cfg, t, id, at[i]);
    if i + 1 < |at| {
      var rest := WaitIsMachineRun(cfg, t', id, others, at, i + 1);
      ExecConcat(cfg, s, run, rest);
      run := run + rest;
    }
  }

  /** The owner's tail among others is a run of the machine: same answer, same store. */
  lemma {:induction false} RunAndSaveIsMachineRun(
      cfg: Config, s: State, id: Id, others: seq<Event>, status: int, body: string, v: View)
    returns (run: seq<Event>)
    requires id in s.clients && s.clients[id].pc.Running? && 100 <= status <= 999
    requires forall k :: 0 <= k < |others| ==> Spares(others[k], id)
    requires var t := Exec(cfg, Step(cfg, s, HandlerReturns(id, status, body)), others);
             v.store == t.store && v.now == t.now
    ensures var c := s.clients[id];
            var s' := Exec(cfg, s, run);
            && id in s'.clients && s'.clients[id].pc == Finished(Executed(status, body))
            && s'.store == if v.reach.Unreached? then v.store
                           else AfterSettle(cfg, v.store, c.key, c.hash, status, body, v.now)
  {
    var e := HandlerReturns(id, status, body);
    var returned := Step(cfg, s, e);
    var t := Exec(cfg, returned, others);
    assert Exec(cfg, s, [e]) == returned by { assert [e][..0] == []; }
    SparedByRun(cfg, returned, others, id);
    ExecConcat(cfg, s, [e], others);
    OneMove(cfg, s, [e] + others, Settle(id, !v.reach.Unreached?));
    run := [e] + others + [Settle(id, !v.reach.Unreached?)];
  }
}
