/**
 When a status set by an operator survives: verification writes back the
 status it read before its transaction, so a call already past that read can
 undo the operator's.
 */
module AccountStatuses {
  import opened Prelude
  import opened AccountProtocol
  import opened AccountTheorems

  /** The call has read another status and would write it back, having won the token. */
  ghost predicate WritesBack(w: World, pc: Pc, user: Id, status: Status) {
    && pc.VerCommit? && pc.user == user && VerifiedStatus(pc.status) != status
    && pc.tokenId in w.tokens && w.tokens[pc.tokenId].consumedAt.None?
  }

  /** No operator touches the account during the run. */
  predicate Untouched(run: seq<Event>, user: Id) {
    forall k :: 0 <= k < |run| ==> !(run[k].SetStatus? && run[k].user == user)
  }

  ghost predicate HasStatus(w: World, user: Id, status: Status) {
    user in w.users && w.users[user].status == status
  }

  /** The status stands and no call would write another back. */
  ghost predicate Stands(s: State, user: Id, status: Status) {
    && HasStatus(s.world, user, status)
    && forall c :: c in s.calls ==> !WritesBack(s.world, s.calls[c], user, status)
  }

  lemma StatementKeepsStatus(cfg: Config, w: World, pc: Pc, c: Choice, user: Id, status: Status)
    requires status != Pending && HasStatus(w, user, status) && !WritesBack(w, pc, user, status)
    ensures var (w', pc') := Advance(cfg, w, pc, c);
            HasStatus(w', user, status) && !WritesBack(w', pc', user, status)
  {
  }

  lemma StandsStep(cfg: Config, s: State, e: Event, user: Id, status: Status)
    requires Inv(cfg, s) && status != Pending && Stands(s, user, status)
    requires !(e.SetStatus? && e.user == user)
    ensures Stands(Step(cfg, s, e), user, status)
  {
    var s' := Step(cfg, s, e);
    StepKeeps(cfg, s, e);
    if e.Move? && e.call in s.calls {
      StatementKeepsStatus(cfg, s.world, s.calls[e.call], e.choice, user, status);
    }
    StatusElsewhere(cfg, s, e, user, status);
    forall c | c in s'.calls && !(e.Move? && e.call == c) ensures !WritesBack(s'.world, s'.calls[c], user, status) {
      if c in s.calls && s'.calls[c] == s.calls[c] {
        BystanderWritesNothing(cfg, s, s'.world, c, user, status);
      }
    }
  }

  lemma BystanderWritesNothing(cfg: Config, s: State, w: World, call: Id, user: Id, status: Status)
    requires Inv(cfg, s) && call in s.calls && Evolves(s.world, w)
    requires !WritesBack(s.world, s.calls[call], user, status)
    ensures !WritesBack(w, s.calls[call], user, status)
  {
    assert PcOk(cfg, s.world, s.calls[call]);
    if s.calls[call].VerCommit? {
      assert TokenEvolves(s.world.tokens[s.calls[call].tokenId], w.tokens[s.calls[call].tokenId]);
    }
  }

  lemma StatusElsewhere(cfg: Config, s: State, e: Event, user: Id, status: Status)
    requires HasStatus(s.world, user, status) && !(e.SetStatus? && e.user == user)
    ensures !(e.Move? && e.call in s.calls) ==> HasStatus(Step(cfg, s, e).world, user, status)
    ensures forall c :: c in Step(cfg, s, e).calls && !(e.Move? && e.call == c) ==>
              (c in s.calls && Step(cfg, s, e).calls[c] == s.calls[c]) || !Step(cfg, s, e).calls[c].VerCommit?
  {
  }

  lemma {:induction false} StandsOver(cfg: Config, s: State, run: seq<Event>, user: Id, status: Status)
    requires Inv(cfg, s) && status != Pending && Stands(s, user, status) && Untouched(run, user)
    ensures Stands(Exec(cfg, s, run), user, status)
    decreases |run|
  {
    if run != [] {
      var shorter := run[..|run| - 1];
      assert Untouched(shorter, user) by {
        forall k | 0 <= k < |shorter| ensures !(shorter[k].SetStatus? && shorter[k].user == user) {
          assert shorter[k] == run[k];
        }
      }
      StandsOver(cfg, s, shorter, user, status);
      RunKeeps(cfg, s, shorter);
      StandsStep(cfg, Exec(cfg, s, shorter), run[|run| - 1], user, status);
    }
  }

  lemma {:induction false} WriteBack(cfg: Config, s: State, call: Id, user: Id, status: Status)
    returns (run: seq<Event>)
    requires call in s.calls && WritesBack(s.world, s.calls[call], user, status) && HasStatus(s.world, user, status)
    ensures Untouched(run, user) && !HasStatus(Exec(cfg, s, run).world, user, status)
  {
    var e := Move(call, Choice(0, 0, "", None, true));
    run := [e];
    assert run[..0] == [] && Exec(cfg, s, run) == Step(cfg, s, e);
  }

  /**
   The status of an account, once not PENDING, survives every run in which no
   operator touches it exactly when no call is about to commit with a status
   it read before and a token nobody has consumed yet.
   */
  lemma {:induction false} StatusSurvivesIffNoneWritesBack(cfg: Config, s: State, user: Id, status: Status)
    requires Reachable(cfg, s) && status != Pending && HasStatus(s.world, user, status)
    ensures (forall run :: Untouched(run, user) ==> HasStatus(Exec(cfg, s, run).world, user, status))
            <==> (forall c :: c in s.calls ==> !WritesBack(s.world, s.calls[c], user, status))
  {
    ReachableInv(cfg, s);
    if c :| c in s.calls && WritesBack(s.world, s.calls[c], user, status) {
      var run := WriteBack(cfg, s, c, user, status);
    } else {
      forall run | Untouched(run, user) ensures HasStatus(Exec(cfg, s, run).world, user, status) {
        StandsOver(cfg, s, run, user, status);
      }
    }
  }
}
