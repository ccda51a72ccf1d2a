/**
 A step seen from the token table and from one refresh call: the few shapes a
 change can have. Proofs about runs argue over these shapes.
 */
module SessionMoves {
  import opened Prelude
  import opened TokenTables
  import opened TokenChains
  import opened RefreshProtocol
  import opened IssueProtocol
  import opened SessionMachine
  import opened SessionInvariant
  import opened SessionPreservation

  datatype Change =
    | Untouched
    | FamilyRevocation(family: Id)
    | NewFamily(id: Id)
    | Rotation(call: Id, id: Id, child: Id)

  ghost predicate Revises(tokens: map<Id, TokenRow>, tokens': map<Id, TokenRow>, family: Id) {
    && tokens'.Keys == tokens.Keys
    && (forall id :: id in tokens ==> tokens'[id] == tokens[id].(revoked := tokens'[id].revoked))
    && (forall id :: id in tokens && tokens[id].family == family ==> tokens'[id].revoked.Some?)
    && (forall id :: id in tokens && tokens[id].family != family ==> tokens'[id] == tokens[id])
  }

  ghost predicate Roots(tokens: map<Id, TokenRow>, tokens': map<Id, TokenRow>, id: Id) {
    && id !in tokens && tokens'.Keys == tokens.Keys + {id}
    && (forall t :: t in tokens ==> tokens'[t] == tokens[t])
    && tokens'[id].consumedAt.None? && tokens'[id].parent.None? && tokens'[id].family !in Families(tokens)
  }

  ghost predicate Rotates(tokens: map<Id, TokenRow>, tokens': map<Id, TokenRow>, id: Id, child: Id) {
    && id in tokens && child !in tokens && tokens'.Keys == tokens.Keys + {child}
    && tokens[id].consumedAt.None? && tokens'[id].consumedAt.Some?
    && (forall t :: t in tokens && t != id ==> tokens'[t] == tokens[t])
    && tokens'[id].family == tokens[id].family && tokens'[id].revoked == tokens[id].revoked
    && tokens'[child].family == tokens[id].family && tokens'[child].session == tokens[id].session
    && tokens'[child].parent == Some(id) && tokens'[child].consumedAt.None? && tokens'[child].revoked.None?
  }

  ghost predicate TokensChange(s: State, s': State, c: Change) {
    match c
    case Untouched => s'.db.tokens == s.db.tokens
    case FamilyRevocation(family) => Revises(s.db.tokens, s'.db.tokens, family)
    case NewFamily(id) => Roots(s.db.tokens, s'.db.tokens, id)
    case Rotation(call, id, child) =>
      && call in s.refreshes && s.refreshes[call].Minted? && s.refreshes[call].id == id
      && Rotates(s.db.tokens, s'.db.tokens, id, child)
  }

  ghost predicate HoldsBoth(pc: RefreshPc) {
    pc.SessionRead? || pc.TokenPassed? || pc.SessionPassed? || pc.Minted?
  }

  /** How the control state of a refresh call changes in one step. */
  ghost predicate PcMoves(db: Db, pc: RefreshPc, pc': RefreshPc) {
    || pc' == pc
    || (pc.Presented? && pc'.TokenRead? && pc'.id in db.tokens && pc'.token == db.tokens[pc'.id])
    || (pc.TokenRead? && pc'.SessionRead? && pc'.id == pc.id && pc'.token == pc.token
        && pc.token.session in db.sessions && pc'.session == db.sessions[pc.token.session])
    || (HoldsBoth(pc) && HoldsBoth(pc') && pc'.id == pc.id && pc'.token == pc.token && pc'.session == pc.session)
    || pc'.Replaying? || pc'.RefreshDone?
  }

  ghost predicate CallsMove(s: State, s': State, e: Event) {
    && (forall call :: call in s.refreshes ==> call in s'.refreshes)
    && (forall call :: call in s'.refreshes ==>
          if call in s.refreshes then
            && PcMoves(s.db, s.refreshes[call], s'.refreshes[call])
            && (s'.refreshes[call] != s.refreshes[call] ==> e.Refresh? && e.call == call)
          else s'.refreshes[call].Presented?)
  }

  lemma RefreshCallsMove(cfg: Config, s: State, call: Id, ev: RefreshEvent)
    requires call in s.refreshes
    ensures CallsMove(s, RefreshMoves(cfg, s, call, ev), Refresh(call, ev))
  {
    var pc := s.refreshes[call];
    var pc' := RefreshStep(cfg.refreshTtl, s.db, s.now, pc, ev).1;
    assert PcMoves(s.db, pc, pc') by {
      if pc.Presented? && ev.ReadToken? {
      } else if pc.TokenRead? && ev.ReadSession? {
      } else if pc.Minted? && ev.Rotate? {
      } else if pc.Replaying? && ev.RevokeReplayed? {
      } else if ev.RefreshCrash? {
      } else {
      }
    }
  }

  lemma StepCallsMove(cfg: Config, s: State, e: Event)
    ensures CallsMove(s, Step(cfg, s, e), e)
  {
    if e.Refresh? && e.call in s.refreshes {
      RefreshCallsMove(cfg, s, e.call, e.refresh);
    } else {
      var s' := Step(cfg, s, e);
      assert s'.refreshes == s.refreshes
          || (e.StartRefresh? && s'.refreshes == s.refreshes[e.call := Presented(e.hash)]);
    }
  }

  lemma RotateChange(db: Db, now: Time, pc: RefreshPc, delivered: bool)
    requires pc.Minted? && RefreshOk(db, pc)
    ensures var db' := RotateStep(db, now, pc, delivered).0;
            db'.tokens == db.tokens || Rotates(db.tokens, db'.tokens, pc.id, pc.childId)
  {
  }

  lemma RevokeChange(db: Db, family: Id, now: Time, reason: TokenReason)
    ensures Revises(db.tokens, RevokeFamily(db, family, now, reason).tokens, family)
  {
  }

  lemma RefreshChange(cfg: Config, s: State, call: Id, ev: RefreshEvent) returns (c: Change)
    requires Inv(cfg, s) && call in s.refreshes
    ensures TokensChange(s, RefreshMoves(cfg, s, call, ev), c)
    ensures c.Rotation? ==> c.call == call && ev.Rotate?
    ensures !c.NewFamily?
  {
    var pc := s.refreshes[call];
    var s' := RefreshMoves(cfg, s, call, ev);
    assert RefreshOk(s.db, pc);
    c := Untouched;
    if pc.Minted? && ev.Rotate? && !RowLocked(s, pc.token.session) {
      RotateChange(s.db, s.now, pc, ev.delivered);
      if s'.db.tokens != s.db.tokens { c := Rotation(call, pc.id, pc.childId); }
    } else if pc.Replaying? && ev.RevokeReplayed? && ev.stored {
      RevokeChange(s.db, pc.token.family, s.now, Replayed);
      c := FamilyRevocation(pc.token.family);
    } else {
      QuietRefresh(cfg, s, call, ev);
    }
  }

  lemma QuietRefresh(cfg: Config, s: State, call: Id, ev: RefreshEvent)
    requires call in s.refreshes
    requires var pc := s.refreshes[call];
             && !(pc.Minted? && ev.Rotate? && !RowLocked(s, pc.token.session))
             && !(pc.Replaying? && ev.RevokeReplayed? && ev.stored)
    ensures RefreshMoves(cfg, s, call, ev).db == s.db
  {
  }

  lemma StepChange(cfg: Config, s: State, e: Event) returns (c: Change)
    requires cfg.variant == AsBuilt && Inv(cfg, s)
    ensures TokensChange(s, Step(cfg, s, e), c)
    ensures c.Rotation? ==> e.Refresh? && e.call == c.call && e.refresh.Rotate?
  {
    c := Untouched;
    if e.Refresh? && e.call in s.refreshes {
      c := RefreshChange(cfg, s, e.call, e.refresh);
    } else if e.Logout? && e.call in s.logouts && s.logouts[e.call].LogoutSessionRead? && e.logout.LogoutCommit? {
      c := LogoutChange(cfg, s, e.call);
    } else if e.Issue? && e.call in s.issues && s.issues[e.call].pc.TokenWritten? && e.issue.Commit? {
      c := IssueChange(cfg, s, e.call);
    } else {
      QuietStep(cfg, s, e);
    }
  }

  lemma QuietStep(cfg: Config, s: State, e: Event)
    requires !(e.Refresh? && e.call in s.refreshes)
    requires !(e.Logout? && e.call in s.logouts && s.logouts[e.call].LogoutSessionRead? && e.logout.LogoutCommit?)
    requires !(e.Issue? && e.call in s.issues && s.issues[e.call].pc.TokenWritten? && e.issue.Commit?)
    ensures Step(cfg, s, e).db == s.db
  {
  }

  lemma LogoutChange(cfg: Config, s: State, call: Id) returns (c: Change)
    requires call in s.logouts && s.logouts[call].LogoutSessionRead?
    ensures TokensChange(s, LogoutMoves(s, call, LogoutCommit), c) && !c.Rotation?
  {
    var token := s.logouts[call].token;
    if RowLocked(s, token.session) || !RevocationAllowed(s.db, token.session, s.now) {
      c := Untouched;
    } else {
      RevokeChange(RevokeSession(s.db, token.session, s.now, UserLogout), token.family, s.now, LoggedOut);
      c := FamilyRevocation(token.family);
    }
  }

  lemma IssueChange(cfg: Config, s: State, call: Id) returns (c: Change)
    requires Inv(cfg, s) && call in s.issues && s.issues[call].pc.TokenWritten?
    ensures TokensChange(s, IssueMoves(cfg, s, call, Commit), c) && !c.Rotation?
  {
    var Issuing(req, pc) := s.issues[call];
    if IssueNext(cfg, s, call, Commit) == IssueDone(Issued) {
      assert req.familyId !in Families(s.db.tokens);
      var mid := AfterSession(cfg, s.db, req, pc.txStart, pc.victim);
      assert mid.tokens == s.db.tokens;
      c := NewFamily(req.tokenId);
    } else {
      c := Untouched;
    }
  }
}
