/**
 All refresh, logout and session-issuing calls over one database, interleaved
 in any order. An event names the call that moves and carries every choice the
 environment makes for it; an event that is not enabled changes nothing, so
 every sequence of events is a run.
 */
module SessionMachine {
  import opened Prelude
  import opened TokenTables
  import opened RefreshProtocol
  import opened IssueProtocol

  datatype Issuing = Issuing(req: Request, pc: IssuePc)

  /**
   `decisions` and `rotations` are history: for each superseded session, the
   instant its age was judged; and the number of rotations committed so far.
   */
  datatype State = State(
    now: Time,
    db: Db,
    refreshes: map<Id, RefreshPc>,
    logouts: map<Id, LogoutPc>,
    issues: map<Id, Issuing>,
    decisions: map<Id, Time>,
    rotations: nat)

  datatype Event =
    | Tick(elapsed: nat)
    | StartRefresh(call: Id, hash: string)
    | Refresh(call: Id, refresh: RefreshEvent)
    | StartLogout(call: Id, hash: string)
    | Logout(call: Id, logout: LogoutEvent)
    | StartIssue(call: Id, req: Request)
    | Issue(call: Id, issue: IssueEvent)

  function Init(start: Time): State {
    State(start, Db(map[], map[]), map[], map[], map[], map[], 0)
  }

  /** Two slots may share a lock key: the key is a 64-bit hash. */
  function KeyOf(cfg: Config, req: Request): int {
    cfg.lockKey(req.user, req.device)
  }

  ghost predicate LockHeld(cfg: Config, s: State, key: int) {
    exists call :: call in s.issues && HoldsLock(s.issues[call].pc) && KeyOf(cfg, s.issues[call].req) == key
  }

  ghost predicate RowLocked(s: State, session: Id) {
    exists call :: call in s.issues && VictimOf(s.issues[call].pc).Some?
                   && VictimOf(s.issues[call].pc).value.id == session
  }

  ghost predicate FreshFamily(s: State, family: Id) {
    && family !in Families(s.db.tokens)
    && forall call :: call in s.issues ==> s.issues[call].req.familyId != family
  }

  ghost function RefreshMoves(cfg: Config, s: State, call: Id, ev: RefreshEvent): State
    requires call in s.refreshes
  {
    var pc := s.refreshes[call];
    if pc.Minted? && ev.Rotate? && RowLocked(s, pc.token.session) then s
    else
      var (db, pc') := RefreshStep(cfg.refreshTtl, s.db, s.now, pc, ev);
      var committed := pc.Minted? && pc'.RefreshDone? && pc'.outcome.Rotated?;
      s.(db := db, refreshes := s.refreshes[call := pc'],
         rotations := s.rotations + if committed then 1 else 0)
  }

  ghost function LogoutMoves(s: State, call: Id, ev: LogoutEvent): State
    requires call in s.logouts
  {
    var pc := s.logouts[call];
    if pc.LogoutSessionRead? && ev.LogoutCommit? && RowLocked(s, pc.token.session) then s
    else
      var (db, pc') := LogoutStep(s.db, s.now, pc, ev);
      s.(db := db, logouts := s.logouts[call := pc'])
  }

  ghost function IssueNext(cfg: Config, s: State, call: Id, ev: IssueEvent): IssuePc
    requires call in s.issues
  {
    var Issuing(req, pc) := s.issues[call];
    IssueStep(cfg, s.db, s.now, LockHeld(cfg, s, KeyOf(cfg, req)), pc.Admitted? && RowLocked(s, pc.existing),
              req, pc, ev)
  }

  ghost function IssueMoves(cfg: Config, s: State, call: Id, ev: IssueEvent): State
    requires call in s.issues
  {
    var Issuing(req, pc) := s.issues[call];
    var pc' := IssueNext(cfg, s, call, ev);
    var moved := s.(issues := s.issues[call := Issuing(req, pc')]);
    if pc.TokenWritten? && pc' == IssueDone(Issued) then
      moved.(db := AfterIssue(cfg, s.db, req, pc.txStart, pc.victim, pc.tokenExpiresAt),
             decisions := if pc.victim.None? then s.decisions
                          else s.decisions[pc.victim.value.id := pc.victim.value.decidedAt])
    else
      moved
  }

  ghost function Step(cfg: Config, s: State, e: Event): State {
    match e
    case Tick(elapsed) =>
      s.(now := s.now + elapsed)
    case StartRefresh(call, hash) =>
      if call in s.refreshes then s else s.(refreshes := s.refreshes[call := Presented(hash)])
    case Refresh(call, ev) =>
      if call in s.refreshes then RefreshMoves(cfg, s, call, ev) else s
    case StartLogout(call, hash) =>
      if call in s.logouts then s else s.(logouts := s.logouts[call := LogoutPresented(hash)])
    case Logout(call, ev) =>
      if call in s.logouts then LogoutMoves(s, call, ev) else s
    case StartIssue(call, req) =>
      if call in s.issues || !FreshFamily(s, req.familyId) then s
      else s.(issues := s.issues[call := Issuing(req, Requested)])
    case Issue(call, ev) =>
      if call in s.issues then IssueMoves(cfg, s, call, ev) else s
  }

  /** The state a run reaches. */
  ghost function Exec(cfg: Config, s: State, run: seq<Event>): State
    decreases |run|
  {
    if run == [] then s else Step(cfg, Exec(cfg, s, run[..|run| - 1]), run[|run| - 1])
  }

  ghost predicate Reachable(cfg: Config, s: State) {
    exists start: Time, run: seq<Event> :: s == Exec(cfg, Init(start), run)
  }

  lemma {:induction false} ExecConcat(cfg: Config, s: State, first: seq<Event>, second: seq<Event>)
    ensures Exec(cfg, s, first + second) == Exec(cfg, Exec(cfg, s, first), second)
    decreases |second|
  {
    if second == [] {
      assert first + second == first;
    } else {
      var init := second[..|second| - 1];
      assert (first + second)[..|first + second| - 1] == first + init;
      ExecConcat(cfg, s, first, init);
    }
  }
}
