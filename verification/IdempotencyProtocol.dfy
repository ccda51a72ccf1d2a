/**
 The keyed response store and the clients of the idempotency middleware. Any
 number of clients, keys and bodies; the store may fail, owners may die, and
 keys expire with the clock.
 */
module IdempotencyProtocol {
  import opened Prelude

  /** Status 0 marks a reservation whose request is still being processed. */
  datatype Record = Record(status: int, body: string, requestHash: string)

  predicate InProgress(r: Record) {
    r.status == 0
  }

  datatype Entry = Entry(record: Record, expiresAt: Time)

  type Store = map<string, Entry>

  /** GET: an expired key reads as absent. */
  function Lookup(store: Store, key: string, now: Time): Option<Record> {
    if key in store && now < store[key].expiresAt then Some(store[key].record) else None
  }

  /** The claim script: answer with what is stored, or reserve the key. */
  function AfterClaim(store: Store, key: string, hash: string, now: Time, reservation: Time): Store {
    if Lookup(store, key, now).Some? then store
    else store[key := Entry(Record(0, "", hash), now + reservation)]
  }

  function AfterSave(store: Store, key: string, record: Record, now: Time, ttl: Time): Store {
    store[key := Entry(record, now + ttl)]
  }

  function AfterRelease(store: Store, key: string): Store {
    store - {key}
  }

  const SERVER_ERROR := 500

  datatype Config = Config(reservation: Time, ttl: Time, maxWait: Time)

  datatype Answer =
    | Executed(status: int, body: string)
    | Replayed(status: int, body: string)
    | KeyConflict
    | StillInProgress
    | Disconnected

  datatype Pc =
    | Polling
    | Running                              // owns a reservation, handler at work
    | Unprotected                          // the store failed: handler runs without a claim
    | Answered(status: int, body: string)  // the client has its answer, the store does not
    | Finished(answer: Answer)

  datatype Client = Client(key: string, hash: string, deadline: Time, pc: Pc)

  datatype Outcome = Outcome(at: Time, status: int, body: string)

  /** History of one successful claim: when it was made, and when its outcome reached the store. */
  datatype Claim = Claim(key: string, hash: string, at: Time, settled: Option<Outcome>)

  /** History of one handler execution. */
  datatype Execution = Execution(key: string, hash: string, status: int, body: string)

  datatype State = State(
    now: Time,
    store: Store,
    clients: map<Id, Client>,
    claims: map<Id, Claim>,
    executions: map<Id, Execution>)

  datatype Event =
    | Tick(elapsed: nat)
    | Arrive(client: Id, key: string, hash: string)
    | TryClaim(client: Id, stored: bool)
    | LoseClaimReply(client: Id)            // the script ran, its answer was lost
    | HandlerReturns(client: Id, status: int, body: string)
    | Settle(client: Id, stored: bool)
    | Die(client: Id)

  function Init(start: Time): State {
    State(start, map[], map[], map[], map[])
  }

  function WithPc(s: State, client: Id, pc: Pc): State
    requires client in s.clients
  {
    s.(clients := s.clients[client := s.clients[client].(pc := pc)])
  }

  /** What a client that did not win the claim makes of the stored record. */
  function Verdict(existing: Record, hash: string, expired: bool): Pc {
    if existing.requestHash != hash then Finished(KeyConflict)
    else if !InProgress(existing) then Finished(Replayed(existing.status, existing.body))
    else if expired then Finished(StillInProgress)
    else Polling
  }

  function ClaimStep(cfg: Config, s: State, client: Id, stored: bool): State
    requires client in s.clients && s.clients[client].pc.Polling?
  {
    var c := s.clients[client];
    var existing := Lookup(s.store, c.key, s.now);
    if !stored then WithPc(s, client, Unprotected)
    else if existing.None? then
      WithPc(s, client, Running).(store := AfterClaim(s.store, c.key, c.hash, s.now, cfg.reservation),
                                  claims := s.claims[client := Claim(c.key, c.hash, s.now, None)])
    else WithPc(s, client, Verdict(existing.value, c.hash, c.deadline < s.now))
  }

  /** The client sees an error and runs unclaimed, but the key may now be reserved for nobody. */
  function LostReplyStep(cfg: Config, s: State, client: Id): State
    requires client in s.clients && s.clients[client].pc.Polling?
  {
    var c := s.clients[client];
    WithPc(s, client, Unprotected).(store := AfterClaim(s.store, c.key, c.hash, s.now, cfg.reservation))
  }

  function ReturnStep(s: State, client: Id, status: int, body: string): State
    requires client in s.clients && (s.clients[client].pc.Running? || s.clients[client].pc.Unprotected?)
  {
    var c := s.clients[client];
    WithPc(s, client, if c.pc.Running? then Answered(status, body) else Finished(Executed(status, body)))
      .(executions := s.executions[client := Execution(c.key, c.hash, status, body)])
  }

  /** Save the outcome, or release the key after a server error. Neither names an owner. */
  function AfterSettle(
      cfg: Config, store: Store, key: string, hash: string, status: int, body: string, now: Time): Store
  {
    if status >= SERVER_ERROR then AfterRelease(store, key)
    else AfterSave(store, key, Record(status, body, hash), now, cfg.ttl)
  }

  function SettleStep(cfg: Config, s: State, client: Id, stored: bool): State
    requires client in s.clients && s.clients[client].pc.Answered?
  {
    var c := s.clients[client];
    var store :=
      if !stored then s.store
      else AfterSettle(cfg, s.store, c.key, c.hash, c.pc.status, c.pc.body, s.now);
    WithPc(s, client, Finished(Executed(c.pc.status, c.pc.body)))
      .(store := store,
        claims := if client in s.claims
                  then s.claims[client := s.claims[client].(settled := Some(Outcome(s.now, c.pc.status, c.pc.body)))]
                  else s.claims)
  }

  function Step(cfg: Config, s: State, e: Event): State {
    match e
    case Tick(elapsed) =>
      s.(now := s.now + elapsed)
    case Arrive(client, key, hash) =>
      if client in s.clients then s
      else s.(clients := s.clients[client := Client(key, hash, s.now + cfg.maxWait, Polling)])
    case TryClaim(client, stored) =>
      if client in s.clients && s.clients[client].pc.Polling? then ClaimStep(cfg, s, client, stored) else s
    case LoseClaimReply(client) =>
      if client in s.clients && s.clients[client].pc.Polling? then LostReplyStep(cfg, s, client) else s
    case HandlerReturns(client, status, body) =>
      if client in s.clients && (s.clients[client].pc.Running? || s.clients[client].pc.Unprotected?)
         && 100 <= status <= 999 then ReturnStep(s, client, status, body)
      else s
    case Settle(client, stored) =>
      if client in s.clients && s.clients[client].pc.Answered? then SettleStep(cfg, s, client, stored) else s
    case Die(client) =>
      if client in s.clients && !s.clients[client].pc.Finished? then WithPc(s, client, Finished(Disconnected)) else s
  }

  function Exec(cfg: Config, s: State, run: seq<Event>): State
    decreases |run|
  {
    if run == [] then s else Step(cfg, Exec(cfg, s, run[..|run| - 1]), run[|run| - 1])
  }

  lemma {:induction false} ExecConcat(cfg: Config, s: State, first: seq<Event>, second: seq<Event>)
    ensures Exec(cfg, s, first + second) == Exec(cfg, Exec(cfg, s, first), second)
    decreases |second|
  {
    if second == [] {
      assert first + second == first;
    } else {
      var init := second[..|second| - 1];
      assert (first + second)[..|first + second| - 1] == first + init;
      ExecConcat(cfg, s, first, init);
    }
  }
}
