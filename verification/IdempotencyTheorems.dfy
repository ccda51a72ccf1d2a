/**
 Two families of results. With no assumption at all: a replayed response was
 produced by an execution of a request with the same key and body. For runs in
 which the store does not fail and owners finish inside their reservation: the
 protocol is a sequential memo table.
 */
module IdempotencyTheorems {
  import opened Prelude
  import opened IdempotencyProtocol

  // ------------------------------------------------------- replays are real

  ghost predicate Produced(s: State, key: string, hash: string, status: int, body: string) {
    exists p :: p in s.executions && s.executions[p] == Execution(key, hash, status, body)
  }

  ghost predicate ClientGenuine(s: State, id: Id) {
    id in s.clients
    && var c := s.clients[id];
       match c.pc
       case Answered(status, body) =>
         id in s.executions && s.executions[id] == Execution(c.key, c.hash, status, body) && 100 <= status
       case Finished(answer) =>
         (answer.Replayed? ==>
            Produced(s, c.key, c.hash, answer.status, answer.body) && 100 <= answer.status < SERVER_ERROR)
       case Running => id !in s.executions
       case Unprotected => id !in s.executions
       case Polling => id !in s.executions
  }

  ghost predicate Genuine(s: State) {
    && (forall key :: key in s.store ==>
          var r := s.store[key].record;
          !InProgress(r) ==> Produced(s, key, r.requestHash, r.status, r.body) && 100 <= r.status < SERVER_ERROR)
    && (forall id :: id in s.clients ==> ClientGenuine(s, id))
    && (forall id :: id in s.executions ==> id in s.clients)
  }

  lemma ProducedStays(s: State, s': State, key: string, hash: string, status: int, body: string)
    requires Produced(s, key, hash, status, body)
    requires forall p :: p in s.executions ==> p in s'.executions && s'.executions[p] == s.executions[p]
    ensures Produced(s', key, hash, status, body)
  {
    var p :| p in s.executions && s.executions[p] == Execution(key, hash, status, body);
    assert p in s'.executions;
  }

  ghost predicate StoredGenuine(s: State, key: string) {
    key in s.store
    && var r := s.store[key].record;
       (!InProgress(r) ==> Produced(s, key, r.requestHash, r.status, r.body) && 100 <= r.status < SERVER_ERROR)
  }

  /** A step that touches one client and forgets no execution. */
  lemma GenuineFrame(s: State, s': State, id: Id)
    requires Genuine(s)
    requires forall p :: p in s.executions ==> p in s'.executions && s'.executions[p] == s.executions[p]
    requires forall p :: p in s'.executions && p != id ==> p in s.executions
    requires forall c :: c in s'.clients && c != id ==> c in s.clients && s'.clients[c] == s.clients[c]
    requires forall c :: c in s.clients ==> c in s'.clients
    requires forall key :: key in s'.store && !(key in s.store && s'.store[key] == s.store[key]) ==>
               StoredGenuine(s', key)
    requires id in s'.clients ==> ClientGenuine(s', id)
    requires id in s'.executions ==> id in s'.clients
    ensures Genuine(s')
  {
    forall key | key in s'.store ensures StoredGenuine(s', key) {
      if key in s.store && s'.store[key] == s.store[key] {
        var r := s.store[key].record;
        if !InProgress(r) { ProducedStays(s, s', key, r.requestHash, r.status, r.body); }
      }
    }
    forall c | c in s'.clients ensures ClientGenuine(s', c) {
      if c != id { OtherClientGenuine(s, s', c, id); }
    }
  }

  lemma GenuineTick(s: State, elapsed: nat)
    requires Genuine(s)
    ensures Genuine(s.(now := s.now + elapsed))
  {
    var s' := s.(now := s.now + elapsed);
    forall c | c in s'.clients ensures ClientGenuine(s', c) { OtherClientGenuine(s, s', c, c + 1); }
    forall key | key in s'.store ensures StoredGenuine(s', key) {
      var r := s.store[key].record;
      if !InProgress(r) { ProducedStays(s, s', key, r.requestHash, r.status, r.body); }
    }
  }

  lemma OtherClientGenuine(s: State, s': State, c: Id, id: Id)
    requires ClientGenuine(s, c) && c != id && c in s'.clients && s'.clients[c] == s.clients[c]
    requires forall p :: p in s.executions ==> p in s'.executions && s'.executions[p] == s.executions[p]
    requires forall p :: p in s'.executions && p != id ==> p in s.executions
    ensures ClientGenuine(s', c)
  {
    var client := s.clients[c];
    if client.pc.Finished? && client.pc.answer.Replayed? {
      ProducedStays(s, s', client.key, client.hash, client.pc.answer.status, client.pc.answer.body);
    }
  }

  lemma GenuineClaim(cfg: Config, s: State, id: Id, stored: bool)
    requires Genuine(s) && id in s.clients && s.clients[id].pc.Polling?
    ensures Genuine(ClaimStep(cfg, s, id, stored))
  {
    var s' := ClaimStep(cfg, s, id, stored);
    var c := s.clients[id];
    assert ClientGenuine(s, id);
    if stored && Lookup(s.store, c.key, s.now).Some? {
      var r := s.store[c.key].record;
      if !InProgress(r) { ProducedStays(s, s', c.key, r.requestHash, r.status, r.body); }
    }
    GenuineFrame(s, s', id);
  }

  lemma GenuineLostReply(cfg: Config, s: State, id: Id)
    requires Genuine(s) && id in s.clients && s.clients[id].pc.Polling?
    ensures Genuine(LostReplyStep(cfg, s, id))
  {
    assert ClientGenuine(s, id);
    GenuineFrame(s, LostReplyStep(cfg, s, id), id);
  }

  lemma GenuineReturn(s: State, id: Id, status: int, body: string)
    requires Genuine(s) && id in s.clients && (s.clients[id].pc.Running? || s.clients[id].pc.Unprotected?)
    requires 100 <= status
    ensures Genuine(ReturnStep(s, id, status, body))
  {
    assert ClientGenuine(s, id);
    GenuineFrame(s, ReturnStep(s, id, status, body), id);
  }

  lemma GenuineSettle(cfg: Config, s: State, id: Id, stored: bool)
    requires Genuine(s) && id in s.clients && s.clients[id].pc.Answered?
    ensures Genuine(SettleStep(cfg, s, id, stored))
  {
    var s' := SettleStep(cfg, s, id, stored);
    var c := s.clients[id];
    assert ClientGenuine(s, id);
    assert Produced(s', c.key, c.hash, c.pc.status, c.pc.body) by {
      assert id in s'.executions;
    }
    GenuineFrame(s, s', id);
  }

  lemma GenuineStep(cfg: Config, s: State, e: Event)
    requires Genuine(s)
    ensures Genuine(Step(cfg, s, e))
  {
    var s' := Step(cfg, s, e);
    if s' == s {
    } else {
      match e
      case Tick(_) => GenuineTick(s, e.elapsed);
      case Arrive(id, _, _) => GenuineFrame(s, s', id);
      case TryClaim(id, stored) => GenuineClaim(cfg, s, id, stored);
      case LoseClaimReply(id) => GenuineLostReply(cfg, s, id);
      case HandlerReturns(id, status, body) => GenuineReturn(s, id, status, body);
      case Settle(id, stored) => GenuineSettle(cfg, s, id, stored);
      case Die(id) => GenuineFrame(s, s', id);
    }
  }

  lemma {:induction false} GenuineRun(cfg: Config, start: Time, run: seq<Event>)
    ensures Genuine(Exec(cfg, Init(start), run))
    decreases |run|
  {
    if run != [] {
      GenuineRun(cfg, start, run[..|run| - 1]);
      GenuineStep(cfg, Exec(cfg, Init(start), run[..|run| - 1]), run[|run| - 1]);
    }
  }

  /** Whatever fails, expires or dies: a replay repeats a real execution of the same request, never a server error. */
  lemma {:induction false} ReplaysAreGenuine(cfg: Config, start: Time, run: seq<Event>, client: Id)
    requires var s := Exec(cfg, Init(start), run);
             client in s.clients && s.clients[client].pc.Finished? && s.clients[client].pc.answer.Replayed?
    ensures var s := Exec(cfg, Init(start), run);
            var c := s.clients[client];
            && 100 <= c.pc.answer.status < 500
            && exists p :: p in s.executions
                 && s.executions[p] == Execution(c.key, c.hash, c.pc.answer.status, c.pc.answer.body)
  {
    GenuineRun(cfg, start, run);
    assert ClientGenuine(Exec(cfg, Init(start), run), client);
  }

  // ---------------------------------------------------------- orderly runs

  predicate Owns(pc: Pc) {
    pc.Running? || pc.Answered?
  }

  /** The store answers, and no owner dies. */
  ghost predicate Calm(s: State, e: Event) {
    && (e.TryClaim? ==> e.stored) && !e.LoseClaimReply?
    && (e.Settle? ==> e.stored)
    && (e.Die? && e.client in s.clients ==> !Owns(s.clients[e.client].pc))
  }

  /** Every owner is still inside its reservation. */
  ghost predicate InTime(cfg: Config, s: State) {
    forall id :: id in s.clients && Owns(s.clients[id].pc) && id in s.claims ==>
      s.now < s.claims[id].at + cfg.reservation
  }

  ghost predicate Orderly(cfg: Config, start: Time, run: seq<Event>)
    decreases |run|
  {
    InTime(cfg, Exec(cfg, Init(start), run))
    && (run != [] ==>
          && Orderly(cfg, start, run[..|run| - 1])
          && Calm(Exec(cfg, Init(start), run[..|run| - 1]), run[|run| - 1]))
  }

  /** How long after settling the key stays taken. */
  function Hold(cfg: Config, o: Outcome): Time {
    if o.status < SERVER_ERROR then cfg.ttl else 0
  }

  predicate Precedes(cfg: Config, p: Claim, q: Claim) {
    p.settled.Some? && p.settled.value.at + Hold(cfg, p.settled.value) <= q.at
  }

  predicate Reserved(cfg: Config, s: State, id: Id)
    requires id in s.clients
  {
    var c := s.clients[id];
    && id in s.claims && s.claims[id] == Claim(c.key, c.hash, s.claims[id].at, None)
    && c.key in s.store
    && s.store[c.key] == Entry(Record(0, "", c.hash), s.claims[id].at + cfg.reservation)
  }

  /** A settled, cacheable claim is what the store holds until it expires. */
  predicate Remembered(cfg: Config, s: State, p: Id)
    requires p in s.claims && s.claims[p].settled.Some?
  {
    var o := s.claims[p].settled.value;
    o.status < SERVER_ERROR && s.now < o.at + cfg.ttl ==>
      && s.claims[p].key in s.store
      && s.store[s.claims[p].key] == Entry(Record(o.status, o.body, s.claims[p].hash), o.at + cfg.ttl)
  }

  ghost predicate Accounted(cfg: Config, s: State, key: string)
    requires key in s.store
  {
    var entry := s.store[key];
    if InProgress(entry.record) then
      exists p :: p in s.clients && Owns(s.clients[p].pc) && s.clients[p].key == key && Reserved(cfg, s, p)
    else
      exists p :: p in s.claims && s.claims[p].key == key && s.claims[p].settled.Some?
        && var o := s.claims[p].settled.value;
           entry == Entry(Record(o.status, o.body, s.claims[p].hash), o.at + cfg.ttl) && o.at <= s.now
           && o.status < SERVER_ERROR
  }

  ghost predicate Separate(cfg: Config, s: State, p: Id, q: Id)
    requires p in s.claims && q in s.claims
  {
    Precedes(cfg, s.claims[p], s.claims[q]) || Precedes(cfg, s.claims[q], s.claims[p])
  }

  ghost predicate ClientMemo(cfg: Config, s: State, id: Id)
    requires id in s.clients
  {
    match s.clients[id].pc
    case Polling => id !in s.claims
    case Running => Reserved(cfg, s, id)
    case Answered(status, _) => Reserved(cfg, s, id) && 100 <= status
    case Unprotected => false
    case Finished(_) => true
  }

  ghost predicate ClaimMemo(cfg: Config, s: State, p: Id)
    requires p in s.claims
  {
    && p in s.clients && s.claims[p].key == s.clients[p].key && s.claims[p].at <= s.now
    && match s.claims[p].settled
       case None => Owns(s.clients[p].pc)
       case Some(o) => Remembered(cfg, s, p) && s.claims[p].at <= o.at <= s.now && 100 <= o.status
                       && s.clients[p].pc == Finished(Executed(o.status, o.body))
  }

  ghost predicate MemoInv(cfg: Config, s: State) {
    && (forall id :: id in s.clients ==> ClientMemo(cfg, s, id))
    && (forall p :: p in s.claims ==> ClaimMemo(cfg, s, p))
    && (forall key :: key in s.store ==> Accounted(cfg, s, key))
    && (forall p, q :: p in s.claims && q in s.claims && p != q && s.claims[p].key == s.claims[q].key
          ==> Separate(cfg, s, p, q))
  }

  /** Two clients never own the same key at once. */
  lemma OwnersDiffer(cfg: Config, s: State, a: Id, b: Id)
    requires MemoInv(cfg, s) && a in s.clients && b in s.clients && a != b
    requires Owns(s.clients[a].pc) && Owns(s.clients[b].pc)
    ensures s.clients[a].key != s.clients[b].key
  {
    assert ClientMemo(cfg, s, a) && ClientMemo(cfg, s, b);
    assert s.clients[a].key == s.clients[b].key ==> Separate(cfg, s, a, b);
  }

  lemma TickMemo(cfg: Config, s: State, elapsed: nat)
    requires MemoInv(cfg, s)
    ensures MemoInv(cfg, s.(now := s.now + elapsed))
  {
    var s' := s.(now := s.now + elapsed);
    forall id | id in s'.clients ensures ClientMemo(cfg, s', id) {
      assert ClientMemo(cfg, s, id);
    }
    forall p | p in s'.claims ensures ClaimMemo(cfg, s', p) {
      assert ClaimMemo(cfg, s, p);
    }
    forall key | key in s'.store ensures Accounted(cfg, s', key) {
      StaysAccounted(cfg, s, s', key);
    }
    forall p, q | p in s.claims && q in s.claims && p != q && s.claims[p].key == s.claims[q].key
      ensures Separate(cfg, s', p, q)
    {
      assert Separate(cfg, s, p, q);
    }
  }

  lemma StaysAccounted(cfg: Config, s: State, s': State, key: string)
    requires key in s.store && Accounted(cfg, s, key) && key in s'.store && s'.store[key] == s.store[key]
    requires s.now <= s'.now
    requires forall p :: p in s.claims && s.claims[p].key == key ==> p in s'.claims && s'.claims[p] == s.claims[p]
    requires forall p :: p in s.clients && s.clients[p].key == key && Owns(s.clients[p].pc) ==>
               && p in s'.clients && s'.clients[p].(pc := Polling) == s.clients[p].(pc := Polling)
               && Owns(s'.clients[p].pc)
    ensures Accounted(cfg, s', key)
  {
    if InProgress(s.store[key].record) {
      var p :| p in s.clients && Owns(s.clients[p].pc) && s.clients[p].key == key && Reserved(cfg, s, p);
      assert p in s'.clients && Owns(s'.clients[p].pc) && s'.clients[p].key == key && Reserved(cfg, s', p);
    } else {
      var p :| p in s.claims && s.claims[p].key == key && s.claims[p].settled.Some?
        && var o := s.claims[p].settled.value;
           s.store[key] == Entry(Record(o.status, o.body, s.claims[p].hash), o.at + cfg.ttl) && o.at <= s.now
           && o.status < SERVER_ERROR;
      assert p in s'.claims && s'.claims[p] == s.claims[p];
    }
  }

  /** Steps that change one client's control state and nothing the memo depends on. */
  lemma ClientOnlyMemo(cfg: Config, s: State, s': State, id: Id)
    requires MemoInv(cfg, s)
    requires s'.store == s.store && s'.claims == s.claims && s'.now == s.now
    requires s'.clients.Keys == s.clients.Keys + {id} && id in s'.clients
    requires forall c :: c in s.clients && c != id ==> s'.clients[c] == s.clients[c]
    requires id in s.clients ==> s'.clients[id].(pc := Polling) == s.clients[id].(pc := Polling)
    requires id in s.clients ==> Owns(s'.clients[id].pc) == Owns(s.clients[id].pc)
    requires id in s.clients && s.clients[id].pc.Finished? ==> s'.clients[id] == s.clients[id]
    requires ClientMemo(cfg, s', id)
    ensures MemoInv(cfg, s')
  {
    forall c | c in s'.clients ensures ClientMemo(cfg, s', c) {
      if c != id { assert ClientMemo(cfg, s, c); }
    }
    forall p | p in s'.claims ensures ClaimMemo(cfg, s', p) {
      assert ClaimMemo(cfg, s, p);
    }
    forall key | key in s'.store ensures Accounted(cfg, s', key) {
      StaysAccounted(cfg, s, s', key);
    }
    forall p, q | p in s.claims && q in s.claims && p != q && s.claims[p].key == s.claims[q].key
      ensures Separate(cfg, s', p, q)
    {
      assert Separate(cfg, s, p, q);
    }
  }

  /** The key of a successful claim has no owner and nothing remembered. */
  lemma ClaimFindsKeyFree(cfg: Config, s: State, key: string, p: Id)
    requires MemoInv(cfg, s) && InTime(cfg, s) && Lookup(s.store, key, s.now).None?
    requires p in s.claims && s.claims[p].key == key
    ensures s.claims[p].settled.Some? && s.claims[p].settled.value.at + Hold(cfg, s.claims[p].settled.value) <= s.now
    ensures !Owns(s.clients[p].pc)
  {
    assert ClaimMemo(cfg, s, p) && ClientMemo(cfg, s, p);
  }

  lemma ClaimedMemo(cfg: Config, s: State, id: Id)
    requires MemoInv(cfg, s) && InTime(cfg, s) && id in s.clients && s.clients[id].pc.Polling?
    requires Lookup(s.store, s.clients[id].key, s.now).None?
    ensures MemoInv(cfg, ClaimStep(cfg, s, id, true))
  {
    var s' := ClaimStep(cfg, s, id, true);
    var k := s.clients[id].key;
    assert ClientMemo(cfg, s, id);
    forall c | c in s.clients && c != id && Owns(s.clients[c].pc) ensures s.clients[c].key != k {
      assert ClientMemo(cfg, s, c);
      if s.clients[c].key == k { ClaimFindsKeyFree(cfg, s, k, c); }
    }
    forall c | c in s'.clients ensures ClientMemo(cfg, s', c) {
      if c != id { assert ClientMemo(cfg, s, c); }
    }
    forall p | p in s'.claims ensures ClaimMemo(cfg, s', p) {
      if p != id {
        assert ClaimMemo(cfg, s, p);
        if s.claims[p].key == k { ClaimFindsKeyFree(cfg, s, k, p); }
      }
    }
    forall key | key in s'.store ensures Accounted(cfg, s', key) {
      if key != k { StaysAccounted(cfg, s, s', key); } else { assert Reserved(cfg, s', id); }
    }
    forall p, q | p in s'.claims && q in s'.claims && p != q && s'.claims[p].key == s'.claims[q].key
      ensures Separate(cfg, s', p, q)
    {
      if p == id {
        ClaimFindsKeyFree(cfg, s, k, q);
      } else if q == id {
        ClaimFindsKeyFree(cfg, s, k, p);
      } else {
        assert Separate(cfg, s, p, q);
      }
    }
  }

  lemma SettledMemo(cfg: Config, s: State, id: Id)
    requires MemoInv(cfg, s) && id in s.clients && s.clients[id].pc.Answered?
    ensures MemoInv(cfg, SettleStep(cfg, s, id, true))
  {
    var s' := SettleStep(cfg, s, id, true);
    var k := s.clients[id].key;
    assert ClientMemo(cfg, s, id) && ClaimMemo(cfg, s, id);
    SettledClients(cfg, s, id);
    SettledClaims(cfg, s, id);
    forall key | key in s'.store ensures Accounted(cfg, s', key) {
      if key != k {
        StaysAccounted(cfg, s, s', key);
      } else {
        assert id in s'.claims && s'.claims[id].key == k && s'.claims[id].settled.Some?;
      }
    }
    forall p, q | p in s'.claims && q in s'.claims && p != q && s'.claims[p].key == s'.claims[q].key
      ensures Separate(cfg, s', p, q)
    {
      assert Separate(cfg, s, p, q);
    }
  }

  lemma SettledClients(cfg: Config, s: State, id: Id)
    requires MemoInv(cfg, s) && id in s.clients && s.clients[id].pc.Answered?
    ensures var s' := SettleStep(cfg, s, id, true); forall c :: c in s'.clients ==> ClientMemo(cfg, s', c)
  {
    var s' := SettleStep(cfg, s, id, true);
    forall c | c in s'.clients ensures ClientMemo(cfg, s', c) {
      if c != id {
        assert ClientMemo(cfg, s, c);
        if Owns(s.clients[c].pc) { OwnersDiffer(cfg, s, c, id); }
      }
    }
  }

  lemma SettledClaims(cfg: Config, s: State, id: Id)
    requires MemoInv(cfg, s) && id in s.clients && s.clients[id].pc.Answered?
    ensures var s' := SettleStep(cfg, s, id, true); forall p :: p in s'.claims ==> ClaimMemo(cfg, s', p)
  {
    var s' := SettleStep(cfg, s, id, true);
    assert ClientMemo(cfg, s, id);
    forall p | p in s'.claims ensures ClaimMemo(cfg, s', p) {
      assert ClaimMemo(cfg, s, p);
      if p != id && s.claims[p].key == s.clients[id].key { assert Separate(cfg, s, p, id); }
    }
  }

  lemma ArriveMemo(cfg: Config, s: State, id: Id, key: string, hash: string)
    requires MemoInv(cfg, s) && id !in s.clients
    ensures MemoInv(cfg, Step(cfg, s, Arrive(id, key, hash)))
  {
    assert id in s.claims ==> ClaimMemo(cfg, s, id);
    ClientOnlyMemo(cfg, s, Step(cfg, s, Arrive(id, key, hash)), id);
  }

  lemma AnsweredClaimMemo(cfg: Config, s: State, id: Id)
    requires MemoInv(cfg, s) && id in s.clients && s.clients[id].pc.Polling?
    requires Lookup(s.store, s.clients[id].key, s.now).Some?
    ensures MemoInv(cfg, ClaimStep(cfg, s, id, true))
  {
    assert ClientMemo(cfg, s, id);
    ClientOnlyMemo(cfg, s, ClaimStep(cfg, s, id, true), id);
  }

  lemma ReturnMemo(cfg: Config, s: State, id: Id, status: int, body: string)
    requires MemoInv(cfg, s) && id in s.clients && s.clients[id].pc.Running? && 100 <= status
    ensures MemoInv(cfg, ReturnStep(s, id, status, body))
  {
    assert ClientMemo(cfg, s, id);
    ClientOnlyMemo(cfg, s, ReturnStep(s, id, status, body), id);
  }

  lemma DieMemo(cfg: Config, s: State, id: Id)
    requires MemoInv(cfg, s) && id in s.clients && s.clients[id].pc.Polling?
    ensures MemoInv(cfg, WithPc(s, id, Finished(Disconnected)))
  {
    assert ClientMemo(cfg, s, id);
    ClientOnlyMemo(cfg, s, WithPc(s, id, Finished(Disconnected)), id);
  }

  lemma MemoStep(cfg: Config, s: State, e: Event)
    requires MemoInv(cfg, s) && InTime(cfg, s) && Calm(s, e)
    ensures MemoInv(cfg, Step(cfg, s, e))
  {
    var s' := Step(cfg, s, e);
    if s' == s {
    } else {
      match e
      case Tick(elapsed) => TickMemo(cfg, s, elapsed);
      case Arrive(id, key, hash) => ArriveMemo(cfg, s, id, key, hash);
      case TryClaim(id, _) =>
        if Lookup(s.store, s.clients[id].key, s.now).None? { ClaimedMemo(cfg, s, id); }
        else { AnsweredClaimMemo(cfg, s, id); }
      case HandlerReturns(id, status, body) =>
        assert ClientMemo(cfg, s, id);
        ReturnMemo(cfg, s, id, status, body);
      case Settle(id, _) => SettledMemo(cfg, s, id);
      case Die(id) =>
        assert ClientMemo(cfg, s, id);
        DieMemo(cfg, s, id);
    }
  }

  lemma {:induction false} MemoRun(cfg: Config, start: Time, run: seq<Event>)
    requires Orderly(cfg, start, run)
    ensures MemoInv(cfg, Exec(cfg, Init(start), run))
    decreases |run|
  {
    if run != [] {
      var shorter := run[..|run| - 1];
      MemoRun(cfg, start, shorter);
      assert Orderly(cfg, start, shorter);
      MemoStep(cfg, Exec(cfg, Init(start), shorter), run[|run| - 1]);
    }
  }

  /**
   At most one execution per epoch: of two claims of a key, one settled before
   the other began, and its response had expired if it was kept at all.
   */
  lemma {:induction false} ExecutionsDoNotOverlap(cfg: Config, start: Time, run: seq<Event>, p: Id, q: Id)
    requires Orderly(cfg, start, run)
    requires var s := Exec(cfg, Init(start), run);
             p in s.claims && q in s.claims && p != q && s.claims[p].key == s.claims[q].key
    ensures var s := Exec(cfg, Init(start), run);
            Precedes(cfg, s.claims[p], s.claims[q]) || Precedes(cfg, s.claims[q], s.claims[p])
  {
    MemoRun(cfg, start, run);
    assert Separate(cfg, Exec(cfg, Init(start), run), p, q);
  }

  // --------------------------------------------- refinement of a memo table

  /** The sequential specification: per key, nothing, one computation under way, or its kept result. */
  datatype Memo = Free | Busy(owner: Id, hash: string) | Kept(hash: string, status: int, body: string, until: Time)

  ghost predicate Abstracts(cfg: Config, s: State, key: string, m: Memo) {
    match m
    case Free => Lookup(s.store, key, s.now).None?
    case Busy(owner, hash) =>
      && owner in s.clients && Owns(s.clients[owner].pc) && s.clients[owner].key == key
      && s.clients[owner].hash == hash && Lookup(s.store, key, s.now) == Some(Record(0, "", hash))
    case Kept(hash, status, body, until) =>
      && s.now < until && 100 <= status < SERVER_ERROR
      && Lookup(s.store, key, s.now) == Some(Record(status, body, hash)) && s.store[key].expiresAt == until
  }

  /** What the memo table tells a request; None lets it compute. */
  function MemoReply(m: Memo, hash: string, expired: bool): Option<Pc> {
    match m
    case Free => None
    case Busy(_, h) =>
      Some(if h != hash then Finished(KeyConflict) else if expired then Finished(StillInProgress) else Polling)
    case Kept(h, status, body, _) =>
      Some(if h != hash then Finished(KeyConflict) else Finished(Replayed(status, body)))
  }

  /** The memo table's own steps: compute, keep or drop the result, forget. */
  ghost predicate MemoMoves(cfg: Config, m: Memo, m': Memo, s: State, e: Event, key: string) {
    || m' == m
    || (m.Free? && e.TryClaim? && e.client in s.clients && s.clients[e.client].key == key
        && m' == Busy(e.client, s.clients[e.client].hash))
    || (m.Busy? && e.Settle? && e.client == m.owner && e.client in s.clients && s.clients[e.client].pc.Answered?
        && var pc := s.clients[e.client].pc;
           m' == if pc.status >= 500 then Free else Kept(m.hash, pc.status, pc.body, s.now + cfg.ttl))
    || (m.Kept? && e.Tick? && m.until <= s.now + e.elapsed && m' == Free)
  }

  /** Every step of an orderly run is a step of the memo table of each key. */
  lemma StepRefinesMemo(cfg: Config, s: State, e: Event, key: string, m: Memo) returns (m': Memo)
    requires 0 < cfg.ttl
    requires MemoInv(cfg, s) && InTime(cfg, s) && Calm(s, e) && InTime(cfg, Step(cfg, s, e))
    requires Abstracts(cfg, s, key, m)
    ensures Abstracts(cfg, Step(cfg, s, e), key, m') && MemoMoves(cfg, m, m', s, e, key)
  {
    m' := m;
    if e.Tick? {
      m' := TickRefines(cfg, s, e.elapsed, key, m);
    } else if e.TryClaim? && e.client in s.clients && s.clients[e.client].pc.Polling? {
      m' := ClaimRefines(cfg, s, e.client, key, m);
    } else if e.Settle? && e.client in s.clients && s.clients[e.client].pc.Answered? {
      m' := SettleRefines(cfg, s, e.client, key, m);
    } else {
      QuietRefines(cfg, s, e, key, m);
    }
  }

  lemma ClaimRefines(cfg: Config, s: State, id: Id, key: string, m: Memo) returns (m': Memo)
    requires id in s.clients && s.clients[id].pc.Polling? && Abstracts(cfg, s, key, m)
    requires InTime(cfg, ClaimStep(cfg, s, id, true))
    ensures Abstracts(cfg, ClaimStep(cfg, s, id, true), key, m')
    ensures MemoMoves(cfg, m, m', s, TryClaim(id, true), key)
  {
    m' := m;
    if m.Free? && s.clients[id].key == key { m' := Busy(id, s.clients[id].hash); }
  }

  /** Arrivals, deaths of those who wait, and handlers returning change nothing a memo table has. */
  lemma QuietRefines(cfg: Config, s: State, e: Event, key: string, m: Memo)
    requires Calm(s, e) && Abstracts(cfg, s, key, m) && !e.Tick?
    requires !(e.TryClaim? && e.client in s.clients && s.clients[e.client].pc.Polling?)
    requires !(e.Settle? && e.client in s.clients && s.clients[e.client].pc.Answered?)
    ensures Abstracts(cfg, Step(cfg, s, e), key, m)
  {
  }

  lemma TickRefines(cfg: Config, s: State, elapsed: nat, key: string, m: Memo) returns (m': Memo)
    requires MemoInv(cfg, s) && InTime(cfg, s.(now := s.now + elapsed)) && Abstracts(cfg, s, key, m)
    ensures Abstracts(cfg, s.(now := s.now + elapsed), key, m')
    ensures MemoMoves(cfg, m, m', s, Tick(elapsed), key)
  {
    m' := m;
    if m.Busy? {
      assert ClientMemo(cfg, s, m.owner);
    } else if m.Kept? && m.until <= s.now + elapsed {
      m' := Free;
    }
  }

  lemma SettleRefines(cfg: Config, s: State, id: Id, key: string, m: Memo) returns (m': Memo)
    requires MemoInv(cfg, s) && InTime(cfg, s) && id in s.clients && s.clients[id].pc.Answered?
    requires Abstracts(cfg, s, key, m) && InTime(cfg, SettleStep(cfg, s, id, true))
    requires 0 < cfg.ttl
    ensures Abstracts(cfg, SettleStep(cfg, s, id, true), key, m')
    ensures MemoMoves(cfg, m, m', s, Settle(id, true), key)
  {
    m' := m;
    assert ClientMemo(cfg, s, id);
    if s.clients[id].key == key {
      assert m.Busy?;
      if m.owner != id { OwnersDiffer(cfg, s, m.owner, id); }
      var pc := s.clients[id].pc;
      m' := if pc.status >= SERVER_ERROR then Free else Kept(m.hash, pc.status, pc.body, s.now + cfg.ttl);
    } else if m.Busy? {
      assert m.owner != id;
    }
  }

  /** And every claim attempt is answered as the memo table answers. */
  lemma RepliesMatchMemo(cfg: Config, s: State, id: Id, m: Memo)
    requires MemoInv(cfg, s) && InTime(cfg, s) && id in s.clients && s.clients[id].pc.Polling?
    requires Abstracts(cfg, s, s.clients[id].key, m)
    ensures var c := s.clients[id];
            var pc := Step(cfg, s, TryClaim(id, true)).clients[id].pc;
            match MemoReply(m, c.hash, c.deadline < s.now)
            case None => pc == Running
            case Some(answer) => pc == answer
  {
  }

  /** A client that asks for the key is answered by the memo table; the client that computed, by its own result. */
  predicate AnswersAs(cfg: Config, m: Memo, s: State, e: Event, key: string) {
    && (e.TryClaim? && e.client in s.clients && s.clients[e.client].pc.Polling? && s.clients[e.client].key == key ==>
          var c := s.clients[e.client];
          var next := Step(cfg, s, e).clients[e.client].pc;
          match MemoReply(m, c.hash, c.deadline < s.now)
          case None => next == Running
          case Some(answer) => next == answer)
    && (e.Settle? && e.client in s.clients && s.clients[e.client].pc.Answered? && s.clients[e.client].key == key ==>
          && m == Busy(e.client, s.clients[e.client].hash)
          && Step(cfg, s, e).clients[e.client].pc
             == Finished(Executed(s.clients[e.client].pc.status, s.clients[e.client].pc.body)))
  }

  /** After k events the key's state is memos[k]; the next event is a move of the memo table and answers as it does. */
  ghost predicate FollowsAt(cfg: Config, start: Time, run: seq<Event>, key: string, memos: seq<Memo>, k: nat)
    requires |memos| == |run| + 1 && k <= |run|
  {
    var s := Exec(cfg, Init(start), run[..k]);
    && Abstracts(cfg, s, key, memos[k])
    && (k < |run| ==>
          MemoMoves(cfg, memos[k], memos[k + 1], s, run[k], key) && AnswersAs(cfg, memos[k], s, run[k], key))
  }

  /** `memos` is a run of the memo table of `key` that the protocol's run follows. */
  ghost predicate Follows(cfg: Config, start: Time, run: seq<Event>, key: string, memos: seq<Memo>) {
    && |memos| == |run| + 1 && memos[0] == Free
    && forall k :: 0 <= k <= |run| ==> FollowsAt(cfg, start, run, key, memos, k)
  }

  lemma StepAnswersAsMemo(cfg: Config, s: State, e: Event, key: string, m: Memo)
    requires MemoInv(cfg, s) && InTime(cfg, s) && Calm(s, e) && Abstracts(cfg, s, key, m)
    ensures AnswersAs(cfg, m, s, e, key)
  {
    if e.TryClaim? && e.client in s.clients && s.clients[e.client].pc.Polling? && s.clients[e.client].key == key {
      RepliesMatchMemo(cfg, s, e.client, m);
    }
    if e.Settle? && e.client in s.clients && s.clients[e.client].pc.Answered? && s.clients[e.client].key == key {
      assert ClientMemo(cfg, s, e.client);
      if m.Busy? && m.owner != e.client { OwnersDiffer(cfg, s, m.owner, e.client); }
    }
  }

  /**
   The protocol refines a sequential memo table, key by key, over every
   orderly run: the store follows the table, and so does every answer.
   */
  lemma {:induction false} RunRefinesMemo(cfg: Config, start: Time, run: seq<Event>, key: string)
    returns (memos: seq<Memo>)
    requires 0 < cfg.ttl && Orderly(cfg, start, run)
    ensures Follows(cfg, start, run, key, memos)
    decreases |run|
  {
    if run == [] {
      memos := [Free];
    } else {
      var shorter := run[..|run| - 1];
      var n := |shorter|;
      assert Orderly(cfg, start, shorter);
      var earlier := RunRefinesMemo(cfg, start, shorter, key);
      assert FollowsAt(cfg, start, shorter, key, earlier, n) && shorter[..n] == shorter;
      var m := LastMemo(cfg, start, run, key, earlier[n]);
      memos := earlier + [m];
      FollowsOneMore(cfg, start, run, key, earlier, m);
    }
  }

  lemma LastMemo(cfg: Config, start: Time, run: seq<Event>, key: string, m: Memo) returns (m': Memo)
    requires 0 < cfg.ttl && run != [] && Orderly(cfg, start, run)
    requires Abstracts(cfg, Exec(cfg, Init(start), run[..|run| - 1]), key, m)
    ensures Abstracts(cfg, Exec(cfg, Init(start), run), key, m')
    ensures MemoMoves(cfg, m, m', Exec(cfg, Init(start), run[..|run| - 1]), run[|run| - 1], key)
    ensures AnswersAs(cfg, m, Exec(cfg, Init(start), run[..|run| - 1]), run[|run| - 1], key)
  {
    var shorter := run[..|run| - 1];
    assert Orderly(cfg, start, shorter);
    MemoRun(cfg, start, shorter);
    m' := StepRefinesMemo(cfg, Exec(cfg, Init(start), shorter), run[|run| - 1], key, m);
    StepAnswersAsMemo(cfg, Exec(cfg, Init(start), shorter), run[|run| - 1], key, m);
  }

  lemma {:induction false} FollowsOneMore(
      cfg: Config, start: Time, run: seq<Event>, key: string, memos: seq<Memo>, m: Memo)
    requires |run| > 0 && Follows(cfg, start, run[..|run| - 1], key, memos)
    requires Abstracts(cfg, Exec(cfg, Init(start), run), key, m)
    requires MemoMoves(cfg, memos[|run| - 1], m, Exec(cfg, Init(start), run[..|run| - 1]), run[|run| - 1], key)
    requires AnswersAs(cfg, memos[|run| - 1], Exec(cfg, Init(start), run[..|run| - 1]), run[|run| - 1], key)
    ensures Follows(cfg, start, run, key, memos + [m])
  {
    forall k | 0 <= k <= |run| ensures FollowsAt(cfg, start, run, key, memos + [m], k) {
      if k < |run| - 1 {
        EarlierMemo(cfg, start, run, key, memos, m, k);
      } else {
        LaterMemo(cfg, start, run, key, memos, m, k);
      }
    }
  }

  lemma {:induction false} EarlierMemo(
      cfg: Config, start: Time, run: seq<Event>, key: string, memos: seq<Memo>, m: Memo, k: nat)
    requires k < |run| - 1 && |memos| == |run| && FollowsAt(cfg, start, run[..|run| - 1], key, memos, k)
    ensures FollowsAt(cfg, start, run, key, memos + [m], k)
  {
    assert run[..k] == run[..|run| - 1][..k];
  }

  lemma {:induction false} LaterMemo(
      cfg: Config, start: Time, run: seq<Event>, key: string, memos: seq<Memo>, m: Memo, k: nat)
    requires |run| > 0 && |memos| == |run| && |run| - 1 <= k <= |run|
    requires FollowsAt(cfg, start, run[..|run| - 1], key, memos, |run| - 1)
    requires Abstracts(cfg, Exec(cfg, Init(start), run), key, m)
    requires MemoMoves(cfg, memos[|run| - 1], m, Exec(cfg, Init(start), run[..|run| - 1]), run[|run| - 1], key)
    requires AnswersAs(cfg, memos[|run| - 1], Exec(cfg, Init(start), run[..|run| - 1]), run[|run| - 1], key)
    ensures FollowsAt(cfg, start, run, key, memos + [m], k)
  {
    var shorter := run[..|run| - 1];
    assert shorter[..|run| - 1] == shorter && run[..|run|] == run;
  }
}
