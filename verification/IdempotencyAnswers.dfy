/**
 What each answer of the idempotency middleware means, over every run and with
 no assumption on the store, the owners or the clock: a client is told only
 what one of its own claim attempts found, or what its own handler returned.
 */
module IdempotencyAnswers {
  import opened Prelude
  import opened IdempotencyProtocol

  /** What one event shows about a client: only events it takes part in count. */
  datatype Mark =
    | Saw(record: Record, late: bool)      // an attempt found a record; late: after the client's deadline
    | Won                                  // an attempt found nothing and left the key reserved
    | StoreFailed                          // an attempt was not answered
    | Returned(status: int, body: string)  // the client's own handler returned
    | Died

  ghost predicate Asks(t: State, client: Id) {
    client in t.clients && t.clients[client].pc.Polling?
  }

  ghost predicate Works(t: State, client: Id) {
    client in t.clients && (t.clients[client].pc.Running? || t.clients[client].pc.Unprotected?)
  }

  ghost predicate MarkAt(cfg: Config, t: State, e: Event, client: Id, key: string, deadline: Time, m: Mark) {
    match m
    case Saw(record, late) =>
      e == TryClaim(client, true) && Asks(t, client)
      && key in t.store && t.now < t.store[key].expiresAt && t.store[key].record == record
      && late == (deadline < t.now)
    case Won =>
      e == TryClaim(client, true) && Asks(t, client) && (key in t.store ==> t.store[key].expiresAt <= t.now)
      && key in Step(cfg, t, e).store && Step(cfg, t, e).store[key].expiresAt == t.now + cfg.reservation
    case StoreFailed => (e == TryClaim(client, false) || e == LoseClaimReply(client)) && Asks(t, client)
    case Returned(status, body) => e == HandlerReturns(client, status, body) && Works(t, client)
    case Died => e == Die(client) && client in t.clients && !t.clients[client].pc.Finished?
  }

  /** Everything the run has shown about the client. */
  ghost function Marks(cfg: Config, s: State, run: seq<Event>, client: Id, key: string, deadline: Time): iset<Mark> {
    iset m | MarkedBy(cfg, s, run, client, key, deadline, m)
  }

  ghost predicate MarkedBy(
      cfg: Config, s: State, run: seq<Event>, client: Id, key: string, deadline: Time, m: Mark)
  {
    exists k :: 0 <= k < |run| && MarkedAt(cfg, s, run, client, key, deadline, m, k)
  }

  ghost predicate MarkedAt(
      cfg: Config, s: State, run: seq<Event>, client: Id, key: string, deadline: Time, m: Mark, k: nat)
    requires k < |run|
  {
    MarkAt(cfg, Exec(cfg, s, run[..k]), run[k], client, key, deadline, m)
  }

  /** A record that makes the client wait: the same request, still in progress, and time left. */
  predicate Waits(m: Mark, hash: string) {
    m.Saw? ==> m.record.requestHash == hash && m.record.status == 0 && !m.late
  }

  /** A client waits exactly as long as nothing else was found, and each of its answers has its own cause. */
  ghost predicate Course(pc: Pc, hash: string, marks: iset<Mark>) {
    match pc
    case Polling => (forall m :: m in marks ==> m.Saw? && Waits(m, hash))
    case Running => Won in marks && (forall m :: m in marks ==> Waits(m, hash))
    case Unprotected => StoreFailed in marks && (forall m :: m in marks ==> Waits(m, hash))
    case Answered(status, body) =>
      Won in marks && Returned(status, body) in marks && (forall m :: m in marks ==> Waits(m, hash))
    case Finished(answer) =>
      match answer
      case Executed(status, body) =>
        && Returned(status, body) in marks && (Won in marks || StoreFailed in marks)
        && (forall m :: m in marks ==> Waits(m, hash))
      case Replayed(status, body) => status != 0 && exists late: bool :: Saw(Record(status, body, hash), late) in marks
      case KeyConflict => exists r: Record, late: bool :: r.requestHash != hash && Saw(r, late) in marks
      case StillInProgress => exists r: Record :: r.requestHash == hash && r.status == 0 && Saw(r, true) in marks
      case Disconnected => Died in marks
  }

  /** The old marks and what the last event adds, and no more. */
  ghost predicate Extends(
      cfg: Config, t: State, e: Event, client: Id, key: string, deadline: Time, marks: iset<Mark>, marks': iset<Mark>)
  {
    forall m :: m in marks' <==> m in marks || MarkAt(cfg, t, e, client, key, deadline, m)
  }

  lemma {:induction false} MarksExtend(
      cfg: Config, s: State, run: seq<Event>, client: Id, key: string, deadline: Time, n: nat)
    requires |run| == n + 1
    ensures Extends(cfg, Exec(cfg, s, run[..n]), run[n], client, key, deadline,
                    Marks(cfg, s, run[..n], client, key, deadline), Marks(cfg, s, run, client, key, deadline))
  {
    forall m | MarkedBy(cfg, s, run[..n], client, key, deadline, m)
      ensures MarkedBy(cfg, s, run, client, key, deadline, m)
    {
      var k :| 0 <= k < n && MarkedAt(cfg, s, run[..n], client, key, deadline, m, k);
      assert run[..n][..k] == run[..k] && run[..n][k] == run[k];
      assert MarkedAt(cfg, s, run, client, key, deadline, m, k);
    }
    forall m | MarkAt(cfg, Exec(cfg, s, run[..n]), run[n], client, key, deadline, m)
      ensures MarkedBy(cfg, s, run, client, key, deadline, m)
    {
      assert MarkedAt(cfg, s, run, client, key, deadline, m, n);
    }
    forall m | MarkedBy(cfg, s, run, client, key, deadline, m)
      ensures MarkedBy(cfg, s, run[..n], client, key, deadline, m)
           || MarkAt(cfg, Exec(cfg, s, run[..n]), run[n], client, key, deadline, m)
    {
      var k :| 0 <= k < |run| && MarkedAt(cfg, s, run, client, key, deadline, m, k);
      if k < n {
        assert run[..n][..k] == run[..k] && run[..n][k] == run[k];
        assert MarkedAt(cfg, s, run[..n], client, key, deadline, m, k);
      }
    }
  }

  /** The client as it arrived, with whatever control state it has now. */
  ghost predicate Arrived(t: State, client: Id, key: string, hash: string, deadline: Time) {
    client in t.clients && t.clients[client].(pc := Polling) == Client(key, hash, deadline, Polling)
  }

  /** Events that are not the client's own move neither it nor its marks. */
  lemma OthersLeaveIt(
      cfg: Config, t: State, e: Event, client: Id, key: string, hash: string, deadline: Time,
      marks: iset<Mark>, marks': iset<Mark>)
    requires Arrived(t, client, key, hash, deadline) && Course(t.clients[client].pc, hash, marks)
    requires Extends(cfg, t, e, client, key, deadline, marks, marks')
    requires e.Tick? || e.Arrive? || e.Settle? || e.client != client
    ensures var t' := Step(cfg, t, e);
            Arrived(t', client, key, hash, deadline) && Course(t'.clients[client].pc, hash, marks')
  {
    assert marks' == marks;
  }

  lemma ClaimOnCourse(
      cfg: Config, t: State, e: Event, client: Id, key: string, hash: string, deadline: Time,
      marks: iset<Mark>, marks': iset<Mark>)
    requires Arrived(t, client, key, hash, deadline) && Course(t.clients[client].pc, hash, marks)
    requires Extends(cfg, t, e, client, key, deadline, marks, marks')
    requires e.TryClaim? && e.client == client && e.stored
    ensures var t' := Step(cfg, t, e);
            Arrived(t', client, key, hash, deadline) && Course(t'.clients[client].pc, hash, marks')
  {
    if !Asks(t, client) {
      assert marks' == marks;
    } else if key in t.store && t.now < t.store[key].expiresAt {
      var found := Saw(t.store[key].record, deadline < t.now);
      assert MarkAt(cfg, t, e, client, key, deadline, found);
      assert marks' == marks + iset{found};
    } else {
      assert MarkAt(cfg, t, e, client, key, deadline, Won);
    }
  }

  lemma OwnMoveOnCourse(
      cfg: Config, t: State, e: Event, client: Id, key: string, hash: string, deadline: Time,
      marks: iset<Mark>, marks': iset<Mark>)
    requires Arrived(t, client, key, hash, deadline) && Course(t.clients[client].pc, hash, marks)
    requires Extends(cfg, t, e, client, key, deadline, marks, marks')
    requires (e.TryClaim? && !e.stored) || e.LoseClaimReply? || e.HandlerReturns? || e.Die?
    requires e.client == client
    ensures var t' := Step(cfg, t, e);
            Arrived(t', client, key, hash, deadline) && Course(t'.clients[client].pc, hash, marks')
  {
    match e
    case TryClaim(_, _) => assert Asks(t, client) ==> MarkAt(cfg, t, e, client, key, deadline, StoreFailed);
    case LoseClaimReply(_) => assert Asks(t, client) ==> MarkAt(cfg, t, e, client, key, deadline, StoreFailed);
    case HandlerReturns(_, status, body) =>
      assert Works(t, client) ==> MarkAt(cfg, t, e, client, key, deadline, Returned(status, body));
    case Die(_) => assert !t.clients[client].pc.Finished? ==> MarkAt(cfg, t, e, client, key, deadline, Died);
  }

  lemma EventOnCourse(
      cfg: Config, t: State, e: Event, client: Id, key: string, hash: string, deadline: Time,
      marks: iset<Mark>, marks': iset<Mark>)
    requires Arrived(t, client, key, hash, deadline) && Course(t.clients[client].pc, hash, marks)
    requires Extends(cfg, t, e, client, key, deadline, marks, marks')
    ensures var t' := Step(cfg, t, e);
            Arrived(t', client, key, hash, deadline) && Course(t'.clients[client].pc, hash, marks')
  {
    if e.Tick? || e.Arrive? || e.Settle? || e.client != client {
      OthersLeaveIt(cfg, t, e, client, key, hash, deadline, marks, marks');
    } else if e.TryClaim? && e.stored {
      ClaimOnCourse(cfg, t, e, client, key, hash, deadline, marks, marks');
    } else {
      OwnMoveOnCourse(cfg, t, e, client, key, hash, deadline, marks, marks');
    }
  }

  /**
   Over every run from a client's arrival, whatever fails: it goes on waiting
   exactly while each attempt finds its own request in progress and time left;
   a conflict, a replay or a time-out repeats what an attempt found; its
   handler runs only after an attempt that reserved the key or was not
   answered; and an executed answer is its own handler's.
   */
  lemma {:induction false} AnswersJustified(
      cfg: Config, s: State, run: seq<Event>, client: Id, key: string, hash: string)
    requires client !in s.clients
    ensures var s1 := Step(cfg, s, Arrive(client, key, hash));
            var s' := Exec(cfg, s1, run);
            && Arrived(s', client, key, hash, s.now + cfg.maxWait)
            && Course(s'.clients[client].pc, hash, Marks(cfg, s1, run, client, key, s.now + cfg.maxWait))
    decreases |run|
  {
    if run != [] {
      var n := |run| - 1;
      var s1 := Step(cfg, s, Arrive(client, key, hash));
      var deadline := s.now + cfg.maxWait;
      AnswersJustified(cfg, s, run[..n], client, key, hash);
      MarksExtend(cfg, s1, run, client, key, deadline, n);
      EventOnCourse(cfg, Exec(cfg, s1, run[..n]), run[n], client, key, hash, deadline,
                    Marks(cfg, s1, run[..n], client, key, deadline), Marks(cfg, s1, run, client, key, deadline));
    }
  }

  // ---------------------------------------------------- what the store keeps

  /** An owner's outcome reaches the store. */
  ghost predicate Settles(t: State, e: Event, key: string) {
    && e.Settle? && e.stored && e.client in t.clients && t.clients[e.client].pc.Answered?
    && t.clients[e.client].key == key
  }

  /** An attempt on the key reaches the store. */
  ghost predicate Attempts(t: State, e: Event, key: string) {
    && ((e.TryClaim? && e.stored) || e.LoseClaimReply?)
    && Asks(t, e.client) && t.clients[e.client].key == key
  }

  ghost predicate NeverSettled(cfg: Config, s: State, run: seq<Event>, key: string)
    decreases |run|
  {
    run != [] ==>
      var init := run[..|run| - 1];
      NeverSettled(cfg, s, init, key) && !Settles(Exec(cfg, s, init), run[|run| - 1], key)
  }

  ghost predicate NeverTouched(cfg: Config, s: State, run: seq<Event>, key: string)
    decreases |run|
  {
    run != [] ==>
      var init := run[..|run| - 1];
      var t := Exec(cfg, s, init);
      && NeverTouched(cfg, s, init, key)
      && !Settles(t, run[|run| - 1], key) && !Attempts(t, run[|run| - 1], key)
  }

  /** Nothing but an attempt or an owner's outcome touches a key: not a wait, a death or an unprotected handler. */
  lemma {:induction false} UntouchedKeyStands(cfg: Config, s: State, run: seq<Event>, key: string)
    requires NeverTouched(cfg, s, run, key)
    ensures var s' := Exec(cfg, s, run);
            (key in s'.store <==> key in s.store) && (key in s.store ==> s'.store[key] == s.store[key])
    decreases |run|
  {
    if run != [] { UntouchedKeyStands(cfg, s, run[..|run| - 1], key); }
  }

  lemma EventSparesRecord(cfg: Config, t: State, e: Event, key: string)
    requires !Settles(t, e, key)
    ensures var t' := Step(cfg, t, e);
            && t.now <= t'.now
            && (key in t.store && t'.now < t.store[key].expiresAt ==>
                  key in t'.store && t'.store[key] == t.store[key])
  {
  }

  /** Until it expires, a stored record gives way to an owner's outcome alone, whatever is attempted meanwhile. */
  lemma {:induction false} RecordStands(cfg: Config, s: State, run: seq<Event>, key: string)
    requires key in s.store && NeverSettled(cfg, s, run, key)
    ensures var s' := Exec(cfg, s, run);
            s.now <= s'.now && (s'.now < s.store[key].expiresAt ==>
                                  key in s'.store && s'.store[key] == s.store[key])
    decreases |run|
  {
    if run != [] {
      var init := run[..|run| - 1];
      RecordStands(cfg, s, init, key);
      EventSparesRecord(cfg, Exec(cfg, s, init), run[|run| - 1], key);
    }
  }

  /**
   An outcome below 500 answers every attempt on its key until its time to live
   is over, and then lets the next one in; another outcome frees the key at
   once. Over every run in which no further outcome reaches the key.
   */
  lemma {:induction false} OutcomeStands(cfg: Config, s: State, owner: Id, run: seq<Event>, asker: Id)
    requires owner in s.clients && s.clients[owner].pc.Answered?
    requires var s' := Exec(cfg, Step(cfg, s, Settle(owner, true)), run);
             && NeverSettled(cfg, Step(cfg, s, Settle(owner, true)), run, s.clients[owner].key)
             && Asks(s', asker) && s'.clients[asker].key == s.clients[owner].key
    ensures var c := s.clients[owner];
            var s1 := Step(cfg, s, Settle(owner, true));
            var s' := Exec(cfg, s1, run);
            var answer := Step(cfg, s', TryClaim(asker, true)).clients[asker].pc;
            && (100 <= c.pc.status < 500 && s'.now < s.now + cfg.ttl ==>
                  answer == Finished(if s'.clients[asker].hash == c.hash then Replayed(c.pc.status, c.pc.body)
                                     else KeyConflict))
            && (NeverTouched(cfg, s1, run, c.key) && (c.pc.status >= 500 || s.now + cfg.ttl <= s'.now) ==>
                  answer == Running)
  {
    var c := s.clients[owner];
    var s1 := Step(cfg, s, Settle(owner, true));
    if c.pc.status < 500 { RecordStands(cfg, s1, run, c.key); }
    if NeverTouched(cfg, s1, run, c.key) { UntouchedKeyStands(cfg, s1, run, c.key); }
  }

  /**
   An attempt that reaches the store and finds nothing reserves the key, even
   when its reply is lost, and the reservation keeps every other attempt out
   for its whole time, unless an outcome reaches the key, and no longer. Over
   every run.
   */
  lemma {:induction false} ReservationStands(
      cfg: Config, s: State, owner: Id, replied: bool, run: seq<Event>, asker: Id)
    requires Asks(s, owner) && Lookup(s.store, s.clients[owner].key, s.now).None?
    requires var s1 := Step(cfg, s, if replied then TryClaim(owner, true) else LoseClaimReply(owner));
             && NeverSettled(cfg, s1, run, s.clients[owner].key)
             && Asks(Exec(cfg, s1, run), asker)
             && Exec(cfg, s1, run).clients[asker].key == s.clients[owner].key
    ensures var c := s.clients[owner];
            var s1 := Step(cfg, s, if replied then TryClaim(owner, true) else LoseClaimReply(owner));
            var s' := Exec(cfg, s1, run);
            var asking := s'.clients[asker];
            var answer := Step(cfg, s', TryClaim(asker, true)).clients[asker].pc;
            && s1.clients[owner].pc == (if replied then Running else Unprotected)
            && (s'.now < s.now + cfg.reservation ==>
                  answer == if asking.hash != c.hash then Finished(KeyConflict)
                            else if asking.deadline < s'.now then Finished(StillInProgress) else Polling)
            && (NeverTouched(cfg, s1, run, c.key) && s.now + cfg.reservation <= s'.now ==> answer == Running)
  {
    var c := s.clients[owner];
    var s1 := Step(cfg, s, if replied then TryClaim(owner, true) else LoseClaimReply(owner));
    RecordStands(cfg, s1, run, c.key);
    if NeverTouched(cfg, s1, run, c.key) { UntouchedKeyStands(cfg, s1, run, c.key); }
  }
}
