/**
 When two requests own one key at once, exactly, over every run: store
 failures, lost replies, deaths and expiry included. Saves and releases carry
 no owner, so after one granted late claim anything can follow; before it,
 nothing can.
 */
module IdempotencyOverlap {
  import opened Prelude
  import opened IdempotencyProtocol
  import opened IdempotencyTheorems

  predicate OwnerOf(s: State, id: Id, key: string) {
    id in s.clients && Owns(s.clients[id].pc) && s.clients[id].key == key
  }

  /** Two requests hold the key at once: two handlers are at work on it, or one of them has just finished. */
  ghost predicate DoublyOwned(s: State, key: string) {
    exists a, b :: a != b && OwnerOf(s, a, key) && OwnerOf(s, b, key)
  }

  /** The owner's reservation has run out and it has not settled. */
  predicate Late(cfg: Config, s: State, id: Id, key: string) {
    OwnerOf(s, id, key) && id in s.claims && s.claims[id].at + cfg.reservation <= s.now
  }

  /** A claim reaches the store and finds nothing there, while an owner of the key is late. */
  ghost predicate GrantedLate(cfg: Config, s: State, e: Event, key: string) {
    && e.TryClaim? && e.stored && e.client in s.clients && s.clients[e.client].pc.Polling?
    && s.clients[e.client].key == key && Lookup(s.store, key, s.now).None?
    && exists owner :: Late(cfg, s, owner, key)
  }

  predicate HoldsReservation(cfg: Config, s: State, o: Id, key: string)
    requires o in s.clients
  {
    o in s.claims && key in s.store
    && s.store[key] == Entry(Record(0, "", s.clients[o].hash), s.claims[o].at + cfg.reservation)
  }

  /** One owner at most, and it is late or its reservation is what the store holds. */
  ghost predicate Solo(cfg: Config, s: State, key: string) {
    && (forall a, b :: OwnerOf(s, a, key) && OwnerOf(s, b, key) ==> a == b)
    && (forall o :: OwnerOf(s, o, key) ==> Late(cfg, s, o, key) || HoldsReservation(cfg, s, o, key))
  }

  /** Until a late claim is granted the key has one owner, whatever fails. */
  lemma SoloStep(cfg: Config, s: State, e: Event, key: string)
    requires Solo(cfg, s, key) && !GrantedLate(cfg, s, e, key)
    ensures Solo(cfg, Step(cfg, s, e), key)
  {
    if e.TryClaim? && e.client in s.clients && s.clients[e.client].pc.Polling? {
      SoloClaim(cfg, s, e.client, e.stored, key);
    } else if e.LoseClaimReply? && e.client in s.clients && s.clients[e.client].pc.Polling? {
      SoloLostReply(cfg, s, e.client, key);
    } else if e.Settle? && e.client in s.clients && s.clients[e.client].pc.Answered? {
      SoloSettle(cfg, s, e.client, e.stored, key);
    } else {
      SoloElsewhere(cfg, s, e, key);
    }
  }

  lemma SoloElsewhere(cfg: Config, s: State, e: Event, key: string)
    requires Solo(cfg, s, key)
    requires !((e.TryClaim? || e.LoseClaimReply?) && e.client in s.clients && s.clients[e.client].pc.Polling?)
    requires !(e.Settle? && e.client in s.clients && s.clients[e.client].pc.Answered?)
    ensures Solo(cfg, Step(cfg, s, e), key)
  {
    var s' := Step(cfg, s, e);
    forall o | OwnerOf(s', o, key) ensures OwnerOf(s, o, key) {
    }
  }

  lemma SoloSettle(cfg: Config, s: State, id: Id, stored: bool, key: string)
    requires Solo(cfg, s, key) && id in s.clients && s.clients[id].pc.Answered?
    ensures Solo(cfg, SettleStep(cfg, s, id, stored), key)
  {
    var s' := SettleStep(cfg, s, id, stored);
    forall o | OwnerOf(s', o, key) ensures OwnerOf(s, o, key) && s.clients[id].key != key {
      assert o != id && s'.clients[o] == s.clients[o];
      assert OwnerOf(s, o, key) && !OwnerOf(s, id, key);
    }
  }

  /** An owner in time is found by whoever looks. */
  lemma InTimeIsFound(cfg: Config, s: State, o: Id, key: string)
    requires Solo(cfg, s, key) && OwnerOf(s, o, key) && !Late(cfg, s, o, key)
    ensures Lookup(s.store, key, s.now).Some?
  {
  }

  lemma SoloLostReply(cfg: Config, s: State, id: Id, key: string)
    requires Solo(cfg, s, key) && id in s.clients && s.clients[id].pc.Polling?
    ensures Solo(cfg, LostReplyStep(cfg, s, id), key)
  {
    var s' := LostReplyStep(cfg, s, id);
    forall o | OwnerOf(s', o, key)
      ensures OwnerOf(s, o, key) && (Late(cfg, s', o, key) || HoldsReservation(cfg, s', o, key))
    {
      assert o != id && s'.clients[o] == s.clients[o];
      if !Late(cfg, s, o, key) { InTimeIsFound(cfg, s, o, key); }
    }
  }

  lemma SoloClaim(cfg: Config, s: State, id: Id, stored: bool, key: string)
    requires Solo(cfg, s, key) && id in s.clients && s.clients[id].pc.Polling?
    requires !GrantedLate(cfg, s, TryClaim(id, stored), key)
    ensures Solo(cfg, ClaimStep(cfg, s, id, stored), key)
  {
    var s' := ClaimStep(cfg, s, id, stored);
    forall o | OwnerOf(s', o, key) && o != id ensures OwnerOf(s, o, key) {
    }
    forall o | OwnerOf(s, o, key) && stored && s.clients[id].key == key ensures Lookup(s.store, key, s.now).Some? {
      if !Late(cfg, s, o, key) { InTimeIsFound(cfg, s, o, key); }
    }
  }

  /**
   The takeover: a rival's claim makes a second owner exactly when it finds
   nothing while the owner is late. An owner whose reservation is still what
   the store holds loses it exactly by being late.
   */
  lemma TakeoverIffLate(cfg: Config, s: State, owner: Id, rival: Id, key: string)
    requires Solo(cfg, s, key) && OwnerOf(s, owner, key)
    requires rival in s.clients && s.clients[rival].pc.Polling? && s.clients[rival].key == key
    ensures DoublyOwned(Step(cfg, s, TryClaim(rival, true)), key) <==> GrantedLate(cfg, s, TryClaim(rival, true), key)
    ensures HoldsReservation(cfg, s, owner, key) ==>
              (DoublyOwned(Step(cfg, s, TryClaim(rival, true)), key) <==> Late(cfg, s, owner, key))
  {
    var s' := Step(cfg, s, TryClaim(rival, true));
    assert OwnerOf(s', owner, key);
    if GrantedLate(cfg, s, TryClaim(rival, true), key) {
      assert OwnerOf(s', rival, key);
    } else {
      SoloStep(cfg, s, TryClaim(rival, true), key);
    }
    if HoldsReservation(cfg, s, owner, key) && Late(cfg, s, owner, key) {
      assert Lookup(s.store, key, s.now).None?;
    }
  }

  // --------------------------------------------------------- over every run

  ghost predicate LateAt(cfg: Config, start: Time, run: seq<Event>, key: string, k: nat)
    requires k < |run|
  {
    GrantedLate(cfg, Exec(cfg, Init(start), run[..k]), run[k], key)
  }

  ghost predicate DoublyOwnedAt(cfg: Config, start: Time, run: seq<Event>, key: string, k: nat)
    requires k <= |run|
  {
    DoublyOwned(Exec(cfg, Init(start), run[..k]), key)
  }

  lemma {:induction false} SoloUntilLate(cfg: Config, start: Time, run: seq<Event>, key: string)
    requires forall k :: 0 <= k < |run| ==> !LateAt(cfg, start, run, key, k)
    ensures Solo(cfg, Exec(cfg, Init(start), run), key)
    decreases |run|
  {
    if run != [] {
      var n := |run| - 1;
      Shorter(cfg, start, run, key, n);
      SoloUntilLate(cfg, start, run[..n], key);
      assert !LateAt(cfg, start, run, key, n);
      SoloStep(cfg, Exec(cfg, Init(start), run[..n]), run[n], key);
    }
  }

  lemma {:induction false} Shorter(cfg: Config, start: Time, run: seq<Event>, key: string, n: nat)
    requires n <= |run|
    ensures forall k :: 0 <= k < n ==> (LateAt(cfg, start, run[..n], key, k) <==> LateAt(cfg, start, run, key, k))
  {
    forall k | 0 <= k < n ensures LateAt(cfg, start, run[..n], key, k) <==> LateAt(cfg, start, run, key, k) {
      assert run[..n][..k] == run[..k] && run[..n][k] == run[k];
    }
  }

  /** A granted late claim makes a second owner, in any state. */
  lemma {:induction false} GrantedLateDoubles(cfg: Config, start: Time, run: seq<Event>, key: string, k: nat)
    requires k < |run| && LateAt(cfg, start, run, key, k)
    ensures DoublyOwnedAt(cfg, start, run, key, k + 1)
  {
    var s := Exec(cfg, Init(start), run[..k]);
    var owner :| Late(cfg, s, owner, key);
    var s' := Step(cfg, s, run[k]);
    assert OwnerOf(s', owner, key) && OwnerOf(s', run[k].client, key);
    assert run[..k + 1][..k] == run[..k] && run[..k + 1][k] == run[k];
  }

  /**
   Over every run, whatever fails, expires or dies: a key is at some point
   owned by two clients exactly when some claim found nothing in the store
   while an owner of the key was past its reservation.
   */
  lemma {:induction false} OverlapIffLateClaim(cfg: Config, start: Time, run: seq<Event>, key: string)
    ensures (exists k :: 0 <= k <= |run| && DoublyOwnedAt(cfg, start, run, key, k))
            <==> (exists k :: 0 <= k < |run| && LateAt(cfg, start, run, key, k))
  {
    if k :| 0 <= k < |run| && LateAt(cfg, start, run, key, k) {
      GrantedLateDoubles(cfg, start, run, key, k);
    } else {
      forall k | 0 <= k <= |run| ensures !DoublyOwnedAt(cfg, start, run, key, k) {
        Shorter(cfg, start, run, key, k);
        SoloUntilLate(cfg, start, run[..k], key);
      }
    }
  }

  // ---------------------------------------------------------- in calm runs

  /** The store answers and no owner dies, throughout. */
  ghost predicate CalmRun(cfg: Config, start: Time, run: seq<Event>) {
    forall k :: 0 <= k < |run| ==> CalmAt(cfg, start, run, k)
  }

  ghost predicate CalmAt(cfg: Config, start: Time, run: seq<Event>, k: nat)
    requires k < |run|
  {
    Calm(Exec(cfg, Init(start), run[..k]), run[k])
  }

  ghost predicate ReservationsStored(cfg: Config, s: State, key: string) {
    forall o :: OwnerOf(s, o, key) ==> HoldsReservation(cfg, s, o, key)
  }

  lemma CalmStep(cfg: Config, s: State, e: Event, key: string)
    requires Solo(cfg, s, key) && ReservationsStored(cfg, s, key) && Calm(s, e) && !GrantedLate(cfg, s, e, key)
    ensures ReservationsStored(cfg, Step(cfg, s, e), key)
  {
    if e.Settle? && e.client in s.clients && s.clients[e.client].pc.Answered? {
      CalmSettle(cfg, s, e.client, key);
    } else if e.TryClaim? && e.client in s.clients && s.clients[e.client].pc.Polling? {
      CalmClaim(cfg, s, e.client, key);
    } else {
      CalmElsewhere(cfg, s, e, key);
    }
  }

  lemma CalmSettle(cfg: Config, s: State, id: Id, key: string)
    requires Solo(cfg, s, key) && ReservationsStored(cfg, s, key) && id in s.clients && s.clients[id].pc.Answered?
    ensures ReservationsStored(cfg, SettleStep(cfg, s, id, true), key)
  {
    var s' := SettleStep(cfg, s, id, true);
    forall o | OwnerOf(s', o, key) ensures OwnerOf(s, o, key) && s.clients[id].key != key {
      assert o != id && s'.clients[o] == s.clients[o];
      assert OwnerOf(s, o, key) && !OwnerOf(s, id, key);
    }
  }

  lemma CalmClaim(cfg: Config, s: State, id: Id, key: string)
    requires Solo(cfg, s, key) && ReservationsStored(cfg, s, key) && id in s.clients && s.clients[id].pc.Polling?
    requires !GrantedLate(cfg, s, TryClaim(id, true), key)
    ensures ReservationsStored(cfg, ClaimStep(cfg, s, id, true), key)
  {
    var s' := ClaimStep(cfg, s, id, true);
    forall o | OwnerOf(s', o, key) && o != id ensures HoldsReservation(cfg, s', o, key) {
      assert OwnerOf(s, o, key);
      if !Late(cfg, s, o, key) { InTimeIsFound(cfg, s, o, key); }
    }
  }

  lemma CalmElsewhere(cfg: Config, s: State, e: Event, key: string)
    requires ReservationsStored(cfg, s, key) && Calm(s, e)
    requires !(e.TryClaim? && e.client in s.clients && s.clients[e.client].pc.Polling?)
    requires !(e.Settle? && e.client in s.clients && s.clients[e.client].pc.Answered?)
    ensures ReservationsStored(cfg, Step(cfg, s, e), key)
  {
    var s' := Step(cfg, s, e);
    forall o | OwnerOf(s', o, key) ensures OwnerOf(s, o, key) {
    }
  }

  lemma {:induction false} CalmUntilLate(cfg: Config, start: Time, run: seq<Event>, key: string, n: nat)
    requires n <= |run| && CalmRun(cfg, start, run) && forall k :: 0 <= k < n ==> !LateAt(cfg, start, run, key, k)
    ensures ReservationsStored(cfg, Exec(cfg, Init(start), run[..n]), key)
    decreases n
  {
    if n > 0 {
      CalmUntilLate(cfg, start, run, key, n - 1);
      Shorter(cfg, start, run, key, n - 1);
      SoloUntilLate(cfg, start, run[..n - 1], key);
      assert CalmAt(cfg, start, run, n - 1) && !LateAt(cfg, start, run, key, n - 1);
      CalmStep(cfg, Exec(cfg, Init(start), run[..n - 1]), run[n - 1], key);
      assert run[..n][..n - 1] == run[..n - 1] && run[..n][n - 1] == run[n - 1];
    }
  }

  /** A client asks for a key whose owner is late. */
  ghost predicate AsksLateAt(cfg: Config, start: Time, run: seq<Event>, key: string, k: nat)
    requires k < |run|
  {
    var s := Exec(cfg, Init(start), run[..k]);
    && run[k].TryClaim? && run[k].client in s.clients && s.clients[run[k].client].pc.Polling?
    && s.clients[run[k].client].key == key && exists owner :: Late(cfg, s, owner, key)
  }

  /** In calm runs asking is enough: the first to ask behind a late owner's back is granted the key. */
  lemma {:induction false} CalmOverlapIffLateClaim(cfg: Config, start: Time, run: seq<Event>, key: string)
    requires CalmRun(cfg, start, run)
    ensures (exists k :: 0 <= k <= |run| && DoublyOwnedAt(cfg, start, run, key, k))
            <==> (exists k :: 0 <= k < |run| && AsksLateAt(cfg, start, run, key, k))
  {
    OverlapIffLateClaim(cfg, start, run, key);
    if k :| 0 <= k < |run| && LateAt(cfg, start, run, key, k) {
      assert AsksLateAt(cfg, start, run, key, k);
    } else {
      forall k | 0 <= k < |run| ensures !AsksLateAt(cfg, start, run, key, k) {
        CalmUntilLate(cfg, start, run, key, k);
        assert CalmAt(cfg, start, run, k) && !LateAt(cfg, start, run, key, k);
      }
    }
  }
}
