/**
 The shape of a rotation family: a linear chain from one root, whose last
 token alone is unconsumed. Every statement the services run keeps it.
 */
module TokenChains {
  import opened Prelude
  import opened TokenTables

  ghost predicate InFamily(tokens: map<Id, TokenRow>, family: Id, id: Id) {
    id in tokens && tokens[id].family == family
  }

  /** The chain's links: a root, each token parented on the previous one and consumed when it has a successor. */
  ghost predicate Linked(tokens: map<Id, TokenRow>, family: Id, session: Id, chain: seq<Id>) {
    && (forall i :: 0 <= i < |chain| ==> InFamily(tokens, family, chain[i]))
    && (forall i :: 0 <= i < |chain| ==> tokens[chain[i]].session == session)
    && (chain != [] ==> tokens[chain[0]].parent.None?)
    && (forall i :: 0 < i < |chain| ==> tokens[chain[i]].parent == Some(chain[i - 1]))
    && (forall i :: 0 <= i < |chain| ==> (tokens[chain[i]].consumedAt.Some? <==> i < |chain| - 1))
  }

  ghost predicate Distinct(chain: seq<Id>) {
    forall i, j :: 0 <= i < j < |chain| ==> chain[i] != chain[j]
  }

  /** `chain` lists the whole family, root first. */
  ghost predicate IsChain(tokens: map<Id, TokenRow>, family: Id, session: Id, chain: seq<Id>) {
    && chain != []
    && Distinct(chain)
    && Linked(tokens, family, session, chain)
    && (forall id :: InFamily(tokens, family, id) ==> id in chain)
  }

  ghost predicate Chained(tokens: map<Id, TokenRow>, family: Id) {
    exists session, chain :: IsChain(tokens, family, session, chain)
  }

  ghost predicate TokensOk(db: Db) {
    && (forall i, j :: i in db.tokens && j in db.tokens && db.tokens[i].hash == db.tokens[j].hash ==> i == j)
    && (forall id :: id in db.tokens ==> db.tokens[id].session in db.sessions)
    && (forall family :: family in Families(db.tokens) ==> Chained(db.tokens, family))
  }

  // -------------------------------------------- what a chain says of tokens

  ghost predicate HasChild(tokens: map<Id, TokenRow>, family: Id, id: Id) {
    exists child :: InFamily(tokens, family, child) && tokens[child].parent == Some(id)
  }

  /** Exactly one token of the family is unconsumed. */
  lemma OneTip(tokens: map<Id, TokenRow>, family: Id) returns (tip: Id)
    requires Chained(tokens, family)
    ensures InFamily(tokens, family, tip) && tokens[tip].consumedAt.None?
    ensures forall id :: InFamily(tokens, family, id) && tokens[id].consumedAt.None? ==> id == tip
  {
    var session, chain :| IsChain(tokens, family, session, chain);
    tip := chain[|chain| - 1];
    forall id | InFamily(tokens, family, id) && tokens[id].consumedAt.None? ensures id == tip {
      var i :| 0 <= i < |chain| && chain[i] == id;
    }
  }

  /** A token has a child exactly when it is consumed, and never two. */
  lemma OneChild(tokens: map<Id, TokenRow>, family: Id, id: Id)
    requires Chained(tokens, family) && InFamily(tokens, family, id)
    ensures HasChild(tokens, family, id) <==> tokens[id].consumedAt.Some?
    ensures forall a, b :: (InFamily(tokens, family, a) && InFamily(tokens, family, b)
                            && tokens[a].parent == Some(id) && tokens[b].parent == Some(id)) ==> a == b
  {
    var session, chain :| IsChain(tokens, family, session, chain);
    var i :| 0 <= i < |chain| && chain[i] == id;
    if i < |chain| - 1 {
      assert InFamily(tokens, family, chain[i + 1]) && tokens[chain[i + 1]].parent == Some(id);
    }
    forall a | InFamily(tokens, family, a) && tokens[a].parent == Some(id)
      ensures i < |chain| - 1 && a == chain[i + 1]
    {
      var j :| 0 <= j < |chain| && chain[j] == a;
      assert chain[j - 1] == chain[i];
      assert j - 1 == i;
    }
  }

  lemma OneSession(tokens: map<Id, TokenRow>, family: Id, a: Id, b: Id)
    requires Chained(tokens, family) && InFamily(tokens, family, a) && InFamily(tokens, family, b)
    ensures tokens[a].session == tokens[b].session
  {
    var session, chain :| IsChain(tokens, family, session, chain);
    var i :| 0 <= i < |chain| && chain[i] == a;
    var j :| 0 <= j < |chain| && chain[j] == b;
  }

  lemma OneRoot(tokens: map<Id, TokenRow>, family: Id) returns (root: Id)
    requires Chained(tokens, family)
    ensures InFamily(tokens, family, root) && tokens[root].parent.None?
    ensures forall id :: InFamily(tokens, family, id) && tokens[id].parent.None? ==> id == root
  {
    var session, chain :| IsChain(tokens, family, session, chain);
    root := chain[0];
    assert InFamily(tokens, family, chain[0]);
    forall id | InFamily(tokens, family, id) && id != root ensures tokens[id].parent.Some? {
      var i :| 0 <= i < |chain| && chain[i] == id;
      assert tokens[chain[i]].parent == Some(chain[i - 1]);
    }
  }

  // ------------------------------------------- which statements keep chains

  /** Rows that differ at most in their revocation. */
  predicate SameLinks(a: TokenRow, b: TokenRow) {
    a.family == b.family && a.session == b.session && a.parent == b.parent && a.consumedAt == b.consumedAt
  }

  lemma ChainCarriesOver(tokens: map<Id, TokenRow>, tokens': map<Id, TokenRow>, family: Id)
    requires Chained(tokens, family)
    requires forall id :: InFamily(tokens, family, id) <==> InFamily(tokens', family, id)
    requires forall id :: InFamily(tokens, family, id) ==> id in tokens' && SameLinks(tokens[id], tokens'[id])
    ensures Chained(tokens', family)
  {
    var session, chain :| IsChain(tokens, family, session, chain);
    forall i | 0 <= i < |chain| ensures InFamily(tokens', family, chain[i]) {
      assert InFamily(tokens, family, chain[i]);
    }
    assert IsChain(tokens', family, session, chain);
  }

  /** Consuming the tip and inserting its child lengthens the chain by one. */
  lemma ChainGrows(tokens: map<Id, TokenRow>, tokens': map<Id, TokenRow>, family: Id, tip: Id, child: Id)
    requires Chained(tokens, family) && InFamily(tokens, family, tip) && tokens[tip].consumedAt.None?
    requires child !in tokens && tokens'.Keys == tokens.Keys + {child}
    requires forall id :: id in tokens && id != tip ==> tokens'[id] == tokens[id]
    requires tokens'[tip].consumedAt.Some? && tokens'[tip] == tokens[tip].(consumedAt := tokens'[tip].consumedAt)
    requires SameLinks(tokens'[child], tokens[tip].(parent := Some(tip)))
    ensures Chained(tokens', family)
  {
    var session, chain :| IsChain(tokens, family, session, chain);
    var n := |chain|;
    var k :| 0 <= k < n && chain[k] == tip;
    assert k == n - 1;
    LinksGrow(tokens, tokens', family, session, chain, child);
    var longer := chain + [child];
    forall id | InFamily(tokens', family, id) ensures id in longer {
      if id != child {
        assert InFamily(tokens, family, id);
        var i :| 0 <= i < n && chain[i] == id;
        assert longer[i] == id;
      } else {
        assert longer[n] == id;
      }
    }
    assert IsChain(tokens', family, session, longer);
  }

  lemma LinksGrow(
      tokens: map<Id, TokenRow>, tokens': map<Id, TokenRow>, family: Id, session: Id, chain: seq<Id>, child: Id)
    requires chain != [] && Distinct(chain) && Linked(tokens, family, session, chain)
    requires child !in tokens && child in tokens'
    requires forall id :: id in tokens ==> id in tokens'
    requires var tip := chain[|chain| - 1];
             && (forall id :: id in tokens && id != tip ==> tokens'[id] == tokens[id])
             && tokens'[tip].consumedAt.Some?
             && tokens'[tip] == tokens[tip].(consumedAt := tokens'[tip].consumedAt)
             && SameLinks(tokens'[child], tokens[tip].(parent := Some(tip)))
    ensures Distinct(chain + [child]) && Linked(tokens', family, session, chain + [child])
  {
    var n := |chain|;
    var longer := chain + [child];
    forall i | 0 <= i < n
      ensures longer[i] == chain[i] && chain[i] in tokens && longer[i] != child
      ensures InFamily(tokens', family, longer[i]) && tokens'[longer[i]].session == session
      ensures tokens'[longer[i]].parent == tokens[chain[i]].parent && tokens'[longer[i]].consumedAt.Some?
    {
      assert InFamily(tokens, family, chain[i]);
      if i < n - 1 {
        assert chain[i] != chain[n - 1];
        assert tokens'[chain[i]] == tokens[chain[i]];
      }
    }
    forall i | 0 < i < n + 1 ensures tokens'[longer[i]].parent == Some(longer[i - 1]) {
      if i < n {
        assert tokens[chain[i]].parent == Some(chain[i - 1]);
      }
    }
  }

  lemma KeysOfFamilies(tokens: map<Id, TokenRow>, family: Id)
    ensures family in Families(tokens) <==> exists id :: InFamily(tokens, family, id)
  {
    if family in Families(tokens) {
      var id :| id in tokens && tokens[id].family == family;
      assert InFamily(tokens, family, id);
    }
  }

  lemma RotationKeepsChains(db: Db, id: Id, now: Time, childId: Id, child: TokenRow)
    requires TokensOk(db) && Consumable(db, id)
    requires TokenInsertable(ConsumeToken(db, id, now), childId, child)
    requires SameLinks(child, db.tokens[id].(parent := Some(id)))
    ensures TokensOk(InsertToken(ConsumeToken(db, id, now), childId, child))
    ensures Families(InsertToken(ConsumeToken(db, id, now), childId, child).tokens) == Families(db.tokens)
  {
    var db1 := ConsumeToken(db, id, now);
    var db' := InsertToken(db1, childId, child);
    FreshHashStaysUnique(db1, childId, child);
    forall f
      ensures f in Families(db'.tokens) <==> f in Families(db.tokens)
      ensures f in Families(db.tokens) ==> Chained(db'.tokens, f)
    {
      FamilyAfterRotation(db.tokens, db'.tokens, f, id, childId);
    }
  }

  lemma FamilyAfterRotation(
      tokens: map<Id, TokenRow>, tokens': map<Id, TokenRow>, family: Id, tip: Id, child: Id)
    requires tip in tokens && tokens[tip].consumedAt.None?
    requires family in Families(tokens) ==> Chained(tokens, family)
    requires child !in tokens && tokens'.Keys == tokens.Keys + {child}
    requires forall id :: id in tokens && id != tip ==> tokens'[id] == tokens[id]
    requires tokens'[tip].consumedAt.Some? && tokens'[tip] == tokens[tip].(consumedAt := tokens'[tip].consumedAt)
    requires SameLinks(tokens'[child], tokens[tip].(parent := Some(tip)))
    ensures family in Families(tokens') <==> family in Families(tokens)
    ensures family in Families(tokens) ==> Chained(tokens', family)
  {
    KeysOfFamilies(tokens, family);
    KeysOfFamilies(tokens', family);
    if family == tokens[tip].family {
      assert InFamily(tokens, family, tip) && InFamily(tokens', family, tip);
      ChainGrows(tokens, tokens', family, tip, child);
    } else {
      forall t ensures InFamily(tokens, family, t) <==> InFamily(tokens', family, t) {
      }
      if family in Families(tokens) { ChainCarriesOver(tokens, tokens', family); }
    }
  }

  lemma FreshHashStaysUnique(db: Db, id: Id, row: TokenRow)
    requires forall i, j :: i in db.tokens && j in db.tokens && db.tokens[i].hash == db.tokens[j].hash ==> i == j
    requires TokenWithHash(db.tokens, row.hash).None?
    ensures var tokens := InsertToken(db, id, row).tokens;
            forall i, j :: i in tokens && j in tokens && tokens[i].hash == tokens[j].hash ==> i == j
  {
    forall i | i in db.tokens ensures db.tokens[i].hash != row.hash {
      assert !HasHash(db.tokens, row.hash, i);
    }
  }

  /** A root token with a fresh family starts a chain of its own. */
  lemma RootStartsChain(db: Db, id: Id, root: TokenRow)
    requires TokensOk(db) && TokenInsertable(db, id, root)
    requires root.family !in Families(db.tokens) && root.parent.None? && root.consumedAt.None?
    ensures TokensOk(InsertToken(db, id, root))
    ensures Families(InsertToken(db, id, root).tokens) == Families(db.tokens) + {root.family}
  {
    var db' := InsertToken(db, id, root);
    FreshHashStaysUnique(db, id, root);
    forall f
      ensures f in Families(db'.tokens) <==> f in Families(db.tokens) || f == root.family
      ensures f in Families(db'.tokens) ==> Chained(db'.tokens, f)
    {
      KeysOfFamilies(db.tokens, f);
      KeysOfFamilies(db'.tokens, f);
      if f == root.family {
        assert InFamily(db'.tokens, f, id);
        assert IsChain(db'.tokens, f, root.session, [id]);
      } else {
        forall t ensures InFamily(db.tokens, f, t) <==> InFamily(db'.tokens, f, t) {
        }
        if f in Families(db.tokens) { ChainCarriesOver(db.tokens, db'.tokens, f); }
      }
    }
  }

  lemma RevocationKeepsChains(db: Db, family: Id, now: Time, reason: TokenReason)
    requires TokensOk(db)
    ensures TokensOk(RevokeFamily(db, family, now, reason))
    ensures Families(RevokeFamily(db, family, now, reason).tokens) == Families(db.tokens)
    ensures RevokeFamily(db, family, now, reason).tokens.Keys == db.tokens.Keys
  {
    var db' := RevokeFamily(db, family, now, reason);
    forall f
      ensures f in Families(db'.tokens) <==> f in Families(db.tokens)
      ensures f in Families(db.tokens) ==> Chained(db'.tokens, f)
    {
      KeysOfFamilies(db.tokens, f);
      KeysOfFamilies(db'.tokens, f);
      forall t ensures InFamily(db.tokens, f, t) <==> InFamily(db'.tokens, f, t) {
      }
      if f in Families(db.tokens) { ChainCarriesOver(db.tokens, db'.tokens, f); }
    }
  }
}
