/** The stored address is normalised twice, a lookup's once: when the two meet. */
module RegisteredAddresses {
  import opened Prelude
  import opened EmailAddress
  import opened AccountProtocol
  import opened AccountTheorems
  import opened UndisturbedCalls

  ghost predicate Canonicalizes(cfg: Config, cs: Charset) {
    Lawful(cs) && forall email :: cfg.canonical(email) == NormalizeEmail(cs, email)
  }

  /**
   An account registered under one spelling is found under another exactly
   when that spelling's form is the stored one; for a stable address these
   are precisely the rewritings of it, its own form among them.
   */
  lemma {:induction false} RegisteredIsFound(
      cfg: Config, cs: Charset, w: World, typed: string, other: string, c: Choice)
    requires Canonicalizes(cfg, cs) && WorldOk(cfg, w) && FreshChoice(cfg, w, c)
    ensures var once := NormalizeEmail(cs, typed);
            var (w', pc) := Alone(cfg, w, RegLookup(once), c, 5);
            pc == Done(Registered) ==>
              && (HasEmail(w'.users, once, c.userId) <==> Stable(cs, typed))
              && (HasEmail(w'.users, NormalizeEmail(cs, other), c.userId) <==> Same(cs, once, other))
              && (Stable(cs, typed) ==>
                    (HasEmail(w'.users, NormalizeEmail(cs, other), c.userId) <==> Same(cs, typed, other)))
  {
    var once := NormalizeEmail(cs, typed);
    RegisterDecides(cfg, w, once, c);
    IdempotentIffStable(cs, typed);
    NormalFormsDecideSameness(cs, once, other);
    NormalFormsDecideSameness(cs, typed, other);
  }

  /** An undisturbed registration fails only over an address that is not stable. */
  lemma {:induction false} StableRegistrationAnswers(cfg: Config, cs: Charset, w: World, typed: string, c: Choice)
    requires Canonicalizes(cfg, cs) && WorldOk(cfg, w) && FreshChoice(cfg, w, c) && Stable(cs, typed)
    ensures var once := NormalizeEmail(cs, typed);
            var pc := Alone(cfg, w, RegLookup(once), c, 5).1;
            && (pc == Done(AlreadyExists) <==> UserWithEmail(w.users, once).Some?)
            && (pc == Done(Registered) <==> UserWithEmail(w.users, once).None?)
  {
    RegisterDecides(cfg, w, NormalizeEmail(cs, typed), c);
    IdempotentIffStable(cs, typed);
  }

  /**
   A callback looks up the provider's spelling and stores its form: with no
   link and no account under that spelling it fails exactly when the form is
   taken, which cannot be when the provider sends normal forms.
   */
  lemma {:induction false} CallbackFailsOnSpelling(cfg: Config, cs: Charset, w: World, identity: Identity, c: Choice)
    requires Canonicalizes(cfg, cs) && WorldOk(cfg, w) && FreshChoice(cfg, w, c)
    requires identity.key !in w.links && UserWithEmail(w.users, identity.email).None?
    ensures var pc := Alone(cfg, w, CbFindLink(identity), c, 6).1;
            && (pc == Done(Failed) <==> UserWithEmail(w.users, NormalizeEmail(cs, identity.email)).Some?)
            && (pc == Done(Failed) ==> NormalizeEmail(cs, identity.email) != identity.email)
  {
    UnlinkedWithoutAccount(cfg, w, identity, c);
  }
}
