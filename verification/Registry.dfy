/** Mandates come and go by signature only: what registers one, what revokes one, what becomes of
    ceremony tokens, over every run. */
module Registry {
  import opened Options
  import opened Texts
  import opened CanonicalJson
  import opened Crypto
  import opened Mandates
  import opened Schema
  import opened Protocol
  import opened Tables
  import opened Effects
  import opened Revocation
  import opened Idempotency
  import opened Consent

  // ---------------------------------------------------------------- revocation

  lemma RevokeKeys()
    ensures MANDATE_ID != ACTION
  {
    assert |MANDATE_ID| == 9 && |ACTION| == 6;
  }

  /** The signed text fixes the mandate. */
  lemma RevokeBytesBind(m: Text, m': Text)
    ensures RevokeBytes(m) == RevokeBytes(m') <==> m == m'
  {
    hide Lit;
    hide Encode;
    RevokeKeys();
    if RevokeBytes(m) == RevokeBytes(m') {
      var x, y := map[MANDATE_ID := Str(m), ACTION := Str(REVOKE)], map[MANDATE_ID := Str(m'), ACTION := Str(REVOKE)];
      EncodeIsInjective(Obj(x), Obj(y));
      assert x[MANDATE_ID] == y[MANDATE_ID];
    }
  }

  /** A request to revoke takes effect exactly when the human of the mandate signed it and the mandate
      is not revoked yet: the moment is stored and the event logged. Any other changes nothing. */
  lemma RevocationOutcome(w: World, m: Text, sig: Sig)
    ensures var w' := Next(w, RevokeStep(m, sig));
      if HumanSigned(w.db, m, RevokeBytes(m), sig) && w.db.mandates[m].revokedAt.None? then
        && w' == w.(db := w.db.(mandates := w'.db.mandates, ledger := w.db.ledger + [MandateRevoked(m)]))
        && w'.db.mandates.Keys == w.db.mandates.Keys
        && w'.db.mandates[m] == w.db.mandates[m].(revokedAt := Some(w.now))
        && forall k :: k in w.db.mandates && k != m ==> w'.db.mandates[k] == w.db.mandates[k]
      else w' == w
  {
    hide VerifySignature;
    hide RevokeBytes;
  }

  lemma MandatesAlone(db: Db, db': Db, e: Effect, now: int)
    requires Does(db, db', e, now) && !e.Revokes? && !e.Registers?
    ensures db'.mandates == db.mandates
  {
    hide Adds;
    hide Moves;
    hide Admissible;
    hide Reports;
    hide MandateBusy;
  }

  /** Only these two requests write the table of mandates. */
  lemma OthersLeaveMandates(w: World, s: Step)
    requires Sound(w) && !s.RevokeStep? && !s.RegisterStep?
    ensures Next(w, s).db.mandates == w.db.mandates
  {
    hide Next;
    hide Sound;
    hide Does;
    var e := StepEffect(w, s);
    assert !e.Revokes? && !e.Registers?;
    hide Triggers;
    MandatesAlone(w.db, Next(w, s).db, e, w.now);
  }

  /** The request to revoke m by its human. */
  predicate RevokesNow(w: World, s: Step, m: Text) {
    s.RevokeStep? && s.mandateId == m && HumanSigned(w.db, m, RevokeBytes(m), s.sig)
  }

  /** Whatever step it is: afterwards the mandate is revoked if and only if it was before, or the step
      is a request to revoke it that its human signed; the moment of a revocation never changes. */
  lemma RevokedExactlyWhen(w: World, s: Step, m: Text)
    requires Sound(w) && m in w.db.mandates
    ensures m in Next(w, s).db.mandates
    ensures Next(w, s).db.mandates[m].revokedAt.Some? <==> w.db.mandates[m].revokedAt.Some? || RevokesNow(w, s, m)
    ensures w.db.mandates[m].revokedAt.Some? ==> Next(w, s).db.mandates[m] == w.db.mandates[m]
  {
    hide Next;
    hide Sound;
    hide HumanSigned;
    hide MayRegister;
    if s.RevokeStep? {
      RevocationOutcome(w, s.mandateId, s.sig);
    } else if s.RegisterStep? {
      RegistrationOutcome(w, s.intent, s.credential, s.token);
      assert MayRegister(w.db, s.intent, s.credential, s.token) ==> s.intent.mandateId != m by { NewIds(w, s); }
    } else {
      OthersLeaveMandates(w, s);
    }
  }

  lemma NewIds(w: World, s: Step)
    requires s.RegisterStep?
    ensures MayRegister(w.db, s.intent, s.credential, s.token) ==> s.intent.mandateId !in w.db.mandates
  {
    hide VerifySignature;
    hide IntentSigningBytes;
  }

  lemma RevokedNow(w: World, m: Text, sig: Sig)
    requires HumanSigned(w.db, m, RevokeBytes(m), sig)
    ensures var w' := Next(w, RevokeStep(m, sig)); Revoked(w'.db, m) && w'.db.settlements == w.db.settlements
  {
    RevocationOutcome(w, m, sig);
    hide Next;
    hide VerifySignature;
    hide RevokeBytes;
  }

  /** The spend of m from db to db' stays, or grows once by what was in flight. */
  ghost predicate SpendsOnceAtMost(db: Db, db': Db, m: Text) {
    Spent(db'.settlements, m) == Spent(db.settlements, m) || exists i: nat :: CapturedLate(db, db', m, i)
  }

  lemma SameRowsSameSpend(db: Db, db1: Db, db': Db, m: Text)
    requires db1.settlements == db.settlements && SpendsOnceAtMost(db1, db', m)
    ensures SpendsOnceAtMost(db, db', m)
  {
    hide Spent;
    if i: nat :| CapturedLate(db1, db', m, i) { assert CapturedLate(db, db', m, i); }
  }

  lemma RevokedSpends(w: World, m: Text, rest: seq<Step>)
    requires Sound(w) && Revoked(w.db, m)
    ensures SpendsOnceAtMost(w.db, Run(w, rest).db, m)
  {
    hide Sound;
    hide Revoked;
    hide Spent;
    hide Run;
    hide CapturedLate;
    hide PastExpiry;
    hide StaysAfter;
    ClosedMandateSpendsAtMostOnce(w, m, rest);
  }

  /** Over every run from the empty database: once its human has revoked it, a mandate's captured spend
      stays, or grows once by the one settlement that was in `settling` then. */
  lemma RevokedRunSpendsAtMostOnce(steps: seq<Step>, k: nat, m: Text, sig: Sig)
    requires k < |steps| && steps[k] == RevokeStep(m, sig)
    requires HumanSigned(Before(START, steps, k).db, m, RevokeBytes(m), sig)
    ensures SpendsOnceAtMost(Before(START, steps, k).db, Run(START, steps).db, m)
  {
    hide *;
    SoundAt(steps, k + 1);
    BeforeNext(START, steps, k);
    RevokedNow(Before(START, steps, k), m, sig);
    RunFrom(START, steps, k + 1, |steps|);
    BeforeEnd(START, steps);
    RevokedSpends(Before(START, steps, k + 1), m, steps[k + 1..|steps|]);
    SameRowsSameSpend(Before(START, steps, k).db, Before(START, steps, k + 1).db, Run(START, steps).db, m);
  }

  // ---------------------------------------------------------------- registration

  /** A registration takes effect exactly when its token is there, the intent is signed under the key it
      brings and its id is new: token, row and event together. Any other changes nothing. */
  lemma RegistrationOutcome(w: World, intent: SignedIntent, credential: Credential, token: Text)
    ensures var w', m := Next(w, RegisterStep(intent, credential, token)), intent.mandateId;
      if MayRegister(w.db, intent, credential, token) then
        && w' == w.(db := w.db.(tokens := w'.db.tokens, mandates := w'.db.mandates,
                                ledger := w.db.ledger + [MandateRegistered(m)]))
        && token !in w'.db.tokens && (forall t :: t in w'.db.tokens <==> t in w.db.tokens && t != token)
        && w'.db.mandates == w.db.mandates[m := Mandate(intent, credential, None)]
      else w' == w
  {
    hide VerifySignature;
    hide IntentSigningBytes;
  }

  /** Whatever step it is: a mandate is new exactly by a registration that may be carried out, with the
      terms and the key of that request. */
  lemma RegisteredExactlyWhen(w: World, s: Step, m: Text)
    requires Sound(w) && m !in w.db.mandates
    ensures m in Next(w, s).db.mandates <==>
      s.RegisterStep? && s.intent.mandateId == m && MayRegister(w.db, s.intent, s.credential, s.token)
    ensures m in Next(w, s).db.mandates ==>
      s.RegisterStep? && Next(w, s).db.mandates[m] == Mandate(s.intent, s.credential, None)
  {
    hide Next;
    hide Sound;
    hide HumanSigned;
    hide MayRegister;
    if s.RegisterStep? {
      RegistrationOutcome(w, s.intent, s.credential, s.token);
    } else if s.RevokeStep? {
      RevocationOutcome(w, s.mandateId, s.sig);
    } else {
      OthersLeaveMandates(w, s);
    }
  }

  /** Every mandate of every run was registered in it by a request that its own key signed. */
  lemma {:induction false} MandateWasSigned(steps: seq<Step>, n: nat, m: Text) returns (k: nat)
    requires n <= |steps| && m in Before(START, steps, n).db.mandates
    ensures k < n && steps[k].RegisterStep?
    ensures var row, w := Before(START, steps, n).db.mandates[m], Before(START, steps, k);
      && row.intent == steps[k].intent && row.credential == steps[k].credential && row.intent.mandateId == m
      && MayRegister(w.db, row.intent, row.credential, steps[k].token)
    decreases n
  {
    hide Next;
    hide Sound;
    hide MayRegister;
    if n == 0 {
      BeforeStart(START, steps);
      assert false;
    } else {
      var w := Before(START, steps, n - 1);
      BeforeNext(START, steps, n - 1);
      hide Before;
      SoundAt(steps, n - 1);
      if m in w.db.mandates {
        k := MandateWasSigned(steps, n - 1, m);
        MandateStaysOne(w, steps[n - 1], m);
      } else {
        k := n - 1;
        RegisteredExactlyWhen(w, steps[k], m);
      }
    }
  }

  // ---------------------------------------------------------------- tokens and catalogs

  /** How often a token is minted, and how many mandates it registers. */
  function Mints(steps: seq<Step>, t: Text): nat
    decreases |steps|
  {
    if steps == [] then 0 else (if steps[0] == MintToken(t) then 1 else 0) + Mints(steps[1..], t)
  }

  predicate RegistersWith(w: World, s: Step, t: Text) {
    s.RegisterStep? && s.token == t && MayRegister(w.db, s.intent, s.credential, t)
  }

  function RegistrationsWith(w: World, steps: seq<Step>, t: Text): nat
    decreases |steps|
  {
    if steps == [] then 0
    else (if RegistersWith(w, steps[0], t) then 1 else 0) + RegistrationsWith(Next(w, steps[0]), steps[1..], t)
  }

  /** A token is there afterwards exactly when it was minted now, or was there and registered nothing. */
  lemma TokenExactlyWhen(w: World, s: Step, t: Text)
    ensures t in Next(w, s).db.tokens <==> s == MintToken(t) || (t in w.db.tokens && !RegistersWith(w, s, t))
  {
    if s.RegisterStep? {
      RegistrationOutcome(w, s.intent, s.credential, s.token);
      hide Next;
      hide MayRegister;
    } else if s.PostStep? {
      PostLeavesTokens(w, s);
      hide Next;
    } else if !s.SweepLocksStep? && !s.MintToken? && !s.AddCatalog? {
      OthersLeaveAside(w, s);
      hide Next;
    }
  }

  lemma PostLeavesTokens(w: World, s: Step)
    requires s.PostStep?
    ensures Next(w, s).db.tokens == w.db.tokens && Next(w, s).db.catalogs == w.db.catalogs
  {
    var locked := Lock(w.db, s.key, s.requestHash, w.now);
    CreateLeavesKeys(locked, s.intent, s.cart, w.now);
    hide CreateSettlement;
    hide Next;
    NextOf(w, s);
  }

  /** Over every run a token registers at most as many mandates as it was minted times. */
  lemma {:induction false} TokensAreSpent(w: World, steps: seq<Step>, t: Text)
    ensures RegistrationsWith(w, steps, t) <= Mints(steps, t) + if t in w.db.tokens then 1 else 0
    decreases |steps|
  {
    hide Next;
    if steps != [] {
      TokenExactlyWhen(w, steps[0], t);
      TokensAreSpent(Next(w, steps[0]), steps[1..], t);
      assert RegistersWith(w, steps[0], t) ==> t in w.db.tokens;
    }
    hide MayRegister;
  }

  /** The prices of merchants change only when one is registered that is not there, or is scanned again. */
  lemma CatalogExactlyWhen(w: World, s: Step)
    ensures Next(w, s).db.catalogs ==
      if s.AddCatalog? && (s.rescan || s.merchant !in w.db.catalogs) then w.db.catalogs[s.merchant := s.prices]
      else w.db.catalogs
  {
    if s.PostStep? {
      PostLeavesTokens(w, s);
      hide Next;
    } else if s.RegisterStep? {
      MandateLeavesKeys(w, s);
      hide Next;
    } else if !s.SweepLocksStep? && !s.MintToken? && !s.AddCatalog? {
      OthersLeaveAside(w, s);
      hide Next;
    }
  }
}
