/** Exactly once by key: over retries, crashes between the claim and the transaction, and lock
    clearing, a key commits at most one business transaction, and its response is replayed. */
module Idempotency {
  import opened Options
  import opened Texts
  import opened Crypto
  import opened Mandates
  import opened Verify
  import opened Schema
  import opened Protocol

  datatype Answer = Replied(response: Response) | KeyReused | KeyInFlight | ServerError

  /** What the caller of POST /settlements gets (packages/facilitator/src/routes/settlements.ts:39-70). */
  function AnswerTo(w: World, key: Text, h: Text, intent: SignedIntent, cart: SignedCart): Answer {
    match ClaimKey(w.db, key, h)
    case HashMismatch => KeyReused
    case InFlight => KeyInFlight
    case Completed(r) => Replied(r)
    case Claimed =>
      match CreateSettlement(Lock(w.db, key, h, w.now), intent, cart, w.now)
      case CreateThrew => ServerError
      case Made(_, r) => Replied(r)
  }

  /** The step commits a business transaction under this key. */
  predicate Commits(w: World, s: Step, key: Text) {
    && s.PostStep? && s.key == key && !s.dies
    && ClaimKey(w.db, key, s.requestHash) == Claimed
    && CreateSettlement(Lock(w.db, key, s.requestHash, w.now), s.intent, s.cart, w.now).Made?
  }

  function CommitsFor(w: World, steps: seq<Step>, key: Text): nat
    decreases |steps|
  {
    if steps == [] then 0
    else (if Commits(w, steps[0], key) then 1 else 0) + CommitsFor(Next(w, steps[0]), steps[1..], key)
  }

  predicate HasResponse(db: Db, key: Text) { key in db.keys && db.keys[key].response.Some? }

  // ---------------------------------------------------------------- steps and keys

  /** Keys, ceremony tokens and catalogs are as before. */
  predicate SameAside(db: Db, db': Db) {
    db'.keys == db.keys && db'.tokens == db.tokens && db'.catalogs == db.catalogs
  }

  lemma CreateLeavesKeys(db: Db, intent: SignedIntent, cart: SignedCart, now: int)
    ensures var made := CreateSettlement(db, intent, cart, now); made.Made? ==> SameAside(db, made.db)
  {
    hide MandateCartHash;
    hide VerifyChain;
    hide BuildContext;
    hide CartTaken;
    hide MandateBusy;
  }

  lemma MandateLeavesKeys(w: World, s: Step)
    requires s.RegisterStep? || s.RevokeStep?
    ensures Next(w, s).db.keys == w.db.keys && Next(w, s).db.catalogs == w.db.catalogs
    ensures s.RevokeStep? ==> Next(w, s).db.tokens == w.db.tokens
  {
    hide VerifySignature;
    hide RevokeBytes;
    hide IntentSigningBytes;
  }

  lemma ApproveLeavesKeys(w: World, i: nat, h: Text, d: Decision, sig: Sig)
    ensures SameAside(w.db, Approve(w, i, h, d, sig).db)
  {
    hide VerifySignature;
    hide ApprovalBytes;
    hide MandateCartHash;
  }

  lemma EntryLeavesKeys(db: Db, i: nat, now: int)
    ensures var e := EnterSettling(db, i, now); e.Entered? || e.Turned? ==> SameAside(db, e.db)
  {
    hide VerifyChain;
    hide MandateCartHash;
    hide BuildContext;
  }

  lemma StartLeavesKeys(w: World)
    ensures SameAside(w.db, StartRun(w).db)
  {
    hide EnterSettling;
    hide HasActiveAttempt;
    hide Count;
    if w.chain != [] { EntryLeavesKeys(w.db, w.chain[0].id, w.now); }
  }

  lemma LoopLeavesKeys(w: World)
    ensures SameAside(w.db, LoopStep(w).db)
  {
    hide HasActiveAttempt;
  }

  lemma OrderLeavesKeys(w: World, r: OrderReply)
    ensures SameAside(w.db, OrderAnswer(w, r).db)
  {}

  lemma FailLeavesKeys(w: World)
    ensures SameAside(w.db, FailStep(w).db)
  {}

  lemma SupersedeLeavesKeys(db: Db, last: Option<nat>)
    ensures SameAside(db, SupersedeIfActive(db, last))
  {}

  lemma LinkLeavesKeys(w: World, r: LinkReply)
    ensures SameAside(w.db, LinkAnswer(w, r).db)
  {
    hide HasActiveAttempt;
    if w.pc.Linking? { SupersedeLeavesKeys(w.db, w.pc.last); }
    hide SupersedeIfActive;
  }

  lemma CaptureLeavesKeys(db: Db, a: nat, from: AttemptState, i: nat, paymentId: Text, now: int)
    ensures var c := ApplyCapture(db, a, from, i, paymentId, now); c.CaptureThrew? || SameAside(db, c.db)
  {
    hide HasAttempt;
  }

  lemma DriverLeavesKeys(w: World, r: DriverReply)
    ensures SameAside(w.db, DriverAnswer(w, r).db)
  {
    hide ApplyCapture;
    if w.pc.Driving? && r.Paid? { CaptureLeavesKeys(w.db, w.pc.attempt, Initiated, w.pc.id, r.paymentId, w.now); }
  }

  lemma ReconcileLeavesKeys(w: World, t: nat, p: Payments)
    ensures SameAside(w.db, FetchAnswer(w, t, p).db)
  {
    hide ApplyCapture;
    hide IsAnomaly;
    hide AlreadyRefunded;
    if t in w.tasks && w.tasks[t].Fetching? && p.LatestPaid? {
      var f := w.tasks[t];
      CaptureLeavesKeys(w.db, f.attempt, f.snapshot.state, f.snapshot.settlement, p.paymentId, w.now);
    }
  }

  lemma TasksLeaveKeys(w: World, s: Step)
    requires s.Fetch? || s.Refunded?
    ensures SameAside(w.db, Next(w, s).db)
  {
    hide ByOrder;
  }

  lemma SweepRowsLeaveKeys(w: World, s: Step)
    requires s.SweepAttemptStep? || s.SweepTransientStep? || s.SweepVerifiedStep? || s.SweepApprovalStep?
    ensures SameAside(w.db, Next(w, s).db)
  {
    hide EnteredBefore;
    hide PendingSince;
    hide Next;
    NextOf(w, s);
  }

  lemma EnqueueKeepsDb(w: World, k: Kick)
    ensures Enqueue(w, k).db == w.db
  {}

  lemma SweepApprovedLeavesKeys(w: World, i: nat, cutoff: int, maxKicks: nat)
    ensures SameAside(w.db, SweepApproved(w, i, cutoff, maxKicks).db)
  {
    hide EnteredBefore;
    hide MandateExpiredAt;
    hide Enqueue;
    if i < |w.db.settlements| {
      var r := w.db.settlements[i];
      EnqueueKeepsDb(w.(db := w.db.(settlements := w.db.settlements[i := r.(kicks := r.kicks + 1)])), Execute(i));
    }
  }

  lemma SweepSettlingLeavesKeys(w: World, i: nat, cutoff: int)
    ensures SameAside(w.db, SweepSettling(w, i, cutoff).db)
  {
    hide EnteredBefore;
    hide HasActiveAttempt;
    hide FlaggedStuck;
  }

  /** No other step touches the tables of keys, tokens and catalogs. */
  lemma OthersLeaveAside(w: World, s: Step)
    requires !s.PostStep? && !s.SweepLocksStep? && !s.MintToken? && !s.AddCatalog? && !s.RegisterStep?
    ensures SameAside(w.db, Next(w, s).db)
  {
    match s
    case RevokeStep(_, _) => MandateLeavesKeys(w, s); hide Next;
    case ApproveStep(i, h, d, sig) => ApproveLeavesKeys(w, i, h, d, sig); hide Approve;
    case RunStart => StartLeavesKeys(w); hide StartRun;
    case RunLoop => LoopLeavesKeys(w); hide LoopStep;
    case RunOrder(r) => OrderLeavesKeys(w, r); hide OrderAnswer;
    case RunFail => FailLeavesKeys(w); hide FailStep;
    case RunLink(r) => LinkLeavesKeys(w, r); hide LinkAnswer;
    case RunDriver(r) => DriverLeavesKeys(w, r); hide DriverAnswer;
    case Fetched(t, p) => ReconcileLeavesKeys(w, t, p); hide FetchAnswer;
    case Fetch(_, _) => TasksLeaveKeys(w, s); hide Next;
    case Refunded(_, _) => TasksLeaveKeys(w, s); hide Next;
    case SweepTransientStep(_, _) => SweepRowsLeaveKeys(w, s); hide Next;
    case SweepVerifiedStep(_, _) => SweepRowsLeaveKeys(w, s); hide Next;
    case SweepApprovalStep(_, _) => SweepRowsLeaveKeys(w, s); hide Next;
    case SweepAttemptStep(_, _) => SweepRowsLeaveKeys(w, s); hide Next;
    case SweepApprovedStep(i, c, k) => SweepApprovedLeavesKeys(w, i, c, k); hide SweepApproved;
    case SweepSettlingStep(i, c) => SweepSettlingLeavesKeys(w, i, c); hide SweepSettling;
    case _ =>
  }

  /** Only POST /settlements and the lock sweep touch the key table. */
  lemma OthersLeaveKeys(w: World, s: Step)
    requires !s.PostStep? && !s.SweepLocksStep?
    ensures Next(w, s).db.keys == w.db.keys
  {
    if s.RegisterStep? {
      MandateLeavesKeys(w, s);
      hide Next;
    } else if !s.MintToken? && !s.AddCatalog? {
      OthersLeaveAside(w, s);
      hide Next;
    }
  }

  function CompletedRow(h: Text, now: int, r: Response): KeyRow {
    KeyRow(h, if r.body.SettlementBody? then Some(r.body.settlement) else None, now, Some(r))
  }

  /** What POST leaves under its key: nothing new, a bare lock, or the lock completed. */
  lemma PostKeys(w: World, key: Text, h: Text, intent: SignedIntent, cart: SignedCart, dies: bool)
    ensures var keys' := Post(w, key, h, intent, cart, dies).db.keys;
      var answer := AnswerTo(w, key, h, intent, cart);
      if ClaimKey(w.db, key, h) != Claimed then keys' == w.db.keys
      else if dies || answer.ServerError? then keys' == w.db.keys[key := KeyRow(h, None, w.now, None)]
      else answer.Replied? && keys' == w.db.keys[key := CompletedRow(h, w.now, answer.response)]
  {
    hide CreateSettlement;
    hide Enqueue;
    var made := CreateSettlement(Lock(w.db, key, h, w.now), intent, cart, w.now);
    CreateLeavesKeys(Lock(w.db, key, h, w.now), intent, cart, w.now);
    if made.Made? && made.response.body.SettlementBody? {
      EnqueueKeepsDb(w.(db := Complete(made.db, key, made.response)), Execute(made.response.body.settlement));
    }
  }

  lemma PostStepKeys(w: World, s: Step)
    requires s.PostStep?
    ensures forall k :: k != s.key || ClaimKey(w.db, s.key, s.requestHash) != Claimed ==>
      (k in Next(w, s).db.keys <==> k in w.db.keys) && (k in w.db.keys ==> Next(w, s).db.keys[k] == w.db.keys[k])
    ensures Commits(w, s, s.key) ==> HasResponse(Next(w, s).db, s.key)
  {
    PostKeys(w, s.key, s.requestHash, s.intent, s.cart, s.dies);
    hide Post;
    hide CreateSettlement;
  }

  /** A stored response is never touched again. */
  lemma StoredStays(w: World, s: Step, key: Text)
    requires HasResponse(w.db, key)
    ensures key in Next(w, s).db.keys && Next(w, s).db.keys[key] == w.db.keys[key]
    ensures !Commits(w, s, key)
  {
    if s.PostStep? {
      PostStepKeys(w, s);
      hide Next;
      hide CreateSettlement;
    } else if !s.SweepLocksStep? {
      OthersLeaveKeys(w, s);
      hide Next;
    }
  }

  // ---------------------------------------------------------------- over runs

  lemma {:induction false} StoredForever(w: World, steps: seq<Step>, key: Text)
    requires HasResponse(w.db, key)
    ensures key in Run(w, steps).db.keys && Run(w, steps).db.keys[key] == w.db.keys[key]
    ensures CommitsFor(w, steps, key) == 0
    decreases |steps|
  {
    hide Next;
    hide Commits;
    if steps != [] {
      StoredStays(w, steps[0], key);
      StoredForever(Next(w, steps[0]), steps[1..], key);
    }
  }

  /** However often a key is retried, and wherever the process dies, it commits at most once. */
  lemma {:induction false} CommitsAtMostOnce(w: World, steps: seq<Step>, key: Text)
    ensures CommitsFor(w, steps, key) <= 1
    decreases |steps|
  {
    if steps != [] {
      if Commits(w, steps[0], key) {
        PostStepKeys(w, steps[0]);
        hide Next;
        hide CreateSettlement;
        StoredForever(Next(w, steps[0]), steps[1..], key);
      } else {
        hide Next;
        hide Commits;
        CommitsAtMostOnce(Next(w, steps[0]), steps[1..], key);
      }
    }
  }

  /** The caller who was answered once is answered the same for the rest of time. */
  lemma AnswersAreReplayed(w: World, post: Step, steps: seq<Step>, intent: SignedIntent, cart: SignedCart)
    requires post.PostStep? && !post.dies
    requires AnswerTo(w, post.key, post.requestHash, post.intent, post.cart).Replied?
    ensures AnswerTo(Run(Next(w, post), steps), post.key, post.requestHash, intent, cart)
      == AnswerTo(w, post.key, post.requestHash, post.intent, post.cart)
  {
    PostKeys(w, post.key, post.requestHash, post.intent, post.cart, false);
    var w' := Post(w, post.key, post.requestHash, post.intent, post.cart, false);
    assert Next(w, post) == w';
    hide Next;
    hide Post;
    hide CreateSettlement;
    StoredForever(w', steps, post.key);
    hide Run;
  }

  /** The same key with another body is refused for as long as the key has a response. */
  lemma OtherBodiesAreRefused(w: World, steps: seq<Step>, key: Text, h: Text, intent: SignedIntent, cart: SignedCart)
    requires HasResponse(w.db, key) && w.db.keys[key].requestHash != h
    ensures AnswerTo(Run(w, steps), key, h, intent, cart) == KeyReused
  {
    StoredForever(w, steps, key);
    hide Run;
    hide CreateSettlement;
  }

  /** Under a key that is there, another body is refused, the same one waits for the answer or gets it;
      under any other key the request is made. */
  lemma KeyAnswers(w: World, key: Text, h: Text, intent: SignedIntent, cart: SignedCart)
    ensures var answer := AnswerTo(w, key, h, intent, cart);
      && (answer == KeyReused <==> key in w.db.keys && w.db.keys[key].requestHash != h)
      && (answer == KeyInFlight <==>
           key in w.db.keys && w.db.keys[key].requestHash == h && w.db.keys[key].response.None?)
      && (HasResponse(w.db, key) && w.db.keys[key].requestHash == h ==>
           answer == Replied(w.db.keys[key].response.value))
      && (answer == ServerError ==> key !in w.db.keys)
  {
    hide CreateSettlement;
  }

  /** A key whose process died after the claim blocks its own retries until the sweep clears it:
      exactly the sweeps whose cutoff is past the lock do. */
  lemma OnlyTheSweepFreesALock(w: World, s: Step, key: Text)
    requires key in w.db.keys && w.db.keys[key].response.None?
    ensures key !in Next(w, s).db.keys <==> s.SweepLocksStep? && w.db.keys[key].lockedAt < s.cutoff
    ensures key in Next(w, s).db.keys ==> Next(w, s).db.keys[key] == w.db.keys[key]
  {
    if s.PostStep? {
      PostStepKeys(w, s);
      hide Next;
    } else if !s.SweepLocksStep? {
      OthersLeaveKeys(w, s);
      hide Next;
    }
  }
}
