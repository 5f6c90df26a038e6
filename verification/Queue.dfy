/** The executor's queue (packages/facilitator/src/executor.ts:445-482): one run at a time, a
    settlement queued or running at most once, and no accepted kick ever lost short of a crash. */
module Queue {
  import opened Options
  import opened Texts
  import opened Crypto
  import opened Mandates
  import opened Schema
  import opened Protocol

  predicate Queued(w: World, id: nat) { exists k :: 0 <= k < |w.chain| && w.chain[k].id == id }

  /** The executor is in the middle of this settlement. */
  predicate RunsNow(w: World, id: nat) { w.pc != Idle && w.pc.id == id }

  ghost predicate QueueOk(w: World) {
    && (forall j, k :: 0 <= j < k < |w.chain| ==> w.chain[j].id != w.chain[k].id)
    && (forall id: nat :: id in w.inFlight <==> Queued(w, id) || RunsNow(w, id))
    && (forall id: nat :: !(Queued(w, id) && RunsNow(w, id)))
  }

  predicate SameQueue(w: World, w': World) { w'.inFlight == w.inFlight && w'.chain == w.chain && w'.pc == w.pc }

  /** The queue of the same worker, with the same settlement in hand. */
  predicate SameHand(w: World, w': World) {
    w'.inFlight == w.inFlight && w'.chain == w.chain && w.pc != Idle && w'.pc != Idle && w'.pc.id == w.pc.id
  }

  lemma SameQueueKeeps(w: World, w': World)
    requires QueueOk(w) && (SameQueue(w, w') || SameHand(w, w'))
    ensures QueueOk(w')
  {
    forall id: nat ensures (Queued(w', id) <==> Queued(w, id)) && (RunsNow(w', id) <==> RunsNow(w, id)) {}
    hide Queued;
    hide RunsNow;
  }

  lemma EnqueueKeeps(w: World, k: Kick)
    requires QueueOk(w)
    ensures QueueOk(Enqueue(w, k))
  {
    var w' := Enqueue(w, k);
    if k.id !in w.inFlight {
      assert !Queued(w, k.id) && !RunsNow(w, k.id);
      forall id: nat ensures Queued(w', id) <==> Queued(w, id) || id == k.id {
        assert w'.chain[|w.chain|] == k;
        if Queued(w, id) {
          var j :| 0 <= j < |w.chain| && w.chain[j].id == id;
          assert w'.chain[j].id == id;
        }
      }
    }
  }

  /** After a kick the settlement is queued or running; the chain grew exactly when it was neither. */
  lemma EnqueueAnswers(w: World, k: Kick)
    requires QueueOk(w)
    ensures Queued(Enqueue(w, k), k.id) || RunsNow(Enqueue(w, k), k.id)
    ensures Enqueue(w, k).chain == w.chain <==> Queued(w, k.id) || RunsNow(w, k.id)
  {
    var w' := Enqueue(w, k);
    if k.id in w.inFlight {
      assert w' == w;
    } else {
      assert w'.chain[|w.chain|] == k && |w'.chain| == |w.chain| + 1;
    }
  }

  lemma FinishKeeps(w: World, id: nat)
    requires QueueOk(w) && RunsNow(w, id)
    ensures QueueOk(Finish(w, id))
  {
    var w' := Finish(w, id);
    forall i: nat ensures Queued(w', i) <==> Queued(w, i) {}
    hide Queued;
  }

  /** The head of the chain is taken in hand. */
  lemma TakeKeeps(w: World, w': World)
    requires QueueOk(w) && w.pc == Idle && w.chain != []
    requires w'.chain == w.chain[1..] && w'.inFlight == w.inFlight && w'.pc != Idle && w'.pc.id == w.chain[0].id
    ensures QueueOk(w')
  {
    forall i: nat ensures Queued(w, i) <==> Queued(w', i) || i == w.chain[0].id {
      if Queued(w', i) {
        var k :| 0 <= k < |w'.chain| && w'.chain[k].id == i;
        assert w.chain[k + 1].id == i;
      }
      if Queued(w, i) && i != w.chain[0].id {
        var k :| 0 <= k < |w.chain| && w.chain[k].id == i;
        assert w'.chain[k - 1].id == i;
      }
    }
  }

  /** A run that ends at once: taken and finished in one step. */
  lemma TakeAndFinishKeeps(w: World, db: Db)
    requires QueueOk(w) && w.pc == Idle && w.chain != []
    ensures QueueOk(Finish(w.(chain := w.chain[1..], db := db), w.chain[0].id))
  {
    var taken := w.(chain := w.chain[1..], pc := Linking(w.chain[0].id, None), db := db);
    TakeKeeps(w, taken);
    FinishKeeps(taken, w.chain[0].id);
    SameQueueKeeps(Finish(taken, w.chain[0].id), Finish(w.(chain := w.chain[1..], db := db), w.chain[0].id));
  }

  // ---------------------------------------------------------------- every step

  lemma StartKeeps(w: World)
    requires QueueOk(w)
    ensures QueueOk(StartRun(w))
  {
    hide EnterSettling;
    hide Count;
    hide HasActiveAttempt;
    hide QueueOk;
    if w.pc == Idle && w.chain != [] {
      var w' := StartRun(w);
      if w'.pc == Idle {
        TakeAndFinishKeeps(w, w'.db);
      } else {
        TakeKeeps(w, w');
      }
    }
  }

  lemma RunKeeps(w: World, s: Step)
    requires QueueOk(w) && (s.RunLoop? || s.RunOrder? || s.RunFail?)
    ensures QueueOk(Next(w, s))
  {
    hide HasActiveAttempt;
    hide QueueOk;
    var w' := Next(w, s);
    RunHand(w, s);
    hide Next;
    if SameQueue(w, w') || SameHand(w, w') {
      SameQueueKeeps(w, w');
    } else {
      FinishKeeps(w, w.pc.id);
      SameQueueKeeps(Finish(w, w.pc.id), w');
    }
  }

  /** The worker goes on with the settlement in its hand or puts it down. */
  lemma RunHand(w: World, s: Step)
    requires s.RunLoop? || s.RunOrder? || s.RunFail?
    ensures var w' := Next(w, s);
      SameQueue(w, w') || SameHand(w, w') || (w.pc != Idle && SameQueue(Finish(w, w.pc.id), w'))
  {
    hide HasActiveAttempt;
  }

  lemma LinkKeeps(w: World, r: LinkReply)
    requires QueueOk(w)
    ensures QueueOk(LinkAnswer(w, r))
  {
    hide HasActiveAttempt;
    hide QueueOk;
    if w.pc.Linking? {
      FinishKeeps(w, w.pc.id);
      SameQueueKeeps(Finish(w, w.pc.id), LinkAnswer(w, r));
    }
  }

  lemma DriverKeeps(w: World, r: DriverReply)
    requires QueueOk(w)
    ensures QueueOk(DriverAnswer(w, r))
  {
    hide ApplyCapture;
    hide QueueOk;
    var w' := DriverAnswer(w, r);
    if w.pc.Driving? {
      if w'.pc == Idle {
        FinishKeeps(w, w.pc.id);
        SameQueueKeeps(Finish(w, w.pc.id), w');
      } else {
        SameQueueKeeps(w, w');
      }
    }
  }

  lemma FetchedKeeps(w: World, t: nat, p: Payments)
    requires QueueOk(w)
    ensures QueueOk(FetchAnswer(w, t, p))
  {
    hide ApplyCapture;
    hide AlreadyRefunded;
    hide IsAnomaly;
    hide FailIfLive;
    hide QueueOk;
    SameQueueKeeps(w, FetchAnswer(w, t, p));
  }

  lemma ApproveKeeps(w: World, i: nat, h: Text, d: Decision, sig: Sig)
    requires QueueOk(w)
    ensures QueueOk(Approve(w, i, h, d, sig))
  {
    hide VerifySignature;
    hide ApprovalBytes;
    hide MandateCartHash;
    hide QueueOk;
    var w' := Approve(w, i, h, d, sig);
    var moved := w.(db := w'.db);
    SameQueueKeeps(w, moved);
    EnqueueKeeps(moved, Execute(i));
    assert w' == moved || w' == Enqueue(moved, Execute(i));
  }

  lemma PostKeeps(w: World, key: Text, h: Text, intent: SignedIntent, cart: SignedCart, dies: bool)
    requires QueueOk(w)
    ensures QueueOk(Post(w, key, h, intent, cart, dies))
  {
    hide CreateSettlement;
    var w' := Post(w, key, h, intent, cart, dies);
    var moved := w.(db := w'.db);
    SameQueueKeeps(w, moved);
    if w'.inFlight != w.inFlight && w'.chain != [] {
      EnqueueKeeps(moved, w'.chain[|w'.chain| - 1]);
    }
  }

  lemma KickRowKeeps(w: World, i: nat, cutoff: int, maxKicks: nat)
    requires QueueOk(w)
    ensures QueueOk(SweepApproved(w, i, cutoff, maxKicks)) && QueueOk(SweepSettling(w, i, cutoff))
  {
    hide EnteredBefore;
    hide MandateExpiredAt;
    hide HasActiveAttempt;
    hide FlaggedStuck;
    hide QueueOk;
    var a, b := SweepApproved(w, i, cutoff, maxKicks), SweepSettling(w, i, cutoff);
    SameQueueKeeps(w, w.(db := a.db));
    EnqueueKeeps(w.(db := a.db), Execute(i));
    SameQueueKeeps(w, w.(db := b.db));
    EnqueueKeeps(w.(db := b.db), Resume(i));
    assert a == w.(db := a.db) || a == Enqueue(w.(db := a.db), Execute(i));
    assert b == w.(db := b.db) || b == Enqueue(w.(db := b.db), Resume(i));
  }

  lemma OtherKeeps(w: World, s: Step)
    requires QueueOk(w)
    requires s.SetClock? || s.MintToken? || s.AddCatalog? || s.Note? || s.RegisterStep? || s.RevokeStep?
      || s.SweepLocksStep? || s.Fetch? || s.Refunded? || s.SweepAttemptStep?
      || s.SweepTransientStep? || s.SweepVerifiedStep? || s.SweepApprovalStep?
    ensures QueueOk(Next(w, s))
  {
    hide Register;
    hide Revoke;
    hide SweepLocks;
    hide SweepAttempt;
    hide SweepTransient;
    hide SweepVerified;
    hide SweepApproval;
    hide ByOrder;
    hide QueueOk;
    SameQueueKeeps(w, Next(w, s));
  }

  lemma StepKeepsQueue(w: World, s: Step)
    requires QueueOk(w)
    ensures QueueOk(Next(w, s))
  {
    match s
    case Crash =>
    case RunStart => StartKeeps(w);
    case RunLoop => RunKeeps(w, s); hide Next;
    case RunOrder(_) => RunKeeps(w, s); hide Next;
    case RunFail => RunKeeps(w, s); hide Next;
    case RunLink(r) => LinkKeeps(w, r); hide LinkAnswer;
    case RunDriver(r) => DriverKeeps(w, r); hide DriverAnswer;
    case Fetched(t, p) => FetchedKeeps(w, t, p); hide FetchAnswer;
    case ApproveStep(i, h, d, sig) => ApproveKeeps(w, i, h, d, sig); hide Approve;
    case PostStep(k, h, i, c, dies) => PostKeeps(w, k, h, i, c, dies); hide Post;
    case SweepApprovedStep(i, c, k) => KickRowKeeps(w, i, c, k); hide SweepApproved;
    case SweepSettlingStep(i, c) => KickRowKeeps(w, i, c, 0); hide SweepSettling;
    case _ => OtherKeeps(w, s); hide Next;
  }

  lemma {:induction false} RunKeepsQueue(w: World, steps: seq<Step>)
    requires QueueOk(w)
    ensures QueueOk(Run(w, steps))
    decreases |steps|
  {
    hide QueueOk;
    hide Next;
    if steps != [] {
      StepKeepsQueue(w, steps[0]);
      RunKeepsQueue(Next(w, steps[0]), steps[1..]);
    }
  }

  /** In every reachable world a settlement is queued or running at most once, and `inFlight` is
      exactly what is queued or running: a kick that was accepted is not lost. */
  lemma SingleFlight(w: World, id: nat, j: nat, k: nat)
    requires Reachable(w)
    ensures id in w.inFlight <==> Queued(w, id) || RunsNow(w, id)
    ensures !(Queued(w, id) && RunsNow(w, id))
    ensures j < |w.chain| && k < |w.chain| && w.chain[j].id == w.chain[k].id ==> j == k
  {
    var steps :| Run(START, steps) == w;
    RunKeepsQueue(START, steps);
    hide Run;
    hide Queued;
    hide RunsNow;
    assert j < k || j == k || k < j;
  }
}
