# The facilitator: a verified model

The facilitator lets a software agent spend a human's money within a signed mandate. A human signs
an *intent* (a ceiling, merchants, an expiry, approval thresholds, optional policies); the agent
signs *carts* that name the intent; the facilitator checks the chain of signatures and the terms,
asks the human when a threshold is crossed, drives a checkout or a payment link at a payment
provider, and writes every step to a hash-chained ledger. This project models that protocol and
proves what it keeps over every interleaving of requests, executor, reconciler, sweep, clock and
crashes.

`dafny verify dfyconfig.toml` checks everything.

## How the model is built

- `JsonText`, `Documents`: what the canonical text is, with literal code units, and the signed and
  hashed documents written out with the names and the order of their properties.
- `Texts`, `CanonicalJson`, `Doubles`: JavaScript strings as UTF-16 code units, the canonical
  encoder together with a parser that inverts it, and IEEE 754 integers with rounding to 53 bits.
- `Crypto`: SHA-256 as an unknown injective function whose values are never the genesis text;
  signature checking as an unknown function that may also throw.
- `Mandates`, `Verify`: signing bytes, content addresses and the ordered gate.
- `Ledger`: a class with append and verify, and tamper location on its rows.
- `Schema`, `Protocol`: the tables of `packages/facilitator/src/db/schema.sql` as values, and one
  pure step function `Next` for everything that can happen. A `World` is the database plus what the
  process holds in memory (queue, `inFlight`, the executor's position, reconciles that wait for the
  provider). A transaction is one step; an `await` ends a step; a crash erases memory only. The
  clock, the provider and the checkout driver answer as they please.
- `Facilitator`: the class `Process`, with one field per table, whose methods change those fields
  statement by statement as the source does, roll back on a throw, and loop where the source loops.
  Each method's new state equals the protocol's step on its old state, and `Process.Serve` performs
  any sequence of steps, so every theorem about runs is a theorem about the class.
- `Gate`, `Consent`, `Registry`, `Answers`, `Fallback`: what each operation does, said on the tables and
  not through the functions that do it: which of fourteen checks turns a request down, who decides and
  who revokes, what every answer of the provider, the driver and the clock does to the rows, and that
  three refused checkouts end in a payment link.
- `Tables`, `Effects`, `Money`, `Account`, `Lifecycle`, `Revocation`, `Attempts`, `Refunds`, `Charges`,
  `Idempotency`, `Queue`, `Sweep`, `Tidy`, `Wallet`, `Audit`, `Checkout`, `Safety`: the invariants and the
  main results.
  `Effects` shows that each of the 25 kinds of step has one of nine effects on mandates, settlements,
  approvals and ledger, and which step with which answer may have it, and `Attempts` that it makes one
  of six changes to attempt rows; the invariants are proved once per effect.
- `Base64Url`, `Cbor`, `Catalog`: the codecs of the passkey flow and the catalog dedupe.

## Where documentation and code differ

- `packages/facilitator/src/reconcile.ts:284-287` says that falling through to the refund is safe
  because it does nothing once the payment is refunded or captured. The code only looks for an
  earlier refund. `Refunds.RetainedPaymentRefundedIff` gives the exact condition at the step,
  `Charges.RetainedIsRefundedIffOvertaken` the exact condition on a whole run, and
  `Charges.ReachableOvertaking` a run from the empty database that does it.
- `packages/facilitator/src/idempotency.ts:41-42` says that nothing deletes a key. The sweep deletes
  incomplete ones (`packages/facilitator/src/sweep.ts:335-341`); the model does too.
- `packages/cli/src/scanner.ts:474-483` promises that an available record of a variant wins. Inside
  the first record the last entry of an id wins instead, and line 502 drops the merged list when it
  has one entry; `Catalog.MergeLosesNothingIff` and `Catalog.KeptLosesNothingIff` say exactly when
  nothing is lost.

## Model

| member | source | states |
|---|---|---|
| Safety.SpendStaysWithinCeilings | packages/facilitator/src/mandate-repo.ts:58-83 | in every reachable world the captured spend of each mandate is at most its signed ceiling, and at each listed merchant at most its sub-ceiling |
| Safety.UngrantedSpendStaysBelowTheLines | packages/core/src/verify.ts:310-317 | in every reachable world the captured spend that no human granted is at most the signed cumulative threshold, and every captured settlement above the per-cart threshold has a granted approval row |
| Safety.CapturedMeansOnePayment | packages/facilitator/src/reconcile.ts:78-111 | a settlement is captured exactly when it has a captured attempt; that attempt is the only one and carries a payment id |
| Safety.LedgerIsTheAccount | packages/facilitator/src/ledger.ts:64-86 | replaying the ledger gives exactly the terminal settlements and their states, one outcome event each, and every capture event names the captured attempt and its payment |
| Safety.AttemptsAreBounded | packages/facilitator/src/executor.ts:250-354 | never two live attempts of one settlement, and at most three checkout rows and one payment-link row over its life, across crashes, kicks, resumes and sweeps; that all are made when each is refused is `Fallback.LoopFallsBack` |
| Safety.InsertNeverThrows | packages/facilitator/src/executor.ts:266-282 | at the head of the attempt loop no attempt of that settlement is live, so the insert never meets the index one_active_attempt |
| Safety.RefundsNeverTouchTheRetained | packages/facilitator/src/reconcile.ts:133-172 | over every run in which no reconcile is overtaken by a capture, no refunded payment is the payment of a captured attempt anywhere |
| Consent.DecisionOutcome | packages/facilitator/src/routes/approvals.ts:25-89 | a decision takes effect exactly when it is signed by the credential the mandate was registered with, over this settlement, the recomputed address and this decision, on a pending and undecided settlement: row with its expiry, state, event and, when granted, kick; any other changes nothing |
| Consent.OnlyDecisionsDecide | packages/facilitator/src/routes/approvals.ts:53-84 | no other step makes an approval row, and none is ever changed or taken back |
| Consent.GrantedIsKicked | packages/facilitator/src/routes/approvals.ts:86 | a granted settlement is queued or running afterwards |
| Consent.ApprovalBytesBind | packages/facilitator/src/routes/approvals.ts:37 | the signed text is the same only for the same settlement, address and decision |
| Consent.GrantsAreHuman | packages/facilitator/src/routes/approvals.ts:14-23 | over every run a settlement is granted if and only if a step of the run carried such a signature |
| Consent.SignatureStands | packages/facilitator/src/routes/approvals.ts:36-47 | a signature that decided is valid for the terms, the cart and the credential in the database at the end of the run |
| Consent.EveryLargeCaptureWasSigned | packages/core/src/verify.ts:310-317 | over every run a captured cart above the per-cart threshold was granted in that run by a valid signature of the human of its mandate over exactly that settlement and cart |
| Consent.UnsignedSpendStaysBelowTheLine | packages/core/src/verify.ts:310-317 | over every run what was captured without such a signature stays, all together, within the cumulative threshold |
| Crypto.KindsAgree | packages/core/src/signature.ts:99-112 | a signature of another kind than the credential is never valid |
| Registry.RevocationOutcome | packages/facilitator/src/routes/revoke.ts:16-42 | a revocation takes effect exactly when the human of the mandate signed it and it is not revoked yet: moment stored, event logged, no other mandate changed; any other request changes nothing |
| Registry.RevokedExactlyWhen | packages/facilitator/src/routes/revoke.ts:24-39 | after any step a mandate is revoked if and only if it was before or the step is its signed revocation; the stored moment never changes |
| Registry.RevokeBytesBind | packages/facilitator/src/routes/revoke.ts:23 | the signed text is the same only for the same mandate |
| Registry.RevokedRunSpendsAtMostOnce | packages/facilitator/src/routes/revoke.ts:24-39 | over every run that contains a signed revocation, captured spend after it stays or grows once by the settlement that was settling then |
| Registry.RegistrationOutcome | packages/facilitator/src/routes/mandates.ts:22-68 | a registration takes effect exactly when its token is unspent, its intent is signed under the credential it brings and its id is new: token spent, row and event together; any other changes nothing |
| Registry.RegisteredExactlyWhen | packages/facilitator/src/routes/mandates.ts:22-68 | after any step a mandate is new if and only if the step is such a registration, with its terms and credential |
| Registry.MandateWasSigned | packages/facilitator/src/routes/mandates.ts:30-33 | over every run each mandate was registered by a request whose intent its own credential signed, with the terms and credential it still has |
| Registry.TokenExactlyWhen | packages/facilitator/src/routes/mandates.ts:23-28 | after any step a ceremony token is unspent if and only if it was minted now, or was and registered nothing |
| Registry.TokensAreSpent | packages/facilitator/src/routes/mandates.ts:13-20 | over every run a token registers at most as many mandates as it was minted times |
| Registry.CatalogExactlyWhen | packages/facilitator/src/store-catalog-repo.ts:61-87 | the prices of a merchant change only when it is registered for the first time or scanned again |
| Gate.GateByTables | packages/facilitator/src/verify-logic.ts:42-108 | on the rows of the database: the gate rejects with the first of the fourteen checks, in the documented order, that the tables do not meet (catalog prices item by item, credential, revocation, spend, spend at the merchant, other settlements with the cart), throws on undecodable keys, and passes exactly when all are met |
| Gate.PostRefuses | packages/facilitator/src/settlement-service.ts:39-71 | a fresh request is answered 404, 409 for the cart or 409 for the allowance each under its own exact condition on the tables, and then nothing else is written |
| Gate.PostMakes | packages/facilitator/src/settlement-service.ts:73-118 | otherwise one row is made: rejected with the code of the first unmet check and its event, or approved and kicked, or pending exactly above a threshold; nothing on a throw |
| Gate.OneFailureIsNamed | packages/core/src/verify.ts:194-308 | a registered request that fails one check only, whichever it is, ends rejected with the code of that check |
| Gate.EntryOutcome | packages/facilitator/src/executor.ts:118-175 | the executor enters settling exactly when the address still fits and all checks are met on the tables of that moment, and else rejects with the first code, with event; on a throw or a row not approved nothing changes |
| Gate.NewRowMetAll | packages/facilitator/src/settlement-service.ts:73-118 | whatever step it is: a new row that is approved or pending is of a request that met all fourteen checks |
| Gate.EnteredMetAll | packages/facilitator/src/executor.ts:118-175 | whatever step it is: a row newly settling met all of them at that moment on its registered terms |
| Answers.LoopOutcome | packages/facilitator/src/executor.ts:264-282 | at the head of the loop the next checkout is inserted and logged, and after the third the link is next |
| Answers.OrderOutcome | packages/facilitator/src/executor.ts:284-312 | an order is stored on its row; without one a live attempt fails with its event and the next is up |
| Answers.NotPaidOutcome | packages/facilitator/src/executor.ts:333-353 | an unpaid checkout fails its attempt if it is still live, logs the failure, and the next is up |
| Answers.DriverThrewOutcome | packages/facilitator/src/executor.ts:314-317 | a driver that throws ends the run and changes no row |
| Answers.PaidOutcome | packages/facilitator/src/executor.ts:319-331 | a payment captures attempt and settlement together exactly on a live attempt of a settling settlement; on one that moved it counts as unpaid, beside another capture it changes nothing |
| Answers.LinkOutcome | packages/facilitator/src/executor.ts:194-241 | the link is one more row that waits, with its event; a failure is flagged; the run is over |
| Answers.SupersedeOutcome | packages/facilitator/src/executor.ts:181-241 | a last attempt that is still live when the link is made is superseded, with the link beside it; `Attempts.LinkChange` shows that no run comes to that |
| Fallback.LoopFallsBack | packages/facilitator/src/executor.ts:250-354 | from the head of the loop, if every remaining checkout is refused in any way and the link is made: exactly three checkouts, all failed, one waiting link, one begin and one failure event for each refused one, the executor free |
| Fallback.ResumeOutcome | packages/facilitator/src/executor.ts:384-410 | a resume goes on exactly for a settling row without a live attempt, counting the checkouts there are |
| Fallback.ResumeFallsBack | packages/facilitator/src/executor.ts:384-410 | a resume after any number of checkouts makes the rest and ends with the link in the same way |
| Fallback.CrashFallsBack | packages/facilitator/src/sweep.ts:303-333 | after a crash the sweep and the executor bring an overdue settling row to the same end |
| Fallback.ExecuteFallsBack | packages/facilitator/src/executor.ts:362-370 | and so does the first execution of an approved row that meets every check |
| Answers.AskOutcome | packages/facilitator/src/reconcile.ts:331-343 | a reconcile takes the first row of its order as it is, and an unknown order starts nothing |
| Answers.UnpaidOutcome | packages/facilitator/src/reconcile.ts:341-370 | a failed payment fails the attempt, with one event, exactly when its row is live and as it was read; a request that threw is flagged; anything else changes nothing |
| Answers.ReconciledOutcome | packages/facilitator/src/reconcile.ts:258-298 | a paid order captures a live attempt that is as it was read, together with its settling settlement |
| Answers.RefundOutcome | packages/facilitator/src/reconcile.ts:142-171 | a refund that went through is on the ledger, one that did not is flagged |
| Answers.GiveUpOutcome | packages/facilitator/src/sweep.ts:176-191 | an attempt is given up exactly when it is initiated and stale, with one event |
| Answers.PollOutcome | packages/facilitator/src/sweep.ts:150-194 | the rule leaves an attempt alone unless live and stale, gives it up without an order, and else asks the provider and acts on the answer |
| Answers.StaleAttemptsEnd | packages/facilitator/src/sweep.ts:150-194 | one pass ends every stale attempt that has no order or whose order the provider calls failed, whatever it answers about the others |
| Answers.EarlySweepOutcome | packages/facilitator/src/sweep.ts:196-255 | a transient, verified or pending row is abandoned exactly when its time is up, with the event that says why |
| Answers.ApprovedSweepOutcome | packages/facilitator/src/sweep.ts:257-291 | an approved row that waited too long is abandoned with the reason, or counted and kicked |
| Answers.StuckSweepOutcome | packages/facilitator/src/sweep.ts:303-333 | an overdue settling row without a live attempt is flagged once and resumed, any other left alone |
| Answers.StuckIsResumed | packages/facilitator/src/sweep.ts:330 | such a row is queued or running afterwards |
| Charges.NoRetainedDoubleCharge | packages/facilitator/src/reconcile.ts:258-298 | over every run with a truthful provider and no overtaken reconcile, in which each paid order of a settlement was asked for, answered and, where a refund began, refunded, with any steps between and after: every payment of the settlement is given back but the one on its captured attempt, so at most one is not |
| Charges.KeptOrGivenBack | packages/facilitator/src/reconcile.ts:331-370 | in such a run the payment of each reconciled order is refunded if and only if it is not the payment on its own captured attempt |
| Charges.ReconcileAccounts | packages/facilitator/src/reconcile.ts:331-370 | a reconcile made anywhere in the run, interrupted by any other steps, leaves its payment kept or refunded at the end of the run |
| Charges.RetainedIsRefundedIffOvertaken | packages/facilitator/src/reconcile.ts:258-298 | over every run with a truthful provider, the payment that an attempt retains is refunded if and only if a reconcile of that same attempt was answered with it after the attempt had been captured behind its back and the refund this began went through; and never under another settlement |
| Charges.TaskWaits | packages/facilitator/src/reconcile.ts:331-370 | a reconcile that waits for the provider is gone or turned after a step exactly when the step is its own answer or the end of the process |
| Charges.RunLater | packages/facilitator/src/state-machine.ts:99-116 | over every run attempts keep settlement and order id, a state that is over and its payment are final, an attempt beside a captured one is never captured, and the ledger only grows |
| Charges.NotesStay | packages/facilitator/src/ledger.ts:64-86 | whatever a webhook, a refund route or an agent notes at some point of a run is on the ledger at its end |
| Charges.ReachableOvertaking | packages/facilitator/src/reconcile.ts:331-370 | and it happens: for every good cart a run of ten steps from the empty database, with a truthful provider, captures a payment and refunds it |
| Safety.RunInv | packages/facilitator/src/db/index.ts:113 | every run keeps the conjunction of all invariants |
| Refunds.RetainedPaymentRefundedIff | packages/facilitator/src/reconcile.ts:258-298 | a reconcile starts to refund the retained payment if and only if the attempt was captured after the reconcile read it and no refund of it is on the ledger |
| Refunds.OvertakenReconcileRefundsTheRetained | packages/facilitator/src/reconcile.ts:331-370 | from any sound world at the checkout three steps (read, driver capture, answer) bring the refund of the retained payment under way; that such worlds are reached is `Charges.ReachableOvertaking` |
| Refunds.AnswerSettles | packages/facilitator/src/reconcile.ts:258-298 | an answer on a row of any age, not overtaken, leaves the payment kept or refunded, or its refund under way |
| Refunds.AccountedStays | packages/facilitator/src/reconcile.ts:117-125 | a payment that is kept or refunded stays so through any number of changes of the attempt rows |
| Refunds.StepTruth | packages/facilitator/src/reconcile.ts:78-111 | every step with a truthful provider, overtaken reconciles or not, keeps order ids distinct, captured payments those of their own orders, and waiting reconciles on the row of their order |
| Refunds.RefundIsForTheDoomed | packages/facilitator/src/reconcile.ts:258-298 | a reconcile that was not overtaken refunds only a payment whose attempt can never be captured |
| Refunds.StepRefunds | packages/facilitator/src/reconcile.ts:133-172 | every honest step keeps: order ids distinct, captured attempts carry their own order's payment, all refunds issued or pending are for doomed attempts |
| Revocation.ClosedMandateSpendsAtMostOnce | packages/facilitator/src/routes/revoke.ts:32-39 | after revocation, or from expiry plus 60 s on, over any run the captured spend stays or grows once by the amount of the one settlement that was settling at that moment |
| Revocation.NothingNewPassesTheGate | packages/facilitator/src/executor.ts:118-175 | no settlement of a closed mandate enters settling, whatever runs |
| Revocation.GateIsTheOnlyWay | packages/core/src/verify.ts:248-251 | a row gets past the gate only through it, and never under a revoked or expired mandate |
| Idempotency.CommitsAtMostOnce | packages/facilitator/src/routes/settlements.ts:39-57 | over any run, with retries, crashes and lock clearing, a key commits at most one business transaction |
| Idempotency.AnswersAreReplayed | packages/facilitator/src/idempotency.ts:22-48 | once a request was answered, every later request with its key and body hash gets the same status and body |
| Idempotency.OtherBodiesAreRefused | packages/facilitator/src/idempotency.ts:43 | a key with a response refuses every other body hash for ever |
| Idempotency.KeyAnswers | packages/facilitator/src/idempotency.ts:22-48 | each answer under its own exact condition: reused for another body, in flight for the same body without an answer, the stored answer, and the request itself only under a new key |
| Idempotency.PostKeys | packages/facilitator/src/routes/settlements.ts:39-57 | what a request leaves under its key: nothing, a bare lock after a crash or a throw, or the lock completed with its answer; no other key changes |
| Idempotency.OnlyTheSweepFreesALock | packages/facilitator/src/sweep.ts:335-341 | an incomplete lock survives every step but a sweep whose cutoff is past it |
| Lifecycle.RunHistory | packages/facilitator/src/state-machine.ts:39-54 | over any run every settlement moves along the transition table only, new rows come from created, and terms never change |
| Lifecycle.LeadsExactlyWhen | packages/facilitator/src/state-machine.ts:39-54 | which state the table leads to from which, exactly: forward only, to every end until settling, and from there not to rejected |
| Lifecycle.EndsExactlyWhen | packages/facilitator/src/state-machine.ts:39-54 | from which states each end is reached directly |
| Lifecycle.NoWayRound | packages/facilitator/src/state-machine.ts:39-54 | every path from created to captured has verifying, verified, perhaps pending, approved and settling in this order and nothing else |
| Lifecycle.TerminalIsFinal | packages/facilitator/src/state-machine.ts:50-53 | no run changes a terminal state again |
| Sweep.SweepConverges | packages/facilitator/src/sweep.ts:343-353 | from any database, with the executor dead and no requests, maxApprovedKicks + 1 passes of all seven rules after all deadlines leave every settlement terminal or settling, whatever the provider answers |
| Sweep.FourPassesConverge | packages/facilitator/src/sweep.ts:56-65 | with the default limits, in seconds, four passes do |
| Sweep.AgedIsOverdue | packages/facilitator/src/sweep.ts:56-65 | a row is overdue under the default limits exactly after a minute (created, verifying, approved), a quarter of an hour (verified), half an hour or the end of its mandate (pending) |
| Tidy.PassTidiesSettlements | packages/facilitator/src/sweep.ts:343-353 | after one default pass no settlement is past its limit, in seconds, unless a run for it is queued or running, or it is settling with a live attempt |
| Tidy.PassTidiesAttemptsAndLocks | packages/facilitator/src/sweep.ts:343-353 | nor is an attempt without an order live for over 90 seconds, and a lock is gone exactly when it has no answer and is over 300 seconds old |
| Sweep.KicksAreCounted | packages/facilitator/src/sweep.ts:257-291 | the bound is met: an approved row of a live mandate is kicked exactly maxApprovedKicks times and abandoned by the next pass |
| Sweep.PassIsRowwise | packages/facilitator/src/sweep.ts:150-291 | a pass treats every row by its own state's rule, independent of the other rows; only a settling row can also be captured, by the poll of its attempt |
| Sweep.PassIsARun | packages/facilitator/src/sweep.ts:343-353 | a pass of all seven rules, polls and refunds included, is a run of protocol steps, so it keeps every invariant and never leaves the transition graph |
| Sweep.PollingLeavesTasks | packages/facilitator/src/sweep.ts:150-194 | the polling of stale attempts leaves every reconcile that already waits as it is |
| Sweep.EveryRowFallsDue | packages/facilitator/src/sweep.ts:56-65 | in a sound database every row becomes overdue once the clock passes its deadline |
| Account.ReplayIsTheTable | packages/facilitator/src/sweep.ts:107-129 | a database whose ledger is an account is reconstructed by replaying it |
| Account.StepAccount | packages/facilitator/src/routes/approvals.ts:64-83 | every step keeps the ledger an account: exactly one outcome event per terminal settlement, none for the others |
| Audit.HeadPinsTheSettlements | packages/facilitator/src/ledger.ts:48-86 | two reachable facilitators whose ledgers, stored with any actors and payloads, show one head hash have the same terminal settlements in the same states |
| Audit.HeadPinsTheLog | packages/facilitator/src/ledger.ts:64-86 | two logs of protocol events, written as entries, with one head hash give one and the same account |
| Audit.TypesTellOutcomes | packages/facilitator/src/ledger.ts:5-26 | the stored event type alone tells which terminal state an event reports, for every event |
| Attempts.StepChange | packages/facilitator/src/executor.ts:194-241 | every step makes one of six changes to attempt rows, and orders, captures and refunds only on the matching answer from outside |
| Attempts.LinkChange | packages/facilitator/src/executor.ts:221-231 | when the loop reaches the payment link no attempt is live: nothing is superseded and the insert succeeds |
| Attempts.StepRun | packages/facilitator/src/executor.ts:384-404 | every step keeps the counts behind the bound, including a resume after a crash |
| Queue.SingleFlight | packages/facilitator/src/executor.ts:445-469 | in every reachable world a settlement is queued or running at most once, and inFlight is exactly what is queued or running, so no accepted kick is lost short of a crash |
| Queue.StepKeepsQueue | packages/facilitator/src/executor.ts:453-469 | every step, of whatever code, keeps that bond of queue, run and inFlight |
| Checkout.GoodCartIsCaptured | packages/facilitator/src/executor.ts:250-331 | seven steps take an empty database to the captured settlement of any chained cart within every limit, with no human decision: the invariants do not hold by standing still |
| Checkout.GatePasses | packages/core/src/verify.ts:194-318 | a chained cart within every limit passes the gate at creation and again at the entry, its own reservation not counting as spend or as a duplicate |
| Effects.StepEffect | packages/facilitator/src/settlement-service.ts:78-118 | every step has one of nine effects on mandates, settlements, approvals and ledger, with the event that goes with it, and it is a step, with the signatures and timestamps, that may have it |
| Effects.EntryGate | packages/facilitator/src/executor.ts:139-144 | the executor enters settling exactly when the stored terms hash to the created address and the whole gate passes with the spend and clock of that moment; what it reads from the tables is said in `Gate.EntryOutcome` |
| Effects.CreateVerdict | packages/facilitator/src/settlement-service.ts:97-111 | a new settlement is judged on the spend without its own reservation, and needs approval exactly when a threshold is crossed |
| Money.EffectMoney | packages/facilitator/src/executor.ts:118-175 | every effect keeps ceilings, sub-ceilings, the cumulative line, the per-cart rule and what carries them from creation to capture |
| Money.AutoCleared | packages/facilitator/src/executor.ts:141-144 | the intent a settlement was created from and the stored one, tied only by the hash, agree on whether approval is needed |
| Tables.CaptureIsAllOrNothing | packages/facilitator/src/reconcile.ts:83-98 | on a sound database applyCapture never commits its first swap without the second, although its code could |
| Tables.StepSound | packages/facilitator/src/db/schema.sql:56-91 | every step keeps references, the four unique indexes and the bond of captured settlements and captured attempts |
| Verify.MalformedExactlyWhen | packages/core/src/verify.ts:108-191 | documents are called malformed exactly when one of the listed defects is there: an empty text or list, or an amount outside its range |
| Verify.GateIsExact | packages/core/src/verify.ts:194-318 | the gate passes exactly the well-formed, chained carts within the signed terms, in exact integers, and asks for approval exactly above a threshold |
| Verify.TotalCheckIsExact | packages/core/src/verify.ts:227-233 | the rounded line total equals the cart total exactly when the exact total does |
| Verify.BudgetsAreExact | packages/core/src/verify.ts:279-297 | the rounded ceiling and sub-ceiling comparisons agree with exact integers |
| Doubles.RoundIsNearestEven | packages/core/src/verify.ts:227-233 | the rounding is the one of IEEE 754 on integers: 53 significant bits, the nearest, and of two equally near the even one |
| Doubles.DoubleTotalIsExact | packages/core/src/verify.ts:227-233 | the fold in doubles is exact below 2^53 and never comes back below it, for carts of any length |
| Doubles.EveryPartialSumIsExact | packages/core/src/verify.ts:227-233 | a safe rounded total was exact in every product and partial sum |
| Wallet.StateIsExact | packages/facilitator/src/routes/read.ts:108-117 | which of revoked, expired, consumed and active is shown, each under its own condition |
| Wallet.DeadMandatesRefuseEverything | packages/facilitator/src/routes/read.ts:108-117 | a mandate shown revoked, expired or consumed has every cart refused at the same clock |
| Wallet.ActiveMandatesRefuseOverBalance | packages/facilitator/src/routes/read.ts:108-117 | one shown active refuses an otherwise good cart for budget exactly when its total is above remaining_paise |
| Wallet.BalanceIsExact | packages/facilitator/src/routes/read.ts:108-109 | the listed spend is the enforced one and the listed balance is ceiling minus spend, never clamped or rounded |
| Schema.MerchantsMakeUpTheSpend | packages/facilitator/src/mandate-repo.ts:58-83 | what a mandate spent is the sum of what it spent at its merchants, each taken once |
| Schema.BatchedSpendAgrees | packages/facilitator/src/mandate-repo.ts:88-96 | the grouped spend map equals the per-mandate sum for every mandate |
| JsonText.ObjectText | packages/core/src/canonical-json.ts:57-65 | an object is its fields in the one order of their keys by code unit, each a quoted key, a colon (58) and the text of its value, joined by commas (44), in braces (123, 125) |
| JsonText.ObjectHasText | packages/core/src/canonical-json.ts:57-65 | every canonical object has such a text |
| JsonText.ArrayText | packages/core/src/canonical-json.ts:54-56 | an array is the texts of its items in order, joined by commas, in brackets (91, 93) |
| JsonText.StringText | packages/core/src/canonical-json.ts:53 | a string is spelled between quotes (34): each code unit as its short escape, as a backslash, u and four lower-case hex digits, or as itself, and surrogate pairs as they are |
| JsonText.NumberText | packages/core/src/canonical-json.ts:50-52 | an integer is its decimal digits without leading zeros, after a minus sign if it is negative |
| JsonText.LiteralText | packages/core/src/canonical-json.ts:50-52 | null, true and false |
| Texts.LessIsPrecedes | packages/core/src/canonical-json.ts:57-59 | the order of the keys is by the smaller code unit at the first place where two differ, a proper prefix first |
| Texts.SortedKeysListed | packages/core/src/canonical-json.ts:57-59 | the sorted keys are the one list of them in that order |
| Documents.IntentText | packages/core/src/mandate.ts:104-126 | the signed text of an intent, property by property; an absent policy leaves no trace |
| Documents.CartText | packages/core/src/mandate.ts:128-145 | the signed text of a cart, property by property |
| Documents.ItemText | packages/core/src/mandate.ts:128-145 | an item in it: quantity, sku, price and a variant that is not empty; no label |
| Documents.StringsText | packages/core/src/mandate.ts:104-126 | a list of texts in it, in the order given |
| Documents.AmountsText | packages/core/src/mandate.ts:104-126 | a table of sub-ceilings in it |
| Documents.LinkText | packages/facilitator/src/verify-logic.ts:25-29 | the text behind a content address |
| Documents.AddressText | packages/facilitator/src/verify-logic.ts:25-29 | the content address is the hash of that text with the two hashes each under its own name |
| Documents.ApprovalText | packages/facilitator/src/routes/approvals.ts:37 | what a human signs to decide, property by property |
| Documents.RevokeText | packages/facilitator/src/routes/revoke.ts:23 | what a human signs to revoke |
| Documents.LedgerText | packages/facilitator/src/ledger.ts:64-78 | the hash of a ledger row is the hash of this text |
| CanonicalJson.ParseInvertsEncode | packages/core/src/canonical-json.ts:48-72 | parsing an encoding gives the value back, so encoding again gives the same text, for all nested canonical values |
| CanonicalJson.EncodeIsInjective | packages/core/src/canonical-json.ts:48-72 | values with one encoding are equal up to key order |
| Texts.AscendingIsUnique | packages/core/src/canonical-json.ts:57-65 | there is only one ascending key order by UTF-16 code unit, as section 3.2.3 of RFC 8785 wants |
| Mandates.IntentBytesBind | packages/core/src/mandate.ts:104-126 | intent bytes are equal exactly when all terms are, and an absent policy never equals a present one |
| Mandates.CartBytesBind | packages/core/src/mandate.ts:128-145 | cart bytes are equal exactly when the purchase is, labels excepted |
| Mandates.MandateCartHashBinds | packages/facilitator/src/verify-logic.ts:25-29 | one content address means one set of terms and one purchase |
| Ledger.Table.Append | packages/facilitator/src/ledger.ts:64-86 | appends exactly one row that names the current head, keeps a sound chain sound, and writes nothing for an uncanonical payload |
| Ledger.Table.VerifyAll | packages/facilitator/src/ledger.ts:101-129 | returns the verdict of the first broken row, or the head and the count |
| Ledger.LogsHangOnGenesis | packages/facilitator/src/ledger.ts:29-53 | a log that verifies starts at the genesis text, and that is the head of an empty one |
| Ledger.BuiltLogVerifies | packages/facilitator/src/ledger.ts:64-86 | every log built by appends verifies |
| Ledger.SameHeadSameLog | packages/facilitator/src/ledger.ts:48-86 | two verifying logs with one head hold the same events, settlements, actors and payloads in the same order |
| Ledger.TamperIsLocated | packages/facilitator/src/ledger.ts:101-129 | the verdict after any replacement of one row |
| Ledger.OneSidedTamperIsNamed | packages/facilitator/src/ledger.ts:101-129 | a change to hashed fields alone, or to a hash alone, is reported as exactly that row; a change to neither is not |
| Ledger.DeletionIsLocated | packages/facilitator/src/ledger.ts:101-129 | deleting a row that is not the last is reported at the next one |
| Facilitator.Process.TransitionSettlement | packages/facilitator/src/state-machine.ts:73-94 | the compare-and-swap on a settlement: illegal, stale or moved, each exactly when, and the row after it |
| Facilitator.Process.TransitionAttempt | packages/facilitator/src/state-machine.ts:99-116 | the compare-and-swap on an attempt, including the index that refuses a second captured one |
| Facilitator.Process.CreateSettlementRow | packages/facilitator/src/settlement-service.ts:32-119 | reservation, gate and transitions end in the protocol's database and response |
| Facilitator.Process.PostSettlement | packages/facilitator/src/routes/settlements.ts:32-70 | claim, one transaction with rollback, completion and kick make the protocol's step and answer |
| Facilitator.Process.DecideApproval | packages/facilitator/src/routes/approvals.ts:25-89 | row, transition and event stand or fall together, then the kick; the answer is yes exactly on a decision that the human signed for a settlement that waits for it |
| Facilitator.Process.RegisterMandate | packages/facilitator/src/routes/mandates.ts:22-68 | the token is spent exactly when the mandate is stored, and the answer is yes exactly on an unspent token, a valid signature and a new id |
| Facilitator.Process.RevokeMandate | packages/facilitator/src/routes/revoke.ts:16-42 | the answer is yes exactly on a valid signature of a known mandate, yes means revoked, and a repeated call writes nothing |
| Facilitator.Process.ReverifyAndEnterSettling | packages/facilitator/src/executor.ts:118-175 | the entry transaction in all its outcomes |
| Facilitator.Process.KickRun | packages/facilitator/src/executor.ts:453-469 | nothing queued is lost or reordered, and given the bond of queue and run the settlement is afterwards queued or running exactly once, the chain growing only if it was neither |
| Facilitator.Process.StartNextRun | packages/facilitator/src/executor.ts:362-404 | the head of the chain is executed or resumed, with the attempt count read from the rows |
| Facilitator.Process.CapturePayment | packages/facilitator/src/reconcile.ts:78-111 | both swaps, the payment id, the event, what a stale swap commits and what a throw rolls back |
| Facilitator.Process.LinkReplied | packages/facilitator/src/executor.ts:194-241 | the payment-link transaction, with rollback of the superseding when the insert fails |
| Facilitator.Process.FindByOrder | packages/facilitator/src/reconcile.ts:336-338 | the first attempt row with the order id, or none |
| Facilitator.Process.WasRefunded | packages/facilitator/src/reconcile.ts:117-125 | true exactly when the ledger holds a refund of this payment for this settlement |
| Facilitator.Process.ReconcileCaptured | packages/facilitator/src/reconcile.ts:258-298 | the captured branch on the row as it was read before the request |
| Facilitator.Process.FailAttemptIfLive | packages/facilitator/src/reconcile.ts:300-320 | a live row is failed with one event, a stale one is left |
| Facilitator.Process.SweepStaleApproved | packages/facilitator/src/sweep.ts:257-291 | the loop leaves the protocol's world and counts exactly the rows it changed |
| Facilitator.Process.SweepTransients | packages/facilitator/src/sweep.ts:196-213 | the loop abandons exactly the stranded rows and counts them |
| Facilitator.Process.SweepExpiredApprovals | packages/facilitator/src/sweep.ts:232-255 | the loop abandons exactly the pending rows past both limits and counts them |
| Facilitator.Process.SweepStaleAttempts | packages/facilitator/src/sweep.ts:150-194 | the loop polls or gives up each stale attempt and ends in the protocol's world |
| Facilitator.Process.SweepOnce | packages/facilitator/src/sweep.ts:343-353 | all seven rules in their order make one pass |
| Facilitator.Process.Serve | packages/facilitator/src/executor.ts:429-482 | whatever sequence of requests, answers, sweeps and crashes comes, the process is in the world of that run and keeps every invariant |
| Base64Url.BytesToBase64Url | packages/core/src/hash.ts:14-37 | the loop computes the encoding |
| Base64Url.Base64UrlToBytes | packages/core/src/hash.ts:39-47 | accepts exactly what atob accepts after translation and padding, and returns its bytes |
| Base64Url.LetterAt | packages/core/src/hash.ts:14-37 | letter k of an encoding is the letter of bits 6k to 6k + 5, with zeros after the end |
| Base64Url.Alphabet | packages/core/src/hash.ts:12 | the letter of every value, the last two hyphen (45) and underscore (95) |
| Base64Url.ForeignIsRefused | packages/core/src/hash.ts:41-48 | one character that is no letter of either alphabet, no blank and no pad sign makes the decoder throw |
| Base64Url.LettersAccepted | packages/core/src/hash.ts:41-48 | a text of letters alone is refused exactly when its length leaves one over in fours |
| Base64Url.BlanksAccepted | packages/core/src/hash.ts:41-48 | with blanks among the letters it depends on the number of the letters and on the length of the whole text, which decides the padding: exactly when |
| Base64Url.DecodedInvertsEncoded | packages/core/src/hash.ts:14-47 | decoding inverts encoding for every byte string; the text is unpadded, of the exact length, in the alphabet of section 5 of RFC 4648 |
| Cbor.DecodeCborValue | apps/dashboard/src/lib/webauthn.ts:103-175 | the recursive loops terminate on every input and compute the decoder function |
| Cbor.RefusedExactlyWhen | apps/dashboard/src/lib/webauthn.ts:103-175 | outside arrays and maps the decoder throws exactly at the end of the input, on reserved and indefinite lengths, on an 8-byte length cut short, on tags, floats and other simple values |
| Cbor.CutStrings | apps/dashboard/src/lib/webauthn.ts:103-175 | a string cut short is taken as far as it goes, with the next offset where the whole one would have ended |
| Cbor.CutHeads | apps/dashboard/src/lib/webauthn.ts:103-175 | what a missing length byte makes of a number or a string: undefined, not a number, or empty with no next offset |
| Cbor.CutLengths | apps/dashboard/src/lib/webauthn.ts:103-175 | missing bytes of a longer length count as zero |
| Cbor.MapSetOutcome | apps/dashboard/src/lib/webauthn.ts:103-175 | a primitive key that is there keeps its place and takes the last value, any other goes to the end |
| Cbor.WrittenIsDecoded | apps/dashboard/src/lib/webauthn.ts:103-175 | every definite-length item of section 3 of RFC 8949, nested and with any head width, followed by any bytes, decodes to its value and the exact next offset |
| Catalog.MergeDuplicate | packages/cli/src/scanner.ts:484-505 | the two loops compute the merged record |
| Catalog.DedupeShopifyProducts | packages/cli/src/scanner.ts:519-549 | the two loops compute the deduplicated list, with one warning for every record that is gone: each repeat in its place, then each shadow with its base |
| Catalog.MergeAnswers | packages/cli/src/scanner.ts:484-493 | the merged variants: every id once, in stock when the second record or the last entry of the first says so |
| Catalog.MergedEntry | packages/cli/src/scanner.ts:484-493 | the merged entry of an id in every field: the last entry of the second record, in stock if any entry of the second or the last of the first is; without one the last entry of the first |
| Catalog.MergedOrder | packages/cli/src/scanner.ts:484-493 | the merged list has every id of both records once, in first-seen order |
| Catalog.MergeAllFills | packages/cli/src/scanner.ts:494-505 | a merged record is the first record of its handle, with the first description, the first image and the first options that any record has |
| Catalog.BaseIsCut | packages/cli/src/scanner.ts:472 | a handle that ends in a reserved word in any case has the base that is left when the word is cut |
| Catalog.OthersAreTheirOwnBase | packages/cli/src/scanner.ts:472 | any other handle is its own base |
| Catalog.MergedStock | packages/cli/src/scanner.ts:484-505 | the stock of every variant of the returned record: the merged list when two ids are listed, else the first record's list as it is |
| Catalog.MergeLosesNothingIff | packages/cli/src/scanner.ts:474-505 | the returned record loses no available variant if and only if, with two ids listed, the last entry of the first record or the second record has what the first one had, and with one, the second record has nothing that the first has not |
| Catalog.RepeatedIdLosesStock | packages/cli/src/scanner.ts:486 | a first record that lists a variant, another one, and the first again as unavailable loses it in the returned record |
| Catalog.LoneIdLosesStock | packages/cli/src/scanner.ts:502 | an available variant that only the second record lists, under one id, is not taken over |
| Catalog.MergeAllVariants | packages/cli/src/scanner.ts:484-505 | over any number of any records of one handle, which entries count for the stock of the merged record, exactly |
| Catalog.KeptVariants | packages/cli/src/scanner.ts:519-549 | the stock of every variant of a kept handle of any batch, exactly |
| Catalog.KeptLosesNothingIff | packages/cli/src/scanner.ts:519-549 | the dedupe loses no available variant of a kept handle if and only if the handle's records, as they came, meet a stated condition |
| Catalog.KeptStockIsSeenStock | packages/cli/src/scanner.ts:500-501 | a kept handle is in stock exactly when some input record of it was |
| Catalog.DedupeAnswers | packages/cli/src/scanner.ts:519-549 | every handle at most once, in first-seen order, each the merge of its own records |
| Catalog.OnlyShadowsAreDropped | packages/cli/src/scanner.ts:533-547 | a handle is missing exactly when it ends in a reserved word and its base is in the batch under the same name |
| Catalog.DedupeIsIdempotent | packages/cli/src/scanner.ts:519-549 | deduplicating again changes nothing |

## Left out

- SHA-256, Ed25519 and P-256: an injective hash and an unknown signature check stand for them; the 64-character length of a digest is not modelled, because no injective function has it.
- UTF-8: canonical text stays a sequence of UTF-16 code units; the byte layer of `TextEncoder` and `TextDecoder` is not modelled, and a decoded CBOR text is an unknown function of its bytes.
- JSON numbers with a fraction or an exponent: the parser refuses them, because no canonical value has them.
- Key names such as `__proto__` in policy maps: maps are plain finite maps.
- Columns that no decision reads: `reject_reason`, `updated_at`, `decided_at`, receipts, link ids, the `allowances` table, and `created_at` of the ledger.
- Payload fields that no code reads back: an `Event` keeps only the others; `Audit` leaves actor and payload free, and `Ledger` models whole entries.
- Empty provider ids: the source takes an empty order or payment id for a missing one; in the model a provider never sends one.
- Random ids: settlements and attempts are numbered by row, which stands for fresh UUIDs.
- `handleProviderCapture`: its test repeats that of `reconcileCapturedPayment`, and no route or sweep calls it.
- The refund route of a human and the decision route of an agent: they only append an event (`Note`).
- The webhook route: signature, event-id dedup and its events are a `Note` step and then a reconcile step.
- HTTP status texts, header checks, body validation, environment and timers: the model starts after validation.
- The provider, the checkout driver, the page and the browser scan: any answer may come.
- The end of `settling`: payment-link attempts carry no order id and are never reconciled, so a settlement may stay there.
- "No attempt is opened on a captured settlement": not stated, because the loop goes on after a webhook captured first.
- Overlapping reconciles: refund results need that no reconcile is overtaken by a capture of its attempt; the exact failure is stated.
- A refund whose answer is lost: `Refunds` counts a refund as issued when the ledger says so.
- Lists read before a sweep loop: the loops look at each row when they reach it, which is the same because no rule changes another row's part in its list; other steps between the polls of one pass are runs, not passes.
- Effects.CreateVerdict: speaks of the verdict when the gate passes; rejection codes are those of `Verify.VerifyChain`.
- Sweep.SweepConverges: says nothing about rows whose timestamp is missing; `Sweep.StepStamped` shows that no run makes one.
- Cbor.WrittenIsDecoded: inputs are shorter than 2^53 bytes, as every typed array is; indefinite lengths, tags and floats throw in the source and in the model.
- Search, ranking, dashboard, command line, language-model tools and test harness.
