# Verified models of the money-moving parts

The agent, its signers and the escrow program move money between processes that do not trust each other. This project
models five of those protocols in Dafny and proves what they promise, over every run where the promise is about runs.

| modules | what they model |
|---|---|
| `Grainhack*` | the GrainHack payout protocol: statements, the signer's journal, the chain, a person who resolves, the agent's rows and ledger, and all of them together |
| `Inference*` | inference spend under two ledgers (agent and signer), and surplus credit at the gateway |
| `Escrow*`, `Funded*` | the escrow program, its quote, the off-chain mirror and the two-sided unassign rule |
| `Json*` | canonical JSON with a parser for RFC 8259 text, the signed envelopes, and the UTF-8 bytes that are signed |
| `Draw`, `Assignment*` | the weighted draw and the assignment lifecycle |

A run is a sequence of steps from the empty state; a step that is not possible in a state leaves it as it is. Between two
awaits of the source is one step, and a database transaction is one step. One step is longer: `approve` reads its row and the
row's statement together, which no other step can tell apart because a statement held is never changed or dropped. Objects
the source updates in place are classes (`Journal`, `Signer`, `Service`, `SpendLedger`, `Gateway`, `Client`, `Program`,
`Funded`, `Board`) whose methods are proved against the functions the machines are built from.
`dafny verify dfyconfig.toml` checks everything.

## Assumptions

- Chain: a transfer lands at most once, never after its last valid block height, and only if it was broadcast; its signature
  identifies it. The rail builds the transfer it was asked for, and a broadcast returns only once the transfer has moved
  tokens. In the machines a resolution reads one consistent snapshot of status and height; `GrainhackResolve` says when two
  reads are as good.
- Agreement between agent and journal (not needed for pay-once): only the agent sends pay requests; a payout is not resolved
  while the agent waits for its running pay call; when a row is claimed it still has the amount and recipient that `approve`
  read; a row is opened to approval again, by a reconcile or a refreeze, only while nothing is out for it of which a payment
  or a refusal may still come and none is recorded. Each is needed: `GrainhackRaces` has a run with it broken once and
  everything else in order. When breaking them does harm is proved in `GrainhackExactness` and `GrainhackReopening`: exactly
  for a resolution; exactly for a claim and for opening a row wherever the signer, as the journal stands, would accept what
  is sent; and for a foreign request that it would accept for a row open to approval.
- Inference: the rail's fee is at most 10,000 lamports, both sides use the same SOL price (any real number), quote ids are
  fresh, journal writes succeed. For surplus credit: the wallet has one spender, whose calls follow one another.
- Escrow: no instruction names a vault as the account to pay into.
- Pull requests: GitHub keeps a pull request's author, and a merge is for good.
- Ed25519 and SHA-256 verdicts are inputs; identifiers, logins, addresses and signatures are opaque values.

## What the code does that its own text does not say

- `approve` reads the row and claims it later by status alone (`apps/agent/src/grainhack/service.ts:318-339`). A superseding
  statement imported in between leaves a row paid for an amount it does not show: `GrainhackRaces.ImportDuringApproval`.
- A resolution during a running pay makes `mark` throw; the server answers 400, which the agent reads as "nothing was
  journalled": `GrainhackRaces.ResolvedWhilePaying`.
- `refreeze` checks the status and writes two awaits later without a guard (`apps/agent/src/grainhack/service.ts:236-241`), so
  it can open to approval a row that has been paid since: `GrainhackRaces.RefrozenWhilePosted`.
- A reconcile enters a payment from the copy of the row it read, which may be from before a superseding statement, by a
  journal from after the payment (`apps/agent/src/grainhack/service.ts:403-414`): the ledger then says 5 for a payment of 7,
  with nothing out of order (`GrainhackRaces.StaleEntry`). When it happens, exactly: `GrainhackAmounts.AmountsOverRuns`.
- `paid` is not final for an agent row: no write of `unknown` has a guard on the status (`GrainhackRaces.PaidThenUnknown`).
  Which steps take a paid row back, exactly, and that its ledger entry stays: `GrainhackPaidRow.PaidRowMoves`.
- `resolve` reads status and then height in two calls: `GrainhackResolve.TwoReadsCanMisjudge`. When that is safe, exactly:
  `GrainhackResolve.TwoReadsSafeExactly`.
- `discoverStatements` recovers up to 51 missing statements, not 50; beyond that an agent holding none starts in the
  middle, because the first statement of a pool is accepted whatever it supersedes: `GrainhackIntake.DiscoverCatchesUp`.
- `verifyEnvelope` does not bound the lifetime when `approved_at` does not parse: the comparison is with NaN
  (`packages/gate/src/approval.ts:74`): `GrainhackSigner.Outlives`, and exactly then: `GrainhackSigner.LifetimeBounded`.
- A repeated quote whose first payment is still reserved or sent is answered 409, which the client files as certain that no
  money moved: `InferenceRun.RepeatedQuote`, reached in `InferenceRepeat.RepeatedQuoteReached`.
- The client files no receipt for a reply it does not get, and may then pay on-chain for what its credit covers:
  `InferenceCredit.LostReplyCosts`; exactly when: `InferenceCredit.ThriftyExactly`.
- `reconcileOne` has no branch for a self-assign holder the chain does not name: `FundedRun.ReconcileAgrees`; no run of
  atomic operations reaches that state. Nor has it one for a holder when the chain names somebody else:
  `FundedRun.ReassignedOutside`.
- A candidate without tickets can win, when the generator returns exactly 0 and they come first: `Draw.ZeroTickets`.

## Model

| member | source | states |
|---|---|---|
| `GrainhackSafety.PayOnce` | services/signer/src/grainhack/grainhack-signer.ts:115-145 | in every run of signer, chain and people (interleaved pay calls, crashes, dropped replies, replays, resolutions) every transfer that moved tokens is the one recorded for its winner, with the amount and recipient a trusted approver and the signed statement named, and no two that moved tokens are for the same (hackathon, pool, user) |
| `GrainhackSafety.CapsHold` | services/signer/src/grainhack/journal.ts:139-185 | in every reachable state tokens landed for an event are at most its committed sum, which is at most the hard per-event cap and the pool of a statement paid from; tokens landed for a day are at most that day's sum, at most the hard daily cap |
| `GrainhackSafety.SettledForGood` | services/signer/src/grainhack/journal.ts:226-254 | over any extension of any run a confirmed or failed_unsent row keeps its status, order and transaction; failed_unsent never has moved and never will move tokens, confirmed has |
| `GrainhackSafety.OutflowIsJournalled` | services/signer/src/grainhack/grainhack-signer.ts:124-145 | the total that left the float over a whole run equals the sum of the journal rows whose transfer moved tokens |
| `GrainhackSafety.RunExtends` | services/signer/src/grainhack/journal.ts:216-254 | however a run continues, journal rows are never lost, reordered or rewritten, and settled statuses and "no longer reserved" are permanent |
| `GrainhackRun.EveryRun` | services/signer/src/grainhack/grainhack-signer.ts:65-146 | the inductive invariant of the machine: unique winner, payout, approval and transaction; nothing on the wire that the journal lacks; statuses true of the chain; sums within caps with a witness statement |
| `GrainhackRun.InsertKeepsInv` | services/signer/src/grainhack/journal.ts:187-214 | a successful reserve adds a row new to the chain and authorised, and keeps every cap, also for sums over scopes the row is not in |
| `GrainhackRun.MoveKeepsInv` | services/signer/src/grainhack/journal.ts:234-254 | any status change that tells the truth about the chain keeps uniqueness, caps and what every running call relies on |
| `GrainhackPay.Signer.Pay` | services/signer/src/grainhack/grainhack-signer.ts:65-146 | one uninterrupted pay: it reports a payment exactly when it added one confirmed row, adds a row only for an order all checks passed, and any other answer leaves the journal as it was |
| `GrainhackPay.Signer.PayOrder` | services/signer/src/grainhack/grainhack-signer.ts:133-145 | after the build: reserve, sent, then confirmed or unknown, with the row it leaves given exactly |
| `GrainhackPay.PayIsARun` | services/signer/src/grainhack/grainhack-signer.ts:124-145 | the sequential pay leaves the same journal and answer as the machine steps of a call nothing interleaves with |
| `GrainhackSigner.BeginChecks` | services/signer/src/grainhack/grainhack-signer.ts:71-122 | a call gets as far as building a transfer only if a trusted approver signed exactly these terms unexpired, the results key signed the statement, its line is payable for this user, login and amount, and the limits are within the hard caps |
| `GrainhackSigner.BeginAnswers` | services/signer/src/grainhack/grainhack-signer.ts:115-118 | a replay is answered "paid" only from a confirmed row of the same payout under the same approval signature |
| `GrainhackSigner.DecideIsRight` | services/signer/src/grainhack/resolve.ts:42-54 | on one consistent snapshot: a verdict of confirmed has moved tokens, a verdict of failed_unsent never has and never can |
| `GrainhackSigner.DecideSettlesExactly` | services/signer/src/grainhack/resolve.ts:42-54 | which rows can be settled: exactly the open ones that landed, or whose recorded expiry is below the finalized height |
| `GrainhackResolve.StepIsEvent` | services/signer/src/grainhack/grainhack-signer.ts:124-145 | what the two reads may have between them: every step of the signer's machine changes the chain by broadcasts, executions and new heights alone, so the theorems on any such events cover every run of it |
| `GrainhackResolve.TwoReadsCanMisjudge` | services/signer/src/grainhack/resolve.ts:33-37 | status and height are two reads: a concrete transfer that lands between them, at its last valid block, is judged failed_unsent |
| `GrainhackResolve.TwoReadsSafeExactly` | services/signer/src/grainhack/resolve.ts:33-54 | whatever happens on the chain between the reads and whatever height the second gives, a failed_unsent verdict after a status read that showed nothing is right exactly when, at that first read, the transfer was already past its last block; or, if nothing broadcasts it any more, exactly when it could no longer land |
| `GrainhackResolve.HeightFirstIsRight` | services/signer/src/grainhack/resolve.ts:33-54 | with the reads in the other order, height and then status, the verdict is always right and stays right however the chain goes on |
| `GrainhackSigner.LifetimeBounded` | packages/gate/src/approval.ts:69-80 | an approval date bounds the life of the approvals that carry it exactly when it parses, and then to APPROVAL_TTL_MS |
| `GrainhackSigner.Outlives` | packages/gate/src/approval.ts:69-80 | a concrete approval whose date does not parse, by a trusted approver, accepted although it expires later than any given time |
| `GrainhackJournal.Journal.Reserve` | services/signer/src/grainhack/journal.ts:187-214 | re-check and insert as one step: the result and the new rows for every case, the log only grows, and every status stays explained by the log |
| `GrainhackJournal.Journal.Mark` | services/signer/src/grainhack/journal.ts:216-219 | the payment path's own transitions: takes effect exactly from the statuses it may come from |
| `GrainhackJournal.Journal.Resolve` | services/signer/src/grainhack/journal.ts:221-232 | a person's resolution: succeeds exactly with a name, a reason and an open row, and changes only that row |
| `GrainhackJournal.Journal.Move` | services/signer/src/grainhack/journal.ts:234-254 | guarded update plus one appended transition naming the status it came from |
| `GrainhackJournal.LogExplainsAppend` | services/signer/src/grainhack/journal.ts:121-135 | the append-only log alone determines every row's status, and each logged step was legal from where the row stood |
| `GrainhackJournal.CommittedAfterMove` | services/signer/src/grainhack/journal.ts:139-153 | what a status change does to every committed sum, exactly |
| `GrainhackJournal.ReserveKeepsDistinct` | services/signer/src/grainhack/journal.ts:94-119 | a reserve keeps winner, payout, approval and transaction signature unique |
| `GrainhackStatement.CheckShape` | packages/gate/src/grainhack-statement.ts:100-113 | the loop accepts exactly the statements whose lines ascend by a positive user id and add up to the pool, and reports the sum it found when they do not |
| `GrainhackStatement.LineForIsTheLine` | packages/gate/src/grainhack-statement.ts:167-169 | in a checked statement find returns the one line that names the user |
| `GrainhackStatement.EventCapNeverBlocksAWinner` | services/signer/src/grainhack/grainhack-signer.ts:107-108 | while the journal's counted rows agree with the statement's lines, what is committed plus any unpaid line stays within the pool, so the event limit cannot stop an unpaid winner when the pool is within the cap |
| `GrainhackAgent.ImportAt` | apps/agent/src/grainhack/service.ts:145-174 | an import leaves every sent row of the pool and every other pool untouched, makes each unpaid row match its line or be removed, and leaves a row for every listed winner |
| `GrainhackAgent.ImportLinesDone` | apps/agent/src/grainhack/service.ts:151-174 | the loop over the lines, by induction on the lines: found rows, new rows and coverage |
| `GrainhackAgent.ImportKeepsRecipients` | apps/agent/src/grainhack/service.ts:151-181 | after any import a recipient is set exactly in the statuses that may have one |
| `GrainhackAgent.ImportKeepsDistinct` | apps/agent/src/grainhack/service.ts:147-174 | an import keeps one row per winner |
| `GrainhackImport.ImportedRowsAddUp` | apps/agent/src/grainhack/service.ts:125-181 | rows not removed add up to the statement's pool plus exactly the amount by which sent rows differ from their lines; so to the pool when each sent row's amount is its line's |
| `GrainhackChain.AcceptKeepsChains` | apps/agent/src/grainhack/service.ts:117-143 | an accepted statement keeps every pool's statements one line of supersessions with a single current head |
| `GrainhackChain.AcceptExtends` | apps/agent/src/grainhack/service.ts:125-143 | an accepted statement extends its own pool's line by one at the end, and no other pool's |
| `GrainhackChain.CurrentIsTheEnd` | apps/agent/src/grainhack/service.ts:125-125 | a pool with statements has a current one, and it is the end of its line |
| `GrainhackIntake.IntakeKeepsSound` | apps/agent/src/grainhack/service.ts:104-194 | whatever statement arrives, the agent's tables keep one row per winner, frozen recipients, fresh ids and linear chains |
| `GrainhackIntake.WalkStops` | apps/agent/src/grainhack/backend.ts:116-127 | where the walk back through supersedes stops, for every length of line, number held and bound |
| `GrainhackIntake.ImportNext` | apps/agent/src/grainhack/service.ts:125-143 | the next statement of the backend's line is accepted and becomes current; other pools' chains stay |
| `GrainhackIntake.DiscoverCatchesUp` | apps/agent/src/grainhack/backend.ts:108-138 | with at most 51 statements missing one poll imports exactly those, oldest first, ending at the backend's head; with more, an agent holding some is refused and keeps what it had, and one holding none starts in the middle and never gets the older ones |
| `GrainhackService.Service.ImportStatement` | apps/agent/src/grainhack/service.ts:104-194 | the transaction over the agent's tables: which answer, the whole new tables, and the counts it reports |
| `GrainhackService.Service.ImportRows` | apps/agent/src/grainhack/service.ts:145-174 | both loops together give the specified rows, with created, updated, kept and removed counted |
| `GrainhackService.Service.ImportEachLine` | apps/agent/src/grainhack/service.ts:145-168 | the loop over the lines: rows, listed ids and counters |
| `GrainhackService.Service.DropUnlisted` | apps/agent/src/grainhack/service.ts:169-174 | the loop over the rows found at the start: exactly the unlisted unpaid ones become removed |
| `GrainhackService.Service.RefreshWallets` | apps/agent/src/grainhack/service.ts:220-229 | afterwards no winner of the event who linked a wallet still waits for one; every row that changed was such a winner and holds that wallet; the answer is how many changed |
| `GrainhackService.Service.Refreeze` | apps/agent/src/grainhack/service.ts:231-245 | needs a name and a reason; re-reads the live wallet of a row not yet approved and touches only that row |
| `GrainhackService.Service.Approve` | apps/agent/src/grainhack/service.ts:318-355 | claim, forward and record without interleaving: forwarded exactly when the agent's own checks pass; the row's status and the ledger for each kind of reply |
| `GrainhackService.Service.ReconcileRows` | apps/agent/src/grainhack/service.ts:397-446 | the loop over in-flight rows from one copy of rows and journal equals the specified reconcile |
| `GrainhackService.Service.RecordPaid` | apps/agent/src/grainhack/service.ts:357-391 | one transaction: only an in-flight row becomes paid, and the ledger gains at most one entry |
| `GrainhackService.Service.Discover` | apps/agent/src/grainhack/backend.ts:108-138 | the polling loop with its growing array computes the specified walk and imports |
| `GrainhackBooks.ReconcileIsFixpoint` | apps/agent/src/grainhack/service.ts:397-446 | with nothing in flight and orphans past their age, one reconcile gives every row the status the journal dictates and a second one changes nothing |
| `GrainhackBooks.ReconcileToFollows` | apps/agent/src/grainhack/service.ts:414-443 | each row a reconcile has passed follows the journal, the rest are untouched |
| `GrainhackAgreement.SignerHalf` | apps/agent/src/grainhack/service.ts:318-355 | whatever the agent does at every await, the signer's half of a combined run is a run of the signer, so pay-once and the caps hold for it |
| `GrainhackAgreement.ChainsOverRuns` | apps/agent/src/grainhack/service.ts:117-143 | in every run of agent and signer, orderly or not, the statements held form one line of supersessions per pool with one current head |
| `GrainhackOrderlyAgent.AgreementOverRuns` | apps/agent/src/grainhack/service.ts:318-446 | in every run that keeps the stated assumptions: unpaid row means no journal row under its payout id; paid means a confirmed one with the same winner, amount, recipient and transaction, and a ledger entry; failed means a failed_unsent one; a recipient is set exactly in its statuses; every ledger entry is of a different payout that the journal confirms, with its winner, money and transaction |
| `GrainhackOrderlyAgent.StepAgrees` | apps/agent/src/grainhack/service.ts:318-446 | every step of agent, signer, chain or person that keeps to the assumptions keeps that agreement, including calls in flight and reconciles under way |
| `GrainhackOrderlyAgent.ReplyAgrees` | apps/agent/src/grainhack/signer-client.ts:34-51 | filing a reply the way the client classifies it (paid, certainly refused, or unknown) keeps rows, ledger and journal in agreement |
| `GrainhackOrderlyAgent.SweepRowAgrees` | apps/agent/src/grainhack/service.ts:414-443 | one row of a reconcile, decided from stale copies and written over the row as it now is, keeps the agreement |
| `GrainhackExactness.ClaimHarmsExactly` | apps/agent/src/grainhack/service.ts:335-339 | the claim guards only the status. From any state of an orderly run, a claim after which the row still has the amount and recipient that were read never leads to rows, ledger and journal disagreeing; one after which it has not does, on some orderly continuation, whenever the signer would accept the request |
| `GrainhackExactness.ResolveHarmsExactly` | services/signer/src/grainhack/journal.ts:221-232 | from any state of an orderly run, a resolution that settles something leads, on some orderly continuation, to rows and journal disagreeing exactly when the agent is waiting for a running pay call of that payout |
| `GrainhackReopening.ReopeningHarms` | apps/agent/src/grainhack/service.ts:231-245 | the same for a refreeze that writes and a reconcile that releases. No harm when nothing is out for the row of which a payment or a refusal may still come and the journal has none; harm when the journal has one, when a request is coming that the signer would record, and when a request may be refused while a second approval of the row would be paid. Exactly that wherever the signer, as the journal stands, refuses neither what is out nor, where it is a refusal that is unread, the second approval |
| `GrainhackReopening.ForeignHarms` | services/signer/src/grainhack/grainhack-signer.ts:65-122 | only the agent sends pay requests: from any state of an orderly run, a request from elsewhere for a row open to approval, which the signer would accept, leads on some orderly continuation to rows and journal disagreeing |
| `GrainhackOrderlyAgent.UnpaidHasNoRecord` | apps/agent/src/grainhack/service.ts:345-352 | a row open to approval has no journal row under its payout id |
| `GrainhackOrderly.SignerStepAgrees` | services/signer/src/grainhack/grainhack-signer.ts:124-145 | every signer, chain or person step keeps the agreement |
| `GrainhackRaces.ImportDuringApproval` | apps/agent/src/grainhack/service.ts:318-339 | a concrete run, orderly but for one claim, that ends with a paid row saying 7 while the journal and chain say 5 |
| `GrainhackRaces.ResolvedWhilePaying` | services/signer/src/grainhack/journal.ts:216-238 | a concrete run, orderly but for one resolution during a pay, after which the agent has reopened for approval a payment that is confirmed and landed |
| `GrainhackRaces.ReleasedWhilePosted` | apps/agent/src/grainhack/service.ts:430-438 | a concrete run, orderly but for one reconcile that takes for an orphan a row whose request the signer has not recorded yet, with the same end |
| `GrainhackRaces.RefrozenWhilePosted` | apps/agent/src/grainhack/service.ts:231-245 | a concrete run, orderly but for one refreeze that checks the status before an approval and writes after it, with the same end |
| `GrainhackRaces.SentByAnother` | services/signer/src/grainhack/grainhack-signer.ts:65-146 | a concrete run, orderly but for somebody else sending the approved request, with the same end |
| `GrainhackRaces.StaleEntry` | apps/agent/src/grainhack/service.ts:403-414 | a concrete run with nothing out of order that ends with a ledger entry of 5 for a payment of 7: the reconcile read the row before it was superseded and the journal after it was paid |
| `GrainhackRaces.PaidThenUnknown` | apps/agent/src/grainhack/service.ts:345-352 | a concrete orderly run whose next step takes a row that is paid on every side back to unknown |
| `GrainhackRaces.OrderlyPayment` | apps/agent/src/grainhack/service.ts:318-355 | a concrete run with nothing out of order ends with the winner paid on every side: row, ledger, journal and chain |
| `GrainhackLedger.LedgerMatchesJournal` | apps/agent/src/grainhack/service.ts:357-446 | at the end of an orderly run with no approval under way, one reconcile leaves exactly one ledger entry for each confirmed journal row, same winner, money and transaction; their amounts are right exactly when no reconcile of the run entered an out-of-date copy, and then the totals are equal |
| `GrainhackAmounts.AmountsOverRuns` | apps/agent/src/grainhack/service.ts:374-381 | over every orderly run the ledger's amounts are the journal's exactly when no reconcile ever recorded a payment from a copy whose amount its row had lost |
| `GrainhackPaidRow.PaidRowMoves` | apps/agent/src/grainhack/service.ts:345-429 | over every orderly run, exactly which steps change a row that is paid: a reply that is no payment, a request given up, a reconcile with a journal from before the confirmation; they change it only to unknown, and its ledger entry and the journal's confirmation stay |
| `GrainhackLedger.EqualTotals` | apps/agent/src/grainhack/service.ts:374-381 | entries and confirmed rows that match one for one, with the right amounts, have equal sums |
| `InferenceRun.SpendIsBounded` | services/signer/src/signer.ts:64-115 | for every interleaving of calls, stops and lost replies: what left the wallet, fees included, is at most what the signer counts, which is at most what the agent counts, which is at most 5,000,000 micro-USD, and each phase is within its allocation |
| `InferenceRun.ReleasedForGood` | packages/x402/src/client.ts:206-211 | an entry the agent released is, however the run goes on, one whose request left nothing that counts at the signer and nothing landed |
| `InferenceRun.RepeatedQuote` | services/signer/src/journal.ts:92-98 | asked again about a quote, the signer's answer can be filed as it stands exactly when the earlier payment is settled; while it is reserved or sent the 409 reads as a refusal although it counts |
| `InferenceRepeat.RepeatedQuoteReached` | services/signer/src/journal.ts:92-98 | a concrete run up to a payment that has executed, whose quote is then handed to a second call: it is told 409, its entry is released, and 2,005 has left the wallet for that quote |
| `InferenceRun.EveryRun` | packages/x402/src/client.ts:199-228 | the inductive invariant: each signer row is covered by its own agent entry, whatever has been lost on the way |
| `InferenceRun.SignerWithinAgent` | services/signer/src/journal.ts:75-86 | rows covered by different entries have a sum within the entries' sum |
| `InferenceRun.FiledCovers` | packages/x402/src/client.ts:205-228 | settling or releasing by the signer's answer leaves the entry counting exactly what the row counts |
| `InferenceSigner.Signer.PayQuote` | services/signer/src/signer.ts:64-115 | the rows it leaves for each answer: a refusal adds nothing that counts, a payment exactly its cost, an uncertain one its most |
| `InferenceSigner.Signer.PayReserved` | services/signer/src/signer.ts:92-114 | build, sent, broadcast: the row's final status and fee in each of the three endings |
| `InferenceSigner.Journal.Reserve` | services/signer/src/journal.ts:88-117 | quote uniqueness and the ceiling checked with the insert, never over the hard ceiling |
| `InferenceSigner.Journal.Update` | services/signer/src/journal.ts:152-157 | a guarded transition that throws from any other status and never raises the committed sum |
| `InferenceRun.NoProofOnceSpent` | services/signer/src/signer.ts:118-126 | over every run: once what has left the wallet, fees included, reaches the ceiling, no proof for a spend of credit is signed any more, however the run goes on (and Client.Call spends none without one) |
| `InferenceSigner.MicroIsCeiling` | packages/budget/src/governor.ts:85-89 | the fee in micro-USD is never short and less than one unit over, for every real price |
| `InferenceSigner.FeeWithinReserve` | packages/budget/src/governor.ts:85-89 | a fee within the lamport reserve costs at most what was reserved |
| `InferenceBudget.SpendLedger.Reserve` | packages/budget/src/ledger.ts:63-73 | decision and insert in one step; the totals after it are the ones the decision announced |
| `InferenceBudget.SpendLedger.SumTotals` | packages/budget/src/ledger.ts:46-55 | one pass gives the lifetime and all four phase totals |
| `InferenceBudget.SpendLedger.Settle` | packages/budget/src/ledger.ts:75-79 | settles only a reserved entry; the budget holds when the amounts are within what was reserved |
| `InferenceBudget.SpendLedger.Release` | packages/budget/src/ledger.ts:81-85 | releases only a reserved entry and touches no other |
| `InferenceBudget.ReserveKeepsBudget` | packages/budget/src/governor.ts:59-79 | no decision takes the ledger over the lifetime ceiling or a phase over its allocation, whatever ceiling is configured |
| `InferenceBudget.PhasesAddUp` | packages/budget/src/governor.ts:22-28 | the phase totals sum to the lifetime total, and the allocations to the ceiling |
| `InferenceCredit.Client.Call` | packages/x402/src/client.ts:139-256 | for every way a call can go, replies lost and figures missing included: the new estimate and balance are those of one step of the credit runs; no credit is spent without the signer's proof, so none once its ceiling is reached; what it may pay on-chain and when; the budget grows only by what was paid or may have been |
| `InferenceCredit.Client.SpendCredit` | packages/x402/src/client.ts:176-193 | the proof and one request with it: served exactly against the balance, or broken off with nothing changed, or refused for too little, after which the estimate is below the cap |
| `InferenceCredit.Client.PayFromBudget` | packages/x402/src/client.ts:204-228 | reserve, pay, settle or release: what each of the five outcomes leaves counted |
| `InferenceCredit.Client.PayOnchain` | packages/x402/src/client.ts:205-245 | reserve, pay, settle with the ledger, with what each outcome leaves counted |
| `InferenceCredit.Client.AskUntilVisible` | packages/x402/src/client.ts:230-246 | the bounded retry ends served once, or paid and not served with the gateway unchanged |
| `InferenceCredit.Gateway.Settle` | packages/mock-gateway/src/gateway.ts:137-190 | each wallet's balance is exactly what it paid in on-chain less its charges and never negative, no quote is served twice, and a failed attempt changes nothing |
| `InferenceCredit.ReceiptKeepsCover` | packages/x402/src/client.ts:272-281 | a receipt keeps the estimate at or above the balance exactly when it carries the balance or the charge, or the charge was the cap, or there was slack |
| `InferenceCredit.ThriftyExactly` | packages/x402/src/client.ts:176-281 | over every sequence of calls from a new client: it would never pay on-chain for what its credit covers, whatever it is asked next, exactly when no served call left more at the gateway than the client knew without its receipt's figures |
| `InferenceCredit.ThriftyWhenTold` | packages/x402/src/client.ts:176-281 | so with every reply delivered and the charge or the balance in it, it never does |
| `InferenceCredit.LostReplyCosts` | packages/x402/src/client.ts:240-281 | a concrete sequence with one lost reply after which a call of 15 is paid on-chain while 19 of credit lie at the gateway |
| `InferenceCredit.CoverIsThrift` | packages/x402/src/client.ts:176-194 | the client never wastes credit, whatever the next quote, exactly when its estimate is at least the balance |
| `EscrowFee.FeeIsExact` | contracts/escrow/programs/bounty-escrow/src/lib.rs:184-194 | for every u64 amount above zero, rate up to 1000 and floor: the u128 product never overflows, the cast never truncates, the fee is the exact ceiling or the floor, and it aborts exactly when the total does not fit |
| `EscrowFee.QuoteMatchesProgram` | apps/agent/src/escrow-service.ts:66-79 | the website quotes the same fee and total whenever the program does not abort |
| `EscrowRun.EveryTrace` | contracts/escrow/programs/bounty-escrow/src/lib.rs:170-456 | over all traces of any number of escrows: tokens are conserved, every open vault holds exactly amount plus the fee of its own terms, and each lifetime ends at most once |
| `EscrowRun.EndingPays` | contracts/escrow/programs/bounty-escrow/src/lib.rs:264-429 | whatever ends a lifetime empties the vault at once, to the recorded contributor's account and the one named for the fee when it was funded, or in full to an account of the funder; no other balance moves |
| `EscrowRun.LockedUntilDeadline` | contracts/escrow/programs/bounty-escrow/src/lib.rs:332-429 | once anybody was ever assigned, over every run before the deadline the vault stays full under the same terms until a release to whoever is recorded at that moment |
| `EscrowRun.PayOutEffects` | contracts/escrow/programs/bounty-escrow/src/lib.rs:142-160 | a payout and close: every payee gets exactly their sum, the vault ends empty and closed, or the instruction fails |
| `EscrowProgram.Program.Initialize` | contracts/escrow/programs/bounty-escrow/src/lib.rs:170-232 | funding: every refusal in order, else the vault holds the total and the record its terms |
| `EscrowProgram.Program.Assign` | contracts/escrow/programs/bounty-escrow/src/lib.rs:238-259 | who may assign, in which state; the whole new state |
| `EscrowProgram.Program.Unassign` | contracts/escrow/programs/bounty-escrow/src/lib.rs:431-455 | puts the assignment back but never clears that somebody was assigned |
| `EscrowProgram.Program.Release` | contracts/escrow/programs/bounty-escrow/src/lib.rs:264-325 | every check in order, both transfers and the close, undone as a whole if any part fails |
| `EscrowProgram.Program.Refund` | contracts/escrow/programs/bounty-escrow/src/lib.rs:332-374 | the funder alone, after the deadline, in full |
| `EscrowProgram.Program.Cancel` | contracts/escrow/programs/bounty-escrow/src/lib.rs:382-423 | the funder alone, only if nobody was ever assigned, in full |
| `FundedRun.ReconcileOverRuns` | apps/agent/src/funded-service.ts:872-941 | in every run, after a reconcile with the attestor reachable and the holder's wallet linked, somebody holds the bounty exactly when the chain names somebody, unless the chain names a wallet no applicant linked or a release is under way: and in those two it does not |
| `FundedRun.ReconcileAgrees` | apps/agent/src/funded-service.ts:872-941 | the same for every state, with the third exception the code has no branch for: a self-assign holder the chain never named |
| `FundedRun.IdentityOverRuns` | apps/agent/src/funded-service.ts:896-906 | in every run, after such a reconcile the chain names the wallet on file of whoever holds the bounty, with one exception more: somebody holds it and the chain names another wallet, which never happens in draw mode |
| `FundedRun.ReassignedOutside` | apps/agent/src/funded-service.ts:896-906 | a concrete run into that exception: user 1 holds the bounty, the chain names user 2, and reconciling changes nothing |
| `FundedRun.ClosedEscrowClosesBounty` | apps/agent/src/funded-service.ts:877-894 | a closed escrow that no release closed leaves nobody holding the bounty, which is expired, or cancelled if nobody ever held it |
| `FundedRun.AttestorNeedsBothSides` | apps/agent/src/funded-service.ts:586-606 | over every run the attestor has unassigned somebody whose pull request was in only where a proposal on that assignment was accepted by the other side or left unanswered for seven days |
| `FundedRun.EveryRun` | apps/agent/src/funded-service.ts:698-831 | one live assignment, truthful proposals, agreed attestations, and no self-assign holder without an assigned mirror, in every run |
| `FundedService.Funded.ReconcileOne` | apps/agent/src/funded-service.ts:872-941 | every branch, with the row updates it makes and what it reports |
| `FundedService.Funded.Unassign` | apps/agent/src/funded-service.ts:586-616 | ends an assignment exactly when the rules and the attestor allow it |
| `FundedService.Funded.ConfirmUnassign` | apps/agent/src/funded-service.ts:618-638 | records what the chain already shows, marking it when the other side had not agreed |
| `FundedService.Funded.CarryOut` | apps/agent/src/funded-service.ts:793-813 | an agreed proposal is carried out only on the assignment it was about |
| `FundedService.Funded.Propose` | apps/agent/src/funded-service.ts:698-725 | only about somebody whose pull request is in, one pending proposal at a time |
| `FundedService.Funded.Respond` | apps/agent/src/funded-service.ts:739-777 | an answer counts only from the other side, and an acceptance is carried out |
| `FundedService.Funded.TakeSilence` | apps/agent/src/funded-service.ts:816-832 | expiry accepts by silence exactly what is overdue, then carries out and retries |
| `FundedService.Funded.TryAttestUnassign` | services/signer/src/payout/escrow-attestor.ts:84-89 | the attestor signs only an open draw-mode escrow that names somebody |
| `JsonRoundTrip.ParseUndoesPrint` | packages/gate/src/grainhack-statement.ts:54-64 | a value comes back from its text exactly when it repeats no key at any level: strings with every kind of escape, lone and paired surrogates, integers, nesting |
| `JsonRoundTrip.CharsBack` | packages/gate/src/grainhack-statement.ts:54-64 | every string survives quoting and unquoting |
| `JsonCanonical.CanonicalRoundTrip` | packages/gate/src/grainhack-statement.ts:54-64 | canonicalising is idempotent, and parsing canonical text gives the value back with its keys sorted |
| `JsonCanonical.OneTextPerValue` | packages/gate/src/grainhack-statement.ts:126-145 | the statement check accepts exactly one text for each value, whatever order its keys are in |
| `JsonCanonical.ObjectsByContent` | packages/gate/src/grainhack-statement.ts:54-64 | two objects have one canonical text exactly when they have the same keys with values of the same canonical text |
| `JsonCanonical.ParsedIsProper` | packages/gate/src/grainhack-statement.ts:131-136 | whatever text arrives, the parser gives a value with no key twice |
| `JsonCanonical.LaterKeyWins` | packages/gate/src/grainhack-statement.ts:131-136 | of several members with one key, the parsed object has the last |
| `JsonCanonical.CanonicalTexts` | packages/gate/src/grainhack-statement.ts:126-145 | the texts the statement check accepts are exactly the canonical texts of values |
| `JsonBytes.BytesFixText` | packages/gate/src/grainhack-statement.ts:66-74 | two texts without lone surrogates that have the same UTF-8 bytes are the same text |
| `JsonBytes.LoneSurrogatesCollide` | packages/gate/src/grainhack-statement.ts:66-74 | two different lone surrogates have the same bytes |
| `JsonBytes.PrintIsPaired` | packages/gate/src/grainhack-statement.ts:54-64 | whatever strings a value holds, its printed text has no lone surrogate |
| `JsonBytes.StatementBytes` | packages/gate/src/grainhack-statement.ts:66-74 | the signed bytes of a statement stand for one domain and one value |
| `JsonBytes.EnvelopeBytes` | packages/gate/src/approval.ts:48-52 | the signed bytes of an envelope stand for one domain, one set of terms and one pair of times |
| `JsonCanonical.MessageIsInjective` | packages/gate/src/approval.ts:48-52 | one signed message stands for exactly one set of terms, key by key, and one pair of times, whatever order the terms were built in |
| `JsonCanonical.SameTextSameDomain` | packages/gate/src/approval.ts:39-52 | texts under two different domains never coincide, whatever follows |
| `JsonCanonical.TheDomains` | packages/gate/src/grainhack-statement.ts:19-19 | the payout, GrainHack and results domains are three such domains |
| `Draw.PickWeighted` | packages/gate/src/draw.ts:120-129 | the loop returns the first candidate whose running total reaches the drawn point, or -1 without tickets |
| `Draw.WinnerByStretch` | packages/gate/src/draw.ts:120-129 | for a draw strictly between 0 and 1 the winner is exactly the candidate whose interval contains it |
| `Draw.StretchIsShare` | packages/gate/src/draw.ts:120-129 | each candidate's winning interval has length tickets over total, and the intervals lie end to end from 0 to 1 |
| `Draw.ZeroTickets` | packages/gate/src/draw.ts:120-129 | a candidate without tickets wins exactly when the draw is 0 and they come first |
| `Draw.OneWinner` | packages/gate/src/draw.ts:120-129 | no draw has two winners |
| `Draw.TicketsFrom` | packages/gate/src/draw.ts:102-106 | the product of the factors, positive when they are |
| `AssignmentsRun.EveryRun` | apps/agent/src/service.ts:483-520 | at every step: one live assignment per bounty; in_review means an open or merged pull request on record; whoever is marked as having submitted has theirs on record and not closed |
| `AssignmentsRun.AbandonsOverRuns` | apps/agent/src/draw-service.ts:1372-1387 | over every run an abandon on record was put there by one stale release, which ended an assignment that was live and had none, of a holder with no pull request on record for that bounty |
| `AssignmentsRun.AbandonOnlyIfSilent` | apps/agent/src/draw-service.ts:1372-1387 | the exact step that can count an abandon: a stale, active, unfunded assignment of somebody with nothing on record |
| `AssignmentsRun.UnmergedSound` | apps/agent/src/service.ts:570-588 | closing a pull request unmerged makes whoever had submitted it active again and takes the bounty out of review exactly when nothing open or merged is left for it, and keeps the lifecycle's invariant |
| `AssignmentBoard.Board.OnPullRequestActivity` | apps/agent/src/service.ts:483-500 | for each bounty the pull request closes: submission, status and holder, in a loop |
| `AssignmentBoard.Board.OnPullRequestClosed` | apps/agent/src/service.ts:567-611 | for each bounty: merged with or without a passing gate, or closed and possibly reopened |
| `AssignmentBoard.Board.ReopenAfterUnmergedClose` | apps/agent/src/draw-service.ts:104-160 | reopens exactly when in review with nothing open or merged and something closed; any other answer changes nothing |
| `AssignmentBoard.Board.RunDrawFor` | apps/agent/src/draw-service.ts:777-895 | refused exactly while somebody holds the bounty; otherwise the winner is the one the tickets and the draw pick, or the first to apply when nobody has tickets |
| `AssignmentBoard.Board.UnassignByDecision` | apps/agent/src/draw-service.ts:990-1056 | happens exactly with a reason, a holder and no submitted pull request |
| `AssignmentBoard.Board.CloseByDecision` | apps/agent/src/draw-service.ts:1071-1129 | happens exactly with a reason on a posted bounty whose holder has not submitted, and leaves nobody holding it |
| `AssignmentBoard.Board.ReleaseStaleAssignments` | apps/agent/src/draw-service.ts:1372-1390 | the guarded update over all assignments |

## Left out

- HTTP servers, wiring, command lines, configuration parsing, SQL mechanics and Solana RPC: represented by atomic steps and by parameters for what came back.
- `PayoutSigner`, `PayoutJournal` and the attestor's `release`: a smaller copy of the GrainHack journal's proof.
- Ed25519, SHA-256 and base58 themselves.
- `GrainhackStatement.CheckShape`: order and arithmetic of the lines; the keys, the field formats (uuid, login, currency, decimal strings, dates), version, kind and network are not modelled, values are already typed. The same goes for approval terms.
- `JsonRoundTrip.ParseUndoesPrint`: numbers are integers. The parser refuses a fraction or an exponent, where the source would parse it and later refuse the statement, which only admits safe integers; integers are unbounded, where JavaScript rounds beyond the safe range.
- `JsonCanonical.CanonicalRoundTrip`: the same restriction to integers.
- `JsonCanonical.MessageIsInjective`: top-level keys in sorted order. Keys that look like array indices, which JavaScript would list first and by number, and members that are undefined, which it leaves out, are not modelled; no term of an approval has such a key.
- `GrainhackExactness.ClaimHarmsExactly`: when the row has changed and the signer would refuse the request as the journal stands, for a cap say, nothing is said: a later journal may let it through.
- `GrainhackReopening.ReopeningHarms`: when the signer, as the journal stands, would refuse a request that is out, or has refused it, nothing is said unless the agent may still read a refusal of it and a second approval would be paid; a later journal may let either through.
- `GrainhackReopening.ForeignHarms`: one direction. A foreign request for a row that is not open to approval, or that the signer would refuse as the journal stands, is excluded by the assumption and not shown harmful.
- Reports, notifications, audit rows and error texts, and which of several refusals a caller is told about first where they share a status.
- `GrainhackService.Service.Approve`: one uninterrupted call; the interleaved one is the machine of `GrainhackAgreement`.
- `GrainhackService.Service.Refreeze`: one uninterrupted call; its three awaits are steps of the same machine.
- `GrainhackService.Service.Discover`: one event at a time, and what the backend serves verifies; a fetch that fails stops it.
- `InferenceCredit.Client.Call`: starts after the quote has been read, and one call ends before the next; what the receipt store records is not modelled, and the retry's waiting time is not either.
- `InferenceCredit.Gateway.Settle`: token estimation and model prices are one number, the cost.
- `AssignmentBoard.Board.RunDrawFor`: the pool is given; who is eligible, newcomer reservation and simulation are not modelled.
- `weightsFor` and the seeded generator: factors and the draw are given as numbers.
- `Draw.PickWeighted`: exact reals, so the floating-point tail is only reached for a draw above 1.
- Application gates, settings, deadlines' warnings, closing of application windows and the public pages.
- Rent, mint decimals, merge commits and events of the escrow program.
- `FundedService.Funded.Unassign`: who may call it (the funder's login) is not modelled; neither are preparing, confirming or reclaiming the escrow itself.
- Whether the program accepts the attestor's release: it compares the fee account's own key with the fee destination, while the attestor passes an associated token account.
- Erasure and retention.
