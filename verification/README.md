# Delegated spending, billing and evidence: a verified model

This project models the parts of the Inferrail repository that decide who may spend what, and proves
that they keep their promises. It is written in Dafny, one module for each part of the program, and
`dafny verify dfyconfig.toml` checks all of it.

- **The ledger** (`Ledger`, `LedgerInvariant`, `LedgerTheorems`, `LedgerRuns`, `LedgerAnswers`, `Walks`,
  `LedgerStore`). `EconomicAuthorityStore` keeps a growing forest of delegations and a log of events.
  `Ledger` says what each request is answered and what it changes; the class performs it on mutable
  tables, loops included. The invariant accounts for every micro-dollar, and everything else follows from
  it: no overspend anywhere in the tree, replays that are inert, unknown cost that stays locked up to the
  root, and revocation marks that freeze a subtree. `LedgerAnswers` says, without those checks, exactly
  which requests are accepted.
- **Tearing down and handing over** (`Executor`, `Capabilities`, `Handoff`, `HandoffStore`). The
  executor's walk and settle loop run with other processes' requests between any two database accesses.
  Child credentials are rotated, parked and claimed; at most one works, and a revoked subtree stays
  dark.
- **Paid sessions** (`Sessions`, `SessionCalls`). A purchase is three durable steps with crashes and
  other calls between them.
- **Payments from a work budget** (`UsdcChain`, `Runtime`, `RuntimeInvariant`, `RuntimeSafety`,
  `RuntimeTheorems`, `RuntimeBounds`, `RuntimeRace`, `RuntimeCharges`, `RuntimeSteps`, `RuntimeAlone`,
  `RuntimeStuck`, `RuntimeStore`). The agent runtime of `examples/agent_economy` is a state machine over
  the durable writes, reads, sent signatures and crashes of several processes, on top of the ledger and a
  chain with the transfer rules of the Specification section of EIP-3009. The class `AuthorityRuntime`
  pays, calls models and reconciles on the mutable tables, and its steps are moves of that machine. The
  bound of the ledger becomes a bound on what can leave the payer's account, each settled call is charged
  what its bill or a reconcile decided, and `RuntimeAlone` says what each call leaves behind when nobody
  interferes.
- **Billing** (`Credits`, `Metering`, `Workspaces`, `Liabilities`, `Report`). Metered runs held by
  concurrent calls, purchases reconciled from the chain, proportional refunds, what each of these does to
  the liability, and the money part of the revenue report.
- **Scanning, trials, migration** (`Scan`, `Trial`, `Canonical`, `Migration`). The checkpointed search
  for a spent nonce, the sliding-window issuer of trial keys, the canonical spelling of amounts and
  the rebuilt event table.

`Common` holds options, opaque identifiers and sums.

## Reading the model

Money is in whole micro-dollars (the ledger and the runtime) or cents (billing). An object that the
program updates in place is a class here, and each of its methods is tied by its `ensures` to a
function of the old state; the lemmas are about those functions, and about every run of them. Where
several processes interleave between durable writes, in the runtime and the session calls, the
functions form a state machine: a move is one durable write, one read, one provider call, one
request leaving a process, a transfer, a tick of the clock, or a crash. Randomness, clocks and the
answers of the chain are parameters; a drawn id, nonce or token is taken to be new. The runtime and
the chain tell the same time: one clock serves reconciliation and the validity windows, so skew
between them is not modelled.

## Where the code and its documentation part

- **Reconciliation reads the chain before the clock** (`examples/agent_economy/authority.py:411-421`).
  `examples/agent_economy/README.md:117-119` says that a reservation is never released while its payment
  could still settle. A transfer that lands between the two reads, just before its window closes, is
  missed, and its leaf is released although the money moved: `BudgetSpentTwice` is a run in which a
  budget of 1 pays out 2. `ChainReadExact` says which chain reads can go wrong: exactly those of a
  payment whose window is still open and whose signature is, or is about to be, out. The window is on
  the clock and in the action's row, so a caller can look before it reconciles. `OutflowBounded`,
  `RunBounded` and `PayerLossBounded` hold for every run in which a chain read made while the window is
  open is directly followed by the clock read, that is, in which the two reads are one instant whenever
  it matters.
- **An action can end twice** (`examples/agent_economy/authority.py:268-273`). The same passage says
  every action ends in exactly one state. A process whose reservation was refused writes REFUSED
  without looking, also over an ABANDONED that another process wrote in between: `EndsTwice` is such a
  run. `EndsForGood` says that this is the only change an ended action can still undergo, and
  `FinalStatesTell` that both states mean the same: never signed, nothing spent.
- **A metered call can be left open for ever** (`examples/agent_economy/authority.py:285-293` and `405-410`).
  `examples/agent_economy/README.md:117-120` says that on restart every action ends, and that a model call
  found in flight counts its full ceiling. A process that dies after `consume` recorded the real cost and
  before `settle` leaves a call whose reconciliation asks to record the ceiling under the same key, which
  raises, and ends the whole `reconcile` before the actions after it: `DiesInBetween` leads there from every
  healthy state, and `NeverClosed` says that nothing leads out. `ReconcileAlone` is the exact condition: a
  reconciliation raises if and only if the call has a cost on record that is not its ceiling. The cost is in
  the ledger, so a caller can look before it reconciles.
- **A grant to a session's root ends recovery** (`hosted/a2a_economic_authority/sessions.py:444-486`).
  The module's documentation says recovery closes every window after the purchase row exists. Recovery
  first repeats `create_root` with the recorded ceiling, which raises once the root's authority has
  grown. `RecoveryExactly` is the exact condition, `GrantBlocksRecovery` shows it is permanent, and
  `RecoveryLost` is a run in which it happens.
- **An unreconstructed legacy event is not a new one** (`hosted/a2a_economic_authority/core.py:455-462`).
  The comment says a later use of such a key is treated as new. `_check_event` finds a different
  payload under it and raises. Either way it is never a safe retry, which is what is proved.
- **A reserve retry after a grant on the child raises** (`core.py:703-711`), where a reader of the
  docstring would expect `already_exists`; `ReserveRetry` states exactly when it does which, and
  `ReserveRetryRaises` is a run in which it raises.
- **Negative zero** equals zero but is spelt `-0`, so the two conflict under one event key;
  `CanonicalExactly` is the exact statement.
- **A purchase of no runs settles without a grant** (`hosted/budget_gateway/workspaces.py:386-406`): the
  insert is ignored when it breaks the table's check, and the state still becomes `settled`.
  `SettledWithoutGrantExactly` is the exact statement and `SettleNothing` such a purchase.

Summed over a subtree, own spend plus the authority of active leaves counts an active leaf's own spend
twice. The conservation theorems count what is spent, spendable, locked and released instead, which
add up exactly.

## Model

| member | source | states |
|---|---|---|
| `LedgerInvariant.StepKeepsInv` | hosted/a2a_economic_authority/core.py:664-1041 | Every request, accepted or not, keeps the whole ledger invariant: parents exist and come first, activity is closed under parent, no quantity is negative, `child_reserved` is exactly the sum of the children's slots, `consumed` is exactly the own recorded spend plus that of settled children, and each event key is recorded once |
| `LedgerInvariant.SlotFits` | hosted/a2a_economic_authority/core.py:725-739 | A child's slot (its authority while active, then what it neither spent nor released) fits inside its parent's reservation |
| `LedgerInvariant.LineageKept` | hosted/a2a_economic_authority/core.py:1058-1070 | Adding or changing delegations never changes the ancestor chain of an existing one |
| `LedgerTheorems.SubtreeConservation` | hosted/a2a_economic_authority/core.py:664-1010 | What a delegation withholds from its parent is exactly the known spend recorded in its whole subtree plus what is free or locked there |
| `LedgerTheorems.SpendByEvent` | hosted/a2a_economic_authority/core.py:828-882 | The spend of a subtree is the same summed over delegations or over accepted consume events |
| `LedgerTheorems.WhereItWent` | hosted/a2a_economic_authority/core.py:664-1010 | A delegation's authority is exactly tree spend plus spendable plus locked by unknown cost plus released, and none of these is negative |
| `LedgerTheorems.StepKeepsIssued` | hosted/a2a_economic_authority/core.py:608-826 | Authority is minted only by an accepted opening, reservation or grant: it always equals the amounts those events record |
| `LedgerTheorems.StepKeepsFold` | hosted/a2a_economic_authority/core.py:580-606 | The tables, marks apart, are always what replaying the event log from nothing rebuilds |
| `LedgerRuns.NoOverspend` | hosted/a2a_economic_authority/core.py:664-1010 | In every reachable state, settled descendants included, the spend of a delegation's tree with everything still spendable or locked there is at most what it was opened with plus its accepted grants |
| `LedgerRuns.SameEventsSameBalances` | hosted/a2a_economic_authority/core.py:554-606 | Two runs that recorded the same events have the same balances, whatever else was refused, replayed or marked |
| `LedgerRuns.RunIsLater` | hosted/a2a_economic_authority/core.py:664-1041 | In any run no record is lost, no delegation moves, reopens or changes agent, no mark or taint is lifted, and a settled row is final |
| `LedgerRuns.ReplayIsInert` | hosted/a2a_economic_authority/core.py:554-578 | After a grant, consume or settle was answered True, the same request is answered True in every later state and any other request under its key raises, both changing nothing |
| `LedgerRuns.ReserveRetry` | hosted/a2a_economic_authority/core.py:697-711 | A retry of an accepted reserve reports `already_exists` exactly while nothing was granted on top of the child, and raises afterwards |
| `LedgerRuns.ReserveRetryRaises` | hosted/a2a_economic_authority/core.py:703-711 | A concrete run: a reservation of 5 out of 10, a grant of 1 to the child, and the same reserve again raises |
| `LedgerRuns.SlotClimbs` | hosted/a2a_economic_authority/core.py:987-1008 | Whatever a delegation still occupies is occupied in every one of its ancestors |
| `LedgerRuns.Quarantine` | hosted/a2a_economic_authority/core.py:987-1008 | Once a delegation with an unknown cost settles, its unspent authority stays in `child_reserved` of every ancestor and in the unreleased slot of every settled one, in all later states |
| `LedgerRuns.TaintedNeverFunds` | hosted/a2a_economic_authority/core.py:719-724 | No reserve and no grant is ever funded again by a delegation that recorded an unknown cost |
| `LedgerRuns.FreezeStep` | hosted/a2a_economic_authority/core.py:1012-1041 | A single request, by anyone, leaves a marked subtree's members, authority, own spend and taint as they were |
| `LedgerRuns.Freeze` | hosted/a2a_economic_authority/core.py:1012-1041 | After a revocation mark on a delegation or an ancestor, its set of descendants, their authority and own recorded spend never change again in any run |
| `LedgerAnswers.CreateRootExactly` | hosted/a2a_economic_authority/core.py:608-662 | A root is opened exactly when the amount is valid and not negative and the id is new; the same opening again is known, any other is a conflict; nothing is ever refused |
| `LedgerAnswers.ReserveExactly` | hosted/a2a_economic_authority/core.py:664-751 | A reservation is made if and only if the amount is valid and not negative, the child is new, and the parent is active, has no unknown cost, stands in no teardown, and has that much of its authority neither spent by itself nor held by a child; repeated, invalid and conflicting requests are told apart |
| `LedgerAnswers.GrantExactly` | hosted/a2a_economic_authority/core.py:755-826 | A new grant is made if and only if the delegation is active outside any teardown and its parent, if it has one, can fund it; a recorded key is known for the same amount and a conflict for any other |
| `LedgerAnswers.ConsumeExactly` | hosted/a2a_economic_authority/core.py:828-882 | A cost is recorded if and only if the delegation is active outside any teardown and, when it is known, has that much left; a recorded key is known for the same cost and a conflict for any other |
| `LedgerAnswers.SettleExactly` | hosted/a2a_economic_authority/core.py:902-1010 | A delegation is settled if and only if it is active and nothing below it is; what it did not spend is released, or withheld when a cost is unknown |
| `LedgerAnswers.MarkExactly` | hosted/a2a_economic_authority/core.py:1012-1041 | A mark is set exactly on an existing delegation without one, and is all that changes |
| `LedgerAnswers.HistoryTells` | hosted/a2a_economic_authority/core.py:580-606 | In every reachable state the log alone tells each delegation's parent and agent, whether and with which outcome it is settled, and how many unknown costs it has |
| `LedgerStore.EconomicAuthorityStore.RevocationInLineage` | hosted/a2a_economic_authority/core.py:519-534 | The parent-link loop ends and answers whether the delegation or an ancestor is marked |
| `LedgerStore.EconomicAuthorityStore.LineageOf` | hosted/a2a_economic_authority/core.py:1058-1070 | The loop returns exactly the chain from the root down to the delegation |
| `LedgerStore.EconomicAuthorityStore.HasActiveDescendant` | hosted/a2a_economic_authority/core.py:884-900 | The stack search ends and finds an active descendant at any depth exactly when there is one |
| `LedgerStore.EconomicAuthorityStore.HasUnknownCost` | hosted/a2a_economic_authority/core.py:1072-1086 | The stack search finds a tainted delegation in the subtree exactly when there is one |
| `LedgerStore.EconomicAuthorityStore.Invariant` | hosted/a2a_economic_authority/core.py:1088-1126 | For an existing delegation the check never reports VIOLATED, and reports PARTIAL exactly when the subtree holds an unknown cost |
| `LedgerStore.EconomicAuthorityStore.CheckEvent` | hosted/a2a_economic_authority/core.py:554-578 | A key recorded with another payload conflicts, one recorded with this payload is a safe retry, anything else is new |
| `LedgerStore.EconomicAuthorityStore.CreateRoot` | hosted/a2a_economic_authority/core.py:608-662 | Keeps the invariant; answer and new tables are those of the specified step, conflicts and invalid amounts included |
| `LedgerStore.EconomicAuthorityStore.Reserve` | hosted/a2a_economic_authority/core.py:664-751 | Keeps the invariant; answer and new tables are those of the specified step |
| `LedgerStore.EconomicAuthorityStore.Grant` | hosted/a2a_economic_authority/core.py:755-826 | Keeps the invariant; answer and new tables are those of the specified step |
| `LedgerStore.EconomicAuthorityStore.Consume` | hosted/a2a_economic_authority/core.py:828-882 | Keeps the invariant; answer and new tables are those of the specified step |
| `LedgerStore.EconomicAuthorityStore.Settle` | hosted/a2a_economic_authority/core.py:902-1010 | Keeps the invariant; answer and new tables are those of the specified step |
| `LedgerStore.EconomicAuthorityStore.MarkRevocationStarted` | hosted/a2a_economic_authority/core.py:1012-1041 | Keeps the invariant; only the mark of the one delegation changes |
| `LedgerStore.DeepSearchIsShallow` | hosted/a2a_economic_authority/core.py:884-900 | Because activity is closed under parent, a delegation has an active descendant exactly when it has an active child |
| `Walks.WalkEnds` | hosted/a2a_economic_authority/core.py:884-900 | When the stack of a descendant walk is empty, everything below the start has been visited |
| `Executor.SubtreeIds` | hosted/a2a_economic_authority/executor.py:242-251 | With other processes' requests between any two reads, the last-in first-out walk of a marked delegation lists exactly its subtree, each member once, parents first |
| `Executor.AncestorsFirst` | hosted/a2a_economic_authority/executor.py:242-251 | In such a list every ancestor stands before each of its descendants, so the reverse order settles leaves first |
| `Executor.SettleCloses` | hosted/a2a_economic_authority/executor.py:748-768 | The loop's own settlement leaves a delegation with nothing active below it settled, and conflicts only with a rival revoke that settled it already |
| `Executor.OwnSettlement` | hosted/a2a_economic_authority/executor.py:748-768 | One iteration, with others' requests before it, leaves the rest of the list settled; a conflict means a rival acted and strictly fewer delegations are left active |
| `Executor.DoRevoke` | hosted/a2a_economic_authority/executor.py:724-769 | A revoke that completes has settled the whole subtree as it was when marked; one that is stopped was overtaken by a rival and left strictly less to do; undisturbed it always completes, and reports as settled exactly the delegations that were active, leaves first |
| `Executor.RevokeAgain` | hosted/a2a_economic_authority/executor.py:724-769 | Run again after every conflict, a revoke ends with the whole subtree settled, in at most one attempt more than there were active delegations, whatever else interleaves |
| `UsdcChain.TransferRules` | examples/agent_economy/local_chain.py:82-134 | A transfer that goes through is inside its window, spends a nonce never spent before, never takes more than the payer held, and touches nobody else's balance |
| `UsdcChain.TransferExactly` | examples/agent_economy/local_chain.py:82-134 | A transfer goes through if and only if it is signed for this payee and amount, inside its window, with an unspent nonce and its value held; it moves exactly that value from payer to payee and spends exactly that nonce |
| `UsdcChain.LocalUsdcChain.TransferWithAuthorization` | examples/agent_economy/local_chain.py:119-134 | Either raises the first failing check and changes nothing, or moves the balance, spends the nonce and records the event |
| `RuntimeBounds.PromptKeepsOk` | examples/agent_economy/authority.py:161-426 | Over any interleaving of durable writes, reads, provider calls, transfers, ticks and crashes in which a chain read of an open payment is directly followed by its clock read, leaving RESERVING happens once, and a leaf is settled without spend only when nothing can settle against it |
| `RuntimeTheorems.PlayKeepsBudget` | examples/agent_economy/authority.py:203-228 | No run of the runtime changes a delegation's authority or parent |
| `RuntimeTheorems.OutflowIsBacked` | examples/agent_economy/authority.py:245-426 | In an orderly state the outflow of a delegation's tree is covered by what its subtree spent or holds, hence by its authority |
| `RuntimeBounds.UnexposedStays` | examples/agent_economy/authority.py:378-426 | A payment whose window is over, or whose signature neither left nor is about to leave, never goes through, whatever happens |
| `RuntimeBounds.PromptMissesNone` | examples/agent_economy/authority.py:411-426 | If every chain read that finds an open payment unused is directly followed by the same process's clock read, or that process dies, no late transfer is missed; reads of payments whose window is over need nothing |
| `RuntimeBounds.OutflowBounded` | examples/agent_economy/authority.py:161-426 | For any such interleaving of processes with crashes anywhere, USDC moved or still movable by sent signatures plus consumed model cost of a delegation's tree is at most its authority |
| `RuntimeBounds.RunBounded` | examples/agent_economy/authority.py:161-426 | The same for whole runs from an empty start, for every delegation the run created, with no other condition |
| `RuntimeBounds.PayerLossBounded` | examples/agent_economy/authority.py:203-426 | In a prompt run whose payments that went through were all made under one delegation, the payer's account lost at most that delegation's authority |
| `RuntimeBounds.SingleWorkLoss` | examples/agent_economy/authority.py:203-426 | In a prompt run from an empty start that opens one work, the payer's account loses at most that work's budget |
| `RuntimeBounds.FinalStatesTell` | examples/agent_economy/authority.py:385-426 | In every prompt run a settled payment went through and is recorded as spent, an expired one can never go through, and a refused or abandoned one was never signed and cost nothing; a payment that went through is settled or still authorized |
| `RuntimeBounds.EndsForGood` | examples/agent_economy/authority.py:385-426 | In every prompt run an ended action stays ended, and a settled or expired one keeps its state |
| `RuntimeCharges.SettledAtItsCharge` | examples/agent_economy/authority.py:285-426 | In every prompt run from the start, whoever closes it and whoever dies on the way, a settled model call is charged on its leaf exactly what one of its bills, cut to the ceiling, or a reconcile, at the full ceiling, decided in that run; a settled payment is charged its amount |
| `RuntimeCharges.MoveKeepsBilled` | examples/agent_economy/authority.py:285-426 | Every move keeps, for every leaf, at most one recorded cost and one outcome, each one decided in the run and told by the action's state |
| `RuntimeRace.ChainReadExact` | examples/agent_economy/authority.py:411-426 | A chain read that finds a payment unused can be followed, after some moves of others, by a clock read that misses its transfer if and only if the window is still open and the signature is, or is about to be, out |
| `RuntimeRace.BudgetSpentTwice` | examples/agent_economy/authority.py:411-426 | A concrete run of 17 moves, with no crash, in which a transfer lands between the chain read and the clock read and a budget of 1 pays out 2 |
| `RuntimeRace.EndsTwice` | examples/agent_economy/authority.py:245-283 | A concrete run in which an action is marked ABANDONED by a reconcile and then REFUSED by the process whose reservation was refused |
| `RuntimeAlone.RunsStayHealthy` | examples/agent_economy/authority.py:161-426 | Every prompt run from the start ends in order, with each leaf's cost and outcome on record as decided: the condition the undisturbed calls below start from |
| `RuntimeAlone.ReconcileAlone` | examples/agent_economy/authority.py:385-426 | Left to itself, reconciling abandons what was never signed or called, settles a call at its ceiling and a payment the chain has used at its amount, expires one whose window is over, keeps any other, settles the leaf it closes, and touches nothing else; it raises if and only if the call has another cost on record |
| `RuntimeStuck.DiesInBetween` | examples/agent_economy/authority.py:285-322 | From every healthy state, a model call that is admitted, billed below its ceiling, and dies after its cost is recorded and before its leaf is settled, becomes stuck |
| `RuntimeStuck.NeverClosed` | examples/agent_economy/authority.py:405-438 | A stuck call is never settled in any prompt run, and every reconciliation left to itself raises when it reaches it, and changes nothing |
| `RuntimeStore.AuthorityRuntime.Transition` | examples/agent_economy/authority.py:161-171 | Changes the action exactly when it is still in the expected state, and says so |
| `RuntimeStore.AuthorityRuntime.Do` | examples/agent_economy/authority.py:203-426 | Performed on the mutable tables, ledger and chain, every step of a process and of its surroundings is the move of the state machine it stands for |
| `RuntimeStore.AuthorityRuntime.RunOut` | examples/agent_economy/authority.py:385-426 | Reconciling one action always ends, whatever other processes do between its steps, and its steps are legal moves; undisturbed it ends as ReconcileAlone says, raising included |
| `RuntimeStore.AuthorityRuntime.Pay` | examples/agent_economy/authority.py:324-383 | Whatever others do, a purchase makes legal moves only, and its signature is sent exactly if it was admitted, signed as given. Undisturbed, it is admitted if and only if its delegation can pay for it outside any teardown and the signature matches, with a fresh nonce; then its leaf exists with its amount, and it ends settled and charged if the seller's transfer went through, expired if the window is over, and authorized otherwise; a refused one is marked, and one that raises leaves what it held |
| `RuntimeStore.AuthorityRuntime.ModelCall` | examples/agent_economy/authority.py:295-322 | A model call makes legal moves only and never signs. Undisturbed, it is admitted if and only if its delegation can pay its ceiling outside any teardown, and then ends settled, its leaf closed and charged the provider's bill cut to the ceiling |
| `RuntimeStore.AuthorityRuntime.ReconcileAll` | examples/agent_economy/authority.py:428-438 | The loop visits the actions open when it started, in order, up to the first that raises, and makes legal moves only. Undisturbed, every visited action ends as ReconcileAlone says, all others and their leaves stay as they were, and it raises exactly at the first stuck call |
| `Credits.TargetMonotone` | hosted/budget_gateway/workspaces.py:343-352 | The floored proportional share stays between nothing and the whole grant and grows with the refund |
| `Credits.RefundKeepsProportion` | hosted/budget_gateway/workspaces.py:321-356 | A refund notice never shrinks a reversal and leaves it the proportional share of the refunded cents |
| `Credits.OnlyLargestCounts` | hosted/budget_gateway/workspaces.py:321-356 | After any notices the reversal is the one the largest of them alone would have made |
| `Credits.RefundsCommute` | hosted/budget_gateway/workspaces.py:321-356 | Two series of notices with the same largest amount, whatever their order and repeats, end in the same reversal |
| `Credits.ProofRerun` | hosted/budget_gateway/workspaces.py:484-513 | Recording a refund transfer again, also after a crash between its two transactions, reaches the same books as recording it once |
| `Credits.ProofRuns` | hosted/budget_gateway/workspaces.py:321-356 | For any sequence of proof calls about a grant's transfers, with crashes and reruns anywhere and notices to `apply_refund` in between: once each transfer has a completed call, the file holds each transfer once and the reversal is the one for their sum, or for the largest notice if that is more |
| `Credits.ProofRunsAgree` | hosted/budget_gateway/workspaces.py:484-513 | Two such sequences over the same transfers and notices, in whatever order, leave the same reversals |
| `Metering.AdmitRefines` | hosted/budget_gateway/workspaces.py:211-238 | Admitting a call keeps each row equal to what its calls say: present iff a call is open or answered, billed iff answered, `inflight` the number open |
| `Metering.FinishRefines` | hosted/budget_gateway/workspaces.py:240-260 | Finishing an open call keeps it, releasing the last unanswered one included |
| `Metering.RestartRefines` | hosted/budget_gateway/workspaces.py:262-269 | A restart, which loses all open calls, keeps it |
| `Workspaces.WorkspaceLedger.HoldRun` | hosted/budget_gateway/workspaces.py:211-238 | Admits exactly known work, work with a free slot left, or work with a credit left; reports the figures after the call; unpaid rows stay within the allowance, paid rows within the runs granted, and no hold takes the balance below zero |
| `Workspaces.WorkspaceLedger.FinishCall` | hosted/budget_gateway/workspaces.py:240-260 | Performs the row update for an open call and keeps the refinement and the allowance |
| `Workspaces.WorkspaceLedger.ReleaseOrphanedHolds` | hosted/budget_gateway/workspaces.py:262-269 | Releases exactly the held rows and counts them |
| `Workspaces.WorkspaceLedger.Grant` | hosted/budget_gateway/workspaces.py:304-319 | Adds a grant for a reference once, and keeps every table invariant |
| `Workspaces.WorkspaceLedger.ApplyRefund` | hosted/budget_gateway/workspaces.py:321-356 | Reverses the proportional share on the first grant that matches the reference or, without one, the external reference, and changes nothing when there is none |
| `Workspaces.WorkspaceLedger.RecordRefundProof` | hosted/budget_gateway/workspaces.py:484-513 | Rejects unknown grants, transfers that back another grant and non-positive new amounts; a crash after the first transaction leaves the proof without the reversal; otherwise reverses for the sum of distinct transfers |
| `Workspaces.WorkspaceLedger.RecordPending` | hosted/budget_gateway/workspaces.py:358-384 | Records a signed attempt once; a repeated one changes nothing |
| `Workspaces.WorkspaceLedger.SettlePending` | hosted/budget_gateway/workspaces.py:386-406 | Settled is final; the reference is granted at most once; a purchase settles exactly when its grant exists |
| `Workspaces.WorkspaceLedger.FailPending` | hosted/budget_gateway/workspaces.py:408-415 | Fails only a pending purchase; a settled one stays settled |
| `Workspaces.WorkspaceLedger.ReconcilePending` | hosted/budget_gateway/workspaces.py:438-462 | With other settle and fail calls before each question and between each answer and its use: it settles exactly the pending purchases whose question the chain answers with used, and fails exactly those answered unused with window and grace over; what it settles was paid, is credited and stays settled; what it fails is never paid, then or later, given that `now` was read before the chain and the grace covers clock skew; a settled purchase stays settled, others' calls apart nothing else changes, and the counts add up |
| `Workspaces.AnswerIsFinal` | hosted/budget_gateway/workspaces.py:438-462 | A nonce seen unused after window and grace, under the validity rule of EIP-3009, is never used afterwards |
| `Workspaces.SettleKeepsCredited` | hosted/budget_gateway/workspaces.py:386-406 | Settling keeps `settled exactly when granted` for its source |
| `Workspaces.SettledWithoutGrantExactly` | hosted/budget_gateway/workspaces.py:386-406 | For a source credited only through purchases, a settled purchase lacks its grant exactly when it bought no runs |
| `Workspaces.SettleNothing` | hosted/budget_gateway/workspaces.py:358-406 | A concrete one: a purchase of no runs is recorded and settled, and has no grant |
| `Workspaces.WorkspaceLedger.OutstandingLiabilityCents` | hosted/budget_gateway/workspaces.py:464-482 | One pass over grants and workspaces computes each workspace's credits at its dearest price, rounded up in all, plus pending purchases |
| `Liabilities.RecordingRaises` | hosted/budget_gateway/workspaces.py:358-384 | A new pending purchase raises the liability by exactly its price |
| `Liabilities.FailingLowers` | hosted/budget_gateway/workspaces.py:408-415 | Failing a pending purchase lowers the liability by exactly its price |
| `Liabilities.SettlingNeverLowers` | hosted/budget_gateway/workspaces.py:386-406 | Settling a pending purchase that brings its grant never lowers the liability, unless its workspace was in debt |
| `Liabilities.SettlingAgainLowers` | hosted/budget_gateway/workspaces.py:386-406 | Settling one that brings no grant, because it has one or bought no runs, lowers it by exactly its price |
| `Liabilities.GrantRaises` | hosted/budget_gateway/workspaces.py:464-482 | A grant changes what is owed for credits by exactly its workspace's credits with the new runs at the dearer price, less those before at the old one |
| `Liabilities.RunLowers` | hosted/budget_gateway/workspaces.py:464-482 | A run that takes a credit lowers what is owed for credits by exactly the dearest price its workspace paid |
| `Liabilities.ReversalLowers` | hosted/budget_gateway/workspaces.py:321-356 | Reversed runs come off exactly the balance of their grant's workspace |
| `Liabilities.TopPriceIsDearest` | hosted/budget_gateway/workspaces.py:464-473 | The dearest price is one that was paid, or zero, and none paid was dearer |
| `Report.FloorFavoursTheBuyer` | hosted/budget_gateway/workspaces.py:343-352 | The floored run reversal gives back at most the refunded share, so each grant's net price is at most its price |
| `Report.NetPriceBound` | hosted/budget_gateway/report.py:183-194 | A workspace's net cents are at most its net runs at the dearest price it paid |
| `Report.SplitCoversCash` | hosted/budget_gateway/report.py:197-202 | For one workspace recognized revenue is at most net cash, and recognized plus deferred is at least net cash |
| `Report.UseMovesRevenue` | hosted/budget_gateway/report.py:197-202 | Each run used moves exactly one net run's share of the cash into recognized revenue and one run at the dearest price out of deferred, until every net run is used: then all the cash is recognized and nothing deferred |
| `Report.UsedIsAnswered` | hosted/budget_gateway/report.py:131-138 | The runs counted as used are exactly the paid ones of which a call was answered |
| `Report.CashByWorkspace` | hosted/budget_gateway/report.py:178-194 | Net cash over all grants is the sum of the workspaces' net cents |
| `Report.Build` | hosted/budget_gateway/report.py:178-202 | Floored recognized revenue never exceeds net cash, with rounded-up deferred revenue it covers net cash, and what is owed adds the pending purchases |
| `Report.ReportCoversLiability` | hosted/budget_gateway/report.py:268-281 | With nothing excluded, deferred plus pending is at least the liability the ledger computes, whatever rows were answered |
| `Report.LedgerIsPaired` | hosted/budget_gateway/workspaces.py:321-356 | Every state of the ledger meets what the report assumes of grants and reversals |
| `Capabilities.RotateLeavesOne` | hosted/a2a_economic_authority/capabilities.py:403-465 | A rotation leaves the fresh token the only live one of its delegation and touches no other delegation's |
| `Capabilities.RevokeLeavesNone` | hosted/a2a_economic_authority/capabilities.py:847-864 | A tree revocation leaves no live token for any listed delegation and touches no other's |
| `Capabilities.ValidateChildScopes` | hosted/a2a_economic_authority/executor.py:324-354 | A list is accepted exactly when it is non-empty and within both the known scopes and the issuer's, and is then granted as asked; with nothing asked for, the default is cut to what the issuer holds; anything else is an error |
| `Capabilities.CapabilityStore.RotateReservationCredential` | hosted/a2a_economic_authority/capabilities.py:403-465 | Supersedes the child's tokens and records the new current one, or rolls back when scopes are bad or nothing binds the child |
| `Capabilities.CapabilityStore.RecordSessionPurchase` | hosted/a2a_economic_authority/capabilities.py:467-547 | Records a nonce once and returns the recorded purchase only to the same buyer, ceiling and fee |
| `Handoff.OthersCannotSpoil` | hosted/a2a_economic_authority/capabilities.py:1010-1038 | Any attempt with any other credential on an unexpired claim is denied and leaves the pending claims unchanged |
| `Handoff.MintKeepsDesk` | hosted/a2a_economic_authority/executor.py:576-606 | Purging, rotating and parking a plaintext keeps the desk in order (see OneWorkingCredential) |
| `Handoff.FinishKeepsDesk` | hosted/a2a_economic_authority/executor.py:356-537 | Every branch of finishing a reserve, parked, refused, retried, recovered or minted, keeps the desk in order |
| `Handoff.MoveKeepsDesk` | hosted/a2a_economic_authority/executor.py:263-322 | So does every move of the server, any request of other processes to the ledger, a teardown, a redemption, a root token and a restart |
| `Handoff.OneWorkingCredential` | hosted/a2a_economic_authority/executor.py:592-606 | Over every run: a child has at most one live token and one pending claim; a pending claim holds its child's live current token with the scopes bound for it; each claim and each token was handed over at most once, to the authorising token |
| `Handoff.ScopesNeverWiden` | hosted/a2a_economic_authority/executor.py:324-354 | Over every run no credential handed over or parked carries a scope that the token which authorised it lacks |
| `Handoff.RedemptionHandsOverLive` | hosted/a2a_economic_authority/capabilities.py:970-1050 | A redemption hands over the live current token of the child, to the live token of its parent that authorised the reservation, while nothing above the child is being torn down |
| `Handoff.MintSupersedes` | hosted/a2a_economic_authority/executor.py:592-606 | After a mint no older token of the child is live and no older claim for it is pending |
| `Handoff.OnlyRecoveryMints` | hosted/a2a_economic_authority/executor.py:391-480 | A request for an existing delegation changes a credential only on explicit recovery by the exact authoriser, with the scopes first bound, while the delegation is active and unrevoked, and never changes the ledger |
| `Handoff.AnsweredExactly` | hosted/a2a_economic_authority/executor.py:356-537 | A credential is minted if and only if the request is a new reservation that its parent can fund outside any teardown and nothing binds otherwise, or a repeated one recovered by its authoriser with the scopes first bound while the child is active and unrevoked; parking, a known reservation, the wrong authoriser, a conflict and a foreign binding each have their exact condition |
| `Handoff.RefusalLeavesOnlyBinding` | hosted/a2a_economic_authority/executor.py:370-523 | A new reservation that does not mint leaves ledger, tokens and claims alone, and at most records its binding; refused scopes or a conflicting binding leave nothing |
| `Handoff.DropDarkens` | hosted/a2a_economic_authority/executor.py:768-769 | The end of a revoke leaves no live token of a non-root member of the subtree and no claim for a member |
| `Handoff.DarkForGood` | hosted/a2a_economic_authority/executor.py:724-769 | From then on no run ever gives the subtree a live token or claim again; only a root's own token can be minted anew |
| `HandoffStore.InMemoryCredentialHandoff.RedeemClaim` | hosted/a2a_economic_authority/capabilities.py:970-1050 | Performs exactly the specified redemption, recording what was handed over and to which token |
| `HandoffStore.InMemoryCredentialHandoff.PurgeForDelegations` | hosted/a2a_economic_authority/capabilities.py:1052-1079 | The loop drops exactly the claims issued by, or for, one of the delegations, and counts them |
| `HandoffStore.EconomicAuthorityExecutor.FinishReserve` | hosted/a2a_economic_authority/executor.py:356-537 | Outcome and new state are those of the specified reserve, branch by branch |
| `HandoffStore.EconomicAuthorityExecutor.DoReserve` | hosted/a2a_economic_authority/executor.py:263-281 | Authorises by the presented credential and binds the reservation to it; answer and new state are those of the specified reserve |
| `HandoffStore.EconomicAuthorityExecutor.ContinueAfterGrant` | hosted/a2a_economic_authority/executor.py:283-322 | Grants to the parked parent and finishes the reserve for the credential that asked, never for the granter; answer and new state are those of the specified one |
| `HandoffStore.EconomicAuthorityExecutor.DropSubtreeAccess` | hosted/a2a_economic_authority/executor.py:768-769 | Revokes the tokens and purges the claims of exactly the listed subtree |
| `Sessions.MoveKeepsSite` | hosted/a2a_economic_authority/sessions.py:225-334 | Each durable step of any purchase or recovery call, a crash, and anything else done to ledger or tokens keep the invariant of paid sessions |
| `Sessions.NonceKeepsSession` | hosted/a2a_economic_authority/capabilities.py:509-547 | In every run a nonce keeps its session id, buyer, ceiling, fee and recovery commitment, and a claim is never undone |
| `Sessions.OnePaymentOneSession` | hosted/a2a_economic_authority/sessions.py:291-334 | Over every run: at most one live root token per session; a secret is given once; after the first for a nonce only recovery gives another; sessions of different nonces differ; a claimed purchase has its root carrying the recorded ceiling plus its grants |
| `Sessions.RootingStands` | hosted/a2a_economic_authority/core.py:627-638 | A call gets past `create_root` exactly when the root is missing or nothing was granted to it, and then the root carries the recorded ceiling; otherwise nothing changes |
| `Sessions.CallFinishes` | hosted/a2a_economic_authority/sessions.py:306-334 | From its root on, a call completes exactly when the root is free, leaves it carrying the recorded ceiling, and returns a plaintext exactly when recovering or unclaimed |
| `Sessions.RecoveryExactly` | hosted/a2a_economic_authority/sessions.py:444-486 | A recovery yields a fresh plaintext exactly when the secret matches and the root is free, and otherwise changes nothing |
| `Sessions.GrantBlocksRecovery` | hosted/a2a_economic_authority/sessions.py:478-486 | Once anything was granted to a session's root, no later purchase retry or recovery gets past `create_root` in any run |
| `Sessions.RecoveryLost` | hosted/a2a_economic_authority/sessions.py:478-486 | A concrete run: a session is bought and its token handed out, 1 is granted to its root, and every recovery with the right secret then changes nothing |
| `SessionCalls.CreateOrRecoverSession` | hosted/a2a_economic_authority/sessions.py:225-334 | Uninterrupted, the function does exactly the three steps; it returns the purchase on record for the nonce, with a plaintext exactly when nobody claimed it, or the one error whose cause holds: bad amounts, other terms, or a root that was granted to |
| `SessionCalls.RecoverSession` | hosted/a2a_economic_authority/sessions.py:444-486 | Uninterrupted, the function does exactly the three recovery steps; it returns the recorded purchase with a fresh plaintext, or is denied for the wrong secret, or raises for a root that was granted to |
| `Scan.RequestFinds` | hosted/job_safe_search/payments.py:196-214 | A ranged log request finds no spending event exactly when no block of the range holds one |
| `Scan.PassKeepsSound` | hosted/job_safe_search/payments.py:176-223 | A pass, wherever it fails or stops, leaves every cursor at or before the finalized head plus one and before any matching block |
| `Scan.NeverSkips` | hosted/job_safe_search/payments.py:176-223 | So do any calls for any keys, while the chain grows and unfinalized blocks are replaced |
| `Scan.PassProgress` | hosted/job_safe_search/payments.py:192-223 | An error-free pass without a match moves its cursor over up to span times requests finalized blocks, none of which matches |
| `Scan.PassExactly` | hosted/job_safe_search/payments.py:176-223 | While the chain stands still, a pass without failures finds a transaction if and only if a block within span times requests of where it resumes, final or not, matches |
| `Scan.PassFails` | hosted/job_safe_search/payments.py:176-194 | Each error of a pass has its cause: a failed request, another chain, or a head behind the finalized one |
| `Scan.FoundInTime` | hosted/job_safe_search/payments.py:176-223 | If a final block at a given distance matches, then among repeated error-free passes for its key, as many as that distance divided by span times requests, one returns the transaction of a final match no later than it |
| `Scan.FoundIsReal` | hosted/job_safe_search/payments.py:208-214 | A returned transaction carries an event that spent the nonce, within the scanned range |
| `Scan.PutKeeps` | hosted/job_safe_search/payments.py:216-220 | Storing a cursor leaves every other one as it was or forgets it, so eviction only causes rescanning |
| `Scan.AlwaysTidy` | hosted/job_safe_search/payments.py:216-220 | Over any calls for any keys the cursor table lists each key once and never outgrows its capacity |
| `Scan.ChainEvidence.FindTransaction` | hosted/job_safe_search/payments.py:176-223 | The loop returns and stores exactly what the specified pass does |
| `Trial.WindowHolds` | hosted/cost_gateway/trial.py:137-150 | Issues that pass the deque test put at most the allowed number into any closed interval as long as the window |
| `Trial.PopKeeps` | hosted/cost_gateway/trial.py:139-141 | Popping the deque leaves exactly as many entries as the full history has within the window |
| `Trial.IssueKeepsSpacing` | hosted/cost_gateway/trial.py:139-170 | An issue with room in the deque keeps the whole history within the limit |
| `Trial.TrialRegistry.Issue` | hosted/cost_gateway/trial.py:126-172 | An address is refused exactly when its full history has the allowed number within the window, although deques are pruned and dropped; the ceiling is judged on live tenants; an issue adds exactly one tenant |
| `Trial.TrialRegistry.LimitsHold` | hosted/cost_gateway/trial.py:126-172 | In every state, for every closed interval and every later moment, the rate limit and the ceiling hold |
| `Trial.TrialRegistry.PruneIssueHistory` | hosted/cost_gateway/trial.py:217-228 | Drops exactly the histories with nothing left in the window |
| `Trial.TrialRegistry.PurgeExpired` | hosted/cost_gateway/trial.py:234-245 | Drops exactly the tenants past expiry and grace, and keeps both limits |
| `Trial.TrialRegistry.TightenForRealKey` | hosted/cost_gateway/trial.py:78-86 | Only ever brings a tenant's expiry forward, and keeps both limits |
| `Trial.TrialRegistry.EndTrial` | hosted/cost_gateway/trial.py:200-215 | Removes one tenant with the id exactly when there is one |
| `Trial.TrialRegistry.LiveTenantCount` | hosted/cost_gateway/trial.py:247-249 | Counts the live tenants, never more than the ceiling |
| `Canonical.CanonicalIsNormal` | hosted/a2a_economic_authority/core.py:196-206 | The canonical string spells the number with as few decimals as it needs |
| `Canonical.CanonicalExactly` | hosted/a2a_economic_authority/core.py:196-206 | Two finite amounts have the same canonical string if and only if they are equal and, when zero, have the same sign |
| `Canonical.NegativeZero` | hosted/a2a_economic_authority/core.py:196-206 | Negative zero and zero are equal amounts with different canonical strings |
| `Migration.MigrateEvents` | hosted/a2a_economic_authority/core.py:375-484 | The loop keeps every row that names a delegation under its key with the rebuilt payload, and adds nothing else |
| `Migration.RebuiltIsLive` | hosted/a2a_economic_authority/core.py:410-454 | An event of any of the five kinds whose delegation survives gets the payload the live method builds for its request |
| `Migration.LivePayloadExactly` | hosted/a2a_economic_authority/core.py:209-214 | Two live requests have one canonical payload exactly when they are the same request up to the spelling of amounts |
| `Migration.RetryRecognised` | hosted/a2a_economic_authority/core.py:375-484 | After the migration an old event is a safe retry for exactly the requests that equal the one it recorded |
| `Migration.UnreconstructedNeverRetried` | hosted/a2a_economic_authority/core.py:455-467 | A row of unknown kind, or of a delegation that is gone, is a safe retry for no request |

## Left out

- Identifier lengths and characters (`core.py:138-147`): identifiers are opaque and only compared.
- The 28-digit decimal context: ledger amounts are exact integers. `Canonical` treats spelling on full decimals.
- SQLite, its transactions and its files: a transaction is one atomic step, and a crash loses memory only.
- HTTP, A2A tasks and artifacts, the x402 SDK and facilitators, Stripe, logging: only the store operations they trigger are modelled.
- Cryptography: signatures either are or are not the payer's, hashes are injective, random draws are fresh.
- Row order by `created_at`: rows are read in insertion order, which the walks' results do not depend on.
- The runtime's processes: each step of `AuthorityRuntime` first lets other processes make any moves that are possible then. An authorization that does not match the admitted purchase, or repeats a nonce, ends the process as the assertion in the code does. The SQL columns `actual_usd`, `tx` and `delivered` are not modelled.
- The runtime's bearer tokens: any delegation that is no action's leaf may act, which allows more than the tokens do. HTTP retries of a paid request and the seller's reply are not modelled.
- OutflowBounded: holds for runs that are prompt, see `ChainReadExact` for why that is needed, from a state in which nobody stands between the two reads of a payment that could still go through.
- RunBounded: holds for prompt runs.
- PayerLossBounded: as OutflowBounded, and for payments under one delegation, since several works share the payer's account.
- SingleWorkLoss: holds for prompt runs.
- FinalStatesTell: holds for prompt runs, as does EndsForGood.
- That every abandoned action's leaf is released under interference, and that `finish` always returns authority: the code promises neither.
- Pay: what it leaves behind is stated for a purchase nobody interferes with, but for the seller's transfer while its signature is out; with others' moves in between it makes legal moves, and the bounds, charges and final states of prompt runs apply.
- ModelCall: what it leaves behind is stated for a call nobody interferes with, as for Pay.
- ReconcileAll: what it leaves behind is stated for a call nobody interferes with, as for Pay.
- SettledAtItsCharge: holds for prompt runs.
- NeverClosed: holds for prompt runs.
- SettlingNeverLowers: a workspace in debt, whose reversals and used runs exceed what it was granted, is owed nothing, so new credits first fill the gap.
- `_authorize_revoke` and the read, consume and settle operations of the executor: one `authorize` call before one ledger request.
- Parked reservations: a grant may resume any request that `authorize` once let through, any number of times, which allows more than the server does. The scopes first issued to a delegation without a binding are a parameter; they decide only between two replies that change nothing.
- `recover_credential` on a delegation created before bindings existed: it mints nothing, as in the code.
- `payment_identifier`: recorded, never compared. Amounts of a purchase are integers; their canonical strings correspond one to one by `Canonical.CanonicalExactly`.
- ReconcilePending: of other calls, settles and fails run between its transactions; new purchases, grants and refunds do not.
- SettleKeepsCredited: about sources credited only through purchases, and purchases of at least one run.
- `month_of`, workspace keys, usage events, statements and the gateway's other reports: each call names its month, and no money depends on the rest.
- Excluded workspaces and wallets in the report: `Build` is given the grants and reversals in scope. Retention, funnel and activation figures are not modelled.
- Reversals are visited through their grants: the table holds none without one, which is an invariant of `WorkspaceLedger`.
- `confirmed`, `settlement_impossible` and `identity` in `payments.py`: single checks of chain answers with no state. Block hashes and RPC formats are not modelled.
- The lock of the trial registry, `lookup`, and `on_purge`: tenants are values in the table, and each method is one step under the lock. The live tenants are counted at one reading of the clock.
- The older `delegations` table's missing column and the schema version: the migration runs as one transaction, and only its event table is modelled.
- `hosted/job_safe_search/metrics.py`, `economics.py`, the AP recovery store and the gateway engines: not part of this model.
