# AgentVault verification

A Dafny model of the AgentVault contract and of what has to agree with it: the
event indexer, the policy verifier, the client's encoders and provers, the
lease lock and the canonical JSON printer. `dafny verify dfyconfig.toml` checks
the whole project.

## How it is built

**The vault.** `VaultState` holds the stored records. `Vault` gives every entry
point as a function `Begin…`: its checks, in the contract's order, and the
effects it commits before its first token transfer; what is then still to be
moved is a `Due`. `Execution` plays the transfers. A call carries, for each of
its transfers, the further calls the token contract makes before and after it
moves the tokens, to any depth, and whether it fails; an error reverts a call
as a whole. A run is any sequence of calls, passages of time and lapses of
expired markers. `AgentVault.VaultContract` is the contract as a class: its
storage is updated in place, it loops where the contract loops, its payouts
call back into `Dispatch`, and every method is proved to do exactly what
`Exec` says. So what is proved about runs is proved about the class.

**Properties of runs.** `Execution.RunKeeps` is the induction principle: a
property `J(state, stack of calls in flight)` kept by each elementary move of a
call holds after every run and at every transfer inside it. `Solvency`,
`Conservation`, `Orchestrators`, `Mirror`, `Accumulators`, `Nullifiers` and
`Sessions` are instances, and so are `Authority`, `Payouts` and `FeeLedger`. `Ledger` proves the books' invariant posting by
posting, and `EntryPoints` that each entry point frees exactly what it then still owes;
`OpShapes` says which part of the state each family of entry points may touch.

**Histories.** The books carry a journal and the lanes a log, and the state the
notes of the calls that took effect with their times; no entry point reads
them. Journal and log are what conservation, caps, replay and drift are stated
against.

**Authority.** `History` reads off the notes alone who is admin, which keys are
open on which terms, which commitments are pinned, which rules are in force, how
a task was made and what became of it. `Records` proves that the stored records
say the same. `Permits` writes down when each entry point goes ahead, and proves
it exact; `Warrants` writes down, on the history alone, what entitles each call.
`Authority` joins them: every call of every run was warranted, and what leaves
the accounts is what warranted calls asked for. `Payouts` does the same for what
is paid out and the fees kept of it, and `FeeLedger` follows the fees.

**Around the vault.** `IndexerStore` and `IndexerRuns` are the indexer's class
and its runs with any number of instances; `IndexerOfVault` joins them to the
vault. `PolicyVerifier`, `Encoders` and `BindingProver` are the byte layer on
both sides, with SHA-256 as a parameter. `Groth16` works over any bilinear
groups; `Groth16.LawsAreConsistent` shows the laws can be met at the contract's
order. `LeaseServer` and `LeaseLock` are the lock; `StableJson` the
printer, read back by `JsonText`, a reader for the grammar of RFC 8259.

## Assumptions

- An address that has to sign is represented by the call itself, and is never
  the vault's own address.
- A verifier's answer is a predicate of its arguments; a verifier that calls
  back into the vault is not modelled. `Accumulators.CapHolds` names what it
  needs of the verifier (`Sound`).
- Injectivity of the public signals needs the hashes of the payees involved to
  differ in more than their three cleared bits (`Signals.DistinctFields`).
- Tokens that reach the vault other than by a deposit, or that it pays to
  itself, are recorded as gifts; the solvency equation has a term for them.
- Markers may lapse 518,400 ledgers after they were written, and ledgers close
  at least two seconds apart.

## Findings

- The 2·cap bound on a rule's window fails in the last representable second of
  ledger time, where the end of the window saturates: there a key can spend any
  multiple of the cap (`LastSecond.CapFailsAtLastSecond`); before that second the
  bound holds (`Sessions.RuleBounds`).
- The mirror drifts from the contract by exactly the session spends, keyless
  spends and settled disputes, which publish no account event
  (`Mirror.MirrorRefines`). An account's row is exact if and only if it had none
  of them (`Mirror.MirrorExact`), and runs that have one exist
  (`Mirror.MirrorDrifts`).
- Registering an orchestrator that has an owner overwrites the reverse lookup:
  it then no longer inverts the configurations
  (`Orchestrators.TakeOverLeavesBehind`). It is the only such step
  (`Orchestrators.InverseKept`), and what the lookup still says is true, so open
  tasks keep the orchestrator their user names (`Orchestrators.NeverStranded`).
- Indexer instances that start at different places can lose events before the
  stored cursor for good (`IndexerRuns.DifferentStartsLeaveHoles`), and so can a
  single one without a configured start that goes down before it has stored a
  cursor (`IndexerRuns.LateBootLeavesHole`). With a common start, kept whenever a
  process starts before there is a cursor, nothing is lost
  (`IndexerRuns.ExactlyOnce`).
- A keyless spend whose global rule is the selected commitment itself rolls the
  accumulator once, with the second proof's flags; the model and its log say so.
- The client's pre-check accepts proofs of 224 to 511 bytes, and over 16,384,
  that the contract refuses (`BindingProver.LocalCheckIsVerdict` gives the exact
  condition).
- Two processes can be inside a lock as soon as a section outlives its lease
  (`LeaseLock.LateSectionsOverlap`).

## Model

| member | source | states |
|---|---|---|
| Authority.EveryCallWarranted | contracts/agent-vault/src/lib.rs:894-4396 | in every run every call that took effect, at any depth, was entitled by the calls before it: signatures, pause, a key open and not paused, expired or revoked, rules met clause by clause, a pinned commitment, an accepted proof under the totals earlier calls left, the task's own orchestrator, user or the resolver in force |
| Authority.DebitsAreAskedFor | contracts/agent-vault/src/lib.rs:1078-3128 | the withdrawals, direct spends, releases and endings on the books are, entry by entry and in order, those the calls asked for, with amounts, owners and what had been spent read off the history |
| Authority.ReleasesProven | contracts/agent-vault/src/lib.rs:2154-2190 | every release of a task under a commitment was made by its orchestrator while its owner had the commitment pinned, and the verifier then in force had accepted exactly this commitment, payee, amount and nullifier, or Groth16 the batch's public signals |
| Authority.DirectSpendsBacked | contracts/agent-vault/src/lib.rs:2586-2592 | every direct spend comes from a key the debited user opened, in force and within its rules, or from a keyless call under a commitment that user had pinned and not unpinned |
| Authority.TracesAreAskedFor | contracts/agent-vault/src/lib.rs:2486-2500 | key payments and accumulator movements are those the calls asked for, and every accumulator, its two window anchors included, is where the history leaves its commitment |
| Authority.RecordsAreTold | contracts/agent-vault/src/lib.rs:1176-1345 | administration, keys, rules, pins, orchestrators and tasks are stored as the calls left them |
| Authority.RevokedIsGone | contracts/agent-vault/src/lib.rs:1325-1340 | a key that was revoked and not opened again has no record and makes no payment |
| Permits.BeginExact | contracts/agent-vault/src/lib.rs:894-4396 | each entry point goes ahead exactly if its conditions on the state hold |
| Permits.RefusedWithoutProof | contracts/agent-vault/src/lib.rs:2181-2190 | when the verifier says no, a proved release of a new step is an error, and that error if nothing else is wrong |
| Permits.RefusedUnpinned | contracts/agent-vault/src/lib.rs:2591-2592 | a keyless spend under a commitment the user has not pinned is an error, whatever the proof |
| Payouts.PayoutsAreAskedFor | contracts/agent-vault/src/lib.rs:1122-3248 | after every run the payouts made are, each once, those the calls asked for: payer, asset, receiver, gross amount and rate |
| Payouts.PayoutHasCall | contracts/agent-vault/src/lib.rs:1446-1488 | each payout was asked for by a call, a single release at the fee configuration in force when that call began |
| Payouts.FeesAreRates | contracts/agent-vault/src/lib.rs:3577-3596 | of every payout with gross g the fee satisfies 10000·fee ≤ g·bps < 10000·(fee+1) for a configuration that was in force, if it has a rate and a recipient, and is zero otherwise |
| FeeLedger.FeesConserved | contracts/agent-vault/src/lib.rs:2903-2927 | for every asset, what has accrued is what the payouts had withheld less what was claimed |
| Permits.FeeExact | contracts/agent-vault/src/lib.rs:3577-3596 | the computed fee is the exact quotient rounded down, and computing it fails exactly when the product has no room |
| Solvency.AlwaysSolvent | contracts/agent-vault/src/lib.rs:1122-1133 | after every run the vault holds of each asset exactly balances less open spend plus fees plus gifts, and every transfer, however deep in re-entrant calls, was handed over by a vault whose tokens cover all debts and all the call has still to pay, with no task beyond its plan cost |
| Solvency.PayoutsNeverFail | contracts/agent-vault/src/lib.rs:2505-2523 | no payout of any run fails for want of tokens, whatever calls the token makes first |
| EntryPoints.BeginBegun | contracts/agent-vault/src/lib.rs:1446-1488 | every entry point keeps the books' invariant and frees exactly what it then still owes, in total and per task |
| Ledger.RecordReleasePosts | contracts/agent-vault/src/lib.rs:3757-3785 | one recorded step keeps locks, counts, indexes, history and the no-repeat rule, and frees its amount |
| Ledger.CloseKeeps | contracts/agent-vault/src/lib.rs:3687-3714 | closing a task, plainly or by a split, keeps the whole invariant |
| Ledger.CloseShifts | contracts/agent-vault/src/lib.rs:3687-3734 | closing frees exactly the refund and payout of a split, and nothing otherwise |
| Execution.RunKeeps | contracts/agent-vault/src/lib.rs:1115-1133 | a property each elementary move keeps holds after every run and at every transfer in it |
| Conservation.AccountConserved | contracts/agent-vault/src/lib.rs:1047-1049 | balance is deposits less spending, withdrawals and dispute refunds, and locked is the sum of the plan costs of open tasks and at most the balance |
| Conservation.ActiveCountExact | contracts/agent-vault/src/lib.rs:1772-1782 | the stored count of active tasks is the number of the user's open tasks |
| Conservation.TaskAgrees | contracts/agent-vault/src/lib.rs:3802-3852 | spend within plan, equal to the sum of step records while open; indexes duplicate-free, matching their markers, nullifiers at most steps at most 256, all empty once completed |
| Conservation.NoStepPaidTwice | contracts/agent-vault/src/lib.rs:1948-1986 | no step of a task is released twice, in any run |
| Conservation.PlanCostConserved | contracts/agent-vault/src/lib.rs:3096-3103 | a completed task has exactly one closing, and its plan cost is net payouts plus fees plus the remainder, returned or split exactly |
| UserExit.ExitFromReachable | contracts/agent-vault/src/lib.rs:2938-2955 | from every reachable state, paused or not, every user has a list of cancellations, exactly the open undisputed tasks, that all succeed and after which the whole balance but the disputed plan costs can be withdrawn from each account |
| UserExit.CancelAll | contracts/agent-vault/src/lib.rs:3648-3706 | every cancellation succeeds in turn, and the account gives up only what the tasks spent |
| UserExit.WithdrawSucceeds | contracts/agent-vault/src/lib.rs:1078-1133 | a withdrawal within the free balance always succeeds, with the stated result |
| Batches.BatchEqualsSequence | contracts/agent-vault/src/lib.rs:2579-2753 | a keyless batch leaves account, fees, receipts, markers and accumulator as its lines one by one in order would, the reset flags on the first only |
| Batches.RoundingLoss | contracts/agent-vault/src/lib.rs:3577-3596 | the lines' fees are at most the exact rate on the total and less than one unit a line below it, so they lose less than that against the fee on the total, and never gain |
| Batches.FeesAccrued | contracts/agent-vault/src/lib.rs:2720-2741 | paying lines adds exactly their fees to what is kept for the recipient |
| Batches.LinesSettle | contracts/agent-vault/src/lib.rs:2715-2752 | without re-entry, settling a batch is paying its lines in order, and fails exactly when that fails |
| Accumulators.CapHolds | contracts/agent-vault/src/lib.rs:2480-2503 | a commitment's accumulator is the replay of all accepted calls under it, and if the verifier accepts only statements within a cap, spend and count since the last reset stay within it across tasks, users and entry points |
| Accumulators.ReplayedSums | contracts/agent-vault/src/lib.rs:2837-2863 | the replayed totals are the plain sums since the last reset, up to their width, and each anchor is the start of validity of the last call that reset its own window |
| Accumulators.AccumulatorsExact | contracts/agent-vault/src/lib.rs:2486-2500 | in every reachable state each stored accumulator is these sums and anchors |
| Nullifiers.NoReplay | contracts/agent-vault/src/lib.rs:2370-2383 | while markers persist no nullifier is consumed by two calls |
| Nullifiers.NoReplayThoughMarkersLapse | contracts/agent-vault/src/lib.rs:2301-2312 | if markers may lapse, a nullifier returns only after the earlier statement's window has closed |
| Sessions.SessionSafety | contracts/agent-vault/src/lib.rs:1301-1316 | a key's record is what it paid, and how often, since it was opened, never above a positive cap, through any update |
| Sessions.EverySpendBounded | contracts/agent-vault/src/lib.rs:1380-1428 | every payment by a key was under a positive cap or a rule of its owner; right before it there is exactly one charge, of its amount and time, for the selected rule and one for the owner's global rule, or one in all if they are the same, and every charge is one of these; the global pointer never dangles |
| Sessions.RuleBounds | contracts/agent-vault/src/lib.rs:1557-1607 | in every reachable state an unchanged rule has allowed at most twice its cap and twice its velocity in any interval of its window's length, and one cap per window begun |
| Sessions.LifetimeTotals | contracts/agent-vault/src/lib.rs:1603-1607 | a rule's lifetime totals are the number and the sum of the payments it was selected or global for, each counted once |
| Sessions.WindowsTold | contracts/agent-vault/src/lib.rs:1557-1607 | each rule's stored windows start where the payments charged to it say, and hold what was paid and counted since |
| Orchestrators.NeverStranded | contracts/agent-vault/src/lib.rs:1662-1722 | after every run and at every transfer in it, each open task's orchestrator is the one its user names, and whomever the reverse lookup gives for an orchestrator names it |
| Orchestrators.InverseKept | contracts/agent-vault/src/lib.rs:1623-1661 | every entry point keeps configurations and reverse lookup inverse to each other, except exactly the registration of an orchestrator that has an owner |
| Orchestrators.LookupIsInverse | contracts/agent-vault/src/lib.rs:1689-1706 | they are inverse after every run in which no call at any depth registers an owned orchestrator |
| Orchestrators.TakeOverLeavesBehind | contracts/agent-vault/src/lib.rs:1643-1646 | a second registration takes the lookup over, and a later update by the second user leaves the first with an orchestrator nobody is found for |
| PublicRules.CheckExact | contracts/agent-vault/src/lib.rs:1516-1609 | a rule lets a payment through exactly if maximum, minimum, calendar, deny-list with its threshold and the first allow-list entry's cap are met and both windows and totals have room |
| PublicRules.RecordExact | contracts/agent-vault/src/lib.rs:1557-1602 | the usage record is where the accepted payments leave it: when each window started and what came since |
| PublicRules.WindowBound | contracts/agent-vault/src/lib.rs:1557-1602 | any history of accepted releases under one rule keeps within twice its cap and velocity in any interval of the window's length |
| PublicRules.LifetimeBound | contracts/agent-vault/src/lib.rs:1557-1581 | lifetime spend is at most one cap per window begun since the first release |
| PublicRules.WindowBoundFailsAtLastSecond | contracts/agent-vault/src/lib.rs:1561-1564 | in the last representable second any rule accepts any number of releases of its whole cap, as far as the widths reach |
| LastSecond.CapFailsAtLastSecond | contracts/agent-vault/src/lib.rs:1557-1581 | every fresh vault in that second has a run in which one key spends n times the cap of its rule, for any n the deposit has room for |
| Mirror.MirrorRefines | services/indexer/src/indexer.ts:78-139 | folding the events gives every account, up to an exact drift, and the active tasks over all assets |
| Mirror.MirrorExact | services/indexer/src/indexer.ts:78-139 | after any run a row shows its account exactly if and only if no session spend, keyless spend or settled dispute was charged to the account, and the balance alone tells; active counts agree if and only if none of the user's disputes was settled |
| Mirror.MirrorDrifts | services/indexer/src/indexer.ts:78-139 | from every fresh vault there is a run, a deposit and one payment by a key, after which the row still shows the whole deposit |
| IndexerRuns.ExactlyOnce | services/indexer/src/index.ts:43-58 | however instances interleave, crash and start again from a common start, what is recorded is a prefix of the stream containing everything before the stored cursor, and the mirror is its fold |
| IndexerRuns.CursorMayMoveBack | services/indexer/src/indexer.ts:147-153 | a slow instance does move the stored cursor back |
| IndexerRuns.DifferentStartsLeaveHoles | services/indexer/src/index.ts:30-37 | of any two instances with different starts in any fresh deployment, the later one can lose every event between the two starts, whatever all instances do afterwards |
| IndexerRuns.LateBootLeavesHole | services/indexer/src/index.ts:30-37 | without a configured start, one instance that goes down before it stored a cursor can lose for good what was emitted meanwhile |
| IndexerRuns.HoleStays | services/indexer/src/index.ts:43-58 | an unrecorded event before the stored cursor that no instance is about to store stays unrecorded under any moves |
| IndexerStore.StoreTwice | services/indexer/src/indexer.ts:44-71 | storing any part of a page again applies nothing twice |
| IndexerStore.RowsOfPage | services/indexer/src/indexer.ts:44-71 | only fresh events reach the mirror, each once, in page order |
| IndexerStore.Indexer.PersistEvents | services/indexer/src/indexer.ts:44-71 | the loop stores the page up to a database failure and returns the number of fresh events |
| IndexerStore.Indexer.ProjectVaultEvent | services/indexer/src/indexer.ts:78-140 | one upsert per event, equal to the projection the mirror folds |
| IndexerOfVault.RowsAreAccounts | services/indexer/src/indexer.ts:30-39 | a caught-up indexer over the vault's own events shows every account up to the drift |
| Signals.SignalsInjective | contracts/agent-vault/src/lib.rs:2426-2456 | two vectors are equal exactly when commitment, batch and accumulator are |
| Signals.SameSize | contracts/agent-vault/src/lib.rs:2442-2449 | the number of active lines can be read off the amount slots |
| Encoders.OutputsRecovered | packages/common/src/groth16-soroban.ts:97-108 | the client reads back from the signals the commitment and exactly the active nullifiers |
| Encoders.FeBytesExact | packages/common/src/groth16-soroban.ts:18-24 | the hexadecimal detour writes big-endian bytes and refuses exactly what does not fit |
| Encoders.FeScalarAgrees | packages/common/src/policy-inputs.ts:71-75 | the client's scalars are the contract's for 64- and 128-bit values |
| Encoders.AmountScalar | packages/common/src/policy-inputs.ts:82-89 | two 64-bit words in a zeroed buffer decode to the amount and are the contract's amount scalar for every positive amount of its width; zero, negative and too large amounts are refused |
| BindingProver.EncodePublicInputs | packages/common/src/policy-inputs.ts:119-138 | the client's joined vector hashes to the contract's public-input hash on every positive amount of the contract's width; it refuses wrong lengths and amounts |
| Encoders.PayeeField | packages/common/src/policy-inputs.ts:60-64 | masking the first byte clears the top three bits of the hash |
| PolicyVerifier.PowerOfTwo | contracts/policy-verifier/src/verifier.rs:115-125 | the bit test holds exactly of powers of two, whose logarithm is the bit length less one |
| PolicyVerifier.ParseVkExact | contracts/policy-verifier/src/verifier.rs:104-132 | a key parses exactly when its header names a power of two and four inputs, with the exact logarithm |
| PolicyVerifier.ReadProof | contracts/policy-verifier/src/verifier.rs:135-166 | reading field by field into arrays gives the header, and fails only on length |
| PolicyVerifier.BuildPublicInputs | contracts/policy-verifier/src/encoding.rs:47-93 | the filled array is commitment, payee hash, amount scalar and nullifier, and the hash is of that |
| BindingProver.KeyFits | packages/common/src/spend-policy-prover.ts:33-36 | the keys the prover fits are exactly those of size 16384 with four inputs at offset one |
| BindingProver.FindOpening | packages/common/src/spend-policy-prover.ts:113-125 | the search returns the first counter that closes the check, and fails exactly when none of the million does |
| BindingProver.BuildBindingProof | packages/common/src/spend-policy-prover.ts:96-137 | the round trip: every proof the prover returns is accepted by the contract under every fitting key for the release it was built for, and by the pre-check; it gives up exactly when none of the million counters closes the check |
| BindingProver.HeaderOfProofBytes | packages/common/src/spend-policy-prover.ts:127-135 | reading the header of the written proof gives the fields back |
| BindingProver.TranscriptsAgree | packages/common/src/spend-policy-prover.ts:38-48 | the client's part-by-part hashes and hand-written domain words give the contract's challenge, linearisation and opening checks |
| BindingProver.LocalCheckIsVerdict | packages/common/src/spend-policy-prover.ts:144-161 | the client's own pre-check (its slices, hashes and words) is the contract's verdict on proofs of 512 to 16384 bytes, and the contract accepts exactly those it accepts of that length |
| BindingProver.ProofBindsRelease | contracts/policy-verifier/src/verifier.rs:189-194 | one proof accepted for two releases exhibits a hash collision |
| Groth16.VerifyGroth16 | contracts/policy-verifier/src/groth16.rs:54-99 | the step-by-step check accepts exactly when the lengths match and the textbook equation holds, for these inputs and for any of the same residues |
| Groth16.InputsReduce | contracts/policy-verifier/src/groth16.rs:65-76 | inputs that agree modulo the order give the same point, so it does not matter who reduces them |
| Groth16.Collapse | contracts/policy-verifier/src/groth16.rs:78-98 | the four-term product is one exactly when e(A,B) is e(alpha,beta)·e(x,gamma)·e(C,delta) |
| Groth16.MsmIsInputPoint | contracts/policy-verifier/src/groth16.rs:65-76 | the multiplication the host does is IC[0] plus each input's multiple, for any number of inputs |
| Groth16.NegOneDecodes | contracts/policy-verifier/src/groth16.rs:25-28 | the constant decodes to the field order less one |
| LeaseLock.MutualExclusion | packages/common/src/redis-mutex.ts:46-65 | if sections end within their lease, no two processes are ever inside |
| LeaseLock.ReleaseHarmsNobody | packages/common/src/redis-mutex.ts:14-15 | a release, however late, never takes an unexpired lease from another process |
| LeaseLock.LateSectionsOverlap | packages/common/src/redis-mutex.ts:19-21 | from any state with a process inside and another out, the other gets in beside it as soon as the lease on the server has run out |
| LeaseServer.Server.Release | packages/common/src/redis-mutex.ts:14-15 | compare-and-delete removes the key only for the stored token |
| StableJson.PrintDecides | packages/common/src/service-verify.ts:41-49 | two JSON values print alike exactly when they are equal up to key order, at any depth |
| StableJson.PrintReads | packages/common/src/service-verify.ts:41-49 | a JSON reader written from the grammar, with or without white space, reads the printed text of a value as the one value equal to it up to key order whose keys ascend in code-unit order |
| StableJson.CanBeArranged | packages/common/src/service-verify.ts:44-48 | every value has such an arrangement |
| StableJson.EscapeReads | packages/common/src/service-verify.ts:42-47 | an escaped string is read back as itself up to its closing quote, surrogates included |
| StableJson.EscapeShortest | packages/common/src/service-verify.ts:42-47 | no text that stands for the same string is shorter, if its surrogates are paired |
| AgentVault.VaultContract.Dispatch | contracts/agent-vault/src/lib.rs:894-4396 | one call through the class does what `Exec` says, and leaves no trace when it fails |
| AgentVault.VaultContract.Deposit | contracts/agent-vault/src/lib.rs:1021-1068 | credits after the transfer |
| AgentVault.VaultContract.Withdraw | contracts/agent-vault/src/lib.rs:1078-1150 | debits before the transfer |
| AgentVault.VaultContract.RegisterSession | contracts/agent-vault/src/lib.rs:1176-1248 | opens a new key, bounded by a cap or an existing rule, with every refusal in order |
| AgentVault.VaultContract.UpdateSession | contracts/agent-vault/src/lib.rs:1284-1321 | never lowers a cap below what is spent, keeps what is spent, and leaves every other key alone |
| AgentVault.VaultContract.ReleaseSession | contracts/agent-vault/src/lib.rs:1347-1511 | cap, selected rule, global rule, account and fee, all committed before the payout |
| AgentVault.VaultContract.CheckPublicRule | contracts/agent-vault/src/lib.rs:1516-1609 | the list scans and window rolls are the rule's clauses and rolled usage |
| AgentVault.VaultContract.RegisterOrchestrator | contracts/agent-vault/src/lib.rs:1623-1661 | overwrites the reverse lookup whoever owned it |
| AgentVault.VaultContract.UpdateOrchestrator | contracts/agent-vault/src/lib.rs:1664-1722 | refuses an orchestrator owned by another user and a user with active tasks |
| AgentVault.VaultContract.CreateTask | contracts/agent-vault/src/lib.rs:1728-1850 | locks the plan cost under the next id |
| AgentVault.VaultContract.CreateTaskWithPolicy | contracts/agent-vault/src/lib.rs:1859-1896 | the same task bound to a commitment |
| AgentVault.VaultContract.ReleasePayment | contracts/agent-vault/src/lib.rs:1902-2050 | one step, paid once; a repeat succeeds idle, another amount conflicts |
| AgentVault.VaultContract.ReleaseProved | contracts/agent-vault/src/lib.rs:2080-2262 | the same behind a policy proof and a per-task nullifier |
| AgentVault.VaultContract.ReleaseBatch | contracts/agent-vault/src/lib.rs:2276-2535 | one proof, one step, up to four payees, each with its own fee |
| AgentVault.VaultContract.VerifyTaskBatch | contracts/agent-vault/src/lib.rs:2426-2501 | the task path's own builder and roll give the specified vector and accumulator |
| AgentVault.VaultContract.VerifyBatchProof | contracts/agent-vault/src/lib.rs:2772-2864 | the helper's builder and saturating roll give the same |
| AgentVault.VaultContract.ReleaseKeyless | contracts/agent-vault/src/lib.rs:2545-2763 | one or two proofs, then the balance, then the lines |
| AgentVault.VaultContract.FinalizeTask | contracts/agent-vault/src/lib.rs:3648-3755 | completes exactly this open task, unlocks, realises the spend, and removes step records and markers one by one until its indexes are empty |
| AgentVault.VaultContract.RemoveTaskStepReleases | contracts/agent-vault/src/lib.rs:3802-3819 | removes exactly the indexed records, then the index |
| AgentVault.VaultContract.RecordStepRelease | contracts/agent-vault/src/lib.rs:3757-3785 | indexes a new step if there is room, and stores its record |
| AgentVault.VaultContract.RecordTaskNullifier | contracts/agent-vault/src/lib.rs:3827-3852 | the same for a nullifier |
| AgentVault.VaultContract.CheckNullifiers | contracts/agent-vault/src/lib.rs:2370-2383 | the nested scan finds the first consumed or repeated nullifier |
| AgentVault.VaultContract.ResolveDispute | contracts/agent-vault/src/lib.rs:3063-3128 | splits the remainder exactly and pays refund and payout |
| AgentVault.VaultContract.TakeFees | contracts/agent-vault/src/lib.rs:3203-3236 | the whole accrual, which is not zero, is taken and set to zero before it is paid |
| AgentVault.VaultContract.ClaimFees | contracts/agent-vault/src/lib.rs:3203-3248 | takes the fees, then pays them out |
| AgentVault.VaultContract.UnpinPolicyCommitment | contracts/agent-vault/src/lib.rs:3328-3356 | rebuilds the list without the commitment, or refuses |

## Left out

- TTLs other than the consumed-nullifier marker's, `upgrade`, a second `init`, getters, logs and event details the mirror does not read: host plumbing.
- The asset index and its flags, the `UserTasks` list and orchestrator names: written but not read by any modelled decision.
- Vault.BeginReleaseKeyless: primary and global nullifiers of one call are not compared with each other, because the contract does not compare them.
- AgentVault.VaultContract.ReleaseBatch: the per-line release events are one event after the last line; no modelled reader tells them apart.
- AgentVault.VaultContract.Administer: the admin entry points are one method, with the same checks.
- The contract's storage is kept in three records of maps rather than a field per key; entries are updated in place inside them.
- Widths of token balances outside the vault, and token fees or rebasing.
- The mirror's decimal column width; amounts are kept in stroops.
- Hexadecimal text as input to the client's encoders, `usdcToStroops`, and the wire form of curve points.
- Invalid curve points, SHA-256, XDR and the circuits.
- `validateSchema`, `resultSigningPayload` and the verification methods around the printer.
- `contracts/registry`, the web app, the API, HTTP clients and scripts.
