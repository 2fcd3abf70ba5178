# Budget ledger, Agent Directory and three compact cores: a verified model

This project models, in Dafny, how traceh keeps hierarchical Budgets and durable Agent identities, and proves properties
of that model. It covers:

- **The Budget ledger** (`Budget`, `Projection`, `Rebuild`). An append-only log of eleven kinds of fact is folded, against
  the Agent Directory, into accounts, child holds, usage holds, charges and token decisions. `Projection` is the fold as
  functions; `Rebuild` is the builder that updates its dictionaries in place, proved to compute the same outcome and the
  same first failure.
- **Its rules, apart from the fold** (`Rules`, `ServiceRules`): for every fact and every mutation the ordered reasons for
  refusing it and what accepting it leaves, over plain fields and sums, which the fold and the guards are proved to follow.
- **Its laws** (`LedgerShape`, `LedgerBooks`, `LedgerBounds`, `Overdraft`, `Conservation`, `FactSlots`): structure, exact
  bookkeeping, capacity, tree-wide conservation, depth and fan-out, token envelopes, frozen closed accounts, one fact per slot.
- **The second stream** (`Directory`, `DirectoryGrowth`, `StaleDirectory`, `ManagedHistory`): exactly when an older ledger
  replays against a newer Directory and a newer ledger against an older one, and why the ledger is read first.
- **The service** (`Service`, `LedgerService`, `GuardGaps`, `Interleaving`): the guards of thirteen mutations, the
  compare-and-swap append with its three-valued commit verdict (`CommitReconciliation`), and any number of clients racing
  each other while Agents are created.
- **Managed creation and process slots** (`Supervision`, `HoldFate`, `ProcessSlots`): the saga reserve, create, commit or
  release under every way each part can end, exactly when a hold stays open, and the slots every running Agent takes of its
  ancestors.
- **Enforcement** (`UsageStart`, `ModelCost`, `Steps`, `StepOvershoot`): owning a started hold, what one model request can
  cost however often it is retried, charging each durable Step once, and the overshoot of the Step limit.
- **Agent creation** (`Registrar`, `CreationRaces`): the creation transaction and its linearization under races.
- **Three compact cores**: the shard scheduler with its 4/3 bound (`Shards`), the unified-diff parser with the round trip of a
  whole printed patch (`Hunks`, `ShellWords`, `UnifiedDiff`, `PatchRules`, `PatchText`, `PathTokens`) and the PowerShell renderer (`CommandLine`).

`Prelude`, `Sums`, `Sorting` and `EventStore` hold what they share. `dafny verify dfyconfig.toml` checks everything.

## How to read the model

- A log is a sequence; the fact at index i has sequence number i + 1. A field a fact refers to is typed, so the parser's
  structural rejections have no counterpart; its cross-field rules are `Budget.ParseIssue`.
- Identifiers are values: a name a caller chose, or `Derived(kind, parts)` for a fingerprint of host-owned identity, which is
  taken to be injective.
- `Weather` is everything one operation can meet: streams that cannot be loaded, facts other writers land first, losing the
  write or only its acknowledgement, a stream that cannot be read again to explain a failure or to return a result, and a
  caller cancelled while it waits. `Turbulence` is what a managed creation meets: the weather of its reserve and of its
  finalizer, a cancellation while either converges, Agents others record meanwhile and how the inner creation ends; `Trouble`
  is the same around a start.
- Worker tasks, shields and exception groups are modelled by their effect: an owned operation converges and its outcome is
  then known, or is the one called torn or cancelled.
- A refused write is an error value; where the source raises, a method returns `Failure` or `None`.

## What the guards do not look at

Eight statements one might expect are false of the code. The model keeps the code, exhibits the failure and gives the exact
condition.

- *A guarded write always replays.* It does if and only if the reservation id is not in use by the other kind of reservation
  and, for a Tool batch, no other dimension is already past its limit (`Service.GuardedWriteReplays`); both failures are
  exhibited for whole families of ledgers (`GuardGaps`). A run's ledger is readable exactly as long as no such write landed
  (`Interleaving.EveryRunIsSafe`), and nothing lands after one (`Interleaving.NothingLandsAfterAClash`). With ids from the
  families the host derives only the Tool half can happen (`Interleaving.OnlyToolsClash`).
- *A newer Directory never hurts.* It is harmless if and only if it names no released hold and names pending holds exactly or
  not at all (`DirectoryGrowth.ReplayGrows`), which a writer can check before recording an Agent
  (`ManagedHistory.CreationKeepsReadable`); one recorded under a released hold's child identity does the harm
  (`ManagedHistory.ReusedChildCorrupts`).
- *The two streams may be read in either order.* Ledger first always replays (`ManagedHistory.LedgerFirstReads`); Directory
  first replays if and only if every fact read stands on Agents already recorded (`ManagedHistory.DirectoryFirstReads`), and
  a good history fails it (`ManagedHistory.DirectoryFirstFails`).
- *Limits are never exceeded.* An account within its limit leaves it if and only if the accepted fact is an observation of it
  that does not fit what is left (`Overdraft.OnlyObservationsOverdraw`), as one does in `GuardGaps.ObservationCanOverdraw`;
  tree-wide bounds therefore carry what was observed (`Conservation.TreeConservation`).
- *A call whose finalizers did not fail leaves no hold open.* An acknowledged reserve that cannot be read back is raised as a
  plain read failure and no finalizer runs (`HoldFate.UnreadReserveLeaks`). A call leaves its hold open if and only if the hold
  was open or the call took it, and no finalizer of the call landed; none runs exactly when the landed reserve went untold
  (`HoldFate.LeftOpenExactly`).
- *A start that does not end in ownership is closed.* It is left active if and only if it landed untold
  (`UsageStart.UsageOwner.StartReserved`).
- *Only an answer can cost more than a request's first reservation.* A retry whose start landed without being owned is settled
  in full or stays reserved (`ModelCost.LostStartCostsASecondReservation`); the statement holds if and only if that did not
  happen to the last attempt (`ModelCost.OnlyAnswersCostMore`).
- *A patch Git prints is read in full.* A patch of text files printed without quotes is, if and only if no path holds a space,
  quote or backslash and no section creates or removes a file without file markers, as Git prints it when the file is empty
  (`PathTokens.BarePatchReadsBack`). A path with a space is refused (`PathTokens.SpaceIsRefused`), a moved file's quoted old name
  is misread (`PathTokens.QuotedNameIsMisread`) and a new empty file is refused (`PathTokens.EmptyFileIsRefused`).

Within one replay the Directory is fixed, so a commit only acknowledges a hold that is already committed, and the branch of
the source that creates an account on commit is never taken (`LedgerShape.CommitEffect`); it is kept in `Projection.CommitHold`.

## Model

| member | source | states |
|---|---|---|
| Projection.ReplayAppend | src/traceh/budgets/projection.py:336-348 | Replaying one more fact is one more step on the ledger the shorter log gives. |
| Projection.ReplayPrefix | src/traceh/budgets/projection.py:336-348 | Every prefix of a readable ledger is readable. |
| Rules.StepFollowsRules | src/traceh/budgets/projection.py:320-708 | For every fact and every sound ledger: replay refuses it exactly when one of the flat, ordered rules is broken, with the code of the first, and otherwise leaves exactly the accounts, holds, usage, charges and decisions the rules say. The rules are stated over plain fields and sums, apart from every function of the fold. |
| Rules.FormFollowsRules | src/traceh/budgets/events.py:463-605 | What is refused by its form alone, whatever the ledger: amounts, limits, reasons, qualities and reservations out of bounds, and the code of each. |
| Rules.DebitFollows | src/traceh/budgets/projection.py:119-242 | A parent can afford a child exactly when every limit narrows, one level of depth is left, and in every dimension what it charged, delegated and reserved plus the grant fits, the retained tokens included; otherwise the first of these that fails gives the code. |
| Rules.RetainedTokensStay | src/traceh/budgets/projection.py:234-242 | After every accepted reservation, and every decision that gives tokens, a parent with a token limit has charged + delegated + reserved + retained within it. |
| Rules.RetainedRefusalExactly | src/traceh/budgets/projection.py:234-242 | With every other rule met, such a grant is refused for the retained tokens if and only if what the parent charged, delegated and reserved, plus the grant, plus what is retained, passes its limit. |
| LedgerShape.StepHasEffect | src/traceh/budgets/projection.py:336-697 | Whatever a fact is, if replay accepts it the ledger changes by exactly that kind's effect: the guards that held, the one account and entry that moved, and nothing else. |
| LedgerShape.EffectKeepsShape | src/traceh/budgets/projection.py:366-517 | Every accepted fact keeps the structure: indexes agree with holds, a hold is committed exactly when the Directory has its child and then the child's account stands, parents are older than children, a parent's limits still admit its holds. |
| LedgerShape.ReservationIsAffordable | src/traceh/budgets/projection.py:390-398 | A reservation that yields a debit is one whose limits narrow the parent's, with the debit being the limits it starts with. |
| LedgerBooks.EffectKeepsBooksAt | src/traceh/budgets/projection.py:107-116 | Every accepted fact keeps all five balances equal to their sums over the facts. |
| LedgerBounds.StepKeepsSound | src/traceh/budgets/projection.py:336-697 | One accepted fact keeps structure, books, capacity, fan-out and token envelopes together. |
| LedgerBounds.ReplaySound | src/traceh/budgets/projection.py:320-708 | Every replayable ledger, of any length, has all of them, and its head is the log's length. |
| Conservation.ExactBookkeeping | src/traceh/budgets/projection.py:427-431 | In every replayable ledger `reserved`, `charged`, `delegated` and the child count are exact sums over holds, charges, settlements and decisions; delegated also equals what children may spend plus what is pending for unborn ones; a bounded account exceeds its limit by at most what it observed. |
| Service.DelegatedCoversHold | src/traceh/budgets/projection.py:499-509 | The subtraction a release performs never goes negative. |
| Service.ReservedCovers | src/traceh/budgets/projection.py:633-641 | The subtraction a settlement or usage release performs never goes negative. |
| LedgerBounds.EffectKeepsCapacity | src/traceh/budgets/projection.py:213-231 | Admissions never pass a limit; only observations can, and only by their own amount. |
| Overdraft.EffectSpendsWithin | src/traceh/budgets/projection.py:213-231 | In every dimension an accepted fact leaves an account's use within its limit or larger by at most what the fact observed. |
| Overdraft.OnlyObservationsOverdraw | src/traceh/budgets/projection.py:533-549 | An account within its limit passes it by an accepted fact if and only if the fact is an observation of that account that does not fit what is left. |
| Overdraft.OverdrawnByTheLog | src/traceh/budgets/projection.py:533-549 | An account past its limit was taken past it by some observation in the log. |
| Conservation.PartConservation | src/traceh/budgets/projection.py:169-231 | For any part of the account forest hanging below an account, everything it charged and reserved fits that account's limit plus what was observed in the part. |
| Conservation.TreeConservation | src/traceh/budgets/projection.py:169-231 | The same for an account's whole subtree, in every replayable ledger and every dimension it bounds. |
| Conservation.StrictTreeConservation | src/traceh/budgets/projection.py:533-559 | Without observations in the dimension the limit of the whole subtree is never exceeded. |
| Conservation.CapsByParent | src/traceh/budgets/projection.py:390-440 | Summing the limits of children parent by parent counts each child account once. |
| Conservation.SubtreeIsBounded | src/traceh/budgets/projection.py:169-212 | A dimension bounded at an account is bounded in its whole subtree. |
| Conservation.DepthAndFanOut | src/traceh/budgets/projection.py:197-201 | In every replayable ledger a chain of accounts below one with `max_depth` n has at most n levels and no repetition, and an account with `max_children` n has at most n unreleased holds. |
| Conservation.TokenEnvelope | src/traceh/budgets/projection.py:269-285 | A token-bounded child holds exactly its initial grant plus all decided increases, within the reserved ceiling. |
| LedgerBounds.ReplayRetains | src/traceh/budgets/projection.py:234-242 | If every grant of a token-bounded parent retains at least R, its delegated tokens are 0 or leave R of its limit. |
| LedgerBounds.ClosedIsFrozen | src/traceh/budgets/projection.py:608-641 | An accepted fact leaves a closed account unchanged although settling and releasing do not look at closure. |
| LedgerBounds.AccountsPersist | src/traceh/budgets/projection.py:662-693 | Along any log an account keeps its parent and, up to token growth, its limits; once closed it never changes. |
| FactSlots.ReplayLogged | src/traceh/budgets/projection.py:342-348 | The log and the remembered operations are the same facts at the same positions. |
| FactSlots.ReplayRemembers | src/traceh/budgets/projection.py:342-348 | Every accepted fact is still visible in the ledger, whatever came after it. |
| FactSlots.OneFactPerSlot | src/traceh/budgets/projection.py:342-348 | In a readable log no operation id repeats, and no child, creation request, token request, reservation id, start, terminal fact, root or closure is claimed twice. |
| Rebuild.Rebuild | src/traceh/budgets/projection.py:321-708 | The in-place rebuild loop returns the replayed ledger, or the first unacceptable fact's code at its position. |
| Rebuild.FailureStays | src/traceh/budgets/projection.py:336-348 | A log with an unacceptable prefix fails with that prefix's code, whatever follows. |
| Rebuild.ReplayIndexes | src/traceh/budgets/projection.py:275 | In every replayable ledger a child has exactly one hold and is found under it, which is what lets a scan stop at the first. |
| Rebuild.Builder.GrantRoot | src/traceh/budgets/projection.py:350-365 | A root needs an ownerless Directory record and no account; it gets a fresh one. Here and below a refusal gives the replay's code and leaves every dictionary as it was. |
| Rebuild.Builder.CheckReservation | src/traceh/budgets/projection.py:366-398 | The checks of a reservation, one after the other, report the code the fold reports first, or the debit and the durable child. |
| Rebuild.Builder.ReserveChild | src/traceh/budgets/projection.py:366-442 | The parent pays, the three indexes gain the hold, and a child that exists already has its account at once, as in the fold. |
| Rebuild.Builder.CommitHold | src/traceh/budgets/projection.py:443-478 | The hold is terminated with the identity's position, and an account is made only if there is none. |
| Rebuild.Builder.ReleaseHold | src/traceh/budgets/projection.py:479-517 | A released hold gives its debit and its child slot back to the parent. |
| Rebuild.Builder.FindHold | src/traceh/budgets/projection.py:275 | The scan over all holds finds a hold of the child, or there is none. |
| Rebuild.Builder.CheckTokens | src/traceh/budgets/projection.py:269-285 | With the scan instead of an index, the checks of a token decision are those of the fold, because each child has one hold. |
| Rebuild.Builder.DecideTokens | src/traceh/budgets/projection.py:518-532 | The parent pays what the child's limit grows by, and the request is recorded as decided. |
| Rebuild.Builder.ChargeUsage | src/traceh/budgets/projection.py:533-560 | Only an admission looks at capacity; either mode records the charge. |
| Rebuild.Builder.ReserveUsage | src/traceh/budgets/projection.py:561-591 | An unused id reserves its amounts of an open account. |
| Rebuild.Builder.StartUsage | src/traceh/budgets/projection.py:592-607 | Only a pending usage hold can be started. |
| Rebuild.Builder.SettleUsage | src/traceh/budgets/projection.py:608-661 | A started hold's reservation is given back and what was settled is charged. |
| Rebuild.Builder.ReleaseUsage | src/traceh/budgets/projection.py:608-661 | A pending hold's reservation is given back and nothing is charged. |
| Rebuild.Builder.AnyPending | src/traceh/budgets/projection.py:668-672 | The scan over all holds says whether one of the account is pending. |
| Rebuild.Builder.AnyActive | src/traceh/budgets/projection.py:676-684 | The scan over all usage holds says whether one of the account is pending or started. |
| Rebuild.Builder.CloseAccount | src/traceh/budgets/projection.py:662-697 | An open account closes exactly when both scans find nothing. |
| DirectoryGrowth.EveryStepMirrors | src/traceh/budgets/projection.py:399-439 | Any accepted step taken against a later, fitting Directory is the same step on the promoted ledger. |
| DirectoryGrowth.ReplayGrows | src/traceh/budgets/projection.py:245-266 | A readable log replays against a grown Directory if and only if the Directory names no released hold and names each pending one exactly or not at all; then pending holds named become committed with fresh accounts and nothing else changes. |
| ManagedHistory.CreationKeepsReadable | src/traceh/budgets/projection.py:245-266 | Recording an Agent keeps the ledger readable if and only if it avoids released holds and takes a pending hold's identities together and for its owner. |
| ManagedHistory.ReusedChildCorrupts | src/traceh/budgets/projection.py:245-266 | An Agent recorded under the child identity of any released hold makes the ledger unreadable. |
| ManagedHistory.HistoryReadable | src/traceh/budgets/projection.py:950-962 | Every moment of a managed history is readable. |
| ManagedHistory.LedgerFirstReads | src/traceh/budgets/projection.py:954-962 | Reading the ledger first and the Directory at the same or any later moment always replays, and shows the earlier ledger with some holds promoted. |
| StaleDirectory.StepGoesBack | src/traceh/budgets/projection.py:245-266 | What replay accepts with a later Directory it accepts with an older one, if every Agent the fact stands on was recorded already. |
| StaleDirectory.AcceptedStandsOnRecorded | src/traceh/budgets/projection.py:245-266 | What replay accepts stands on recorded Agents only. |
| StaleDirectory.StaleReads | src/traceh/budgets/projection.py:245-266 | A log that replays against a Directory replays against an older one if and only if each of its facts stands on Agents the older one records. |
| ManagedHistory.DirectoryFirstReads | src/traceh/budgets/projection.py:954-962 | Reading the Directory first and the ledger later replays exactly when every fact read stands on Agents recorded at the first read. |
| ManagedHistory.DirectoryFirstFails | src/traceh/budgets/projection.py:954-962 | A concrete good history that this other order reports as corrupt. |
| Service.GuardedWriteReplays | src/traceh/budgets/service.py:87-593 | Whatever a mutation decides to write, replay accepts, if and only if no reservation of the other kind has the id and, for a Tool batch, no other dimension is already past its limit. |
| Service.ChildWriteReplays | src/traceh/budgets/service.py:119-177 | A reservation that passes the guards replays exactly when no usage hold has its id. |
| Service.ReleaseWriteReplays | src/traceh/budgets/service.py:249-295 | A release that passes the guards replays although the parent's limits may have grown since. |
| Service.CommitWriteReplays | src/traceh/budgets/service.py:213-247 | A commit that passes the guards replays. |
| Service.SettleWriteReplays | src/traceh/budgets/service.py:491-529 | A settlement that passes the guards replays. |
| Service.ReserveUsageWriteReplays | src/traceh/budgets/service.py:421-452 | A usage reservation that passes the guards replays exactly when no child hold has its id. |
| Service.ToolsWriteReplays | src/traceh/budgets/service.py:314-373 | A Tool batch cut to what is left replays exactly when the other dimensions are within their limits. |
| Service.ToolsFit | src/traceh/budgets/service.py:352-358 | What is left of the Tool calls is always enough for the batch sized by it; how large that batch is, is `ServiceRules.ToolsGetTheLargestPrefix`. |
| ServiceRules.DecisionFollowsRules | src/traceh/budgets/service.py:87-593 | Every mutation but a Tool batch is refused for its form, answered from its own earlier fact, refused as a reuse of an operation id, refused by the first broken rule with its own error, or written, exactly as flat ordered rules over plain sums say. |
| ServiceRules.ToolsGetTheLargestPrefix | src/traceh/budgets/service.py:336-373 | A new batch on an open account with a Tool limit gets n of its calls: all if they fit beside what is charged, delegated and reserved, otherwise exactly what fills the limit, none if it is full; n calls are written, or nothing when n is 0. |
| ServiceRules.ToolsOtherwise | src/traceh/budgets/service.py:314-352 | Every other batch: a size out of range is refused, a repeat is answered from its charge when that is one and refused otherwise, an account that is missing or closed refuses, one without a Tool limit admits all and writes nothing. |
| ServiceRules.RemainingExactly | src/traceh/budgets/service.py:352-358 | What is left of a limit is the limit less everything charged, delegated and reserved, and never less than nothing. |
| GuardGaps.ToolAdmissionCanCorrupt | src/traceh/budgets/service.py:352-370 | For any root with a Step and a Tool limit there is a log on which a written Tool admission makes the ledger unreadable. |
| GuardGaps.SharedReservationIdCanCorrupt | src/traceh/budgets/service.py:147-156 | For any affordable child there is a log on which a written reservation makes the ledger unreadable, under a usage hold's id. |
| GuardGaps.ObservationCanOverdraw | src/traceh/budgets/projection.py:533-549 | For any root with a Step limit there is a readable log on which observed Steps are past it. |
| LedgerService.BudgetLedgerService.LoadContext | src/traceh/budgets/projection.py:950-962 | Yields the Directory and the ledger replayed against it. |
| LedgerService.BudgetLedgerService.Append | src/traceh/budgets/service.py:608-637 | The swap lands exactly when the head is the expected one, and what the caller is told is exact for every fault, conflict, cancellation and failed look-up: true is our own acknowledged write, false another writer's identical fact, a conflict means our fact is absent, a known verdict is the truth. |
| LedgerService.BudgetLedgerService.WriteThrough | src/traceh/budgets/service.py:608-637 | An append that counts as ours returns its replayed entity, unless the ledger cannot be read back: then the caller gets a plain read failure although the fact landed. |
| LedgerService.BudgetLedgerService.Perform | src/traceh/budgets/service.py:87-643 | For every decision and every weather, failed reads before and after the append included: exactly what lands in the log and exactly what the caller is told; the ledger stays readable unless the one written fact clashes, and then the caller is told of a failure. |
| LedgerService.AlreadyEntity | src/traceh/budgets/service.py:596-606 | A repeated operation, Tool admissions included, finds its first fact in the log and its entity in the ledger. |
| LedgerService.LoggedEntity | src/traceh/budgets/service.py:630-637 | A fact in the log guarantees the entity its mutation returns, and a Tool admission the number of calls it admitted. |
| LedgerService.EntityShowsTheRequest | src/traceh/budgets/service.py:630-637 | The entity returned for a recorded request is the account, hold, decision, charge or usage hold under the request's own id, with the fields it asked for and the status it brought about. |
| LedgerService.RepeatWritesNothing | src/traceh/budgets/service.py:336-489 | Repeating any mutation whose fact is in the log writes nothing and returns its entity, for a Tool batch the calls first admitted; only a repeated start is refused. |
| LedgerService.SmoothPerforms | src/traceh/budgets/service.py:87-643 | With nothing in its way a mutation fails only when its guards refuse it. |
| Interleaving.LandingReplays | src/traceh/budgets/service.py:608-637 | A write decided on an older Directory is acceptable when it lands if and only if it did not clash with what its client had read. |
| Interleaving.ClashIsRefused | src/traceh/budgets/service.py:608-637 | A clashing write is refused by every reader, whichever Directory it reads. |
| Interleaving.NextKeeps | src/traceh/budgets/service.py:608-637 | Every step of every client, and every managed creation, keeps every snapshot valid and the ledger readable up to a landed clash. |
| Interleaving.ReadableUnlessClashed | src/traceh/budgets/service.py:608-637 | The ledger can be read if and only if no landed write clashed; everything before that write can always be read. |
| Interleaving.EveryRunIsSafe | src/traceh/budgets/service.py:454-489 | Under any interleaving of load, guard and compare-and-swap of any requests: the ledger is readable exactly when no landed write clashed, up to there each operation id and each slot occurs at most once, and at most one caller is told it started a reservation. |
| Interleaving.NothingLandsAfterAClash | src/traceh/budgets/service.py:608-637 | After a landed clash no write ever lands again. |
| Interleaving.NamespacesUnclash | src/traceh/budgets/enforcement.py:84-87 | With child and usage reservation ids from disjoint families no reservation request can clash. |
| Interleaving.OnlyToolsClash | src/traceh/budgets/enforcement.py:84-87 | In a run whose reservation ids come from the host's families, the only write that can clash is a Tool admission of an account past another limit. |
| Supervision.BudgetedAgentSupervisor.CreateInner | src/traceh/budgets/supervision.py:160-166 | The identity is recorded exactly when the registrar admits it and the inner creation got that far, and a handle is returned exactly when it ended well; the ledger is not written. |
| Supervision.BudgetedAgentSupervisor.Finish | src/traceh/budgets/supervision.py:290-357 | Exactly the commit of a hold whose child the Directory has, the release of one with neither identity, or an error: unread streams, a missing or different hold, or anything in between. |
| Supervision.BudgetedAgentSupervisor.Reserve | src/traceh/budgets/supervision.py:203-240 | An unknown owner ends it; otherwise exactly the outcome of the service's reserve among rivals writing about other holds. |
| Supervision.BudgetedAgentSupervisor.OthersAppear | src/traceh/budgets/supervision.py:160-166 | While a call runs other Agents may be recorded; those that contradict no hold leave both streams readable. |
| Supervision.BudgetedAgentSupervisor.Create | src/traceh/budgets/supervision.py:111-288 | Every call is the reserve, then what its answer calls for: nothing, a finalizer, or other Agents, the inner creation and a finalizer; the report says which, and a handle is returned only after a finished finalizer and no late cancellation. |
| Supervision.FinalizerEffect | src/traceh/budgets/supervision.py:301-357 | Among any facts about other holds, a finalizer terminates its own hold or leaves it as it was. |
| Supervision.CreationIsSafe | src/traceh/budgets/supervision.py:111-201 | Whatever goes wrong: both streams stay readable, new facts are the call's own three or about other holds, every child it recorded or returned has a committed hold, a returned handle's hold is terminated, and nothing is created on a released hold. |
| Supervision.ReserveOutcome | src/traceh/budgets/supervision.py:203-288 | Among any facts about other holds, a reserve takes this call's hold or leaves it as it was; a failure that is not uncertain, cancelled, committed or a failed read took none. |
| Supervision.ReservedIsManaged | src/traceh/budgets/supervision.py:134-166 | A live hold makes its own creation one the ledger stays readable under. |
| Supervision.QuietOpensNothing | src/traceh/budgets/supervision.py:111-201 | Facts about other holds and new Agents neither open nor close a hold. |
| HoldFate.AskedExactly | src/traceh/budgets/supervision.py:203-288 | What a reserve is answered, for every weather: when its commit stays unknown, when the stream cannot be read, when a finalizer or the creation follows. |
| HoldFate.FinishExactly | src/traceh/budgets/supervision.py:290-357 | A finalizer succeeds exactly when it can read, the hold is the call's and its write is acknowledged, or it is a repeat; it closes an open hold exactly when its own write lands. |
| HoldFate.LeftOpenExactly | src/traceh/budgets/supervision.py:111-288 | After a call its hold is open if and only if it was open or this call took it, and no finalizer of the call landed; a call that took it runs no finalizer exactly when the landed reserve went untold. |
| HoldFate.EndingsHaveCauses | src/traceh/budgets/supervision.py:249-357 | Each way a call is not clean if and only if its cause: an unacknowledged reserve that cannot be looked up, a stream that cannot be read before or after the reserve, a finalizer that cannot work. |
| HoldFate.CleanLeavesNothing | src/traceh/budgets/supervision.py:111-201 | A clean call opens nothing, and one whose finalizer finished leaves its hold closed. |
| HoldFate.UnreadReserveLeaks | src/traceh/budgets/supervision.py:249-263 | On any ledger where a reserve is decided: acknowledged but not read back, it leaves the hold open with no child and no finalizer, though nothing else went wrong. |
| HoldFate.CalmCallCreates | src/traceh/budgets/supervision.py:111-201 | With nothing in its way a grant the parent can afford yields the new Agent, its handle, and exactly the reserve and commit facts, with a committed hold of exactly that grant. |
| HoldFate.RefusedCallDoesNothing | src/traceh/budgets/supervision.py:160-194 | A call whose owner is unknown, or whose reserve is refused, changes neither stream and takes no hold. |
| HoldFate.RepeatedCallAnswers | src/traceh/budgets/supervision.py:111-201 | Repeating a finished creation with nothing in its way writes nothing and returns the recorded Agent again. |
| HoldFate.IdsTellCallsApart | src/traceh/budgets/supervision.py:142-159 | Two calls have the same hold exactly when owner, child and creation request agree; children not named by the caller are the same exactly when everything that defines the request is; and no operation id of one step is that of another. |
| HoldFate.RecordsTheSpecification | src/traceh/budgets/supervision.py:134-166 | The Agent a call records has the child identity, the caller's session or the fresh one, and every other field of the specification. |
| HoldFate.OthersAreLeftAlone | src/traceh/budgets/supervision.py:301-340 | A finalizer never touches a hold of another owner, child, request or envelope. |
| HoldFate.OpenExactly | src/traceh/budgets/supervision.py:111-201 | After any history a managed hold is open if and only if some call of its own took it and neither that call nor a later one terminated it. |
| HoldFate.OnlyLostHoldsStayOpen | src/traceh/budgets/supervision.py:111-201 | After any history, in which only the hold's own calls write about it, a hold that is still open was lost by one of those calls, which ended with a failed finalizer, an unknown reserve or an unreadable stream. |
| Supervision.ClosedHoldTellsTheTruth | src/traceh/budgets/supervision.py:301-357 | A hold that is not open is COMMITTED exactly when the Directory has its child and RELEASED exactly when it has neither identity. |
| HoldFate.ManagedCreationLeaksNothing | src/traceh/budgets/supervision.py:111-201 | After any such history in which the hold's own calls were clean, the hold is COMMITTED exactly when the Directory has its child and RELEASED exactly when it has neither identity. |
| ProcessSlots.ProcessSlotAuthority.constructor | src/traceh/budgets/supervision.py:430-434 | Starts with no lease. |
| ProcessSlots.ProcessSlotAuthority.Count | src/traceh/budgets/supervision.py:479-482 | The counting loop computes the number of live leases charging each account. |
| ProcessSlots.ProcessSlotAuthority.CountLease | src/traceh/budgets/supervision.py:479-482 | The inner loop adds one for each ancestor of the lease and nothing for others. |
| ProcessSlots.ProcessSlotAuthority.Charge | src/traceh/budgets/supervision.py:483-491 | Admits exactly when every ancestor is open and has room, charges exactly the bounded ones in order, and otherwise names what stops the first that cannot be charged. |
| ProcessSlots.ProcessSlotAuthority.Acquire | src/traceh/budgets/supervision.py:456-494 | With an ancestor being whoever is reached by following recorded owners: a lease is granted exactly when every ancestor is open and has room; it charges every bounded one and nobody else, under a new token. Otherwise nothing changes and the topmost ancestor that cannot be charged gives the reason. |
| ProcessSlots.ProcessSlotAuthority.Release | src/traceh/budgets/supervision.py:496-498 | Drops the token's lease, once or repeatedly, and no other. |
| ProcessSlots.ProcessSlotAuthority.Held | src/traceh/budgets/supervision.py:500-505 | Counts the live leases charging an ancestor. |
| ProcessSlots.AncestorsExactly | src/traceh/supervision/lifecycle.py:85-106 | The ancestors an admission looks at are exactly the Agents reached by following owners, from a recorded Agent one or more times and from a new one's owner zero or more times, each once and each after all above it; there are none to look at exactly when the Agent or its owner is unknown. |
| ProcessSlots.BelowStays | src/traceh/supervision/lifecycle.py:85-95 | As the Directory grows nobody gains or loses an ancestor. |
| ProcessSlots.ProcessLimitsStand | src/traceh/budgets/projection.py:527-528 | As both streams grow, an account's process limit never changes. |
| ProcessSlots.LiveIsRunningBelow | src/traceh/budgets/supervision.py:479-505 | The live leases charging a bounded account are exactly those of the Agents below it. |
| ProcessSlots.SlotsNeverOverrun | src/traceh/budgets/supervision.py:425-505 | Over any run of acquires, releases and growth, no more Agents run below an ancestor than its `max_processes`. |
| UsageStart.UsageOwner.Close | src/traceh/budgets/enforcement.py:234-261 | A close that succeeds leaves the hold closed, whoever else was writing, and one with nothing in its way fails only when it is refused. |
| UsageStart.UsageOwner.ReleasePending | src/traceh/budgets/enforcement.py:234-261 | Releases a hold only while nobody started it, and succeeds when nothing is in its way and its operation id is unused. |
| UsageStart.UsageOwner.Terminalize | src/traceh/budgets/enforcement.py:264-305 | Releases a pending hold, settles a started one for its full amounts, leaves nothing active, and succeeds when nothing is in its way, its operation ids are unused and the quality suits the dimension. |
| UsageStart.UsageOwner.StartReserved | src/traceh/budgets/enforcement.py:308-388 | Whether this call started the hold is decided by its weather alone, and the caller owns it only then, always if nothing is in its way. Otherwise a finalizer runs, finishes if it can, and leaves nothing pending; a hold this call started is settled in full, or left active if and only if the landed start went untold. |
| UsageStart.StartOutcome | src/traceh/budgets/service.py:454-489 | A start reported as successful is our own landed fact on a pending hold, and a landed start reported otherwise is told exactly which of cancelled, unread, committed or unknown. |
| UsageStart.StartLands | src/traceh/budgets/service.py:454-489 | A start that is decided and met by no rival and no loss lands, and only such a start is reported as successful. |
| UsageStart.KindsTellOperationsApart | src/traceh/budgets/enforcement.py:234-388 | With three different kinds, start, release and settlement of any holds never share an operation id, and one kind shares it only on the same hold. |
| UsageStart.StillSuits | src/traceh/budgets/enforcement.py:234-305 | A hold keeps what it reserved and a finalizer's operation id stays unused, whatever rivals land, unless a rival uses it. |
| ModelCost.AdmittedIsAffordable | src/traceh/budgets/enforcement.py:855-891 | Every admitted reservation lies in 1..remaining, its output ceiling in 1..requested, and with a counter it covers the counted input too. |
| ModelCost.CeilingIsMaximal | src/traceh/budgets/enforcement.py:855-891 | An admitted request may produce as much as there is: its output ceiling is the largest that is within the request and within what is left after the padded input, and with a counter exactly padded input plus ceiling is reserved; by bytes the ceiling is the largest within the request and what is left, and length plus ceiling, or all that is left if less, is reserved. |
| ModelCost.TakesTheBalanceExactly | src/traceh/budgets/enforcement.py:924-943 | A reservation is held to have taken the balance, right after it is accepted, exactly when it is all that was left beside what was charged, delegated and reserved. |
| ModelCost.RefusalsExactly | src/traceh/budgets/enforcement.py:785-891 | Exactly which requests are refused and as what: nothing left, a ceiling below one, a counter that fails or counts below zero, no room for any output, or a retry whose frozen request no longer fits. |
| ModelCost.RetryIsExact | src/traceh/budgets/enforcement.py:803-807 | A retry is admitted exactly when the whole frozen request still fits, and with a counter it reserves the same each time. |
| ModelCost.AdmittedFitsTheAccount | src/traceh/budgets/enforcement.py:785-821 | The ledger's guard accepts an admitted reservation exactly when no other dimension is past its limit. |
| ModelCost.FinishAlwaysSettles | src/traceh/budgets/enforcement.py:629-693 | Whatever way an attempt that settles ends, what it settles is within its reservation and never refused by the ledger. |
| ModelCost.UsageIsNeverHidden | src/traceh/budgets/enforcement.py:893-922 | Exact usage is charged exactly; usage beyond the reservation is never charged as less than all of it and is reported. |
| ModelCost.ChargesExactly | src/traceh/budgets/enforcement.py:264-305 | For every way an attempt ends, exactly what it settles, at which quality, and what its caller is told. |
| ModelCost.RetriesAddNothingSilent | src/traceh/budgets/enforcement.py:596-693 | All attempts of a request take at most the first reservation and those of later attempts that were answered, reported something or landed a start they did not come to own. |
| ModelCost.SilentRunCostsTheFirst | src/traceh/budgets/enforcement.py:629-693 | Failures that report nothing cost a request exactly its first reservation. |
| ModelCost.RequestCostIsBounded | src/traceh/runtime/agent_loop.py:263-432 | When failures report no usage, any number of attempts take at most the first reservation plus that of one last attempt that was answered or landed a start it did not come to own. |
| ModelCost.LostStartCostsASecondReservation | src/traceh/budgets/enforcement.py:264-388 | Two attempts, nothing answered and nothing reported, that take both reservations: the second one's start landed and was lost or left untold. |
| ModelCost.OnlyAnswersCostMore | src/traceh/llm/retry.py:76-96 | Only a final answer adds to the first reservation, if and only if the last attempt did not, on a retry, land a start it did not come to own. |
| Steps.BudgetContinuationRuntime.ChargeStep | src/traceh/budgets/enforcement.py:559-565 | One observation appends only that Step's charge or a rival's fact, on success the Step is recorded, and undisturbed it succeeds. |
| Steps.BudgetContinuationRuntime.Reconcile | src/traceh/budgets/enforcement.py:520-565 | Evidence that disagrees, a missing or closed account, no Step limit and a foreign session end it at once, each with its own result and nothing written; otherwise it fails only on ill-formed Steps or a charge that failed, and undisturbed it succeeds. On success the session's Steps are well formed and, when facts under Step ids are Step charges, every Step is charged by exactly one fact of the log; new facts are rivals' or charges of Steps that had none; when all are charged nothing is written. |
| Steps.IllFormedExactly | src/traceh/budgets/enforcement.py:533-552 | A session counts as ill-formed exactly when some Step start has no readable Step or Turn identity, is numbered below one, or repeats a Step. |
| Steps.StepsToldApart | src/traceh/budgets/enforcement.py:550-564 | The operation ids of two Steps are the same exactly when Agent, session and Step are, and a Step is charged one observed Step. |
| Steps.ChargedExactlyOnce | src/traceh/budgets/enforcement.py:550-564 | A recorded Step is charged by exactly one fact of the log, its own charge. |
| Steps.StaysChargedOnce | src/traceh/budgets/enforcement.py:550-564 | That stays so in every longer readable log, however often reconciliation is repeated. |
| StepOvershoot.OvershootAtMostOne | src/traceh/budgets/enforcement.py:481-518 | With Steps started only after a reconciled check, whatever is delegated or charged meanwhile, an account's Steps never exceed `max_steps` + 1. |
| StepOvershoot.PermitsExactly | src/traceh/budgets/enforcement.py:481-518 | Preflight and Continue let a Step start exactly while every Step of the session is charged and the account, with all it charged, delegated and reserved, is below its limit or has none. |
| CommitReconciliation.CommittedAfterFailure | src/traceh/agents/commit_reconciliation.py:30-77 | True exactly when some readable event matches before any unreadable one, false exactly when all were read and none matches, otherwise unknown. |
| CommitReconciliation.Committed | src/traceh/agents/commit_reconciliation.py:68-77 | With exact comparison the verdict is membership, or unknown when the stream cannot be read. |
| Directory.Rebuild | src/traceh/agents/directory.py:59-111 | The scanning loop, which skips conflicting events and collects issues, returns the folded directory or its first issue. |
| Directory.ConflictsExactly | src/traceh/agents/directory.py:69-111 | Exactly the issues a creation raises and their order: repeated grants alone; otherwise a taken Agent, session or request id, owning itself, an owner nobody recorded. |
| Directory.RebuiltAppend | src/traceh/agents/directory.py:69-111 | One more creation keeps the log readable if and only if it conflicts with nothing before it. |
| Directory.RebuiltIsCoherent | src/traceh/agents/directory.py:69-111 | The three indexes of a readable log agree, records stand in log order and every owner was recorded earlier. |
| Directory.RebuiltGrows | src/traceh/agents/directory.py:69-111 | A longer readable log keeps every earlier record. |
| Directory.IdentitiesUnique | src/traceh/agents/directory.py:87-111 | No two creations of a readable log share an agent, session or request id. |
| Directory.LineageIsAChain | src/traceh/agents/directory.py:94-105 | Walking owners upward ends at a root, goes strictly back in the log and meets no Agent twice. |
| Directory.LineageStable | src/traceh/agents/directory.py:94-105 | An Agent's lineage never changes as the Directory grows. |
| Registrar.RecordsExactlyWhatReplays | src/traceh/agents/registrar.py:130-158 | The registrar's checks admit exactly the creations replay accepts, although they never look for self-ownership. |
| Registrar.PlanExactly | src/traceh/agents/registrar.py:76-181 | For every Directory and request exactly what is decided, in order: repeated grants are refused, a known request is answered when its pinned identities and every defining field agree and refused otherwise, a taken Agent or session and an unknown owner are refused, and the rest is recorded as specified. |
| Registrar.AgentRegistrar.Append | src/traceh/agents/registrar.py:183-274 | Lands exactly when the head is the expected one and the store does not lose it, and exactly what the caller is told: the record, cancelled, a conflict only when our fact is absent, or a failure with the verdict, which is the truth whenever it is known. |
| Registrar.AgentRegistrar.CreateAgent | src/traceh/agents/registrar.py:76-158 | The stream stays readable and gains exactly our fact or the rivals', a returned record is the one replay shows for the request, and for every decision and weather exactly what the caller is told. |
| CreationRaces.NextKeeps | src/traceh/agents/registrar.py:130-211 | Every step of any client, crash or cancellation keeps the Directory readable and all given answers true. |
| CreationRaces.CreationLinearizes | src/traceh/agents/registrar.py:76-181 | Under any interleaving every record ever returned stays the replayed record of its request. |
| CreationRaces.OneAgentPerRequest | src/traceh/agents/registrar.py:160-181 | A retried request id never yields a second Agent. |
| CreationRaces.VerdictsAreTrue | src/traceh/agents/registrar.py:213-274 | "Nothing was written" is only said when our fact is absent. |
| CreationRaces.OwnershipIsAForest | src/traceh/agents/directory.py:87-111 | At every moment of every run identities are unique and ownership is acyclic with a root on top. |
| Shards.LoadsAddUp | tools/ci_shard.py:40-45 | The shards' loads add up to the total weight. |
| Shards.FirstLeast | tools/ci_shard.py:43 | Finds the first of the least totals. |
| Shards.Balance | tools/ci_shard.py:40-45 | The in-place loop fills buckets and totals as the greedy split has them. |
| Shards.ShardFiles | tools/ci_shard.py:27-46 | A shard number outside 1..count and an empty file list are refused, in that order; otherwise the files are that bucket of the longest-first split, in the order of their names. Measured by the table itself, with its default for names it lacks, they take at most (4/3 - 1/(3 count)) times the slowest part of any deal of the file names into count parts. |
| Shards.SortedIsLongestFirst | tools/ci_shard.py:42 | The processing order is longest first. |
| Shards.EveryFileRunsOnce | tools/ci_shard.py:40-46 | What the tool returns over all shard numbers is every file exactly once. |
| Shards.SlowestNearAverage | tools/ci_shard.py:38-45 | count * slowest <= total + (count - 1) * heaviest, for any non-negative weights in any order. |
| Shards.TwiceAnySplit | tools/ci_shard.py:38-45 | The slowest shard is at most (2 - 1/count) times that of any other split. |
| Shards.HeavyFilesFit | tools/ci_shard.py:38-45 | Files heavier than a third of any split's slowest shard are placed within that split's slowest shard. |
| Shards.FourThirdsOfAnySplit | tools/ci_shard.py:38-45 | Longest first, the slowest shard is at most (4/3 - 1/(3 count)) times that of any other split. |
| Shards.ShardsAreBalanced | tools/ci_shard.py:27-46 | For any file names, table and default that are not negative: the tabled duration of every shard is at most (4/3 - 1/(3 count)) times the longest part of any deal of those names. |
| Shards.LoadIsDuration | tools/ci_shard.py:37-45 | What a shard is balanced by is the sum of the tabled durations of its files. |
| Shards.TiesGoByName | tools/ci_shard.py:42 | Files are dealt longest first by their tabled durations, and those of one duration by name. |
| Sorting.SortedIsInOrder | tools/ci_shard.py:46 | Sorting by any order leaves the items in that order. |
| Sorting.NamesExactly | tools/ci_shard.py:42-46 | A name comes before another when it is a prefix of it or smaller at the first place they differ. |
| Hunks.DecimalReadsBack | src/traceh/artifacts/unified_diff.py:258-261 | A printed number is read back. |
| Hunks.RangeReadsBack | src/traceh/artifacts/unified_diff.py:94-96 | A header printed in the unified format, with counts of one written or left out and any heading, is read as the range it states. |
| Hunks.RangeIsStated | src/traceh/artifacts/unified_diff.py:94-96 | Whatever is read as a range was written as one: two sides of digits, each with its count or none, and a heading. |
| Hunks.BodyIsNumbered | src/traceh/artifacts/unified_diff.py:266-309 | Accepted hunk lines are numbered consecutively on both sides from the declared starts and print back to exactly what was read. |
| Hunks.LinesReadBack | src/traceh/artifacts/unified_diff.py:266-309 | Numbered lines are recovered from their printed form. |
| Hunks.HunksAreWellFormed | src/traceh/artifacts/unified_diff.py:253-312 | Every accepted hunk has exactly the declared number of lines on each side. |
| Hunks.HunksReadBack | src/traceh/artifacts/unified_diff.py:253-312 | Parsing any printed list of well-formed hunks gives exactly those hunks. |
| UnifiedDiff.FileBuilder.ParseHunk | src/traceh/artifacts/unified_diff.py:253-312 | The loop accepts exactly the hunks of the specification, stops where they end and adds their lines and counts to the builder. |
| UnifiedDiff.FileBuilder.ReadHeaderLine | src/traceh/artifacts/unified_diff.py:184-248 | One header line moves the builder as the specification function says, or is refused. |
| PatchRules.FormsExactly | src/traceh/artifacts/unified_diff.py:187-196 | A new-file or deleted-file line changes the status of an edited section once and is refused after that; an index line says nothing. |
| PatchRules.RenamesExactly | src/traceh/artifacts/unified_diff.py:197-206 | A rename line makes the section a rename with that side's path, or is refused when no single token follows. |
| PatchRules.OldMarkersExactly | src/traceh/artifacts/unified_diff.py:207-213 | The old file marker is read once, as no file or a path under its prefix, and refused otherwise. |
| PatchRules.NewMarkersExactly | src/traceh/artifacts/unified_diff.py:214-220 | The same for the new file marker. |
| PatchRules.NotesExactly | src/traceh/artifacts/unified_diff.py:238-244 | Mode and similarity lines are kept as metadata lines. |
| PatchRules.OthersAreRefused | src/traceh/artifacts/unified_diff.py:245-247 | A header line of no known form is refused. |
| PatchRules.FinishesExactly | src/traceh/artifacts/unified_diff.py:315-357 | Exactly which sections are accepted, by status, markers and paths, and the path, status, counts and lines each is shown with. |
| PatchRules.BinarySectionReads | src/traceh/artifacts/unified_diff.py:226-235 | From a binary mark on a section is metadata lines, and it is finished as binary, whatever its lines say. |
| PatchRules.BinaryClaimsNothing | src/traceh/artifacts/unified_diff.py:341-348 | An accepted binary section claims no counts. |
| PatchRules.TokensExactly | src/traceh/artifacts/unified_diff.py:385-392 | A path is read exactly when the text splits into one token that decodes to it. |
| PatchRules.SidesExactly | src/traceh/artifacts/unified_diff.py:378-382 | A marker names a path exactly when it is not the null device and its token is the prefix and that path. |
| PatchRules.HeadersExactly | src/traceh/artifacts/unified_diff.py:360-375 | A section line names two paths exactly when it splits into two tokens that decode to them under their prefixes, neither empty. |
| UnifiedDiff.ParseFile | src/traceh/artifacts/unified_diff.py:181-250 | The loop over a section returns the specified file or rejection. |
| UnifiedDiff.TextFileIsExact | src/traceh/artifacts/unified_diff.py:181-356 | In every accepted text file, from the first header on the lines are well-formed hunks, its lines are theirs after some notes, and the reported additions and deletions are the numbers of such lines. |
| UnifiedDiff.PrintedHunksReadBack | src/traceh/artifacts/unified_diff.py:181-250 | Printing well-formed hunks at the end of a section adds exactly their lines and counts. |
| UnifiedDiff.SectionsConcat | src/traceh/artifacts/unified_diff.py:136-143 | Cutting a patch into sections neither loses nor moves a line, and each section line comes first in its section. |
| UnifiedDiff.SplitSections | src/traceh/artifacts/unified_diff.py:136-143 | The in-place loop cuts the sections as specified. |
| UnifiedDiff.ParseSections | src/traceh/artifacts/unified_diff.py:147-152 | Parses every section, or rejects the whole patch at the first that fails. |
| PatchRules.CutsExactly | src/traceh/artifacts/unified_diff.py:136-143 | A patch can be cut into sections exactly when it is empty or its first line is a section line. |
| PatchRules.FilesExactly | src/traceh/artifacts/unified_diff.py:147-152 | Sections are read as files exactly when each is read as its file. |
| PatchRules.DiffsExactly | src/traceh/artifacts/unified_diff.py:102-178 | A patch is shown whole exactly when it cuts into one readable section per expected path with just those paths: its files, in the order of their paths, with their summaries, complete unless one of them claims no counts. Every other patch shows the expected paths with unknown status, nothing else, and is incomplete. |
| UnifiedDiff.ParseUnifiedDiff | src/traceh/artifacts/unified_diff.py:102-178 | Repeated expected paths are refused; otherwise the specified diff of the text's records. |
| PatchText.RecordsReadBack | src/traceh/artifacts/unified_diff.py:126-133 | Lines written with their line feeds are the records read. |
| PatchText.RecordsAreExact | src/traceh/artifacts/unified_diff.py:126-133 | No record holds a line feed, and the records written out again are the text, with a last line feed supplied if it was missing. |
| UnifiedDiff.TotalsAreExact | src/traceh/artifacts/unified_diff.py:154-178 | A complete diff has one file per expected path and totals equal to the lines it shows; an incomplete one claims no totals. |
| ShellWords.SideBySide | src/traceh/artifacts/unified_diff.py:360-363 | Two lines that split on their own split side by side as their words together, whatever quotes they hold. |
| ShellWords.OneWordExactly | src/traceh/artifacts/unified_diff.py:385-391 | Text written without quotes is read as the one word it is if and only if it holds no space, quote or backslash; otherwise what is read is shorter. |
| ShellWords.QuotedIsOneWord | src/traceh/artifacts/unified_diff.py:385-391 | Any text in double quotes with quotes and backslashes escaped, and any text without single quotes in single quotes, is read as the one word it is. |
| ShellWords.BackslashCarries | src/traceh/artifacts/unified_diff.py:385-391 | A backslash outside quotes makes any character part of a word; in double quotes it stays, except before the quote and itself. |
| ShellWords.UnclosedIsAnError | src/traceh/artifacts/unified_diff.py:385-391 | A quote left open, and a backslash at the end, are refused. |
| PatchText.SectionReads | src/traceh/artifacts/unified_diff.py:181-356 | What a section laid out in Git's format is read as, or that it is refused, whatever names its lines carry. |
| PatchText.SectionReadsBack | src/traceh/artifacts/unified_diff.py:181-356 | A printed section whose names are each read as the name they stand for is read as exactly the change it states, unless it creates or removes a file without markers, which Git does when the file is empty: then it is refused. |
| PatchText.PatchCuts | src/traceh/artifacts/unified_diff.py:136-143 | The sections of a printed patch are cut exactly where they were joined. |
| PatchText.PatchReadsBack | src/traceh/artifacts/unified_diff.py:102-178 | A whole patch of text files whose path tokens name their paths is read as exactly the changes it states, complete with totals, if and only if no section is of an empty file created or removed; otherwise no line and no count of it is shown. |
| PathTokens.HeaderReadsExactly | src/traceh/artifacts/unified_diff.py:360-375 | The section line of an unquoted path names it on both sides if and only if the path holds no space, quote or backslash. |
| PathTokens.ReadsNoLonger | src/traceh/artifacts/unified_diff.py:181-356 | A section printed without quotes is never read as naming more than it does, and names strictly less, or is refused, when its paths are not plain. |
| PathTokens.BarePatchReadsBack | src/traceh/artifacts/unified_diff.py:102-178 | A patch of text files printed without quotes is read as exactly the changes it states if and only if no path holds a space, quote or backslash and no section is of an empty file created or removed. |
| PathTokens.SpaceIsRefused | src/traceh/artifacts/unified_diff.py:360-365 | A section whose header Git prints for the path `a b` is refused, whatever follows. |
| PathTokens.QuotedNameIsMisread | src/traceh/artifacts/unified_diff.py:189-198 | A file moved from a name in single quotes is shown as moved from the name without them. |
| PathTokens.EmptyFileIsRefused | src/traceh/artifacts/unified_diff.py:337-340 | The section of any new empty file with a plain path is refused. |
| CommandLine.RenderPowershell | src/traceh/cli/command_line.py:134-148 | Renders exactly when every token is renderable, as the joined pieces. |
| CommandLine.SingleRenders | src/traceh/cli/command_line.py:122-148 | A fixed word of only ASCII letters, digits and the listed marks is emitted bare, so that it runs; every other token is emitted as a quoted string that splits back to exactly it. |
| CommandLine.BareExactly | src/traceh/cli/command_line.py:58-64 | The characters emitted bare are exactly those of the table. |
| CommandLine.RendersOneByOne | src/traceh/cli/command_line.py:142-148 | A command is its tokens, each rendered as on its own, with one space between. |
| CommandLine.QuotedReadsBack | src/traceh/cli/command_line.py:122-132 | A quoted value reads back as itself, whatever quotes it contains. |
| CommandLine.RenderReadsBack | src/traceh/cli/command_line.py:122-148 | Splitting a rendered command under the literal-string rule recovers exactly its tokens. |
| CommandLine.RenderIsInjective | src/traceh/cli/command_line.py:122-148 | Two token lists that render alike are the same list. |
| CommandLine.NothingElseOutside | src/traceh/cli/command_line.py:122-148 | Read by the rule that splits a rendered command, what stands outside its quoted strings is bare characters and spaces. |
| CommandLine.RenderIsInert | src/traceh/cli/command_line.py:48-64 | A rendered command stays on one line, and by the rule that splits it every character outside a quoted string is from the safe set or a separating space. |

## Left out

- LedgerService.BudgetLedgerService.Perform: rival facts land only between the load and the append, and must leave the ledger readable; every finer interleaving, with clashing rivals too, is in `Interleaving`.
- Interleaving.EveryRunIsSafe: while the ledger can be read, creations are those a managed host makes: none takes the identities of a released hold, of a pending hold other than its own, or of a reserve or release a client is about to append; that is what the supervisor's lock and freshly chosen root identities provide.
- Supervision.BudgetedAgentSupervisor.Create: no other writer lands a fact about this call's own hold while it runs, because its id is derived from the call and the source holds its lock throughout, and no usage hold has that id (`Interleaving.NamespacesUnclash`); facts about every other hold may land, and other Agents may appear between the reserve and the inner creation.
- Supervision.BudgetedAgentSupervisor.AClose: closes admission only; closing the wrapped supervisor is not part of this model.
- Supervision.BudgetedAgentSupervisor.CreateInner: the wrapped supervisor is the registrar's decision plus one of three endings, cancellation being one that fails; activations, sessions and handles are not part of this model.
- HoldFate.ManagedCreationLeaksNothing: says nothing of a hold one of whose calls was not clean; `HoldFate.OpenExactly` says exactly when such a hold is open.
- UsageStart.UsageOwner.StartReserved: the wall clock of a turn and the provider call between start and settlement are not modelled, only the hold around them.
- ModelCost.RequestCostIsBounded: the retry loop is modelled by what it promises, that only a provider's failure is followed by another attempt; delays and failure categories are left out.
- ModelCost.AdmittedIsAffordable: the counter and the byte length are arbitrary functions of the request.
- Steps.BudgetContinuationRuntime.Reconcile: the cross-check of model attempts against the ledger, which runs first and writes nothing, is a parameter, and an account that closes halfway is left out; charging exactly once assumes that facts under an id derived from a Step are that Step's charge.
- StepOvershoot.OvershootAtMostOne: the Agent loop is modelled by its promise that a Step starts only after preflight or Continue.
- ProcessSlots.ProcessSlotAuthority.Acquire: asyncio locking is taken as serial calls; activation and disposal around a lease are not modelled; the two errors for an unknown Agent and an unknown owner are one.
- ProcessSlots.SlotsNeverOverrun: a lease belongs below the owner its Agent had or was given when it was taken; an Agent later recorded under another owner than its lease was taken for is not moved.
- CreationRaces.CreationLinearizes: all writers of the Directory stream are registrars.
- Registrar.AgentRegistrar.CreateAgent: identifier syntax and metadata bounds are checked before anything is read and are left out, except that grants must be distinct; assigned identities are parameters.
- Shards.ShardsAreBalanced: weights are real numbers, so float rounding is not modelled, and the median default is a parameter.
- UnifiedDiff.ParseUnifiedDiff: takes the decoded text; byte decoding is left out, and decoding a token's octal and letter escapes is a parameter, so an octal escape above 377, on which the source raises, reads as a refused token.
- PatchText.PatchReadsBack: the printed patches are of text files; a binary section keeps its path and claims no counts, and its lines are not printed back. Names are tokens that are read as the name they stand for; which unquoted ones are is `PathTokens`, and which quoted ones are depends on the decoder.
- PathTokens.BarePatchReadsBack: asks of the decoder that it leaves a token without backslashes alone and lengthens none; an edited file without file markers is printed unquoted only with a plain path, since its section line is all there is to read (`PathTokens.HeaderReadsExactly`).
- Hunks.RangeReadsBack: digits are the ASCII ones.
- CommandLine.RenderReadsBack: the splitter is the documented literal-string rule with its one quote character, not a whole shell, so shells that take typographic quotes for that character are outside it; the Unicode categories of unsafe characters are a parameter.
- Event sequence, stream and schema checks, exact key sets, hostile Python objects and canonical JSON: facts are typed values.
- Inbox acceptance: the same append protocol as the Directory and strictly simpler.
- Tool admission decisions, POSIX quoting and display escaping: each follows its input item by item.
- SQLite and the in-memory store, Git, Docker, DPAPI, the TUI, configuration, product projections and their transition tables: I/O, or small finite tables.
