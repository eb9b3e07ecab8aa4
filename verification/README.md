# Verification of Reprove's Run protocol, migration generator and Sandbox boundary

A Dafny model of the parts of Reprove where a mistake would not show in one function, and
proofs of what those parts are for:

- **The Run protocol.** Deliveries from GitHub, dispatchers, lifecycles, hosted passes,
  Acceptance and loss detectors all write one Run row and one ledger row, one conditional
  update at a time, and any step may crash or be run again. `RunRow` holds the updates,
  `Lifecycle` the loop of one lifecycle beside writers it cannot see, `Dispatch` the two
  start-then-record windows, `Protocol` every interleaving of them over one Run. `RunTable`,
  `Ingress`, `IngressSafety` and `IngressPromises` are every interleaving of delivery
  processors over many pull requests, and `RunCreation` the critical section as one
  transaction runs it, and why that is a step of `Ingress`.
- **The migration history.** `Force` is the grammar of a generated migration, `History` its
  attribution, fold and delta, `Generator` the append-only generator over whole histories,
  `MigrationFolder` the generator at work on a folder. `Predicate`, `NormalForm`,
  `RoundTrip` and `Spelling` are the policy predicate's normal form, over UTF-16 code units.
- **The Sandbox.** `Arguments` and `ArgumentAudit` are the argument vector and its audit,
  `Attestation` what an instance is held to, `AttestedVector` the two against each other,
  `Provider` the launch pipeline against a runtime that may fail at any invocation, `Access`
  what a close must release.
- **Encodings.** `JsText`, `Utf8` and `Decimal` are JavaScript strings, UTF-8 (section 3 of
  RFC 3629) and JSON strings (section 7 of RFC 8259); `Narrative` the bounded file a Reviewer
  reads; `KeyOrder` and `Canonical` the serialization under `configDigest`.
- **The Worker boundary.** `Worker` is the eleven steps of one Run over ports that may return
  anything or throw.

`dafny verify dfyconfig.toml` checks everything.

## How the environment is modelled

Postgres is READ COMMITTED: each statement is one atomic conditional update over what is
committed, a transaction's writes show at its commit, the rows it has written are locked
until then, and the pull request's advisory lock is released after the commit. No unique
index is assumed. In `Protocol` and `Ingress` every step is its own transaction, statements
of one transaction are separate steps, and crashes and re-runs are steps like any other; the
settlement of a delivery and the commit after it are one step, because the ledger row is
locked between them. Where a loop or a pipeline is a method (`Lifecycle`, `Dispatch`,
`RunCreation`, `Provider`, `Worker`), the rest of the system acts between its steps by a
nondeterministic choice bounded only by what the statements allow, and a workflow step runs
at least once.

A container runtime may reject any invocation, report anything, and take effect or not,
within the invocation; it makes only what it was told to make; a listing that succeeds names
a resource exactly when it exists; and a drawn id is not one already in use. `Provider` and
`Worker` keep a log of what their ports were asked and answered, written by the ports alone,
and what they promise is said of that log.

## Where the code is not what its documentation says

- `ingressDelivery` re-runs its first step when the platform loses the answer of a step that
  committed. Only the attempt that made a Run ever names it
  (`IngressPromises.AnswerNamesTheRun`), so after that no lifecycle is dispatched for the Run
  and the Runs it ended are not notified; `IngressPromises.LostAnswerNamesNothing` is a run of
  the system in which it happens.
- A lifecycle that lost its Run is to cancel the pass the Run records. It does exactly when it
  is told that its write won and had read that pass before it
  (`Protocol.PassCancelledExactly`). A mark between the read and the write leaves the pass
  running (`Protocol.LateMarkOutlives`), and so does a step that wrote, crashed before it
  answered and was run again (`Protocol.LostAnswerOutlives`).
- `force.ts` calls the parser the renderer's exact inverse. It is, for names the grammar can
  carry (`Force.ParseInvertsRender`); a name with a quote or a newline in it makes the
  generator append one refused file after another (`Generator.SecondEmitIsNothing`).
- `forceStateProblems` is documented as empty when the delta is empty. It is empty exactly
  when the delta is and no table is classified both ways (`History.ProblemsAndDelta`).
- `predicate.ts` says a join cannot forge a token boundary. It can, through a quoted
  identifier that holds a quote (`RoundTrip.DoubledQuotesForge`), and only so
  (`RoundTrip.EqualFormsEqualTokens`); `RoundTrip.RoundTripsExactly` is the exact condition.
- The narrative's cut content is a prefix of what was written exactly when the kept prefix
  holds no lone surrogate (`Narrative.CutIsPrefix`).

## Model

| member | source | states |
|---|---|---|
| RunRow.StatementKeeps | packages/control-plane/src/run/lifecycle.ts:73-310 | every conditional update keeps the row's shape, never rewrites a lifecycle, a deadline or a pass, and only advances the status |
| RunRow.OneEnding | packages/control-plane/src/run/eligibility.ts:1-36 | under any interleaving of the updates a Run ends at most once and names at most one lifecycle; an accepted Result and a loss never both hold |
| RunRow.RacersExclude | packages/control-plane/src/run/eligibility.ts:56-84 | after Acceptance or the loss has won, the other never matches again, whatever comes between |
| RunRow.AbandonedIsClosable | packages/control-plane/src/run/lifecycle.ts:227-310 | an owned Run can be closed by its recorded lifecycle exactly from its deadline on, and by its token, whether or not a pass was recorded; what it was lost from is its old status |
| Lifecycle.StatementsEnsue | packages/control-plane/src/run/lifecycle.ts:1-50 | what the loop allows other writers covers every sequence of updates |
| Lifecycle.OthersOnlyLower | packages/control-plane-workflow/src/lifecycle.ts:286-300 | nothing others do, and no time passing, raises the loop's measure |
| Lifecycle.Plane.Step | packages/control-plane-workflow/src/lifecycle.ts:354-408 | an at-least-once step's answer is that of its last run, evaluated where it ran; if any run matched, the Run names this lifecycle |
| Lifecycle.Plane.CancelPass | packages/control-plane-workflow/src/lifecycle.ts:447-455 | a pass is cancelled only where the Run has failed and records that pass |
| Lifecycle.AwaitRecord | packages/control-plane-workflow/src/lifecycle.ts:607-638 | the empty column is left alone for the whole grace, and after the self-record it is not empty |
| Lifecycle.CloseWindow | packages/control-plane-workflow/src/lifecycle.ts:640-689 | a window is closed only past its deadline and under this lifecycle's name, and a lost write means the Run has left it |
| Lifecycle.RunLifecycle | packages/control-plane-workflow/src/lifecycle.ts:542-693 | at most twelve reads; the outcome is true of the Run; an orphan wrote nothing; a pass is cancelled only by the lifecycle that failed its Run; on return the Run is over or names another |
| Dispatch.DispatchLifecycle | packages/control-plane-workflow/src/ingress.ts:172-219 | one lifecycle is started, before anything is written; it is kept exactly when the Run names it and otherwise cancelled, once, where the Run names another or is not visible |
| Dispatch.DispatchHostedRun | packages/worker-hosted/src/dispatch.ts:145-179 | nothing is started unless the claim was granted, and then one pass under the token just granted; it is recorded together with the move to executing; unrecorded means the Run left claimed |
| Protocol.IssueKeeps | packages/control-plane/src/run/lifecycle.ts:73-310 | every update by anyone keeps the protocol's invariant |
| Protocol.ActingKeeps | packages/control-plane-workflow/src/lifecycle.ts:607-692 | every write of a lifecycle on a stale read, answered or crashed and run again, keeps the invariant |
| Protocol.DispatchStepKeeps | packages/control-plane-workflow/src/ingress.ts:195-219 | starting, recording, reading back, cancelling and crashing keep the invariant |
| Protocol.StepKeeps | packages/control-plane-workflow/src/lifecycle.ts:571-693 | every step of every participant keeps the invariant |
| Protocol.NamedIsAtWork | packages/control-plane-workflow/src/ingress.ts:138-165 | in every reachable state the lifecycle column was written at most once, the Run ended at most once, and a live Run that names a lifecycle names one still in its loop |
| Protocol.CancelledOnlyWhenSafe | packages/control-plane-workflow/src/lifecycle.ts:436-455 | a stopped lifecycle is one the Run does not name; a cancelled pass is that of a lost Run, and the one it records |
| Protocol.PassCancelledExactly | packages/control-plane-workflow/src/lifecycle.ts:645-681 | at the write that loses a Run it is decided whether the recorded pass is ever cancelled, whatever happens afterwards: exactly when the write is answered for and the lifecycle had read that pass |
| Protocol.OutcomeNamesThePass | packages/control-plane-workflow/src/lifecycle.ts:661-681 | a lifecycle that knows it lost the Run left its recorded pass running exactly when the Run was lost from executing and the outcome names no pass |
| Protocol.LateMarkOutlives | packages/worker-hosted/src/dispatch.ts:145-179 | from a new Run on, a mark between the lifecycle's read and its write leaves a failed Run with a running pass |
| Protocol.LostAnswerOutlives | packages/control-plane-workflow/src/lifecycle.ts:396-408 | and so does a closing step that wrote, crashed and was run again, although the pass had been read |
| IngressSafety.TryLockKeeps | packages/control-plane/src/github/run-creation.ts:149-161 | the try-lock admits one processor per pull request, and its loser decides nothing |
| IngressSafety.CheckKeeps | packages/control-plane/src/github/run-creation.ts:181-191 | the ledger check under the lock keeps the invariant |
| IngressSafety.ReadIsNewest | packages/control-plane/src/github/run-creation.ts:14-31 | a read under the lock is newer than every committed read of its pull request |
| IngressSafety.SweepKeeps | packages/control-plane/src/github/run-creation.ts:224-253 | ending the live Runs locks exactly those it matched |
| IngressSafety.ProbeKeeps | packages/control-plane/src/github/run-creation.ts:256-273 | the duplicate-head check and the insert keep the invariant |
| IngressSafety.AdvanceKeeps | packages/control-plane/src/db/schema-values.ts:124-143 | a Run moving on at any moment, unless its row is locked, disturbs no processor |
| IngressSafety.CommittedTable | packages/control-plane/src/github/run-creation.ts:335-363 | the table any decision commits has one live Run per pull request, one Run per head, and its live Runs at the head the committed reads put in force, of which a closed pull request or a draft has none |
| IngressSafety.CommittedLedger | packages/control-plane/src/github/processing.ts:16-27 | Run and conclusion commit as one fact: done rows are those of deliveries that made a Run |
| IngressSafety.ConcludeKeeps | packages/control-plane/src/github/processing.ts:272-295 | a commit keeps the invariant and disturbs no other critical section |
| IngressSafety.ReachableSound | packages/control-plane/src/github/run-creation.ts:378-432 | the invariant holds in every reachable state |
| IngressPromises.ReadsTakeEffectInOrder | packages/control-plane/src/github/run-creation.ts:14-31 | canonical reads take effect in the order they were made; every live Run sits at the head of the last committed review that found its pull request open and ready; once a read found it closed or a draft none of its Runs is live, until such a review |
| IngressPromises.CommitsTheNewestRead | packages/control-plane/src/github/run-creation.ts:27-31 | no commit uses a read older than one already committed for its pull request |
| IngressPromises.OneRunWhereOneIsMeant | packages/control-plane/src/github/run-creation.ts:316-363 | at most one live Run per pull request and one Run per head, without a unique index |
| IngressPromises.EndedRunsExactly | packages/control-plane/src/github/processing.ts:166-184 | the ended Runs a delivery reports are exactly those its transaction ended, with their statuses |
| IngressPromises.DoneExactlyWhenMade | packages/control-plane/src/github/processing.ts:9-27 | a delivery makes at most one Run and its row is done exactly when it has |
| IngressPromises.CreatingSettles | packages/control-plane/src/github/processing.ts:272-295 | a creating attempt always settles its delivery, in the same commit, and says so |
| IngressPromises.ConcludedForGood | packages/control-plane/src/github/ledger.ts:237-257 | no step changes a done or discarded row |
| IngressPromises.ConcludedForEver | packages/control-plane/src/github/ledger.ts:211-232 | nor does any sequence of steps |
| IngressPromises.RedriveReportsNothing | packages/control-plane-workflow/src/ingress.ts:122-132 | driven again after its commit, a delivery reports no Run and no ended Run |
| IngressPromises.AnswerNamesTheRun | packages/control-plane-workflow/src/ingress.ts:122-132 | an attempt's answer names its delivery's Run exactly when there is one after it and the delivery was still open to it |
| IngressPromises.LostAnswerNamesNothing | packages/control-plane/src/github/run-creation.ts:181-191 | a run of the system in which the second attempt answers nothing while the Run stands queued |
| RunCreation.Transaction.EndLiveRun | packages/control-plane/src/github/run-creation.ts:224-253 | exactly the live Runs not at the spared head are ended, there is at most one, and it is the one answered |
| RunCreation.Transaction.InsertRun | packages/control-plane/src/github/run-creation.ts:282-325 | one queued Run at the canonical head is added |
| RunCreation.Transaction.DecideEligible | packages/control-plane/src/github/run-creation.ts:335-363 | whatever moves between the statements, what is left live is at the canonical head, and a Run exists there |
| RunCreation.Transaction.SettlePullRequest | packages/control-plane/src/github/run-creation.ts:378-432 | the decision is true of what the transaction left, writes exactly what it names, and creates only under the lock over an open delivery |
| RunCreation.Transaction.SettleDelivery | packages/control-plane/src/github/ledger.ts:183-257 | only an open row takes a settlement, and each one it takes is counted |
| RunCreation.Transaction.ProcessDelivery | packages/control-plane/src/github/processing.ts:251-314 | one attempt: the row is done exactly when a Run was made or it was done before, a concluded row and its Runs are left alone, and what is left is what the interleaving model commits for a sound decision |
| Force.ParseForceMigration | packages/control-plane/src/db/force.ts:268-303 | the line loop computes the parse the lemmas are about, errors included |
| Force.ParseInvertsRender | packages/control-plane/src/db/force.ts:236-303 | a text is accepted as a list of operations exactly when the list is not empty, its names can be carried, and the right-trimmed lines are those of its rendering, last newline optional |
| Force.ReadLinesRefuses | packages/control-plane/src/db/force.ts:281-298 | a refusal names the first line that is not a statement, by number and text |
| Force.RenderedParses | packages/control-plane/src/db/force.ts:245-259 | what is rendered parses as what was rendered |
| History.WantedHolds | packages/control-plane/src/db/force.ts:410-424 | every classified table is wanted once, and a table classified both ways is wanted forced |
| History.DeltaHolds | packages/control-plane/src/db/force.ts:381-429 | the delta holds, once each and in key order, exactly the wanted operations the state does not meet |
| History.EmptyDelta | packages/control-plane/src/db/force.ts:391-429 | the delta is empty exactly when the history agrees with the classification |
| History.DeltaSettles | packages/control-plane/src/db/force.ts:391-408 | applying the delta settles every classified table and touches no other |
| History.ProblemsAndDelta | packages/control-plane/src/db/force.ts:431-477 | the check is silent exactly when the delta is empty and no table is classified both ways |
| History.StateCarriable | packages/control-plane/src/db/force.ts:366-389 | only names the grammar can carry ever reach the effective state |
| MigrationFolder.ReadMigrationSources | packages/control-plane/src/db/force.ts:200-215 | one pass with a remembered snapshot attributes every entry as the definition does |
| MigrationFolder.EffectiveForceState | packages/control-plane/src/db/force.ts:366-389 | the walk computes the fold: only the generator's files the grammar accepts count |
| MigrationFolder.Folder.EmitForceMigration | packages/control-plane/src/db/force-generate.ts:79-137 | the folder afterwards is exactly the specified one: one more migration, or nothing written |
| Generator.ContentIdentifies | packages/control-plane/src/db/force.ts:102-161 | two snapshots compare equal exactly when they are the same value up to key order once the root's identity is set aside |
| Generator.NextSnapshotKeepsContent | packages/control-plane/src/db/force-generate.ts:106-121 | the new snapshot has the old one's content |
| Generator.AppendedSource | packages/control-plane/src/db/force.ts:186-215 | a fresh migration whose snapshot did not advance is read back as custom, and the earlier ones as they were |
| Generator.EmittedIsFolded | packages/control-plane/src/db/force-generate.ts:86-137 | the emitted file is read back as the generator's own, so it is one more step of the fold |
| Generator.EmitReachesAgreement | packages/control-plane/src/db/force-generate.ts:13-18 | after a run the history agrees with the classification exactly when every tenant table's name can be carried |
| Generator.EmitSettles | packages/control-plane/src/db/force-generate.ts:79-137 | an append leaves every unclassified table as it was |
| Generator.SecondEmitIsNothing | packages/control-plane/src/db/force-generate.ts:13-18 | a second run emits nothing, exactly when the names can be carried |
| Generator.NextEntryFits | packages/control-plane/src/db/force-generate.ts:94-105 | a numbered journal has room for the next entry and stays numbered, its timestamps strictly increasing |
| Generator.EmitAppendsOnly | packages/control-plane/src/db/force-generate.ts:4-12 | over a numbered folder a run leaves the journal's prefix and every file it names untouched |
| Generator.RunsReachAgreement | packages/control-plane/src/db/force-generate.ts:1-24 | any sequence of runs only appends, stays numbered and ends in agreement with the last classification |
| Generator.AppendOnlyExactly | packages/control-plane/src/db/force-generate.ts:94-133 | over any folder, older files are untouched exactly when no entry has the next index, and none the next tag unless its file already read the same |
| Generator.NextSnapshotIdentity | packages/control-plane/src/db/force-generate.ts:117-121 | the new snapshot carries the fresh id and is chained to the old one |
| Predicate.TokenizeExpression | packages/control-plane/src/db/predicate.ts:58-106 | the index loop computes the token sequence the lemmas are about |
| NormalForm.NormalizePredicate | packages/control-plane/src/db/predicate.ts:150-174 | the reduction loop computes the normal form the lemmas are about |
| NormalForm.RefusedExactly | packages/control-plane/src/db/predicate.ts:108-128 | a predicate is refused exactly when a token of it is a connective, and for the first |
| NormalForm.TokenizeMakesTokens | packages/control-plane/src/db/predicate.ts:58-106 | what the scanner makes are words, quoted names, literals and marks, and only the last can be an unclosed literal |
| RoundTrip.ScanFixed | packages/control-plane/src/db/predicate.ts:32-38 | reading a printed quoted name gives it back only if it holds no quote, or one last quote with nothing after it |
| RoundTrip.RoundTripsExactly | packages/control-plane/src/db/predicate.ts:130-131 | the space-joined tokens read back as themselves exactly when every quoted name survives |
| RoundTrip.ExpressionRoundTrips | packages/control-plane/src/db/predicate.ts:130-174 | the same of the tokens of any expression |
| RoundTrip.EqualFormsEqualTokens | packages/control-plane/src/db/predicate.ts:133-174 | where no quoted name holds a quote, equal normal forms mean equal reduced token sequences |
| RoundTrip.FormTellsTokens | packages/control-plane/src/db/predicate.ts:150-174 | the reduced tokens can be read off the normal form, and none is a connective |
| RoundTrip.QuotedSpelling | packages/control-plane/src/db/predicate.ts:22-38 | any name, quoted as SQL quotes it, is one token |
| RoundTrip.DoubledQuotesForge | packages/control-plane/src/db/predicate.ts:36-37 | one name holding a quoted space and two names side by side have one normal form |
| RoundTrip.SpacingIsDropped | packages/control-plane/src/db/predicate.ts:49-53 | whitespace and parentheses between closed lexemes change no token |
| RoundTrip.SpacingNormalizesAlike | packages/control-plane/src/db/predicate.ts:49-53 | nor the normal form, refusals included |
| Spelling.SpelledTokens | packages/control-plane/src/db/predicate.ts:40-106 | the tokens of a text are those of its lexemes, whatever gaps stand before, between and after them |
| Spelling.SpellingsNormalizeAlike | packages/control-plane/src/db/predicate.ts:150-174 | two spellings of the same lexemes have one normal form, however many of their gaps differ |
| Spelling.EveryTextSpells | packages/control-plane/src/db/predicate.ts:58-106 | every text is a spelling of lexemes in that sense |
| Canonical.TextUnambiguous | packages/control-plane/src/github/profile.ts:111-123 | one text can be read off the front of another in one way only |
| Canonical.TextIdentifies | packages/control-plane/src/github/profile.ts:98-123 | two values get one text exactly when they are equal up to key order at every depth |
| Canonical.ArrayOrderMatters | packages/control-plane/src/github/profile.ts:106-110 | swapping two array items changes the text exactly when they differ |
| KeyOrder.SortedAscends | packages/control-plane/src/github/profile.ts:117-119 | sorting by key is a permutation in ascending order |
| JsText.QuotedUnambiguous | packages/control-plane/src/github/profile.ts:119-122 | a printed JSON string tells its text, whatever follows |
| Narrative.Bound | packages/worker-core/src/narrative.ts:118-138 | the walk back computes the cut the lemmas are about; it fits and loses at most three bytes |
| Narrative.LongestIsLongest | packages/worker-core/src/narrative.ts:109-117 | the cut keeps the longest prefix of whole code points that fits |
| Narrative.WalkBack | packages/worker-core/src/narrative.ts:128-131 | the walk stops on that prefix's last byte, at most three bytes below the limit |
| Narrative.CutIsPrefix | packages/worker-core/src/narrative.ts:109-138 | the cut content is a prefix of the original exactly when that prefix holds no lone surrogate |
| Narrative.EscapeExpansion | packages/worker-core/src/narrative.ts:20-34 | escaping costs at most six bytes for one |
| Narrative.EncodedBound | packages/worker-core/src/narrative.ts:20-34 | with byte counts of at most sixteen digits the encoded file is at most 400 KiB |
| Utf8.DecodeEncode | packages/worker-core/src/narrative.ts:118-138 | decoding an encoding gives the text back, lone surrogates replaced |
| Arguments.FlagPairs | packages/sandbox-container/src/arguments.ts:211-232 | the loop computes the pairs the lemmas are about |
| ArgumentAudit.AuditReadsTheIntended | packages/sandbox-container/src/arguments.ts:97-144 | for every accepted request the audit's parser reads exactly the intended flags and values in order |
| ArgumentAudit.RuntimeReadsTheIntended | packages/sandbox-container/src/arguments.ts:146-162 | for every request a flag parser that stops at the terminator reads exactly the intended flags, then the image and the command |
| ArgumentAudit.AuditPassesExactly | packages/sandbox-container/src/arguments.ts:295-384 | for every accepted request and every id the audit passes exactly when no piece of any token names a runtime socket |
| ArgumentAudit.VolumeIsNamed | packages/sandbox-container/src/arguments.ts:253-274 | the Workspace's source is never a host path, whatever the id |
| ArgumentAudit.VariableArrives | packages/sandbox-container/src/arguments.ts:112-115 | an accepted variable reaches the Sandbox under its own name with its own value |
| Attestation.AuthorizedStorage | packages/sandbox-container/src/attestation.ts:186-233 | an authorized instance holds exactly the storage that was asked for, no bind mount, and the one volume made for it |
| AttestedVector.SocketSurvives | packages/sandbox-container/src/arguments.ts:276-293 | a path whose last segment is a runtime socket is still one in the last piece that splitting at the separators leaves of it |
| AttestedVector.MountsAreClean | packages/sandbox-container/src/arguments.ts:295-384 | a vector no piece of which names a runtime socket mounts at none and from none |
| AttestedVector.AuditedInstanceAttests | packages/sandbox-container/src/attestation.ts:383-400 | for every accepted request, an instance made exactly as the audited vector says on an unchanged host is authorized exactly when the host applies seccomp, the quotas are positive, and no path or id holds the colon the runtimes' syntax cannot carry |
| Provider.SandboxProvider.Attempt | packages/sandbox-container/src/provider.ts:196-209 | an invocation may fail and may have had its effect; a start is made only where its own launch has just read the host, made, created and inspected, and an Attestation over those answers is authorized |
| Provider.SandboxProvider.Survivors | packages/sandbox-container/src/provider.ts:235-266 | what the listings miss is not there |
| Provider.SandboxProvider.Destroy | packages/sandbox-container/src/provider.ts:268-289 | the four invocations in order as far as they are answered; residue is what the listings name, and everything where they could not be had; what is not residue is gone |
| Provider.SandboxProvider.Quarantine | packages/sandbox-container/src/capability.ts:169-175 | the first reason wins and nothing clears it |
| Provider.SandboxProvider.Abandon | packages/sandbox-container/src/provider.ts:291-320 | everything a launch made is gone, or the runtime is quarantined, exactly when there is residue |
| Provider.SandboxProvider.Own | packages/sandbox-container/src/provider.ts:335-374 | the instance starts only after an authorized Attestation of what was just inspected; a launch that does not end in a Sandbox cleans up, and leaves nothing or a quarantine |
| Provider.SandboxProvider.LaunchOnHost | packages/sandbox-container/src/provider.ts:387-405 | refused exactly when the host falls short or has drifted, and only drift loses the capability |
| Provider.SandboxProvider.LaunchSandbox | packages/sandbox-container/src/provider.ts:376-462 | quarantined exactly when refused so, and then, as for a refused request, nothing is invoked; otherwise exactly what it invokes, in order, what each end means, and what it leaves |
| Provider.SandboxProvider.TeardownSandbox | packages/sandbox-container/src/provider.ts:448-459 | torn down means closed and gone; anything else quarantines |
| Provider.SandboxProvider.Measure | packages/sandbox-container/src/provider.ts:226-227 | a remembered capability costs no invocation; otherwise it is established from one |
| Provider.QuarantineHolds | packages/sandbox-container/src/capability.ts:157-178 | from the moment of a quarantine on, wherever in a sequence it arose, every launch changes nothing, invokes nothing, and is refused so |
| Provider.GivenUpStaysGone | packages/sandbox-container/src/provider.ts:291-320 | every instance and volume of a launch that was refused or failed, or of a Sandbox that was torn down, is gone at every later moment at which the runtime is not quarantined |
| Provider.Drive | packages/sandbox-container/src/provider.ts:15-30 | over any sequence of measurements, launches and teardowns, both of these hold at every moment; a quarantine keeps its reason and nothing is started under it; every start followed an authorized Attestation of that instance in that launch; and each act invoked, answered and left what its relation says |
| Access.SandboxAccess.Complete | packages/sandbox-container/src/access.ts:51-68 | a resource whose setup finishes after a close was requested is kept for release and not handed out |
| Access.SandboxAccess.Start | packages/sandbox-container/src/access.ts:146-160 | no process is started once a close was requested |
| Access.SandboxAccess.Release | packages/sandbox-container/src/access.ts:132-141 | once the setups it waited for have settled, each resource the three sets hold is released by a call of its own, and these are all that were made |
| Access.SandboxAccess.CloseSettles | packages/sandbox-container/src/access.ts:142-155 | the close settles when every release has, rejecting if any did |
| Access.Interleave | packages/sandbox-container/src/access.ts:118-171 | however the events interleave, when the close has settled, everything the events made (counted from the events alone) has been released by it exactly once, all those releases have settled, and the close rejected exactly if one did; before a close nothing is released |
| Access.AfterSettled | packages/sandbox-container/src/access.ts:130-157 | after that nothing is made or released again |
| Worker.DispatchedIsPermitted | packages/worker-core/src/dispatch.ts:191-240 | a Run is dispatched exactly when every gate holds; an account credential never meets a rootful container or an external pull request |
| Worker.TornDownOnce | packages/worker-core/src/run.ts:385-481 | in a finished Run a launched Sandbox was torn down exactly once, and last |
| Worker.PassWasPermitted | packages/worker-core/src/run.ts:15-35 | the Pass runs once at most, for the pinned Model, in the Sandbox that was launched and protected, after the gates passed on the resolved host and again on that Sandbox's own Isolation and the capability resolved in it |
| Worker.PassKeepsTheMatrix | packages/worker-core/src/dispatch.ts:100-134 | so an account credential never runs in a rootful container nor for an external pull request, whatever the host reported first |
| Worker.OutcomeMeans | packages/worker-core/src/run.ts:1-35 | a Refusal means no Pass ran; a Result, exactly, an unfailed, unsubstituted Pass, a conforming bundle and a confirmed teardown; an unconfirmed teardown is never reported as anything else |
| Worker.WorkerCore.ExecutePass | packages/worker-core/src/run.ts:219-290 | which of the outcomes after a Pass it is, by what makes each |
| Worker.WorkerCore.InSandbox | packages/worker-core/src/run.ts:409-481 | from materialization on, the Run does only what the answers it has allow, stops only where they allow nothing more, and reports what happened |
| Worker.WorkerCore.Execute | packages/worker-core/src/run.ts:292-483 | the same of the whole Run, for every behaviour of its ports |

## Left out

- HTTP, GitHub transport, TLS, child processes, streams and the proxy relay: each is a port that may return anything or throw.
- SHA-256, HMAC and RSA: `configDigest`, execution tokens and host fingerprints are compared as what they are taken over, so collisions are not modelled.
- Zod schemas and the Evidence cross-check: one abstract decision over a bundle in `Worker`.
- Number formatting: a number is the text it prints as; `Canonical` and `Arguments` say what such a text looks like.
- JSON files on disk: the journal and snapshots are the values they parse to; the journal's `version`, `dialect` and `breakpoints` are not kept.
- `canonical` in `force.ts` prints integer-like keys first where the model's text sorts all keys; both identify the same values.
- A snapshot that is not a JSON object is read and attributed, but the generator stops at it where the code would spread it.
- The policy replay (`statements`, `effectiveBoundary`) and `checkMigrationGrammar`: catalog text, and the statement split also splits inside literals.
- `samePolicy`, `neutralizeImports`, `redactedArguments`, `checks.ts`, `privileges.ts`, `bootstrap.ts`, `migrate.ts`, `dialect.ts` and auth: easy or library wrappers.
- SQL text in `Force` and arguments in `Arguments` are sequences of Unicode scalar values, so lone surrogates in them are not represented; predicates and JSON are code units.
- `isDeniedEnvironmentName` upper-cases by Unicode; the model upper-cases ASCII, which every accepted name is.
- `cacheScope` and the identity upserts of `recordDelivery`: operational caches no decision reads.
- The re-drive schedule and its retry limit: any number of attempts is allowed instead.
- The names of claim and Acceptance refusals (`nameRefusal`): they decide nothing.
- `notifyEnded` and the hook's payload: a wake-up that may come at any time, once.
- A self-hosted Lease renewal: the loop's bound on reads is for deadlines that do not move, as today none does.
- Placement and Installation conjuncts of the claim: they only narrow it.
- Owner visibility in `Protocol` and `Ingress`: every Run is visible to its Owner there; the invisible Run is in `Lifecycle` and `Dispatch`.
- AttestedVector.AuditedInstanceAttests: quotas are the instance's, not read back from their printed text.
- A capability cache keyed by runtime name: `Provider` is one runtime, so one entry and one quarantine.
- Launches that overlap in time: `Provider.Drive` takes launches and teardowns one after another.
- An effect of an invocation that arrives after the invocation has been answered for.
- A release in `Access` that throws before it returns a promise.
- Worker.WorkerCore.Execute: a clock, an id source or a Refusal schema that throws is not modelled.
