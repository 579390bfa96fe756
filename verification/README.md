# Setback, verified

Setback helps a resident object to a neighbouring development. An interview collects
concerns; a tribunal job then hears each one, checks its citations, decides it and writes
two documents. The job may be stopped after any step and started again, several jobs may
run at once, and the interview must survive a process that restarts. This project models
that behaviour in Dafny and proves what holds over every run.

Check it with `dafny verify dfyconfig.toml`.

## How it is organised

| file | what it models |
|---|---|
| `CaseStores.dfy`, `CaseStoreLaws.dfy` | the case store: keyed ground records beside an append-only, idempotent event log; event sourcing and replay |
| `Pipeline.dfy` | the tribunal job, imperatively, as a process that may die after any store step, and the sequence of steps it issues |
| `PipelineLaws.dfy`, `ChainLaws.dfy` | one execution cut anywhere; every chain of cut, failed and completed executions; booking public cost at most once |
| `CaseRecords.dfy` | what the store holds of a case, told from the operations alone |
| `Findings.dfy` | what a hearing supports and proves, read off the opinions and the dossier |
| `OutcomeLaws.dfy`, `Conservation.dfy` | why a ground is supported, why none is flagged, when the logged decision is the one that counts, and what the documents list |
| `CompletedRuns.dfy`, `Bookings.dfy` | everything a completed run adds to the log, the records, the saved breakers and the spend |
| `RunDocuments.dfy`, `RunOverlays.dfy` | what each numbered ground prints, and what colour each box gets, in terms of the hearings |
| `TornDecisions.dfy`, `ResumedRuns.dfy` | states interruptions leave in which log and status, or submission and statuses, disagree |
| `VeoProtocol.dfy`, `GuardStores.dfy` | the live-video claim and cap as interleaved increments and reads; the counters and their in-memory twins |
| `Interviews.dfy`, `InterviewLaws.dfy` | the interview state machine and what holds of every interview |
| `Rehydration.dfy`, `RehydrationLaws.dfy` | the console that persists each turn, and the flow rebuilt from the deduplicated log |
| `RebuiltConcerns.dfy`, `Texts.dfy` | what a rebuilt concern has forgotten, what ground it becomes, and when two trimmed texts agree |
| `FiledConcerns.dfy` | from a confirmed concern to its verdict |
| `Conversations.dfy` | interviews, at the console and from their first question, in which what those laws warn of happens |
| `Courts.dfy`, `Gates.dfy`, `Intake.dfy`, `Dossiers.dfy`, `AssembledDossiers.dfy` | verdicts, the citation gate, the candidates and citations the job derives, the evidence dossier, and citation closure end to end |
| `Propagation.dfy`, `OverlayBoxes.dfy`, `ChipLayout.dfy`, `Composers.dfy` | page-level citations spread onto boxes, which boxes are drawn and in what colour, label chips on a page, the two documents |
| `Breakers.dfy`, `Ledgers.dfy`, `RateLimiter.dfy` | circuit breaker, cost ledger and their snapshots, sliding-window limiter |
| `Wrappers.dfy` | option, result and insertion-ordered dictionary |

Python objects whose methods update fields are classes here; each of their methods is
proved against a function of the old state, and the laws are about those functions. What
comes from outside (models, clocks, the network, images) enters as values of an `Oracle`,
of a `Clerk` or as parameters, so every law holds whatever those answer. Costs are integer
nano-dollars, at which the price table is exact per token; geometry is over the reals.
Hashed and concatenated ids are injective constructors, with one constructor (`CallerId`)
for ids chosen by callers.

## Where the code does not do what it says

Each of these is a theorem, with the exact condition where there is one.

- Resuming is documented as never failing on work already done
  (`src/setback/state/firestore.py:60-67`). Replaying a sequence raises exactly when a ground
  has left a status the sequence drove it to (`ReplaySucceedsIff`, `ReplayMayRaise`). The job
  itself avoids this by skipping decided grounds (`ChainIsLegal`).
- The gate's escalation from refused to flagged needs failures remembered across executions.
  A saved breaker drops its count, so the job never flags anything (`NothingIsEverFlagged`);
  within one process the escalation works as documented (`FlaggedExactly`).
- A resumed run's submission leaves out grounds an earlier run had supported
  (`SubmissionIsCompleteIff`; `ResumedRunOmits` is a case where it happens).
- The gate decision in the log is the first one ever logged; after an interruption the status
  can come from another (`LoggedDecisionAgreesIff`; `LogAndStatusCanDisagree` is a case where it does).
- The gate measures a box against the first page of its document, also when the box lies on
  a later one (`BoxJudgedByFirstPage`). The job only registers boxes on first pages, where
  this is the box's own page (`AssembledClosure`).
- A court verdict that is unresolved reads as a rejection, so the ground is then refused, not
  flagged, whatever its category (`UnresolvedIsRefused`, `UnresolvedEndsRefused`).
- The deployed daily counter counts refused attempts, its test double does not
  (`TwinsAgree`, `RaisedLimitDisagrees`); with the fixed limit that is deployed they agree
  (`FixedLimitAgrees`).
- A restored breaker with a threshold below one comes back closed (`ReloadKeepsTripped`,
  `ReloadCloses`).
- If composing the next question fails right after a confirmation is affirmed, the flow can
  never be answered again in that process (`StuckIff`, `StuckForever`; `OneFailureStrands` is
  an interview where it happens).
- Interview turns are deduplicated by role, stage and text. A repeated question leaves the
  rebuilt flow a stage behind, and a repeated opening statement makes it fail on every answer
  (`AnswerAgreesIff`, `RepeatedStatementStrands`, `RepeatedQuestionFallsBehind`;
  `StatementRepeated` and `QuestionRepeated` are interviews where it happens).
- A process that dies between an opening statement and its question leaves that statement in
  the log; if the resident then states something else, later restarts go back to the
  abandoned one (`AbandonedStatementReturns`, `StatementReturns`).
- Losing the dispute history on a restart is documented as cosmetic
  (`src/setback/console/app.py:499-503`). It changes the ground's text: disputed after the
  restart, the statement is lost unless it was blank (`RebuiltDisputeLosesTheStatement`,
  `StatementLost`); disputed before it, the disputed wording comes back unless nothing
  visible is left of it (`RebuiltDisputeKeepsTheWording`, `WordingKept`).
- A concern confirmed after a restart in the middle of it becomes the same ground only if its
  type is the keyword one, no document was attached and its text survived (`FiledAsLiveIff`,
  `InterviewFiledAsLiveIff`; `FiledOtherwise` is a run of the console where it does not). A
  text does not survive a visible earlier round, nor a visible answer that declined to add
  evidence (`InterviewTextSurvivesIff`).
- Preferring grounds that were shown a document never decides anything within a run
  (`ShownDecidesNothing`).

## Model

| member | source | states |
|---|---|---|
| `ChainLaws.ChainIsLegal` | src/setback/job/pipeline.py:1597-1789 | No execution of any chain, each cut off after any step and started on what the one before left, raises a store error: no illegal transition is ever attempted |
| `ChainLaws.ChainThenComplete` | src/setback/job/pipeline.py:1593-1900 | From any state that any chain of executions of an uncomposed case left, composed since or not, an execution that completes raises nothing, leaves every candidate terminal and the submission composed, with the candidates the chain started with, and no later chain changes any ground |
| `ChainLaws.ComposedIsDecided` | src/setback/job/pipeline.py:1655-1899 | Over any chain, wherever each execution is cut or fails, a case whose submission is composed has every candidate decided |
| `ChainLaws.ComposingDecides` | src/setback/job/pipeline.py:1655-1899 | Whichever execution composes first has decided every candidate, even if cut in its illustration steps |
| `ChainLaws.CandidatesStay` | src/setback/job/pipeline.py:632-657 | Nothing the job issues changes who its candidates are, under which category or with which claim |
| `ChainLaws.FreshCaseBooksOnce` | src/setback/job/pipeline.py:1106-1189 | The booking bound from a case for which nothing was booked yet |
| `ChainLaws.LaterChain` | src/setback/job/pipeline.py:1593-1606 | Once a submission is composed, any chain of later executions, cut anywhere and failing or not, keeps grounds, breakers, ledger and bookings, and only appends "ignored" and "failed" notes |
| `ChainLaws.LaterChainAddsOne` | src/setback/job/pipeline.py:1593-1606 | If none of the later executions fails, all of them together add at most one event |
| `ChainLaws.ChainBooksOnce` | src/setback/job/pipeline.py:1106-1189 | Over any chain of executions cut anywhere, what is booked under a cost kind is nothing or exactly one call's amount, and booked spend implies a marker in the log naming that amount |
| `ChainLaws.ExecutionBooksOnce` | src/setback/job/pipeline.py:1861-1868 | Within one execution, at every single cut point, bookings and markers agree |
| `ChainLaws.BookingIsSafe` | src/setback/job/pipeline.py:1176-1189 | Marker first, spend second: both cut points are safe whenever the start-of-run snapshot knows the marker exactly when the store does |
| `ChainLaws.CompletedIsComposed` | src/setback/job/pipeline.py:1887-1899 | A completed execution has `submission_composed` in the log, and callers keep to the ids of their event types |
| `ChainLaws.AppendedIsLogged` | src/setback/state/firestore.py:608-624 | Whatever a run that raises nothing was to append is in the log afterwards |
| `ChainLaws.LogOnlyGrows` | src/setback/state/firestore.py:530-624 | Whatever steps are played, the old log is a prefix of the new one |
| `PipelineLaws.ExecutionIsLegal` | src/setback/job/pipeline.py:1655-1789 | One execution, cut at any step, raises nothing; left to run it moves exactly the undecided candidates, each to its decision's status, and keeps every claim |
| `PipelineLaws.CompletedIsTerminal` | src/setback/job/pipeline.py:1597-1789 | After a completed execution every candidate is terminal: an undecided one as its decision says, a decided one as it was; everything else is untouched |
| `PipelineLaws.BlockPlay` | src/setback/job/pipeline.py:1669-1789 | From any status that is not terminal one candidate goes through review to its end without error, and no other ground moves |
| `CompletedRuns.LoggedIff` | src/setback/job/pipeline.py:1572-1912 | A completed execution logs, under callers' ids, exactly: the photo, the resolved intake, both opinions and the ruling of every undecided candidate, an adjudication unless the reviewers are of one mind, a skip for every decided one, the overlay, the costs due, the submission and its illustrations |
| `CompletedRuns.RulingIsLogged` | src/setback/job/pipeline.py:1771-1784 | Of a candidate never ruled on before it logs the ruling itself, read off the hearing, telling the two refusals apart |
| `CompletedRuns.AnchorsAre` | src/setback/job/pipeline.py:1710-1729 | Each record keeps its anchors and gains, each once, exactly the boxes that count in the hearing of an undecided candidate for it |
| `CompletedRuns.GateBreakersAre` | src/setback/job/pipeline.py:1762-1771 | The gate's breaker is saved for exactly the undecided candidates it rules on: closed by proof, open after a failure if it was saved tripped or trips at one, otherwise as it was; every other stays |
| `CompletedRuns.SettledIs` | src/setback/job/pipeline.py:1850-1851 | The adjudicator's breaker and the ledger are saved as the run leaves them |
| `Bookings.CompletedBooks` | src/setback/job/pipeline.py:1178-1189 | A completed execution books a kind of cost exactly when the case was created public, the guard is wired, the amount is positive and no marker was there; it books that amount and the marker names it; otherwise spend and marker stay |
| `Bookings.NewCaseBooks` | src/setback/job/pipeline.py:1106-1189 | From a new case and whatever residents did: booked exactly for the public origin, the other origin does not matter |
| `Pipeline.Run` | src/setback/job/pipeline.py:1572-1912 | The imperative run issues exactly the planned steps, in order, whatever happens to them; is ignored exactly on a composed case; its documents and overlay are those of its decisions |
| `Pipeline.ReviewGround` | src/setback/job/pipeline.py:1655-1818 | One pass of the ground loop: skipped if already decided, otherwise both transitions around what court and gate issue, and the loop's locals carried on |
| `Pipeline.GateGround` | src/setback/job/pipeline.py:1731-1784 | A relevant ground the court rejects never reaches the gate; any other is ruled on under its restored or new breaker, which is saved; the decision is logged |
| `Pipeline.CiteVerdict` | src/setback/job/pipeline.py:1710-1729 | Each cited reference is recorded for this ground, page-level ones in a list; a cited box becomes an anchor on the ground's record |
| `Pipeline.BookPublicGuardCost` | src/setback/job/pipeline.py:1171-1189 | Marker then spend, or nothing when unwired, not public, not positive, or already in the snapshot |
| `Pipeline.Execution.Issue` | src/setback/job/pipeline.py:1572-1912 | A step takes effect only while the process is alive and has raised nothing; other cases are untouched |
| `OutcomeLaws.ShippedSoundly` | src/setback/job/pipeline.py:1731-1789 | After a completed execution an undecided candidate reads supported if and only if its category is a s4.15(1) head, and either both reviewers cite only what exists, confidently support it, and some reference of theirs can be cited and all such hold; or they are not of one mind and the same is true of a confident adjudicator's references |
| `OutcomeLaws.OutcomeIs` | src/setback/job/pipeline.py:1731-1789 | Every outcome: supported as above; flagged exactly if a head is supported by the hearing but not proved, and the gate's breaker was saved tripped or trips at one failure and has not cooled down; refused otherwise |
| `OutcomeLaws.RefusalsApart` | src/setback/gate/validator.py:217-255 | Of the two refusals, irrelevance is for categories that are no head and only for them |
| `Findings.KnownRefsAre` | src/setback/job/pipeline.py:721-728 | Reviewers may cite exactly the manifest's anchors, the slice's controls and its clauses |
| `Findings.SupportsIs` | src/setback/court/graph.py:279-390 | The court supports exactly what the hearing supports, read off opinions, bench and dossier; and resolves nothing exactly if neither side has it |
| `Findings.CitedIs` | src/setback/court/graph.py:312-390 | The verdict cites what counts: both reviewers' references, each once in order of first mention, or the adjudicator's as they are |
| `Findings.ProvenIff` | src/setback/job/pipeline.py:731-770 | The gate is satisfied with what was kept of some references exactly when one can be cited and every one that can holds: an anchor's page exists and its box lies in its document's first page, a control is said alike by its first and last row and the first document has a page |
| `Findings.FirstKept` | src/setback/job/pipeline.py:758-770 | The first citation is that of the first reference that makes one |
| `OutcomeLaws.SupportedIffJustified` | src/setback/job/pipeline.py:773-778 | The same, for the decision of any single pass, complete or not |
| `OutcomeLaws.SupportHasAReason` | src/setback/job/pipeline.py:1655-1789 | Over any chain of cut executions, a ground that came to read supported was supported by one of them, on the state it loaded, with that justification |
| `OutcomeLaws.AttemptStatuses` | src/setback/job/pipeline.py:1655-1789 | Cut anywhere, an execution leaves each ground as it was, under review, or ended as its own decision says |
| `OutcomeLaws.NothingIsEverFlagged` | src/setback/job/pipeline.py:1773-1789 | Over any chain of executions cut anywhere no ground is ever moved to flagged: every reload drops the failure count the escalation needs |
| `OutcomeLaws.NewCaseIsNeverFlagged` | src/setback/job/pipeline.py:1773-1789 | So from a new case, whatever residents put into it and whatever chain follows, no ground ever reads flagged |
| `OutcomeLaws.UnresolvedIsRefused` | src/setback/job/pipeline.py:1731-1761 | A ground on which the court reaches no verdict ends refused, whatever its category |
| `OutcomeLaws.UnresolvedEndsRefused` | src/setback/job/pipeline.py:1731-1789 | The same of the stored status after a completed execution |
| `OutcomeLaws.NeverFlags` | src/setback/job/pipeline.py:1775-1780 | One pass from gate breakers saved closed with a threshold of at least two never flags, and saves such a breaker again |
| `OutcomeLaws.LoggedDecisionAgreesIff` | src/setback/job/pipeline.py:1771-1789 | After a completed execution the logged gate decision is the one the status came from exactly when no earlier execution had logged another outcome |
| `TornDecisions.DecisionsCanBeTorn` | src/setback/job/pipeline.py:1771-1789 | Any undecided candidate can be left under review with a decision logged, by a prefix of the plan; if none was logged before, it is that execution's own |
| `TornDecisions.TornThenOtherwise` | src/setback/job/pipeline.py:1771-1789 | A later execution that ends it otherwise leaves a log whose decision on it is the first one and not the one its status came from |
| `TornDecisions.LogAndStatusCanDisagree` | src/setback/job/pipeline.py:1771-1789 | A concrete case, two hearings and a cut: the ground reads supported and the log says refused |
| `OutcomeLaws.ChainIsCoherent` | src/setback/state/firestore.py:530-624 | No chain of executions breaks the agreement of log and records |
| `Conservation.DocumentsConserve` | src/setback/job/pipeline.py:1650-1818 | The documents always assemble; the numbered grounds are, in candidate order, exactly the candidates this run ended supported, and the two explainer sections exactly those it refused and flagged |
| `Conservation.EachCandidateOnce` | src/setback/dispatch/composer.py:150-162 | Started with no candidate decided, the three lists together hold every candidate exactly once |
| `Conservation.SubmissionIsCompleteIff` | src/setback/job/pipeline.py:1655-1668 | The submission lists every supported candidate exactly when none was supported before this run started: a resumed run leaves the earlier ones out |
| `ResumedRuns.StoppedAfterSupport` | src/setback/job/pipeline.py:1655-1668 | Stopped just after it supported any candidate, an execution leaves such a state uncomposed, and whatever runs next composes without that candidate |
| `ResumedRuns.ResumedRunOmits` | src/setback/job/pipeline.py:1655-1668 | A concrete case and hearing from which that happens |
| `Conservation.ContentIsWritten` | src/setback/dispatch/composer.py:158-165 | Every ground the gate ships has content, so assembling the submission never fails on a missing one |
| `RunOverlays.ShownDecidesNothing` | src/setback/job/pipeline.py:1670-1673 | Inside a run the preference for grounds that were shown a document decides nothing, since every ground is shown the same documents; severity alone picks the winner |
| `Composers.Compose` | src/setback/dispatch/composer.py:445-489 | Fails exactly when a shipped ground has no content; otherwise each shipped ground under its one-based number, with its own id, basis and content, then the refused and the flagged decisions |
| `RunDocuments.DocumentsPrint` | src/setback/job/pipeline.py:1786-1818 | Every numbered ground is an undecided, justified candidate's: its id, its statutory paragraph, its claim as stored, and the title and page its first citable reference leads to, with the overlay named if it is on that document |
| `RunDocuments.ExplainerPrints` | src/setback/dispatch/composer.py:319-352 | Every line of the explainer is an undecided candidate's, in the flagged section exactly if it is for review: its own category and basis, and as issues exactly what is said against it, read off the hearing: no support, nothing to cite, or every fault of what counts |
| `Composers.ComposeSubmission` | src/setback/dispatch/composer.py:232-264 | Each entry carries its one-based place, id, basis and own content |
| `CaseStoreLaws.StoreIsEventSourced` | src/setback/state/firestore.py:470-646 | In every store state any operations can reach, for every case: each status is the fold of its events, the i-th event has sequence i, ids are unique, every event tells the truth, and any earlier log is a prefix of the later one |
| `CaseStoreLaws.ApplyIsSourced` | src/setback/state/firestore.py:530-646 | Every operation that does not raise keeps log and records in agreement and only adds to the log |
| `CaseRecords.RecordIs` | src/setback/state/firestore.py:530-599 | After any operations, failed ones included, a ground is there once proposed, with the claim of its first proposal and that proposal's anchors followed by those added since, each once |
| `CaseRecords.CaseIs` | src/setback/state/firestore.py:487-516 | A case is there once created, and keeps the origins of its first creation |
| `CaseRecords.BreakerIs` | src/setback/state/firestore.py:630-638 | A breaker is as it was last saved |
| `CaseStoreLaws.ReplayChangesNothing` | src/setback/state/firestore.py:487-624 | Replaying a sequence of operations that succeeded on its own result changes nothing, and the i-th is refused exactly when it is a transition its ground has left behind |
| `CaseStoreLaws.ReplaySucceedsIff` | src/setback/state/firestore.py:60-67 | Such a replay raises nothing if and only if no ground has left a status the sequence drove it to |
| `CaseStoreLaws.ReplayMayRaise` | src/setback/state/firestore.py:60-67 | A four-operation sequence whose replay raises, against the promise that resuming never fails on work already done |
| `CaseStoreLaws.CrashesReachAPrefix` | src/setback/state/firestore.py:487-624 | Any chain of interrupted executions of a sequence gets exactly as far as the furthest of them, and no further |
| `CaseStoreLaws.ResumeTheorem` | src/setback/state/firestore.py:434-455 | Whatever chain of interruptions came before, running the whole sequence reaches the state one uninterrupted run would |
| `CaseStores.InMemoryCaseStore.CreateCase` | src/setback/state/firestore.py:487-516 | Idempotent on the pair of application number and session; logs the creation |
| `CaseStores.InMemoryCaseStore.ProposeGround` | src/setback/state/firestore.py:530-559 | Refused for an unknown case; a known ground is left as it is; otherwise record and event together |
| `CaseStores.InMemoryCaseStore.TransitionGround` | src/setback/state/firestore.py:561-579 | Unknown case or ground, no-op, illegal transition, or record and event together, each with its error |
| `CaseStores.InMemoryCaseStore.AddEvidenceAnchor` | src/setback/state/firestore.py:581-598 | An equal anchor is not added twice; a new one is recorded and logged under its rounded box |
| `CaseStores.InMemoryCaseStore.AppendEvent` | src/setback/state/firestore.py:608-624 | The first event under an id stays; a later one changes nothing |
| `CaseStores.InMemoryCaseStore.LogEvent` | src/setback/state/firestore.py:608-624 | The scan for an id and the append with the next sequence number |
| `CaseStores.InMemoryCaseStore.LoadBreaker` | src/setback/state/firestore.py:634-638 | A saved breaker is rebuilt through its public operations, none for an unknown name |
| `CaseStores.InMemoryCaseStore.ListGrounds` | src/setback/state/firestore.py:604-606 | Every record, in the order proposed |
| `VeoProtocol.CapAndClaimHold` | src/setback/job/pipeline.py:1958-2036 | Over every interleaving of any number of executions on any mix of cases, each free to stop between any two store operations: at most `limit` calls in all and at most one per case |
| `VeoProtocol.RunKeepsInv` | src/setback/state/guard_store.py:343-381 | The invariant of the two counters: each equals the number of attempts that added to it, winners and admitted ones are among those, at most one winner per case |
| `VeoProtocol.SoloCallsIffFree` | src/setback/job/pipeline.py:1958-2036 | Alone, an attempt whose checks pass calls the model exactly when the case is unclaimed and the cap has room |
| `VeoProtocol.BothMayLose` | src/setback/state/guard_store.py:371-381 | An interleaving in which two attempts on one case both lose the claim |
| `GuardStores.FirestoreCounter.TryIncrement` | src/setback/state/guard_store.py:118-140 | Every attempt counts, and the n-th is allowed exactly when n is within the limit |
| `GuardStores.InMemoryCounter.TryIncrement` | src/setback/state/guard_store.py:100-108 | The test double counts allowed attempts only |
| `GuardStores.InMemoryClaims.TryClaim` | src/setback/state/guard_store.py:336-340 | A case is claimed by its first caller only |
| `GuardStores.AskFirestore` | src/setback/state/guard_store.py:118-140 | Asked once per limit, the deployed counter gives the answers the comparison is about |
| `GuardStores.AskInMemory` | src/setback/state/guard_store.py:100-108 | And the test double gives its own |
| `GuardStores.TwinsAgree` | src/setback/state/guard_store.py:100-140 | Deployed counter and test double answer any run of attempts alike exactly when no attempt's limit lies above what was granted and at or below its place in line |
| `GuardStores.FixedLimitAgrees` | src/setback/state/guard_store.py:100-140 | With one fixed limit they always agree, and exactly the first `limit` attempts are allowed |
| `GuardStores.RaisedLimitDisagrees` | src/setback/state/guard_store.py:100-140 | Three attempts that tell them apart |
| `InterviewLaws.InterviewIsSound` | src/setback/interview/flow.py:338-452 | Whatever is answered or attached after the first question: a concern is under discussion exactly from clarifying to confirming, the resident was asked for more once per confirmed concern, and when asked to confirm the text is the base, the redacted latest clarification and at most one redacted elaboration, with nothing from earlier disputed rounds; the clarification is that round in the resident's words, and the disputes are those since the statement |
| `InterviewLaws.InterviewIsTallied` | src/setback/interview/flow.py:426-452 | Over any worded interview: it is over exactly if the resident, asked for more, had none; and there is one concern per affirmed confirmation |
| `InterviewLaws.ConcernIsFollowed` | src/setback/interview/flow.py:354-443 | From its statement on, whatever is asked and whichever calls fail, a concern keeps the words, type and text that opened it, gains exactly the documents attached while it is discussed, and is filed as that |
| `InterviewLaws.JoinedParts` | src/setback/interview/flow.py:354-368 | The normaliser's parts are all in the opening text, in order, one space apart |
| `InterviewLaws.NoAssertionFails` | src/setback/interview/flow.py:370-426 | On such a run no answer trips the assertion that a concern is under discussion, and only a finished interview refuses one |
| `InterviewLaws.BaseStays` | src/setback/interview/flow.py:370-443 | From statement to confirmation a concern keeps its statement, type and base and only gains evidence; it leaves only by being confirmed |
| `InterviewLaws.StuckIff` | src/setback/interview/flow.py:426-436 | A flow becomes unanswerable in exactly one way: a confirmation is affirmed and composing the next question fails |
| `InterviewLaws.StuckForever` | src/setback/interview/flow.py:338-352 | Once so, no request ever helps; only the transcript grows |
| `InterviewLaws.RetriedClarification` | src/setback/interview/flow.py:370-385 | A clarification whose next question failed to compose is kept beside the retry's, unless the concern was disputed before |
| `Interviews.InterviewFlow.Submit` | src/setback/interview/flow.py:338-352 | The answer is appended before anything else; then exactly the stage's transition, with every error case |
| `Interviews.InterviewFlow.HandleClarifying` | src/setback/interview/flow.py:370-390 | Appends to the text, or starts over from the base after a dispute; fails without a concern |
| `Interviews.InterviewFlow.HandleRequestingEvidence` | src/setback/interview/flow.py:392-400 | Keeps an elaboration unless the answer declines; then asks to confirm |
| `Interviews.InterviewFlow.HandleConfirming` | src/setback/interview/flow.py:426-443 | Affirmed: the concern is closed and more is asked for; otherwise the dispute is kept and clarifying starts again |
| `Interviews.InterviewFlow.RecordEvidenceUpload` | src/setback/interview/flow.py:402-413 | Attaches to the concern under discussion, moving on only from the evidence stage; without one returns the last turn or starts |
| `Interviews.InterviewFlow.Resume` | src/setback/interview/flow.py:291-321 | Sets stage from the last turn, and transcript, concerns and current concern as given |
| `RehydrationLaws.RestartsKeepTheirPlace` | src/setback/console/app.py:547-585 | After any run of answers, uploads, visits and restarts on a new case in which nothing said repeats the log, the live flow and the rebuilt one share stage, whether a concern is under discussion and its statement, and neither trips the assertion |
| `RehydrationLaws.RestartShowsTheSame` | src/setback/console/app.py:789-801 | Until the interview is over, looking at it shows the log's last turn, whether or not the process restarted |
| `RehydrationLaws.AnswerShowsTheSame` | src/setback/console/app.py:803-833 | The reply to a new answer is what looking at the interview then shows |
| `RehydrationLaws.RebuiltConcernIs` | src/setback/console/app.py:445-481 | A rebuilt process has one confirmed concern per ground: its claim, with the type and documents of its last tag, or the claim's keyword type and none |
| `RehydrationLaws.UploadIsNoted` | src/setback/console/app.py:835-873 | A document is noted whether or not a flow is held, and attached to the concern under discussion if there is one |
| `RehydrationLaws.AnswerAgreesIff` | src/setback/console/app.py:375-392 | From a flow in step with its log, one answer leaves the rebuilt flow where the live one stands if and only if its system turn, and an opening statement, are new to the log |
| `RehydrationLaws.UploadAgreesIff` | src/setback/console/app.py:869-872 | The same for an upload: exactly when the confirmation it triggers is new |
| `RehydrationLaws.RunIsSteady` | src/setback/console/app.py:789-829 | The invariant behind it, over any run of the console including restarts |
| `RehydrationLaws.RepeatedStatementStrands` | src/setback/console/app.py:483-536 | The rebuilt flow fails on every answer exactly when the opening statement was already in the log |
| `RehydrationLaws.RepeatedQuestionFallsBehind` | src/setback/console/app.py:375-382 | A question repeated in the same words at the same stage leaves the rebuilt flow one stage behind |
| `RehydrationLaws.CrashKeepsTheStage` | src/setback/console/app.py:822-824 | A process that dies between persisting an answer and its question leaves a log from which the flow is rebuilt where it stood before the answer |
| `RehydrationLaws.AbandonedStatementReturns` | src/setback/console/app.py:529-530 | When that answer was an opening statement and another is given after the restart, a later rebuild goes back to the abandoned one |
| `RebuiltConcerns.RebuiltDisputeLosesTheStatement` | src/setback/console/app.py:539-544 | A dispute after a restart leaves only the new clarification in the text; it agrees with the live text exactly when the concern's base is blank |
| `Conversations.StatementLost` | src/setback/console/app.py:539-544 | An interview in which the two differ |
| `RebuiltConcerns.RebuiltDisputeKeepsTheWording` | src/setback/console/app.py:499-503 | A restart between a dispute and its new clarification: the two texts agree exactly when the live base and all the rebuilt concern held read alike but for white space; for a base as the offline normaliser makes it, exactly when nothing visible is left of the earlier clarifications |
| `Conversations.WordingKept` | src/setback/console/app.py:499-503 | An interview in which the disputed wording comes back |
| `RebuiltConcerns.FiledAsLiveIff` | src/setback/console/app.py:405-437 | A concern confirmed after a restart in the middle of it is filed exactly as the live one would have been, ground, claim, category and tag, if and only if its type is the keyword one, no document was attached and its text survived |
| `RebuiltConcerns.OneClarificationSurvivesIff` | src/setback/console/app.py:524-537 | After one clarification and nothing else said, the text survives exactly when the base reads like the redacted statement |
| `RebuiltConcerns.DeclinedAnswerShowsIff` | src/setback/console/app.py:531-532 | An answer that declines to add evidence, dropped by the live flow, shows in the rebuilt text exactly when it redacts to something visible, where redaction works line by line |
| `RebuiltConcerns.TextSurvivesIff` | src/setback/console/app.py:524-537 | Whatever lines came before and after the latest clarification, the rebuilt text is the live one exactly when the later lines redact to nothing visible, and so do the earlier ones with the base or the clarification blank too; redaction line by line, base reading like the redacted statement |
| `RebuiltConcerns.TextWithEvidenceSurvivesIff` | src/setback/interview/flow.py:392-400 | The same when an answer about evidence was kept: if it is visible the clarification must end visibly, or nothing before it be visible, and nothing visible be left of earlier rounds |
| `RebuiltConcerns.InterviewTextSurvivesIff` | src/setback/console/app.py:483-537 | For any worded interview up to a confirmation, however often disputed: the log splits into earlier rounds, the latest clarification and at most one answer about evidence, which is the live text's round, and the text survives exactly as those two theorems say |
| `RebuiltConcerns.InterviewFiledAsLiveIff` | src/setback/console/app.py:405-437 | For such an interview with a visible base, filing by the process that heard it and by one that restarted first gives the same case exactly when the type is the keyword one, no document was attached and the text survives in that sense |
| `Conversations.FiledOtherwise` | src/setback/console/app.py:547-585 | A run of the console on a new case in which a restart just before the confirmation changes what is filed |
| `Conversations.OneFailureStrands` | src/setback/interview/flow.py:426-436 | An interview that one failed composition leaves unanswerable |
| `Conversations.StatementRepeated` | src/setback/console/app.py:375-382 | An interview in which a worry stated twice in the same words leaves the live flow answerable and the rebuilt one not |
| `Conversations.QuestionRepeated` | src/setback/console/app.py:375-382 | An interview in which a repeated question leaves the live flow clarifying and the rebuilt one confirming |
| `Conversations.StatementReturns` | src/setback/console/app.py:822-824 | An interview in which an abandoned statement returns |
| `Texts.AlikeIff` | src/setback/interview/flow.py:370-385 | Two texts trimmed after the same addition are the same exactly when they agree but for white space in front, or on both sides if the addition is blank |
| `RehydrationLaws.PersistedTurns` | src/setback/console/app.py:375-392 | Persisting a turn in the store writes it unless one of equal role, stage and text is there |
| `RebuiltConcerns.ConfirmedIsCandidate` | src/setback/console/app.py:405-437 | An affirmed confirmation files a proposed ground, claimed in the redacted text unless it is empty, that the tribunal will take up as a candidate; and, if nothing tagged it before, under the category of the concern's own type |
| `FiledConcerns.ConfirmedConcernOutcome` | src/setback/console/app.py:162-173 | A concern confirmed at the console and the job run on it: the ground reads supported exactly when the concern is not about a view or a property value, the hearing supports it and what counts proves it; those two are refused whatever the hearing |
| `RebuiltConcerns.ConfirmedConcernReturns` | src/setback/console/app.py:445-480 | Filed and rebuilt, a confirmed concern comes back with its type, its documents and its ground's claim |
| `Rehydration.InterviewConsole.ReconstructConfirmedConcerns` | src/setback/console/app.py:445-480 | The two loops give one concern per ground, in order, from its claim and its last tag |
| `RehydrationLaws.BlockIs` | src/setback/console/app.py:512-521 | The block in progress starts just after the last system request for more and holds none |
| `Rehydration.ReconstructInProgressConcern` | src/setback/console/app.py:483-544 | The two loops compute the concern of that block: its first statement and all its clarifications |
| `Rehydration.InterviewConsole.AnswerInterview` | src/setback/console/app.py:811-829 | Answer persisted, then the machine, then its turn, then the ground; each failure at its place |
| `Rehydration.InterviewConsole.UploadDocument` | src/setback/console/app.py:835-873 | Document noted, attached if a flow is held, and the returned turn persisted as the system's |
| `Rehydration.InterviewConsole.GetInterview` | src/setback/console/app.py:789-801 | Held flow, rebuilt flow, or a fresh greeting that is persisted |
| `Courts.SupportedIff` | src/setback/court/graph.py:279-390 | The court supports exactly when both surviving confident reviewers do, or they split and a confident adjudicator does; unresolved exactly when neither happens for either stance, and then it reads as a rejection citing nothing |
| `Courts.WhatIsCited` | src/setback/court/graph.py:312-388 | A unanimous verdict cites exactly what the reviewers cited, all of it known, the clause reviewer first, with the lower of their confidences; an adjudicated one is the adjudicator's own, citations unchecked |
| `Courts.DedupeKeepsAll` | src/setback/court/graph.py:170-172 | Deduplication keeps every reference, once |
| `Courts.DedupeInOrder` | src/setback/court/graph.py:170-172 | It keeps the order of first mention: more references only add at the end |
| `Gates.SubstantiatedIff` | src/setback/gate/validator.py:158-203 | The list of issues is empty exactly when something is cited and every citation resolves |
| `Gates.IssuesAre` | src/setback/gate/validator.py:158-203 | Every issue listed is a fault some citation suffers from, and no fault goes unlisted |
| `Gates.CheckCitations` | src/setback/gate/validator.py:158-203 | The loop collects every issue of every citation in order |
| `Gates.ValidateGround` | src/setback/gate/validator.py:206-271 | The decision and the breaker afterwards, with and without a breaker |
| `Gates.DecidedAs` | src/setback/gate/validator.py:206-271 | A decision told apart: irrelevant exactly if no head, shipped exactly if something is cited and all resolves, a head cited by its paragraph, and as issues exactly the faults |
| `Gates.FlaggedExactly` | src/setback/gate/validator.py:227-255 | With one shared breaker over any run of validations: flagged exactly for a relevant citation failure once failures since the last success reach the threshold and the cooldown is not over at the reading; irrelevant grounds are not heard of |
| `Gates.EscalatesAtThreshold` | src/setback/gate/validator.py:238-255 | Within one clock tick and a positive timeout: refused below the threshold, flagged from it on |
| `Intake.CitationClosure` | src/setback/job/pipeline.py:731-770 | A candidate built from any references passes the citation check exactly when one was kept, every kept box lies within its document's first page, and a cited control finds that the first document has a page |
| `Intake.OneCitation` | src/setback/job/pipeline.py:731-755 | Of a kept citation the document, control and quoted value always check out; one from an anchor resolves exactly when it has no box or the box lies within its document's first page |
| `Intake.KnownRefsAreKept` | src/setback/job/pipeline.py:721-770 | Of the references a reviewer may use only bare clause references fail to become a citation, given a document |
| `AssembledDossiers.AssembledClosure` | src/setback/job/pipeline.py:731-770 | End to end: on a dossier assembled from distinct ids whose first document has a page, grown by any anchors on existing pages, a ground passes the citation check exactly when one citation was kept and every kept box lies within its document's first page; when boxes are registered on first pages only, within its own page |
| `AssembledDossiers.FirstPageClosure` | src/setback/job/pipeline.py:1223-1244 | The same for any well-formed dossier whose boxes are all on first pages, which is all the job registers |
| `AssembledDossiers.AssembledIs` | src/setback/evidence/dossier.py:457-543 | An assembled dossier with distinct ids is well formed, has its boxes on first pages, and its first document is its first input |
| `AssembledDossiers.BoxJudgedByFirstPage` | src/setback/gate/validator.py:158-203 | Of the gate's interface: an assembled dossier, grown by a box that fits the second page it is on, whose ground is refused all the same |
| `Intake.CandidatesAre` | src/setback/job/pipeline.py:632-657 | No candidate twice; exactly the tagged grounds with a record; each with its stored claim |
| `Intake.CategoriesAre` | src/setback/job/pipeline.py:632-657 | Every candidate's category is that of the first event that tags it |
| `Intake.CandidatesInOrder` | src/setback/job/pipeline.py:632-657 | Candidates stand in the order of their first tags |
| `Intake.CandidateGrounds` | src/setback/job/pipeline.py:632-657 | The loop over the log computes that list in tag order |
| `Intake.CandidateGroundFor` | src/setback/job/pipeline.py:758-770 | The loop keeps the citations that resolve, in order |
| `Dossiers.FreshManifestClosedIff` | src/setback/evidence/dossier.py:457-543 | A fresh dossier's anchors all lie on pages of its documents exactly when the last rendering under each id has at least as many pages as any earlier one |
| `Dossiers.DistinctIdsAreClosed` | src/setback/evidence/dossier.py:457-543 | With distinct ids that always holds |
| `Dossiers.WithAnchorKeepsClosed` | src/setback/evidence/dossier.py:361-369 | Adding an anchor on an existing page keeps it so |
| `Dossiers.AnchorsOf` | src/setback/evidence/dossier.py:457-543 | The manifest holds a page-level anchor for every page rendered under its document id, graded and captioned by the last input with that page, and nothing else |
| `Dossiers.DocumentsOf` | src/setback/evidence/dossier.py:457-543 | Every document is as it was last rendered: that input's title and grade, its pages numbered from one, each of its own size |
| `Dossiers.BuildDossier` | src/setback/evidence/dossier.py:457-543 | The assembly loops over plans and photos compute that dossier |
| `Dossiers.BuildClauseSlice` | src/setback/evidence/dossier.py:385-432 | One row per known control, formatted, with distinct names |
| `Dossiers.RowsAreDistinct` | src/setback/evidence/dossier.py:385-432 | No two control rows share a name, however many heritage flags |
| `Dossiers.RowsAre` | src/setback/evidence/dossier.py:385-432 | A row for every control the site has, under its own name with its own value, and no other |
| `AssembledDossiers.GateControlsAre` | src/setback/evidence/dossier.py:546-571 | The gate of an assembled dossier knows exactly the site's controls, each with its own value and unit |
| `Dossiers.ControlMapOf` | src/setback/evidence/dossier.py:546-571 | With distinct names the gate's control map has exactly each control's own value |
| `Propagation.DirectCitationsStay` | src/setback/job/pipeline.py:938-948 | A direct citation keeps its ground, and only boxes gain one |
| `Propagation.AllOrNothingPerPage` | src/setback/job/pipeline.py:949-965 | On a page with any directly cited box nothing is gained; on any other every box reads the page's one winner, or nothing |
| `Propagation.WinnerIsMostSevere` | src/setback/job/pipeline.py:828-857 | The winner cited the page, is decided and of greatest severity among those shown the document, or among all if none was |
| `Propagation.MostSevereWins` | src/setback/job/pipeline.py:806-825 | The first of the most severe, none exactly when nothing is decided |
| `Propagation.MostSevereGround` | src/setback/job/pipeline.py:806-825 | The loop computes it |
| `Propagation.PropagationIsIdempotent` | src/setback/job/pipeline.py:860-965 | Applied to its own result it changes nothing |
| `Propagation.PropagatePageLevel` | src/setback/job/pipeline.py:860-965 | The loop over the manifest computes a result that depends on the set of anchors only, not on their order |
| `Breakers.ClosedForm` | src/setback/state/breakers.py:56-89 | For every history, threshold, timeout and instant the mutable breaker is closed exactly while failures since the last success stay below the threshold, else half-open exactly once the timeout has passed since the last failure |
| `Breakers.ClosedFormWithReloads` | src/setback/state/firestore.py:242-274 | The same through any number of save and load cycles, with the failures a reload still remembers |
| `Breakers.NeverSilentlyCloses` | src/setback/state/firestore.py:252-274 | A tripped breaker stays so through any failures and reloads until a success |
| `Breakers.ReloadKeepsTripped` | src/setback/state/firestore.py:252-274 | A reload keeps a tripped breaker tripped at all times exactly when the threshold is at least one |
| `Breakers.ReloadCloses` | src/setback/state/firestore.py:252-274 | A breaker with threshold zero that one failure opened and a reload closed |
| `Breakers.ReloadIsConservative` | src/setback/state/firestore.py:252-274 | With no further calls a reloaded breaker is half-open only when the original would be |
| `Breakers.RestoreBreaker` | src/setback/state/firestore.py:252-274 | The loop of recorded failures reaches the restored fields, for any clock |
| `Breakers.CircuitBreaker.RecordFailure` | src/setback/state/breakers.py:79-89 | A failed probe reopens; otherwise the count grows and trips at the threshold |
| `Breakers.DegradingBreaker.Current` | src/setback/state/breakers.py:105-107 | The fallback exactly while open |
| `Ledgers.CeilingHolds` | src/setback/state/ledger.py:80-92 | Over any attempts, refused ones included, every record keeps to the price table, no running total exceeds the ceiling, and the total never exceeds a non-negative ceiling |
| `Ledgers.RestoreRoundTrip` | src/setback/state/firestore.py:298-325 | Restoring a snapshot of any such ledger raises nothing and gives the same calls apart from `estimated`, total and ceiling |
| `Ledgers.LoadAfterSave` | src/setback/state/firestore.py:298-325 | End to end, whatever was attempted |
| `Ledgers.RestoreLedger` | src/setback/state/firestore.py:313-325 | The replay loop, and the first refusal it raises |
| `Ledgers.Ledger.Record` | src/setback/state/ledger.py:80-92 | Unknown model and exceeded ceiling refuse and change nothing; otherwise one record is added |
| `Ledgers.TokenCosts` | src/setback/state/ledger.py:66-78 | One more token costs its list price, and thinking tokens cost what output tokens do |
| `RateLimiter.SlidingWindowRateLimiter.Allow` | src/setback/console/guards.py:106-118 | The pruned deque answers exactly as the full history: allowed iff fewer than `limit` granted calls of the key lie in the window |
| `RateLimiter.WindowBound` | src/setback/console/guards.py:89-118 | At no instant does any window hold more than `limit` granted calls of one key |
| `RateLimiter.KeysAreIndependent` | src/setback/console/guards.py:106-118 | What a key is granted does not depend on other keys' calls |
| `RateLimiter.DecisionStep` | src/setback/console/guards.py:106-118 | Once pruned, the deque's length is the window's count |
| `RateLimiter.SlidingWindowRateLimiter.Prune` | src/setback/console/guards.py:108-112 | Only instants outside the window are dropped, and none is left at the front |
| `OverlayBoxes.BuildOverlayBoxes` | src/setback/evidence/overlays.py:231-271 | Every element classified; unchanged within the ceiling, decided boxes then neutral ones beyond it, with Python's meaning of a negative bound |
| `OverlayBoxes.CeilingKeepsTheDecided` | src/setback/evidence/overlays.py:237-271 | For every list and every ceiling from zero up: exactly the ceiling is drawn, or everything; each group keeps its order and loses only its last ones; no neutral box is drawn while a decided one is dropped |
| `OverlayBoxes.NegativeCeiling` | src/setback/evidence/overlays.py:237-271 | A negative ceiling draws no neutral box and drops that many decided ones from the end |
| `OverlayBoxes.ColourOfABox` | src/setback/evidence/overlays.py:180-199 | A box on a page cited only as a whole shows the worst outcome of any ground citing it, refused before flagged before shipped; on a page with a cited box it keeps its own ground's colour |
| `RunOverlays.RunColours` | src/setback/job/pipeline.py:1820-1828 | On a page of which no box counted in a hearing, a box shows refused if any undecided candidate in whose hearing the page counted ends refused, else flagged if any ends flagged, else shipped, and neutral if the page counted in none |
| `RunOverlays.CompletedColours` | src/setback/job/pipeline.py:1820-1828 | The same in terms of what the records read once the run completes |
| `RunOverlays.RunColoursDirect` | src/setback/job/pipeline.py:1710-1717 | On any other page a box shows how the last candidate in whose hearing it counted ends, and is neutral without one |
| `RunOverlays.PagesAre` | src/setback/job/pipeline.py:1710-1729 | The grounds remembered for a page are those of all undecided candidates in whose hearings the page as a whole counted |
| `RunOverlays.CitedAre` | src/setback/job/pipeline.py:1710-1717 | For each reference the last candidate in whose hearing it counted is remembered |
| `ChipLayout.StackClear` | src/setback/evidence/overlays.py:457-484 | Ends for every input; stops at the first free rung or the last before the edge; downwards with no bound it always clears; upwards it never leaves the top |
| `ChipLayout.PlaceChip` | src/setback/evidence/overlays.py:501-619 | The first free rung above that stays on the image, else the ladder below; never on its own box; blocked only if one more rung would leave the bottom edge |
| `ChipLayout.RenderOverlay` | src/setback/evidence/overlays.py:661-680 | Over the whole box loop: one chip per drawn box, none on its own box, two chips share space only if the later was stopped by the bottom edge, and each is cut to a share of the image's width and, hung from a box on the image, stays on it from side to side |
| `ChipLayout.KeptAre` | src/setback/evidence/overlays.py:661-664 | Exactly the boxes that do not cover the page are drawn, each as often as it is given |
| `ChipLayout.KeptInOrder` | src/setback/evidence/overlays.py:661-664 | And in the order they are given |
| `ChipLayout.PixelsFollowPoints` | src/setback/evidence/overlays.py:664-666 | A box on the page lies on its image, the right way up |
| `ChipLayout.ApartAwayFromTheEdge` | src/setback/evidence/overlays.py:661-680 | If all chips keep clear of the bottom edge they are pairwise disjoint |
| `ChipLayout.TruncateToFit` | src/setback/evidence/overlays.py:415-439 | The text itself, the longest shortened form that fits, or a bare ellipsis |
| `ChipLayout.AnchorStaysOnCanvas` | src/setback/evidence/overlays.py:442-454 | A chip no wider than the image, hung from a box inside it, stays inside |

## Left out

- Timestamps, heartbeats, `get_case`, `list_cases` and `load_ledger`: plain reads and clock values, no property.
- Case ids: the code hashes application number and session joined by a colon, so two pairs that join to the same text would share a case; here the pair is the id.
- Residents filing further grounds between two executions of a chain: the candidates of a chain are those it started with.
- The explainer's headings and encouraging notes: wording derived from category and status, which `ExplainerPrints` covers.
- HTTP, cookies, hashing, the Firestore client, HTML and wording: no property beyond injective ids.
- A store operation is atomic here; a crash between writing a record and its event is not modelled, as the code promises nothing there.
- A case that does not exist when the job starts: the job refuses it before its first step.
- Two jobs at once on one case, outside the video protocol: booking and grounds are proved for executions that follow one another.
- ChainLaws.ChainBooksOnce: at most once for executions one after another only, because the code reads the marker from the start-of-run snapshot.
- The ground-id check inside the court graph, and the collection of its events: the verdict is modelled as one function of both opinions, the bench and the recheck.
- Adjudicator breaker and ledger during a run: the values saved at the end are oracle values, so every evolution is covered but none is derived.
- Whether a model call fails half-way through a ground: an execution may stop there, which is modelled; what the failed call cost is not.
- The overlay in `Run` is computed even when no page image was grounded; the code then skips it and nothing reads it.
- `label_for` and box colours: a suffix and a table per role; only easy members.
- Illustration gating of the video step (origin of the case, exclusions, overshadowing grounds): one check each, free choices in the protocol.
- The tribunal concurrency cap and the daily spend breaker: check-then-act with no guarantee to prove.
- Floating-point rounding, font metrics and number formatting: reals, an abstract width and height, an injective format.
- A concern under discussion is a value held by the flow, not an object of its own: the flow is the only holder of it.
- RehydrationLaws.RestartsKeepTheirPlace: requests are handled one at a time and every question is worded; a failed composition is covered by StuckIff and RetriedClarification instead.
- RebuiltConcerns.InterviewTextSurvivesIff: redaction that reaches across two lines, and a base that does not read like the redacted statement (a model's rewording), for which OneClarificationSurvivesIff and FiledAsLiveIff say what is left.
- Rate caps, anonymous spend and the refusal feedback around the interview routes.
- `DegradingBreaker.record_success` and `record_failure`: plain delegation.
