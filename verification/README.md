# RelayAI, modelled and proved in Dafny

RelayAI records a flow on a legacy screen once, compiles it to a capability, and replays the capability
deterministically, handing risky steps to a person. This project models the parts of it that decide what a
replay may do, and proves what they promise over every surface, every operator and every run.

- **Replay engine** (`Capabilities`, `Ledger`, `Trace`, `Engine`, `TraceLaws`, `ExecuteOnce`, `RepeatedActs`). `ReplayEngine` is
  the source's object with its fields and loops. The surface, the operator, the policy and the rate limiter are a
  finite tape of answers about which nothing is assumed; a missing or ill-typed answer is a call that throws, so
  every prefix of every run is covered. Each method keeps a ghost trace of events and shows that the next event was
  allowed (`Trace.Legal`) and that every look, act, admission, word of the operator and ruling of the policy on the
  trace is the tape's answer, in order (`Trace.Faithful`). `TraceLaws` turns the rules into statements about whole
  traces that do not mention the observer: who released a risky act, what every other act was for, what success rests
  on, what each retry was for and how many there may be, why a run stopped, how deep runs nest, where each output was
  read. `ExecuteOnce` says when a step that has been acted on may be acted on again.
- **Control planes** (`Decisions`, `Lifecycle`, `Control`). The intervention record as a value, the plane as a
  class with one method per stretch of code between two awaits, and a world in which any number of planes on any
  number of surfaces interleave at those awaits, with timers that fire and operators who keep their handles.
- **Compiler** (`Canonical`, `Locators`, `Ranked`, `Compile`, `CompileLaws`). The pass over a recording, and the
  proof that materialising its steps with the recorded values is the recording again.
- **Bank console** (`Console`, `ConsoleLaws`). A function per write handler, the stores and the server as classes
  that do the same in place, and the invariant over every interleaving of requests, card posts cut at the await
  of their body.
- **Kernels** (`Redact`, `KeyText`, `Outputs`, `Routes`, `Limiter`): deep redaction, idempotency key text, money
  parsing, the glob matcher, the sliding window with its pruning store.

`Prelude` and `Text` hold optional values, awaited calls and string primitives.

Four things the code does that its description does not say, with the exact conditions:

- Retries behind an act charge no budget, so a risky step that was released once ("will execute once" in the
  hand-back's own words) may be acted on again. The condition is on the declared screens and the budget: the act about
  to be taken is the last of its step in every trace the rules allow, whatever comes of it, if and only if no retry is
  left in the step's budget and there are not both a screen that sends the step round - recognised, behind a refused
  act or a missed checkpoint, as declared transient or recoverable, or as an expired session with an operator wired -
  and a clear screen to act on (`ExecuteOnce.ExecutesOnceExactlyWhen`). Where there are both, no number bounds the
  acts, for any capability (`ExecuteOnce.ActsAnyNumberOfTimes`); where no such screen is declared, no run acts on a
  step more than once and once more for each retry of its budget (`ExecuteOnce.ActedOnceUnlessDeclared`).
  `RepeatedActs` has one such trace from its first event on: released once, budget zero, any number of acts. The
  bounds on turns and acts count the uncharged retries (`TraceLaws.StepStaysInBudget`), and each of them has an act, a
  look and an excuse of its own (`TraceLaws.RetriesAreExcused`).
- The console finds members through a plain object, so the name of an inherited property (`constructor`) passes
  the gate of the sub-account page although nobody has that id. A sub-account row is for an active member exactly
  when its id is no such name (`ConsoleLaws.SubAccountsAreForActiveMembersUnlessInherited`);
  `ConsoleLaws.NobodyGetsASubAccount` is a run that shows the other case. Disputes and cards are not affected.
- The compiler keeps one value to a parameter name: the last one typed, or, if none was typed, the first row cell
  under its header. Replay does what was recorded if and only if each value typed and each cell that picks a row, of
  any control without a scope of its own, is that final value (`CompileLaws.ReplaysExactlyWhenFinal`). A field typed
  into twice loses its first value (`CompileLaws.FieldTypedTwice`); of two rows opened one after the other, by a named
  button or a nameless one, the second is lost, with nothing typed at all (`CompileLaws.SecondRowLost`).
- A noted value can show again behind redaction if and only if some marker can spell it, in whole or in part
  (`Redact.ProvisoIsExact`): a later value's replacement may then complete it.

`dafny verify dfyconfig.toml` checks the project.

## Model

| member | source | states |
|---|---|---|
| TraceLaws.RiskyActsAreReleased | src/replay/engine.ts:304-318 | A risky step's action reaches the surface only outside dry runs and only with blanket approval, or because in the same step's loop the operator was asked about it and resumed without aborting or reporting it done, the run then looked, and on that look the step's checkpoint did not hold and the newest intervention's page did. At any nesting depth. |
| TraceLaws.HandBackWasSound | src/replay/handoff.ts:91-147 | Every hand-back that lets the run execute goes back to the operator's recorded answer in the same turn, undone, and to a look behind it that misses the step's checkpoint and holds the newest intervention's page. |
| TraceLaws.AbortIsFinal | src/replay/handoff.ts:72-89 | A risky step whose hand-off the operator has aborted is not acted on before another step begins, whatever happens in between. |
| TraceLaws.EscalationsPauseOnTheScreen | src/replay/handoff.ts:150-174 | The page an intervention remembers is the page last looked at. |
| TraceLaws.ActsAreTheNextStep | src/replay/engine.ts:315-347 | Every act of a recorded step is the next step in order, materialised from its own run's inputs, with the run's idempotency key if risky, on a screen without anti-checkpoint, in an approved capability with accepted inputs. |
| TraceLaws.ActsArePermitted | src/replay/engine.ts:321-337 | No action of a recorded step reaches the surface before the policy has allowed this very action in the same turn. |
| TraceLaws.ActsBesideTheSteps | src/replay/engine.ts:817-842 | No act is of the run's own making: beside the recorded steps' actions there are only the three sign-in acts of an outermost run with a credential, on a login screen; the dismissal or wait that the declared screen on the latest look asks for, once a look; and reads of an output that is still missing, by its own locator, on a look that shows success. |
| TraceLaws.ClosingMeansSuccess | src/replay/engine.ts:204-569 | A run that closes saw its success checkpoint and no anti-checkpoint on its latest look, and every one of its steps, in order, ended by its own successful act with its checkpoint shown; or on a look that shows its checkpoint, with a session the operator had restored and no step had used up; or by the operator's recorded answer, done, or with the checkpoint showing on the look behind it. Only a first navigation may be passed over. The first declared screen on that last look, if any, is transient, recoverable, or an expired session that the operator then restored. |
| TraceLaws.UsesAreSettledFirst | src/replay/compose.ts:34-69 | A capability's own steps open only when each of its uses has shown its success on the latest look or run as a child, with the passed inputs, to its close. |
| TraceLaws.OutputsAreRead | src/replay/engine.ts:426-558 | Every output is the coerced text of its step's own newest successful act, or was still missing and is the coerced text extracted for it behind the look that shows success. |
| TraceLaws.AmbiguityMeansActed | src/replay/engine.ts:448-494 | A run ends ambiguous only if a risky step's act went through and is the newest act. |
| TraceLaws.StepStaysInBudget | src/replay/engine.ts:205-498 | At any point of any run the current step has gone round at most 1 + 2 budgets beyond session hand-backs and uncharged retries, and has acted at most 1 + budget beyond uncharged retries. |
| TraceLaws.RetriesAreExcused | src/replay/engine.ts:391-478 | An uncharged retry has an act of its own in the same turn, refused for good or short of its checkpoint, and behind it a look of its own on a declared screen that was then dismissed or waited out as declared, or on an expired session that the operator then restored. |
| TraceLaws.ResumesAreAnswered | src/replay/engine.ts:230-263 | A session hand-back that charges nothing has a look of its own on an expired session and the operator's resume behind it. |
| TraceLaws.ChargesAreEarned | src/replay/engine.ts:233-289 | A charge is for a recognised screen of the matching class on the turn's own look, dismissed or waited out as declared before it, or for the turn's own act that came back worth repeating. |
| ExecuteOnce.ExecutesOnceExactlyWhen | src/replay/engine.ts:211-497 | The act about to be taken is the last of its step in every continuation, whatever its result, if and only if no retry of the budget is left and there are not both a screen that sends the step round and a screen that is clear. |
| ExecuteOnce.ActsAgainExactlyWhen | src/replay/engine.ts:365-497 | Behind an act that came back, another act of the step can follow if and only if the result is worth repeating and budget is left, or some screen excuses that result and some screen is clear, or is left pending by a transient one within budget. |
| ExecuteOnce.ActsAnyNumberOfTimes | src/replay/engine.ts:391-478 | For an arbitrary capability: where some screen excuses the result and some screen is clear, every trace that ends with the act goes on, in the same step, to any number of acts more. |
| ExecuteOnce.ActedOnceUnlessDeclared | src/replay/engine.ts:391-478 | At any point of any run, a step whose capability declares no transient and no recoverable screen, and no expired session where an operator is wired, has been acted on at most once and once more for each retry of its budget. |
| ExecuteOnce.ThrowingIsFinal | src/replay/engine.ts:570-582 | A step whose act threw is never acted on again in its loop. |
| RepeatedActs.ReleasedOnceActedOnOften | src/replay/engine.ts:391-413 | For every number there is a lawful trace in which the operator is asked once about a risky step without retry budget, and the step is acted on that often. |
| TraceLaws.AbortsWereSpoken | src/replay/classifier.ts:121-155 | A run that stops as aborted was told so by the operator, with that very code, and has not acted since. |
| TraceLaws.UncaughtHadACause | src/replay/engine.ts:570-582 | A run stops as uncaught only because one of its own calls threw or a capability it uses could not be loaded. |
| TraceLaws.FailuresHaveARoot | src/replay/engine.ts:172-176 | An outcome handed up from child to parent goes back to a run that was entered beneath the one that passes it on and while that one was on: it gave the outcome as its own, or was turned away with it at a gate. |
| Trace.Recording | src/replay/engine.ts:212-349 | One more event keeps the trace lawful and faithful: what it records of looks, acts, admissions, operator words and policy rulings are the answers given, in their order, and a call throws only on an answer that does not fit or when there is none. |
| TraceLaws.CallsWereAnswered | src/replay/engine.ts:212-349 | Each look, act, admission, word of the operator and ruling of the policy on a trace is an answer the environment gave, or a call that threw. |
| TraceLaws.NestingIsBounded | src/replay/engine.ts:157-176 | Runs nest no deeper than the catalog has distinct ids, plus the outermost, cyclic catalog or not. |
| TraceLaws.NoRunBeneathItself | src/replay/engine.ts:157-170 | A capability is entered again only after its earlier run has been left. |
| Engine.ReplayEngine.Run | src/replay/engine.ts:70-583 | For any answers of the environment: the trace stays lawful and records only answers given, the run terminates, a refused run leaves no event and names the first gate that had to refuse it, every run that leaves an event was admitted by the kill switch and the limiter, any other run that stops short says why just before it leaves - with a reason of its own that the trace bears out, or with the outcome its child gave -, a success has exactly the outputs the trace reads, every declared one among them and of its type, and the ledger law holds. |
| Engine.ReplayEngine.RunAll | src/replay/engine.ts:682-709 | Over any list of non-dry runs sharing a ledger, a pair of capability and key with side effects has at most one success row, and once it succeeded a run with that key leaves no event at all. |
| Engine.ReplayEngine.RunTop | src/replay/engine.ts:1006-1055 | One run's effect on the ledger: rows only grow, an effectful pair gains at most its one row, a repeat does nothing, a success is recorded. |
| Engine.ReplayEngine.Gates | src/replay/engine.ts:585-709 | A run is let through exactly when the kill switch and the limiter answer so, it is approved, its session fits, it does not repeat and does not cycle, with its own audit and ledger wired; a refusal carries the code of the first of these that fails. |
| Engine.ReplayEngine.Prepare | src/replay/engine.ts:71-103 | The run looks with its own inputs and operator; a restored session is remembered by a nested run and forgotten by any other. |
| Engine.ReplayEngine.Body | src/replay/engine.ts:157-583 | An admitted run enters and leaves, catches what throws, and ends in a success that closed or in an account of why not. |
| Engine.ReplayEngine.TryRun | src/replay/engine.ts:171-569 | Children, then own steps; a run that is no repeat adds its own row at most once, beside what its children wrote. |
| Engine.ReplayEngine.RunUsed | src/replay/compose.ts:34-69 | A use is settled by one event, passed over or joined with the child's outputs merged into the parent's; or it stops the parent with the outcome its child gave or was turned away with. |
| Engine.ReplayEngine.AlreadyShows | src/replay/compose.ts:35-43 | A use is passed over only on a look that shows its success. |
| Engine.ReplayEngine.RunChild | src/replay/compose.ts:48-65 | A child runs one level down with the passed inputs and the outputs so far; behind it the parent's audit and ledger are its own again, the engine looks with some of the parent's inputs only, and none of the parent's ledger rows moved. |
| Engine.ReplayEngine.RunChildren | src/replay/engine.ts:172-175 | Children in order; without any, inputs and outputs are untouched. |
| Engine.ChildHasLessHeadroom | src/replay/engine.ts:157-170 | Each nested run uses up a catalog id, so composition terminates on any finite catalog. |
| Engine.OwnRowKeepsTheLaw | src/replay/engine.ts:682-709 | A run that was not a repeat keeps its pair at one success row, whatever its children wrote. |
| Engine.ChildKeepsTheLaw | src/replay/compose.ts:48-65 | A child that obeys the ledger law leaves its ancestors' rows alone. |
| Engine.ReplayEngine.Land | src/replay/engine.ts:178-202 | The own steps open only on the entry screen or with a navigation first, which is skipped when the entry already shows; otherwise the run fails with nothing opened. |
| Engine.ReplayEngine.RunSteps | src/replay/engine.ts:204-499 | The remaining steps run in order, each to its end, or the run stops for a reason the trace bears out. |
| Engine.ReplayEngine.RunStep | src/replay/engine.ts:205-498 | One step ends done or stops the run justly, writing at most its own output, of its declared type. |
| Engine.ReplayEngine.Turn | src/replay/engine.ts:211-497 | One turn of the step loop keeps its counters equal to the trace's counts and within budget. |
| Engine.ReplayEngine.TopOfLoop | src/replay/engine.ts:211-306 | Every turn takes one fresh look, counted, before anything else but the acts that sign an outermost run in. |
| Engine.ReplayEngine.Screen | src/replay/engine.ts:216-291 | A step goes on only on a screen without anti-checkpoint and without a recognised exception, a pending retry aside. |
| Engine.ReplayEngine.Recover | src/replay/engine.ts:233-289 | A dismissal or a wait charges exactly its own counter and stops the run exactly when that is used up; a restored session charges nothing, and is called for by the screen and the operator's word. |
| Engine.ReplayEngine.BeforeActing | src/replay/engine.ts:291-306 | A restored session ends the step exactly when its checkpoint holds, and is used up by that alone; a dry run stops in front of a risky step. |
| Engine.ReplayEngine.TakeStep | src/replay/engine.ts:308-347 | A risky step that is not approved goes to the operator first, blocked without one and stopped by an abort; handed back undone, it is approved from then on in this loop. |
| Engine.ReplayEngine.AfterRiskyHandback | src/replay/handoff.ts:47-89 | Without an operator the run stops blocked; an abort stops it with the operator's code; it executes only if the operator left the step undone. |
| Engine.ReplayEngine.Conclude | src/replay/handoff.ts:106-147 | Exactly when the checkpoint holds or the operator reports the step done it is skipped; otherwise it executes exactly when the newest intervention's page still shows, and the run stops if not. |
| Engine.ReplayEngine.HandleException | src/replay/classifier.ts:92-230 | Each class of recognised screen leads to its own disposition and status; a screen to dismiss or wait out is answered with its declared act, and none without one; where a person is wanted, the operator's answer decides; a stop is explained by the screen. |
| Engine.ReplayEngine.HeedScreen | src/replay/engine.ts:515-519 | A recognised screen on a look lets the run go on only if it is transient, recoverable or a session restored by the operator; it stops the run for its own reason otherwise. |
| Engine.ReplayEngine.CallAPerson | src/replay/classifier.ts:121-189 | An expired session is restored exactly when the operator resumes, and an abort ends the run with the operator's code; every other call for a person ends the run. |
| Engine.ReplayEngine.AttemptStep | src/replay/engine.ts:315-497 | An action the policy refuses ends the run; a permitted one is issued once and settled, backed off if worth repeating, sent round again by an excused retry, or ends the run. |
| Engine.ReplayEngine.AfterRefusal | src/replay/engine.ts:391-423 | A failed act is judged by the look behind it: a locator miss declared for it goes first and its class fixes the result, an expired session among the misses is put to the operator, then the other declared screens count; it goes again only for one of these, and is reported as a locator miss only if neither is there. |
| Engine.ReplayEngine.TakeOutput | src/replay/engine.ts:426-446 | The output read by a successful act is coerced and written before the screen is looked at, or is none of its type and stops the run. |
| Engine.ReplayEngine.SettleAct | src/replay/engine.ts:426-496 | A successful act writes at most its step's output, coerced from its text, before the screen is looked at; it ends the step, goes again uncharged, or stops the run justly. |
| Engine.ReplayEngine.JudgeAct | src/replay/engine.ts:448-496 | The look behind the act ends the step exactly when no anti-checkpoint and its own checkpoint hold, goes again only on a declared screen, and else stops the run. |
| Engine.ReplayEngine.BackOff | src/replay/engine.ts:365-391 | A retryable refusal charges the transient budget and gives up exactly when it is used up. |
| Engine.ReplayEngine.JudgeFinal | src/replay/engine.ts:501-531 | The run may close only on a look that shows the success checkpoint, no anti-checkpoint, and no declared screen but one that is transient, recoverable or a session then restored; it stops justly otherwise. |
| Engine.ReplayEngine.ExtractOutputs | src/replay/engine.ts:533-558 | Behind it every declared output is there, or the text just read for a missing one is none of its type; nothing set before changes, and what is not inherited has its declared type. |
| Engine.ReplayEngine.Complete | src/replay/engine.ts:1006-1055 | One ledger row per result of a wired run; anything but success leaves every count of success rows alone. |
| Engine.ReplayEngine.EscalateToHuman | src/replay/handoff.ts:150-174 | The newest intervention remembers the page last looked at, and the decision returned is the operator's answer in normal form. |
| Engine.ReplayEngine.MaybeSignIn | src/replay/engine.ts:817-842 | A sign-in is tried exactly on a login screen of an outermost run with a credential; otherwise nothing happens. |
| Engine.WritesKeepTypes | src/replay/engine.ts:426-446 | A step's output write keeps every declared output at its declared type. |
| Ledger.Find | src/replay/ledger.ts:37-41 | The backwards search finds a row exactly when the pair has a success row. |
| Ledger.WinsCountRows | src/replay/ledger.ts:34-46 | At most one win means no two equal success rows in the ledger. |
| Capabilities.MatchException | src/replay/classifier.ts:34-36 | The result is a declared state whose detector fires; none means no detector does. |
| Capabilities.MatchMiss | src/replay/classifier.ts:38-50 | The same for locator-miss detectors. |
| Decisions.NormalizeDecision | src/escalation/control.ts:334-346 | Abort and the abort disposition imply each other, completion is the disposition's, and who decided and why are kept. |
| Lifecycle.TransitionKeepsSound | src/escalation/lifecycle.ts:66-92 | A transition is refused exactly when it is not in the table; otherwise the record's transitions stay a path of the table to its state, with each timestamp set exactly when, and to when, its state occurred. |
| Lifecycle.Create | src/escalation/lifecycle.ts:50-64 | A new record is raised, with no timestamp but its creation. |
| Lifecycle.StatesOccurOnce | src/escalation/lifecycle.ts:19-26 | No state occurs twice on a record's path, so its timestamp is unambiguous. |
| Control.NoIllegalTransition | src/escalation/control.ts:63-316 | At any point of any interleaving of planes, timers and operators, whatever comes next attempts no illegal transition. |
| Control.RecordsAreSound | src/escalation/control.ts:63-316 | Every record of every run is a path of the table, with its timestamps. |
| Control.EveryRunIsSound | src/escalation/control.ts:63-316 | The invariant that ties locks, owners, phases and records together holds at every point of every interleaving. |
| Control.OneLiveInterventionPerSurface | src/escalation/control.ts:44-94 | Two planes of one surface never both have a raised, claimed or in-control intervention. |
| Control.HumanOwnedMeansHandedOver | src/escalation/control.ts:112-167 | A surface is human-owned exactly while its lock holder is between pause and release. |
| Control.OnlyTheHolderMovesItsSurface | src/escalation/control.ts:112-167 | A turn that changes a surface's owner is its lock holder's. |
| Control.RefusalTouchesNothingElse | src/escalation/control.ts:77-93 | A second escalation on a held surface ends abandoned with a session-held abort; owner, lock and other planes stay. |
| Control.TimeoutAborts | src/escalation/control.ts:218-255 | A timer that fires before the decision yields an abort and a record abandoned at that moment. |
| Control.ReturnsLeaveTheAutomationInCharge | src/escalation/control.ts:162-173 | An escalation that took the lock returns with the automation owning the surface, the lock free, and the record abandoned or returned as decided. |
| Control.StepKeepsInv | src/escalation/control.ts:63-316 | Every stretch of code between two awaits goes through and keeps the invariant. |
| Control.OperatorsMoveLiveRecords | src/escalation/control.ts:184-216 | A handle moves live records only; a stale one does nothing. |
| Control.DecisionsSettleLiveRecords | src/escalation/control.ts:257-289 | A decision takes any live record to abandoned or returned by legal transitions. |
| Control.ControlPlane.BeginEscalation | src/escalation/control.ts:63-94 | Up to its first await an escalation takes a fresh id and either takes the lock or is refused. |
| Control.ControlPlane.Claim | src/escalation/control.ts:186-195 | Claims a raised record, else nothing. |
| Control.ControlPlane.TakeControl | src/escalation/control.ts:196-211 | Claims if need be, then takes control. |
| Control.ControlPlane.SettleRace | src/escalation/control.ts:257-289 | Applies the winning decision in the source's steps. |
| Control.ControlPlane.StartRace | src/escalation/control.ts:218-240 | An expired timer wins at once, else the waiter gets a handle. |
| Control.ControlPlane.FireTimer | src/escalation/control.ts:228-241 | The timer ends a race that is on and nothing else. |
| Control.ControlPlane.Release | src/escalation/control.ts:162-166 | Resume or abort, the automation owns the surface afterwards. |
| Control.ControlPlane.Close | src/escalation/control.ts:168-173 | The lock goes only if it is still this escalation's. |
| Control.ControlPlane.Finish | src/escalation/control.ts:176-182 | Finishing a settled record moves it once and never again. |
| CompileLaws.ReplaysExactlyWhenFinal | src/artifact/compile.ts:141-227 | With nothing that reads as a token, the steps behind the entry navigation, materialised with the recorded values, are the recorded actions in order - same action, value and output, on the same control, in the recorded row - minus extracts of a button and repeats of the extract just emitted, if and only if each value typed and each cell that picks a row is the final value of its name. A control is compared as ranked: a nameless, cell-in-row or fully ranked one field by field, a role-named one by role and name, any other named one by its name under its role or "generic". |
| CompileLaws.ReplayDoesWhatWasRecorded | src/artifact/compile.ts:141-227 | With one value to a parameter name every recording replays; where each row lifted picks a control without a scope of its own, no other recording does. |
| CompileLaws.ValuesAreFinal | src/artifact/compile.ts:106-183 | What a parameter name is bound to is what was last typed for it, else the first lifted cell of a kept step; names with neither are unbound. |
| CompileLaws.StepReplaysExactly | src/replay/engine.ts:844-858 | A compiled step, materialised, is its recorded action if and only if each binding it shows - the value typed, the cells that pick the row of any control without a scope of its own - has the value it was recorded with. |
| CompileLaws.ParametersAreBound | src/artifact/compile.ts:89-132 | Parameters, their values and their types are exactly what the kept steps bind. |
| CompileLaws.StepsAreTheKeptOnes | src/artifact/compile.ts:185-226 | One compiled step per kept recorded step, in order, and no other. |
| CompileLaws.RowTemplateExpands | src/artifact/compile.ts:106-132 | A row scope expands to the recorded row's identifying cells exactly when those are the values their names have. |
| CompileLaws.TargetReplays | src/replay/engine.ts:844-858 | Every control is replayed as the one sought, and in the recorded row exactly when its cells are the values their names have. |
| CompileLaws.RecordingIsAcceptedUnlessBlank | src/replay/inputs.ts:22-67 | A compiled capability accepts its own recording as input exactly when no recorded value is blank. |
| CompileLaws.TypedStepReplaysTheLastValue | src/artifact/compile.ts:169-183 | In general a typed step replays the last value typed for its parameter. |
| CompileLaws.FieldTypedTwice | src/artifact/compile.ts:169-183 | A recording whose first typed value is lost. |
| CompileLaws.SecondRowLost | src/artifact/compile.ts:106-132 | A recording of two rows opened, by a button named Open or by a nameless one, with nothing typed, whose second step replays in the first row. |
| Compile.CompileArtifact | src/artifact/compile.ts:149-227 | The loop that fills parameters, values and steps computes the fold the lemmas are about. |
| Compile.RowScope | src/artifact/compile.ts:106-132 | Cells under known headers become parameters and tokens; failing that, a generic picker is told by its first two cells. |
| Ranked.RankingSeeksTheControl | src/artifact/ranked.ts:8-45 | The primary of a ranked target is the control sought, scope and all - the recorded one if it is nameless, cell-in-row or fully ranked, else its role, or "generic", with its name -, at the head of a complete chain if it has a name. |
| Ranked.RankingIsIdempotent | src/artifact/ranked.ts:20-29 | Ranking a ranked target changes nothing. |
| Canonical.ExpandUndoesCanonicalize | src/artifact/canonical.ts:8-43 | Expansion is the inverse of the canonical form, for any number of parameters replaced longest first, if parameter names are identifiers, neither the path nor a value contains a token's colon, the path no brace and a value no slash, and values occur in the path only as whole segments and inside no parameter name. |
| Canonical.ValueInsideASegment | src/artifact/canonical.ts:8-43 | A value inside a longer segment may run into what follows it, and the path is then not read back. |
| Canonical.ValueInsideAName | src/artifact/canonical.ts:8-43 | A value that occurs in another's parameter name may be replaced inside a token already written, and the path is then not read back. |
| Canonical.CanonicalizePath | src/artifact/canonical.ts:8-17 | The replacement loop computes the canonical form the inverse is proved for. |
| Canonical.TokenExpandsToItsValue | src/artifact/canonical.ts:34-43 | A token on its own expands to its parameter's value. |
| Canonical.TokenFreeExpandsToItself | src/artifact/canonical.ts:34-43 | A text without tokens is left alone. |
| ConsoleLaws.WritesAreForActiveMembers | apps/bank-console/server.ts:615-652 | Over every interleaving, although submit re-checks nothing: a filed row is for a dispute of an active member that was open in the seeds, each dispute once, never a seed-filed one; a reissue is for a usable card of an active member. |
| ConsoleLaws.FilingsWereReviewedOpen | apps/bank-console/server.ts:662-696 | Every filed row goes back to a review page that showed the dispute open. |
| ConsoleLaws.EveryRunKeepsInv | apps/bank-console/server.ts:523-902 | The invariant holds at every point of every interleaving. |
| ConsoleLaws.StepKeepsInv | apps/bank-console/server.ts:523-902 | Every request keeps the invariant: a live token names an admitted member and, for disputes and cards, an active one and a row that was open or usable. |
| ConsoleLaws.SpentMeansSound | apps/bank-console/tokens.ts:26-34 | A token that passes was minted for this very action, which was sound. |
| ConsoleLaws.TextsAreUnambiguous | apps/bank-console/server.ts:540-688 | No two actions share a token text. |
| ConsoleLaws.SubAccountGate | apps/bank-console/server.ts:523-543 | The review page mints exactly for a product and an active member or an inherited name. |
| ConsoleLaws.SubAccountsAreForActiveMembersUnlessInherited | apps/bank-console/server.ts:546-562 | A sub-account row is for an active member if and only if its id is not the name of an inherited property. |
| ConsoleLaws.NobodyGetsASubAccount | apps/bank-console/data.ts:195-200 | A run of two requests that opens a sub-account for nobody. |
| ConsoleLaws.WritesSpendTheirToken | apps/bank-console/tokens.ts:26-34 | A post writes only with a live, unexpired token, which it takes away, and at most one row. |
| ConsoleLaws.RowsNeverOutnumberTokens | apps/bank-console/server.ts:523-902 | Rows never outnumber tokens spent, nor spent and live tokens the pages that minted them. |
| ConsoleLaws.CardLifeCycle | apps/bank-console/server.ts:768-902 | A reissue row means its card was usable and is now blocked, done and carries the row's case number; usable and seed-blocked cards have no row; business cards never change; case numbers are distinct. |
| ConsoleLaws.DuplicateReissueIsUnreachable | apps/bank-console/server.ts:857-869 | The branch for a duplicate reissue is never taken in any run. |
| ConsoleLaws.ReadyMeansNoRow | apps/bank-console/server.ts:849-857 | A card ready for reissue has no row under any spelling of its member. |
| ConsoleLaws.FilingKeepsDisputes | apps/bank-console/data.ts:242-252 | Filing marks exactly its own dispute, and an open dispute is filed exactly when it has a row. |
| ConsoleLaws.CaseTextsDiffer | apps/bank-console/card-actions.ts:59-62 | Case numbers drawn at different ids differ. |
| ConsoleLaws.ShippedDataIsWellSeeded | apps/bank-console/data.ts:29-182 | The data the console ships with meets every assumption of these lemmas. |
| Console.FormTokenStore.Spend | apps/bank-console/tokens.ts:26-34 | A presented token is gone afterwards, whatever it was for. |
| Console.FilingsStore.Insert | apps/bank-console/filings.ts:53-69 | A dispute id is inserted once. |
| Console.CardActionsStore.Insert | apps/bank-console/card-actions.ts:64-82 | A member and card are inserted once, under the next id and case number. |
| Console.ConsoleServer.GetSubAccount | apps/bank-console/server.ts:523-543 | The review page, on the stores. |
| Console.ConsoleServer.PostSubAccount | apps/bank-console/server.ts:546-562 | Confirm, on the stores. |
| Console.ConsoleServer.GetDisputeFile | apps/bank-console/server.ts:662-696 | The dispute form and review, on the stores. |
| Console.ConsoleServer.PostDispute | apps/bank-console/server.ts:615-652 | Submit, with the duplicate branch, on the stores. |
| Console.ConsoleServer.GetBlock | apps/bank-console/server.ts:768-824 | The block page, on the stores. |
| Console.ConsoleServer.PostCard | apps/bank-console/server.ts:768-789 | A card post up to the await of its body. |
| Console.ConsoleServer.FinishBlock | apps/bank-console/server.ts:789-803 | The body of a block post. |
| Console.ConsoleServer.GetReissue | apps/bank-console/server.ts:826-902 | The reissue page, on the stores. |
| Console.ConsoleServer.FinishReissue | apps/bank-console/server.ts:843-873 | The body of a reissue post, with the duplicate branch. |
| Console.ConsoleServer.Reset | apps/bank-console/server.ts:977-983 | A reset restores the seeds and empties every table and token; the id counter stays. |
| Redact.RedactionLeavesNoNotedValue | src/policy/redact.ts:50-81 | After redaction no string leaf at any depth, a money object's currency aside, contains a noted value, provided no marker can spell it in whole or in part. |
| Redact.ReplacementRecreatesNothing | src/policy/redact.ts:70-77 | Replacing one value removes it and never re-creates another that does not overlap the token. |
| Redact.ScrubRemoves | src/policy/redact.ts:70-77 | The loop over the noted values leaves none of them. |
| Redact.SurvivesIffItOverlaps | src/policy/redact.ts:70-77 | A value can show again behind the loop, in some text among some noted values, if and only if it overlaps the token. |
| Redact.ProvisoIsExact | src/policy/redact.ts:50-81 | The proviso is exact: redaction never shows a noted value if and only if no marker can spell it. |
| Redact.PlainValuesAreSpellproof | src/policy/redact.ts:50-77 | A value without brackets that does not occur in "REDACTED-PII" meets the proviso. |
| Redact.RedactionKeepsTheHarmless | src/policy/redact.ts:50-68 | Redaction changes nothing that does not call for it. |
| Redact.RedactionContext.NotePiiValue | src/policy/redact.ts:87-93 | A value of two or more characters is noted once, trimmed. |
| Redact.RedactionContext.RedactString | src/policy/redact.ts:70-77 | The loop computes the fold the lemmas are about. |
| KeyText.KeyTextIsExact | src/replay/ledger.ts:28-32 | Two runs of one capability share a key text exactly when they agree on every declared name, a missing one reading as empty. |
| KeyText.DeclarationOrderIsIrrelevant | src/replay/ledger.ts:28-32 | Neither order nor repetition of the declared names matters. |
| KeyText.QuotedTextIsSelfDelimiting | src/replay/ledger.ts:31-31 | A JSON string (section 7 of RFC 8259) ends where it ends, and escaping is injective. |
| KeyText.KeyOrderIsOrdered | src/replay/ledger.ts:29-30 | Keys are listed array indices first, then sorted, each once. |
| Outputs.ParseUndoesRender | src/replay/outputs.ts:3-16 | Parsing inverts a dollars-and-cents rendering with any sign on one line, spaces included, and any grouping, and gives the negative for its minus and parenthesised forms. |
| Outputs.CodedRenderIsRead | src/replay/outputs.ts:3-16 | An amount behind a three-letter code and a space parses to that currency and amount, in all three forms. |
| Outputs.PlainRenderIsDollars | src/replay/outputs.ts:3-16 | An amount whose sign has no capital letter parses to dollars, in all three forms. |
| Outputs.ParseReadsTheDigits | src/replay/outputs.ts:8-15 | Whatever else the text shows, two decimals are exact and further ones are cut off towards zero. |
| Outputs.Coerce | src/replay/outputs.ts:22-36 | Only a money output can fail, and a value has its declared type. |
| Routes.MatchSegs | src/policy/routes.ts:34-55 | True exactly when the segments can be cut into one fitting piece per token, for any pattern, and it terminates. |
| Routes.AnyCut | src/policy/routes.ts:41-44 | The inner loop finds a cut exactly when there is one. |
| Routes.CoveringIsMatching | src/policy/routes.ts:12-55 | Matching token by token and cutting into pieces are the same. |
| Routes.MatchRoute | src/policy/routes.ts:6-32 | A route matches by method and by the words of its path. |
| Routes.SplittingFindsTheWords | src/policy/routes.ts:6-32 | Slashes in front, behind or doubled do not matter. |
| Limiter.EveryWindowIsCapped | src/policy/runtime.ts:153-176 | With a clock that never runs back, every closed one-hour window of recorded stamps is within the cap, per capability of a tenant and per tenant. |
| Limiter.PruningIsInvisible | src/policy/runtime.ts:123-141 | The pruned store answers every later question of the limiter as the unpruned list would. |
| Limiter.SameAnswers | src/policy/runtime.ts:123-176 | The same calls are admitted with and without pruning. |
| Limiter.RateLimiter.Assert | src/policy/runtime.ts:160-175 | A call passes exactly when both counts are below their caps, and only then is recorded. |
| Limiter.InvocationStore.CountOf | src/policy/runtime.ts:113-120 | Counting one by one is the count the lemmas are about. |

## Left out

- The applicability probe, URL rewriting and parsing (`pathname` arrives parsed), screenshots, locator hits, drift scores and the `wouldExecute` report: reporting beside the decisions modelled here.
- SHA-256 of the key text: keys are compared by the text that is hashed.
- Whether a login screen shows and whether a request was blocked by policy are part of an observation and of an act's result; the kill switch, the rate limiter and the policy allowlist are answers of the environment to the engine. A limiter is modelled on its own in `Limiter`.
- CompileLaws.ReplaysExactlyWhenFinal: the fallbacks behind the first locator are not compared; of a control recorded by label, text or css that is not fully ranked, ranking keeps its name and, in place of the way it was found, its role or "generic" (the recorded way returns among the fallbacks).
- ExecuteOnce.ExecutesOnceExactlyWhen: the continuations are those the observer's rules allow, for any screens and any answers of the operator and the policy; which of them a particular site shows is not modelled.
- Tenant overlays of used capabilities (`bindTenant`) and the routes collected for the audit.
- Runs that never end: each run consumes a finite tape, so an endless run is covered prefix by prefix.
- An outermost run that is refused at its gates leaves no event: the answer it was refused with is in its result only. A refused child is on its parent's trace with that answer.
- Dry runs in the exclusivity result: the source skips the ledger check for them, so `Engine.ReplayEngine.RunAll` is about runs that are not dry.
- A ledger append that fails, and two runs of one capability racing between the check and the append: runs are sequential.
- Waiters and surfaces that throw inside an escalation, and two escalations in flight on one plane. A decision is settled and applied in one turn, since no timer runs between the two.
- One clock reading stands for the several a stretch of code between two awaits takes.
- The control plane's own act on a surface, the blank page it navigates to behind an abort.
- `operatorKind`, notes, queue priority, audit lines and hand-off captures of an intervention.
- Checkpoints and URLs in compiled steps, outputs and exceptional states of the compiled capability, and the compile of recorded actions that carry a URL (discovery records none).
- Parameter, header, field and output names that are names of inherited object properties; key order inside recorded locators, which the source compares as JSON text.
- Console sessions, skins, paging and pages without effect; product tiers (confirm does not check them either); HTTP methods other than GET and POST; reset in the middle of a card post.
- The pattern pass in front of value redaction (`redactText`) is any function; a string that it makes to contain a noted value is scrubbed like any other.
- Upper and lower case outside ASCII, lone surrogates in JSON text.
- Outputs.ParseUndoesRender: numbers are unbounded here and IEEE doubles in the source, which are exact below 2^53; a negative zero is zero.
- Limiter.EveryWindowIsCapped: the limiter's clock and the store's clock are one.
