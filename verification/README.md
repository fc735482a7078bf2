# A verified model of the Jira backup and restore backend

This project models, in Dafny, the parts of the backend in which several things happen at once or several counts have
to agree, and proves what they keep over every run.

* **Token refresh** (`Credentials`, `RefreshProtocol`, `RefreshHistory`, `HttpClient`). Requests of one client
  interleave freely, each getting a 401, starting or joining the one refresh in flight and being sent again.
  `RefreshProtocol` is the transition system, its inductive invariant and its theorems; `RefreshHistory` tells where
  requests and refreshes stand from the answers of the network alone; `HttpClient` is the client itself, whose methods
  are the stretches of code between two awaits and are proved to take exactly the steps of the protocol.
* **Restore** (`RestoreStore`, `RestoreEngine`, `EngineHistory`, `ProjectPhase`, `RestoreLifecycle`, `ProjectRuns`,
  `RestoreSafety`, `RestoreEndings`, `RestoreSignals`, `RestoreHistory`, `RestoreWorker`, `RestoreService`). The phase
  executor runs arbitrary handlers while timers and HTTP requests touch the same row. `RestoreEngine` holds the
  executor's loop and its bookkeeping, `EngineHistory` what an execution leaves, read off the handlers' outcomes,
  `ProjectPhase` the handler that resolves conflicts, `RestoreLifecycle` the system of all jobs, workers, timers and
  decision requests with its invariant, `ProjectRuns` that handler suspended at its awaits inside this system,
  `RestoreSafety`, `RestoreEndings` and `RestoreSignals` what follows for every run, `RestoreHistory` what each step
  writes and announces, `RestoreWorker` the worker class and the decisions handler that take these steps, and
  `RestoreService` all workers over one store and one bus.
* **Capture and manifest** (`Pagination`, `ContextCapture`, `ManifestTypes`, `BackupPoints`, `ManifestWriter`,
  `ManifestContents`). A pagination loop with four exits against a modelled server, the seven stages built on it, the
  manifest writer that checks every stage, and the validator that checks the stored manifest again.
  `ManifestContents` says field by field what is stored and what the validator reports.
* **Issue capture** (`IssueCapture`, `IssueAccounts`, `IssueRecords`, `Jobs`). Four places count the same work: the
  run's totals, the manifest entries, the error rows and the heartbeat emitter. `IssueCapture` is the orchestrator with
  every way in which a listed element can fail or break the run off, `IssueAccounts` what the four places then say
  together, `IssueRecords` which rows a single issue leaves.
* **Stall detection** (`StallDetection`, `Jobs`). A detector with a private set of job ids beside a job table that
  others change; what it announces is told from creations, heartbeats and endings alone.
* **Algorithms**: the Luhn check (`Luhn`), the CSV field parser (`CsvLine`), the line index (`LineIndex`) and the
  single-use nonce store (`OAuthState`).

Code that updates fields is modelled by classes with those fields, code that loops by methods with loops; each method
is proved against a specification function, and the lemmas are about these functions, in terms of the inputs and of
what has happened in a run. What comes from outside (answers of the network, outcomes of handlers, decisions, clock
readings, whether a subscriber throws) is a parameter, so a theorem holds for all of it. Every `await` is a point at
which anything else may happen.

## Where the code does something else than its documentation says

* `src/http/JiraHttpClient.ts:270-273` promises one refresh per burst of concurrent 401s. A 401 that arrives after the
  refresh has settled starts another one, although its request was sent with the token already replaced
  (`LateUnauthorizedPostsAgain`, `LateUnauthorizedHappens`). The mutex is what decides: `PostsExactlyWhenFree`.
* `src/capture/IssueCaptureOrchestrator.ts:205` says that a run never throws. It goes through exactly when the backup
  directory can be made, every listing succeeds and holds no null, and every issue has a key that the tables can bind,
  or, if it lacks one, does not fail while error rows are kept (`IssueCaptureOrchestrator.Run`, `NullIssueEndsTheRun`,
  `KeylessFailureEndsTheRunExactly`). The catch block throws otherwise: the timer of the emitter is then still armed,
  and the totals hold one error that no other place knows of (`EveryIssueIsAccountedFor`, `CountsAgreeExactly`).
* Attachment entries carry the object type of issues, so the check of `finalize` that every discovered issue has an ok
  entry passes exactly when as many issues failed as attachments were stored (`OmissionCheckExactly`). It can reject a
  backup that omits nothing and pass one that lost an issue (`OmissionCheckIsRightExactly`,
  `OmissionCanPassTheCheck`).
* An attachment list with a null in it makes an issue count both as captured and as failed
  (`CapturedPlusErrorsExactly`).
* A server that shows fewer items per page than asked for is taken to have ended. What is lost is flagged exactly when
  it reports a total (`CappedServerIsReadCompletelyExactly`). A JSON string in place of a flat list is flagged exactly
  when its code points and code units differ in number (`FlatStagesViolateExactly`).
* The integrity check of boards and sprints compares sums over all parents, so opposite gaps cancel
  (`SummedStageViolatesExactly`, `OppositeGapsCancel`).
* `src/restore/RestoreWorker.ts:6-7` says that heartbeats report the items of the current phase. They report those
  stored when it began, none out of none, until it ends (`HeartbeatsReportNoItems`).
* A subscriber of the bus that throws when a success is announced turns a completed restore job into a failed one
  (`CompletedJobCanFail`); as far as the states between callbacks go, the status of an ended job is final exactly when
  none did (`EndedStatusIsFinalExactly`). An export whose stored archive is announced to such a subscriber announces
  both ends, and nothing else can make a job announce two (`ExportCanAnnounceBothEnds`, `EndIsAnnouncedOnceExactly`).
  A worker that rejects for any other reason fails its job without announcing it (`EndIsAnnouncedExactly`).
* With the double quote as delimiter the CSV parser never splits (`QuoteNeverSplits`, `RoundTripExactly`), and after
  the clock goes back a pruned nonce is refused before it has expired (`ClockGoingBackBreaksTheRule`).

## Model

| member | source | states |
|---|---|---|
| `Credentials.JiraCredentialRepository.GetByCloudId` | src/db/JiraCredentialRepository.ts:150-173 | returns the last pair written for the cloud id, none when there is no row |
| `Credentials.JiraCredentialRepository.GetApiTokenByCloudId` | src/db/JiraCredentialRepository.ts:250-271 | returns the stored API token credential or none |
| `Credentials.JiraCredentialRepository.UpsertConnection` | src/db/JiraCredentialRepository.ts:110-145 | a connection becomes the stored pair of its cloud id; other rows stay |
| `Credentials.JiraCredentialRepository.UpsertApiTokenConnection` | src/db/JiraCredentialRepository.ts:221-245 | stores the API token credential of one cloud id |
| `Credentials.JiraCredentialRepository.RotateTokens` | src/db/JiraCredentialRepository.ts:182-209 | succeeds exactly when there is a row, writing both tokens at once; otherwise writes nothing |
| `RefreshProtocol.StepKeepsInv` | src/http/JiraHttpClient.ts:218-365 | every step of every request and refresh keeps the invariant of the protocol |
| `RefreshProtocol.RunKeepsInv` | src/http/JiraHttpClient.ts:218-365 | so the invariant holds in every interleaving of any number of requests |
| `RefreshProtocol.OneRefreshAtATime` | src/http/JiraHttpClient.ts:269-304 | at most one refresh is outstanding, and the mutex is held exactly while one is |
| `RefreshProtocol.PostedTokenStaysCurrent` | src/http/JiraHttpClient.ts:255-262 | the posted refresh token was the stored one, and until the refresh rotates it only a reconnection replaces it; what it stores comes later |
| `RefreshProtocol.ConsumedTokenIsNeverPostedAgain` | src/http/JiraHttpClient.ts:314-365 | once a refresh succeeded, every later one posts a pair stored by it or later, so with fresh tokens no token is used again |
| `RefreshProtocol.SentAtMostTwice` | src/http/JiraHttpClient.ts:218-267 | a request is sent at most twice, the second time only after its refresh succeeded, with a token of that refresh or a newer one |
| `RefreshProtocol.FailedRefreshFailsItsRequests` | src/http/JiraHttpClient.ts:294-304 | a failed refresh fails its starter and everyone who joined it with its error, unsent again, and no longer holds the mutex |
| `RefreshProtocol.AuthFailureComesFromTheReplay` | src/http/JiraHttpClient.ts:95-115 | an OAuth caller is told that authentication failed only after the pair was refreshed and the request sent again was refused too |
| `RefreshProtocol.EveryRotationIsOneRefresh` | src/http/JiraHttpClient.ts:358-365 | the rotated pairs in the store are exactly as many as the refreshes that succeeded |
| `RefreshProtocol.CredentialIsMissedOnlyAtTheStart` | src/http/JiraHttpClient.ts:255-261 | a request fails for want of a credential exactly when it was never sent |
| `RefreshProtocol.RefreshesNeverOutnumberRequests` | src/http/JiraHttpClient.ts:278-304 | N requests cause at most N refresh posts, since every refresh has its own starter |
| `RefreshProtocol.BasicNeverRefreshes` | src/http/JiraHttpClient.ts:247-254 | API token and explicit credentials never refresh and are never sent twice |
| `RefreshProtocol.NoPostWhileInFlight` | src/http/JiraHttpClient.ts:279-282 | until the refresh in flight settles, no run of steps posts another |
| `RefreshProtocol.PostsExactlyWhenFree` | src/http/JiraHttpClient.ts:249-288 | a step posts exactly when it is a response with status 401 to the first attempt of an OAuth request, arriving while the mutex is free and a pair is stored |
| `RefreshProtocol.LateUnauthorizedPostsAgain` | src/http/JiraHttpClient.ts:270-276 | a 401 that arrives after the refresh settled posts again, even if its token was already replaced |
| `RefreshProtocol.LateUnauthorizedHappens` | src/http/JiraHttpClient.ts:270-276 | a concrete run of two concurrent requests with two posts |
| `RefreshProtocol.InternalStepWorks` | src/http/JiraHttpClient.ts:218-365 | every step of the client or answer of the network uses up work that is left |
| `RefreshProtocol.RequestsTakeBoundedSteps` | src/http/JiraHttpClient.ts:218-304 | N requests take at most 6N steps, however they interleave |
| `RefreshProtocol.UnfinishedRequestCanProceed` | src/http/JiraHttpClient.ts:278-304 | no deadlock: for every unfinished request, that request or the refresh it waits for has a step that is possible |
| `RefreshHistory.OtherStatusIsReturned` | src/http/JiraHttpClient.ts:249-266 | a response of any status but 401 ends its request with that status, and nothing else changes: no post, no join, no pair |
| `RefreshHistory.UnauthorizedPostsExactly` | src/http/JiraHttpClient.ts:249-304 | a 401 posts the refresh token stored last exactly for a first attempt with OAuth, a stored pair and a free mutex; it joins the refresh in flight if there is one; on a second attempt or without OAuth it is returned |
| `RefreshHistory.RequestIsSentWith` | src/http/JiraHttpClient.ts:218-241 | a new request is sent with the explicit credential, the API token or the access token stored last, as its client was made, and ends unsent without one |
| `RefreshHistory.RequestResumesWith` | src/http/JiraHttpClient.ts:262-263 | after its refresh settled a request is sent again with the pair stored last, or fails with the error of the refresh |
| `RefreshHistory.ConnectionIsStored` | src/db/JiraCredentialRepository.ts:110-245 | a connection stored by other code becomes the last pair, or the API token, and changes nothing else |
| `RefreshHistory.CallerIsTold` | src/http/JiraHttpClient.ts:95-115 | 401 is an authentication failure, 200 to 299 a body, anything else an HTTP error with its status |
| `RefreshHistory.JoinedExactlyAfterUnauthorized` | src/http/JiraHttpClient.ts:249-282 | over every run a request started or joined a refresh exactly when it is an OAuth request that was answered with a 401 |
| `RefreshHistory.EndsAsAnswered` | src/http/JiraHttpClient.ts:237-266 | over every run a request ends with a status other than 401, or with a network error, exactly when it was answered so |
| `RefreshHistory.StoredExactlyWhatWasRead` | src/http/JiraHttpClient.ts:338-365 | over every run a refresh stored a pair exactly when its post was accepted and a body with these two tokens was read |
| `RefreshHistory.FailsExactlyAsAnswered` | src/http/JiraHttpClient.ts:330-349 | over every run a refresh fails with the error of its post, its answer or its body, exactly when that failed |
| `HttpClient.JiraHttpClient.constructor` | src/http/JiraHttpClient.ts:85-91 | a new client is an initial state of the protocol over the stored credentials |
| `HttpClient.JiraHttpClient.GetAuthHeader` | src/http/JiraHttpClient.ts:389-419 | the header of the current credential: explicit before API token before OAuth, none when there is no row |
| `HttpClient.JiraHttpClient.Send` | src/http/JiraHttpClient.ts:224-241 | a request is sent with the credential stored at that moment, or fails unsent |
| `HttpClient.JiraHttpClient.Execute` | src/http/JiraHttpClient.ts:218-241 | takes the step that begins a request |
| `HttpClient.JiraHttpClient.OnFetchRejected` | src/http/JiraHttpClient.ts:237-241 | a rejected fetch ends the request with its error |
| `HttpClient.JiraHttpClient.OnResponse` | src/http/JiraHttpClient.ts:249-266 | takes the step of a response: a first OAuth 401 turns to the refresh, anything else is returned |
| `HttpClient.JiraHttpClient.EnsureTokenRefreshed` | src/http/JiraHttpClient.ts:278-296 | joins the refresh in flight, or takes the mutex and posts the stored refresh token |
| `HttpClient.JiraHttpClient.OnPostRejected` | src/http/JiraHttpClient.ts:330-336 | a post that fails breaks the refresh with a network error |
| `HttpClient.JiraHttpClient.OnPostAnswered` | src/http/JiraHttpClient.ts:338-349 | an answer leads to reading the tokens or the error text |
| `HttpClient.JiraHttpClient.OnErrorText` | src/http/JiraHttpClient.ts:338-347 | a refused refresh breaks with REFRESH_FAILED |
| `HttpClient.JiraHttpClient.OnBody` | src/http/JiraHttpClient.ts:349-370 | both tokens are stored before the refresh counts as done |
| `HttpClient.JiraHttpClient.OnRefreshDone` | src/http/JiraHttpClient.ts:294-303 | settles the promise with the outcome and frees the mutex |
| `HttpClient.JiraHttpClient.OnRefreshSettled` | src/http/JiraHttpClient.ts:262-263 | resumes a waiting request: sent again after success, failed after failure |
| `HttpClient.Drive` | src/http/JiraHttpClient.ts:218-365 | however an event loop orders them, the client's methods make a run of the protocol |
| `RestoreStore.RestoreJobStore.CreateJob` | src/restore/RestoreJobStore.ts:74-101 | inserts a pending job; a taken id fails and changes nothing |
| `RestoreStore.RestoreJobStore.SetStatus` | src/restore/RestoreJobStore.ts:103-107 | changes the status and nothing else; a missing row changes nothing |
| `RestoreStore.RestoreJobStore.UpdatePhaseProgress` | src/restore/RestoreJobStore.ts:115-119 | replaces the stored progress of one job |
| `RestoreStore.RestoreJobStore.UpdateHeartbeat` | src/restore/RestoreJobStore.ts:121-130 | stores the heartbeat time and clears `stalled`, leaving the status |
| `RestoreStore.RestoreJobStore.SetStalled` | src/restore/RestoreJobStore.ts:132-136 | sets the flag and not the status |
| `RestoreStore.RestoreJobStore.SetFailed` | src/restore/RestoreJobStore.ts:138-149 | fails the job with a diagnostic, a completion time and no stall flag |
| `RestoreStore.RestoreJobStore.SetTrashWindowBlocked` | src/restore/RestoreJobStore.ts:151-161 | fails the job with its own diagnostic, without a completion time |
| `RestoreStore.RestoreJobStore.CompleteJob` | src/restore/RestoreJobStore.ts:163-173 | stores the final status and leaves the diagnostic alone |
| `RestoreStore.RestoreJobStore.IncrementErrorCount` | src/restore/RestoreJobStore.ts:175-179 | adds one error |
| `RestoreStore.RestoreJobStore.SetAdfMediaWarnings` | src/restore/RestoreJobStore.ts:187-193 | stores the affected issues and that a warning was emitted |
| `RestoreStore.RestoreJobStore.InsertConflict` | src/restore/RestoreJobStore.ts:223-251 | inserts an undecided conflict; a taken id fails |
| `RestoreStore.RestoreJobStore.GetConflict` | src/restore/RestoreJobStore.ts:253-258 | returns the conflict or none |
| `RestoreStore.RestoreJobStore.ResolveConflict` | src/restore/RestoreJobStore.ts:269-277 | stores the decision and its time on one conflict |
| `RestoreEngine.EndPhaseIsOk` | src/restore/RestoreEngine.ts:195-268 | the end of a phase, whatever its outcome, keeps announcements, stored progress and error count in agreement |
| `RestoreEngine.ExecutionsKeepBooks` | src/restore/RestoreEngine.ts:149-275 | at every await and at the end: a finished prefix, at most one running or failed phase, the rest pending; exactly these phases announced; the error count is the sum over phases that did not fail; completed without errors exactly when it is zero |
| `RestoreEngine.ExecutionFollowsOutcomes` | src/restore/RestoreEngine.ts:173-275 | unless a subscriber throws, the execution fails with the diagnostic of the first failed phase or completes with the summed errors |
| `EngineHistory.EndFollowsOutcomes` | src/restore/RestoreEngine.ts:145-276 | unless a subscriber throws: status, diagnostic, error count, warnings and result after a whole execution, read off the outcomes of the handlers up to the first that failed or threw; exactly these phases, failures and warnings are announced, in order |
| `EngineHistory.ProgressFollowsOutcomes` | src/restore/RestoreEngine.ts:176-242 | every phase up to there is stored with the status, total, processed and error counts of its handler, a thrown one as failed with one error, and with the times at which it began and ended; the others are untouched |
| `EngineHistory.CalmPhase` | src/restore/RestoreEngine.ts:195-268 | the end of a phase publishes its failure, or its warning and the next phase, and only an exception rejects the execution |
| `EngineHistory.ThrowEndsExecution` | src/restore/RestoreEngine.ts:195-268 | an exception at a publication ends the execution there: nothing more is published, and the row stands as without it, except that after a warning no phase begins |
| `EngineHistory.StartAnnounces` | src/restore/RestoreEngine.ts:145-193 | an execution begins by announcing its first phase, where an exception rejects it with the row written; without phases it completes at once |
| `RestoreEngine.RestoreEngine.MarkRunning` | src/restore/RestoreEngine.ts:176-193 | stores the phase as current and running before announcing it |
| `RestoreEngine.RestoreEngine.AddErrors` | src/restore/RestoreEngine.ts:244-248 | the increments add up to the errors of the phase |
| `RestoreEngine.RestoreEngine.TakeOutcome` | src/restore/RestoreEngine.ts:195-268 | stores the result, then halts, or counts errors and warns, as the step of the executor says |
| `RestoreEngine.RestoreEngine.StartExecution` | src/restore/RestoreEngine.ts:145-193 | from the beginning of `execute` to its first await |
| `RestoreEngine.RestoreEngine.ResumeExecution` | src/restore/RestoreEngine.ts:195-275 | from a handler's outcome to the next await or the result |
| `RestoreEngine.RestoreEngine.Execute` | src/restore/RestoreEngine.ts:145-276 | the loop ends as the steps do, for any outcomes and any interference; an unknown job is rejected |
| `ProjectPhase.ProjectPhaseHandler.AskOperator` | src/restore/RestorePhaseHandlers.ts:54-102 | stores the conflict, waits for its decision, runs on and writes only after `override` |
| `ProjectPhase.ProjectPhaseHandler.HandleProject` | src/restore/RestorePhaseHandlers.ts:31-116 | one turn of the loop, with all its branches and ways to throw |
| `ProjectPhase.ProjectPhaseHandler.Run` | src/restore/RestorePhaseHandlers.ts:25-138 | for any scope, the loop over its projects leaves client, conflicts, status, events and result as the fold over the turns says |
| `ProjectPhase.TurnFollowsRule` | src/restore/RestorePhaseHandlers.ts:31-107 | a turn throws exactly when a question or a needed write fails, and otherwise writes the project exactly when the rule selects it |
| `ProjectPhase.PhaseIsFilter` | src/restore/RestorePhaseHandlers.ts:25-125 | the projects written are the selected ones before the first failure, in order; `processed` counts the projects handled |
| `ProjectPhase.ProjectPhaseWritesSelection` | src/restore/RestorePhaseHandlers.ts:25-125 | over any projects the phase completes exactly when no turn fails, and then wrote the whole selection; a failure leaves a prefix of it |
| `ProjectPhase.IssuesNeedNoProjects` | src/restore/RestorePhaseHandlers.ts:129-138 | a restore of issues asks and writes nothing in this phase and completes with 0 of 0, whatever would be answered |
| `ProjectPhase.ProjectsAreWritten` | src/restore/RestorePhaseHandlers.ts:25-138 | a restore of projects writes the selection among the projects it names, up to the first failure, and reports how many of how many |
| `ProjectPhase.AllIsOneProject` | src/restore/RestorePhaseHandlers.ts:129-138 | a restore of everything is that of the one representative project |
| `ProjectPhase.QuestionsAreAnnounced` | src/restore/RestorePhaseHandlers.ts:54-87 | the phase announces exactly the questions about the projects it got to, in order |
| `ProjectPhase.JobRunsOn` | src/restore/RestorePhaseHandlers.ts:68-96 | the job runs afterwards, unless a subscriber threw at a question, which leaves it awaiting the decision |
| `ProjectPhase.EveryQuestionIsRecorded` | src/restore/RestorePhaseHandlers.ts:54-115 | every project put to the operator, and no other, has a conflict, decided even if the write then fails, and undecided exactly if a subscriber threw at the question |
| `ProjectRuns.MovesKeep` | src/restore/RestorePhaseHandlers.ts:25-155 | with the handlers of all jobs suspended at their awaits, every interleaving keeps workers, handlers and stored conflicts in agreement |
| `ProjectRuns.WrittenExactlyOnOverride` | src/restore/RestorePhaseHandlers.ts:54-115 | over all interleavings a project put to the operator is written exactly when the stored decision about its conflict is `override`, any other exactly when it did not exist or the mode says so |
| `ProjectRuns.NothingElseIsWritten` | src/restore/RestorePhaseHandlers.ts:25-125 | what is written is exactly the projects of these turns, in order |
| `ProjectRuns.OnlyRequestsDecide` | src/restore/RestoreJobRouter.ts:279-349 | a decision comes to be stored only by an accepted request about that conflict, and is the one it names |
| `ProjectRuns.MovesAreSteps` | src/restore/RestorePhaseHandlers.ts:25-155 | every interleaving with the handlers is a run of the life cycle |
| `ProjectRuns.HandlersServeTheirJobs` | src/restore/RestorePhaseHandlers.ts:25-138 | over all interleavings a handler works on the projects that the scope of its job names, in the mode of its job |
| `ProjectRuns.HandlerEndsSo` | src/restore/RestorePhaseHandlers.ts:37-125 | it fails, with one error and the projects done so far, at an unanswered existence, a taken conflict id, a subscriber that throws or a failed write, and completes once it is done with all its projects |
| `RestoreLifecycle.StepKeepsInv` | src/restore/RestoreWorker.ts:82-303 | every step of a worker, a timer or a request keeps the invariant of all jobs and conflicts |
| `RestoreLifecycle.RunKeepsInv` | src/restore/RestoreWorker.ts:82-303 | so it holds in every run |
| `RestoreLifecycle.MovedIsOk` | src/restore/RestoreWorker.ts:82-303 | a worker's or timer's step keeps its job in order, and only a question makes it await a decision |
| `RestoreLifecycle.DecidedJobIsOk` | src/restore/RestoreJobRouter.ts:323-341 | a decision accepted for a job is about the conflict its worker waits on, and lets it run |
| `RestoreSafety.AwaitingExactlyWhenWaiting` | src/restore/RestorePhaseHandlers.ts:54-102 | in every reachable state a job awaits a decision exactly when its worker waits on an undecided conflict, the only undecided one of the job |
| `RestoreSafety.DecisionAcceptedExactly` | src/restore/RestoreJobRouter.ts:279-349 | the endpoint accepts exactly a valid decision about the conflict the worker is waiting on |
| `RestoreSafety.DecisionReachesWorker` | src/restore/RestorePhaseHandlers.ts:144-155 | an accepted decision is stored, the job runs, and the next poll lets the worker go on |
| `RestoreSafety.DecisionsAreFinal` | src/restore/RestoreJobRouter.ts:332-341 | a stored decision is never changed by any continuation |
| `RestoreSafety.FailedExactlyWithDiagnostic` | src/restore/RestoreJobStore.ts:138-173 | in every run a job has failed exactly when its diagnostic is set |
| `RestoreSafety.BlockedJobRestoresNothing` | src/restore/RestoreWorker.ts:104-133 | a job the trash check blocked has failed before any phase began |
| `RestoreSafety.BooksAgreeAlways` | src/restore/RestoreEngine.ts:149-275 | over all interleavings the announcements, stored progress and error count of a job agree |
| `RestoreSafety.CompletedMeansAllFinished` | src/restore/RestoreWorker.ts:171-175 | a completed job finished all phases, without errors exactly when its status says so |
| `RestoreEndings.EndIsAnnouncedOnceExactly` | src/restore/RestoreWorker.ts:220-243 | in every run a job announces at most two ends, and at most one exactly when no subscriber threw at the announcement of its stored archive |
| `RestoreEndings.EndIsAnnouncedExactly` | src/restore/RestoreWorker.ts:122-191 | an end is announced exactly when the worker ended on its own or a subscriber of that very announcement made it reject |
| `RestoreEndings.LastAnnouncementNamesTheStatus` | src/restore/RestoreWorker.ts:122-186 | the announcement is the last event, and names the stored status exactly unless a throw at a success has been caught |
| `RestoreEndings.NothingFollowsTheEnd` | src/restore/RestoreWorker.ts:194-204 | in every run, once an end is announced no continuation publishes anything more for the job |
| `RestoreEndings.EndedStatusChangesExactly` | src/restore/RestoreJobRouter.ts:248-252 | the status of an ended job changes exactly when a `run` that rejected after storing a success is caught |
| `RestoreEndings.EndedStatusIsFinal` | src/restore/RestoreWorker.ts:154-191 | a completed or failed job keeps its status in every continuation, or becomes failed after a throw at its success |
| `RestoreEndings.EndedStatusIsFinalExactly` | src/restore/RestoreWorker.ts:154-191 | no continuation changes the status exactly when no subscriber threw at the success, or the job has failed already |
| `RestoreEndings.CompletedJobCanFail` | src/restore/RestoreWorker.ts:145-191 | a run of the seven phases in which a job is announced as completed and then stored as failed |
| `RestoreEndings.ExportCanAnnounceBothEnds` | src/restore/RestoreWorker.ts:220-243 | a run of an export that announces completed and then failed |
| `RestoreSafety.WorkerIsNeverStuck` | src/restore/RestoreWorker.ts:82-192 | a worker that has not ended can take a step, unless its job awaits a decision that can be posted |
| `RestoreSafety.HeartbeatsReportNoItems` | src/restore/RestoreWorker.ts:246-281 | a heartbeat names the running phase and reports no items out of none |
| `RestoreSafety.DefaultHandlersAreDistinct` | src/restore/RestorePhaseHandlers.ts:298-308 | no phase occurs twice in the order of phases |
| `RestoreSignals.WarningsMatchTheChannel` | src/restore/RestoreEngine.ts:250-267 | in every run the row holds the last media warning published, and every warning names issues and comes in the last phase |
| `RestoreSignals.OneStallPerSilence` | src/restore/RestoreWorker.ts:246-303 | in every run a stall is announced once until a heartbeat comes, and a row is marked stalled only after a stall |
| `RestoreHistory.NewJobIs` | src/restore/RestoreJobStore.ts:74-101 | a new job is pending with empty books, and changes no other |
| `RestoreHistory.StartLeadsTo` | src/restore/RestoreWorker.ts:82-154 | a worker asks about the trash exactly for projects restored on the original site with a checker, assembles an export, and begins the first phase otherwise |
| `RestoreHistory.EngineBegins` | src/restore/RestoreWorker.ts:137-154 | the engine starts on the row and channel of its job once nothing stands before it |
| `RestoreHistory.EngineGoesOn` | src/restore/RestoreEngine.ts:195-275 | an outcome is taken on the row and channel of its job, as failed if a subscriber threw at its question |
| `RestoreHistory.EndingsWithoutPhases` | src/restore/RestoreWorker.ts:111-135 | what a blocked project, a checker that throws and a caught rejection store and announce |
| `RestoreHistory.EndingsAfterPhases` | src/restore/RestoreWorker.ts:156-191 | the end the engine reached is stored, then announced, and where the worker is left by an exception there |
| `RestoreHistory.EndingsOfExports` | src/restore/RestoreWorker.ts:220-243 | an export ends with its archive, or failed, as it is by an exception at its announcement |
| `RestoreHistory.QuestionsSuspend` | src/restore/RestorePhaseHandlers.ts:54-102 | a question stores the waiting status and announces conflict and project; the poll that finds a decision stores that the job runs |
| `RestoreHistory.HeartbeatReports` | src/restore/RestoreWorker.ts:246-281 | a heartbeat stores its time, clears the stall and reports the stored counts of the current phase |
| `RestoreHistory.HeardOfLast` | src/restore/RestoreWorker.ts:246-281 | over every run the time a worker was last heard of is that of its start or last heartbeat in the run |
| `RestoreHistory.StallIsAnnouncedExactly` | src/restore/RestoreWorker.ts:283-303 | over every run a tick announces a stall, with its age, exactly when none was announced since the last heartbeat and the start or last heartbeat is longer ago than the threshold |
| `RestoreHistory.TimersRunExactly` | src/restore/RestoreWorker.ts:82-204 | in every reachable state the timers run exactly from the start of the worker until it has ended or failed |
| `RestoreHistory.ArchiveIsKept` | src/restore/RestoreJobStore.ts:195-201 | over every run the stored archive is that of the last download of the job |
| `RestoreHistory.AnswerMeans` | src/restore/RestoreJobRouter.ts:279-349 | the endpoint answers for the job, its status, the request and the conflict, in this order, each exactly under its condition |
| `RestoreHistory.DecisionChanges` | src/restore/RestoreJobRouter.ts:323-349 | an accepted decision is stored with its time and lets the job run; any other request changes nothing |
| `RestoreHistory.QuestionIsStored` | src/restore/RestoreJobStore.ts:223-251 | a question stores an undecided conflict of its job about its project |
| `RestoreWorker.RestoreWorker.Start` | src/restore/RestoreWorker.ts:82-154 | from the beginning of `run` to its first await |
| `RestoreWorker.RestoreWorker.OnTrashAnswered` | src/restore/RestoreWorker.ts:111-154 | a blocked job ends as failed with the timers stopped; otherwise the phases or the export begin |
| `RestoreWorker.RestoreWorker.OnHandlerEnded` | src/restore/RestoreEngine.ts:195-275 | takes the step of a handler's outcome |
| `RestoreWorker.RestoreWorker.AskForDecision` | src/restore/RestorePhaseHandlers.ts:54-87 | takes the step that puts a conflict to the operator |
| `RestoreWorker.RestoreWorker.PollDecision` | src/restore/RestorePhaseHandlers.ts:144-155 | goes on exactly when the conflict has a decision |
| `RestoreWorker.RestoreWorker.OnEngineDone` | src/restore/RestoreWorker.ts:154-191 | stores and announces the end after the engine, or leaves `run` |
| `RestoreWorker.RestoreWorker.OnDownloaded` | src/restore/RestoreWorker.ts:220-243 | stores path and success, and takes an exception at the announcement for a failed download |
| `RestoreWorker.RestoreWorker.EmitHeartbeat` | src/restore/RestoreWorker.ts:246-281 | takes the step of a heartbeat |
| `RestoreWorker.RestoreWorker.CheckForStall` | src/restore/RestoreWorker.ts:283-303 | takes the step of the stall check |
| `RestoreWorker.RestoreWorker.Stop` | src/restore/RestoreWorker.ts:194-204 | both timers are off afterwards and nothing else has changed |
| `RestoreWorker.RestoreWorker.OnRejected` | src/restore/RestoreJobRouter.ts:248-252 | a rejected worker fails its job |
| `RestoreWorker.RestoreWorker.Take` | src/restore/RestoreWorker.ts:82-303 | every callback of the worker is the step of the life cycle, for its row, its channel and the conflicts |
| `RestoreWorker.PostDecision` | src/restore/RestoreJobRouter.ts:279-349 | the answer of the endpoint, and that it changes the decision and the status exactly when it accepts |
| `RestoreService.RestoreRouter.Create` | src/restore/RestoreJobRouter.ts:222-252 | a new job gets its row and a worker over the one store and the one bus; a taken id changes nothing |
| `RestoreService.RestoreRouter.TakeStep` | src/restore/RestoreJobRouter.ts:222-349 | whatever comes next for any job, the tables, channels and workers of all jobs are those of the step of the life cycle |
| `RestoreService.Drive` | src/restore/RestoreWorker.ts:82-303 | however an event loop orders the callbacks of all workers, timers and requests, they make a run of the life cycle |
| `Pagination.PaginateAtlassian` | src/pagination/paginateAtlassian.ts:93-159 | the loop is the run of the model, exit by exit |
| `Pagination.WhatAPageShows` | src/pagination/paginateAtlassian.ts:104-110 | the items of a page are those under `values`; those under `issues` exactly if there are no `values`; none if there are neither |
| `Pagination.EndsForItsReason` | src/pagination/paginateAtlassian.ts:104-144 | a finished run ended at a page of which its reason is true and none of the reasons tried before it |
| `Pagination.RunKeepsBooks` | src/pagination/paginateAtlassian.ts:104-158 | against any server: `startAt` equals the items collected, continuing pages are full, and reconciliation and gap say what they should |
| `Pagination.KnownTotalBoundsTheRun` | src/pagination/paginateAtlassian.ts:122-144 | from a known total on, the run ends within the fetches the missing items allow |
| `Pagination.FirstTotalBoundsTheRun` | src/pagination/paginateAtlassian.ts:111-144 | a total T on the first page bounds the fetches by max(1, ceil(T / maxResults)) |
| `Pagination.EndedRunsAreFinal` | src/pagination/paginateAtlassian.ts:134-142 | observing a run for longer never changes one that has ended |
| `Pagination.HonestServerIsReadCompletely` | src/pagination/paginateAtlassian.ts:93-159 | a list whose slices a server puts under `values` or `issues` is returned whole, in order and reconciled, in max(1, ceil(n / m)) pages with an end signal and floor(n / m) + 1 without |
| `Pagination.TruthfulServer` | src/pagination/paginateAtlassian.ts:93-159 | the same when some fetches may be rejected: what finishes is complete |
| `Pagination.PageSizeZeroReadsNothing` | src/pagination/paginateAtlassian.ts:124-125 | with a page size of zero the loop stops at once and is complete exactly for the empty list |
| `Pagination.CappedServerIsReadCompletelyExactly` | src/pagination/paginateAtlassian.ts:122-158 | an honest server with a cap on its pages is read completely exactly when the cap covers the page size or the list, and the loss is flagged exactly when a total was reported |
| `ManifestWriter.BackupPointManifestWriter.constructor` | src/manifest/BackupPointManifestWriter.ts:139-150 | creates the row of a new backup point and no other |
| `ManifestWriter.NewWriter` | src/manifest/BackupPointManifestWriter.ts:139-150 | a taken id throws and stores nothing; otherwise the writer stands at an empty stored manifest |
| `ManifestWriter.BackupPointManifestWriter.AppendStageSection` | src/manifest/BackupPointManifestWriter.ts:161-199 | keeps section and entries either way, stores a snapshot, and objects exactly to a violated integrity rule |
| `ManifestWriter.BackupPointManifestWriter.AppendEntry` | src/manifest/BackupPointManifestWriter.ts:211-236 | adds one row to the item table |
| `ManifestWriter.BackupPointManifestWriter.Mismatch` | src/manifest/BackupPointManifestWriter.ts:256-272 | there is none exactly when every discovered count equals the ok entries of its type |
| `ManifestWriter.BackupPointManifestWriter.Finalize` | src/manifest/BackupPointManifestWriter.ts:251-280 | reports the first mismatch and stores nothing, or stores the snapshot with the effective status |
| `ManifestWriter.BackupPointManifestWriter.PersistSnapshot` | src/manifest/BackupPointManifestWriter.ts:415-440 | the stored manifest is the snapshot of sections and entries |
| `ManifestWriter.BackupPointManifestWriter.BuildPhaseSummary` | src/manifest/BackupPointManifestWriter.ts:442-462 | the loop builds the summaries of all sections |
| `ManifestWriter.Validate` | src/manifest/BackupPointManifestWriter.ts:292-371 | valid exactly when fields are filled, counts not negative and no stage violates the rule; one integrity error per violating stage, in order |
| `ManifestWriter.ValidateFromStore` | src/manifest/BackupPointManifestWriter.ts:377-389 | a missing backup point is reported as such; otherwise the stored manifest is validated |
| `ManifestWriter.WriteBackup` | src/manifest/BackupPointManifestWriter.ts:161-280 | the stored manifest holds every section and entry in order, and its status says whether one violated the rule |
| `ManifestWriter.WriterAndValidatorAgree` | src/manifest/BackupPointManifestWriter.ts:161-389 | stored as completed exactly when validating what the store returns finds no integrity violation, and valid exactly when besides identifiers and counts are sound |
| `ManifestWriter.NoViolationErrors` | src/manifest/BackupPointManifestWriter.ts:350-368 | the validator's integrity errors are empty exactly when the writer counted none |
| `ManifestWriter.SummariesCoverStages` | src/manifest/BackupPointManifestWriter.ts:442-462 | a phase is summarised exactly when it has a section, by one of its sections |
| `ManifestWriter.StatusesPartition` | src/manifest/BackupPointManifestWriter.ts:452-456 | the three counts of a summary partition the entries of its phase |
| `ManifestWriter.SnapshotAccountsForEntries` | src/manifest/BackupPointManifestWriter.ts:442-487 | every entry of a summarised phase is counted once, and reconciliation marks exactly the violating stages, with their gap |
| `ManifestContents.EntriesAreCounted` | src/manifest/BackupPointManifestWriter.ts:442-462 | an entry count is the number of places with an entry of the phase and one of the statuses |
| `ManifestContents.RowsAreCounted` | src/manifest/BackupPointRepository.ts:196-212 | a row count is the number of rows of the backup, type and status |
| `ManifestContents.RuleIs` | src/manifest/BackupPointManifestWriter.ts:161-199 | a stage violates the rule exactly when it reports a total other than captured plus skipped |
| `ManifestContents.ViolationsAreCounted` | src/manifest/BackupPointManifestWriter.ts:161-199 | the violations counted are the stages of which that is so |
| `ManifestContents.LastSectionDecides` | src/manifest/BackupPointManifestWriter.ts:442-462 | the summary of a phase has the numbers of its successful, failed, and skipped or excluded entries, and the sum of its last section |
| `ManifestContents.SnapshotSays` | src/manifest/BackupPointManifestWriter.ts:415-487 | the identifiers, times, status, sections and entries of a snapshot, and of every section what was reported and fetched, its number of entries and its gap |
| `ManifestContents.NewManifestSays` | src/manifest/BackupPointRepository.ts:43-75 | a new backup point holds an empty manifest in progress with its identifiers |
| `ManifestContents.ValidationSays` | src/manifest/BackupPointManifestWriter.ts:292-371 | an empty field, a negative count and a violated rule are reported exactly for the fields and stages of which they are true |
| `ContextCapture.ContextNodeCaptureOrchestrator.CaptureIssueTypes` | src/capture/ContextNodeCaptureOrchestrator.ts:300-371 | the stage of the flat issue type list |
| `ContextCapture.ContextNodeCaptureOrchestrator.CaptureCustomFields` | src/capture/ContextNodeCaptureOrchestrator.ts:375-486 | custom fields become entries with their number of contexts, system fields are skipped with a reason, failed context fetches count as none |
| `ContextCapture.ContextNodeCaptureOrchestrator.CaptureList` | src/capture/ContextNodeCaptureOrchestrator.ts:490-723 | the three stages over one paginated list |
| `ContextCapture.ContextNodeCaptureOrchestrator.SumParents` | src/capture/ContextNodeCaptureOrchestrator.ts:742-779 | the loop over parents adds up entries, pages and reported totals, and stops at a failed list |
| `ContextCapture.ContextNodeCaptureOrchestrator.CaptureOverParents` | src/capture/ContextNodeCaptureOrchestrator.ts:727-904 | the board and sprint stages |
| `ContextCapture.ContextNodeCaptureOrchestrator.Run` | src/capture/ContextNodeCaptureOrchestrator.ts:162-269 | the stages in order up to the first error, all of them handed to the manifest writer |
| `ContextCapture.FlatStagesViolateExactly` | src/capture/ContextNodeCaptureOrchestrator.ts:402-457 | issue types and custom fields fail the integrity check exactly for a string body whose two lengths differ, and every field is captured or skipped |
| `ContextCapture.FlatListIsFetched` | src/capture/ContextNodeCaptureOrchestrator.ts:309-330 | a flat list is one page that reports the length of the answer; anything else fails the stage |
| `ContextCapture.SystemFieldsAreSkipped` | src/capture/ContextNodeCaptureOrchestrator.ts:420-450 | exactly the system fields are skipped, in order, each for the same reason |
| `ContextCapture.SectionReports` | src/capture/ContextNodeCaptureOrchestrator.ts:490-723 | the pages, total and count a stage reports are those of its fetched list, and none if it failed |
| `ContextCapture.FieldSectionReports` | src/capture/ContextNodeCaptureOrchestrator.ts:375-486 | the same for custom fields, with the number of fields captured and skipped |
| `ContextCapture.SummedSectionReports` | src/capture/ContextNodeCaptureOrchestrator.ts:727-904 | a summed stage succeeds exactly if every list was fetched, and reports the sums of pages and totals over all parents |
| `ContextCapture.RunReports` | src/capture/ContextNodeCaptureOrchestrator.ts:230-269 | a run reports its stages, their entries, the stage it halted at if the last failed, and the system fields skipped |
| `ContextCapture.StagesAreConcatenated` | src/capture/ContextNodeCaptureOrchestrator.ts:230-269 | entries and sections of a run are those of its stages, one stage after the other |
| `ContextCapture.ListStageViolatesExactly` | src/capture/ContextNodeCaptureOrchestrator.ts:534-541 | a stage over one list is flagged exactly when its pagination is not reconciled |
| `ContextCapture.SummedStageViolatesExactly` | src/capture/ContextNodeCaptureOrchestrator.ts:736-788 | a summed stage is flagged exactly when the gaps of its parents do not add up to zero |
| `ContextCapture.OppositeGapsCancel` | src/capture/ContextNodeCaptureOrchestrator.ts:761-788 | two unreconciled parents with opposite gaps are not flagged |
| `ContextCapture.TruthfulSiteNeverViolates` | src/capture/ContextNodeCaptureOrchestrator.ts:233-268 | no stage of a run against honest endpoints is flagged, wherever it halts |
| `ContextCapture.SuccessfulStageIsComplete` | src/capture/ContextNodeCaptureOrchestrator.ts:300-904 | a stage that succeeds against honest endpoints holds exactly the list behind them, item by item, with id, name, type and payload of each |
| `ContextCapture.RunCapturesWholeLists` | src/capture/ContextNodeCaptureOrchestrator.ts:233-268 | a run is a prefix of the fixed order in which every stage but a halting last one holds its whole list |
| `ContextCapture.BackupContext` | src/capture/ContextNodeCaptureOrchestrator.ts:162-269 | run, finalize and validate agree on any site |
| `ContextCapture.TruthfulBackupPassesValidation` | src/manifest/BackupPointManifestWriter.ts:161-371 | from honest endpoints to the validator nothing is flagged, whichever fetches fail |
| `IssueCapture.IssueCaptureOrchestrator.RecordIssueError` | src/capture/IssueCaptureOrchestrator.ts:428-456 | a failed issue adds the same error in all four places, or throws exactly for a key that the tables refuse, having counted it in the totals |
| `IssueCapture.IssueCaptureOrchestrator.AppendIssueEntry` | src/manifest/BackupPointRepository.ts:137-154 | a row without an object id is ignored, an id that cannot be bound throws |
| `IssueCapture.IssueCaptureOrchestrator.DownloadAttachment` | src/capture/IssueCaptureOrchestrator.ts:516-585 | a failed download adds an error in all four places, a stored one an entry |
| `IssueCapture.IssueCaptureOrchestrator.DownloadAttachments` | src/capture/IssueCaptureOrchestrator.ts:367-379 | the attachment loop ticks for every attachment and is left at the first null |
| `IssueCapture.IssueCaptureOrchestrator.CaptureIssue` | src/capture/IssueCaptureOrchestrator.ts:315-471 | what one issue adds in all four places, for every pattern of failures and keys, and exactly when it throws |
| `IssueCapture.IssueCaptureOrchestrator.CaptureElement` | src/capture/IssueCaptureOrchestrator.ts:301-304 | the same for an element of a listing, which throws if it is null |
| `IssueCapture.IssueCaptureOrchestrator.CaptureProject` | src/capture/IssueCaptureOrchestrator.ts:273-313 | a rejected listing escapes, and so does the first element that breaks the run off; the elements before are captured in order |
| `IssueCapture.IssueCaptureOrchestrator.Run` | src/capture/IssueCaptureOrchestrator.ts:207-269 | completes exactly when nothing breaks it off; all four places stand where the issues before, and that element, leave them; the timer is stopped exactly on completion |
| `IssueCapture.StopsExactly` | src/capture/IssueCaptureOrchestrator.ts:228-304 | a run goes through exactly when all listings succeed, without nulls, and every key can be bound and is there if its issue fails while error rows are kept |
| `IssueAccounts.WhatFails` | src/capture/IssueCaptureOrchestrator.ts:318-456 | an issue fails exactly if reading its fields, fetching its supplements or writing its payload fails, or if it lists a null; the message is that of the first of these |
| `IssueAccounts.CompletesExactly` | src/capture/IssueCaptureOrchestrator.ts:228-304 | a run completes exactly when every listing succeeds without nulls, and every issue has a key that binds or, having none, is sound or meets no error table |
| `IssueAccounts.EveryIssueIsAccountedFor` | src/capture/IssueCaptureOrchestrator.ts:315-471 | one issue-level entry per issue with a key, in order, up to where the run breaks off; captured plus failed issues balance; the four error counts differ by the failures without a key and by the one error of a breaking run |
| `IssueAccounts.CountsAgreeExactly` | src/capture/IssueCaptureOrchestrator.ts:428-456 | the four error counts agree exactly when no element broke the run off and no issue failed without a key; with error rows the second follows |
| `IssueAccounts.NullIssueEndsTheRun` | src/capture/IssueCaptureOrchestrator.ts:318-435 | a successful listing of one null ends the run with an error that only its totals hold |
| `IssueAccounts.KeylessFailureEndsTheRunExactly` | src/capture/IssueCaptureOrchestrator.ts:432-453 | a failing issue without a key ends the run exactly when error rows are kept |
| `IssueAccounts.CapturedPlusErrorsExactly` | src/capture/IssueCaptureOrchestrator.ts:359-378 | captured issues and errors of issues add up to the issues gone through exactly when no captured issue lists a null attachment |
| `IssueAccounts.ReportedStatusesAgreeExactly` | src/capture/IssueCaptureOrchestrator.ts:230-268 | from any totals to start with, returned and stored status agree exactly when run and emitter agreed about errors before and something was processed, or nothing had failed and there was no issue |
| `IssueAccounts.OmissionCheckExactly` | src/manifest/BackupPointManifestWriter.ts:255-272 | the omission check on issues passes exactly when as many of the issues lack an ok entry as attachments are stored, now or earlier |
| `IssueAccounts.OmissionCheckIsRightExactly` | src/manifest/BackupPointManifestWriter.ts:239-250 | in a new backup the check does what it is for exactly when no attachment is stored beside sound issues, and not as many are stored as issues are missed |
| `IssueAccounts.OmissionCanPassTheCheck` | src/manifest/BackupPointManifestWriter.ts:255-272 | a lost issue and a sound one with a stored attachment pass the check |
| `IssueAccounts.CaptureAndFinalize` | src/manifest/BackupPointManifestWriter.ts:251-280 | from a whole capture to `finalize`, even after a run that rejected: it is final exactly under that condition on the issues gone through |
| `IssueRecords.IssueIsRecorded` | src/capture/IssueCaptureOrchestrator.ts:315-585 | what one issue adds to the item table: the attachments it reaches if its three steps succeed, ok exactly if stored, then its own entry, ok exactly if nothing failed, otherwise with the message of what failed first; it is captured exactly if the three steps succeed |
| `IssueRecords.ErrorRowsMirrorErrorEntries` | src/capture/IssueCaptureOrchestrator.ts:428-585 | the error rows are the failed entries, in order, each about the same object and with the code of its kind |
| `IssueRecords.RunIsWalked` | src/capture/IssueCaptureOrchestrator.ts:228-304 | a run goes through the elements of its listings in order, up to a rejected listing or the first element it does not get past |
| `Jobs.JobStore.CreateJob` | src/jobs/JobStore.ts:76-89 | inserts a running job and ignores a taken id |
| `Jobs.JobStore.UpdateHeartbeat` | src/jobs/JobStore.ts:91-109 | stores counts and time and clears the stalled column, not the status |
| `Jobs.JobStore.SetStalled` | src/jobs/JobStore.ts:111-119 | sets column and status together |
| `Jobs.JobStore.CompleteJob` | src/jobs/JobStore.ts:121-154 | final status and display follow from the two counts |
| `Jobs.JobStore.SetFailed` | src/jobs/JobStore.ts:156-167 | fails the job with a reason |
| `Jobs.JobStore.GetActiveJobs` | src/jobs/JobStore.ts:178-185 | returns every running or stalled job once |
| `Jobs.HeartbeatEmitter.Start` | src/jobs/HeartbeatEmitter.ts:58-69 | registers the job and arms the timer |
| `Jobs.HeartbeatEmitter.Tick` | src/jobs/HeartbeatEmitter.ts:75-85 | counts one item and sends a heartbeat exactly when the interval has passed, or throws then if the key cannot be bound |
| `Jobs.HeartbeatEmitter.Complete` | src/jobs/HeartbeatEmitter.ts:102-138 | stops the timer and completes the job with the emitter's counts |
| `Jobs.HeartbeatEmitter.Flush` | src/jobs/HeartbeatEmitter.ts:142-171 | stores and publishes one heartbeat, or nothing if its key cannot be bound |
| `StallDetection.StalledJobDetector.Check` | src/jobs/StalledJobDetector.ts:63-113 | one pass leaves the set at the overdue jobs, the table as the specification says, and one event per newly stalled job |
| `StallDetection.PassExactly` | src/jobs/StalledJobDetector.ts:63-113 | from any table and set, status and set agree after a pass except for jobs marked by somebody else, or unmarked behind its back |
| `StallDetection.RunsStayConsistent` | src/jobs/StalledJobDetector.ts:63-113 | in every run stalled jobs are tracked, and tracked jobs are stalled or have ended |
| `StallDetection.TrackedMeansStalled` | src/jobs/StalledJobDetector.ts:63-113 | after every pass of every run: tracked exactly when active and overdue in the table, exactly when the status is stalled |
| `StallDetection.TrackedExactlyWhenSilent` | src/jobs/StalledJobDetector.ts:63-113 | after every pass of every run: tracked, and shown as stalled, exactly when the steps so far created and did not end the job and its creation or last heartbeat among them is longer ago than the threshold |
| `StallDetection.RowFollowsHistory` | src/jobs/JobStore.ts:76-167 | over every run a row holds the creation, last heartbeat, counts, total and ending that the steps about its job say |
| `StallDetection.ColumnFollowsHistory` | src/jobs/JobStore.ts:91-119 | over every run the stalled column is set exactly from the pass that finds the job newly silent to its next heartbeat, ending or recovery |
| `StallDetection.EndedJobsStayEnded` | src/jobs/JobStore.ts:91-185 | a completed or failed job is never active again |
| `StallDetection.TrackedSinceLastPass` | src/jobs/StalledJobDetector.ts:106-112 | over every run the set is the jobs the last pass found silent |
| `StallDetection.OneEventPerEpisode` | src/jobs/StalledJobDetector.ts:71-94 | over every run the stalled events of a job are one per episode of silence, with the time it had been silent |
| `StallDetection.Drive` | src/jobs/StalledJobDetector.ts:63-113 | the detector, its table and its bus make these runs, event by event |
| `Luhn.Luhn` | src/sdi/detectors/CreditCardDetector.ts:18-31 | the loop accepts exactly the digit strings whose recursive sum is a multiple of ten |
| `Luhn.AcceptedByPlaces` | src/sdi/detectors/CreditCardDetector.ts:18-31 | a string is accepted exactly if it consists of digits and the sum over its places, every second one from the right doubled and reduced, is a multiple of ten |
| `Luhn.SingleDigitErrorIsDetected` | src/sdi/detectors/CreditCardDetector.ts:18-31 | changing one character of an accepted string makes it rejected |
| `Luhn.AdjacentSwapIsDetected` | src/sdi/detectors/CreditCardDetector.ts:18-31 | swapping different neighbours is rejected, except exactly for 0 and 9 |
| `Luhn.CheckDigitIsUnique` | src/sdi/detectors/CreditCardDetector.ts:18-31 | each prefix has exactly one accepting check digit |
| `CsvLine.ParseLine` | src/sdi/handlers/TabularHandler.ts:64-87 | the character loop computes the fields |
| `CsvLine.LineIsReadByParity` | src/sdi/handlers/TabularHandler.ts:64-87 | every line is split exactly at the delimiters after an even number of quotes, and of its quotes those are kept that follow another one after an odd number |
| `CsvLine.RoundTrip` | src/sdi/handlers/TabularHandler.ts:63-87 | parsing a printed line gives back its fields, whichever were quoted |
| `CsvLine.QuoteNeverSplits` | src/sdi/handlers/TabularHandler.ts:71-80 | with the quote as delimiter nothing is split |
| `CsvLine.RoundTripExactly` | src/sdi/handlers/TabularHandler.ts:63-87 | the round trip holds exactly for delimiters other than the quote, or for a single field |
| `LineIndex.BuildLineOffsets` | src/sdi/handlers/XmlEntitiesHandler.ts:78-84 | the table lists the start of every line, in order |
| `LineIndex.OffsetToLine` | src/sdi/handlers/XmlEntitiesHandler.ts:87-96 | the search ends, at the last line start not above the offset |
| `LineIndex.SearchCountsNewlines` | src/sdi/handlers/XmlEntitiesHandler.ts:77-96 | that line number is one more than the newlines before the offset |
| `LineIndex.LineNumberOf` | src/sdi/handlers/XmlEntitiesHandler.ts:77-96 | index and search together, for any offset |
| `OAuthState.OAuthStateStore.Prune` | src/auth/OAuthStateStore.ts:39-44 | removes exactly the expired nonces |
| `OAuthState.OAuthStateStore.Generate` | src/auth/OAuthStateStore.ts:20-25 | prunes at one reading of the clock, then stores the nonce with its expiry after a second one |
| `OAuthState.OAuthStateStore.Consume` | src/auth/OAuthStateStore.ts:32-37 | answers from the stored expiry and removes the nonce either way |
| `OAuthState.AnswerExactly` | src/auth/OAuthStateStore.ts:20-44 | on any clock: true exactly for generated, never consumed, unexpired nonces no pruning pass has removed |
| `OAuthState.AnswersFollowTheHistory` | src/auth/OAuthStateStore.ts:20-44 | with a clock that never goes back pruning changes no answer |
| `OAuthState.ConsumedOnlyOnce` | src/auth/OAuthStateStore.ts:32-37 | a nonce tried once is refused from then on |
| `OAuthState.ClockGoingBackBreaksTheRule` | src/auth/OAuthStateStore.ts:39-44 | a history in which a clock that goes back makes pruning change an answer |

## Left out

- Everything under `frontend/` and `e2e/`: user interface and finite tests.
- Express plumbing, SSE streams and request validation, except the decisions handler and the handler of a rejected worker.
- SQL, migrations, JSON storage, files, hashing, base64, ZIP assembly and XLSX reading: rows are maps, storage is identity.
- The detectors built on regular expressions, including the search for card-number candidates, and the other scan handlers.
- `ProjectDiscoveryService`, `InventoryRouter`, `WorkloadConfig`, metrics and fault-injection flags: filtering, slicing and counting.
- The wall-clock schedule of timers: an armed timer may fire at any moment, and one step of a restore job reads the clock once.
- Log lines, formatted times and message texts beyond what they distinguish.
- Several clients or processes sharing one credential row: the refresh mutex belongs to a client. Reconnections stored by other code are modelled; nothing in the repository deletes a row.
- The expiry time stored with a token pair, which the client never reads; a token answer without both tokens is a body that cannot be used.
- The five stub phase handlers: the engine is proved for handlers of any outcome.
- A subscriber that throws inside a timer callback, which ends the process; exceptions at the publications of the worker and the engine are modelled.
- Failures of the stores, of the manifest writer and of callbacks during capture, other than rows refused for their key; progress callbacks and the scan of attachments for sensitive data are not part of this model.
- Collisions of random ids: a conflict id is fresh where a question is put in the life cycle and in the lemmas about the project phase; the project handler itself is modelled with a taken id, which makes it fail.
- Pagination.PaginateAtlassian: observed for a given number of fetches, because some servers keep the loop running for ever; EndedRunsAreFinal says that the number does not matter once the run has ended.
- ContextCapture.ContextNodeCaptureOrchestrator.Run: for endpoints whose pagination ends, for the same reason; an endless one leaves `run` waiting for ever, so there is no result to speak of.
- ContextCapture.ContextNodeCaptureOrchestrator.CaptureCustomFields: likewise.
- ContextCapture.ContextNodeCaptureOrchestrator.CaptureList: likewise.
- ContextCapture.ContextNodeCaptureOrchestrator.CaptureOverParents: likewise.
- ContextCapture.BackupContext: likewise.
- A listing of issues that never ends, which leaves the run waiting; listings succeed or are rejected.
- The key of an issue other than a text is told apart only by what the tables make of it; a number counts as the text it is stored as.
- Nulls in the lists of the context stages, which make their stage an error as a rejected fetch does.
- ManifestWriter.BackupPointManifestWriter.constructor: for an id that is not taken, as a constructor cannot fail here; NewWriter covers the other case.
- ManifestWriter.Validate: reads a manifest of the manifest type, so the checks of field types in untyped JSON are not modelled.
- ProjectPhase.ProjectPhaseHandler.AskOperator: the request that stores a decision and the poll that finds it happen within one turn; ProjectRuns has every await of the handler as a point between which anything else may happen.
- ProjectPhase.ProjectPhaseHandler.HandleProject: likewise.
- ProjectPhase.ProjectPhaseHandler.Run: likewise.
- RestoreLifecycle.StepKeepsInv: a subscriber that throws at a question fails its handler in the same step, as no request or timer can come between.
