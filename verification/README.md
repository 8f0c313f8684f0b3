# Harakiri: verified models of its protocols, parsers and loops

This project models the parts of Harakiri (a self-hosted sandbox service) whose correctness depends on more than one function: code that may die at any `await` and be started again, transactions of several workers, timers racing each other, walks over untrusted bytes, and printers whose output has to go through their own parser. `dafny verify dfyconfig.toml` checks everything.

The pattern is the same throughout. What a program may do is a step function over an explicit state, and the results are lemmas over every sequence of steps. Where the source changes state step by step, the program itself is there as well, as a class or a method with loops, and its contract says that it does what the step function says, so that the lemmas speak about the program.

| files | what they model |
|---|---|
| `FirstTaskRecord`, `FirstTaskMachine`, `FirstTaskSafety`, `FirstTaskDriver`, `FirstTaskRuns`, `FirstTaskEnds`, `FirstTaskOverlap` | the onboarding task: its saved record, its runs against a service that loses requests and replies, the program, a run worth knowing, how runs end, and runs that overlap |
| `RecoveryWorker`, `RecoveryProcess` | the Python acknowledgement journal with any number of concurrent processes |
| `AuthorizationWatcher` | the interval, deadline and expiry timers of a terminal's authorization |
| `TemplateQueue`, `TemplateQueueSafety`, `TemplateLatest`, `TemplateRuns`, `TemplateDatabase` | builds, versions, templates, retention, digest pinning and promotion, with any number of workers, pinners and promotions |
| `PodNames`, `Prepull` | the pre-pull of an image on every node |
| `TarPath`, `TarHeader`, `TarWalk`, `TarArchive`, `TarExtract`, `TarPlaces` | build contexts: entry names, the walk over headers, the ustar format, the reader, the extractor, and when it succeeds |
| `Dockerfile` | the base images of a Dockerfile |
| `ImageReference`, `WrittenReference` | parsing, printing and pinning image references, and the parser's answer field by field |
| `Migrations`, `MigrationRun` | migrations by concurrent processes |
| `Captions` | greedy caption cues and their times |
| `CapacityState` | latest-request-wins state of the capacity hook |
| `Text`, `Wrappers` | string operations, `Option`, `Result` |

## How the environment is modelled

- Every `await` of the onboarding task splits into request lost, accepted with the reply lost, and replied. A lost request stays in flight for ever or arrives later, also after the run that sent it is over. `Crash` ends a run for good at any await: a closed tab, a reloaded page, a rejected promise. In all modules but `FirstTaskOverlap` the runs of one task come one after the other; there a run that is left while it waits for a request without a signal goes on when the reply comes, next to a later run. `Launch` starts the next run from `readFirstTask` of the record.
- In `RecoveryWorker` the SQLite file gives one write transaction at a time, commits are durable, and a process may die between any two statements. The insert and the update open a transaction that another process may hold, in which case they raise.
- A template-queue transaction, or a statement outside of one, is one step with a reported outcome. A pinner reads, updates the version and updates the template in three steps; a promotion finds the template, finds the version, adds the alias and sets the latest version in four. Both may die between any two. Cancel, archive and template creation are steps of the environment, possible at any time; so are changes of aliases by hand, which no statement of the service makes.
- Timers of the watcher fire exactly when due; what is due at the same instant fires in any order. A check that begins when the credential's date has passed never finds a valid principal, as `revalidatePrincipal` sees to.
- The loops over an archive get a number of rounds. `Unfinished` is no error of the code: it says that the loop has not ended in that many turns.
- The cluster's answers, and how long each call takes, are a script given to `Prepull.Cluster`.

## Findings

Where a property fails on some inputs, a lemma states exactly when it holds, and another gives an input or a run on which it fails. Some do not reach the code as it is used today; the rows say so.

- **Promotion.** `promoteTemplate` sets `latest_version_id` and leaves the template's image and digest alone. Promoting the first of two builds leaves the template showing the image of the second (`PromotionLeavesTheOtherImage`). Every template shows its latest version all along a run, or has a pinner about to make it do so, if and only if no step tears (`ShownAllAlongExactly`); a promotion with no pinner at work tears if and only if the two versions differ in image or digest (`PromotionTearsExactly`).
- **Retention never retires a version.** Every version that a build makes carries the alias `latest`, seeded ones carry `latest` and `stable`, promotion only adds aliases (docs/architecture.md, line 113, says it moves them), and retention spares both. So in every run of the service's own statements no version is ever retired and every latest version is ready, promotions included (`NeverRetired`).
- **Promotion and retention, once aliases are taken away by hand.** The check that the version is ready and the update of `latest_version_id` are not one transaction. If somebody has removed the aliases of a version in the database, a retention pass in between leaves the latest version retired (`RetentionOvertakesPromotion`); with such changes, every latest version is ready all along a run if and only if no promotion ends that way (`ReadyExactly`).
- **Two pinners.** When a tag moves between the answers to two pinners of one version, and the first to write the version is the last to write the template, the two rows keep different digests (`TwoPinnersDisagree`). It is one of the steps that tear.
- **The guard of the second update.** After a build that commits between the two updates of `ensureTemplateImageDigest`, the second update without its condition on `latest_version_id` would leave the template showing an image its latest version does not have (`GuardPreventsStaleWrite`).
- **Negative sizes.** `parseInt` takes a minus sign. The loops over an archive advance if and only if the size is more than -512, and stay at the same header for ever if it is -512 to -1023 (`StepsAreBlocks`); a member with the size field `-1000` does it (`SizeThatNeverEnds`). The loops end if and only if no offset comes twice (`EndsExactly`), and always when no size is -512 or less (`ForwardWalksEnd`).
- **Pinning.** The pinned form of `host/name:a:b` does not parse back to itself: only one colon after the last slash is taken off, so the repository keeps `:a`, which the next parse takes for a tag (`TwoColonsAreNoFixpoint`). Pinning is a fixpoint if and only if there is at most one colon after the last slash (`PinningIsAFixpoint`, `EnsuredIsStable`).
- **Output directory `/`.** The extractor compares targets with the root followed by a slash, which is `//` for `/`; there the check refuses every entry but the directory itself (`RootRefusesFiles`). For every other directory it never fires (`SecondCheckIsRedundant`). The one caller passes the context directory of a build (apps/api/src/template-build-context-exporter.ts, line 19), so this stays without effect.
- **Trailing `..`.** `normalizeTarPath` refuses `..` at the start and in the middle of a name, not at its end: `a/b/..` is accepted and lands on `a` (`DotsAtTheEnd`, `AcceptedExactly`).
- **Duplicate names.** The reader returns the first entry of a path, the extractor leaves the last (`ReaderAndExtractor`); two members of one name make the difference (`DuplicateNames`).
- **Lookalike command.** A run that recovers an unacknowledged submission attaches to the only command with the same text and directory. It is the task's own exactly when the submission arrived (`SingleMatchIsOwnIffArrived`); a run in which it is not (`LookalikeIsTaken`).
- **Overlapping runs.** `createSandbox` takes no signal. A run that is left while its create request is out still saves the sandbox when the reply comes, over the mark of a submission that a later run has made meanwhile; the run after that submits again (`SubmitsTwice`). At most one command is submitted, and the record says so all along, if and only if no such reply comes (`OverlapIsSafeExactly`).
- **Long credentials.** A credential whose remaining time does not fit a timer gets no expiry timer. The checks cut it off all the same, by the interval and twice the timeout after its date at the latest (`EveryDatedCredentialIsCutOff`), but not always at the date: the terminal can still be connected at the first tick after it (`LateWithoutTimer`).
- **Negative caption times.** A timestamp is well formed if and only if its rounded time is not negative (`TimestampTellsTheTime`, `BeforeTheStart`), and cues run forward if and only if their chapter does (`CuesTile`). No chapter with such times is known to reach the code.

## Model

| member | source | states |
|---|---|---|
| FirstTaskRecord.ReadOfWrite | apps/web/src/first-sandbox.ts:20-34 | a saved task reads back unchanged exactly when its working directory starts with a slash, and not at all otherwise |
| FirstTaskRecord.WriteOfRead | apps/web/src/first-sandbox.ts:20-34 | what is read, written again, is the stored record without its unknown properties |
| FirstTaskRecord.ReadAcceptsWritings | apps/web/src/first-sandbox.ts:20-34 | a record is accepted if and only if, unknown properties aside, it is the writing of some task |
| FirstTaskSafety.EveryRunIsSafe | apps/web/src/first-sandbox.ts:45-102 | over every sequence of runs, with a stop at any await: at most one submission, at most one sandbox, the submitted mark never lost, a saved command is the task's own unless it has a lookalike, and complete means success with exit code 0 and its logs saved |
| FirstTaskSafety.EveryRunFreezes | apps/web/src/first-sandbox.ts:62-98 | from submission on the directory and sandbox of the record never change, nor a saved command id, nor a complete record |
| FirstTaskSafety.SingleMatchIsOwnIffArrived | apps/web/src/first-sandbox.ts:62-68 | the single command the recovery branch attaches to is the task's own exactly when its submission has arrived; no match means it has not |
| FirstTaskRuns.LookalikeIsTaken | apps/web/src/first-sandbox.ts:62-68 | a run in which the recovery branch attaches to a foreign command while the task's own submission has not arrived |
| FirstTaskSafety.StepKeeps | apps/web/src/first-sandbox.ts:45-102 | every step of the tab, the service or the network keeps the invariant behind these results |
| FirstTaskDriver.Tab.RunFirstTask | apps/web/src/first-sandbox.ts:45-102 | the program, run from the record against any world, does what the state machine does to that world; it returns a complete task that the record holds, unless it was cut off at an await, the signal was aborted, or its last answer was one of those that make it throw, and it says which |
| FirstTaskDriver.Tab.Prepare | apps/web/src/first-sandbox.ts:55-68 | sandbox creation and recovery lead to the observation of a submitted task or to the readiness loop of an unsubmitted one; otherwise the run is over for a cut, an abort, or not exactly one match |
| FirstTaskDriver.Tab.SubmitOnce | apps/web/src/first-sandbox.ts:69-87 | the readiness loop ends in one submission that was marked before it was sent, or the run is over for a cut, an abort, or one of the throws |
| FirstTaskDriver.Tab.AwaitReadiness | apps/web/src/first-sandbox.ts:69-82 | the loop ends at a ready sandbox with a rooted directory, or for a cut, an abort, a sandbox that is not running, no support, or no rooted directory |
| FirstTaskDriver.Tab.ObserveToEnd | apps/web/src/first-sandbox.ts:88-101 | observation goes on to the end of the command and returns the task with the record complete; it ends otherwise only for a cut, an abort, or a command that has not succeeded with exit code 0 |
| FirstTaskDriver.Tab.Finish | apps/web/src/first-sandbox.ts:91-98 | with the logs read, a command seen to have succeeded with exit code 0 leads to the complete record, and any other is thrown after its output has been saved |
| FirstTaskDriver.EveryVisitIsSafe | apps/web/src/first-sandbox.ts:45-102 | any number of visits of the program leave the world as the state machine does, with one submission and one sandbox at most |
| FirstTaskEnds.EndsExactly | apps/web/src/first-sandbox.ts:55-101 | for every answer at every await: it ends the run exactly when the signal is aborted, when the program throws on it, or when it brings the logs of a succeeded command with exit code 0 |
| FirstTaskEnds.EndsComplete | apps/web/src/first-sandbox.ts:88-101 | in every run: one that ends with no crash, abort or throw has left a record that is complete, with the standard output and standard error of its own succeeded command, joined by a line break if both are there |
| FirstTaskEnds.RunCompletes | apps/web/src/first-sandbox.ts:55-101 | for every sandbox, directory, command and output, a run from a fresh task through starting and ready to the complete record with all eight properties given |
| FirstTaskOverlap.OverlapIsSafeExactly | apps/web/src/first-sandbox.ts:57-87 | however runs overlap, at most one command is submitted and the record says all along whether it has been, exactly when no reply to a create request comes to a run that was left before the submission on record |
| FirstTaskOverlap.SubmitsTwice | apps/web/src/first-sandbox.ts:57-60 | a run in which such a reply comes and the command is submitted twice |
| RecoveryWorker.OneSubmission | examples/python-workflow-recovery/worker.py:14-55 | any number of concurrent start and observe processes, dying anywhere: one submission at most, and an observer is attached only to the command that submission made, in its sandbox |
| RecoveryWorker.JournalOnlyGrows | examples/python-workflow-recovery/worker.py:28-36 | the row is inserted once, acknowledged at most once, and never changed after that |
| RecoveryWorker.RunAttaches | examples/python-workflow-recovery/worker.py:14-55 | for any sandbox and command, a run that submits once, writes down the command that is acknowledged, and attaches an observer to it |
| RecoveryWorker.StepKeeps | examples/python-workflow-recovery/worker.py:14-55 | every statement of every process, every death and every arrival keeps the invariant |
| RecoveryProcess.Process.Work | examples/python-workflow-recovery/worker.py:14-55 | one process, with others acting between its statements, makes exactly the moves of the machine; observing ends with the acknowledged command of the row |
| RecoveryProcess.Process.ExecuteInsert | examples/python-workflow-recovery/worker.py:28 | the insert succeeds exactly when no transaction is open and the slot is empty |
| RecoveryProcess.Process.ObserveRun | examples/python-workflow-recovery/worker.py:43-52 | observation attaches exactly to the acknowledged command of the row, or raises |
| AuthorizationWatcher.OneCheckOneDisconnect | apps/api/src/live-authorization.ts:12-31 | in every run at most one check is outstanding and disconnect is called at most once; stopped means disconnected or told to stop, with no timer left |
| AuthorizationWatcher.StoppedForGood | apps/api/src/live-authorization.ts:15-24 | once stopped, over every continuation of every run nothing disconnects and no check begins any more |
| AuthorizationWatcher.DisconnectsInTime | apps/api/src/live-authorization.ts:22-31 | when no check begun at r or later finds a valid principal, disconnect or stop has been called before time passes r + interval + 2 * timeout |
| AuthorizationWatcher.DisconnectsForCauseOnly | apps/api/src/live-authorization.ts:21-33 | in every run with any parameters the watcher has disconnected if and only if, while it was not stopped, an answer other than a valid principal came, or a check's deadline or the expiry was due |
| AuthorizationWatcher.StaysConnected | apps/api/src/live-authorization.ts:21-33 | without such an event it has not disconnected, it is stopped only if it was told to, and the next check is due within the interval |
| AuthorizationWatcher.ExpiryInTime | apps/api/src/live-authorization.ts:32-33 | a credential whose remaining time fits a timer is cut off when that time is up |
| AuthorizationWatcher.ExpiredIsRevoked | apps/api/src/auth.ts:168-179 | in every run no check begun at the date of the credential or later finds a valid principal |
| AuthorizationWatcher.EveryDatedCredentialIsCutOff | apps/api/src/live-authorization.ts:22-33 | every credential with a date, and one whose date cannot be read, is cut off: with an expiry timer at the date, without one before time passes interval + 2 * timeout after it |
| AuthorizationWatcher.LateWithoutTimer | apps/api/src/live-authorization.ts:32-33 | without an expiry timer the cut-off can come later than the date: a run that is still connected at the first tick at the date or after it |
| AuthorizationWatcher.Watcher.OnInterval | apps/api/src/live-authorization.ts:22-27 | the interval's callback does what the machine's tick does to flags and timers |
| AuthorizationWatcher.Watcher.OnAnswer | apps/api/src/live-authorization.ts:26-31 | the rest of it does what an answer does, the finally block included; by DisconnectsForCauseOnly a valid one never disconnects |
| AuthorizationWatcher.Watcher.Play | apps/api/src/live-authorization.ts:12-36 | the callbacks, played in any possible order, give exactly the states of the machine |
| TemplateQueueSafety.EveryInterleavingIsConsistent | apps/api/src/template-builder.ts:465-705 | in every interleaving, promotions and pinners included, a build has succeeded exactly when exactly one version names it, no build is held twice, numbers count the commits, and every latest_version_id names a version of its own template |
| TemplateQueueSafety.VersionNumbersHaveNoGap | apps/api/src/template-builder.ts:581-611 | the version numbers of each template are 1 to n, each once, in commit order |
| TemplateQueueSafety.MaxIsCount | apps/api/src/template-builder.ts:581 | MAX(version_number) is the number of versions of the template |
| TemplateQueueSafety.CanceledForGood | apps/api/src/template-builder.ts:567-579 | a canceled build stays canceled, or its row is gone, and no version ever names it |
| TemplateQueueSafety.SettledForGood | apps/api/src/template-builder.ts:465-705 | a build that has succeeded, failed or been canceled keeps that status over every continuation while its row is there, and is never claimed again |
| TemplateQueueSafety.NoBuildIsLeftBehind | apps/api/src/template-builder.ts:465-705 | in every run in which no worker dies, a build is in status building only while a worker holds it |
| TemplateQueueSafety.ArchivedForGood | apps/api/src/template-builder.ts:612-621 | an archived template keeps its status whatever completes; its latest version moves only by a promotion, its image and digest only by a pinner |
| TemplateQueueSafety.StepKeeps | apps/api/src/template-builder.ts:465-705 | every transaction and every step of a pinner, a promotion, retention or the environment keeps the whole invariant |
| TemplateLatest.ShownAllAlongExactly | apps/api/src/services/templates.ts:250-293 | every template shows its latest version all along a run, or has a pinner about to make it do so, exactly when no step tears: no promotion of a version that is not shown, no second update over a version somebody else wrote meanwhile, no pinner that dies halfway |
| TemplateLatest.ReadyExactly | apps/api/src/services/templates.ts:268-286 | whatever is done to aliases by hand, every latest version is ready all along a run exactly when no promotion ends with a version retired since its check |
| TemplateLatest.NeverRetired | apps/api/src/template-retention.ts:158-186 | in every run of the service's own statements, promotions included, no version is ever retired, a retention pass over versions changes nothing, and every latest version is ready |
| TemplateLatest.PromotionTearsExactly | apps/api/src/services/templates.ts:286 | with no pinner at work a promotion leaves the template showing its latest version exactly when the old and the new one have the same image and digest |
| TemplateLatest.OnePinnerLeavesLatestShown | apps/api/src/templates.ts:104-132 | one pinner that does not die, interleaved with any completions, cancellations, archiving and retention: once it is done every template shows its latest version, which is ready |
| TemplateLatest.ShownStep | apps/api/src/templates.ts:104-132 | for every single step: it leaves all latest versions shown, or about to be, exactly when it does not tear |
| TemplateLatest.ReadyStep | apps/api/src/template-retention.ts:158-186 | for every single step, retention included: it leaves all latest versions ready exactly when it is not the end of a promotion of a retired version |
| TemplateRuns.PromotionLeavesTheOtherImage | apps/api/src/services/templates.ts:276-286 | for any two builds with different images or digests, a run that promotes the first and leaves the template showing the second |
| TemplateRuns.RetentionOvertakesPromotion | apps/api/src/services/templates.ts:268-286 | a run, possible only after aliases have been taken away by hand, in which a retention pass between the check and the update of a promotion leaves the latest version retired |
| TemplateRuns.GuardPreventsStaleWrite | apps/api/src/templates.ts:123-131 | for every image that is pinned and every other picture a build commits between the updates: the second update without its guard would leave the template showing what its latest version is not, and with the guard it does not |
| TemplateRuns.TwoPinnersDisagree | apps/api/src/templates.ts:104-132 | for any two registry answers that differ, a run of two pinners that leaves the version with one and the template with the other |
| TemplateDatabase.Tables.ClaimBuild | apps/api/src/template-builder.ts:465-515 | the claim takes the oldest queued build of the kind that no other worker has locked and makes it building, and no other row changes; without one nothing changes |
| TemplateDatabase.Tables.CompleteBuild | apps/api/src/template-builder.ts:564-661 | the rows after the transaction, and when it creates a version, ignores a canceled build or rolls back |
| TemplateDatabase.Tables.FailBuild | apps/api/src/template-builder.ts:663-705 | the worker's build is failed unless it was canceled or its row is gone, no other row changes, and nobody holds it any more |
| TemplateDatabase.Tables.SettleBuild | apps/api/src/template-builder.ts:773-787 | after a claim the worker holds nothing any more: either a version has been made and its build has succeeded, or there is no new version and the build is failed, unless it was canceled or is gone, with every other row as it was |
| TemplateDatabase.Tables.DeleteOldBuilds | apps/api/src/template-retention.ts:145-156 | exactly the aged terminal builds that no version names are gone, every other row is as it was, the build of every version is still there, and the count says how many rows went |
| TemplateDatabase.Tables.RetireOldVersions | apps/api/src/template-retention.ts:158-187 | row by row: exactly the aged ready versions not protected by latest, alias or use are retired, the others are as they were, and the count says how many rows changed |
| TemplateDatabase.Tables.EnsureDigest | apps/api/src/templates.ts:92-139 | a pinning with nothing between its updates gives version and template, if that is its latest version, the same image and digest and changes nothing else, or changes nothing at all |
| TemplateDatabase.Tables.PromoteTemplate | apps/api/src/services/templates.ts:250-286 | a promotion with nothing between its statements: when it is refused and why; otherwise the version is the template's latest one and has the alias, not twice if no alias was there twice, image and digest stay, and no other row changes |
| PodNames.NameKeepsIndex | apps/api/src/template-builder.ts:218-233 | a pod name is at most 63 characters and keeps its index whole, for any node name |
| PodNames.NamesAreDistinct | apps/api/src/template-builder.ts:232-233 | different indexes give different names, whatever the nodes are called |
| PodNames.AllNamesAreDistinct | apps/api/src/template-builder.ts:435-438 | all names of a pre-pull are pairwise distinct and at most 63 characters |
| PodNames.SafeNameStarts | apps/api/src/template-builder.ts:218-223 | a safe name has 1 to 54 characters and does not begin with a dash |
| PodNames.SafeNamesStay | apps/api/src/template-builder.ts:218-223 | a name of at most 54 lower-case letters, digits, dots and dashes that has a dash at neither end is its own safe name |
| PodNames.PodNameChars | apps/api/src/template-builder.ts:218-233 | pod names have lower-case letters, digits, dots and dashes only, for any build and node name |
| Prepull.Cluster.PrepullTemplateImage | apps/api/src/template-builder.ts:412-463 | on every way out each created pod is asked to be deleted afterwards, and the status reads are at most ceil(timeoutMs / 1000) + n over all n nodes; it is done only when every pod has said that its pull is done, with its image id, and fails only after a failed call, a failed pull, or when the time is up |
| Prepull.Cluster.WaitForPod | apps/api/src/template-builder.ts:391-410 | the sleeps of all waits share one deadline, and each wait ends with at most one read more than it slept; the answer is Ok only if the last read found the pull done, and an error only if it failed, found it failed, or all found it going on and the time was up |
| Prepull.Cluster.DeleteAll | apps/api/src/template-builder.ts:458-462 | after the finally block every created pod has had a delete request |
| TarPath.AcceptedExactly | apps/api/src/build-context.ts:56-65 | a name is accepted exactly when it does not begin with a slash and its components are not empty, not a lone "..", and have ".." at most at the end |
| TarPath.NormalizeIdempotent | apps/api/src/build-context.ts:56-65 | normalising a normalised name changes nothing |
| TarPath.PiecesOfJoin | apps/api/src/build-context.ts:57-60 | splitting a joined name gives its components back |
| TarPath.PiecesOfWritten | apps/api/src/build-context.ts:57-60 | a path of any components, with a slash or a backslash between each two, is split into exactly those components that are neither empty nor a dot |
| TarPath.DotsAndSlashes | apps/api/src/build-context.ts:57-60 | a leading "./" goes, and a backslash and a doubled slash are single separators |
| TarPath.ResolveStaysBelow | apps/api/src/build-context.ts:140-141 | an accepted name resolves to the root or below it, at exactly this place |
| TarPath.SecondCheckIsRedundant | apps/api/src/build-context.ts:141-142 | for an accepted name and any output directory the extractor's check passes if and only if the directory is not "/" or the target is the directory |
| TarPath.DotsAtTheEnd | apps/api/src/build-context.ts:61 | "a/b/.." is accepted and lands on "a" |
| TarPath.RootRefusesFiles | apps/api/src/build-context.ts:142 | in the output directory "/" the file "a" is refused |
| TarWalk.StepsAreBlocks | apps/api/src/build-context.ts:80-87 | each step goes by whole blocks; it advances exactly when the size is more than -512, and stays where it is exactly when the size is -512 to -1023 |
| TarHeader.ContentIsBehindHeader | apps/api/src/build-context.ts:80-85 | from an offset in the archive the content is the bytes behind the header, as many as the size says, and never read past the end |
| TarWalk.ForwardWalksEnd | apps/api/src/build-context.ts:71-88 | while no size is -512 or less the loops end, in as many rounds as there are blocks |
| TarWalk.EndsExactly | apps/api/src/build-context.ts:71-88 | the loops end exactly when no offset comes twice, and then within twice as many rounds as the archive has bytes; otherwise no number of rounds is enough |
| TarWalk.AnswerAt | apps/api/src/build-context.ts:71-89 | the first match decides: what follows it never matters, even where the walk of the whole would fail or never end |
| TarWalk.ReadTextFile | apps/api/src/build-context.ts:67-90 | for every archive, in any number of rounds: the first regular entry of the path in the walk of the whole, or the error that ends the walk before it, or missing |
| TarArchive.BlocksRead | apps/api/src/build-context.ts:72-87 | a member written in the ustar Interchange Format is read as itself wherever it stands, and the walk goes on right behind it |
| TarArchive.WalkOfArchive | apps/api/src/build-context.ts:67-90 | the walk of a written archive finds its members in order, up to the first name that is refused |
| TarArchive.RoundTrip | apps/api/src/build-context.ts:49-90 | for every list of members with legal fields and clean names the walk yields the same paths and bytes in order, whatever follows the end of the archive |
| TarArchive.SizeThatNeverEnds | apps/api/src/build-context.ts:51-54 | a member with the size field "-1000" brings the loops back to its own header for ever |
| TarArchive.DuplicateNames | apps/api/src/build-context.ts:83 | two members of one name: the first entry of the path and the last differ |
| TarArchive.ValueOfDigits | apps/api/src/build-context.ts:51-54 | octal digits read back as the number they write |
| TarExtract.Disk.Extract | apps/api/src/build-context.ts:126-154 | for every archive, in any number of rounds, the files left and the result are those of placing all entries of the walk in order, then the failure that ends it; TarPlaces.ExtractionSucceedsExactly says when that is a success |
| TarExtract.ExtractionHolds | apps/api/src/build-context.ts:132-153 | after success each target holds the last entry that lands on it, nothing else changed but for new folders, and the count is that of the regular entries |
| TarPlaces.ExtractionSucceedsExactly | apps/api/src/build-context.ts:126-154 | an extraction succeeds if and only if no file is at or above the output directory, the walk ends, and every regular entry lands elsewhere than on the directory itself, on no folder and below no file, none above another, with no NUL in a path; and into "/" only if all entries land on it |
| TarPlaces.ParentsAreFolders | apps/api/src/build-context.ts:144-151 | after success everything above a landed file is a folder |
| TarExtract.ReaderAndExtractor | apps/api/src/build-context.ts:67-154 | after a successful extraction without "..", the reader returns the first entry of each path and the extractor's file holds the last |
| TarExtract.ReaderSeesWhatWasExtracted | apps/api/src/build-context.ts:67-154 | when also each path occurs once, the reader returns for every path exactly the bytes extracted there, or that they are too many, and missing for all others |
| Dockerfile.BaseImages | apps/api/src/build-context.ts:98-124 | the loop with its alias set returns the list of base images |
| Dockerfile.ListedExactly | apps/api/src/build-context.ts:114-121 | an image is listed exactly when its line is FROM it and no earlier line declares it as an alias; its line number and dynamic mark are right |
| Dockerfile.ListedInOrder | apps/api/src/build-context.ts:102-123 | the list is in line order, each line once |
| Dockerfile.ChainsEndAtBases | apps/api/src/build-context.ts:114-121 | a chain of alias references can go on exactly when it has not reached a listed image |
| Dockerfile.ChainsReachBases | apps/api/src/build-context.ts:114-121 | every chain goes on, through strictly earlier lines, to a listed image |
| Dockerfile.ChainsAreShort | apps/api/src/build-context.ts:114-121 | a chain has no more lines than there are from its first one up |
| Dockerfile.StageOfWritten | apps/api/src/build-context.ts:103-115 | a FROM line written with flags, an image and perhaps an alias is read as these |
| Dockerfile.OtherLinesAreNoStages | apps/api/src/build-context.ts:103-106 | a line whose first word is not FROM, comments included, declares no stage, whatever follows it |
| Dockerfile.LinesOfWritten | apps/api/src/build-context.ts:101 | lines written with either kind of line break are split into themselves |
| ImageReference.ParseOfPrint | apps/api/src/registry.ts:25-52 | a printed reference parses to what was printed exactly when no colon follows the repository's last slash; otherwise the repository gets shorter |
| WrittenReference.ParsedAsWritten | apps/api/src/registry.ts:25-52 | for every reference written with or without registry, tag and digest, of any number of path components and with any blanks around: all six fields of the answer, given by the written parts and the defaults registry-1.docker.io, docker.io, library/ and latest |
| WrittenReference.BareName | apps/api/src/registry.ts:25-52 | a bare name is library/ and the name on docker.io, with the tag latest |
| WrittenReference.RefusedExactly | apps/api/src/registry.ts:25-42 | a reference is refused if and only if it is blank, ends in a colon without a digest, or names a registry but no path |
| ImageReference.PinningIsAFixpoint | apps/api/src/templates.ts:79-82 | the pinned form keeps display registry, repository and digest exactly when the name has at most one colon after its last slash |
| ImageReference.RegistryOfPinned | apps/api/src/registry.ts:34-35 | the registry that is asked is kept exactly when it is not the default one, which the pinned form names docker.io |
| ImageReference.TwoColonsAreNoFixpoint | apps/api/src/templates.ts:79-90 | the pinned form of "host/name:a:b" is not of that repository and needs pinning again |
| ImageReference.PinnedNeedsNoPinning | apps/api/src/templates.ts:87-90 | the pinned form needs no pinning under exactly the same condition |
| ImageReference.EnsuredIsStable | apps/api/src/templates.ts:92-139 | after ensureTemplateImageDigest no pinning is needed and a second call is the identity, exactly when the template needed none or its name meets the condition |
| ImageReference.RepositoryColons | apps/api/src/registry.ts:36-41 | the parser takes exactly one colon off what follows the last slash, if there is one |
| Migrations.AppliedIsAPrefix | apps/api/src/migrate.ts:9-36 | under any number of processes, crashes and failing SQL the applied files are a prefix of the list, each committed once, one process migrates at a time, and a run that returns leaves the full list applied |
| Migrations.HistoryGrows | apps/api/src/migrate.ts:17-31 | what has been applied stays applied |
| Migrations.OnlyFaultsFail | apps/api/src/migrate.ts:9-36 | in every run a process fails only if one of its own queries did; what the others do cannot make it fail |
| Migrations.RunReturns | apps/api/src/migrate.ts:9-36 | for any list of files, a run of one process that applies all of them and returns with the lock free again |
| Migrations.StepKeeps | apps/api/src/migrate.ts:9-36 | every query, failure and crash keeps the invariant |
| MigrationRun.Connection.Migrate | apps/api/src/migrate.ts:9-36 | one run among others makes the moves of the machine, and returns normally only with the full list applied |
| MigrationRun.Connection.Apply | apps/api/src/migrate.ts:21-31 | the transaction of one file leads to the next file or ends the run without success |
| Captions.Wrap | apps/demo-video/scripts/workflow-captions.ts:10-15 | the loop's parts are the lines of the greedy groups |
| Captions.WorkflowCues | apps/demo-video/scripts/workflow-captions.ts:8-21 | the cues of all chapters in order, each with its share of the time of its own chapter |
| Captions.GreedyIsBest | apps/demo-video/scripts/workflow-captions.ts:11-15 | the greedy groups are a split of the words within the limit, and no other split has fewer groups |
| Captions.NoSplitIsShorter | apps/demo-video/scripts/workflow-captions.ts:11-15 | greedy wrapping needs no more cues than any split into groups that fit |
| Captions.GreedyOfTail | apps/demo-video/scripts/workflow-captions.ts:11-15 | leaving out words at the start never costs a cue |
| Captions.CuesOfCaption | apps/demo-video/scripts/workflow-captions.ts:8-21 | a caption's cues hold every word once and in order, one line each, as few as can be, cover exactly the chapter's time in equal shares, and run forward exactly when the chapter does |
| Captions.CuesTile | apps/demo-video/scripts/workflow-captions.ts:16-20 | the cues of every chapter meet without gap or overlap and have equal shares of its time; they run forward exactly when the chapter does, and then the times shown never run backwards |
| Captions.TimestampTellsTheTime | apps/demo-video/scripts/workflow-captions.ts:3-6 | a timestamp is well formed by section 4.1 of WebVTT exactly when the rounded time is not negative, and then tells it |
| CapacityState.LatestWins | apps/web/src/capacity.tsx:11-42 | in every interleaving the shown updates have strictly increasing revisions, the last one is shown, and a mounted hook loads exactly while its newest request is outstanding |
| CapacityState.OlderResponsesAreIgnored | apps/web/src/capacity.tsx:12-21 | a response is shown exactly when its request is the newest, which is newer than every shown update; otherwise nothing changes |
| CapacityState.LeftRequestsAreNeverShown | apps/web/src/capacity.tsx:28-33 | a request outstanding when the hook is left is never shown over any continuation, and whatever is shown later is newer |
| CapacityState.Hook.OnResult | apps/web/src/capacity.tsx:16-20 | the success path does what the machine says |
| CapacityState.Hook.AcceptError | apps/web/src/capacity.tsx:35-40 | a payload replaces the state with a new revision, anything else refreshes |
| CapacityState.Hook.Play | apps/web/src/capacity.tsx:12-40 | the callbacks, played in any order on a new hook, give exactly the states of the machine |
| CapacityState.Hook.PlayedLatestWins | apps/web/src/capacity.tsx:12-40 | so the hook itself shows updates of strictly increasing revisions, the last one of them, and loads exactly while its newest request is outstanding |

## Left out

- HTTP, Fastify, Kubernetes, Keycloak, gunzip, base64, hashing and the text of SQL statements: only the effects used are modelled.
- Several browser tabs driving the same onboarding task, and session storage that refuses to save: the code has no guard for either. Runs of one tab that overlap are taken as sequential everywhere but in FirstTaskOverlap.
- The command listing is taken as complete; paging of results is not part of this model.
- firstTaskTemplates and the UI around the onboarding task: easy members.
- The checks of worker.py on the exit code and the marker file after attaching: they only read.
- RecoveryProcess.Process.Work: sandbox connection and readiness before the insert only appear as a process that has not inserted yet or has died.
- Timer drift, and interval or timeout values beyond what a timer can hold; the watcher's timers are ideal.
- The code of the cancel, archive and retry routes: cancel and archive are steps of the environment, retry is another build. The access checks, audit and reply of promoteTemplate.
- Lost COMMIT acknowledgements in completeBuild, whose outcome is assumed to be reported; a failBuild whose own transaction fails is taken for a worker that dies.
- Days, logs, stored contexts, builder jobs and audit events of retention; the set of aged rows is given.
- The provenance column and the registry's answer in ensureTemplateImageDigest; the resolved digest is given.
- TemplateDatabase.Tables.EnsureDigest: says what one pinner does with nothing between its updates; interleavings are the matter of TemplateLatest.
- runtimePullPreflightState, the hot-tag test and the single preflight pod: they appear as the observations the pre-pull loop acts on.
- Names beyond ASCII in safeName, and UTF-8 decoding of tar headers, contents and Dockerfiles: strings are read one character a byte.
- File system limits, permissions, symbolic links and what a failed write leaves half done; NUL characters, files in the way of folders and folders in the way of files are modelled.
- Line continuations and case-insensitive stage names of Dockerfiles: the source does not handle them either.
- decodeBuildContextUpload, the registry HTTP protocol, template ranking and alias helpers: easy members or I/O.
- Processes that see different migration files, a failing ROLLBACK and a session lost while it holds the lock.
- The settings text of a cue and the WEBVTT header; caption times are reals, so floating-point rounding is left out.
- createIntentKeys and changedSettings of the capacity page: easy members.
