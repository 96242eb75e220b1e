# A verified model of pzsvc-exec

pzsvc-exec is a small distributed job system. A *dispatcher* polls Piazza for jobs and starts one
Cloud Foundry task per job under a cap on running tasks. In each task a *worker* reads its job from
its command line, downloads inputs, runs a command, ingests the outputs concurrently and reports one
status to Piazza. This project models that behaviour in Dafny 4.11 and proves what it promises.

What lies outside (Piazza, Cloud Foundry, S3, HTTP, the file system, the clock, commands, JSON) enters
as parameters: values for the answers one call gets, functions for what the outside says to each
question, and actions of a transition system where the order of events matters. Concurrent code is a
transition system whose steps are the atomic points of the source; a theorem about every legal sequence
of actions is a theorem about every schedule. Code that works step by step is a method proved against a
specification function, and the promises are proved about that function.

## Modules

| module | models |
|---|---|
| `DispatchProtocol`, `DispatchSafety` | any number of dispatcher loops sharing one app, the tasks they create and what runs in them; the task cap, conservation of jobs, how many reports a fetch can bring |
| `ReportIDs` | under which job ID reports arrive, and when no ID is reported twice |
| `Iteration` | the body of `runIteration`, and its refinement into one transaction of the protocol |
| `PollLoop` | `Start`, `Stop` and the consumer of the error channel |
| `SessionCache` | the validated session cache of the dispatcher |
| `Sizing` | sizes of S3 files, disk and memory limits |
| `ShellWords`, `WorkerConfig`, `WorkerCmd`, `WorkerCommand`, `CommandRoundTrip` | the command line: printed by the dispatcher, cut by the shell, read by the worker |
| `CommandEffects` | what else a command line can make happen: second commands, other job IDs |
| `FetchInputs` | download goroutines, retry loop, fan-in |
| `OutputIngest`, `IngestFanout` | ingest calls and their results; the ingest goroutines with their timeout race and in-order drain |
| `PiazzaJobs` | polling a Piazza job, ingesting data |
| `WorkerExec` | the worker's stages and the status report |
| `EndToEnd` | the whole worker: any schedule of downloads and ingestions, to the final status |
| `Common` | options, results, joins, last-write-wins maps |

`dafny verify dfyconfig.toml` checks everything.

## Where the code and its documentation differ

The model follows the code.

- The default task cap is 3 in `dispatcher/poll/loop.go:60`; `README.md:103` says 5. The cap is a parameter here.
- The error of a memory-limit failure says the job will be retried later (`dispatcher/poll/loop.go:166`).
  Nothing is put back and nothing is reported: the job is counted as abandoned, like a job whose body
  does not decode or whose names and URLs do not match.
- The comment above the ingest goroutines speaks of one minute; the timer is three (`worker/ingest/ingest_async.go:22`, `:65`).
- The download loop logs that it times out after its retries, but it also goes on after a success
  (`worker/input/download_async.go:61-70`): the last attempt decides.
- A job without GeoJSON outputs is dispatched, and its worker refuses to start and reports nothing
  (`CommandRoundTrip.NoOutputsNeverStarts`).

## Properties that hold only under a condition

- *Task cap.* It holds in every run in which each count that lets a loop pass saw all tasks (`TaskCap`), and
  over all runs exactly when a created task is counted as running at once and the limit is no larger than a page
  of Cloud Foundry's task list (`CapHoldsExactly`). Only running tasks are counted, so pending ones escape the cap
  (`PendingTasksEscapeTheCap`); and only the first page is read (`session.go:57-62`, and `tasks.go:93-103` of the
  client), whose size nobody sets, so a `TASK_LIMIT` above it caps nothing (`LargeLimitIsNoCap`). Cloud Foundry's
  default page holds 50.
- *One report per fetch.* It holds over all runs exactly when an error from task creation means that there is
  no task, and the command line of every job that Piazza may hand out is contained (`OneReportPerFetchIff`): the
  shell reads it as words, the worker is left with the service's own configuration, and what it runs is the
  service's program with the job's command for its arguments. Failing runs:
  - `LeftoverTaskReportsTwice`: a task exists in spite of the error.
  - `SemicolonReportsTwice`, and `TwoCommandsReport` for any two worker commands with a semicolon between them:
    outputs are printed unquoted (`dispatcher/poll/loop.go:223-225`).
  - `CommandReportsTwice`, and `NestedWorkerReports` for any worker command: a service with a blank `CliCmd` is only
    warned about (`pzsvc/config.go:166-168`), and its workers run the job's command as the program.

  The only-if half about lines is about an over-approximation: whatever a line that is not contained starts is
  arbitrary in the model (`StrayLineReportsTwice`), also where the shell would refuse the line or the program would
  do no harm. For one job, `AtMostOneReportPerFetch` needs the condition of that job's line only.
- *One report per job ID.* Even if Piazza hands out each ID once, a line can give its worker the ID of another
  job: an output named `o --jobID B` does (`BlankInOutputStealsID`). For any
  set of bodies whose quoted fields hold no quote, under any such IDs, no ID is ever reported twice exactly when
  an error from task creation means that there is no task and the line of every job that Piazza may hand out
  keeps its own ID (`IDsReportedOnceIff`), which can be read off the line (`KeepsID`).
  Plain values and a command that is arguments of the service's program are enough for that (`PlainJobKeepsID`,
  `PlainJobsAreSafe`). Here, too, lines that are not contained are taken to report under any ID; that a worker
  command in the job's command reports under its own is `CommandReportsTwice`.
- *Command round trip.* A job reaches the worker unchanged exactly when it is safe to print and the
  worker's own demands are met (`RoundTripExactly`). Words with `*`, `?` or `[` are safe where no pattern matches
  a file, and otherwise not certain (`QueryURLIsAPattern`); a URL with two query parameters is lost
  (`QueryURLIsLost`).
- *Final status.* The one report is true exactly when no goroutine of the fetch or ingest stage takes the worker
  down, the worker does not crash while ingesting the report's body, and the ingest stage never fails without
  an error (`FinalStatus`); the last is proved of that stage.
- *Stop.* With a reader of the error channel nothing blocks (`StopIsNeverStuck`, `QuietMeansStopped`); without
  one a first error blocks `Stop` for ever (`UnreadErrorBlocksStop`).

## Model

| member | source | states |
|---|---|---|
| DispatchSafety.TaskCap | dispatcher/poll/loop.go:117-125 | in every run of n loops from any number of foreign tasks in which each count that lets a loop pass saw all tasks (none pending, none off the page), tasks plus loops past the check stay within max(start, limit - 1 + n) |
| DispatchSafety.SingleLoopCap | dispatcher/poll/loop.go:122-125 | under the same condition one loop alone never exceeds its limit |
| DispatchSafety.CreatedRunningSeesAll | dispatcher/cfwrapper/session.go:54-63 | where created tasks count at once and the limit fits in a page the condition holds in every run |
| DispatchSafety.TaskCapIsTight | dispatcher/poll/loop.go:117-163 | for every n and limit some run reaches limit - 1 + n tasks |
| DispatchSafety.PendingTasksEscapeTheCap | dispatcher/cfwrapper/session.go:54-63 | if created tasks are not counted at once, one run exists for every number of tasks, whatever the limit |
| DispatchSafety.LargeLimitIsNoCap | vendor/github.com/venicegeo/go-cfclient/tasks.go:93-103 | if the limit is larger than a page of the task list, one run exists for every number of tasks, even if all of them run at once |
| DispatchSafety.CapHoldsExactly | dispatcher/cfwrapper/session.go:54-63 | the cap holds over all runs if and only if created tasks count at once and the limit is no larger than a page |
| DispatchSafety.LoopStepBound | dispatcher/poll/loop.go:111-172 | each atomic point of an iteration keeps the bound, if a count that lets a loop pass saw all tasks |
| DispatchSafety.JobsAreConserved | dispatcher/poll/loop.go:127-174 | in every run the fetches of each job are its launches, reported failures, abandonments and the loops holding it; reports are failures plus worker reports plus reports from beside a worker |
| DispatchSafety.StepBalanced | dispatcher/poll/loop.go:127-174 | the balance of every job is kept by every step of loops, tasks and workers |
| DispatchSafety.AtMostOneReportPerFetch | dispatcher/poll/loop.go:163-174 | if a creation error means no task, no job with a contained line is reported more often than fetched, a job fetched once is never reported by both sides, an abandoned job never at all |
| DispatchSafety.LeftoverTaskReportsTwice | dispatcher/poll/loop.go:163-172 | otherwise one fetch can lead to two reports |
| DispatchSafety.StrayLineReportsTwice | dispatcher/poll/loop.go:217-227 | what a line that is not contained starts is arbitrary: any two reports can come after one fetch |
| DispatchSafety.TwoCommandsReport | dispatcher/poll/loop.go:217-227 | a line of two worker commands with a semicolon between them brings exactly the reports of those two workers |
| DispatchSafety.NestedWorkerReports | worker/workerexec/worker.go:76-78 | where the service names no program, a job's command that starts a worker brings that worker's report besides the outer one's |
| DispatchSafety.CommandReportsTwice | worker/workerexec/worker.go:76-78 | so a safe job with a worker command for any ID is reported under that ID and its own, after one fetch |
| DispatchSafety.WorkerReportsAreExecs | worker/workerexec/worker.go:46-105 | the reports of a worker in the protocol are those its Exec makes: same status, and the address of the job ID it was started with |
| DispatchSafety.SemicolonReportsTwice | dispatcher/poll/loop.go:223-225 | an output that goes on with a semicolon and a worker command does: two reports under the job's own ID, no error anywhere |
| DispatchSafety.OneReportPerFetchIff | dispatcher/poll/loop.go:127-174 | one report per fetch over all runs if and only if a creation error means no task and the line of every job that may be handed out is contained |
| ReportIDs.RunOwnIDs | worker/cmd.go:51-63 | if the lines of all fetched jobs keep their IDs, every report carries the ID of its own job |
| ReportIDs.NoJobIDIsReportedTwice | dispatcher/poll/loop.go:132-174 | end to end, with job IDs handed out once and lines that keep their IDs, no job ID receives two status reports |
| ReportIDs.OverriddenIDReportedTwice | worker/cmd.go:40-48 | a line that gives its worker another ID brings two reports under that ID once its own job, with the same body, is handed out |
| ReportIDs.BlankInOutputStealsID | dispatcher/poll/loop.go:223-225 | an output with a blank and a job ID in its name is such a line |
| ReportIDs.IDsReportedOnceIff | dispatcher/poll/loop.go:132-174 | for any set of bodies with quote-free quoted fields under any such IDs, no ID is reported twice in any run that hands out each once if and only if a creation error means no task and all lines keep their IDs |
| ReportIDs.PlainJobsAreSafe | dispatcher/poll/loop.go:208-228 | where only plain jobs are handed out, no line strays and every line keeps its ID |
| ReportIDs.PlainWorldIsSafe | dispatcher/poll/loop.go:208-228 | a world that meets the conditions of both equivalences and has one report per fetch and per ID |
| Iteration.PollingLoop.RunIteration | dispatcher/poll/loop.go:108-175 | the steps taken and, for every combination of answers, the request made, the report sent and the error returned |
| Iteration.PollingLoop.Dispatch | dispatcher/poll/loop.go:140-174 | a prepared job is requested once; only a creation failure other than a memory limit is reported, as one Fail without data at the task's address; which error comes back |
| Iteration.PollingLoop.BuildRequest | dispatcher/poll/loop.go:140-158 | the request field by field: command, job ID as name, droplet, disk and memory from the estimate or by default; and why there is none |
| Iteration.ReportsMatchProtocol | dispatcher/poll/loop.go:163-172 | what the dispatcher posts is what the protocol's run reports: job ID, status, no data |
| Iteration.RequestTracksTrueSize | dispatcher/poll/loop.go:152-158 | disk and memory of a request fall short of those for the true size by at most 2 and 5 MB for every file but one; below 1023 MB the disk is less than the default |
| Iteration.RequestRefused | dispatcher/poll/loop.go:140-148 | a body that does not decode, or names and URLs that do not match, give no request, with which error |
| Iteration.IterationIsATransaction | dispatcher/poll/loop.go:108-175 | an undisturbed iteration is a legal run of the protocol that leaves its loop idle and amounts to nothing, a launch, an abandonment or a reported failure of its job |
| PollLoop.ReceivedIsPrefixOfReturned | dispatcher/poll/loop.go:81-100 | received errors are always a prefix of returned ones, at most one behind, and behind only while the loop is sending |
| PollLoop.ClosedMeansComplete | dispatcher/poll/loop.go:93-95 | once the error channel is closed all errors were received, it was closed once and is never used again |
| PollLoop.NothingBeginsAfterStop | dispatcher/poll/loop.go:102-106 | no iteration begins after Stop's send is received |
| PollLoop.StopIsNeverStuck | dispatcher/poll/loop.go:86-106 | while Stop waits and errors are read, the polling goroutine can move |
| PollLoop.QuietMeansStopped | dispatcher/poll/loop.go:86-106 | when nothing but ticks can happen, a called Stop has returned, both channels are closed once and all errors were received |
| PollLoop.StopEnds | dispatcher/poll/loop.go:90-106 | ticks aside, at most three steps follow the receipt of Stop's send |
| PollLoop.OneIterationPerTick | dispatcher/poll/loop.go:83-92 | every iteration has a tick of its own and at most one tick waits |
| PollLoop.UnreadErrorBlocksStop | dispatcher/poll/loop.go:88-92 | without a reader the first error makes a later Stop wait for ever |
| SessionCache.DefaultFactory.GetSession | dispatcher/cfwrapper/factory.go:36-55 | a session that validates is handed out without a creation; a missing or invalid one is replaced by one creation, whose result is the answer; a failed validation is returned; a failure leaves the cache unchanged |
| SessionCache.DefaultFactory.RefreshCachedClient | dispatcher/cfwrapper/factory.go:59-67 | the cache is replaced only by a session that was created |
| SessionCache.CacheHoldsLastCreated | dispatcher/cfwrapper/factory.go:36-67 | over any calls the cache holds the last session created successfully |
| SessionCache.HandedOutIsCheckedOrFresh | dispatcher/cfwrapper/factory.go:39-54 | a session is handed out only if that call validated it or created it |
| SessionCache.FailureKeepsCache | dispatcher/cfwrapper/factory.go:41-52 | a failed validation or creation leaves the cache unchanged |
| SessionCache.ValidityExactly | dispatcher/cfwrapper/session.go:25-51 | which answers of the client make a session valid, invalid, or fail the validation |
| Sizing.GetS3FileSizeInMegabytes | pzsvc/http.go:293-313 | which replies have a size, that it is the reported length rounded towards zero, and the error of the others |
| Sizing.CalculateAWSInputFileSizeMB | dispatcher/poll/loop.go:230-247 | the sum of the sizes if every file is on AWS and has one, else 0 |
| Sizing.EstimateByFile | dispatcher/poll/loop.go:230-247 | file by file: whole megabytes rounded towards zero are added, and one file without a size makes it 0 |
| Sizing.SizedExactly | dispatcher/poll/loop.go:232-233 | a file has a size exactly if "amazonaws" occurs in its URL and S3 answers 200 OK with a number |
| Sizing.AtoiReadsDecimal | pzsvc/http.go:308 | decimal digits with an optional sign are read as the number they write, within 64 bits |
| Sizing.EstimatePermuted | dispatcher/poll/loop.go:230-247 | the estimate does not depend on the order of the files |
| Sizing.TotalsWithinRounding | pzsvc/http.go:308-312 | for all reported lengths, negative ones included, the total is off by less than a megabyte per file |
| Sizing.EstimateErrorBound | dispatcher/poll/loop.go:230-247 | for n files of non-negative size the total is at most the true megabytes and at most n - 1 short |
| Sizing.ErrorBoundIsMet | pzsvc/http.go:312 | n files one byte short of a megabyte are n - 1 short |
| Sizing.CalculateDiskAndMemoryLimits | dispatcher/poll/loop.go:249-262 | for a positive estimate T disk is 4096 + 2T and memory its default + 5T, else both are the defaults |
| Sizing.LimitsTrackTrueSize | dispatcher/poll/loop.go:253-256 | limits grow strictly with the estimate and fall short of those for the true size by at most 2 and 5 MB for every file but one |
| Sizing.DynamicDiskBelowDefault | dispatcher/poll/loop.go:17-18 | a computed disk figure reaches the default exactly from 1023 MB of input on |
| Sizing.NoWrapAround | dispatcher/poll/loop.go:230-262 | up to 199000 files no 64-bit integer of the computation wraps around |
| WorkerCommand.BuildWorkerCommand | dispatcher/poll/loop.go:208-228 | the command is the printed form of the job's words, or the mismatch error |
| WorkerCommand.CommandText | dispatcher/poll/loop.go:208-227 | the command in full: quoted fields, then inputs as name:URL behind -i, then outputs behind -o, each in order |
| WorkerCommand.CommandExactly | dispatcher/poll/loop.go:212-214 | it is printed exactly for as many names as URLs |
| ShellWords.LexPrinted | dispatcher/poll/loop.go:209-227 | well-printed words at the front of a command are read by the shell as themselves, whatever follows |
| ShellWords.LexRemovesQuotes | dispatcher/poll/loop.go:209-210 | no word the shell produces holds a single quote |
| ShellWords.LexOfQuoteFree | dispatcher/poll/loop.go:218-227 | words read from a line without quotes are plain words |
| ShellWords.LexCertain | dispatcher/poll/loop.go:218-227 | what is read whatever files there are is read the same where no pattern matches any |
| ShellWords.LexStops | dispatcher/poll/loop.go:218-227 | an operator or expansion behind complete words makes the line unreadable, whatever follows |
| ShellWords.ReadIsOneCommand | dispatcher/poll/loop.go:218-227 | every line that is read as words is one command |
| ShellWords.FurtherCommandFound | dispatcher/poll/loop.go:217-227 | a control operator with something behind it, or a command substitution, behind complete words is never taken for arguments |
| ShellWords.EscapesAndComments | worker/workerexec/command_runner.go:42-46 | what a backslash, a double quote and a comment sign do to the text behind them |
| ShellWords.SingleQuotesHide | worker/workerexec/command_runner.go:42-46 | nothing between single quotes starts a command |
| ShellWords.PlainExactly | dispatcher/poll/loop.go:217-227 | the characters that are not plain, one by one |
| CommandRoundTrip.SafeJobIsRecovered | dispatcher/poll/loop.go:208-228 | every safe job reaches a ready worker with its command, IDs, inputs and outputs unchanged and in order |
| CommandRoundTrip.RecoveredIsSafe | worker/cmd.go:51-103 | only safe jobs do |
| CommandRoundTrip.RoundTripExactly | dispatcher/poll/loop.go:208-228 | a job is recovered if and only if it is safe and the worker ready |
| CommandRoundTrip.FlagsForced | worker/cmd.go:46-47 | input and output flags come back as given only if each value is a plain word |
| CommandRoundTrip.StartedOnSafeJob | worker/cmd.go:51-108 | a worker that starts on a safe job has exactly that job |
| CommandRoundTrip.NoOutputsNeverStarts | worker/cmd.go:93-95 | a job without GeoJSON outputs never gets a worker that starts |
| CommandRoundTrip.QueryURLIsLost | dispatcher/poll/loop.go:218-220 | a URL with two query parameters does not survive the shell's operator between them |
| CommandRoundTrip.QueryURLIsAPattern | dispatcher/poll/loop.go:218-220 | a URL with one survives exactly where it matches no file as a pattern |
| CommandEffects.CanStartSomewhere | worker/cmd.go:66-103 | which flags some environment lets start |
| CommandEffects.PlainJobKeepsID | dispatcher/poll/loop.go:208-228 | quote-free quoted fields, plain values and a command that is arguments of the service's program make a line that starts one worker under the job's own ID and nothing else |
| CommandEffects.SafeJobContained | worker/workerexec/worker.go:76-78 | the line of a safe job starts nothing else exactly if the worker's shell runs the service's program with the job's command for arguments, or nothing |
| CommandEffects.BlankServiceRunsJob | worker/workerexec/worker.go:76-78 | behind a blank service command, a job's command that is read as words runs by itself |
| CommandEffects.FurtherCommandRuns | worker/workerexec/worker.go:76-78 | behind any service command, an operator with something behind it or a substitution in the job's command runs something else |
| CommandEffects.OtherConfigurationStrays | worker/cmd.go:66-71 | a line that gives its worker another configuration file is not contained |
| CommandEffects.CommandIsWorker | worker/workerexec/worker.go:76-78 | a safe job whose command is a worker command: its worker starts, and so does, from the full command, a second one under the ID it names |
| CommandEffects.SemicolonStartsTwoWorkers | dispatcher/poll/loop.go:223-225 | a semicolon in an output splits the line into two commands, and both start workers under the job's ID |
| CommandEffects.HiddenInCommand | worker/workerexec/command_runner.go:42-46 | a semicolon and a worker command are not one command |
| CommandEffects.OverriddenIDIsNotKept | dispatcher/poll/loop.go:223-225 | a blank and a job ID in an output give the worker that ID |
| CommandEffects.ParseSameButJobID | worker/cmd.go:38-48 | reading flags keeps the job ID given before or replaces it by one that does not depend on it |
| CommandEffects.SameBodySameFlags | worker/cmd.go:51-63 | the job whose ID a line takes gets a line, from the same body, that takes it too |
| WorkerCmd.RunCmd | worker/cmd.go:51-103 | exactly when a configuration is accepted, and each field of it: flags win over the environment, the commands come from the configuration file |
| WorkerCmd.ComplaintsInOrder | worker/cmd.go:66-103 | which demand is complained about first |
| WorkerCmd.FlagsByName | worker/cmd.go:38-48 | which field every declared flag sets |
| WorkerCmd.ParseFlagsWithout | worker/cmd.go:38-48 | reading flags invents no characters |
| WorkerCmd.ParseFlagsAppends | worker/cmd.go:46-47 | repeated input and output flags accumulate in order |
| WorkerCmd.ParsedSourcesRebuild | worker/cmd.go:97-103 | accepted sources are rebuilt one by one from name and URL |
| WorkerConfig.ParsedSourceRebuilds | worker/config/config.go:34-43 | accepted exactly if there is a colon, and then rebuilt by joining with it |
| WorkerConfig.PrintedSourceParses | worker/config/config.go:34-43 | a printed pair is read back as itself exactly if its name has no colon |
| WorkerConfig.InputsAsMap | worker/config/config.go:78-84 | the map of the inputs: its keys are their names, and each name has the URL of its last input |
| FetchInputs.DownloadInput | worker/input/download_async.go:49-84 | exactly Retries + 1 requests; the error for each way the file check, the last request and the copy can go, and the body copied; a crash exactly for negative Retries |
| FetchInputs.FetchAll | worker/input/fetch_input.go:33-47 | nil exactly if every receive was nil, else one text per failure |
| FetchInputs.FetchedIffAllSucceed | worker/input/fetch_input.go:25-48 | under every schedule FetchInputs returns nil exactly if every file was opened, every last request answered 200 and every body copied, else one text per failure; no download is left blocked |
| FetchInputs.ErrorChannelsUsedOnce | worker/input/download_async.go:47-84 | at most one error per channel, one close, after the error; the number of requests |
| FetchInputs.StuckMeansReturned | worker/input/fetch_input.go:25-48 | when nothing can move FetchInputs has returned and every download has ended |
| FetchInputs.EveryScheduleEnds | worker/input/download_async.go:46-87 | every schedule for n sources ends within n (Retries + 8) + 2 steps |
| OutputIngest.FileTypeBySuffix | worker/ingest/ingest_async.go:70-81 | the file type follows from how the name ends, in any case |
| OutputIngest.AssembleIngestorCalls | worker/ingest/ingest.go:55-83 | every output becomes one call or one error, in order |
| OutputIngest.CallOf | worker/ingest/ingest.go:68-81 | everything the call for an output carries |
| OutputIngest.LowerCase | worker/ingest/ingest_async.go:71 | capitals become the small letters at the same place in the alphabet |
| OutputIngest.HandleIngestResults | worker/ingest/ingest.go:94-121 | the sequential drain: errors in order after the given ones, last data ID per path, a combined error exactly if there are errors |
| OutputIngest.CallPaths | worker/ingest/ingest.go:59-81 | the calls' paths are those of the outputs that exist |
| IngestFanout.EveryScheduleRefinesDrain | worker/ingest/ingest.go:49-53 | under every schedule of goroutines and timers the output is the sequential drain of the results in call order |
| IngestFanout.OutputOfEverySchedule | worker/ingest/ingest_async.go:25-44 | that output in terms of calls, answers and timeouts alone: each path has the data ID answered for its last call that succeeded, the errors are the answers' own or the timeout's, in call order |
| IngestFanout.OutputIndependentOfSchedule | worker/ingest/ingest.go:85-121 | schedules in which the same calls time out give the same output |
| IngestFanout.ChannelsUsedOnce | worker/ingest/ingest_async.go:23-45 | at most one value per channel, naming its own file, one close after it, no misuse of a closed channel |
| IngestFanout.SomeStepEnabled | worker/ingest/ingest_async.go:35-44 | until the output is complete a step other than the return of an ingestion is possible |
| IngestFanout.StuckMeansFinished | worker/ingest/ingest_async.go:25-45 | when nothing can move the output is complete and only inner goroutines of timed-out calls are left blocked |
| IngestFanout.EveryScheduleEnds | worker/ingest/ingest_async.go:19-48 | every schedule for n calls ends within 12 n + 2 steps |
| IngestFanout.StepDecreases | worker/ingest/ingest_async.go:23-45 | each step lowers a measure over the program counters of all goroutines |
| PiazzaJobs.GetJobResponse | pzsvc/http.go:173-214 | the first decisive reply among at most 300 requests, and how many were made; no error means a result |
| PiazzaJobs.SuccessEndsPolling | pzsvc/http.go:192-202 | behind replies that say the job is on its way, Success with a result ends polling with it, after as many requests |
| PiazzaJobs.FailureEndsPolling | pzsvc/http.go:182-210 | behind the same replies a failed request, Fail, any other error and an unknown status end it with their errors |
| PiazzaJobs.PollingEndsOtherwise | pzsvc/http.go:176-213 | an error without a result crashes; a job on its way for 300 replies is given up |
| PiazzaJobs.ResultIff | pzsvc/http.go:192-202 | a result comes back exactly if a Success with that result follows nothing but waiting replies, in time |
| PiazzaJobs.NilErrorMeansResult | pzsvc/http.go:192-213 | error and result exclude each other; a crash exactly on an Error without a result |
| PiazzaJobs.Ingest | pzsvc/file.go:34-111 | at most one request, its route, file, content and metadata for every file type, and the outcome |
| PiazzaJobs.IngestedID | pzsvc/file.go:101-111 | what is handed back is the data ID of the result the job ends with |
| PiazzaJobs.IngestErrors | pzsvc/file.go:81-105 | which failure is the error, and that a response without a job ID is one |
| PiazzaJobs.IngestFile | pzsvc/file.go:114-128 | unreadable and empty files are never sent; the one request for any other has its name, type, metadata and contents |
| PiazzaJobs.Payload | pzsvc/file.go:58-78 | for every file type, whether the data goes up as a file or as content, and its media type |
| PiazzaJobs.CopyProps | pzsvc/file.go:54-56 | the metadata are the properties, in whatever order they are visited |
| WorkerExec.WorkerOutputData.AddErrors | worker/workerexec/model.go:28-32 | appends the errors in order |
| WorkerExec.Piazza.SendExecResultData | pzsvc/execresult.go:45-64 | the body is ingested first; the status asked for is posted only if that worked, with its data ID; else Fail |
| WorkerExec.Piazza.SendExecResultNoData | pzsvc/execresult.go:33-42 | one post of that status to the task's address, without data |
| WorkerExec.OutputToPiazza | worker/workerexec/piazza_output.go:21-35 | Success is asked for exactly if no errors were recorded; the body is the record |
| WorkerExec.Exec | worker/workerexec/worker.go:46-105 | for every outside world: the record ingested, the posts made, the error returned |
| WorkerExec.AskedForNothingElse | worker/workerexec/worker.go:63-90 | Exec runs the configured version command and CliCmd, a blank and the job's arguments, and depends on no other answer |
| WorkerExec.RecordOfStages | worker/workerexec/worker.go:53-97 | the record for every way the stages can go, in terms of the answers |
| WorkerExec.ReportOfBody | pzsvc/execresult.go:45-64 | the report for every way the body's ingestion can go: address, status, data ID |
| WorkerExec.TrimSpaceTrims | worker/workerexec/worker.go:73 | of the version only white space is trimmed, and all of it at both ends |
| WorkerExec.FinalStatus | worker/workerexec/worker.go:53-104 | exactly when the one report is true and when there is none, crashes of goroutines included, and that there is never more than one |
| WorkerExec.ReportedRecord | worker/workerexec/worker.go:47-102 | errors, HTTP status 500 and no output files exactly when a stage failed without taking the worker down |
| EndToEnd.StatusEndToEnd | pzsvc/execresult.go:48-63 | Success, Error and Fail characterised over all schedules and outside worlds, across downloads, commands, ingestion and report |
| EndToEnd.IngestStageErrors | worker/ingest/ingest.go:110-118 | the ingest stage has a combined error exactly if it has errors, and none exactly if every output was there and ingested in time |
| EndToEnd.OutputCoverage | worker/workerexec/worker.go:90-97 | stat errors plus results are the outputs; data IDs never exceed successes, and each path has the one answered for its last successful call; without errors OutFiles has exactly the outputs as keys, each with the ID answered for it |
| EndToEnd.CallOfRun | worker/ingest/ingest.go:49-81 | what is asked to be ingested for an output: path, service, trimmed version, the command that was run |

## Left out

- RoundTripExactly: whether patterns match files is one fact for the whole line; expansions, a leading tilde and comments count as unsafe even where they would leave the job as it is; brace expansion, which POSIX does not have, is not modelled; a NUL character in a field is not excluded.
- StartedOnSafeJob: boolean help and version flags given with an explicit value (`-help=false`) are taken as requests for help.
- OneReportPerFetchIff: what a line that is not contained starts is arbitrary, so it is taken to be able to report. That covers lines a shell would refuse (`;;`) and ones it would read as a single command in a way not modelled here (a backslash, a double quote, a comment, a pattern that may match, `&` in a redirection); in the job's command, quotes, backslashes and comments are followed, and an arithmetic expansion counts as a command substitution; a service command that is not read as plain words counts as naming no program.
- AtMostOneReportPerFetch: the service's own version command and program are taken not to report to Piazza, and the program not to run its arguments as a command (`env`, `sh -c`, a reserved word such as `!`).
- NoJobIDIsReportedTwice: brace expansion, and a tilde behind `=` or `:`, are not modelled; in a shell that has them a value that counts as plain can turn into other arguments, a job ID included.
- TaskCap: tasks of the app that others create during a run are not modelled; those there at the start may end at any time. Nor are tasks that someone cancels, which Cloud Foundry stops counting before they end.
- IDsReportedOnceIff: for jobs that hold no single quote in the fields that are printed between quotes, and bodies that may come under any such ID; for others KeepsID is proved sufficient (NoJobIDIsReportedTwice), not necessary.
- StatusEndToEnd: for runs in which no goroutine takes the worker down and the worker does not crash while its report is ingested; FinalStatus covers the others.
- StopIsNeverStuck: does not bound how many ticks the select may prefer to a waiting Stop, since Go's choice is only random.
- ErrorBoundIsMet: for at most a million files, beyond which rounding of the sum itself helps.
- The transition systems of the goroutines end with every goroutine that returns; a crash in one of them is an outcome of its stage in WorkerExec, and in the protocol a task may end without a report at any time.
- All loops of a run share one cap, one configuration and, for each URL, one answer of S3.
- The text of errors that quote HTTP responses or operating-system errors is shortened or taken as given.
- HTTP transport, TLS, multipart bodies and JSON: requests and replies are decoded values; the encoder of the worker's record is an arbitrary function.
- Logging and audit records, and the masking of authentication fields in job inputs.
- Service registration and configuration checks (pzsvc/service.go, pzsvc/config.go, dispatcher/pzsvc_discover.go): one-branch code around unseen servers.
- Which Cloud Foundry error codes mean a memory limit (dispatcher/cfwrapper/memory_limit.go): a given answer.
- Real time: ticks, the three-minute timer and HTTP timeouts are events that may happen at any moment.
- Several calls of Start, repeated Stop, and Stop before Start.
- The race between checking for an input file and opening it.
