# ACAS server: prediction pump, job queue and prediction helpers in Dafny

This project models the prediction path of the ACAS server and its web client.
- **Deep-learning connector**: the `buildingStatus`, `retrainStatus` and `predictingStatus` records; the session table behind the legacy prediction status; `prepareTraining`'s dataset expansion; `startPredicting` for each kind of traffic.
- **Online prediction pump**: the self-rescheduling `startOnlinePrediction`/`checkForSemFile` chain and the skip-or-spawn rule of `executePrediction`.
- **Job queue**: the queue-name table, the worker settings, wait-time estimation and duration formatting, the Redis retry and reconnect policies, the statistics totals, priority and the cleanup window, and the `REDIS_AVAILABLE` flag over an abstract job table.
- **Queue error classifier**: Redis outages answered with 503, anything else with 500.
- **`/predict` routes**: the MMT completion poller, the `/offline` dispatch (validation order, queue or direct prediction, automatic fallback), `/interfaces`, `/online` and `/online/status`.
- **`/prediction` routes**: the status decision for one prediction's results and the three file downloads.
- **Classifier script `prediction.py`**: feature alignment, the attack/normal split, the append-only result files with their headers, the running total in `stats.csv`, and the command line.
- **Prediction page**: the IPv4 and port validators, reading `stats.csv`, the online running totals deduplicated by prediction id, `_relPath`, the top ten attacking addresses and the PCAP picker.
- **Mitigation helpers**: the iptables previews, the per-action guards, bulk deduplication and its preview, and the `noun` helper.
- **ISIM routes**: the `/asset_info` address, the critical filter, the first-or-404 lookup and the `/enrich` join.

The project has one module per source file, plus three shared modules:
- `Wrappers`: the `Option` and `Result` types;
- `Text`: JavaScript and Python string primitives over `seq<char>`;
- `Sorting`: an insertion sort standing for `Array.prototype.sort`.

Timers become events. A `Tick` is the moment a pending `setTimeout` fires, and it carries what the step observes. The other event is the spawned classifier's exit. `Date.now()`, generated ids, file-system answers, MMT answers and upstream HTTP answers are parameters.

A pure function states each decision. A method with the source's loops or state updates is proved against that function, and lemmas state what the source promises about it.

Three behaviours of the code that a reader may not expect are modelled as written:
- The `pcap` traffic type of `startPredicting` never calls back.
- The `'-'` removal in the worker lookup finds a setting only for the `prediction` queue; every other queue estimates with one worker.
- Leading zeros pass `isValidIPv4`.

## Model

| member | source | states |
|---|---|---|
| Pump.FilterData | src/server/deep-learning/deep-learning-connector.js:307-308 | every line of the report that is neither blank nor a `#` comment is kept, as often as it occurs, and no other line |
| Pump.SkipIffFewDataLines | src/server/deep-learning/deep-learning-connector.js:307-316 | a report is skipped exactly when it has fewer than 3 flow lines, and spawned exactly when it has 3 or more; a final newline does not change the outcome |
| Pump.WideSpaceLineIsNotData | src/server/deep-learning/deep-learning-connector.js:307-308 | a line holding only an ideographic space (U+3000) is blank to `trim`, so a header, such a line and one row are skipped |
| Pump.HeaderAndOneRowIsSkipped | src/server/deep-learning/deep-learning-connector.js:311-316 | a header and one row are skipped: completion code 0 and nothing spawned |
| Pump.CompletesExactlyOnce | src/server/deep-learning/deep-learning-connector.js:301-345 | `onComplete` fires exactly once per call. The code is 0 exactly when the report was skipped or the classifier succeeded. The return value is true exactly when a readable report with 3 or more flow lines spawned the classifier |
| Pump.StepMonotone | src/server/deep-learning/deep-learning-connector.js:358-421 | a step never moves the next index to process backwards; processing index p moves it to p+1; a stopped chain does nothing |
| Pump.RunProcessesInOrder | src/server/deep-learning/deep-learning-connector.js:415-420 | over any run, the processed indices strictly increase, so none is processed twice. All of them lie between the starting index and the final one |
| Pump.StoppedStaysStopped | src/server/deep-learning/deep-learning-connector.js:359-362 | once the chain has returned without rescheduling, no event makes it do anything again |
| Pump.StopEndsChain | src/server/deep-learning/deep-learning-connector.js:387-390 | a tick that finds `predictingStatus.isRunning` false ends a waiting chain, schedules nothing and processes nothing |
| Pump.NoProcessingWhileStopped | src/server/deep-learning/deep-learning-connector.js:359-362 | while every tick sees the flag false, no report is sent to the classifier, whatever state the chain is in |
| Pump.CsvWaitHasNoCap | src/server/deep-learning/deep-learning-connector.js:373-380 | with no CSV at the index, every tick re-checks the same index after 1000 ms, however many ticks pass |
| Pump.SemWait | src/server/deep-learning/deep-learning-connector.js:393-411 | each missing `.sem` adds a miss and waits 500 ms; the 120th miss moves on to the next index without processing the report |
| Pump.SemTimeoutAfter120Misses | src/server/deep-learning/deep-learning-connector.js:396-405 | exactly 120 misses, 119 waits apart (59.5 s), abandon the report; after fewer the chain is still waiting on it |
| Pump.ProcessThenAdvance | src/server/deep-learning/deep-learning-connector.js:415-420 | with the marker present the report is processed, and the chain continues at the next index whatever the exit code |
| Connector.FirstMissing | src/server/deep-learning/deep-learning-connector.js:78-86 | the first dataset whose folder is missing, and none exactly when every folder exists |
| Connector.PrepareTraining | src/server/deep-learning/deep-learning-connector.js:65-118 | the nested loops compute `Prepare`: an error for a missing or short dataset list or a missing folder, else the expanded build configuration |
| Connector.ExpandFolder | src/server/deep-learning/deep-learning-connector.js:87-95 | the inner loop yields one entry per listed file but `security-reports.csv`, in listing order |
| Connector.FolderEntriesMembers | src/server/deep-learning/deep-learning-connector.js:87-95 | an entry comes from a folder exactly when it is a listed file other than the security report, with the dataset's `isAttack` |
| Connector.EntriesMembers | src/server/deep-learning/deep-learning-connector.js:76-96 | an entry of the expansion belongs to some dataset and is one of that folder's files other than the security report, and each such file is there |
| Connector.PrepareOutcome | src/server/deep-learning/deep-learning-connector.js:69-96 | preparation fails exactly for fewer than 2 datasets or a missing folder; on success the entries are exactly the non-security-report files of every dataset with its attack flag |
| Connector.DeepLearningConnector.constructor | src/server/deep-learning/deep-learning-connector.js:35-61 | every status record starts idle, with no sessions and no pump chains |
| Connector.DeepLearningConnector.StartBuildingModel | src/server/deep-learning/deep-learning-connector.js:148-175 | a failed preparation or write leaves the flag as it was; a successful one sets `buildingStatus.isRunning`; nothing else changes |
| Connector.DeepLearningConnector.BuildFinished | src/server/deep-learning/deep-learning-connector.js:169-171 | the build's exit callback is the only thing that clears the building flag |
| Connector.DeepLearningConnector.RetrainModel | src/server/deep-learning/deep-learning-connector.js:179-279 | a running retrain refuses. A missing training, testing or model file is an error, checked in the source's order. The record changes exactly when the retrain starts, and then `isRunning` is set |
| Connector.DeepLearningConnector.RetrainFinished | src/server/deep-learning/deep-learning-connector.js:270-273 | the retrain's exit callback clears `retrainStatus.isRunning` and changes nothing else |
| Connector.DeepLearningConnector.StopOnlinePrediction | src/server/deep-learning/deep-learning-connector.js:284-290 | once MMT has stopped, only `predictingStatus.isRunning` is cleared, and the record is handed back |
| Connector.DeepLearningConnector.CreateSession | src/server/deep-learning/deep-learning-connector.js:503 | the session table gains a running session under the id, which becomes the one the legacy status reports |
| Connector.DeepLearningConnector.CompleteSession | src/server/deep-learning/deep-learning-connector.js:508 | a known session is marked not running and every other one is untouched; an unknown id changes nothing |
| Connector.DeepLearningConnector.PredictingStatus | src/server/deep-learning/deep-learning-connector.js:579-582 | idle before any prediction, else the last session's id and its running flag |
| Connector.DeepLearningConnector.StartPredicting | src/server/deep-learning/deep-learning-connector.js:470-574 | a missing model is an error; `pcap` never answers; an unknown type is an error; neither changes anything. `report` and `online` go as in the next two rows, and the build and retrain records are untouched |
| Connector.DeepLearningConnector.MissingReport | src/server/deep-learning/deep-learning-connector.js:495-500 | the error names the report file and gives the missing path `REPORT_PATH/reportId/reportFileName` |
| Connector.DeepLearningConnector.StartReportPrediction | src/server/deep-learning/deep-learning-connector.js:491-520 | a missing report changes nothing. Otherwise an offline session is created, running exactly when the classifier was spawned, and the reply is that session in the legacy format. The pump flag and the chains are untouched |
| Connector.DeepLearningConnector.StartOnline | src/server/deep-learning/deep-learning-connector.js:521-557 | unless MMT reports itself running, nothing happens and nothing is answered. Otherwise an online session is created, `predictingStatus` is set running with that session's data, and one new pump chain starts at index 0 |
| Connector.DeepLearningConnector.OfflineClassifierExited | src/server/deep-learning/deep-learning-connector.js:506-509 | when the offline classifier exits, its session is completed and nothing else changes |
| Connector.DeepLearningConnector.PumpTick | src/server/deep-learning/deep-learning-connector.js:358-421 | the chain takes the pump's step for the current flag and listing; with the flag false a waiting chain stops |
| Connector.DeepLearningConnector.PumpClassifierExit | src/server/deep-learning/deep-learning-connector.js:417-420 | a chain whose classifier exits moves on to the next index with a fresh wait |
| JobQueue.LookupInvertsName | src/server/queue/job-queue.js:432-444 | the name table knows exactly the seven queue names, each for its own queue |
| JobQueue.ConfiguredWorkers | src/server/queue/job-queue.js:192-200 | a set variable that parses to a non-zero integer gives that integer; an unset one, or one that parses to nothing or to 0, gives the default; the result is never 0 |
| JobQueue.Concurrency | src/server/queue/job-queue.js:192-200 | the table has exactly the seven camel-case keys, each read from its own variable with its own default (3, 2, 3, 2, 1, 2, 2); a count found is never 0 |
| JobQueue.WorkersFor | src/server/queue/job-queue.js:401 | the worker count used for an estimate is never 0 |
| JobQueue.LowerCaseKeyMisses | src/server/queue/job-queue.js:192-200 | a lower-case key misses every table entry but `prediction` |
| JobQueue.LowerName | src/server/queue/job-queue.js:63-121 | every queue name is lower case |
| JobQueue.DashedName | src/server/queue/job-queue.js:63-121 | every queue name but `prediction` contains a dash |
| JobQueue.OnlyPredictionFindsItsWorkers | src/server/queue/job-queue.js:401 | only the prediction queue finds its configured workers; every other queue is estimated with one worker |
| JobQueue.Ceil | src/server/queue/job-queue.js:403 | the least integer not below its argument |
| JobQueue.CeilDiv | src/server/queue/job-queue.js:405 | the least integer c with a <= c*b |
| JobQueue.EstimateFrom | src/server/queue/job-queue.js:403-409 | the seconds are the least integer not below waiting/workers*average, and the minutes the least integer m with seconds <= 60*m |
| JobQueue.EstimateOnError | src/server/queue/job-queue.js:383-412 | a broker error gives 0, 0 and `Unknown`; otherwise the queue's average and worker count are used |
| JobQueue.EstimateMonotone | src/server/queue/job-queue.js:403 | more waiting jobs never give a shorter estimate |
| JobQueue.DefaultPredictionEstimate | src/server/queue/job-queue.js:393-403 | 7 waiting predictions with default settings: 70 s, `2 minutes` |
| JobQueue.DefaultFeatureEstimate | src/server/queue/job-queue.js:393-403 | 3 waiting feature extractions use one worker despite the 3 configured: 180 s |
| JobQueue.DurationOf | src/server/queue/job-queue.js:418-426 | under 60 s the seconds are shown. Otherwise m is the ceiling of s/60: under 60 the minutes are shown, else hours and minutes with h*60+m equal to that ceiling |
| JobQueue.FormatDurationReadsBack | src/server/queue/job-queue.js:418-426 | every text `formatDuration` writes parses back to the reading of its input |
| JobQueue.RetryStrategy | src/server/queue/job-queue.js:26-33 | a delay is given exactly for attempts up to 3, never above 1500 ms |
| JobQueue.RetrySchedule | src/server/queue/job-queue.js:26-33 | the attempts wait 500, 1000 and 1500 ms, and the fourth is refused |
| JobQueue.ReconnectOnAnyToken | src/server/queue/job-queue.js:34-40 | a message containing `READONLY`, `ECONNRESET` or `ETIMEDOUT` anywhere triggers a reconnect |
| JobQueue.TotalsCountEachQueueOnce | src/server/queue/job-queue.js:500-505 | each total counts every queue exactly once: changing one queue's counts changes the total by exactly that difference |
| JobQueue.Priority | src/server/queue/job-queue.js:207 | the priority given to the broker is never 0, and a non-zero requested priority is kept as it is |
| JobQueue.Broker.constructor | src/server/queue/job-queue.js:59 | the broker starts unavailable, with no jobs and the given environment |
| JobQueue.Broker.OnError | src/server/queue/job-queue.js:143-149 | any queue error marks Redis unavailable, jobs unchanged |
| JobQueue.Broker.OnReady | src/server/queue/job-queue.js:155-157 | a ready event marks Redis available |
| JobQueue.Broker.TestConnection | src/server/queue/job-queue.js:162-176 | availability is whether the ping answered in time |
| JobQueue.Broker.Add | src/server/queue/job-queue.js:253-272 | a new job is stored waiting with its priority. The reply carries the id, the queue's name, the position (0 when unknown) and the estimate from the queue's own counts |
| JobQueue.Broker.GetJobStatus | src/server/queue/job-queue.js:431-476 | an unknown queue name is an error. An unknown job is `not-found`. Otherwise the job's state is reported, with a position and estimate only for a waiting job |
| JobQueue.Broker.CancelJob | src/server/queue/job-queue.js:512-536 | an unknown queue name is an error; a known job is removed and reported cancelled; an unknown one changes nothing and is reported not found |
| JobQueue.Broker.CleanupOldJobs | src/server/queue/job-queue.js:539-557 | exactly the completed or failed jobs older than the window are removed, from every queue; every other job is kept unchanged |
| QueueErrors.RedisErrorNeedsMessage | src/server/utils/queueErrorHelper.js:11 | a missing error, or one without a message, is never a Redis error |
| QueueErrors.RedisTokenAnywhere | src/server/utils/queueErrorHelper.js:13-17 | a message containing any of the five words anywhere is a Redis error |
| QueueErrors.RedisErrorHasToken | src/server/utils/queueErrorHelper.js:10-18 | conversely, a Redis error has a message containing one of the five words |
| QueueErrors.HandleQueueError | src/server/utils/queueErrorHelper.js:20-37 | the status is 503 exactly for a Redis error and 500 otherwise |
| QueueErrors.RedisErrorIs503 | src/server/utils/queueErrorHelper.js:23-30 | a Redis error gives 503 and carries the original message as details; the label defaults to `Background job processing` |
| QueueErrors.OtherErrorIs500 | src/server/utils/queueErrorHelper.js:33-36 | any other error gives 500 with `<operation> failed` and its message, or the default one when it has none |
| PredictRoutes.WaitResult | src/server/routes/predict.js:25-47 | the first poll that sees MMT stopped resolves; the first that sees it running past the timeout rejects; the stopped check comes first; otherwise the wait goes on |
| PredictRoutes.WaitDecidedAt | src/server/routes/predict.js:29-42 | the outcome is fixed by the first deciding poll, whatever follows |
| PredictRoutes.WaitForMmtCompletion | src/server/routes/predict.js:25-47 | the polling loop computes `WaitResult` |
| PredictRoutes.TimeoutPoll | src/server/routes/predict.js:37-42 | a run that never stops is rejected at poll timeout/interval+2, the first past the timeout |
| PredictRoutes.DefaultTimeoutPoll | src/server/routes/predict.js:25 | with the defaults (300000 ms, every 500 ms) a run that never stops is rejected at the 602nd poll |
| PredictRoutes.StopWithinTimeoutResolves | src/server/routes/predict.js:32-37 | a run seen stopped at a poll within the timeout resolves there, even at exactly the limit |
| PredictRoutes.PredictionId | src/server/routes/predict.js:229 | the id starts with `predict-` |
| PredictRoutes.DirectReply | src/server/routes/predict.js:277-300 | a failed start gives its error with 500. A started one gives the prediction's status, marked as the automatic fallback with its warning exactly when the broker failed |
| PredictRoutes.Offline | src/server/routes/predict.js:153-309 | a missing `modelId` is refused first. MMT runs only for a pcap file with neither report field. Without a pcap file both report fields are required. A job is queued only for a valid request with the queue chosen, with priority 5. A valid request without the queue is predicted directly, with no job. A broker failure falls back to a direct prediction; any other queue failure is answered by the error handler |
| PredictRoutes.PostOffline | src/server/routes/predict.js:153-309 | the handler's sequential updates compute `Offline` |
| PredictRoutes.SimplifiedUsesGeneratedReport | src/server/routes/predict.js:198-209 | the simplified mode passes on `report-<MMT session>` with its first CSV file |
| PredictRoutes.PcapWithOneReportField | src/server/routes/predict.js:168-218 | a pcap file with one report field skips MMT and passes the legacy check |
| PredictRoutes.RedisFailureFallsBack | src/server/routes/predict.js:253-257 | a broker failure while queuing yields a direct prediction carrying the fallback warning |
| PredictRoutes.OtherQueueFailureAnswered | src/server/routes/predict.js:258-261 | any other queue failure is answered with 500 for the `Prediction queue` operation, and nothing else is run |
| PredictRoutes.FirstIPv4 | src/server/routes/predict.js:128 | the first address whose family is IPv4, and none exactly when there is none |
| PredictRoutes.InterfaceList | src/server/routes/predict.js:125-135 | the list holds exactly the entries `name - address` for the first IPv4 address of an interface, and no more entries than interfaces |
| PredictRoutes.InterfaceListCount | src/server/routes/predict.js:127-135 | one entry per interface having an IPv4 address, the others left out |
| PredictRoutes.OnlineConfig | src/server/routes/predict.js:342-367 | a missing `modelId` is refused with 400 first, then a missing interface; a valid body becomes an online configuration |
| PredictRoutes.OnlineAnswer | src/server/routes/predict.js:369-389 | no callback, no answer; a failed start gives 500; a started one shows the interface, the model and the prediction's status |
| PredictRoutes.OnlineStatusView | src/server/routes/predict.js:404-420 | the mode is `online` exactly for an online configuration, and only then are the interface and model shown; the running flag and id are passed through |
| PredictRoutes.OnlineStatusShowsConfig | src/server/routes/predict.js:340-420 | whatever `/online` configured is shown back by `/online/status` with the same interface and model |
| PredictionRoute.Result | src/server/routes/prediction.js:72-120 | 202 exactly for a running session; otherwise readable stats give 200 with their text. Without stats: 404 when there is no directory; 500 when the session has completed; 404 `Results not available` when there is no session |
| PredictionRoute.ResultCodes | src/server/routes/prediction.js:72-120 | every answer is 200, 202, 404 or 500, and 404 only without readable stats |
| PredictionRoute.Serve | src/server/routes/prediction.js:13-53 | the file is sent exactly when it exists under the prediction; otherwise the status is 401 |
| PredictionRoute.ServeDistinctFiles | src/server/routes/prediction.js:15-45 | the three routes serve three different files of the same prediction |
| Classifier.Align | src/server/deep-learning/prediction.py:58-72 | the aligned row has exactly the model's width: the leading features are kept, extra ones cut off and missing ones filled with zeros |
| Classifier.AlignIdempotent | src/server/deep-learning/prediction.py:61-72 | aligning twice is aligning once, and a row already of the right width is unchanged |
| Classifier.Merge | src/server/deep-learning/prediction.py:49-50 | a flow is kept exactly when some feature row carries its key, and the merged frame has one row per pair of a flow and a feature row with the same key |
| Classifier.UnmatchedFeatureRowFails | src/server/deep-learning/prediction.py:49-79 | with distinct flow keys, a feature row whose key no flow carries makes the merged flows fewer than the feature rows, and the positional pairing fails |
| Classifier.MatchedFeatureRowsSucceed | src/server/deep-learning/prediction.py:49-79 | with distinct flow keys and every feature row matching a flow, the positional pairing succeeds |
| Classifier.RowsPairOwnFeatures | src/server/deep-learning/prediction.py:49-79 | when the merged flows and the feature rows agree in number and in key at each position, the positional pairing is the key join: each flow's row carries its own aligned features and its verdict |
| Classifier.MisorderedFeaturesSwapFlows | src/server/deep-learning/prediction.py:49-79 | when the feature frame lists two flows in the other order, the first address is written with the second flow's features |
| Classifier.Where | src/server/deep-learning/prediction.py:100-106 | attack rows are exactly those with verdict > 0, normal rows exactly those with verdict 0 |
| Classifier.PartitionCovers | src/server/deep-learning/prediction.py:100-106 | with 0/1 verdicts every row is in exactly one partition |
| Classifier.HeaderFor | src/server/deep-learning/prediction.py:87-88 | a header exists exactly when there are enough output names, and then it is the first n of them |
| Classifier.Appended | src/server/deep-learning/prediction.py:92-110 | an existing file gets the rows appended; a new file starts with the header when there is one |
| Classifier.AppendKeepsHeaderFirst | src/server/deep-learning/prediction.py:98-110 | appending never writes a second header |
| Classifier.NextStats | src/server/deep-learning/prediction.py:114-131 | one row is appended: the batch plus the last row read, or the batch alone when nothing is read |
| Classifier.StatsLastIsRunningTotal | src/server/deep-learning/prediction.py:27-131 | the last stats row is always the sum of every batch since the last run without flows |
| Classifier.ResultDir.constructor | src/server/deep-learning/prediction.py:24-25 | the result directory starts with no files |
| Classifier.ResultDir.Predict | src/server/deep-learning/prediction.py:12-131 | with no flows, `stats.csv` is overwritten with `0,0,0` and `predictions.csv` with a header only. Otherwise the run fails, writing nothing, exactly when the merged flows and the feature rows differ in number; when they agree the positionally paired rows are appended as `Record` states |
| Classifier.ResultDir.Record | src/server/deep-learning/prediction.py:92-131 | predictions are always appended; the attack and normal files only for non-empty partitions, with headers only on new files; one stats row is appended |
| Classifier.RowsHaveModelWidth | src/server/deep-learning/prediction.py:58-79 | every row of a successful pairing has exactly the model's input width of features |
| Classifier.Cli | src/server/deep-learning/prediction.py:133-154 | fewer than three arguments after the script name print usage. Otherwise the CSV, model and result paths are the arguments in that order, and a non-empty fourth argument gives the decoded address filter |
| PredictPage.ValidIPv4Iff | src/client/src/pages/PredictPage.js:147-155 | four dot-free pieces make a valid address exactly when each is 1 to 3 digits worth at most 255 |
| PredictPage.Octets | src/client/src/pages/PredictPage.js:149-153 | a valid address has four octet values |
| PredictPage.FormatIPv4RoundTrip | src/client/src/pages/PredictPage.js:147-155 | an address written from four values up to 255 is valid and reads back as those values |
| PredictPage.LeadingZerosAccepted | src/client/src/pages/PredictPage.js:151-153 | `010.001.000.255` is accepted: the octet check compares a number's text with itself |
| PredictPage.OctetAbove255Refused | src/client/src/pages/PredictPage.js:151-153 | an octet above 255 is refused |
| PredictPage.WholePortValidIff | src/client/src/pages/PredictPage.js:158-164 | a whole number is a valid port exactly in 1..65535 |
| PredictPage.OtherPortsRefused | src/client/src/pages/PredictPage.js:159-163 | null or undefined, NaN and fractional numbers are never valid ports |
| PredictPage.NonBlank | src/client/src/pages/PredictPage.js:522 | every line that is not blank is kept, as often as it occurs, and no blank line |
| PredictPage.LastStatsLine | src/client/src/pages/PredictPage.js:522-529 | the line read, when there is one, is never blank |
| PredictPage.TablePredictStats | src/client/src/pages/PredictPage.js:516-565 | missing or empty input gives the empty table; a table never has more than one row, and only the empty table has none |
| PredictPage.TableReadsLastStatsRow | src/client/src/pages/PredictPage.js:522-540 | for a `stats.csv` as the classifier writes it, the table shows and counts exactly its last, cumulative row |
| PredictPage.FlowCountsAgreeWithTable | src/client/src/pages/PredictPage.js:715-719 | the online view and the offline table read the same counts from the same text |
| PredictPage.ZeroStatsLineText | src/client/src/pages/PredictPage.js:716 | the line read when there is none is `0,0,0` |
| PredictPage.FlowCountsWithoutLines | src/client/src/pages/PredictPage.js:716-719 | without a stats line the online view counts nothing |
| PredictPage.LedgerCount | src/client/src/pages/PredictPage.js:795-804 | counting a prediction not loaded before keeps every id loaded once and counted once, and adds its counts to the sums |
| PredictPage.TagRows | src/client/src/pages/PredictPage.js:770-775 | one row per built row, each tagged with the prediction |
| PredictPage.UpdatedConsistent | src/client/src/pages/PredictPage.js:787-806 | taking in a prediction not loaded before keeps the totals equal to the sums of distinct predictions' counts |
| PredictPage.UpdatedThenSkipped | src/client/src/pages/PredictPage.js:708-710 | once a prediction is taken in, appending it again is skipped |
| PredictPage.UpdatedExtends | src/client/src/pages/PredictPage.js:788-804 | an update only extends the attack rows, with the prediction's own rows, and the loaded ids, with its id |
| PredictPage.UpdatedTotals | src/client/src/pages/PredictPage.js:792-803 | when both the id and the trimmed stats text differ from the last shown ones, the totals grow by the prediction's counts and it becomes the one shown; otherwise the totals and the shown stats are unchanged |
| PredictPage.OnlineResults.constructor | src/client/src/pages/PredictPage.js:68-82 | the page starts with zero totals, no stats, no rows and nothing loaded or shown |
| PredictPage.OnlineResults.OnlineStarted | src/client/src/pages/PredictPage.js:1039-1048 | starting online prediction clears the totals and the attack rows and keeps the loaded ids |
| PredictPage.OnlineResults.AppendAttackRows | src/client/src/pages/PredictPage.js:707-810 | a missing or already loaded id, or a failed stats request, changes nothing; otherwise the state is updated from the stats' counts and trimmed text, and the totals stay the sums of distinct predictions' counts |
| PredictPage.Filled | src/client/src/pages/PredictPage.js:1111 | exactly the non-empty parts are kept |
| PredictPage.Segments | src/client/src/pages/PredictPage.js:1111 | the segments are non-empty and contain no slash |
| PredictPage.RelPathUnderBase | src/client/src/pages/PredictPage.js:1108 | a path under the base is shown as what follows it without one leading slash, or `.` |
| PredictPage.RelPathFromSrc | src/client/src/pages/PredictPage.js:1109-1110 | elsewhere a path containing `/src/` is shown as a tail of it that starts with `src/` |
| PredictPage.RelPathLastSegments | src/client/src/pages/PredictPage.js:1111-1113 | any other path shows all its segments when at most four, else `…/` and the last four |
| PredictPage.Increment | src/client/src/pages/PredictPage.js:1218 | an address already counted has its count raised by one, in place |
| PredictPage.Bump | src/client/src/pages/PredictPage.js:1218 | a new address is appended with count 1; a known one is incremented |
| PredictPage.CountsStep | src/client/src/pages/PredictPage.js:1196-1225 | one more row keeps the count object exact: one entry per counted address, holding how many rows carry it |
| PredictPage.TallyCounts | src/client/src/pages/PredictPage.js:1185-1225 | after the rows, the count object has exactly one entry per valid address, holding its number of rows |
| PredictPage.TopTenBest | src/client/src/pages/PredictPage.js:1234-1237 | at most ten entries, in decreasing count, all from the count object; every entry left out counts no more than any kept |
| PredictPage.TallyNonEmpty | src/client/src/pages/PredictPage.js:1240 | a side is counted exactly when some row has a valid address on it |
| PredictPage.TopKeepsCounts | src/client/src/pages/PredictPage.js:1234-1237 | each shown entry holds the number of rows that carry its address |
| PredictPage.TopLeavesOutFewer | src/client/src/pages/PredictPage.js:1234-1237 | an address left out leaves ten shown, each carried by at least as many rows |
| PredictPage.TopSourcesBest | src/client/src/pages/PredictPage.js:1234-1249 | source addresses when any row has one, else destinations; top ten by count with exact counts; empty only when no row has a valid address |
| PredictPage.AnalyzeTopSources | src/client/src/pages/PredictPage.js:1181-1253 | nothing for no malicious flows; otherwise the one-pass counting loop yields `TopSources` |
| PredictPage.Listing | src/client/src/pages/PredictPage.js:1430 | each listed item is read as a file, a bare name as a sample |
| PredictPage.Get | src/client/src/pages/PredictPage.js:1431 | the stored file of that name, none exactly when the name is absent |
| PredictPage.Put | src/client/src/pages/PredictPage.js:1433 | a present name keeps its place and takes the new file; a new name goes last |
| PredictPage.ByNamePicks | src/client/src/pages/PredictPage.js:1428-1435 | one file per listed name, each from the listing, and a user's file for every name that has one |
| PredictPage.PcapOptionsOrder | src/client/src/pages/PredictPage.js:1436-1442 | the options are the map's files, users' first, each group in name order ignoring case |
| PredictPage.PcapOptionsCover | src/client/src/pages/PredictPage.js:1427-1442 | every listed name has an option, a user's file where one exists; every option is a listed file; a non-array listing shows nothing |
| PredictPage.FillByName | src/client/src/pages/PredictPage.js:1428-1435 | the loop over the listing builds `ByName` |
| PredictPage.GroupByKind | src/client/src/pages/PredictPage.js:1436-1440 | the loop splits the map into its users' and other files, in map order |
| PredictPage.BuildPcapOptions | src/client/src/pages/PredictPage.js:1427-1442 | the page's loops and sorts compute `PcapOptions` |
| Sorting.Sort | src/client/src/pages/PredictPage.js:1441-1442 | the result is sorted by the comparator and is a permutation of the input |
| Mitigation.CommandPreview | src/client/src/utils/mitigation.js:471-495 | an unknown action previews nothing |
| Mitigation.IpBlockLines | src/client/src/utils/mitigation.js:474-477 | an address block is exactly two lines: INPUT from the address, OUTPUT to it, both DROP |
| Mitigation.RateLimitLines | src/client/src/utils/mitigation.js:488-489 | the rate limit is the ACCEPT rule with `5/sec` and burst `10` by default, followed by the DROP rule |
| Mitigation.HandleAction | src/client/src/utils/mitigation.js:498-594 | an unknown key is exactly the `not recognized` case; shown commands carry the action's iptables preview |
| Mitigation.ShownIffGuard | src/client/src/utils/mitigation.js:501-590 | commands are shown exactly when the target address is valid and the port is set where needed; only `send-nats` with a record opens the NATS settings |
| Mitigation.ShownBlockIsValid | src/client/src/utils/mitigation.js:484-487 | a shown block is the two-line block of a valid address, for a dropped session the destination when set and otherwise the source; the title names that same address |
| Mitigation.ValidIpTrimmed | src/client/src/utils/mitigation.js:82-83 | trimming leaves a valid address unchanged |
| Mitigation.Add | src/client/src/utils/mitigation.js:82-84 | a known element is not added again; a new one is appended |
| Mitigation.CollectTargets | src/client/src/utils/mitigation.js:77-85 | the loop over the rows computes `Collect` |
| Mitigation.CollectDistinct | src/client/src/utils/mitigation.js:77-85 | the collected addresses are exactly the valid ones of that side, each once |
| Mitigation.BulkPreviewLines | src/client/src/utils/mitigation.js:143-146 | the bulk preview splits into two rules per address with a blank line between addresses |
| Mitigation.ProperEntity | src/client/src/utils/mitigation.js:70 | the label is never empty |
| Mitigation.NounPlural | src/client/src/utils/mitigation.js:71 | for any count but one the noun ends in `s` and is the singular with `s` added |
| Mitigation.HandleBulk | src/client/src/utils/mitigation.js:68-164 | the bulk dispatcher with its collecting loop computes `BulkResult` |
| Mitigation.BulkBlockPreview | src/client/src/utils/mitigation.js:72-148 | no rows means nothing to do; otherwise one two-line block per distinct valid address of the side |
| Isim.DecodeEncode | src/server/routes/isim.js:73 | percent-decoding an encoded component gives it back |
| Isim.EncodeUnreserved | src/server/routes/isim.js:73 | text made only of unreserved characters, such as a dotted IPv4 address, is left unchanged by encoding |
| Isim.AssetInfoUrlIp | src/server/routes/isim.js:70-74 | the URL starts with the limit and offset, 50 and 0 when not given. It goes on with `&ip=` exactly for a non-empty address, and the rest decodes back to that address |
| Isim.AssetInfoReply | src/server/routes/isim.js:84-98 | an OK answer is passed on unchanged; a non-OK status is passed through; a thrown request is 500 |
| Isim.CriticalUrl | src/server/routes/isim.js:108-113 | the upstream query is `limit` alone: the given text, or one that reads as 1000 |
| Isim.CriticalOnly | src/server/routes/isim.js:126 | the filter keeps no more assets than it was given |
| Isim.CriticalOnlyKeeps | src/server/routes/isim.js:126 | exactly the critical assets are kept, each as often as it occurs |
| Isim.CriticalReply | src/server/routes/isim.js:118-132 | the critical count is the number listed and never exceeds the total |
| Isim.CriticalReplyLists | src/server/routes/isim.js:126-132 | a successful answer reports every asset in its total and lists exactly the critical ones |
| Isim.AssetUrl | src/server/routes/isim.js:153 | the upstream query is the address alone: one encoded component with no `&`, which decodes back to the address |
| Isim.AssetReply | src/server/routes/isim.js:158-174 | an OK answer with assets gives the first one; an OK answer without any gives 404 naming the address |
| Isim.EnrichUrl | src/server/routes/isim.js:207 | the upstream query asks for one batch whose `limit` reads as 10000 |
| Isim.AssetMap | src/server/routes/isim.js:222-225 | each address maps to an asset with that address |
| Isim.BuildAssetMap | src/server/routes/isim.js:222-225 | the `forEach` computes `AssetMap` |
| Isim.AssetMapLastWins | src/server/routes/isim.js:222-225 | an address is mapped exactly when some asset has it, and to the last such asset |
| Isim.EnrichAddresses | src/server/routes/isim.js:228-231 | the `forEach` computes the enriched object |
| Isim.EnrichedKeys | src/server/routes/isim.js:228-231 | the keys are the requested addresses, each mapped as the lookup object says |
| Isim.PostEnrich | src/server/routes/isim.js:192-237 | the route with its two passes computes `EnrichReply` |
| Isim.EnrichJoins | src/server/routes/isim.js:196-237 | no `ips` array gives 400. The keys are exactly the requested addresses; each maps to an asset with that address when ISIM has one, else to null. `total` counts the request with duplicates; `found` counts the distinct requested addresses that have an asset |

## Left out

- The `bull` library and Redis: dequeuing by priority, retries and backoff, worker pools, stalled jobs, events and the ping race. The broker is a table of jobs, and no claim is made that jobs are dequeued by priority.
- Timers (`setTimeout`, `setInterval`, the 6-hourly cleanup, `AbortController` timeouts). They become events and numbers of polls; the auto-cleanup schedule and the ISIM timeouts are not modelled.
- Spawning processes, reading and writing files, and directory listing order. They are I/O; their outcomes are parameters.
- The MMT connector (`startMMTOnline`, `stopMMT`, `startMMTOffline`, `getMMTStatus`). These are foreign calls; what they call back with is a parameter.
- `sessionManager` is not part of this model. It is an abstract table from id to session, and its legacy status is the last created session. The session that `createSession` returns is assumed to be updated in place by `completeSession`. `startPredicting` stores `{ config: predictConfig }` as the session's options; the model takes the session's `config` to be that `predictConfig` itself, the nesting being the session manager's.
- Connector.DeepLearningConnector.StartPredicting: the `pcap` case is modelled as the source has it, with no answer at all.
- Connector.DeepLearningConnector.RetrainModel: the write of the retrain configuration and the copy of the datasets are not modelled. They are file I/O whose callbacks can fail independently.
- Connector.DeepLearningConnector.StartBuildingModel: the write of the build configuration is one parameter, `writeOk`.
- TensorFlow `load_model`/`predict` and `eventsToFeatures` are foreign numeric code. Verdicts and feature rows are inputs; features are reals. The model is taken to return one verdict per feature row, including zero verdicts for zero rows.
- Classifier.Merge: pandas' inner merge is taken to list the result in the order of the left frame, each flow followed by its matches in feature-frame order; the key columns' own dtypes and pandas' sort option are not modelled.
- JavaScript floating point in `estimateWaitTime` is computed over exact reals.
- `localeCompare` is taken as code-unit order of the lower-cased names. `toLowerCase` is modelled only for ASCII letters.
- `encodeURIComponent` is modelled on ASCII text. Non-ASCII characters would need UTF-8.
- The key order of the `enriched` object is not modelled; it is a map.
- `computeFlowDetails` and `buildAttackTable` are not part of this model. Their results are inputs, and so are the source and destination addresses that `analyzeTopSources` reads from each flow's `ip.pkts_per_flow` cell with a regular expression.
- React rendering, antd notifications and modals, menus and the donut and percentage figures of the prediction page: UI and floating point.
- The `fetch` helpers of the mitigation module (`blockIp`, `blockPort`, `blockIpPort`, `dropSession`, `rateLimitIp`, `sendToNats`), the NATS settings modal and the bulk NATS publish. They are network and UI code; the model stops at the decision to open the settings.
- The ISIM `/status` route, which is only a network round trip.
- The redux-saga `requestPredictSaga`, which has no logic of its own.
- The pass-through routes `GET /predict`, `POST /predict`, `/predict/stop`, `/predict/job/:jobId`, `/predict/online/stop` and the `/prediction` listing. They forward to the modelled functions or to file listings.
- PredictPage.OnlineResults.AppendAttackRows: the two requests run one after the other, and state updates from other handlers between them are not modelled. The filtering of attack-table columns is not modelled. `pollOnlineResults` (src/client/src/pages/PredictPage.js:939-945) also sets `aggregateNormal` and `aggregateMalicious` from the last `stats.csv` row, overwriting the deduplicated sums; that poll is not modelled, so the totals invariant holds only between such polls.
- Isim.AssetReply: the upstream body is either an array of assets or `None`, so a `null` body and a truthy body that is not an array are the same input. The source answers the first with 404 and the second with 200 and its `data[0]`; the model answers both with 404.
- JobQueue.ConfiguredWorkers: `parseInt` is called without a radix, so a `0x` or `0X` prefix is read as hexadecimal (`0x10` gives 16). The model reads decimal only, where `0x10` gives 0 and so the default.
- PredictRoutes.ShouldUseQueue: `useQueue` is a boolean or absent. A JSON `null`, which the source treats as a direct prediction, and a string such as `"false"`, which the source treats as using the queue, are not modelled.
- Messages of thrown `TypeError`s, for example a body that is not an array, are not modelled; they are reported as a 500 without a message.
- `isRedisAvailable()` (src/server/queue/job-queue.js:581) has no member of its own. It returns `REDIS_AVAILABLE`, which is the broker's `redisAvailable` field, and the contracts of `OnError`, `OnReady` and `TestConnection` state that field.
- Sorting.Sort: the stability of `Array.prototype.sort` is not stated. Names that the case-insensitive comparator cannot tell apart are sorted, but their relative order is not promised. For the same reason `PredictPage.TopTen` does not say which of several addresses tied at the tenth count is shown.
- Mitigation.JsValue has no `null`. `computeFlowDetails` can return `null` for a missing value; the guards treat it as they treat `undefined`, and only the text a preview would print for it (`null` instead of `undefined`) differs.
- The queue submission functions other than prediction share `Broker.Add`. Their own job names and timeouts are bull options, which are not modelled.
