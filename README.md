# Print kiosk backend — a Dafny model

This project models the backend of a self-service print kiosk:

- A customer enters a code. The kiosk asks the remote service for the job, downloads the document and submits it to CUPS with `lp`.
- It follows the CUPS job until it completes, fails or times out.
- It announces every stage on a websocket and reports the outcome to the service.
- Reports that did not get through go to an outbox that is retried later.
- The kiosk checks its own health (internet, USB printer) and declares itself out of service when the service or the printer fails. A poller then probes the service until it recovers.

Every outside answer is an input of the model:

- subprocesses: `ProcOutput`;
- HTTP exchanges: `HttpReply`, `PostReply`;
- clock readings and listening ports: plain values;
- how a write of the outbox file ends: `Outbox.SaveOutcome` (written, failed to open, failed after the file was truncated).

Every infinite loop is modelled as a method over a finite run of such answers. Each method that changes state is proved against a pure function of its inputs: `Monitor.RunEffects`, `Recovery.PollEffects`, `HealthWatcher.Transitions`, `Outbox.SentList`/`RemoveEach` and `Printer.LpCommand`. The properties of the job's life are lemmas about those functions.

Modules:

| file | module | source |
|---|---|---|
| common.dfy | Common | shared values: JSON scalars, events, effects, payloads, process and HTTP answers |
| text.dfy | Text | the `str` methods the code relies on: `strip`, `split`, `split()`, `splitlines`, `lower`, `replace`, `in` |
| state.dfy | State | app/state.py |
| ws.dfy | Ws | app/ws.py |
| health.dfy | Health | app/health.py |
| diagnostics.dfy | Diagnostics | app/diagnostics.py |
| health_watcher.dfy | HealthWatcher | app/health_watcher.py |
| outbox.dfy | Outbox | app/notification_queue.py |
| server_api.dfy | ServerApi | app/server_api.py |
| recovery.dfy | Recovery | app/recovery_poller.py |
| printer.dfy | Printer | app/printer.py: get_default_printer, build_lp_command, print_document, delete_temp_file |
| notify.dfy | Notify | app/printer.py: notify_server_success, notify_server_failed |
| monitor.dfy | Monitor | app/printer.py: monitor_job |
| app.dfy | App | app/main.py: start_print, owner_health, websocket_endpoint |

## Where the code differs from its description

The model follows the code in each of these places:

- `WSManager.disconnect` is not idempotent. A socket that is no longer registered makes `list.remove` raise `ValueError` (`Ws.DisconnectTwice`).
- The health watcher does not consult the "handling print error" flag. Its `broadcast` coroutine is created and never awaited, so its events reach no client. The model keeps them in `HealthWatcher.Watcher.unawaited`.
- In monitor_job, the job may leave the queue while the printer is unplugged and the job has a code. The misspelt `run_until_completed` then raises `AttributeError` right after the PRINT_FAILED broadcast. The pass's handler swallows it and the loop goes on, so PRINT_FAILED is broadcast again on every pass until the timeout (`Monitor.UnpluggedPrinterRepeatsFailure`).
- In monitor_job, the `elapsed < 0` branch is reachable only when the wall clock steps back. It reports "Job failed immediately" and clears the flag without leaving the loop.
- A job for which `lp` printed no id is queried with `None` (`TypeError`) on every pass. It can only end through the timeout branch.
- `notify_server_failed` does not queue the report when the POST raises; `notify_server_success` does.
- process_queue removes delivered records by value. `list.remove` takes the first equal record, not the one that was delivered, so with two equal records the survivors can come out reordered (`Outbox.DuplicatesReorder`). The multiset of survivors is still right (`Outbox.PassOutcome`).
- In process_queue, a record acknowledged on the attempt that reaches the limit of ten is appended to `sent` twice. Its second `remove` raises `ValueError`, and the queue is then not saved.
- start_print asks the recovery poller for an interval of 300 seconds.
- print_document raises `PRINTER_OFFlINE` (spelt so) inside its own `try`. The generic handler wraps it again as `PRINT_ERROR: PRINTER_OFFlINE` and deletes the file a second time. In the same way, a non-zero exit of `lp` becomes `PRINT_ERROR: PRINT_FAILED: …`.
- `save_queue` opens the file for writing, which empties it, before it writes. A write that fails after the open leaves an empty or partial file, and the next `load_queue` starts from an empty queue (`Outbox.LoadAfterSave`).
- The handler at app/printer.py:305-312 cannot be reached: every statement of the loop body that can raise is inside the inner `try`.
- fetch_print_job always returns an empty orientation, so the landscape option is never emitted for a kiosk job. start_print reads the service's job id from the `jobId2` key that fetch_print_job fills in.

## Model

| member | source | states |
|---|---|---|
| State.KioskState.constructor | app/state.py:2-3 | the flag starts cleared |
| State.KioskState.SetHandlingPrintError | app/state.py:5-7 | the flag holds the value given |
| State.KioskState.IsHandlingPrintError | app/state.py:9-11 | the getter returns the flag and changes nothing |
| State.SetThenGet | app/state.py:5-11 | after two sets the getter returns the latest value |
| Ws.WSManager.constructor | app/ws.py:5-6 | the registry starts empty |
| Ws.WSManager.Connect | app/ws.py:8-10 | the socket is appended exactly when the handshake succeeds; duplicates are kept |
| Ws.WSManager.Disconnect | app/ws.py:12-13 | succeeds exactly when the socket is registered; removes its first copy only, one element fewer as a multiset; otherwise nothing changes |
| Ws.WSManager.Broadcast | app/ws.py:15-20 | one send per registered client, in list order; exactly the dead clients fail; the list is unchanged |
| Ws.DisconnectTwice | app/ws.py:12-13 | a second disconnect of a socket registered once fails |
| App.WebsocketSession | app/main.py:137-145 | a session leaves the registry as it found it, as a multiset |
| Health.ScanFindsVendorAnywhere | app/health.py:19-29 | the line-by-line vendor scan succeeds exactly when the whole output contains a vendor pattern |
| Health.PrinterConnected | app/health.py:19-29 | transcribes printer_connected: exit 0 and a line of lsusb naming a printer vendor; its meaning is given by Health.PrinterConnectedIff and Health.ScanFindsVendorAnywhere |
| Health.PrinterConnectedIff | app/health.py:6-29 | printer_connected is true exactly when lsusb exits 0 and its output contains "ID 03f0:", "ID 04a9:" or "ID 04f9:" |
| Health.EmptyOutputNoPrinter | app/health.py:19-29 | empty lsusb output never reports a printer |
| Health.NoVendorsNoMatch | app/health.py:22-26 | with no vendor ids no line matches |
| Health.InternetOk | app/health.py:12-17 | only an HTTP answer with a 2xx status counts as reachable |
| Health.SystemHealthy | app/health.py:32-33 | healthy exactly when both probes pass; lsusb runs only after the internet probe passed |
| Diagnostics.CheckInternet | app/diagnostics.py:12-17 | true exactly for a 2xx answer |
| Diagnostics.CheckPort | app/diagnostics.py:20-33 | true exactly when the port is listening |
| Diagnostics.CheckBackend | app/diagnostics.py:20-25 | true exactly when port 8000 is listening |
| Diagnostics.CheckFrontend | app/diagnostics.py:28-33 | true exactly when port 5173 is listening |
| Diagnostics.CheckPrinter | app/diagnostics.py:36-45 | agrees with printer_connected on every lsusb answer |
| Diagnostics.RunDiagnostics | app/diagnostics.py:61-67 | each field of the report is its own probe's answer |
| Diagnostics.ReportAgreesWithHealth | app/diagnostics.py:61-67 | the report's internet and printer fields are both up exactly when system_healthy is true |
| App.OwnerStatus | app/main.py:55-61 | "OK" exactly when all four checks pass, "FAIL" otherwise |
| App.OwnerOkMeansHealthy | app/main.py:55-61 | an owner status of OK implies the health check reports healthy |
| HealthWatcher.EventFor | app/health_watcher.py:14-19 | HEALTHY exactly for a healthy answer, OUT_OF_SERVICE otherwise |
| HealthWatcher.Transitions | app/health_watcher.py:11-20 | at most one event per health answer |
| HealthWatcher.TransitionsShape | app/health_watcher.py:11-20 | only HEALTHY and OUT_OF_SERVICE, never the same event twice in a row, never a repeat of the remembered state; the last event matches the last answer; no events exactly when every answer equals the remembered one |
| HealthWatcher.TransitionsStep | app/health_watcher.py:11-20 | the events of a run are those of its first check followed by those of the rest |
| HealthWatcher.FirstCheckAnnounces | app/health_watcher.py:8-20 | the first check always requests the event for its answer |
| HealthWatcher.Answers | app/health_watcher.py:10-11 | one health answer per pair of probe results |
| HealthWatcher.Watcher.constructor | app/health_watcher.py:8 | nothing remembered, nothing requested |
| HealthWatcher.Watcher.Check | app/health_watcher.py:11-20 | remembers the new answer; requests an event exactly when the answer changed |
| HealthWatcher.Watcher.Watch | app/health_watcher.py:7-22 | the requests of a run are exactly Transitions of its answers; the last answer is remembered |
| Outbox.LoadQueue | app/notification_queue.py:15-24 | the stored list when the file exists and parses, [] otherwise |
| Outbox.Bump | app/notification_queue.py:54-55 | every record's attempts grow by one and nothing else changes |
| Outbox.BumpDistinct | app/notification_queue.py:54-55 | counting an attempt keeps distinct records distinct |
| Outbox.SentList | app/notification_queue.py:54-76 | only records of the queue are marked sent |
| Outbox.SentListSnoc | app/notification_queue.py:54-76 | the sent list grows record by record, as the counting loop builds it |
| Outbox.RemoveEach | app/notification_queue.py:79-80 | transcribes the removal loop, stopping at the first `remove` that raises; Outbox.RemoveHeldRecords, Outbox.OutnumberedRemovalFails and Outbox.PassOutcome give its meaning |
| Outbox.Survivors | app/notification_queue.py:64-76 | the records the pass is meant to keep, neither acknowledged nor at the limit, in queue order; the reference Outbox.PassOutcome compares the removal loop against |
| Outbox.RemoveEachSkipsHead | app/notification_queue.py:79-80 | removals of other records leave the head in place |
| Outbox.RemovalKeepsSurvivors | app/notification_queue.py:54-80 | for a queue of pairwise distinct records: without an ack at the limit, every removal succeeds and leaves exactly the survivors, in order |
| Outbox.AckAtLimitRaises | app/notification_queue.py:64-80 | for any queue, duplicates included, an ack on the tenth attempt makes a removal fail |
| Outbox.OutnumberedRemovalFails | app/notification_queue.py:79-80 | removing a record more often than the queue holds it makes some `remove` raise |
| Outbox.SentCoversLimit | app/notification_queue.py:64-76 | every copy of a record at the limit is appended to `sent` at least once |
| Outbox.SentOutnumbers | app/notification_queue.py:64-76 | a record acked at the limit is in `sent` more often than in the queue |
| Outbox.RemoveHeldRecords | app/notification_queue.py:79-80 | removing records the queue holds, no more often than it holds them, succeeds and takes exactly them off |
| Outbox.SentOrSurvives | app/notification_queue.py:54-76 | without an ack at the limit, the sent records and the survivors together are the queue, as multisets |
| Outbox.SurvivorsIff | app/notification_queue.py:64-76 | for a queue of pairwise distinct records: a record survives exactly when it was not acknowledged and is below ten attempts |
| Outbox.SurvivorsFromQueue | app/notification_queue.py:54-80 | survivors are records of the queue |
| Outbox.PassOutcome | app/notification_queue.py:46-83 | for any queue, a pass completes exactly when no record is acked at the limit, and then keeps the bumped unacked records below the limit as a multiset; in their original order when the records are pairwise distinct |
| Outbox.DuplicatesReorder | app/notification_queue.py:79-80 | with two equal records of which only the later is acked, the pass keeps the later copy behind the record between them, out of the survivors' order |
| Outbox.NotificationQueue.constructor | app/notification_queue.py:11-24 | starts from what the file holds |
| Outbox.NotificationQueue.Save | app/notification_queue.py:26-32 | the file becomes AfterSave of the queue: it holds the queue after a successful write, is untouched when the open fails, and is unreadable when the write fails after truncation |
| Outbox.AfterSave | app/notification_queue.py:26-32 | the file after one save_queue call, for each way it can end; Outbox.LoadAfterSave and Outbox.SaveTwice give its meaning |
| Outbox.LoadAfterSave | app/notification_queue.py:15-32 | loading after a save gives back the queue when the write succeeded, the earlier contents when the open failed, and an empty queue when the write failed |
| Outbox.SaveTwice | app/notification_queue.py:26-32 | a second save with the same outcome overrides the first |
| Outbox.NotificationQueue.Add | app/notification_queue.py:34-44 | appends one fresh record with zero attempts, then saves it with the given outcome |
| Outbox.NotificationQueue.CountAttempts | app/notification_queue.py:54-76 | the queue is bumped and `sent` is SentList of the bumped queue |
| Outbox.NotificationQueue.RemoveSent | app/notification_queue.py:79-80 | the queue and the outcome are those of RemoveEach |
| Outbox.NotificationQueue.ProcessQueue | app/notification_queue.py:46-83 | an empty queue is left alone; otherwise the pass raises exactly on an ack at the limit, and when it does not, the queue is the survivors and is saved with the given outcome |
| ServerApi.KioskId | app/server_api.py:6 | the environment value, "UNKNOWN" when unset |
| ServerApi.FetchRequests | app/server_api.py:14-35 | the POST to the process-code URL comes first with the code and kiosk id; the file URL is requested only after a 200 answer carrying a file id |
| ServerApi.FetchRequestsAgree | app/server_api.py:14-43 | a success or a failed download went through both requests, the second for the answer's file id; every other outcome made only the POST |
| ServerApi.FetchPrintJob | app/server_api.py:14-43 | each error holds exactly under its own condition (transport failure, 404/400, other non-200 status, failed download); success carries the stored path and the job's fields |
| Recovery.HealthUrl | app/recovery_poller.py:16 | transcribes `server_url.replace('/kiosk', '/health')`; Recovery.HealthUrlOfServer gives its value for the configured URL |
| Recovery.PollEffects | app/recovery_poller.py:22-47 | transcribes the polling loop over a run of probe answers; Recovery.PollEffectsShape, Recovery.ProbesMade and Recovery.PollRound give its meaning, and Recovery.RecoveryPoller.Poll is proved equal to it |
| Recovery.HealthUrlOfServer | app/recovery_poller.py:16 | the service URL's health endpoint is the API root followed by "/health" |
| Recovery.KioskOnlyAtEnd | app/server_api.py:5 | "/kiosk" occurs in the service URL only at its end |
| Recovery.ReplaceSkipsPrefix | app/recovery_poller.py:16 | replace() copies text before any match unchanged |
| Recovery.CheckServerHealth | app/recovery_poller.py:10-20 | healthy exactly for status 200; a transport error is unhealthy |
| Recovery.PollEffectsShape | app/recovery_poller.py:22-47 | HEALTHY is broadcast at most once, as the last effect, exactly when some probe answered 200; every probe follows a sleep of the interval |
| Recovery.ProbesMade | app/recovery_poller.py:22-47 | the poller probes up to and including the first 200 |
| Recovery.PollRound | app/recovery_poller.py:28-43 | one round is a sleep, a probe, then either HEALTHY or the remaining rounds |
| Recovery.RecoveryPoller.constructor | app/recovery_poller.py:7-8 | not out of service, no task |
| Recovery.RecoveryPoller.StartRecoveryPolling | app/recovery_poller.py:49-60 | while already polling nothing changes; otherwise sets the flag and creates exactly one task |
| Recovery.RecoveryPoller.IsInRecoveryMode | app/recovery_poller.py:62-64 | returns the flag |
| Recovery.RecoveryPoller.Poll | app/recovery_poller.py:22-47 | the poller does what PollEffects says; the flag stays set exactly when no probe answered 200 |
| Recovery.RecoveryPoller.Round | app/recovery_poller.py:28-43 | one round clears the flag exactly on a 200 and logs what PollEffects prescribes |
| Printer.DefaultPrinter | app/printer.py:15-50 | transcribes get_default_printer over the two lpstat answers; Printer.DefaultPrinterErrors, Printer.DefaultFromLpstatD and Printer.DefaultFromLpstatP give its meaning |
| Printer.DefaultPrinterErrors | app/printer.py:15-50 | every failure is PRINTER_CHECK_TIMEOUT or carries the PRINTER_ERROR prefix |
| Printer.DefaultFromLpstatD | app/printer.py:17-28 | a default named by `lpstat -d` is the stripped text after the last ':', and `lpstat -p` is not consulted |
| Printer.DefaultFromLpstatP | app/printer.py:29-50 | otherwise the printer is the second word of the first `lpstat -p` line; too few words or no "printer" give their error messages |
| Printer.LpArgs | app/printer.py:52-108 | the options of build_lp_command as flag and value pairs, in the order the code appends them; the Printer.*Iff lemmas give each option's meaning |
| Printer.LpCommand | app/printer.py:52-108 | the whole lp command; Printer.LpCommandFlattens ties it to LpArgs, Printer.LpCommandFrame gives its frame, and Printer.BuildLpCommand is proved equal to it |
| Printer.LpCommandFlattens | app/printer.py:52-108 | the command is `lp -d <printer>`, the options word by word, then the file; it fails exactly when the options fail |
| Printer.BuildLpCommand | app/printer.py:52-108 | the command built step by step equals LpCommand |
| Printer.LpCommandFrame | app/printer.py:52-108 | the command starts with `lp -d <printer>` and ends with the file; building fails only for copies that are None or a string |
| Printer.SidesExactlyOnce | app/printer.py:74-79 | exactly one sides= option, whatever the options |
| Printer.OneSidedIff | app/printer.py:74-79 | one-sided exactly for a falsy duplex value; a missing duplex prints two-sided |
| Printer.CopiesFlagIff | app/printer.py:81-84 | `-n` exactly for integer copies above one, carrying their decimal text |
| Printer.PageRangeIff | app/printer.py:86-88 | `-P` exactly when a page range is given, carrying it |
| Printer.ColorModelIff | app/printer.py:68-72 | Gray exactly for "monochrome", RGB exactly for "color" |
| Printer.LandscapeIff | app/printer.py:90-92 | landscape exactly for orientation "landscape" |
| Printer.MediaIff | app/printer.py:94-96 | media=m exactly when the media option is m |
| Printer.QualityIff | app/printer.py:98-103 | print-quality 3 exactly for "draft", 5 exactly for "high" |
| Printer.LpJobId | app/printer.py:150-152 | None exactly when "request id is" is absent; otherwise a non-empty word without spaces, or the IndexError |
| Printer.LpJobIdReadsWord | app/printer.py:150-152 | for any output where the first "request id is" is followed by whitespace and a word, the id is exactly that word |
| Printer.LpJobIdNoWord | app/printer.py:150-152 | the marker followed by nothing but whitespace gives the IndexError |
| Printer.TempFile.constructor | app/printer.py:369-378 | no delete calls yet; present when the path is non-empty |
| Printer.TempFile.Delete | app/printer.py:369-378 | counts the call; the file is gone afterwards and removed at most once |
| Printer.PrintDocument | app/printer.py:110-174 | the outcome is PrintOutcome; on every error the file is gone; on success it is untouched |
| Printer.PrintOutcome | app/printer.py:110-174 | transcribes print_document's result over its subprocess answers; Printer.PrintErrors and Printer.PrintSuccess give its meaning, and Printer.PrintDocument is proved equal to it |
| Printer.PrintDeletes | app/printer.py:110-174 | how many times print_document deletes the file; Printer.PrintErrors states it per outcome |
| Printer.PrintErrors | app/printer.py:110-174 | every failure is PRINT_TIMEOUT or PRINT_ERROR-prefixed, after one delete call, or two when the printer is absent |
| Printer.PrintSuccess | app/printer.py:124-162 | a success ran lp with exit 0 on the command built for the chosen printer, and its job id is the one lp printed |
| Notify.ValueText | app/printer.py:321 | str() of the job id: a string as is, None as "None", booleans as "True"/"False", an integer as decimal digits that read back as its magnitude, after a '-' when negative |
| Text.IntToString | app/printer.py:84 | str() of an int: digits that read back as the number, a leading '-' exactly for a negative one, and no leading zero |
| Text.NatToStringValue | app/printer.py:84 | the decimal text of n reads back as n and has no leading zero |
| Notify.StatusUrl | app/printer.py:321 | `<SERVER_URL>/<KIOSK_ID>/job/<job id>/status`; Notify.StatusUrlShape and Notify.ReportsShareUrl give its meaning |
| Notify.SuccessPayload | app/printer.py:322-328 | the success report's body, status "completed"; Notify.SuccessNeverLost and Monitor.EndingReport use it |
| Notify.FailurePayload | app/printer.py:348-354 | the failure report's body, status "failed" and the reason after "Print failed: "; Monitor.EndingReport and Monitor.VanishedErrorReportsTwice use it |
| Notify.SuccessBacklog | app/printer.py:329-340 | what notify_server_success hands to the outbox: one record for a non-200 answer or a raised POST, none for a 200; Notify.SuccessNeverLost gives its meaning |
| Notify.FailureBacklog | app/printer.py:355-367 | what notify_server_failed hands to the outbox: one record for a non-200 answer, none for a 200 or a raised POST; Notify.FailureLostOnlyOnTransportError gives its meaning |
| Notify.StatusUrlShape | app/printer.py:316-321 | the status URL starts with the kiosk's job URL and ends in "/status" |
| Notify.SuccessNeverLost | app/printer.py:316-340 | a success report is either acknowledged with a 200 or queued fresh under the status URL |
| Notify.FailureLostOnlyOnTransportError | app/printer.py:342-367 | a failure report is dropped exactly when the POST raised |
| Notify.ReportsShareUrl | app/printer.py:316-367 | whatever the replies under which both reports are queued, they go to the same URL and differ in their status |
| Notify.NotifySuccess | app/printer.py:316-340 | the outbox gains SuccessBacklog and is written through AfterSave exactly when it gained a record |
| Notify.NotifyFailed | app/printer.py:342-367 | the outbox gains FailureBacklog and is written through AfterSave exactly when it gained a record |
| Monitor.Classify | app/printer.py:181-303 | which branch one pass of monitor_job takes, from its observation; the Monitor lemmas below are stated through it |
| Monitor.StepEffects | app/printer.py:181-303 | the effects of each branch, in the code's order; Monitor.EndingReport, Monitor.UnpluggedPass and Monitor.QueuedJobWaits give its meaning |
| Monitor.TickEffects | app/printer.py:181-303 | the effects of one pass; Monitor.JobMonitor.Tick is proved to perform them |
| Monitor.TickBacklog | app/printer.py:181-303 | what one pass hands to the outbox, each report with its own timestamp; Monitor.NoCodeSilentPass and Monitor.JobMonitor.Tick give its meaning |
| Monitor.TickDisk | app/printer.py:181-303 | the outbox file after one pass: each queued report is followed by its own save_queue call with its own outcome; Monitor.QuietPassKeepsFile, Monitor.WrittenPassStoresQueue and Monitor.SecondSaveFailsKeepsFirstReport give its meaning |
| Monitor.QuietPassKeepsFile | app/printer.py:181-303 | a pass that queues nothing leaves the outbox file untouched |
| Monitor.WrittenPassStoresQueue | app/printer.py:181-303 | when every write of the pass succeeds, the file holds the whole queue after it |
| Monitor.SecondSaveFailsKeepsFirstReport | app/printer.py:223-296 | in the pass that reports twice, a successful first write followed by a failed open leaves the file with only the first report while the queue holds both |
| Monitor.RunEffects | app/printer.py:176-303 | the effects of the loop over a run of observations, up to the pass that ends it; Monitor.RunUnfold, Monitor.FlagHeldUntilEnd and Monitor.DeadlineForcesEnd give its meaning, and Monitor.JobMonitor.Loop is proved equal to it |
| Monitor.RunBacklog | app/printer.py:176-303 | what the loop hands to the outbox over the run; Monitor.NoCodeNoReports and Monitor.JobMonitor.Loop give its meaning |
| Monitor.RunUnfold | app/printer.py:181-303 | a run is its first pass followed, unless that pass ends the loop, by the rest |
| Monitor.PassKeepsFlag | app/printer.py:181-303 | with the clock going forward, a pass that does not end the loop never clears the flag |
| Monitor.EndingPassClearsLast | app/printer.py:187-296 | an ending pass clears the flag as its very last action, and only there |
| Monitor.FlagHeldUntilEnd | app/printer.py:176-315 | with the clock going forward, the flag is cleared exactly when the loop is left, as its last action |
| Monitor.DeadlineForcesEnd | app/printer.py:187-206 | no run outlives the first pass past the 300-second deadline |
| Monitor.NoCodeSilentPass | app/printer.py:187-296 | without a code a pass reports nothing and queues nothing |
| Monitor.NoCodeNoReports | app/printer.py:176-315 | a job without a code never reports and never queues |
| Monitor.UnpluggedPass | app/printer.py:260-303 | an unplugged-printer pass with a code broadcasts PRINT_FAILED, sleeps and goes on |
| Monitor.AlarmsCount | app/printer.py:260-303 | n alarm passes broadcast PRINT_FAILED n times |
| Monitor.UnpluggedPrinterRepeatsFailure | app/printer.py:176-315 | with a code and an unplugged printer the loop never ends or clears the flag, and repeats PRINT_FAILED every pass |
| Monitor.NoJobIdWaitsForTimeout | app/printer.py:176-303 | a job without an lp id only sleeps until the deadline |
| Monitor.QueuedJobWaits | app/printer.py:274-303 | a still-listed job only waits exactly when its status text has no error |
| Monitor.EndingReport | app/printer.py:187-296 | with the clock going forward, every ending pass with a code, except the printer-lost one, reports exactly once, "completed" exactly for a finished job |
| Monitor.VanishedErrorReportsTwice | app/printer.py:223-296 | a failed job query whose output holds an error, read while the clock stepped back, ends the loop after reporting twice: "Job failed immediately", then "Print error" |
| Monitor.JobMonitor.constructor | app/printer.py:176 | an empty log |
| Monitor.JobMonitor.FailAndSettle | app/printer.py:196-205 | PRINT_FAILED, the failure report when there is a code, 30 s cool-down, flag cleared |
| Monitor.JobMonitor.SucceedAndSettle | app/printer.py:248-259 | DONE, the success report when there is a code, 10 s cool-down, flag cleared |
| Monitor.JobMonitor.CheckErrorText | app/printer.py:275-296 | cancels and fails exactly when the status text mentions an error or an abort; otherwise sleeps |
| Monitor.JobMonitor.JobLeftQueue | app/printer.py:236-296 | the pass's effects, outbox growth, file and flag are those TickEffects, TickBacklog and TickDisk prescribe |
| Monitor.JobMonitor.VanishedEarly | app/printer.py:223-296 | the clock-stepped-back pass reports failure, clears the flag, then runs the error check; each report is queued with its own timestamp and saved with its own outcome, as TickDisk prescribes |
| Monitor.JobMonitor.Tick | app/printer.py:181-303 | one pass does what TickEffects, TickBacklog and TickDisk prescribe and ends exactly when Classify says |
| Monitor.JobMonitor.Advance | app/printer.py:181-303 | one pass, as the first pass of the remaining run |
| Monitor.JobMonitor.Loop | app/printer.py:181-303 | the loop does what RunEffects and RunBacklog prescribe and clears the flag exactly when Cleared says |
| Monitor.JobMonitor.Run | app/printer.py:176-315 | sets the flag, runs the loop, and deletes the file exactly once when the loop is left |
| App.PrintFlow | app/main.py:63-135 | transcribes start_print's answer, broadcasts, recovery request and monitor over its outside answers; App.PrintResponses, App.InvalidCodeOnlyFromService and App.StringCopiesOutOfService give its meaning, and App.Kiosk.StartPrint follows it |
| App.PrintResponses | app/main.py:63-135 | 200, 400, 503 or 500; recovery is wanted exactly for the 503 and 500 answers; INVALID_CODE exactly for the 400; a monitor exactly after a 200 |
| App.InvalidCodeOnlyFromService | app/main.py:89-99 | a 400 answer happens exactly when the service rejected the code with 404 or 400 |
| App.KioskOptions | app/main.py:80-87 | the options sent never ask for landscape, page range, media or quality; they fail exactly for null or string copies |
| App.StringCopiesOutOfService | app/main.py:80-117 | a job whose copies is a string is answered 503 OUT_OF_SERVICE |
| App.Kiosk.constructor | app/main.py:63 | nothing broadcast, no monitors |
| App.Kiosk.ReportOutOfService | app/main.py:101-117 | broadcasts OUT_OF_SERVICE and leaves the poller out of service |
| App.Kiosk.StartPrint | app/main.py:63-135 | the answer, broadcasts, monitors and recovery follow PrintFlow; the file handed to print_document exists afterwards exactly on a 200 |
| App.Kiosk.PrintFetched | app/main.py:78-135 | after a fetch, the answer follows PrintOutcome, and the file survives exactly on a 200 |
| Text.StripIdempotent | app/printer.py:21-27 | stripping twice is stripping once |
| Text.SplitWsWords | app/printer.py:41 | split() yields non-empty words without whitespace |
| Text.FirstWord | app/printer.py:152 | split() of whitespace, a word and a rest that is empty or starts with whitespace begins with that word |
| Text.NoWords | app/printer.py:152 | split() of whitespace alone is empty |
| Text.SplitLastIsSuffix | app/printer.py:25-27 | the last piece of split(":") is a suffix without the separator |
| Text.FindFirstIsFirst | app/printer.py:150-152 | the found index is the first occurrence |
| Text.SomeLineContains | app/health.py:22-26 | a line of the output containing a pattern means the output contains it |
| Common.RemoveFirstMultiset | app/ws.py:12-13 | removing the first copy takes one element off the multiset |

## Left out

- Logging, the heartbeat task, thread start-up and `asyncio` scheduling are not modelled. Sleeps are recorded as effects and never waited on.
- Real subprocesses, HTTP, the clock and the file system are inputs. Each call's answer is given to the model rather than obtained.
- The watcher thread, the recovery poller and monitor_job loop forever or until an outside event. Each is modelled over a finite sequence of answers: a run that has not ended is a finite prefix.
- Concurrency between the request handler, the monitor, the watcher and the poller is not modelled. Each is verified on its own, sharing only the objects it is handed.
- Monitor.JobMonitor.Run: when the loop adds to the outbox, the file's contents after the run are not stated. Only that the queue grew by RunBacklog is stated, and that the file is untouched when nothing was added.
- Copies are Python integers, booleans, strings or None. Floats are not modelled.
- Printer.TempFile.Delete: a failing `os.remove` (permissions) is not modelled; an existing file is always removed.
- Text.Lower: `str.lower()` is modelled on the ASCII letters only; Unicode case mapping is not modelled. Whitespace and line boundaries follow Python's full Unicode sets.
- The websocket receive loop is not modelled beyond the connect and disconnect around it.
- App.Kiosk.StartPrint: the file fetch_print_job stores before a missing job record is detected is not represented; that answer is a 500 with no file.
- Outbox.RemovalKeepsSurvivors, Outbox.SurvivorsIff: stated for queues of pairwise distinct records only. With equal records the removal by value can keep a different copy than the one that survived, so order and position are not promised there; Outbox.PassOutcome states the multiset for every queue.
- App.Kiosk.StartPrint: the monitor is recorded as the job it is started for; its run is Monitor.JobMonitor.Run, not an awaited task.
