# App Center release download and One Collector mirroring, modelled in Dafny

This project models three components of the App Center Android SDK.

- **The release download task** (`HttpDownloadFileTask`):
  - resolves the download URL, following cross-scheme redirects by hand under a budget of six;
  - rejects a response whose content type mentions `text`;
  - prepares the download directory and deletes a stale `<releaseHash>.apk`;
  - copies the body into that file chunk by chunk, reporting progress and honouring cancellation;
  - on a positive result, stores the file path and reports completion.
- **The release download listener** (`ReleaseDownloadListener`):
  - keeps an optional progress dialog for mandatory updates, which switches once from indeterminate to determinate;
  - builds the install intent;
  - on completion, either fails the workflow, defers to the distribution coordinator, or launches the installer, marks a mandatory release as installing and stores the release details.
- **The One Collector channel listener** (`OneCollectorChannelListener`):
  - mirrors every channel group onto a twin group named `<group>/one`;
  - keeps logs bound for One Collector out of App Center;
  - stamps each Common Schema log with the install id and with a per-iKey epoch and sequence number.

Files:

- `java_basics.dfy` holds the Java value semantics the code relies on:
  - `Option` and `Result`;
  - the 32-bit `int`;
  - truncating division;
  - the `(int)` narrowing cast;
  - `contains` and `endsWith`.
- `distribute_types.dfy` holds the shared records: URL, release details, download progress and preference keys.
- `http_download_file_task.dfy` models the download task:
  - the redirect recursion, as a function over a server oracle;
  - the copy loop, as a method proved against a recursive specification;
  - the download task, as a class whose methods append to one trace of listener, file-system and preference effects.
- `release_download_listener.dfy` models the listener:
  - the progress dialog, as a class;
  - the listener, as a class with an optional dialog handle and an effect trace;
  - the completion path, as a specification function with lemmas on order, launches and persisted preferences.
- `download_indicator.dfy` ties the two: the progress events the download task reports, replayed on a mandatory release's dialog.
- `one_collector_channel_listener.dfy` models the channel listener:
  - the stamping loop, as a method over the iKey map, proved against a recursive specification;
  - lemmas on install ids, epochs and sequence numbers;
  - the group-mirroring calls.

Collaborators are parameters:

- the network is a map from URL to response;
- the file system is a `Disk` record of answers;
- `isCancelled` is a function of the chunk index;
- the package manager and `Distribute.notifyDownload` are predicates;
- UUIDs are an oracle indexed by the number drawn so far;
- the serializer's Common Schema conversion is the input to `OnPreparedLog`.

An `IOException` in `doInBackground` is only logged (HttpDownloadFileTask.java:104-106): the download task returns 0 and `onPostExecute` does nothing. `HttpDownloadFileTask.IoFailureYieldsNoCompletion` states this.

## Model

| member | source | states |
|---|---|---|
| JavaBasics.JavaDiv | sdk/appcenter-distribute/src/main/java/com/microsoft/appcenter/distribute/ReleaseDownloadListener.java:94-96 | Java's `/` on `long` truncates toward zero: the remainder left by the quotient lies in `[0, b)` for a non-negative dividend and in `(-b, 0]` for a negative one |
| JavaBasics.NarrowToInt | sdk/appcenter-distribute/src/main/java/com/microsoft/appcenter/distribute/ReleaseDownloadListener.java:94-96 | the `(int)` cast yields a 32-bit value congruent to its argument modulo 2^32 |
| JavaBasics.NarrowToIntInRange | sdk/appcenter-distribute/src/main/java/com/microsoft/appcenter/distribute/ReleaseDownloadListener.java:94-96 | the cast leaves a value already in `int` range unchanged |
| HttpDownloadFileTask.ConnectOnce | sdk/appcenter-distribute/src/main/java/com/microsoft/appcenter/distribute/download/http/HttpDownloadFileTask.java:176-203 | one call reconnects iff the connection opened, budget remains and the response is a 301/302/303 whose Location is on another scheme, and it reconnects to that Location; otherwise a returned connection is the current URL's, with automatic following on, and its response is settled or the budget is 0; a `ClassCastException` comes from opening |
| HttpDownloadFileTask.CreateConnection | sdk/appcenter-distribute/src/main/java/com/microsoft/appcenter/distribute/download/http/HttpDownloadFileTask.java:176-204 | the recursion opens between 1 and `remainingRedirects + 1` connections, starting with the given URL |
| HttpDownloadFileTask.VisitedFollowRedirects | sdk/appcenter-distribute/src/main/java/com/microsoft/appcenter/distribute/download/http/HttpDownloadFileTask.java:186-201 | each URL opened after the first was the cross-scheme Location of a 301/302/303 from the URL opened before it |
| HttpDownloadFileTask.ResolvedConnection | sdk/appcenter-distribute/src/main/java/com/microsoft/appcenter/distribute/download/http/HttpDownloadFileTask.java:179-203 | a returned connection is to the last URL opened, carries that URL's response and follows redirects automatically; its response is settled unless the whole budget was spent |
| HttpDownloadFileTask.CrashFromOpening | sdk/appcenter-distribute/src/main/java/com/microsoft/appcenter/distribute/download/http/HttpDownloadFileTask.java:177 | a `ClassCastException` is thrown only by opening the last URL visited |
| HttpDownloadFileTask.CrossSchemeRedirectReconnects | sdk/appcenter-distribute/src/main/java/com/microsoft/appcenter/distribute/download/http/HttpDownloadFileTask.java:186-201 | a cross-scheme 301/302/303 with budget left causes exactly one reconnect, to the Location, with the budget decremented by one |
| HttpDownloadFileTask.ExhaustedBudgetKeepsConnection | sdk/appcenter-distribute/src/main/java/com/microsoft/appcenter/distribute/download/http/HttpDownloadFileTask.java:189-193 | with budget 0, whatever the response (redirect included), the current connection is returned and nothing fails |
| HttpDownloadFileTask.SettledKeepsConnection | sdk/appcenter-distribute/src/main/java/com/microsoft/appcenter/distribute/download/http/HttpDownloadFileTask.java:179-203 | a non-redirect response or a same-scheme redirect returns the current connection with automatic following on, whatever the budget |
| HttpDownloadFileTask.CrossSchemeReconnectCrashesAsWritten | sdk/appcenter-distribute/src/main/java/com/microsoft/appcenter/distribute/download/http/HttpDownloadFileTask.java:177-200 | as written, an https-to-http redirect makes the reconnect fail the `HttpsURLConnection` cast |
| HttpDownloadFileTask.CorrectedNeverCrashes | sdk/appcenter-distribute/src/main/java/com/microsoft/appcenter/distribute/download/http/HttpDownloadFileTask.java:176-204 | with the corrected opening, redirect resolution never ends in an unchecked exception |
| HttpDownloadFileTask.CorrectedFollowsCrossSchemeRedirect | sdk/appcenter-distribute/src/main/java/com/microsoft/appcenter/distribute/download/http/HttpDownloadFileTask.java:195-200 | with the corrected opening, an https-to-http redirect to a settled URL yields that URL's connection after one reconnect |
| HttpDownloadFileTask.DownloadConnectsAtMostSevenTimes | sdk/appcenter-distribute/src/main/java/com/microsoft/appcenter/distribute/download/http/HttpDownloadFileTask.java:83 | a download opens at most `MAX_REDIRECTS + 1 = 7` connections, so at most 6 manual reconnects, each following a cross-scheme redirect |
| HttpDownloadFileTask.FirstCancelled | sdk/appcenter-distribute/src/main/java/com/microsoft/appcenter/distribute/download/http/HttpDownloadFileTask.java:144-146 | the first chunk after which cancellation is seen: cancellation holds there and at no earlier chunk; with no such chunk, no chunk in range is cancelled |
| HttpDownloadFileTask.ChunksCopied | sdk/appcenter-distribute/src/main/java/com/microsoft/appcenter/distribute/download/http/HttpDownloadFileTask.java:138-147 | the loop copies at most all the chunks the body delivers |
| HttpDownloadFileTask.DownloadReleaseFile | sdk/appcenter-distribute/src/main/java/com/microsoft/appcenter/distribute/download/http/HttpDownloadFileTask.java:128-161 | the copy loop returns and does exactly what the function `Stream` says: open the input stream and the file, then for each chunk report the running total against the declared length, write it, and stop after the first chunk that sees cancellation; the result is the sum of the chunks copied |
| HttpDownloadFileTask.CopyStep | sdk/appcenter-distribute/src/main/java/com/microsoft/appcenter/distribute/download/http/HttpDownloadFileTask.java:139-143 | copying one more chunk adds it to the total and appends exactly one progress event (when there is a listener) and one write |
| HttpDownloadFileTask.StreamCancelled | sdk/appcenter-distribute/src/main/java/com/microsoft/appcenter/distribute/download/http/HttpDownloadFileTask.java:144-149 | on cancellation after chunk `i`, the chunks up to `i` are copied, their sum is returned, and no effect follows the last write |
| HttpDownloadFileTask.StreamExhausted | sdk/appcenter-distribute/src/main/java/com/microsoft/appcenter/distribute/download/http/HttpDownloadFileTask.java:138-149 | with no cancellation, every chunk is copied and the result is their sum, or an `IOException` if the body's last read fails |
| HttpDownloadFileTask.ProgressEvents | sdk/appcenter-distribute/src/main/java/com/microsoft/appcenter/distribute/download/http/HttpDownloadFileTask.java:139-141 | one progress event per chunk copied |
| HttpDownloadFileTask.ProgressEventAt | sdk/appcenter-distribute/src/main/java/com/microsoft/appcenter/distribute/download/http/HttpDownloadFileTask.java:139-141 | the `k`-th progress event carries the sum of the first `k + 1` chunks and the declared length |
| HttpDownloadFileTask.ProgressEventsNonDecreasing | sdk/appcenter-distribute/src/main/java/com/microsoft/appcenter/distribute/download/http/HttpDownloadFileTask.java:131-141 | the reported totals never decrease, every event carries the same `lengthOfFile` (-1 when unknown), and the last one equals the bytes copied |
| HttpDownloadFileTask.ChunkEffectsWritten | sdk/appcenter-distribute/src/main/java/com/microsoft/appcenter/distribute/download/http/HttpDownloadFileTask.java:143 | the writes made are exactly the chunks copied, in order |
| HttpDownloadFileTask.ChunkEffectsTargetApk | sdk/appcenter-distribute/src/main/java/com/microsoft/appcenter/distribute/download/http/HttpDownloadFileTask.java:134-143 | the copy loop only writes to the apk file or reports progress |
| HttpDownloadFileTask.ChunkEffectsProgress | sdk/appcenter-distribute/src/main/java/com/microsoft/appcenter/distribute/download/http/HttpDownloadFileTask.java:140-142 | the progress events reported are the reference events when there is a listener, and none otherwise |
| HttpDownloadFileTask.SumPrefixMonotone | sdk/appcenter-distribute/src/main/java/com/microsoft/appcenter/distribute/download/http/HttpDownloadFileTask.java:139 | the running total never decreases |
| HttpDownloadFileTask.ResolveApkFilePath | sdk/appcenter-distribute/src/main/java/com/microsoft/appcenter/distribute/download/http/HttpDownloadFileTask.java:163-166 | the target is the download directory, `/`, the release hash and `.apk` |
| HttpDownloadFileTask.ApkFilePathInjective | sdk/appcenter-distribute/src/main/java/com/microsoft/appcenter/distribute/download/http/HttpDownloadFileTask.java:163-166 | two releases in one directory share a target file only if their hashes are equal |
| HttpDownloadFileTask.PrepareFile | sdk/appcenter-distribute/src/main/java/com/microsoft/appcenter/distribute/download/http/HttpDownloadFileTask.java:94-100 | the directory is created first, and an existing apk file is deleted next |
| HttpDownloadFileTask.TextPayloadRejected | sdk/appcenter-distribute/src/main/java/com/microsoft/appcenter/distribute/download/http/HttpDownloadFileTask.java:85-93 | a content type containing `text` yields 0, `onError` with the not-a-file message when there is a listener, and no directory or file operation |
| HttpDownloadFileTask.CopiedDownload | sdk/appcenter-distribute/src/main/java/com/microsoft/appcenter/distribute/download/http/HttpDownloadFileTask.java:94-149 | an accepted download whose input stream opens creates the directory, deletes a stale apk, opens the apk, then only writes the chunks copied to it and reports the reference progress events; the result is their sum or 0 |
| HttpDownloadFileTask.ReceivedCopy | sdk/appcenter-distribute/src/main/java/com/microsoft/appcenter/distribute/download/http/HttpDownloadFileTask.java:94-103 | after the content-type check, when both streams open, the effects are the file preparation, then opening the apk, then the copy loop's effects |
| HttpDownloadFileTask.CopyEffectsShape | sdk/appcenter-distribute/src/main/java/com/microsoft/appcenter/distribute/download/http/HttpDownloadFileTask.java:98-143 | preparation effects neither write nor report, so the writes and progress of a download are those of the copy loop |
| HttpDownloadFileTask.IoFailureYieldsNoCompletion | sdk/appcenter-distribute/src/main/java/com/microsoft/appcenter/distribute/download/http/HttpDownloadFileTask.java:94-117 | a failed connection, a directory that cannot be created, an input stream that cannot be opened or an apk that cannot be opened yields 0, so `onPostExecute` neither stores nor completes |
| HttpDownloadFileTask.InputFailureCreatesNoFile | sdk/appcenter-distribute/src/main/java/com/microsoft/appcenter/distribute/download/http/HttpDownloadFileTask.java:94-134 | when `getInputStream()` throws (an error status such as 404), the directory is prepared and a stale apk deleted, but no apk file is created and the result is 0 |
| HttpDownloadFileTask.IsTextPayload | sdk/appcenter-distribute/src/main/java/com/microsoft/appcenter/distribute/download/http/HttpDownloadFileTask.java:86 | a response is rejected as a text payload exactly when it has a content type and `text` occurs somewhere in it |
| HttpDownloadFileTask.HttpDownloadFileTask.constructor | sdk/appcenter-distribute/src/main/java/com/microsoft/appcenter/distribute/download/http/HttpDownloadFileTask.java:71-76 | the apk path is resolved from the download directory and the release hash |
| HttpDownloadFileTask.HttpDownloadFileTask.DoInBackground | sdk/appcenter-distribute/src/main/java/com/microsoft/appcenter/distribute/download/http/HttpDownloadFileTask.java:79-110 | the result and the effects appended to the trace are those of the specification `BackgroundOutcome` |
| HttpDownloadFileTask.HttpDownloadFileTask.OnPostExecute | sdk/appcenter-distribute/src/main/java/com/microsoft/appcenter/distribute/download/http/HttpDownloadFileTask.java:113-118 | only a positive result with a listener stores the apk path under the downloaded-file key and then completes with `file://` and the path |
| ReleaseDownloadListener.GetInstallIntent | sdk/appcenter-distribute/src/main/java/com/microsoft/appcenter/distribute/ReleaseDownloadListener.java:71-78 | the intent has action INSTALL_PACKAGE, the file URI as data, and the flags GRANT_READ_URI_PERMISSION, NEW_TASK and SINGLE_TOP |
| ReleaseDownloadListener.InstallIntentDeterminesFile | sdk/appcenter-distribute/src/main/java/com/microsoft/appcenter/distribute/ReleaseDownloadListener.java:71-78 | two install intents are equal iff their file URIs are, and each carries all three flag bits |
| ReleaseDownloadListener.Progressed | sdk/appcenter-distribute/src/main/java/com/microsoft/appcenter/distribute/ReleaseDownloadListener.java:85-97 | an event with an unknown total changes nothing; a known total makes the dialog determinate with position current/MiB; the maximum changes only during the switch from indeterminate, to total/MiB |
| ReleaseDownloadListener.ReplayUnknownTotal | sdk/appcenter-distribute/src/main/java/com/microsoft/appcenter/distribute/ReleaseDownloadListener.java:85 | events whose total is unknown leave the dialog as it was |
| ReleaseDownloadListener.ReplayDeterminate | sdk/appcenter-distribute/src/main/java/com/microsoft/appcenter/distribute/ReleaseDownloadListener.java:88-96 | after events with one known total, an initially indeterminate dialog is determinate with maximum total/MiB and the position of the last event |
| ReleaseDownloadListener.MebibytesMonotone | sdk/appcenter-distribute/src/main/java/com/microsoft/appcenter/distribute/ReleaseDownloadListener.java:94-96 | for byte counts whose mebibyte count fits an `int`, the cast quotient is the plain quotient and is monotone |
| ReleaseDownloadListener.ReplayPositions | sdk/appcenter-distribute/src/main/java/com/microsoft/appcenter/distribute/ReleaseDownloadListener.java:94-96 | for non-decreasing current sizes no larger than the total, the position never decreases and never exceeds the maximum |
| ReleaseDownloadListener.UnresolvedCompletionIsError | sdk/appcenter-distribute/src/main/java/com/microsoft/appcenter/distribute/ReleaseDownloadListener.java:104-138 | when no activity resolves the intent, completion does exactly what `onError` does: complete the workflow, launch nothing, store nothing |
| ReleaseDownloadListener.CompletionLaunchesOnce | sdk/appcenter-distribute/src/main/java/com/microsoft/appcenter/distribute/ReleaseDownloadListener.java:113-126 | the installer is launched exactly once if the intent resolves and `notifyDownload` returns false, and never otherwise |
| ReleaseDownloadListener.CompletionOrder | sdk/appcenter-distribute/src/main/java/com/microsoft/appcenter/distribute/ReleaseDownloadListener.java:113-130 | when installing now: notify, then launch, then mark installing iff mandatory, then store group id, release hash and release id |
| ReleaseDownloadListener.SetInstallingIffMandatoryLaunch | sdk/appcenter-distribute/src/main/java/com/microsoft/appcenter/distribute/ReleaseDownloadListener.java:113-129 | the release is marked installing iff the installer is launched and the release is mandatory |
| ReleaseDownloadListener.CompletionPersistsRelease | sdk/appcenter-distribute/src/main/java/com/microsoft/appcenter/distribute/ReleaseDownloadListener.java:54-131 | after completion, the store holds the group id, release hash and release id if the installer was launched, and is unchanged otherwise |
| ReleaseDownloadListener.ProgressDialog.constructor | sdk/appcenter-distribute/src/main/java/com/microsoft/appcenter/distribute/ReleaseDownloadListener.java:148 | a new dialog is determinate, cancelable, with maximum 100 and position 0 |
| ReleaseDownloadListener.ReleaseDownloadListener.constructor | sdk/appcenter-distribute/src/main/java/com/microsoft/appcenter/distribute/ReleaseDownloadListener.java:49-52 | the listener starts without a dialog and with nothing done |
| ReleaseDownloadListener.ReleaseDownloadListener.OnProgress | sdk/appcenter-distribute/src/main/java/com/microsoft/appcenter/distribute/ReleaseDownloadListener.java:81-98 | with a dialog, the dialog's new state is `Progressed` of its old state; without one, nothing changes |
| ReleaseDownloadListener.ReleaseDownloadListener.OnComplete | sdk/appcenter-distribute/src/main/java/com/microsoft/appcenter/distribute/ReleaseDownloadListener.java:101-132 | the effects appended are those of the specification `CompletionEffects` |
| ReleaseDownloadListener.ReleaseDownloadListener.OnError | sdk/appcenter-distribute/src/main/java/com/microsoft/appcenter/distribute/ReleaseDownloadListener.java:135-138 | the workflow is completed, and nothing else happens |
| ReleaseDownloadListener.ReleaseDownloadListener.StoreReleaseDetails | sdk/appcenter-distribute/src/main/java/com/microsoft/appcenter/distribute/ReleaseDownloadListener.java:54-62 | group id, release hash and release id are written, in that order |
| ReleaseDownloadListener.ReleaseDownloadListener.ShowDownloadProgress | sdk/appcenter-distribute/src/main/java/com/microsoft/appcenter/distribute/ReleaseDownloadListener.java:144-156 | a non-mandatory release gets null and the handle is left as it was; a mandatory one gets a fresh dialog, kept as the handle, that is indeterminate and not cancelable |
| ReleaseDownloadListener.ReleaseDownloadListener.HideProgressDialog | sdk/appcenter-distribute/src/main/java/com/microsoft/appcenter/distribute/ReleaseDownloadListener.java:162-177 | the handle ends null; one hide and one callback removal are scheduled iff there was a dialog, so a second call does nothing |
| DownloadIndicator.TaskProgressOnDialog | sdk/appcenter-distribute/src/main/java/com/microsoft/appcenter/distribute/download/http/HttpDownloadFileTask.java:131-141 | replaying the download task's progress events on a mandatory release's dialog: an unknown length leaves it indeterminate; a declared length switches it to determinate with maximum length/MiB, and the position never decreases and never passes the maximum |
| OneCollectorChannelListener.GetOneCollectorGroupName | sdk/appcenter/src/main/java/com/microsoft/appcenter/channel/OneCollectorChannelListener.java:159-161 | the twin name starts with the group name, is four characters longer, and is itself a One Collector group |
| OneCollectorChannelListener.IsOneCollectorGroup | sdk/appcenter/src/main/java/com/microsoft/appcenter/channel/OneCollectorChannelListener.java:169-171 | a group is a twin exactly when its name is some name followed by the `/one` suffix |
| OneCollectorChannelListener.OneCollectorGroupsAreTwins | sdk/appcenter/src/main/java/com/microsoft/appcenter/channel/OneCollectorChannelListener.java:159-171 | a name is a One Collector group iff it is the twin of some group, and distinct groups have distinct twins |
| OneCollectorChannelListener.ShouldFilter | sdk/appcenter/src/main/java/com/microsoft/appcenter/channel/OneCollectorChannelListener.java:114-118 | a log is filtered iff it has transmission target tokens and is not a Common Schema log |
| OneCollectorChannelListener.StampLog | sdk/appcenter/src/main/java/com/microsoft/appcenter/channel/OneCollectorChannelListener.java:53-60 | one stamped log keeps its iKey and library version and gets the install id; its iKey's entry is incremented, or created from the next UUID with sequence 1; the log carries that entry's epoch and sequence number; no other entry changes and a UUID is drawn only for a new iKey |
| OneCollectorChannelListener.PrepareLogs | sdk/appcenter/src/main/java/com/microsoft/appcenter/channel/OneCollectorChannelListener.java:52-61 | every converted log yields exactly one stamped log |
| OneCollectorChannelListener.PreparedEntry | sdk/appcenter/src/main/java/com/microsoft/appcenter/channel/OneCollectorChannelListener.java:54-60 | after a batch, an iKey has an entry iff it had one or a log carried it; its sequence number grew by the number of its logs; an existing epoch is kept; an iKey no log carried keeps its entry unchanged |
| OneCollectorChannelListener.PreparedDraws | sdk/appcenter/src/main/java/com/microsoft/appcenter/channel/OneCollectorChannelListener.java:55-57 | exactly one UUID is drawn per iKey seen for the first time |
| OneCollectorChannelListener.PrepareAppend | sdk/appcenter/src/main/java/com/microsoft/appcenter/channel/OneCollectorChannelListener.java:52-61 | stamping a batch in two parts, the second starting from the table the first left, is stamping it whole |
| OneCollectorChannelListener.PrepareNext | sdk/appcenter/src/main/java/com/microsoft/appcenter/channel/OneCollectorChannelListener.java:52-61 | one more log extends the stamped prefix by that log stamped against the table so far |
| OneCollectorChannelListener.LastStamped | sdk/appcenter/src/main/java/com/microsoft/appcenter/channel/OneCollectorChannelListener.java:53-60 | the last log of a batch keeps its iKey and library version, gets the install id and its iKey's epoch, and gets the iKey's starting sequence plus its number of logs |
| OneCollectorChannelListener.LastFirstSight | sdk/appcenter/src/main/java/com/microsoft/appcenter/channel/OneCollectorChannelListener.java:55-60 | a last log with a new iKey gets sequence 1 and the next UUID drawn |
| OneCollectorChannelListener.StampedLogAt | sdk/appcenter/src/main/java/com/microsoft/appcenter/channel/OneCollectorChannelListener.java:52-60 | every stamped log gets the install id and its iKey's single epoch; its sequence number is the iKey's starting one plus the count of logs with that iKey up to it, so from a fresh table the sequence numbers run 1, 2, 3 with no gaps |
| OneCollectorChannelListener.FirstSightAt | sdk/appcenter/src/main/java/com/microsoft/appcenter/channel/OneCollectorChannelListener.java:54-60 | the first log of an unseen iKey gets sequence 1 and an epoch freshly drawn for it; draws are numbered by first sightings, so no two new iKeys share one |
| OneCollectorChannelListener.GroupEventsMirrorOnce | sdk/appcenter/src/main/java/com/microsoft/appcenter/channel/OneCollectorChannelListener.java:94-151 | for an ordinary group, add, remove and clear act on `group + "/one"`, and add uses 50 logs, 3000 ms and 3 parallel batches; for a twin group they make no channel call |
| OneCollectorChannelListener.OneCollectorChannelListener.constructor | sdk/appcenter/src/main/java/com/microsoft/appcenter/channel/OneCollectorChannelListener.java:82-91 | the listener starts with an empty iKey table and no channel calls |
| OneCollectorChannelListener.OneCollectorChannelListener.OnPreparedLog | sdk/appcenter/src/main/java/com/microsoft/appcenter/channel/OneCollectorChannelListener.java:46-62 | the stamped logs, the new iKey table and the UUIDs drawn are those of the specification `PrepareLogs`, and the channel is not called |
| OneCollectorChannelListener.OneCollectorChannelListener.OnGroupAdded | sdk/appcenter/src/main/java/com/microsoft/appcenter/channel/OneCollectorChannelListener.java:104-111 | the channel calls appended are `GroupAddedCalls`, and the iKey table is unchanged |
| OneCollectorChannelListener.OneCollectorChannelListener.OnGroupRemoved | sdk/appcenter/src/main/java/com/microsoft/appcenter/channel/OneCollectorChannelListener.java:93-102 | the channel calls appended are `GroupRemovedCalls`, and the iKey table is unchanged |
| OneCollectorChannelListener.OneCollectorChannelListener.OnClear | sdk/appcenter/src/main/java/com/microsoft/appcenter/channel/OneCollectorChannelListener.java:144-151 | the channel calls appended are `ClearCalls`, and the iKey table is unchanged |

## Left out

- Networking is not modelled: TLS (`TLS1_2SocketFactory`), timeouts, `TrafficStats` tagging and `connect()` are absent. A URL missing from the server map stands for any `IOException` from opening or reading the response code. The platform's own same-scheme redirect following is folded into the response a URL gives.
- URL schemes are reduced to http, https and other. A `Location` that `new URL` rejects is represented by an absent location.
- `HttpDownloadFileTask.Stream`: a failure to open the input stream is modelled, and a read failure only after the last chunk of an uncancelled body. An `IOException` from `write`, `flush` or `close` is not modelled.
- The release's download URL arrives already parsed, so the `MalformedURLException` that `new URL(...)` could throw at HttpDownloadFileTask.java:81 is not modelled.
- `HttpDownloadFileTask.DownloadReleaseFile`: the running total is an unbounded integer. Overflow of the `long` total needs more than 2^63 bytes and is not modelled.
- The contents of the file bytes are not modelled. The file system is a record of answers: whether `mkdirs` created the directory, whether it exists, whether a stale apk exists, and whether the output stream opens.
- `AsyncTask` threading is not modelled. That covers the dispatch to `onCancelled` instead of `onPostExecute`, `HandlerUtils` posting to the UI thread, and `synchronized`. The hide posted to the UI thread is recorded as an effect.
- `HttpDownloadFileTask.HttpDownloadFileTask.DoInBackground`: the task uses the corrected connection opening, so an http download URL or an https-to-http redirect yields a result where the source throws an uncaught `ClassCastException` (see Findings). Also, the effects of each branch are appended to the trace in one assignment at the end of the branch, not one at a time.
- Logging (`AppCenterLog`) is not modelled. The message passed to `onError` in the listener is only logged, so the model drops it.
- The `Distribute` coordinator is represented by parameters and trace entries. `notifyDownload` is a predicate; `setInstalling` and `completeWorkflow` are trace entries. Intent resolution by the package manager is a predicate. `SharedPreferencesManager` is a trace, applied by `Persist`.
- Progress dialog styling is not modelled: title, style, number formats and string resources.
- `ReleaseDownloadListener.ProgressDialog.constructor`: the initial state (determinate, cancelable, maximum 100, position 0) is the platform default. Clamping of the position to the maximum by the platform's progress bar is not modelled; the dialog records the values set.
- `ReleaseDownloadListener.MebibytesMonotone`: the position and maximum are proved monotone and bounded only when the total is below 2^31 MiB. Beyond that, the `(int)` cast wraps, as `NarrowToInt` models.
- `DistributeConstants` is not part of this model. `MEBIBYTE_IN_BYTES` is taken as 1024 * 1024 from its name, and the preference keys are an enumeration. The `HANDLER_TOKEN_CHECK_PROGRESS` callback removal is recorded as one effect.
- `LogSerializer.toCommonSchemaLog` is not modelled. The converted logs are the input of `OnPreparedLog`, and only the iKey and the SDK extension fields are kept.
- `UUIDUtils.randomUUID` is not modelled. Epochs are drawn from an oracle indexed by how many have been drawn, so their randomness and uniqueness are not modelled.
- `OneCollectorChannelListener.OneCollectorChannelListener.OnPreparedLog`: the Java `EpochAndSeq` entry is a shared object incremented in place. The model replaces the map entry with the incremented value, which leaves the same map. A null iKey is not modelled: iKeys are strings. The `long` sequence number is unbounded.
- The channel is not modelled; the calls made on it are recorded. `addGroup` also receives a null ingestion and a null group listener, and these are not recorded.
- `ErrorReporting` and `DownloadManagerReceiver` are outside this model. The first is a crash-reporting singleton built from clock, I/O and handler registration. The second only forwards broadcasts.

## Findings

| source | as written | input that shows it | evidently intended | confidence | as-written member | corrected member |
|---|---|---|---|---|---|---|
| sdk/appcenter-distribute/src/main/java/com/microsoft/appcenter/distribute/download/http/HttpDownloadFileTask.java:177-200 | every connection, including the reconnect made after a cross-scheme redirect, is cast to `HttpsURLConnection`; an http URL yields a plain `HttpURLConnection`, so the cast throws `ClassCastException`, which `catch (IOException)` does not catch | a download URL on https answering 302 with `Location: http://…` while budget remains | the manual cross-scheme reconnect (the reason the code handles redirects itself) opens the http URL and returns its connection | not executed | HttpDownloadFileTask.CrossSchemeReconnectCrashesAsWritten | HttpDownloadFileTask.CorrectedFollowsCrossSchemeRedirect |

The download task uses the corrected opening (`HttpDownloadFileTask.Opener.Corrected`). `HttpDownloadFileTask.CorrectedNeverCrashes` proves that redirect resolution then never ends in an unchecked exception.
