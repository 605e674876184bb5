# Google Drive uploader: queue protocol model

`google_drive_up_file.py` is a small tkinter application that uploads one
local file to Google Drive. A background thread authenticates, uploads the
file in chunks, checks that Drive can see it and, if asked, makes it public.
It reports progress to the window through two queues:

- a status queue of strings: log lines, the control messages `LINK:<url>`
  and `PUBLIC_LINK:<url>`, and the sentinel `UPLOAD_COMPLETE_ENABLE_BUTTONS`;
- a progress queue of integers.

Every 100 ms the window's polling loop (`check_queues`) drains both queues
and updates the log, the link field, the copy button, the shareable link
and the progress bar.

This project models three parts of that protocol as pure Dafny functions and
proves what they promise:

- **Polling loop** (`reconciler.dfy`): one tick folds a batch of status
  strings through the source's branch structure (`messages.dfy`), then
  drains the progress values.
  - A public link beats a verified link.
  - Either failure wording clears the link.
  - Because the test is `if not link_to_show`, an empty link counts as unset.
  - The sentinel re-enables the buttons and is not logged.
- **Upload thread** (`worker.dfy`, `emissions.dfy`): the thread is a function
  from the outcomes of every external call to the ordered list of its pushes.
  - The outcomes cover authentication, whether the file exists, creating the
    request, each chunk, the read-back check and the permission grant.
  - Each status push is a tagged value with the exact Arabic text it becomes
    on the queue.
- **Submission guard** (`controller.dfy`): the upload button's handler.

`pipeline.dfy` composes the parts:

- a launched submission;
- the thread's whole run put on the queues;
- one tick draining that run as a single batch.

For this composition it proves which link the window ends up showing.

Supporting modules:

- `strings.dfy`: prefix and substring tests, and Python's `str()` of an
  integer.
- `ui.dfy`: the window state, including the invariant "the copy button is
  enabled exactly when a non-empty link is shown, and it copies that link".

## Model

| member | source | states |
|---|---|---|
| Messages.Classify | google_drive_up_file.py:267-289 | A message is a public link exactly when it starts with `PUBLIC_LINK:`. Otherwise it is a verified link exactly when it starts with `LINK:`. Either way the link is the rest of the message. Any other message is text: it is a failure exactly when it contains one of the two failure wordings, and the sentinel exactly when it equals `UPLOAD_COMPLETE_ENABLE_BUTTONS`. |
| Messages.ArabicLeadIsInert | google_drive_up_file.py:268-286 | A text that opens with an Arabic letter is never taken for a link message or for the sentinel. |
| Messages.ClassifySignal | google_drive_up_file.py:282-287 | The sentinel is read as the sentinel, and it carries no failure wording, so it never clears the link. |
| Emissions.NoteText | google_drive_up_file.py:48-376 | Every informational line the thread writes opens with an Arabic letter: those of lines 48-146 and the thread's own lines 362, 372 and 376. |
| Emissions.FailureMessage | google_drive_up_file.py:106-149 | Each of the three failure lines (chunk error, file not found after upload, outer upload error) contains a failure wording that the polling loop recognises, and opens with an Arabic letter. |
| Emissions.ClassifyWire | google_drive_up_file.py:268-289 | Round trip. An emission whose interpolated payload carries no failure wording is written as a string, and the polling loop reads that string back as the emission's own tag: a link as that link, a public link as that public link, a failure as a failure, the sentinel as the sentinel, other text as plain text. |
| Emissions.WireIsNeverMisread | google_drive_up_file.py:268-289 | Whatever the payloads, only `Link` emissions are read as verified links and only `PublicLink` emissions as public links. Only the sentinel equals the sentinel string, and failure lines are always read as failures. |
| UiState.Initial | google_drive_up_file.py:171-227 | The window starts with browse and upload enabled, copy disabled, empty queues, and its copy button consistent with its link field. |
| Reconciler.EnableButtons | google_drive_up_file.py:383-387 | Browse and upload become enabled. The copy button, the link field and everything else are left as they were. |
| Reconciler.Tick | google_drive_up_file.py:260-298 | A tick leaves both queues empty and the three input fields unchanged. |
| Reconciler.TickLogs | google_drive_up_file.py:264-289 | The log gains the batch's messages in order, except those starting with either link prefix and the sentinel (the reference filter `LogLines`). |
| Reconciler.TickButtons | google_drive_up_file.py:286-287 | Browse and upload end enabled exactly when they already were, or the sentinel was in the batch. |
| Reconciler.TickProgress | google_drive_up_file.py:296-298 | The bar ends on the last queued progress value, or keeps its value when none was queued. |
| Reconciler.TickLeavesLinkAlone | google_drive_up_file.py:263-294 | A batch with no link message and no failure wording leaves the link field, the copy button and the shareable link unchanged. |
| Reconciler.TickKeepsConsistent | google_drive_up_file.py:263-294 | A tick preserves "copy enabled exactly when the field is non-empty, and then it copies the shown link". |
| Reconciler.IdleTick | google_drive_up_file.py:263-298 | Draining two empty queues changes nothing. |
| Reconciler.DrainAppend | google_drive_up_file.py:264-265 | Draining a batch in two pieces, one after the other, equals draining it at once. |
| Reconciler.DrainLogs | google_drive_up_file.py:268-289 | The fold logs exactly the reference filter `LogLines` of the batch, in order. |
| Reconciler.DrainFires | google_drive_up_file.py:286-287 | `enable_buttons` fires exactly when the sentinel occurs in the batch. |
| Reconciler.DrainProgressIsLast | google_drive_up_file.py:296-298 | Draining the progress queue leaves its last value, or the old value when the queue is empty. |
| Reconciler.DrainAgrees | google_drive_up_file.py:268-284 | Throughout the fold the two link locals agree: once a link is decided, the shareable link equals it, or both were cleared. While no link is decided, the shareable link is the one the tick started with. |
| Reconciler.LinkUntouched | google_drive_up_file.py:263-284 | Without link messages and failure wordings, the fold leaves `link_to_show` and `current_shareable_link` as they were. |
| Reconciler.ShownLinkStays | google_drive_up_file.py:273-279 | Once a non-empty link is set, later `LINK:` messages are ignored. Only a public link or a failure changes it. |
| Reconciler.ClearedLinkStays | google_drive_up_file.py:281-284 | A cleared link stays cleared (empty, nothing to share) while no link message follows. |
| Reconciler.PublicLinkWins | google_drive_up_file.py:267-279 | After the last `PUBLIC_LINK:` message, with a non-empty link and no later failure, that link is shown and shared, whether or not `LINK:` messages come before or after it. |
| Reconciler.FailureClearsLink | google_drive_up_file.py:281-284 | After a failure wording with no later link message, the link is shown empty and nothing is left to share. |
| Reconciler.LinkOnlyWhenUnset | google_drive_up_file.py:273-279 | A `LINK:` message takes effect exactly while `link_to_show` is `None` or empty. |
| Reconciler.EmptyPublicLinkIsOverridden | google_drive_up_file.py:268-279 | An empty public link does not win: a later `LINK:` message replaces it. |
| Worker.AuthEventsAreChatter | google_drive_up_file.py:35-73 | Every way `get_drive_service` ends writes only lines tagged as informational: no link or failure emission (by tag), and no progress. |
| Worker.TransferDecides | google_drive_up_file.py:98-108 | The chunk loop writes a failure line exactly when a chunk raises, and then only that chunk's error. Otherwise it writes nothing the polling loop acts on. |
| Worker.TransferPushes | google_drive_up_file.py:98-108 | The chunk loop pushes the acknowledged percentages in order, followed by 0 if a chunk raised. |
| Worker.SentinelOnceAtEnd | google_drive_up_file.py:354-381 | For every outcome, exceptions included, the thread's status pushes end with the sentinel, and it occurs exactly once. |
| Worker.RunSummary | google_drive_up_file.py:76-150 | Compares a run with a reference read off the outcomes, on two counts. Link and failure emissions (by tag): none after failed authentication or a missing file; one failure line after a failed or unverifiable upload; otherwise the verified link, then the public link if the grant succeeded. Progress: the acknowledged percentages, then 0 on failure or 100 on completion. |
| Worker.DecidedMember | google_drive_up_file.py:267-284 | A link or failure emission is among the messages the polling loop acts on exactly when the thread put it on the status queue. The link lemmas below therefore speak of the queue itself. |
| Worker.LinkIff | google_drive_up_file.py:116-121 | A `LINK:` message is among the messages the polling loop acts on exactly when the upload completed and the read-back check found the file, and it carries that check's link. |
| Worker.PublicLinkIff | google_drive_up_file.py:128-141 | A `PUBLIC_LINK:` message is among the messages the polling loop acts on exactly when, in addition, visibility is `'public'` and the permission grant succeeded, and it carries the granted link. |
| Worker.LinkBeforePublic | google_drive_up_file.py:116-141 | Whenever a public link is pushed, the read-back check found the file and its verified link comes before the public one. These two are the only link or failure messages of the run. |
| Worker.FailureLineIff | google_drive_up_file.py:104-150 | A failure line is pushed exactly when a started upload fails (creating the request, a chunk) or cannot be found afterwards. It is then the only link or failure push. |
| Worker.FailureResetsProgress | google_drive_up_file.py:104-108 | After failed authentication, a failed request or a chunk error, the last progress value pushed is 0. |
| Worker.FailureShowsNoLink | google_drive_up_file.py:371-377 | After those failures every message the polling loop acts on is a failure line, so no `LINK:` or `PUBLIC_LINK:` message is pushed. |
| Worker.MissingFileIsOnlyReported | google_drive_up_file.py:83-85 | A missing file pushes no progress value and no link or failure line. |
| Worker.FinishedUploadEndsAt100 | google_drive_up_file.py:110-114 | Once every chunk succeeded, the last progress value is 100, whatever the read-back check and the grant do. |
| Controller.Submit | google_drive_up_file.py:318-343 | An empty path is rejected first, then an empty Drive name, and a rejection changes nothing. Otherwise the handler: disables browse and upload; sets progress to 0; logs the authentication line; clears the link, the copy button and the shareable link; empties both queues; and starts the thread with (path, name, visibility). The copy invariant is established. |
| Pipeline.ExpectedView | google_drive_up_file.py:76-150 | The link a run should leave behind is untouched exactly when authentication failed or the file is missing. It is cleared exactly when a started upload failed or could not be found. It shows a link only when the upload was verified. |
| Pipeline.LogOfWires | google_drive_up_file.py:268-289 | The log receives exactly the informational and failure lines of a list of emissions, whatever their payloads. Links and the sentinel never reach it. |
| Pipeline.OnlyDecisiveMatter | google_drive_up_file.py:267-284 | Only links and failure lines move the link locals. Informational lines and the sentinel leave them alone. |
| Pipeline.ViewOfDecisions | google_drive_up_file.py:116-141 | The reference list of a run's link and failure pushes leaves the link locals as the expected view says. |
| Pipeline.RunShowsView | google_drive_up_file.py:291-294 | After one tick over a whole run, the link field, the copy button and the shareable link are as the expected view says. |
| Pipeline.RunReenables | google_drive_up_file.py:379-387 | After one tick over a whole run, browse and upload are enabled again, whatever happened. |
| Pipeline.RunLogs | google_drive_up_file.py:264-289 | After one tick over a whole run, the log has gained exactly the run's informational and failure lines, in order. |
| Pipeline.RunProgress | google_drive_up_file.py:296-298 | After one tick over a whole run, the bar shows the run's last progress value. |
| Pipeline.RunInOneTick | google_drive_up_file.py:260-298 | A run delivered onto empty queues and drained by one tick: buttons enabled, log extended by the run's lines, bar on its last value. The link ends as expected for runs whose payloads carry no failure wording. |
| Pipeline.SubmitThenRun | google_drive_up_file.py:318-381 | Composition of submission, run and tick. After a launched submission and a tick over the whole run, browse and upload are enabled and the copy invariant holds. For runs whose payloads carry no failure wording, the field shows the expected link when one was decided. Otherwise it is empty, with copy disabled and nothing to share. |
| Pipeline.SampleIsQuiet | google_drive_up_file.py:86-146 | A private upload with ASCII names that succeeds and is found again has a quiet run: none of its informational lines carries a failure wording, so the whole-run lemmas apply to it. |
| Pipeline.SampleShowsLink | google_drive_up_file.py:116-121 | For that run the expected view is the verified link, and one tick from the initial window shows it in the link field. |

## Left out

- Widgets, layout, dialogs and the `root.after` cadence (lines 156-234, 300, 303):
  - The warning dialogs become the `Warned` verdict.
  - The pipeline lemmas drain a whole run in one tick. A run split over several ticks is covered only by the per-batch lemmas of the polling loop.
- Google API and OAuth calls (`build`, `MediaFileUpload`, `next_chunk`, `files().get`, `permissions().create`, `InstalledAppFlow`, `creds.refresh`): they are foreign library calls, so they become the `Outcomes` record.
- Token file I/O (lines 38-40, 49-50, 65-66): it is collapsed into the `Auth` outcome. An exception escaping from it is `TokenFileFailed`, handled at lines 375-377. A failing `os.remove` after the refresh message is not distinguished from a failed refresh.
- Threading and the unsynchronised writes of `current_shareable_link` and `self.service` from the thread (lines 356, 359): the queues are plain sequences handed over whole.
- The float computation of the chunk percentage (line 102): chunk progress is an abstract integer.
- Chunk calls that return neither a status nor the file (line 101): the list of chunks holds only those that report progress or raise. The final call that returns the file is implicit.
- `webViewLink` missing, which Python would render as `None` in `LINK:None`: links are abstract strings.
- The `if not service` branch of `upload_file_to_drive` (lines 79-81): the thread calls it only with a built service, so it is unreachable from the model.
- Clipboard copy and its 1.5 s button feedback (lines 305-316), and file selection (lines 236-247): outside the upload protocol.
- The log's trailing newline per message (line 252): the log is a list of messages. A message can itself hold a line break, as the refresh failure text of line 48 does.
- Worker.AuthEventsAreChatter: speaks of tags, not of the written strings. An informational line interpolates a payload: the exception text at lines 48, 62 and 72, or the path at line 84. If that payload contains a failure wording, the polling loop reads the line as a failure (line 282) and clears the link. Emissions.WireIsNeverMisread shows that no payload can turn such a line into a link message or the sentinel.
- Worker.RunSummary: the same caveat. Its reference lists count emissions by tag, so an informational line whose payload carries a failure wording is not among them, although the polling loop treats it as a failure. Pipeline.SampleIsQuiet exhibits a run where no payload does this.
- Pipeline.RunShowsView: assumes that no interpolated payload (file name, exception text, link) contains a failure wording, because that cannot be decided from the model. Pipeline.SampleIsQuiet shows that it can be met. The log and button lemmas do not need it.
- Pipeline.RunInOneTick: its link clause rests on the same assumption, for the same reason. An example of a run that breaks it: a public upload whose permission error text (line 143) contains a failure wording. The polling loop then clears the verified link of line 121 (line 282), while the expected view still shows it.
- Pipeline.SubmitThenRun: its expected-link clause rests on the same assumption, for the same reason.
- Pipeline.SampleIsQuiet: the only quiet run exhibited is a private upload. No lemma shows that the text of line 139 carries no failure wording, so no public success run is given as an example.
- Submission does not check that the path names the file chosen in the dialog: the code tests only that the path and name are non-empty, and the model follows the code.
