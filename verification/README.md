# Speakiput: a verified model

Speakiput is a dictation daemon with a desktop client. This project models its logic in Dafny and proves what
users and maintainers rely on. `dafny verify dfyconfig.toml` checks everything.

## Parts

- **Sessions.** `StateMachine.dfy` is the dictation state machine; `Backend.dfy` the lock-protected state with one
  method for each use of the lock; `Sessions.dfy` the daemon as interleaved tasks, each step being one stretch of a
  task between two points where others can run. What speech recognition, language models, focus, output and storage
  answer is arbitrary; session ids are new. `SessionInvariant.dfy` and `SessionSteps.dfy` prove the invariant of all
  interleavings, `SessionTheorems.dfy` what follows from it and `SessionProgress.dfy` that tasks and sessions come to
  their end. `Broadcasts.dfy` says what each step broadcasts, `SessionReports.dfy` and `SessionInsertions.dfy` what a
  final transcript says of what the session was given and of what it inserted, and `Courses.dfy` what requests and
  sessions that nothing comes between do, event by event. `Handlers.dfy` has the text loop and the pipeline
  as they run when nothing comes between, and `Undisturbed.dfy` shows that the step system does the same then.
  `Sys.places`, `Sys.stops` and `Sys.accepted` are history variables: no step looks at them.
- **Deciding on the text.** `LlmText.dfy` cleans replies of language models, `LlmTextLaws.dfy` says what that does
  character by character, and `Pipeline.dfy` decides what is put out.
- **Cutting speech into phrases.** `Segmentation.dfy` says what the phrases of a list of frame energies are,
  `SegmentationLaws.dfy` and `SegmentationTheorems.dfy` what holds of them, `SegmentationExact.dfy` which they
  are; `PhraseSplitter.dfy` is the incremental splitter with its sliding buffer, proved against that;
  `PhraseTheorems.dfy` draws the conclusions in samples.
- **Silence.** `SilenceGate.dfy` is the gate before recognition, `AutoStop.dfy` the silence detector and the loop
  that forwards audio.
- **Prompt echo.** `PromptEcho.dfy` recognises output that repeats its prompt.
- **Storage.** `History.dfy` is the history file with its pages, `SettingsStore.dfy` the settings file.
- **Client and wire.** `Codec.dfy` frames messages, `ClientTable.dfy` matches responses with calls, `ViewModel.dfy`
  and `Controller.dfy` keep the client's picture, `EndToEnd.dfy` connects the daemon's numbering with it and
  `ShownState.dfy` its machine.

## What turned out different from what is promised

- `contracts/v1/README.md:113-115` promises exactly one terminal event for every accepted recording. The code keeps it
  for a session if and only if the stop of that session does not fail to read the settings
  (`apps/speakiputd/src/service.rs:813-817`); a session stopped by silence or cancelled is never at risk. A session
  that is lost so blocks the daemon for ever: `StrandedIff`, `NeverLost`, `ExactlyOneTerminalIff`, `SessionEndsIff`,
  `StrandedForever`, `StrandingHappens`.
- After one missed event the client accepts no further event of the same daemon, because a snapshot of the same daemon
  keeps the last number (`apps/speakiput/src/view_model.rs:81-83`): `AcceptedIffNoneMissed`, `RefusalHappens`.
- A call that enters the client's table after the reader has ended is told nothing by the reader. The daemon closes
  only its half of the connection when it cannot encode a response (`apps/speakiputd/src/server.rs:134-141`), so the
  client's writer may go on: such a call is answered by a later failing write, or by its own hand-over if the writer
  has ended before that; otherwise it waits, and for ever once the writer has ended: `ServedIff`, `UnheardHangs`,
  `HangingHappens`, `HangsForever`.
- A transition is made in one use of the lock and announced in another, so a client that misses nothing can be left
  showing a recording of an idle daemon. It shows the right state exactly if the last announcement was still true when
  it was made: `ShowsMachineIff`, `OrderlyShowsMachine`, `StaleRecordingHappens`.
- The safety rule for terminals depends on the provider cleaning its replies: `TerminalSafetyIff`,
  `EmptyBlockIsInserted`.
- Two writers of settings can overwrite each other unnoticed once revisions have saturated:
  `SecondWriterSucceedsIff`, `OverwritingHappens`.
- Silence ends a phrase under a weaker condition than the search window suggests: exactly if the silence that splits
  is no longer than the longest phrase: `SilenceEndsPhraseIff`.

## Model

| member | source | states |
|---|---|---|
| StateMachines.StateMachine.Transition | crates/speakiput-core/src/state.rs:89-187 | an action either moves the machine as the transition table says, with the session and terminal flag reported, or is refused with the right error and leaves state and active session as they were; the table is in `ActionsAre` |
| StateMachines.StateMachine.RequireActive | crates/speakiput-core/src/state.rs:189-200 | nothing for the active session; a stale-session error for another; an invalid-state error when none is active |
| StateMachines.EveryRun | crates/speakiput-core/src/state.rs:89-187 | after any list of attempted actions a session is active exactly in the busy states, and an accepted step is an edge of the protocol that reports itself truthfully: terminal exactly when a session leaves the stage |
| StateMachines.LateActionsRefused | crates/speakiput-core/src/state.rs:189-200 | in every reachable state an action that names a session other than the active one is refused |
| StateMachines.EdgesExact | crates/speakiput-contract/src/dto.rs:43-69 | the machine takes exactly the edges of the protocol table, in both directions, except that nothing leaves Starting: the table lists edges from it that no action takes |
| Backends.BackendState.EmitEvent | apps/speakiputd/src/service.rs:967-979 | one event is appended to the broadcast with the next number, and nothing else of the shared state changes |
| Backends.BackendState.ApplyTransition | apps/speakiputd/src/service.rs:1001-1011 | the machine alone is moved, or nothing |
| Backends.BackendState.CommitStart | apps/speakiputd/src/service.rs:715-724 | a start that is accepted puts its recording into the shared state in the same use of the lock; a refused one changes nothing |
| Backends.BackendState.CommitStop | apps/speakiputd/src/service.rs:795-806 | an accepted stop takes the recording out of the shared state; a refused one changes nothing |
| Backends.BackendState.CommitCancel | apps/speakiputd/src/service.rs:852-872 | cancels the named session or whichever is active, taking the recording out; with nothing active, or refused, changes nothing |
| Backends.BackendState.CommitAutoStop | apps/speakiputd/src/service.rs:1043-1057 | stops its own session if it is still recording, and otherwise changes nothing |
| SessionSteps.EveryRunOk | apps/speakiputd/src/service.rs:311-1402 | the invariant of the whole daemon holds after every interleaving of handlers, watchers, text tasks and pipelines |
| SessionSteps.PipeActs | apps/speakiputd/src/service.rs:1144-1323 | at each of its lock regions a pipeline finds the machine in the state it relies on: its action is accepted and the invariant kept |
| SessionSteps.Taking | apps/speakiputd/src/service.rs:795-806 | taking the shared recording into a handler's or watcher's hands, by stop, silence or cancel, keeps the invariant |
| SessionSteps.Committed | apps/speakiputd/src/service.rs:715-724 | making a prepared recording the active one keeps the invariant |
| SessionSteps.Rejecting | apps/speakiputd/src/service.rs:774-787 | a start that lost the race stops its capture and aborts its tasks, and the invariant is kept |
| SessionTheorems.AtMostOneTerminal | apps/speakiputd/src/service.rs:1029-1402 | over every run, no session has two terminal events (final transcript or failure) |
| SessionTheorems.ExactlyOneTerminalIff | apps/speakiputd/src/service.rs:811-838 | over every run: an accepted session that has left Recording and whose tasks are done has its terminal event if and only if the settings read of its own stop did not fail; failing reads of other stops or of starts do it no harm |
| SessionTheorems.ExactlyOneTerminal | contracts/v1/README.md:113-115 | the promise of the contract, for every session whose own stop did not fail to read the settings: exactly one terminal event |
| SessionTheorems.StrandedIff | apps/speakiputd/src/service.rs:811-838 | a recording is lost if and only if, at some step of the run, the stop of its own session fails to read the settings |
| SessionProgress.NeverLost | apps/speakiputd/src/service.rs:1030-1071 | a session stopped by silence, cancelled, or whose pipeline has begun is never lost, however the run goes on |
| SessionTheorems.StrandedForever | apps/speakiputd/src/service.rs:811-838 | where the promise fails: after a stop whose settings read fails, whatever happens next, the machine stays transcribing that session, which never gets a terminal event, and no later start is accepted |
| SessionTheorems.StrandingHappens | apps/speakiputd/src/service.rs:811-838 | a concrete run of a fresh daemon that ends in that state |
| SessionTheorems.PipelineNeverRefused | apps/speakiputd/src/service.rs:1137-1323 | for all settings, filler results, replies, timeouts and refusals, every transition a pipeline requests is accepted |
| SessionTheorems.InjectingExactly | apps/speakiputd/src/service.rs:1247-1324 | once the text is decided on, the session holds Injecting exactly when it is to insert and until the insertion is reported; before the final transcript it has given the machine back |
| SessionTheorems.InsertionsExclusive | apps/speakiputd/src/service.rs:1278-1324 | no two insertions overlap: a task inserts only while its own session holds Injecting; it never inserts an empty or a refused text, nor, into a terminal, text of the shipped provider with a line break; and none ever inserts when the output mode is none, so the branch at 1288 is never reached |
| SessionTheorems.RecordingExactly | apps/speakiputd/src/service.rs:34-38 | in every reachable state the shared recording is present exactly while the machine is Recording, and is the active session's |
| SessionTheorems.CapturesConserved | apps/speakiputd/src/service.rs:708-788 | every prepared capture is in one place: with exactly one task, in the shared state, or stopped exactly once; or lost by a failing settings read |
| SessionTheorems.EventsNumbered | apps/speakiputd/src/service.rs:967-979 | events of all tasks are numbered 1, 2, 3, … without gap or repetition, up to saturation |
| SessionTheorems.TextsGrow | apps/speakiputd/src/service.rs:251-272 | each partial text of a session properly extends all earlier ones; the final transcript repeats the last partial, or is empty, and no partial follows it |
| SessionTheorems.OnlyItsTasks | apps/speakiputd/src/service.rs:795-831 | every step of the machine is an edge of the protocol, and while a session is active only tasks that act for it move the machine |
| SessionTheorems.ShortcutCannotStopNewer | apps/speakiputd/src/service.rs:119-146 | a shortcut that saw one session recording becomes a stop of that session; at whatever later point of the run it is carried out, it does nothing once that session is over |
| SessionTheorems.OverForGood | apps/speakiputd/src/service.rs:708-724 | an accepted session that is no longer active never becomes active again |
| Courses.StartCourse | apps/speakiputd/src/service.rs:708-735 | a start that nothing comes between makes its new session the one that is recorded, collects its texts, and announces exactly Idle to Recording |
| Courses.SecondStart | apps/speakiputd/src/service.rs:774-787 | a start that comes second stops its own capture, aborts its tasks, and changes nothing else |
| Courses.ShortcutCourse | apps/speakiputd/src/service.rs:119-146 | the shortcut becomes a start when the machine is idle, a stop of the session it finds recording, and else nothing |
| Courses.StopCourse | apps/speakiputd/src/service.rs:795-838 | a stop of the session that is recorded takes the recording, announces exactly Recording to Transcribing and begins the pipeline |
| Courses.SilenceCourse | apps/speakiputd/src/service.rs:1043-1071 | so does its silence watcher when the signal comes |
| Courses.CancelCourse | apps/speakiputd/src/service.rs:852-893 | a cancel of the session that is recorded, or of whatever is, stops the capture once, aborts the tasks, leaves the machine idle, and announces the transition and the cancelled session |
| Courses.TooLate | apps/speakiputd/src/service.rs:795-872 | a stop, cancel or silence signal of any other session changes nothing |
| Courses.TextCourse | apps/speakiputd/src/service.rs:251-272 | the text task of the step system that nothing comes between collects the same text and announces the same partials as the loop |
| Courses.JoinedTogether | apps/speakiputd/src/service.rs:258-266 | the collected text of two stretches of pieces is theirs with one space between |
| Courses.PiecesTogether | apps/speakiputd/src/service.rs:255-258 | blank pieces are dropped and the others kept in order; `OnePiece` says each is trimmed |
| Courses.AnnouncementsAre | apps/speakiputd/src/service.rs:259-268 | after each piece the whole text so far is announced |
| Courses.PipelineCourse | apps/speakiputd/src/service.rs:1137-1372 | every event of a session whose text is complete, told from the settings, the texts and the replies it was given, with the numbers it gets |
| Courses.FailedCourse | apps/speakiputd/src/service.rs:1376-1402 | every event of a session whose tasks do not end well |
| Courses.SaidIs | apps/speakiputd/src/service.rs:967-979 | what announcing a list of events does to the broadcast, its numbers, and nothing else |
| SessionReports.FinalsReportDecisions | apps/speakiputd/src/service.rs:1137-1372 | over every run: a session's final transcript quotes, field by field, what came of what its own pipeline was given in that run: the transcript; the clean-up's reply, or else the transcript after the filler setting; the rewriting's reply if that stage ran and said something; the text put out; and skipped exactly if the decision was not to insert |
| SessionInsertions.FinalsReportInsertions | apps/speakiputd/src/service.rs:1269-1364 | over every run: a session inserts at most one text; its final transcript says skipped if and only if it has inserted none in that run, and otherwise gives the text that was inserted |
| Broadcasts.StepEmits | apps/speakiputd/src/service.rs:967-999 | what each step of the daemon adds to the broadcast: the one event of its task, or nothing |
| SessionProgress.TasksEnd | apps/speakiputd/src/service.rs:1101-1402 | each step of a task that does not wait brings it nearer to its end |
| SessionProgress.EveryTaskEnds | apps/speakiputd/src/service.rs:311-1402 | over every run: a task that has gone on 26 times is done, however steps of others fall in between |
| SessionProgress.SessionEndsIff | contracts/v1/README.md:113-115 | over every run: once the task that has an accepted session in its hands has gone on 22 times, the session has its terminal event, if and only if its own stop did not fail to read the settings |
| SessionProgress.BusyHasWorkerIff | apps/speakiputd/src/service.rs:1101-1402 | no deadlock: while a session keeps the machine busy after recording, a task of that session is at work on it, if and only if its own stop did not fail to read the settings |
| Handlers.CollectText | apps/speakiputd/src/service.rs:251-272 | the text task returns the trimmed, non-blank pieces joined by spaces, and announces each longer text once, in order |
| Handlers.FailSession | apps/speakiputd/src/service.rs:1376-1402 | undisturbed, for every state of the machine: if the machine accepts the failure it goes through Error to Idle with both announced around the failure event; otherwise the failure is only reported, and an Error that is found is cleared; the three courses are in `FailureIs`, event by event |
| Handlers.CompleteTranscription | apps/speakiputd/src/service.rs:1137-1153 | the machine goes to post-processing, injecting or idle as the job needs, and says so |
| Handlers.Output | apps/speakiputd/src/service.rs:1247-1372 | undisturbed, from any state the job was sent to: inserts the decided text exactly if decided, in the order of events the protocol shows, and ends idle |
| Handlers.RunPipeline | apps/speakiputd/src/service.rs:1101-1374 | undisturbed, the whole pipeline: either its failure course, or exactly the course of events of its decision, with the insertion that was decided; the machine ends idle |
| Handlers.Deliver | apps/speakiputd/src/service.rs:1278-1324 | the decided text is inserted if it is to be, while the machine is injecting, and then reported |
| Handlers.Report | apps/speakiputd/src/service.rs:1326-1372 | the history entry is announced if it was taken, and the final transcript ends the session |
| Undisturbed.UndisturbedPipeline | apps/speakiputd/src/service.rs:1101-1402 | the pipeline of the step system, run without interruption, leaves the same machine and the same broadcast, numbers included, as the pipeline method |
| EndToEnd.WholeStreamAccepted | apps/speakiput/src/view_model.rs:142-165 | in every run of the daemon, a client that has taken a snapshot and misses no event has every one accepted |
| EndToEnd.StreamAccepted | apps/speakiput/src/view_model.rs:159-168 | after the first event it sees, the number a client remembers is that of the last event broadcast to it |
| EndToEnd.SentShows | apps/speakiput/src/view_model.rs:169-219 | what the user sees of each event of the daemon that is accepted |
| Pipeline.DecisionFitsState | apps/speakiputd/src/service.rs:1137-1150 | a session that skips post-processing was sent to Injecting exactly when it will insert |
| Pipeline.DecisionIs | apps/speakiputd/src/service.rs:1129-1247 | what is put out, when it is refused and when it is inserted, told from the settings, the transcript and the replies alone: inserted exactly if the output mode is not none, the transcript after the filler setting is not blank, and the text is neither refused nor empty |
| Pipeline.PlanIs | apps/speakiputd/src/service.rs:1129-1153 | where completing the transcription leads, told from the settings and the transcript |
| Pipeline.RefusedExactly | apps/speakiputd/src/service.rs:1233-1247 | text is refused exactly if it came from a model, a terminal has the focus and the cleaned text has a line break; refused text is not inserted, and text not from a model is put out unchanged |
| Pipeline.TerminalSafetyIff | apps/speakiputd/src/service.rs:1238-1247 | model text inserted into a terminal has a line break if and only if cleaning empties it |
| Pipeline.EmptyBlockIsInserted | apps/speakiputd/src/service.rs:1241 | such a text: a fenced block around nothing, from a provider that does not clean its replies, is inserted with its line break |
| Pipeline.ProvidedNeverEmpty | apps/speakiputd/src/service.rs:1238-1247 | text that came through the shipped provider is never found empty again, is put out as it is, and is refused exactly for a line break in a terminal |
| Pipeline.OneModelStage | apps/speakiputd/src/service.rs:1157-1231 | at most one provider's reply counts; without one the transcript after the filler setting is put out as it is, inserted exactly if the output mode is not none and it is not blank |
| LlmText.CleanedShape | crates/speakiput-llm/src/lib.rs:199-225 | cleaned text is trimmed, has no carriage return, and is not itself a fenced block |
| LlmText.CleaningIsIdempotent | crates/speakiput-llm/src/lib.rs:199-233 | cleaning twice is cleaning once |
| LlmText.CleaningUnwraps | crates/speakiput-llm/src/lib.rs:210-225 | a fenced block with a language tag is cleaned to its trimmed content |
| LlmText.ProviderReplyIsInsertable | crates/speakiput-core/src/insertion.rs:13-22 | a reply that came through the shipped provider is inserted as it is, or refused exactly for a line break in a terminal; never empty |
| LlmText.OnlyFencesCleanToNothing | crates/speakiput-llm/src/lib.rs:199-225 | a reply that is not blank but cleans to nothing has line breaks: it is a fenced block around nothing |
| LlmText.NormalizeKeeps | crates/speakiput-llm/src/lib.rs:200-203 | unifying line ends neither adds nor removes line breaks from a text that has none or some, and keeps blank texts blank |
| LlmTextLaws.PairBecomesLf | crates/speakiput-llm/src/lib.rs:200-203 | each CR LF pair becomes one LF, whatever stands before and after it |
| LlmTextLaws.OthersStay | crates/speakiput-llm/src/lib.rs:200-203 | every other CR becomes one LF, and every other character stays as and where it is |
| LlmTextLaws.CleaningIs | crates/speakiput-llm/src/lib.rs:200-233 | cleaning leaves the trimmed content if the text, with its line ends unified and trimmed, is one fenced block, and otherwise that text |
| LlmTextLaws.ContentIsFenced | crates/speakiput-llm/src/lib.rs:210-233 | content is found only in a text that is one line of three back ticks with at most a language tag, the content, and three back ticks, with no others anywhere |
| LlmTextLaws.PlainTextIsTrimmed | crates/speakiput-llm/src/lib.rs:200-225 | a text without CR and without three back ticks is only trimmed, and is a reply, and to be inserted, as that says |
| LlmTextLaws.TrimTakes | crates/speakiput-llm/src/lib.rs:200-203 | trimming takes white space off both ends and nothing else |
| LlmTextLaws.OccursIff | crates/speakiput-llm/src/lib.rs:214-222 | a part occurs in a text exactly if some stretch of the text is it |
| PhraseSplitting.PhraseSplitter.Feed | crates/speakiput-audio/src/phrase_split.rs:79-89 | after any chunk the splitter has emitted exactly the phrases of the frame list of everything fed, and its buffer, energies and counters are those of that list |
| PhraseSplitting.PhraseSplitter.Flush | crates/speakiput-audio/src/phrase_split.rs:91-105 | returns the rest of the open phrase, cut after the padding, if it holds enough speech; then starts afresh |
| PhraseSplitting.PhraseSplitter.ProcessFrame | crates/speakiput-audio/src/phrase_split.rs:107-137 | one frame more: idle, open, ended by silence or cut, as the frame list says |
| PhraseSplitting.PhraseSplitter.EndPhrase | crates/speakiput-audio/src/phrase_split.rs:139-157 | emits the phrase with its padding if it holds enough speech, and keeps the frames after it |
| PhraseSplitting.PhraseSplitter.ForceSplit | crates/speakiput-audio/src/phrase_split.rs:159-189 | emits everything before the quietest frame and recounts what is left |
| PhraseSplitting.PhraseSplitter.QuietestFrame | crates/speakiput-audio/src/phrase_split.rs:159-170 | the search finds the first frame of least energy in its window, which is never empty |
| PhraseSplitting.PhraseSplitter.DropFrames | crates/speakiput-audio/src/phrase_split.rs:191-197 | drops whole frames, samples and energies alike |
| PhraseSplitting.PhraseSplitter.New | crates/speakiput-audio/src/phrase_split.rs:36-48 | the production parameters; a pause is the least number of 100 ms frames that covers the given silence, and at least one |
| PhraseSplitting.PhraseSplitter.WithParams | crates/speakiput-audio/src/phrase_split.rs:50-77 | the bounds every parameter is raised to (outright in `ClampedIs`), and the empty state |
| PhraseSplitting.EnergyOfFrame | crates/speakiput-audio/src/phrase_split.rs:79-89 | the k-th energy is that of the k-th stretch of a frame's samples |
| PhraseSplitting.FrameMatches | crates/speakiput-audio/src/phrase_split.rs:107-189 | the in-place update of one frame agrees with the frame-list specification, with all its invariants (the emission start is frame 0, the phrase starts within the padding, counts are exact, idle frames are silent) |
| PhraseSplitting.RestInBuffer | crates/speakiput-audio/src/phrase_split.rs:91-105 | what a flush returns is found in the buffer |
| PhraseTheorems.AnyChunking | crates/speakiput-audio/src/phrase_split.rs:79-105 | however a recording is cut into chunks, the splitter emits the same phrases, is left in the same live state, and flushes the same rest |
| PhraseTheorems.SplitChunks | crates/speakiput-audio/src/phrase_split.rs:79-105 | a splitter fed with chunks has emitted the phrases of all they hold together, and a flush adds the rest of the open phrase |
| PhraseTheorems.HistoryDecides | crates/speakiput-audio/src/phrase_split.rs:79-189 | two splitters fed the same samples in whatever chunks are in the same state |
| PhraseTheorems.PhrasesAreOffline | crates/speakiput-audio/src/phrase_split.rs:79-189 | the emitted phrases are those of segmenting the complete recording phrase by phrase |
| PhraseTheorems.PhraseBounds | crates/speakiput-audio/src/phrase_split.rs:107-176 | every phrase is a contiguous slice of the fed samples, between the shortest phrase and (max + pad) frames long |
| PhraseTheorems.RestBounds | crates/speakiput-audio/src/phrase_split.rs:91-105 | so is the phrase a flush returns |
| PhraseTheorems.RestIsLastPiece | crates/speakiput-audio/src/phrase_split.rs:91-105 | the phrase a flush returns is the last piece of the recording, closed as silence would close it, with the samples of an incomplete frame if it reaches the end |
| PhraseTheorems.ReturnedInOrder | crates/speakiput-audio/src/phrase_split.rs:79-157 | of all phrases handed out, the flushed one included, each starts behind every earlier one in the recording and shares at most min(split, 2 * pad - split) frames of samples with it, none if another lies between or split >= 2 * pad |
| PhraseTheorems.KeptIsReturned | crates/speakiput-audio/src/phrase_split.rs:79-157 | no phrase is withheld: every piece of the recording that is kept is returned with all its samples |
| PhraseTheorems.FlushKeepsVoiced | crates/speakiput-audio/src/phrase_split.rs:91-105 | a frame at or above the threshold that is still buffered at the end is part of what the flush returns, at its place, or is one of fewer than a phrase needs |
| PhraseTheorems.BufferBounded | crates/speakiput-audio/src/phrase_split.rs:79-89 | between feeds the buffer stays below (max + pad) frames |
| PhraseTheorems.PhrasesPassGate | crates/speakiput-audio/src/silence.rs:52-75 | with the production parameters at 16 kHz no phrase is rejected before decoding as empty or too short |
| SegmentationTheorems.OfflineAgrees | crates/speakiput-audio/src/phrase_split.rs:107-189 | frame-by-frame segmentation equals segmentation of the complete recording, phrase by phrase |
| SegmentationTheorems.RecordingKept | crates/speakiput-audio/src/phrase_split.rs:91-189 | of a recording that is fed and then flushed, every frame at or above the threshold is in exactly one piece, and every piece is an emitted or flushed phrase or was discarded for too little speech; forced cuts lose nothing |
| SegmentationTheorems.RecordingInOrder | crates/speakiput-audio/src/phrase_split.rs:91-176 | all phrases of a recording, the flushed one included, start in strictly increasing order; they are disjoint if split >= 2 * pad, and otherwise only neighbours share frames, at most min(split, 2 * pad - split), all silent |
| SegmentationTheorems.VoicedFramesKept | crates/speakiput-audio/src/phrase_split.rs:107-189 | between feeds, every such frame is still buffered or in exactly one finished piece, and a finished piece is a phrase or was discarded |
| SegmentationTheorems.PhrasesInOrder | crates/speakiput-audio/src/phrase_split.rs:107-176 | between feeds, the phrases emitted so far are ordered and overlap in the same way |
| SegmentationTheorems.PhraseSizes | crates/speakiput-audio/src/phrase_split.rs:107-189 | bounds of phrases and of what stays buffered, in frames |
| SegmentationTheorems.SilenceEndsPhraseIff | crates/speakiput-audio/src/phrase_split.rs:124-189 | 2 * split - 1 silent frames end every open phrase, whatever forced cuts recount meanwhile, if and only if split <= max |
| SegmentationTheorems.SilenceEnds | crates/speakiput-audio/src/phrase_split.rs:124-157 | the number of further silent frames that end the open phrase, from any reachable state |
| SegmentationTheorems.NeverEnds | crates/speakiput-audio/src/phrase_split.rs:124-136 | with max < split silence never ends a phrase |
| SegmentationTheorems.PiecesGrow | crates/speakiput-audio/src/phrase_split.rs:79-89 | more frames only add phrases |
| SegmentationLaws.QuietestIsFirstMinimum | crates/speakiput-audio/src/phrase_split.rs:163-170 | the frame of a forced cut is the first of least energy in the window |
| SegmentationExact.PiecesExactly | crates/speakiput-audio/src/phrase_split.rs:107-189 | for every list of energies, without counters: each piece begins at the first frame that reaches the threshold with the padding left before it, or right at a forced cut; it ends with the first pause of `split` quiet frames, with min(pad, split) of them, or, if none comes within the longest phrase, at the first least loud frame of the search window; and it is kept exactly if enough frames reach the threshold or it was cut |
| SegmentationExact.FlushedExactly | crates/speakiput-audio/src/phrase_split.rs:91-105 | the same of the piece a flush closes |
| SegmentationLaws.Structure | crates/speakiput-audio/src/phrase_split.rs:107-189 | the invariant of the segmentation after every number of frames: pieces in order, nothing owned twice or by none |
| AutoStop.AutoStopDetector.Feed | crates/speakiput-audio/src/silence.rs:113-138 | after any history of chunks the counters are those of the history, and the detector fires exactly when the history says so |
| AutoStop.AutoStopDetector.WithConfirmation | crates/speakiput-audio/src/silence.rs:98-111 | timeout and confirmation are the whole samples of the given milliseconds, the timeout at least one |
| AutoStop.AutoStopDetector.Reset | crates/speakiput-audio/src/silence.rs:140-144 | the history is forgotten |
| AutoStop.FiresIff | crates/speakiput-audio/src/silence.rs:113-138 | it fires if and only if some chunk confirmed speech, no later one did, and the samples since then fill the timeout |
| AutoStop.ConfirmsIff | crates/speakiput-audio/src/silence.rs:116-126 | a chunk confirms speech if and only if it ends a stretch of voiced chunks of enough samples |
| AutoStop.SamplesSplit | crates/speakiput-audio/src/silence.rs:113-138 | samples add up chunk by chunk |
| SilenceGate.GateIs | crates/speakiput-audio/src/silence.rs:52-78 | which audio is rejected and why; too short means exactly that it lasts less than the least duration |
| AutoStop.ForwardAudio | apps/speakiputd/src/service.rs:217-237 | recognition is passed exactly the chunks up to and including the first that fires, as long as it takes them; the signal is sent exactly if that chunk was taken |
| PromptEcho.LongestCommonWordRun | crates/speakiput-asr/src/prompt_echo.rs:44-68 | the result is the length of some contiguous run of words common to both lists, and no common run is longer |
| PromptEcho.FillRow | crates/speakiput-asr/src/prompt_echo.rs:52-63 | one row of the table holds the run that ends at each word, and the best so far stays the best |
| PromptEcho.Normalize | crates/speakiput-asr/src/prompt_echo.rs:5-23 | the lower-cased words of the text, joined by single spaces |
| PromptEcho.WordsTogether | crates/speakiput-asr/src/prompt_echo.rs:5-23 | anything that is no word character ends a word and leaves no other trace |
| PromptEcho.OneWord | crates/speakiput-asr/src/prompt_echo.rs:5-23 | word characters in a row are one word, each lower-cased |
| PromptEcho.JoinedWords | crates/speakiput-asr/src/prompt_echo.rs:35-36 | splitting normalised text at white space gives its words back |
| PromptEcho.IsPromptEcho | crates/speakiput-asr/src/prompt_echo.rs:25-42 | true exactly if the normalised response is long enough and is part of the normalised prompt, or shares a run of at least six words and seven tenths of it |
| PromptEcho.RepetitionEchoes | crates/speakiput-asr/src/prompt_echo.rs:32-34 | a repetition of the prompt is an echo, unless it is too short |
| History.JsonlHistoryRepository.AllEntries | crates/speakiput-storage/src/lib.rs:204-215 | the entries of the readable lines before the first unreadable one, in file order |
| History.JsonlHistoryRepository.Append | crates/speakiput-storage/src/lib.rs:219-231 | one line is added at the end |
| History.JsonlHistoryRepository.List | crates/speakiput-storage/src/lib.rs:233-253 | for every limit and cursor text: the entries from the cursor on, newest first, as many as the limit and the file allow, and the cursor of the next page exactly if there is more; a cursor that is no number is the start |
| History.ListedIs | crates/speakiput-storage/src/lib.rs:233-253 | the same of the listing that clients follow |
| History.EntriesTogether | crates/speakiput-storage/src/lib.rs:204-215 | a file is read line by line, up to the first unreadable one; `LineCounts` says what each line counts for |
| History.JsonlHistoryRepository.Clear | crates/speakiput-storage/src/lib.rs:255-262 | the file is gone |
| History.CursorRoundTrip | crates/speakiput-storage/src/lib.rs:238-251 | a printed cursor is read back as its number |
| History.LongerNumber | crates/speakiput-storage/src/lib.rs:238-240 | which cursor texts are numbers, and which numbers, one digit at a time, as far as 64 bits go; `OneDigitNumber` and `SignedNumber` say where that begins |
| History.FollowedYieldsAll | crates/speakiput-storage/src/lib.rs:233-253 | following the cursors from the start ends and yields every entry once, newest first, for every requested page size |
| History.NeverSkips | apps/speakiputd/src/service.rs:590-606 | with entries appended between pages a client still reads every entry that was there at the start, at least as often as it occurs |
| History.AppendedIsListedIff | crates/speakiput-storage/src/lib.rs:209-214 | an appended entry is listed if and only if no earlier line is unreadable; lines that are merely no entry do no harm |
| SettingsStore.JsonSettingsRepository.Load | crates/speakiput-storage/src/lib.rs:133-143 | defaults at revision 0 for an absent file, an error for one that is corrupt or invalid |
| SettingsStore.JsonSettingsRepository.Replace | crates/speakiput-storage/src/lib.rs:152-177 | a writer that has seen the current revision replaces the settings; every error leaves the file as it was |
| SettingsStore.ReadBack | crates/speakiput-storage/src/lib.rs:147-177 | a success is read back as it was answered; a failure changes nothing |
| SettingsStore.SecondWriterSucceedsIff | crates/speakiput-storage/src/lib.rs:160-171 | of two writers that have seen the same revision the second succeeds if and only if revisions have saturated |
| SettingsStore.OverwritingHappens | crates/speakiput-storage/src/lib.rs:160-171 | with the largest revision stored, two such writers both succeed and the first settings are gone |
| ViewModels.GuiViewModel.ApplyEvent | apps/speakiput/src/view_model.rs:142-220 | what is shown after an event, and why it was refused; `EventIs` and `RefusedIs` say both outright |
| ViewModels.GuiViewModel.ApplySnapshot | apps/speakiput/src/view_model.rs:74-92 | what is shown after a snapshot; the last number is forgotten only for another daemon; outright in `SnapshotIs` |
| ViewModels.GuiViewModel.ApplySettings | apps/speakiput/src/view_model.rs:94-108 | settings and revision are those of the response; outright in `SettingsAre` |
| ViewModels.LevelInRange | apps/speakiput/src/view_model.rs:188-192 | whatever arrives, the level shown is between 0 and 1 |
| ViewModels.RefusedChangesNothing | apps/speakiput/src/view_model.rs:149-167 | a gap or an event of another daemon changes no field |
| ViewModels.EventsConsecutive | apps/speakiput/src/view_model.rs:142-168 | for any mix of lost, repeated, reordered and foreign messages, the events let through within one daemon's life have consecutive numbers |
| Controllers.GuiController.NextEvent | apps/speakiput/src/controller.rs:215-228 | an event is applied, or state and settings are fetched anew, or an error says why not; which error is in `RoundFails` |
| Controllers.GuiController.StartOrStop | apps/speakiput/src/controller.rs:112-138 | the command sent is the one the shown state allows, for the session shown; otherwise none is sent and nothing changes |
| Controllers.RoundOutcome | apps/speakiput/src/controller.rs:215-228 | a successful round either applied the next event or left state, session, settings and revision equal to freshly fetched answers |
| EndToEnd.AcceptedIffNoneMissed | apps/speakiput/src/view_model.rs:81-83 | end to end: of the events of a daemon's broadcast that reach a client after its snapshot, each is accepted if and only if none has been missed since the first; fetching the state of the same daemon again does not help |
| EndToEnd.RefusalHappens | apps/speakiput/src/view_model.rs:81-83 | a run of a fresh daemon with three events, of which the second is missed: the third is refused, whatever the client is answered |
| ShownState.ShowsMachineIff | apps/speakiputd/src/service.rs:981-999 | over every run: once every transition has been announced, a client that missed nothing, wherever in the stream its snapshot was taken, shows the machine's state and session if and only if the last announcement was still true when it was made |
| ShownState.OrderlyShowsMachine | apps/speakiputd/src/service.rs:981-999 | it does if nobody moves the machine while a transition has still to be announced |
| ShownState.StaleRecordingHappens | apps/speakiputd/src/service.rs:715-735 | a run in which the daemon is idle with everything announced, and such a client shows a recording: the start was announced after the cancel that ended it |
| ShownState.StepMakes | apps/speakiputd/src/service.rs:981-999 | in every state that satisfies the invariant of all runs, whoever moves the machine has exactly that state left to announce, in a later step |
| Controllers.LastNumberAfter | apps/speakiput/src/controller.rs:215-228 | the number remembered after a round, in every case |
| Codec.EncodeFrame | crates/speakiput-contract/src/codec.rs:25-44 | the frame of a valid envelope within the limit, or the reason there is none |
| Codec.EncodedIs | crates/speakiput-contract/src/codec.rs:25-44 | a frame is four length bytes, the most significant first, and the text; there is one exactly if the envelope is valid and the text at most 1 048 576 bytes long, and otherwise the reason is named |
| Codec.ByteStream.WriteFrame | crates/speakiput-contract/src/codec.rs:70-73 | a frame that fits is appended; otherwise what fits of it is, and the write fails; without a frame nothing is |
| Codec.ByteStream.ReadFrame | crates/speakiput-contract/src/codec.rs:75-103 | the first frame of the stream and what is left of it, or the reason; outright in `FirstFrameIs`, and what is complained about in `ValidateIs` |
| Codec.FrameRoundTrip | crates/speakiput-contract/src/codec.rs:25-103 | an encoded envelope is decoded, and read from a stream, as itself, leaving what follows untouched |
| Codec.StreamRoundTrip | crates/speakiput-contract/src/codec.rs:70-103 | a list of messages written one after the other is read back as that list, up to the end of the stream |
| Codec.DecodeIsReadingAll | crates/speakiput-contract/src/codec.rs:46-68 | a byte string decodes to an envelope if and only if reading it as a stream gives that envelope and leaves nothing |
| Codec.ReadersDifferOnlySo | crates/speakiput-contract/src/codec.rs:46-103 | decoding and reading give the same error, except what they say of a short payload and of bytes after the frame |
| Codec.ReadAsyncFrame | crates/speakiput-client/src/unix.rs:153-174 | what the client reads off a stream, and what it leaves, for every stream |
| Codec.ClientReadsTheSame | crates/speakiput-client/src/unix.rs:153-174 | on every stream, short, oversized or malformed, the client's reader takes the same bytes as reading a frame, gives the same envelope, and fails exactly when that fails |
| Codec.BigEndianRoundTrip | crates/speakiput-contract/src/codec.rs:34-41 | the length is read back from its four bytes |
| Codec.ValidNameIff | crates/speakiput-contract/src/envelope.rs:178-196 | a message name is valid exactly if it has a dot, does not end in one, and has a lower-case letter first and after every dot and only lower-case letters, digits and underscores elsewhere |
| ClientTable.PendingRequests.Insert | crates/speakiput-client/src/unix.rs:130-133 | the call enters; a call already waiting under the id is dropped |
| ClientTable.PendingRequests.FailOne | crates/speakiput-client/src/unix.rs:176-184 | the sender under an id is taken out and used once |
| ClientTable.PendingRequests.FailAll | crates/speakiput-client/src/unix.rs:186-199 | every waiting call is told that the transport is closed, and the table is empty |
| ClientTable.EveryRunOk | crates/speakiput-client/src/unix.rs:28-144 | the invariant of callers, reader and writer over every interleaving |
| ClientTable.OwnAnswerOnly | crates/speakiput-client/src/unix.rs:59-75 | a call ends with a response to its own id or with a failure |
| ClientTable.RepliesWereTold | crates/speakiput-client/src/unix.rs:59-144 | over every run: whatever a call was told or ends with, some step of the run told it; an answer and its error flag are those of a response to its own request |
| ClientTable.AnswerArrives | crates/speakiput-client/src/unix.rs:59-75 | a response that is read while its call waits is what the call ends with |
| ClientTable.PendingExactly | crates/speakiput-client/src/unix.rs:121-144 | an unanswered call is in the table under its id exactly if nothing has been delivered to it |
| ClientTable.AnsweredOnce | crates/speakiput-client/src/unix.rs:121-144 | once answered, a call keeps its answer for ever |
| ClientTable.StepSettles | crates/speakiput-client/src/unix.rs:121-144 | what was delivered to a call is what it ends with, unless its own hand-over failed |
| ClientTable.ServedIff | crates/speakiput-client/src/unix.rs:37-58 | over every run, once the reader has ended: a call has been told something if and only if it entered before that end, or one of the later steps told it: a write that failed, for its own request or for all, or its own hand-over to a writer that had ended |
| ClientTable.UnheardHangs | crates/speakiput-client/src/unix.rs:37-75 | a run in which a call that enters after the reader's end has its request written and waits with nothing delivered, the writer alive |
| ClientTable.HangingHappens | crates/speakiput-client/src/unix.rs:186-199 | a run in which a call enters after all others were failed and is handed over before the writer has ended: it waits with nothing delivered |
| ClientTable.HangsForever | crates/speakiput-client/src/unix.rs:37-58 | once reader and writer have ended, a call that waits with nothing delivered does so in every continuation that does not reuse its id |

## Left out

- Task control flow in `apps/speakiputd/src/service.rs`: between two uses of the lock, handlers, watchers, text tasks
  and pipelines are program counters of a step system on values. The uses of the lock are methods of a class over the
  same functions, and `Handlers.dfy` has the text loop and the pipeline in imperative form, without interleaving.
- The order of `state.changed` events among themselves: nothing is claimed about each starting where the one before
  ended; what they amount to for a client is in `ShownState.dfy`, without the record button's own change to the
  picture.
- Partial texts after `session.failed`: the text task is left running on an early pipeline error, so only
  `transcript.final` is claimed to be followed by no partial.
- How a text was inserted: a final transcript says whether insertion was skipped, not by which method it was made or
  whether that failed, nor duration, language and backend.
- JSON: converting the final event to JSON is taken to succeed; the text of an envelope is a printer and a parser
  that give every valid envelope back. A history line cut short by a crash is not modelled.
- The level meter task and the other events (settings, history cleared): they may be broadcast at any time.
- Aborting a session's text task takes effect with the capture's stop; the model also lets it break at any time.
- Time: a language model that is too slow is an arbitrary answer, the refocusing of the window after a start has no
  effect on the model.
- Energies and thresholds are real numbers: rounding and not-a-number are not modelled, and the root mean square of a
  frame is an arbitrary function of its samples.
- Which characters are alphanumeric and how they are lower-cased are parameters; the latter gives at least one
  character and no white space. The filter for filler words is an arbitrary text.
- Machine arithmetic saturates at 64 bits where the program says so (event numbers, revisions, cursors, sample
  counts). `History.FollowedYieldsAll` and `History.NeverSkips` assume no more entries than a 64-bit count can hold.
- `Action::Shutdown` is in the machine; no task of the service uses it.
- Requests for settings, devices, backends, diagnostics and credentials, the validation of settings, and the fields of
  the client that are merely assigned from responses.
- I/O errors of the history file; those of the settings file are one flag at the write.
- The client's writer when all handles are gone, and the fixed capacity of channels: handing over may wait, which
  other steps then overtake.
- The in-memory client, the Unix server, platform adapters, Whisper inference, HTTP, keyring, user interface, tray,
  overlay, resampler and the migration of old settings.
