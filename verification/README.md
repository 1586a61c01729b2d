# Vaani, verified

Vaani is a real-time voice-agent server: it answers and places telephone calls over Asterisk, feeds
the caller's speech to an STT, a language model's answer to a TTS, and dials campaigns. This project
models the step protocols and stream transformers under its I/O and proves what their comments
promise, over every run.

Each component has two sides. Its *specification* is a value and pure step functions, one atomic
step for each locked region, statement or event; the lemmas are about runs of those steps. Where the
source updates an object in place there is also a *class* with loops, arrays and fields whose
methods are proved to take exactly those steps.

| component | specification and theorems | object |
|---|---|---|
| agent turn protocol | `TurnSpec`, `TurnSafety`, `TurnFidelity`, `TurnMemory`, `TurnRules`, `TurnHazards` | `TurnHandler` |
| tool rounds, plain history | `ToolRounds`, `PlainHistories`, `Messages` | the same |
| TTS connection | `TtsQueue`, `TtsReader`, `TtsDelivery` | `TtsClients` |
| jitter buffer | `SerialNumbers`, `JitterSpec`, `JitterRefinement`, `JitterMaps`, `JitterHealing`, `JitterSelfHealing`, `JitterWrap`, `JitterRecovery` | `JitterBuffers` |
| call lifecycle | `CallLifecycle`, `CallSafety`, `CallCore`, `CallPorts`, `CallOutcomes`, `CallEndings`, `CallProgress`, `CallHangups`, `CallHazards` | `CallManagers`, `PortAllocators` |
| campaign dialer | `DialerSpec`, `DialerSafety`, `DialerContacts`, `DialerProgress`, `DialerCompletion`, `DialerHazards` | `DialerStores` |
| limiters | `RateWindow`, `SlotLimits`, `LiveSlots` | `SlotLimits.Limiter` |
| sentence chunker, STT gate, tool calls, ESL | `SentenceChunks`, `SpeechGate`, `ToolCallStreams`, `EslClients` | the same |
| LLM retries, background extractions | `LlmRetries`, `Extractions` | |

The parts compose: the order of TTS events the turn protocol needs (`TurnSafety.Enabled`,
`TurnFidelity.InOrder`) is what the TTS client of `TtsQueue` and its reader deliver, except for the
race `TtsReader` describes (`TtsDelivery.ConnectionFeedsTheTurn`); the tool messages a turn records
are whole blocks by `ToolRounds.TurnsAreWhole`; what a dial promises the dialer is
`CallOutcomes.EveryDialHasOneOutcome`, and the one way it breaks that promise is what
`DialerCompletion` singles out.

## What does not hold as documented

Each is kept as the code has it, with the exact condition under which the property holds and an input
or a run from the start on which it fails.

- Jitter slots `seq % size` are one per sequence number on every window exactly when the size divides
  65536. The default size 3 does not: packets around 65535 -> 0 can be taken for one another, and a
  stream that was played in order until then loses a packet there
  (`JitterWrap.RingHealsExactlyWhenSizeDivides`; on `JitterWrap.WrapLosesPacket`). From whatever state
  that leaves, it is soon played in order again (`JitterRecovery.RingRecovers`).
- A confirmed interruption does not cancel a replay in progress or pending: the next reply starts
  with the rest of the sentence that was cut (`TurnSafety.TranscriptKeeps`; in
  `TurnHazards.CutSentenceCall`).
- A connection lost between a reply's last frame and the end of its turn leaves "delivery done" set,
  and the next reply ends at its first empty tick (`TurnSafety.ClosedKeeps`; in
  `TurnHazards.EarlyEndCall`).
- The playback-done and drain-timeout signals can be overtaken before they are handled. A caller who
  cuts in after the last frame leaves the finished reply paused (`TurnSafety.TickKeeps`; in
  `TurnHazards.PausedAfterTheEndCall`); one who speaks before a dead reply's timeout is handled starts
  a turn that forgets what was heard of it (`TurnSafety.TranscriptKeeps`; in
  `TurnHazards.HeardButForgottenCall`).
- The TTS reader's look at the audio channel before its wait on both does not keep audio before Done
  when both are sent between the two (`TtsReader.InOrderExactlyUnlessOvertaken`; in
  `TtsReader.DoneCanOvertake`).
- The failed-externalMedia exit gives the port back outside the once-guard; with a purge of all
  calls at that moment it is given back twice (`CallPorts.PortsExactlyUnlessFailing`; in
  `CallHazards.PortFreedUnderAnotherCall`).
- `Dial` can return an error after Done was called, when a shutdown ends the ringing during the
  originate (`CallOutcomes.OutcomesExactlyUnlessTooLate`; in `CallHazards.DialFailsTooLate`). The
  dialer then gives the call's slot back twice and counts it out twice, and may complete a campaign
  with calls in flight (`DialerCompletion.CountsExactlyUnlessLate`; in
  `DialerHazards.CompletedTooEarly`).
- Nothing in the manager keeps a call from being transferred twice at once; the destination connected
  first is then forgotten while it is up (`CallSafety.SafeExactlyUnlessOvertaken`; in
  `CallHazards.SecondTransferReplacesFirst`).
- "Whichever side hung up, the other goes too" does not hold of a destination that is gone before it
  is connected: nobody tears the call down, and the caller stays in it alone
  (`CallHangups.MutualExactlyUnlessParted`; in `CallHazards.CallerIsLeftAlone`).
- The media goroutine marks its call active even when the call was torn down meanwhile; a transfer
  that has just added its destination then connects it to a call that is over
  (`CallSafety.SafeExactlyUnlessOvertaken`; in `CallHazards.ConnectedToAnEndedCall`).
- The rate window counts equal timestamps once (`RateWindow.BoundedExactlyWithoutTies`; on
  `RateWindow.EqualTimesSlipThrough`).
- Blank tool arguments come back as `{}` (`ToolCallStreams.RoundTripExactlyUnlessBlank`), and a chunk
  without a letter or digit can be cut at the hard limit (`SentenceChunks.ContentFreeCuts`; on
  `SentenceChunks.RuleOfDashes`).

## Model

| member | source | states |
|---|---|---|
| TurnSafety.SafeExactlyUnlessOvertaken | internal/ai/agent/handler.go:675-789 | over every tick and every event, the invariant of the turn protocol (only the current reply's frames queued, replays of the current reply, state agreeing with what the TTS still owes, signals belonging to their reply) is kept exactly when no event overtakes a raised signal or cuts a reply being replayed |
| TurnSafety.OnlyTheCurrentReplyIsHeard | internal/ai/agent/handler.go:735-763 | over whole calls: no audio of a cut or finished reply is ever queued or played, and a replay is of the reply being spoken |
| TurnSafety.FirstAudioFindsThinking | internal/ai/agent/handler.go:2067-2082 | the branch for first audio finding the state not Thinking is unreachable |
| TurnSafety.TranscriptKeeps | internal/ai/agent/handler.go:1194-1271 | a transcript keeps the invariant exactly when it does not confirm an interruption of a replay, nor start a turn over an unhandled drain timeout |
| TurnSafety.TickKeeps | internal/ai/agent/handler.go:675-789 | a 20 ms tick keeps the invariant exactly when it neither pauses nor times out over an unhandled playback-done |
| TurnSafety.ClosedKeeps | internal/ai/agent/handler.go:1993-2012 | the loss of the connection keeps the invariant exactly when playback-done is not waiting to be handled |
| TurnSafety.PlaybackKeeps | internal/ai/agent/handler.go:2140-2173 | ending a turn whose reply was played, held speech becoming the next turn included, keeps the invariant |
| TurnHazards.CutSentenceIsHeardAgain | internal/ai/agent/handler.go:2387-2439 | in every state where a replay is being played or is pending, a confirmed cut makes the next reply's first tick play a frame of the reply that was cut |
| TurnHazards.CutSentenceCall | internal/ai/agent/handler.go:2387-2439 | a call from its start, under any configuration, in which that happens |
| TurnHazards.NextReplyEndsEarly | internal/ai/agent/handler.go:2006-2010 | a connection lost while playback-done is raised makes the next reply count as played while its audio and Done are still to come |
| TurnHazards.EarlyEndCall | internal/ai/agent/handler.go:2006-2010 | a call from its start, under any configuration, in which that happens |
| TurnHazards.DeliveredReplyEnds | internal/ai/agent/handler.go:765-776 | a delivered, uninterrupted reply plays one frame a tick, all that is left, and the tick after the last reports it played |
| TurnHazards.EndingReplyIsTheLast | internal/ai/agent/handler.go:2414-2415 | once the call is ending no event cuts its reply or starts another: the reply goes on, or ended with the call hung up, or with its drain timeout raised |
| TurnHazards.EndingReplyEndsTheCall | internal/ai/agent/handler.go:2414-2415 | over every run from there: all of it is the same reply, until the call is hung up or the drain timeout that hangs up is raised |
| TurnHazards.EndingCallHangsUp | internal/ai/agent/handler.go:765-789 | and it comes to that: an ending call whose reply is not paused raises one of the two signals within as many quiet ticks as it has frames to play and the drain timeout, and handling the signal hangs up |
| TurnHazards.PausedAfterTheEndCall | internal/ai/agent/handler.go:697-715 | a call from its start, under any configuration, in which a caller who cuts in over an unhandled playback-done leaves the finished reply paused |
| TurnHazards.HeardButForgottenCall | internal/ai/agent/handler.go:963-971 | a call from its start, under any configuration, in which a turn started over an unhandled drain timeout keeps what was heard of the dead reply out of the history |
| TurnHazards.HeardIsRecorded | internal/ai/agent/handler.go:963-971 | the same call with the timeout handled first: what was heard is in the history |
| TurnFidelity.StepFaithful | internal/ai/agent/handler.go:675-749 | every step keeps the log of the reply and the handler's state in agreement: queue, sentence playing, replay position, bytes, order, memory |
| TurnFidelity.RepliesAreFaithful | internal/ai/agent/handler.go:2365-2382 | over whole calls: deleting the replayed frames from what was heard gives exactly the queued frames in order; after every resume of a reply of which anything was heard the next thing heard is the first frame of the interrupted sentence, and all of it is heard before anything new; the queued frames are the audio received unless the full queue dropped some; the history is whole blocks |
| TurnFidelity.FramesKeepBytes | internal/ai/agent/handler.go:2085-2102 | cutting audio into frames and keeping the rest loses no byte |
| TurnFidelity.CutRecordsWhatWasHeard | internal/ai/agent/handler.go:2185-2197 | a cut records exactly a prefix of the sentences: those up to the newest frame heard, so every sentence a frame was heard of |
| TurnFidelity.CutHistory | internal/ai/agent/handler.go:2402-2412 | what a confirmed interruption leaves in the history: the tool messages, exactly the sentences up to the newest frame heard, then the caller's words |
| TurnFidelity.DrainHistory | internal/ai/agent/handler.go:963-971 | and what a reply given up on leaves: the same, without the caller's words |
| TurnMemory.FinishedReplyIsRemembered | internal/ai/agent/handler.go:2140-2231 | however a turn ends, in every state: the history gains the reply's tool messages, then one assistant message with every rune of every sentence spoken, in order, spaces aside (none if there is none); then, unless the call ends, what the caller said over the last sentence, which starts the next turn |
| TurnMemory.SentencesAreRemembered | internal/ai/agent/handler.go:2185-2231 | over whole calls: every sentence of which audio came, of a reply that was then ended by having been played, is in an assistant message from then on |
| TurnMemory.HistoryGrows | internal/ai/agent/handler.go:2220-2231 | no event takes anything out of the history |
| TurnMemory.JoinedAsSpoken | internal/ai/agent/handler.go:2188-2216 | a reply's sentences are joined as if written one after the other, a space only after a sentence end or comma and only before what begins with none |
| TurnRules.EventsKeepTheRules | internal/ai/agent/handler.go:901-957 | in every state, field by field: which events start a reply, with what connection and what it forgets; which pause, resume or interrupt one and which resume checks that makes stale; which make a running silence timer stale; which make the call end, and hang up; which speech is held, with what reply and time, and when it is let go |
| TurnRules.WordsEnterTheHistory | internal/ai/agent/handler.go:1276-1314 | what starts a turn is the last message of the history, and all that is new in it but for what is kept of an interrupted reply |
| TurnRules.SpeechOverReplyIsAnswered | internal/ai/agent/backchannel.go:99-144 | over a call: what the caller says over a reply, late enough in its last sentence, is part of what starts the next turn when that reply ends, whatever happened in between, unless the call ends with it |
| TurnRules.ReportIsKept | internal/ai/agent/handler.go:2281-2302 | over a call: when a reply ends, the tool messages last reported for it come next in the history, and the call is hung up if a tool asked for its end |
| TurnRules.TimerPromptsExactly | internal/ai/agent/handler.go:1035-1086 | over a call: a silence timer prompts the caller exactly if since it was set no turn was started or finished, the caller did not speak and the call was not told to end, and nobody is speaking; else it does nothing |
| TurnRules.ChecksAreSpent | internal/ai/agent/handler.go:2322-2361 | a resume check that acted, or was put off, does nothing the second time |
| TurnRules.SinceTheSentenceBegan | internal/ai/agent/handler.go:735-749 | over every run: the time held speech is measured against is when the first frame of the sentence heard last was heard, however often it was repeated |
| TurnHandler.Handler.ProcessSpeakingFrame | internal/ai/agent/handler.go:675-789 | one tick of the audio thread, field by field, is the specified step |
| TurnHandler.Handler.HandleFinalTranscript | internal/ai/agent/handler.go:1194-1271 | a final transcript: ignored, held, resuming, confirming a cut, or the next turn |
| TurnHandler.Handler.AcceptUserTurn | internal/ai/agent/handler.go:1276-1314 | the caller's words join the history and a turn starts |
| TurnHandler.Handler.StartTurn | internal/ai/agent/handler.go:1360-1381 | a new generation, cleared reply tracking, and Thinking if the TTS can be opened |
| TurnHandler.Handler.OpenTts | internal/ai/agent/handler.go:1124-1144 | a connection is opened only when none is there; a failure goes back to Listening |
| TurnHandler.Handler.HandleTTSAudio | internal/ai/agent/handler.go:2032-2103 | audio of the current generation: its sentence noted, Speaking on the first, whole frames queued |
| TurnHandler.Handler.QueueFrames | internal/ai/agent/handler.go:2085-2102 | the frame loop: frames queued while there is room, the rest of the bytes kept |
| TurnHandler.Handler.HandleTTSDone | internal/ai/agent/handler.go:2115-2132 | Done ends a turn without audio, and marks delivery of one being spoken |
| TurnHandler.Handler.HandleTTSClosed | internal/ai/agent/handler.go:1993-2012 | the end of the connection in use ends the turn, after what arrived is played |
| TurnHandler.Handler.FinishTurn | internal/ai/agent/handler.go:2140-2173 | a finished turn: Listening, recorded whole, then hang up or settle what was held (what that leaves in the history: TurnMemory.FinishedReplyIsRemembered) |
| TurnHandler.Handler.RecordReply | internal/ai/agent/handler.go:2185-2231 | tool messages first, then what was spoken as one message, if anything |
| TurnHandler.Handler.JoinTurnChunks | internal/ai/agent/handler.go:2188-2216 | the loop over the sentences: stops where the cut does, a space only after a sentence end or comma |
| TurnHandler.Handler.SettleHeld | internal/ai/agent/backchannel.go:106-144 | what was said during the last sentence becomes the caller's turn, the rest is dropped |
| TurnHandler.Handler.SaidSince | internal/ai/agent/backchannel.go:117-130 | the loop that picks what was said over this reply since the margin before its last sentence |
| TurnHandler.Handler.ConfirmInterruption | internal/ai/agent/handler.go:2387-2398 | Transcribing before unpausing, held speech dropped, the reply cut |
| TurnHandler.Handler.CutReply | internal/ai/agent/handler.go:2402-2439 | recorded up to the cut, generation advanced, connection dropped, queue drained |
| TurnHandler.Handler.ResumeReply | internal/ai/agent/handler.go:2365-2382 | a replay requested for this generation, then unpaused |
| TurnHandler.Handler.HandleDrainTimeout | internal/ai/agent/handler.go:963-971 | a dead turn's rest is dropped and what was played is recorded |
| TurnHandler.Handler.HandleResumeCheck | internal/ai/agent/handler.go:2333-2361 | only the newest check of a reply still paused resumes it or checks again |
| TurnHandler.Handler.HandleIdle | internal/ai/agent/handler.go:1065-1086 | a silent caller gets a prompt, the second time a goodbye; a timer stopped or restarted since is ignored |
| TurnHandler.Handler.HandleEvent | internal/ai/agent/handler.go:901-957 | the event loop as a whole: each event and signal, handed to its handler, takes exactly the specified step |
| ToolRounds.TurnsAreWhole | internal/ai/agent/handler.go:1423-1566 | the messages every LLM round is sent, and those a turn records, are whole blocks: each call message followed at once by one result a call, in order |
| ToolRounds.MemorySilencesRequests | internal/ai/agent/handler.go:1516-1521 | the copy kept for the memory is what the model saw, less the text said alongside its calls |
| ToolRounds.EveryCallIsReported | internal/ai/agent/handler.go:1423-1613 | a turn asks up to the first round that is cut, fails, calls nothing, is the fifth, or ends or transfers the call; what it reports is, round after round and nothing else, each call run and under its id the result its tool gave; and it ends the call exactly if a tool or the node says so, or it failed with nothing said and a failure hangs up |
| ToolRounds.BlocksHaveRounds | internal/ai/agent/handler.go:1516-1545 | in the request and in the copy, each round's calls (with what was said, or without) and each call's result stand where the rounds before leave off |
| ToolRounds.Turn.RunLLMTurn | internal/ai/agent/handler.go:1410-1613 | the round loop: ends by failure, no calls, the limit, end of call or transfer, with exactly the blocks of the rounds whose tools ran; a cancelled turn whose tools ended the call still ends it |
| ToolRounds.Turn.RunTools | internal/ai/agent/handler.go:1520-1545 | the calls and their results join both histories in order, and the actions are collected |
| PlainHistories.BuildPlainHistory | internal/ai/agent/extract.go:102-144 | the loop that edits the last message in place gives the batch meaning: every run of kept assistant texts as one message |
| PlainHistories.PlainHistoryIsPlain | internal/ai/agent/extract.go:94-101 | no tool messages or calls, no adjacent assistant messages, none empty |
| PlainHistories.PlainHistoryIsIdempotent | internal/ai/agent/extract.go:94-101 | a plain history is left as it is, so rewriting twice is rewriting once |
| PlainHistories.PlainHistoryKeepsOthers | internal/ai/agent/extract.go:137-139 | user and system messages stay, in order |
| PlainHistories.PlainHistorySaysAll | internal/ai/agent/extract.go:102-144 | the plain history says, in order and nothing else, every message's text and every kept tool result under the name the last call with its id gives it, spaces and blank lines aside |
| PlainHistories.JoinedKeepsApart | internal/ai/agent/extract.go:112-123 | messages joined into one stand in it whole, a blank line between each two |
| PlainHistories.AddToIsGrouped | internal/ai/agent/extract.go:112-123 | joining onto the last message one at a time is joining whole runs |
| Messages.WholeBlocksAppend | internal/ai/agent/handler.go:2220-2231 | whole blocks after whole blocks are whole blocks |
| TtsQueue.StepSafe | internal/ai/tts/sarvam.go:193-371 | every operation leaves no clip at the head, the provider's requests as the pending ones that are not clips, audio in order, Done once |
| TtsQueue.AudioInOrderDoneOnce | internal/ai/tts/sarvam.go:259-315 | over every interleaving, channels open or closed: audio in call order, none of a generation after its Done, no Done twice or before its generation ended; while they are open, Done exactly once as soon as gen has ended and nothing of it is pending |
| TtsQueue.AudioIsAttributed | internal/ai/tts/sarvam.go:373-386 | audio is tagged with the request the provider is working on |
| TtsQueue.CallsResolveInOrder | internal/ai/tts/sarvam.go:230-255 | the pending requests are always the newest of the calls that the events alone make (every text with words and every clip with sound until the connection closes, numbered in order), and every clip resolved while open was sent exactly once |
| TtsQueue.EverySentenceIsAsked | internal/ai/tts/sarvam.go:193-228 | over every run the provider has been asked for exactly the texts with words in them that were spoken before the connection closed, in order and numbered with the clips; what it still works on is all but those it finished |
| TtsQueue.LateAudioIsTagged | internal/ai/tts/sarvam.go:373-386 | audio that comes with nothing pending is tagged with the newest request the provider was ever asked for |
| TtsQueue.ClosedIsSilent | internal/ai/tts/sarvam.go:388-398 | nothing is sent once the channels are closed |
| TtsQueue.CancelledAsksNothing | internal/ai/tts/sarvam.go:320-341 | once the connection is closed, whatever comes: no call of Speak or Play adds a request, and what is pending, or with the provider, is the end of what was |
| TtsClients.SarvamClient.Speak | internal/ai/tts/sarvam.go:193-228 | blank text is skipped, a closed client refuses, else one numbered request is queued |
| TtsClients.SarvamClient.Play | internal/ai/tts/sarvam.go:234-255 | a clip is queued and goes out when it is next in line |
| TtsClients.SarvamClient.DrainClipsLocked | internal/ai/tts/sarvam.go:259-278 | the loop that sends every clip at the head, each settling its generation; only on open channels |
| TtsClients.SarvamClient.EndGeneration | internal/ai/tts/sarvam.go:283-291 | Done at once when nothing is pending |
| TtsClients.SarvamClient.GenHasPendingLocked | internal/ai/tts/sarvam.go:293-301 | true exactly when a pending request is of the generation |
| TtsClients.SarvamClient.EmitDoneLocked | internal/ai/tts/sarvam.go:305-315 | Done is sent only while the channels are open |
| TtsClients.SarvamClient.OnFinal | internal/ai/tts/sarvam.go:353-371 | the oldest request is resolved, its generation settled, the clips behind it sent |
| TtsClients.SarvamClient.ReceiveLoop | internal/ai/tts/sarvam.go:388-453 | the reader's loop: whatever messages come, errors counting as finals and empty audio skipped, it takes the specified steps in their order and ends with the channels closed |
| TtsReader.InOrderExactlyUnlessOvertaken | internal/ai/agent/handler.go:1930-1986 | over every run: no audio is forwarded after its generation's Done exactly when no Done was taken of a generation with audio sent since the look before it |
| TtsReader.OnlyArrivalsAreOvertaken | internal/ai/agent/handler.go:1909-1914 | after any run, what a Done overtakes is exactly the audio of its generation sent since the last look |
| TtsReader.DoneCanOvertake | internal/ai/agent/handler.go:1935-1977 | a run in which it happens |
| TtsDelivery.ClientIsProper | internal/ai/tts/sarvam.go:193-371 | over every interleaving what the client sends is audio of numbered requests in their order, none of a generation after its Done, and no Done twice |
| TtsDelivery.ReaderKeepsProper | internal/ai/agent/handler.go:1930-1986 | a reader that overtakes nothing forwards it so |
| TtsDelivery.ConnectionFeedsTheTurn | internal/ai/agent/handler.go:1930-1986 | client, reader and agent together: the next output forwarded is an event the turn protocol takes, in the order it needs, whatever else the agent did, unless the reader overtook or the TTS was given up for the reply |
| SerialNumbers.Diff | internal/media/jitterbuffer.go:126-147 | the signed circular distance of two 16-bit numbers: in range, and adding it back gives the other number |
| SerialNumbers.DiffShift | internal/media/jitterbuffer.go:204-218 | distances survive both numbers moving on, across the wrap |
| SerialNumbers.SlotsDistinctExactlyWhenClean | internal/media/jitterbuffer.go:156 | a window's numbers have slots of their own exactly when the size divides 65536 or the window does not cross 65535 -> 0 |
| SerialNumbers.RingSoundExactlyWhenSizeDivides | internal/media/jitterbuffer.go:156 | every window is sound exactly when the size divides 65536 |
| JitterRefinement.RingRefines | internal/media/jitterbuffer.go:105-230 | on clean windows the slot ring is the map from the window to frames: same frames out, same events |
| JitterRefinement.RingIsMapExactlyWhenSizeDivides | internal/media/jitterbuffer.go:156-204 | the ring is the map on every run exactly when the size divides 65536 |
| JitterRefinement.WrapMisjudged | internal/media/jitterbuffer.go:156-163 | for every other size, a run in which the ring differs from the map |
| JitterRefinement.EveryFrameOwnedOnce | internal/media/jitterbuffer.go:101-167 | for every size, run and frame: each time it was pushed it is buffered, handed out once, or given back to the pool once |
| JitterRefinement.PushIsReportedExactly | internal/media/jitterbuffer.go:105-167 | for every ring: exactly which packets are reported as a new stream, late, re-anchoring, out of the window or a duplicate, which are stored, and what goes back to the pool |
| JitterRefinement.ReleaseIsReportedExactly | internal/media/jitterbuffer.go:179-230 | for every ring: silence is inserted and reported exactly if it is not priming and the frame due is missing, three in a row freeze it, and a frozen buffer stays at the frame it waits for |
| JitterSelfHealing.SelfHeals | internal/media/jitterbuffer.go:169-230 | from any reachable state, a lossless in-order stream starting at most b behind is played in order, one packet a tick, from an explicit bound on |
| JitterSelfHealing.RingSelfHeals | internal/media/jitterbuffer.go:105-230 | the same for the slot ring of every size, after any operations at all, the wrap included, once its window does not cross 65535 -> 0 and as long as those the stream opens do not |
| JitterSelfHealing.DividingRingSelfHeals | internal/media/jitterbuffer.go:105-230 | and without those conditions for sizes dividing 65536 |
| JitterMaps.AnyRingIsAMap | internal/media/jitterbuffer.go:156-204 | a ring with a clean window, whatever happened to it, holds a map from the window's numbers to frames, each slot that of one number |
| JitterWrap.InOrderUntilTheWrap | internal/media/jitterbuffer.go:105-230 | a fresh buffer of any size plays a lossless in-order stream in order, one window behind it, until the numbers wrap |
| JitterWrap.WrapLosesPacket | internal/media/jitterbuffer.go:156-163 | for every size not dividing 65536, packet number 0 of that stream is judged a duplicate and never played |
| JitterWrap.RingHealsExactlyWhenSizeDivides | internal/media/jitterbuffer.go:105-230 | from any tick on that lies between the size (or the healing bound) and 65536, all such streams are played in order for good exactly when the size divides 65536 |
| JitterRecovery.HealsAfterTheWrap | internal/media/jitterbuffer.go:105-230 | for a fresh buffer of every size, the default included: at most one window and the healing bound after the wrap the stream is played in order again, until the next wrap |
| JitterRecovery.AnyRingRecovers | internal/media/jitterbuffer.go:105-230 | for every size and a ring in any state, its window across the wrap and foreign frames in its slots or not: a lossless in-order stream starting at most b behind is caught up with within 5 * size + 3 + b ticks, and 5 * size + 3 ticks after it is a window past the wrap it is played in order, until the next wrap |
| JitterRecovery.RingRecovers | internal/media/jitterbuffer.go:105-230 | so for the buffer of every size after any operations at all |
| JitterHealing.Heals | internal/media/jitterbuffer.go:188-202 | seen from the stream, priming, misses, freezing and re-anchoring end within 5 * size + 3 + b ticks |
| JitterBuffers.JitterBuffer.Push | internal/media/jitterbuffer.go:105-167 | a packet over the two arrays: anchored, reset, re-anchored, late, out of the window, a duplicate or stored, every frame stored or given back |
| JitterBuffers.JitterBuffer.Release | internal/media/jitterbuffer.go:179-230 | one tick: priming, the expected frame, or silence and a step towards freezing |
| JitterBuffers.JitterBuffer.ClearSlotsLocked | internal/media/jitterbuffer.go:247-255 | the loop that empties every slot and gives its frame back |
| JitterBuffers.JitterBuffer.DepthLocked | internal/media/jitterbuffer.go:233-243 | the loop that counts the full slots |
| JitterBuffers.JitterBuffer.ReanchorLocked | internal/media/jitterbuffer.go:270-276 | emptied and waiting at a new number |
| CallSafety.SafeExactlyUnlessOvertaken | internal/ari/handlers.go:244-844 | every step of setup, teardown, purge, dial and transfer, the failed-externalMedia exit included, keeps the calls and transfers consistent exactly when it marks no call active whose teardown has begun and connects no second transfer over a first |
| CallCore.CoreExactlyUnlessFailing | internal/ari/handlers.go:411-426 | what is owed a teardown is not a failed setup, and the rest that ports depend on: every step, whatever else it overtakes, keeps it exactly when it is not that exit of a call whose teardown is owed or has begun |
| CallSafety.DestinationsAreAccountedFor | internal/ari/transfer.go:39-141 | in every run that marks no call active whose teardown has begun and connects no second transfer over a first: a dialed destination that is up is being worked on, connected to its call, or about to be hung up by the teardown |
| CallSafety.SettledDestinations | internal/ari/transfer.go:95-141 | in every such run, once everything settled it is connected to a call not torn down, or hung up |
| CallSafety.TornDownLeavesNothing | internal/ari/handlers.go:726-751 | in every such run a torn-down call leaves no entry of its own in active or pending |
| CallHangups.MutualExactlyUnlessParted | internal/ari/handlers.go:751-755 | a step keeps "whichever side of a transferred call hung up, the other goes too" exactly when it neither connects a destination already gone nor destroys a connected one that never left |
| CallHangups.HangupsAreMutual | internal/ari/handlers.go:751-755 | over whole runs without such a step: when either side of a transferred call has gone its teardown is owed or has begun, and once everything settled the destination is up exactly if the call goes on |
| CallHangups.AgentLegIsIgnored | internal/ari/transfer.go:126-137 | over every run, whatever is overtaken in it: the agent leg's own end never ends a transferred call |
| CallHazards.CallerIsLeftAlone | internal/ari/transfer.go:107-128 | a run from the start in which the destination hangs up while it is being added: it is connected all the same, and nobody is to tear the call down |
| CallHazards.ConnectedToAnEndedCall | internal/ari/handlers.go:565 | a run from the start in which the caller hangs up just after the destination was added, and the media goroutine marks the torn-down call active: the transfer's re-check passes, and the destination stays up, connected to a call that is over |
| CallPorts.PortsExactlyUnlessFailing | internal/ari/handlers.go:411-426 | a step keeps port ownership (held or given back exactly once, in use exactly while held), whatever else it overtakes, exactly when it is not the failed-externalMedia exit of a call whose teardown is owed or has begun |
| CallPorts.PortsAreOwned | internal/media/portalloc.go:27-48 | over every run without that one exit: the ports in use are exactly those of the calls that have not given theirs back, none shared, and every call gives its port back exactly once, when its setup failed or its teardown got there |
| CallHazards.PortFreedUnderAnotherCall | internal/ari/handlers.go:411-426 | a run from the start in which a call purged while its externalMedia request fails gives its port back twice, the second time while another call holds it |
| CallOutcomes.OutcomesExactlyUnlessTooLate | internal/ari/outbound.go:86-124 | every step, whatever it overtakes, keeps one outcome a dial exactly when no dial fails after its ringing was ended |
| CallHazards.DialFailsTooLate | internal/ari/outbound.go:282-300 | a run from the start in which one does: the dial has its outcome and its caller an error |
| CallOutcomes.EveryDialHasOneOutcome | internal/ari/outbound.go:174-300 | over every run without such a step: a dial that returned no error has its outcome exactly when its call is over or it stopped ringing; a failed one never has |
| CallOutcomes.ConnectedExactlyIfAgentStarted | internal/ari/outbound.go:264-279 | over every run without such a step, a dial's outcome is Connected exactly if the call's agent started before the call was finished |
| CallOutcomes.OutcomeSaysWhy | internal/ari/outbound.go:223-279 | in every state: a dial is given its outcome exactly by the end of its ringing while unanswered, with that status, by a setup that fails, or by the end of its call, connected exactly if the agent started; and no outcome is ever changed |
| CallOutcomes.StatusesAreTrue | internal/ari/outbound.go:264-300 | over every run: a dial that did not connect failed, or has a status its ringing was ended with |
| CallEndings.LeftCallsEnd | internal/ari/handlers.go:674-716 | over every run, whatever is overtaken in it: a call one of whose legs left while it was staged or bridged and not transferred is being aborted, or its teardown is owed or begun, or its setup failed |
| CallEndings.LeftCallsAreOver | internal/ari/handlers.go:702-800 | and once everything settled it is over, its port given back, its dial with its outcome |
| CallEndings.LegsLeaveTogether | internal/ari/handlers.go:676-691 | the end of one leg of a bridged call untracks both and owes the teardown; the end of the other then changes nothing |
| CallProgress.CallIsStaged | internal/ari/handlers.go:284-432 | from any state: an inbound call and a free port lead to the call staged with that port, found by both its legs, and nothing else changed |
| CallProgress.CallIsBridged | internal/ari/handlers.go:437-500 | and the arrival of its other leg to the call bridged, both legs active and neither pending |
| CallProgress.TeardownIsOwedExactly | internal/ari/handlers.go:579-844 | in every state: a call's teardown becomes due exactly when one of its tracked channels leaves, its media dies or everything is purged, and is due until it begins |
| CallProgress.CallIsTornDown | internal/ari/handlers.go:726-800 | a teardown that is due, left alone, leads to the call over: its port given back, its legs and destination untracked, the destination down, its dial with an outcome |
| CallProgress.DestinationIsConnected | internal/ari/transfer.go:39-128 | from any state: a destination dialed for a bridged call that is not over, answering, leads to it connected in the agent leg's place |
| CallProgress.TornDownCallIsNotConnected | internal/ari/transfer.go:95-128 | a destination that answered for a call torn down meanwhile is hung up instead |
| CallProgress.UnwantedDestinationIsHungUp | internal/ari/transfer.go:145-163 | one that answers when nobody waits for it any more is hung up |
| CallProgress.WaitingEnds | internal/ari/transfer.go:66-90 | one that fails before it answers, or is waited for too long, is given up and down |
| CallHazards.SecondTransferReplacesFirst | internal/ari/transfer.go:95-141 | a run from the start in which a second transfer of a call is connected: the first destination stays up and its call has forgotten it |
| PortAllocators.PortAllocator.Alloc | internal/media/portalloc.go:27-40 | the lowest free port, or an error exactly when all are in use |
| PortAllocators.AllocThenFree | internal/media/portalloc.go:27-48 | a port handed out and given back leaves the pool as it was and is the next one handed out; giving it back twice changes nothing more |
| PortAllocators.FreedIsNext | internal/media/portalloc.go:27-48 | a port given back is the next one handed out exactly if every lower one is in use; otherwise what was next stays next |
| PortAllocators.PortAllocator.InUse | internal/media/portalloc.go:51-55 | how many are in use, never more than there are |
| CallManagers.Manager.OnStasisEnd | internal/ari/handlers.go:674-716 | a leg's end tears its bridged call down, or aborts its staged one, or is ignored |
| CallManagers.Manager.Teardown | internal/ari/handlers.go:726-800 | a teardown left alone: only the first one runs, and takes the specified steps in order: guard, maps, destination, port, dial |
| CallManagers.Manager.ClearMaps | internal/ari/handlers.go:732-745 | the teardown removes the call's entries and its transfer's, and learns whom to hang up |
| CallManagers.Manager.PurgeMaps | internal/ari/handlers.go:823-844 | every tracked call is to be torn down, both maps start anew |
| CallManagers.Manager.TakeRinging | internal/ari/outbound.go:174-190 | a dial not answered is taken exactly once, with its outcome |
| CallManagers.Manager.HangupRingingOutbound | internal/ari/outbound.go:282-300 | every dial still ringing is ended, the answered ones left alone |
| CallManagers.Manager.OnOutboundAnswered | internal/ari/outbound.go:193-217 | an answered dial is set up if anyone still waits for it |
| CallManagers.Manager.FinishOutbound | internal/ari/outbound.go:264-279 | the end of an answered dial: connected if its agent started |
| CallManagers.Manager.BindFailed | internal/ari/handlers.go:337-346 | a socket that cannot be bound: the port given back, the dial ended as failed |
| CallManagers.Manager.MediaFailed | internal/ari/handlers.go:411-426 | a failed externalMedia request: the same, and no longer pending |
| CallManagers.Manager.OnChannelDestroyed | internal/ari/handlers.go:170-183 | the end of a channel ends a dial still ringing, or is reported to whoever waits for the destination |
| CallManagers.Manager.OnTransferLegAnswered | internal/ari/transfer.go:145-163 | whoever waits for the destination is told; otherwise it is hung up |
| CallManagers.Manager.ClaimTransfer | internal/ari/transfer.go:109-128 | under the lock: refused when torn down, else the destination takes the agent leg's place |
| DialerSafety.StepSafe | internal/campaign/runner.go:233-391 | every step of the drain, the calls, crash and recovery keeps every row's dials, run and handler consistent and the retry rows a chain |
| DialerSafety.DialedAtMostOnce | internal/dograh/campaign.go:554-573 | with a crash between any two steps, followed by recovery, a row is dialed at most once, after its run was recorded |
| DialerSafety.OneRowEachTry | internal/dograh/campaign.go:413-440 | every row has at most one retry: a contact's rows differ in their retry count |
| DialerSafety.ContactDialedAtMost | internal/campaign/runner.go:474-487 | a contact is dialed at most MaxRetries + 1 times |
| DialerContacts.NoContactIsLost | internal/dograh/campaign.go:554-573 | over every run with crashes: a contact's row never dialed and without a run is queued, or its drain has it, or it was marked as having no number, or it is left in processing by a crash to be recovered from or by a mark, claim or recovery that failed in the database |
| DialerContacts.RecoveryQueues | internal/dograh/campaign.go:558-573 | a recovery that succeeds queues a row left in processing without a run, and takes one with a run for processed |
| DialerContacts.RetryIsScheduled | internal/campaign/runner.go:474-487 | a call that never connected and may be retried, with tries left: its retry row is there, queued, due when asked for |
| DialerProgress.DueRowIsDialed | internal/campaign/runner.go:233-391 | from any state: a drain's own steps take a queued row whose time has come, and a free slot, to the row processed and dialed once more, with its run, its call in flight with the slot, and the drain looking for the next |
| DialerProgress.FailedDialGivesBack | internal/campaign/runner.go:370-391 | if the dial fails instead, the row is failed and slot, count and call are as before |
| DialerProgress.OnlyDueRowsAreClaimed | internal/dograh/campaign.go:324-362 | over every run no row is claimed that is not queued in that campaign, or whose time has not come |
| DialerProgress.EmptyCampaignCompletes | internal/campaign/runner.go:513-542 | a drain that finds nothing due gives its slot back and stops, and, left alone, completes the campaign exactly if it runs, nothing is in flight and no row is open |
| DialerProgress.SlotsMoveExactly | internal/campaign/runner.go:302-322 | a slot is taken by a drain that looks for a contact and freed by its holder alone; a crash frees none |
| DialerProgress.CampaignsMoveExactly | internal/campaign/runner.go:181-193 | a campaign's state changes exactly when it is switched, or completed by the last check of its drain |
| DialerCompletion.CompletedMeansDone | internal/campaign/runner.go:513-542 | over every run that does not miscount: a completed campaign has no contact queued or being handled and no call unfinished, and never has again |
| DialerCompletion.CountsExactlyUnlessLate | internal/campaign/runner.go:370-382 | a step keeps every in-flight count the number of calls being placed or unfinished exactly unless a dial returns an error after its call was over while calls are in flight |
| DialerCompletion.CountsAreExact | internal/campaign/runner.go:423-432 | so does every run without such a step |
| DialerCompletion.SlotsExactlyUnlessLate | internal/campaign/runner.go:370-382 | a step keeps every slot with exactly one holder, and every holder with its slot, exactly unless a dial returns an error after its call was over |
| DialerCompletion.SlotsAreExact | internal/campaign/limiter.go:74-95 | so does every run without such a step |
| DialerCompletion.NoSlotLeaks | internal/campaign/runner.go:321-322 | over every run, such steps included: a slot that is taken has a drain or call that is still to free it, or was left to expire by a crash |
| DialerHazards.CompletedTooEarly | internal/campaign/runner.go:517-542 | a run from the loaded campaign in which a dial's late error takes the count to zero and the campaign is completed with a call in flight |
| DialerStores.Store.ClaimRun | internal/dograh/campaign.go:324-362 | the first due row, retries first and the earliest first, then as loaded, is marked processing; none only if none is due |
| DialerStores.ClaimOrder | internal/dograh/campaign.go:324-362 | the order rows are claimed in is total: a row with a time before one without, the earlier time first, else as loaded |
| DialerStores.Store.SetRunState | internal/dograh/campaign.go:375-406 | the row's new state, counted once in its campaign; refused for a row that is not there or a state not moved to |
| DialerStores.Store.ScheduleRetry | internal/dograh/campaign.go:413-440 | one retry row with the parent's key extended, unless it exists |
| DialerStores.Store.OpenWork | internal/dograh/campaign.go:531-540 | the numbers of queued and processing rows; both zero exactly when there is no open work |
| DialerStores.Store.RecoverContacts | internal/dograh/campaign.go:558-573 | a row left processing is queued exactly if it has no run and processed exactly if it has one, every other row is as it was, and both are counted |
| DialerStores.Runner.MaybeComplete | internal/campaign/runner.go:517-542 | completes exactly when nothing is in flight, no work is open and the campaign runs |
| DialerStores.Runner.Scan | internal/campaign/runner.go:117-150 | the scan's loop: a drain is started for exactly the campaigns found that have none at work, one each |
| DialerStores.Runner.Finished | internal/campaign/runner.go:449-492 | the end of a placed call: a retry row if it never connected, may be retried and has tries left, a failed row counted if it has none; no longer live, one less in flight |
| RateWindow.RateIsBounded | internal/campaign/limiter.go:49-69 | with distinct timestamps no half-open one-second window of an unbounded run, whatever rate each start passed, holds more accepted starts than the rate the last of them passed |
| RateWindow.RateIsUnderHighest | internal/campaign/runner.go:215-228 | so none holds more than the highest rate passed |
| RateWindow.FewTimes | internal/campaign/limiter.go:49-69 | whatever the timestamps, no window holds more different ones than that |
| RateWindow.ExpiryIsHarmless | internal/campaign/limiter.go:63-64 | the key's expiry never drops an entry that still counts |
| RateWindow.RefusedExactlyWhenFull | internal/campaign/limiter.go:49-69 | a start is refused exactly when as many different times as its rate were accepted in the second up to it |
| RateWindow.BoundedExactlyWithoutTies | internal/campaign/limiter.go:63 | every run of a non-decreasing clock keeps the bound exactly when perSecond is at most 1 |
| RateWindow.EqualTimesSlipThrough | internal/campaign/limiter.go:63 | for any other perSecond, one start more than allowed at one instant: all are accepted |
| SlotLimits.SlotsAreBounded | internal/campaign/limiter.go:74-95 | under any interleaving, each campaign passing its own limit, no organization holds more slots than the limit passed when its newest was taken, and Vaani no more than its cap; a refused or released slot is in neither set |
| SlotLimits.SlotsAreUnderHighest | internal/campaign/runner.go:195-213 | so no organization holds more than the highest limit ever passed |
| SlotLimits.TakeIsExact | internal/campaign/limiter.go:74-95 | a slot is taken exactly if fewer than the limit count still; the set is then those and the new one |
| LiveSlots.CallsAreBounded | internal/campaign/limiter.go:74-95 | over every interleaving with a clock that does not run backwards: the calls holding slots not yet stale are, for each organization, no more than the limit its newest was granted under, and in all no more than Vaani's cap |
| SlotLimits.Limiter.AcquireToken | internal/campaign/limiter.go:170-179 | one start is taken from the organization's window |
| SlotLimits.Limiter.AcquireSlot | internal/campaign/limiter.go:220-239 | taken exactly if fewer than the limit of the organization's slots, and than the cap of all, count still; then its sets are those slots and the new one; refused, those that count still are kept |
| SlotLimits.Limiter.ReleaseSlot | internal/campaign/limiter.go:262-275 | the slot is gone from both sets, twice is no error |
| SentenceChunks.SameTextSameChunks | internal/ai/agent/chunker.go:46-66 | chunks and leftover depend only on the text, not on how it was split into tokens |
| SentenceChunks.FirstCutStable | internal/ai/agent/chunker.go:93-145 | a cut once decided stays, whatever text follows |
| SentenceChunks.NothingIsLost | internal/ai/agent/chunker.go:50-66 | chunks and leftover together are the text |
| SentenceChunks.EveryCutIsGood | internal/ai/agent/chunker.go:21-30 | every chunk ends in a delimiter or a space, with content; or at the hard limit, not before a combining mark nor after a virama |
| SentenceChunks.SentencesAreCut | internal/ai/agent/chunker.go:93-145 | a text is cut at the first end of a sentence if nothing was decided before it: always if it comes within 80 runes |
| SentenceChunks.NoEndInside | internal/ai/agent/chunker.go:93-145 | no chunk goes on past the end of a sentence |
| SentenceChunks.LongTextIsCut | internal/ai/agent/chunker.go:116-122 | a text that waited past the threshold is cut at its last pause, or without one at its last space |
| SentenceChunks.HeldBackExactly | internal/ai/agent/chunker.go:93-145 | a text is held back exactly when no sentence ends in it and, past the threshold, there is no place to break at, nor, past the hard limit, one to split at |
| SentenceChunks.ContentFreeCuts | internal/ai/agent/chunker.go:71-78 | a text's next chunk has no letter or digit exactly when the text goes on past the hard limit, to a place it may be cut at, without one |
| SentenceChunks.RuleOfDashes | internal/ai/agent/chunker.go:124-133 | 161 dashes are cut into a chunk of 160 |
| SentenceChunks.SentenceChunker.Feed | internal/ai/agent/chunker.go:50-66 | the loop that cuts until no cut is left |
| SentenceChunks.SentenceChunker.ScanCut | internal/ai/agent/chunker.go:93-145 | the rune-by-rune scan finds the first cut decided by its running counters |
| SentenceChunks.SentenceChunker.Flush | internal/ai/agent/chunker.go:152-165 | the leftover, if it has a letter or digit |
| SpeechGate.SentInOrder | internal/ai/agent/sttgate.go:103-138 | over every run: the frames sent are the caller's in order without repeats; closed, the ring holds exactly the newest frames since it closed |
| SpeechGate.SpeechIsSent | internal/ai/agent/sttgate.go:50-61 | over every run: every voiced frame is sent, and the ring's worth of frames before it |
| SpeechGate.SentExactlyNearSpeech | internal/ai/agent/sttgate.go:103-138 | over every run: a frame is sent exactly if speech comes within the ring's worth of frames after it, or it comes within the hangover of speech; every other is withheld |
| SpeechGate.SendGaps | internal/ai/agent/sttgate.go:133-135 | over every run: two sends in a row, or the start and the first, are less than the keepalive period and one frame gap apart, and no frame after the last send comes the period later |
| SpeechGate.SilenceExactlyWhenDue | internal/ai/agent/sttgate.go:133-135 | and silence is sent exactly at a frame away from speech with the keepalive period gone since the last send |
| SpeechGate.SttGate.Frame | internal/ai/agent/sttgate.go:103-138 | one frame: sent, kept, or sent after what was kept |
| SpeechGate.SttGate.Push | internal/ai/agent/sttgate.go:164-168 | in the ring array, the newest in and the oldest out when full |
| SpeechGate.SttGate.SendPreroll | internal/ai/agent/sttgate.go:171-184 | the kept frames go out oldest first and the ring is empty |
| ToolCallStreams.FragmentsAssemble | internal/ai/llm/client.go:496-582 | any interleaving of the calls' indexed fragments, arguments split in any way, gives the list back but for blank arguments |
| ToolCallStreams.RoundTripExactlyUnlessBlank | internal/ai/llm/client.go:574-576 | it gives the very same list exactly when no call's arguments are blank |
| ToolCallStreams.WholeCallsAssemble | internal/ai/llm/client.go:519-558 | so does the dialect of whole calls all with index 0 or none |
| ToolCallStreams.NamedFragmentsAssemble | internal/ai/llm/client.go:519-558 | and so do fragments without an index that name their call by its id or continue the newest call, interleaved in any way: they assemble as if they had their indexes |
| ToolCallStreams.NamelessCallsAreDropped | internal/ai/llm/client.go:560-582 | calls that never got a name are dropped, the others stay in order with type and empty arguments defaulted |
| ToolCallStreams.Assembler.AddDelta | internal/ai/llm/client.go:496-517 | a fragment is merged into its call |
| ToolCallStreams.Assembler.FindSlot | internal/ai/llm/client.go:523-558 | by index unless that is another call's, else by id, else the last; the list grown as needed |
| ToolCallStreams.Assembler.Finish | internal/ai/llm/client.go:562-582 | the named calls, with the defaults filled in |
| EslClients.RepliesPair | internal/esl/esl.go:248-276 | over every run every reply a Send returns answers its own command |
| EslClients.SendsAreAnswered | internal/esl/esl.go:248-276 | over every run: the Sends return in their order, one each, and while the connection is open each has returned its own command's reply; nothing ends the connection but a disconnect, a failed read, a timeout or a close |
| EslClients.AnswerIsOnItsWay | internal/esl/esl.go:149-162 | over every run: the answer of a Send that waits is owed by the server, on the wire or in the channel, exactly once and as the only one |
| EslClients.EventsFlow | internal/esl/esl.go:149-205 | over every run the events delivered, being delivered, queued and still on the wire are those the server posted, in order; the delivered ones are always the first of them; no queued event is stranded while the pump sleeps |
| EslClients.TimeoutClosesForGood | internal/esl/esl.go:272-274 | after a timeout no later Send returns anything |
| EslClients.RepliesFindRoom | internal/esl/esl.go:157-162 | the reader never fails for a reply nobody asked for, if the server answers each command once in order |
| EslClients.Client.ReadOne | internal/esl/esl.go:149-183 | one message: a reply handed over, an event queued and signalled, or the connection ended |
| EslClients.Client.PumpRound | internal/esl/esl.go:185-205 | the whole queue is taken and delivered in order, or a prefix of it until the connection closes |
| LlmRetries.Stream | internal/ai/llm/client.go:219-252 | the retry loop returns the last try's tokens, calls and failure |
| LlmRetries.StreamOnce | internal/ai/llm/client.go:280-444 | one try: no answer, a status, or the lines read one by one up to the end mark, an error or the end, tokens passed on and fragments assembled |
| LlmRetries.AnswerIsPassedOn | internal/ai/llm/client.go:376-444 | of an accepted answer all that was said up to its end mark, or the error or end that breaks it off, is passed on; the try goes well exactly if it is the end mark, or all was read and something came; then all its fragments are assembled |
| LlmRetries.RefusalsAreSilent | internal/ai/llm/client.go:333-375 | of any other answer nothing is passed on, and the failure tells why |
| LlmRetries.RetriedBeforeAnyReply | internal/ai/llm/client.go:75-96 | whatever may be tried again failed before any reply: nothing was passed on |
| LlmRetries.TriedAgainExactly | internal/ai/llm/client.go:219-252 | a request is tried again exactly while tries are left, nobody answered or the status was 429, 502, 503 or 504, and the context did not end |
| LlmRetries.OneReplyIsHeard | internal/ai/llm/client.go:219-252 | over any number of tries the caller is passed the last try's tokens, never part of another's |
| Extractions.FinalComesLast | internal/ai/agent/extract.go:296-371 | when the end-of-call extraction runs every extraction ever started has ended, and none starts after its snapshot |
| Extractions.ExactlyThoseAreAwaited | internal/ai/agent/extract.go:296-371 | over every run: exactly the extractions asked for before the call's end are started, in order; the call's end waits for just these, and once each has ended it goes on to its own |

## Left out

Assumed of the environment, as steps or conditions of the specifications:

- Turn protocol: one tick and one event are atomic; the TTS side sends a reply's audio in request
  order, then its Done, and no audio of it after a drain timeout. Events that overtake a signal, or
  cut a replay, are not assumed away: they are the exact condition of the theorem.
- TTS connection: writes succeed and the channel buffers are not full (a failed write leaves its
  pending entry behind); callers end a generation once and ask nothing of it afterwards; the
  provider answers in order.
- TTS connections and turns: the sentences of one generation are spoken over one connection.
- Call lifecycle: Asterisk announces that a channel has left (StasisEnd) before its destruction;
  `MaxCallDuration` is 0; a failed originate leaves no channel; channel ids are unique
  (as are the ids of slots). Hangups of the caller's and the agent's legs in a teardown,
  the bridge itself and the media sockets are not in the state.
- Dialer: one process dials; a call does not end after its dial returned an error (it may before);
  other programs do not add rows to a campaign being dialed; the retry settings of a campaign do not
  change.

Not modelled:

- Hold mode (what the caller hears during a transfer), the VAD, recordings in replies and the clip
  router: the turn protocol sees only audio, verdicts and messages.
- The backchannel word list, `squeezeRepeats`, `junkTranscript`: verdicts on a transcript, inputs here.
- What an extraction asks the model and stores; the handshake around it is modelled.
- The circuit breaker, wallet, schedules and the stale-run sweep: conditions under which a drain stops.
- `TurnHandler.Handler.AcceptUserTurn`: the STT timings logged with a turn, the call log and metrics.
- Claiming several rows in one statement: the runner claims one at a time.
- Real time: clocks are numbers, timers are steps that may happen at any time they are armed.
- The errors of the STT feed the gate passes on, and the bytes it counts for billing.
- HTTP, WebSocket, SQL, Redis, JSON, Unicode tables, logging and metrics themselves; the LLM client's
  idle timeout; the FreeSWITCH manager; AudioSocket framing.
