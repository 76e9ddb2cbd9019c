# Lune: verified model of the voice pipeline

Lune is a local voice assistant. This project models the parts of it that decide what is heard, said, stored
and paid for, and proves what they promise over every input, every cutting of a stream and every interleaving.

**Text.** Tokens arrive cut anywhere. `TagScan`, `Thinking`, `Tools` (with `ToolCuts`) and `Worker` hold back what
could become a tag, remove reasoning and lift tool calls; `SentenceGates` cuts what remains into sentences. Each
has a recursive reference on the whole text, a functional form of the incremental scanner, and a class whose
loops refine it. The result depends on the text alone; for tool blocks exactly when they fit
(`ToolCuts.ExtractorExact` for the extractor, `Worker.PipelineExact` for both filters in a row). What the result
is, is said without scanning: `Responses` and `Transcripts` on responses written out with their tags, `Units` on
the characters around a terminator.

**Audio.** `Transport`, `PreRoll`, `Vad`, `TurnGate` and `VoiceInput` capture turns in absolute sample
coordinates. A ghost copy of the device stream says what exact means, and `Listener` says on coordinates alone
what is noticed and captured, which the gate is proved equal to, window by window and cut by cut. The one way to
lose samples, a confirmation that comes late, is stated, shown to happen and shown never to be harmless;
`LateTurn` follows it through the gate to the error it ends in.

**Turns.** `Playback`, `Coordinator` and `Session` are machines whose steps are what runs between two suspension
points; invariants hold over every possible run. `Deliveries` is the playback sink as a tape of chunks and fates.
What the session's steps come to is said exactly, and mostly over runs, in terms of that tape and of what has
happened: `Speaking` for what a turn says, `Endings` for which turns are completed, `Keeping` for what is
remembered. `Store` holds the tables, one write block a step, and `Writes` says when each write is accepted and
what it changes; `Proposals` and `ProposalHosts` say what a turn leaves behind. What needs one turn in flight per
generation is kept apart: `SpokenOrder` for the order of speech, `Summaries` for summaries that miss no turn,
beside `MissedTurns`, which shows the tables alone allow it.

**Money.** `Budget` and `Streaming` reserve, attempt, retry and settle; `Attempts` says what an attempt makes of a
stream without listening to it frame by frame. Money is `real`.

**Framing.** `Protocol` prints and parses the frames between the speech worker and its host.

Run `dafny verify dfyconfig.toml` in this directory to check everything. Inductions are written out: automatic
induction is switched off wherever Dafny would apply it.

Where the code and its documentation differ the code is followed: white space after a terminator makes the
sentence gate cut at once (sentences are therefore compared stripped); `MAX_TOOL_BLOCK_CHARS` is tested only
while no close tag is pending; and choosing the default devices writes the idle state, so two turns can share
a generation.

## Model

| member | source | states |
|---|---|---|
| TagScan.HeldSuffix | src/lune/llm_spike/tagscan.py:11-21 | the length returned is the largest size below every tag length at which the end of the text begins a tag, or 0 if there is none |
| TagScan.HeldOfRetained | src/lune/llm_spike/tagscan.py:11-21 | scanning the retained suffix followed by new text holds back exactly what scanning the whole text would: what was released never matters again |
| TagScan.FindAcross | src/lune/llm_spike/thinking.py:104-135 | a tag not yet in the text is found in (held suffix + new text) exactly where it is in the whole text, shifted by what was released; no tag can begin in released text |
| TagScan.HeldGrowsSlowly | src/lune/llm_spike/tagscan.py:11-21 | appending n characters lengthens the held suffix by at most n, so releasing never takes anything back |
| Thinking.ReadOn | src/lune/llm_spike/thinking.py:69-95 | reading a text in two parts is reading the first and then its unread tail with the second part |
| Thinking.FeedRefinesRead | src/lune/llm_spike/thinking.py:69-84 | one more chunk takes the filter from its state after a text to its state after the longer text, and what it lets through is the difference |
| Thinking.FilterRefinesRead | src/lune/llm_spike/thinking.py:69-148 | after any chunks the whole state of the filter (pending text, nesting, reasoning counter, violations) and everything released are a function of the concatenated text |
| Thinking.ThinkingChunkInvariant | src/lune/llm_spike/thinking.py:69-148 | for every cutting of a response the visible text and the recorded violations, after `finish`, are those of the one-pass reference `Strip`, whose meaning is `Responses.StripMeans` |
| Responses.StripMeans | src/lune/llm_spike/thinking.py:69-148 | a response written as visible text, reasoning between "<think>" and "</think>", stray close tags and perhaps an unterminated block is stripped to its visible text, with each violation once in the order in which it is first met |
| Responses.EveryResponse | src/lune/llm_spike/thinking.py:97-135 | every text is such a response, so this says what becomes of every text |
| Responses.ReasoningIsRemoved | src/lune/llm_spike/thinking.py:18-19 | a + "<think>" + reasoning + "</think>" + b is stripped to a + b, with `reasoning_emitted` and nothing else recorded for up to 32768 characters of reasoning |
| Thinking.CutAcross | src/lune/llm_spike/thinking.py:104-135 | the next cut (open tag, stray close tag, end of reasoning) seen from the held suffix is the next cut of the whole text |
| Thinking.PendingIsShort | src/lune/llm_spike/thinking.py:118-135 | after every feed exactly the longest suffix that could become a tag is held back, at most seven characters |
| Thinking.ThinkingFilter.Feed | src/lune/llm_spike/thinking.py:69-84 | the loop of passes takes the fields to the state of `FeedChunk` and returns its visible text with all violations; a closed filter refuses and changes nothing |
| Thinking.ThinkingFilter.Finish | src/lune/llm_spike/thinking.py:86-95 | flushes the pending text outside reasoning, drops it and records `unterminated_reasoning` inside, and closes the filter |
| Thinking.ThinkingFilter.ConsumeVisible | src/lune/llm_spike/thinking.py:104-122 | one pass over visible text: a tag ends it with the violation it deserves, otherwise all but the held suffix is released |
| Thinking.ThinkingFilter.ConsumeReasoning | src/lune/llm_spike/thinking.py:124-135 | one pass over reasoning: everything but the held suffix is counted and dropped, up to the close tag |
| ToolCuts.DrainKeepsUp | src/lune/llm_spike/tools.py:327-388 | at a cut that does not spill, what was let through and what the kept text will give with the rest are together what the reference gives |
| ToolCuts.SpillGains | src/lune/llm_spike/tools.py:369-388 | at a cut at which a block has overflowed while something of it is still to come, more is spoken and called than the reference would: the overflow is never harmless |
| ToolCuts.CutsExact | src/lune/llm_spike/tools.py:311-388 | over any chunks the spoken text and the calls are those of the reference if and only if at no cut a block has spilled |
| ToolCuts.FittingNeverSpills | src/lune/llm_spike/tools.py:369-388 | a text whose closed blocks have at most 8192 characters, and whose unclosed block fits, spills at no cut |
| ToolCuts.SpillingCut | src/lune/llm_spike/tools.py:369-388 | a text whose blocks do not fit spills at some cut, for a closed block just inside its close tag |
| ToolCuts.ExtractorExact | src/lune/llm_spike/tools.py:311-388 | every cutting of a text gives the reference result if and only if every closed block has at most 8192 characters and the unclosed one fits |
| Tools.RunStops | src/lune/llm_spike/tools.py:327-341 | after every feed exactly the longest suffix that could begin a tag is pending, no tag is left in what was seen, and a block in progress is within its bound |
| Tools.PendingIsShort | src/lune/llm_spike/tools.py:363-381 | between feeds at most eleven characters are held back |
| Responses.LiftMeans | src/lune/llm_spike/tools.py:355-388 | of a transcript of text and blocks between "<tool_call>" and "</tool_call>" the text outside the blocks is spoken and each block is parsed, in order, an unclosed one malformed |
| Responses.EveryTranscript | src/lune/llm_spike/tools.py:355-388 | every text is such a transcript |
| Transcripts.LiftedExactly | src/lune/llm_spike/tools.py:311-388 | however a transcript that ends outside a block is cut, its speech is spoken and its blocks are called if and only if none has more than 8192 characters |
| Transcripts.HeardAndCalled | src/lune/llm_spike/worker.py:211-256 | the same from the tokens of a response on, through both filters, for a response whose visible part is the transcript |
| Tools.ToolCallExtractor.Feed | src/lune/llm_spike/tools.py:327-341 | the loop of passes takes the fields to the state of `FeedChunk` and returns its text and calls; a closed extractor refuses |
| Tools.ToolCallExtractor.Finish | src/lune/llm_spike/tools.py:343-353 | outside a block the pending text is spoken, an unclosed block is reported malformed |
| Tools.ToolCallExtractor.ConsumeBlock | src/lune/llm_spike/tools.py:369-388 | one pass inside a block: a close tag parses the body, an overflow reports it and reads on outside, otherwise all but the held suffix joins the block |
| Worker.Collect | src/lune/llm_spike/worker.py:193-268 | the outcome is what the two filters make of the tokens one after the other (see `Transcripts.HeardAndCalled` for what that is), its text is the concatenation of what `on_text` was given, its violations are those of the whole text; failed at an error frame, cancelled at a done frame that says so, completed at any other; it raises exactly if no frame ends the generation |
| Worker.EndsFirst | src/lune/llm_spike/worker.py:215-244 | the generation ends at the first done or error frame that is not of another generation |
| Worker.TokensAre | src/lune/llm_spike/worker.py:215-226 | the tokens are those of the token frames that are not of another generation, all of them and in order |
| Worker.PipelineExact | src/lune/llm_spike/worker.py:211-256 | however the tokens of a text are cut, filter and extractor give what reasoning removal followed by block lifting gives on the whole text, if and only if no block overflows in transit |
| Worker.PipelineClosedForm | src/lune/llm_spike/worker.py:211-256 | for a text whose visible part does not end within a block this is so if and only if every closed block of the visible part has at most 8192 characters |
| Worker.OversizedInTransit | src/lune/llm_spike/worker.py:211-256 | a closed block of more than 8192 visible characters always overflows in transit, whatever reasoning surrounds it |
| Worker.FittingTravels | src/lune/llm_spike/worker.py:211-256 | a text whose visible part has fitting blocks, closed ones of at most 8192 characters, fits in transit |
| SentenceGates.ScanBoundary | src/lune/llm/sentence_gate.py:103-125 | the three index-updating scans find the boundary of the first unit; `Units.BoundaryIs` says on the characters where that is |
| Units.UnitIs | src/lune/llm/sentence_gate.py:15-21 | the first complete unit ends behind the first character that is one of the listed terminators, or a full stop without digits on both sides of it, behind all terminators and closers that follow, if anything comes after; there is none if and only if there is no such end |
| Units.BoundaryIs | src/lune/llm/sentence_gate.py:103-134 | the boundary found is that end with all the white space behind it, at the end of the text only when it is final |
| Units.SpeechIs | src/lune/llm/sentence_gate.py:40-77 | what is spoken of a text: its first sentence, stripped, unless that is blank, then the rest; the whole text if no sentence ends before its end; nothing beyond the limit |
| Units.FullStopEnds | src/lune/llm/sentence_gate.py:128-134 | a full stop in front of white space ends a sentence, whatever stands before it |
| Units.NumberIsWhole | src/lune/llm/sentence_gate.py:128-134 | a number is never cut at a full stop between its digits, over all sentences of a text |
| Units.StripIs | src/lune/pipeline/session.py:594-606 | stripping takes away the white space at both ends, all of it and nothing else |
| SentenceGates.UnitStable | src/lune/llm/sentence_gate.py:103-134 | a complete unit stays where it is whatever follows |
| SentenceGates.UnitAfterBlank | src/lune/llm/sentence_gate.py:103-134 | white space in front shifts the first unit and changes nothing else |
| SentenceGates.SentencesChunkInvariant | src/lune/llm/sentence_gate.py:40-77 | for every cutting the stripped non-empty sentences, and after the feeds the limit flag, are those of the reference on the whole text |
| SentenceGates.ReleasedIsPrefix | src/lune/llm/sentence_gate.py:40-59 | released text followed by the buffer is the input, or a prefix of it once the limit is reached, in at most `max_sentences` units, counted exactly |
| SentenceGates.SentenceGate.Feed | src/lune/llm/sentence_gate.py:40-59 | state and frames are those of `FeedChunk` (of what is spoken over all feeds see `SentencesChunkInvariant` and `Units.SpeechIs`); a frame of another generation or attempt is refused unless the limit is already reached |
| SentenceGates.SentenceGate.Finish | src/lune/llm/sentence_gate.py:61-77 | the remainder is released in units up to the limit and nothing stays buffered |
| SentenceGates.StripTwice | src/lune/pipeline/session.py:594-606 | a stripped sentence is not changed by stripping it again |
| Audio.MillisecondsToSamples | src/lune/audio/types.py:11-17 | the sample count is exact; the conversion is refused exactly for negative milliseconds, a rate that is not positive, and a threshold that falls between two samples |
| Audio.SliceExact | src/lune/audio/types.py:63-75 | a slice of a span that is exactly the device stream is exactly the device stream at its own coordinates |
| Vad.FeedIsTicks | src/lune/audio/vad.py:64-119 | an observation of any length has the events, the event samples and the resulting state of the one-sample-at-a-time automaton |
| Vad.SplitObservation | src/lune/audio/vad.py:64-119 | splitting an observation anywhere changes neither its events nor the state it leaves |
| Vad.PolicyListens | src/lune/audio/vad.py:64-119 | over any run of adjacent observations of any lengths the policy has the events and the end state of the automaton that listens to the flattened samples one at a time |
| Vad.EventsAreEarned | src/lune/audio/vad.py:64-119 | over any run of adjacent observations the policy's events are starts and ends in turn, and each is preceded by its full threshold of consecutive voiced or unvoiced samples |
| Vad.NoneIsMissed | src/lune/audio/vad.py:64-119 | and none is missing: after any run of adjacent observations a turn is open if the recording ends with a full threshold of voice, and none is if it ends with a full threshold of silence |
| Vad.FeedOutcome | src/lune/audio/vad.py:82-119 | at most one event per observation; a start lies at onset plus threshold and within the observation, an end leaves the policy reset |
| Vad.TurnPolicy.Observe | src/lune/audio/vad.py:64-80 | refused exactly when empty or not adjacent, with no change; otherwise the step of the automaton |
| PreRoll.TrimmedIsTail | src/lune/audio/preroll.py:63-71 | trimming keeps exactly the samples from the given one on |
| PreRoll.PiecesAreOverlap | src/lune/audio/preroll.py:73-100 | the collected pieces are the overlap of the ring with the requested range |
| PreRoll.PreRollBuffer.Append | src/lune/audio/preroll.py:50-61 | the ring holds exactly the last min(capacity, appended since the last clear) samples; a gap is refused and another generation starts anew |
| PreRoll.PreRollBuffer.TrimToCapacity | src/lune/audio/preroll.py:63-71 | spans in front of the capacity are popped and the first remaining one is cut |
| PreRoll.PreRollBuffer.TakeCapture | src/lune/audio/preroll.py:73-100 | answers exactly when onset and confirmation lie in the ring, with the audio from the pre-roll (as far as held) to the confirmation and an exact truncation flag |
| TurnGate.VoiceTurnGate.Feed | src/lune/pipeline/turn_gate.py:112-122 | every accepted span that is not empty is heard to its end; its events, the captured utterances included, are those of the reference listener, which forgets everything exactly on a gap; unless a confirmation is late nothing raises and every utterance is the device stream at its own coordinates; other spans change nothing |
| TurnGate.VoiceTurnGate.Pump | src/lune/pipeline/turn_gate.py:124-192 | stops at the first window with an event, as the reference listener does, with the same events; every capture is exact and every open utterance stays open until it is captured |
| TurnGate.VoiceTurnGate.ProcessWindow | src/lune/pipeline/turn_gate.py:154-192 | one window is heard as the reference listener hears it; samples are skipped at opening exactly when the confirmation is late, and the pre-roll is cut short only by the stream start or a cleared ring, never by the capacity |
| Listener.CutsDoNotMatter | src/lune/pipeline/turn_gate.py:112-192 | however a gap-free stream is cut into spans, the listener notices the same starts, ends and utterances, those of its consecutive windows |
| Listener.HandledIsHeard | src/lune/pipeline/turn_gate.py:124-152 | pumping until nothing happens any more hears every complete window that is buffered |
| Listener.TurnsAreThePolicys | src/lune/pipeline/turn_gate.py:154-192 | as long as no utterance reaches its bound the turns noticed are exactly the events of the policy on the consecutive windows with the same verdicts |
| Listener.UndisturbedIsHeard | src/lune/pipeline/session.py:239-250 | if nothing is done to the gate while a span is handled, every window of it is heard, and nothing else |
| TurnGate.VoiceTurnGate.ProcessVerdict | src/lune/pipeline/turn_gate.py:154-192 | the same window for a given verdict of the detector: what the policy made of it, how many samples were skipped, and that a turn with skipped samples within the maximum ends in a raise |
| TurnGate.VoiceTurnGate.CarryOverGeneration | src/lune/pipeline/turn_gate.py:94-103 | a barge-in moves the utterance to the new generation unchanged and still exact, and empties the ring; moving backwards is refused; the gate stays fit for use exactly when no voiced run was pending before a turn |
| TurnGate.SurvivesIff | src/lune/pipeline/turn_gate.py:94-122 | after a barge-in the spans still queued are all accepted, so that no gap discards the utterance, if and only if each has the new generation or the one just carried over: a second barge-in before an older span is read loses the utterance |
| TurnGate.VoiceTurnGate.ResetGeneration | src/lune/pipeline/turn_gate.py:82-92 | a reset discards every buffered sample; moving backwards is refused |
| TurnGate.VoiceTurnGate.RestartTimeline | src/lune/pipeline/turn_gate.py:144-152 | after dropped input nothing buffered survives, so nothing is spliced across the gap |
| TurnGate.VoiceTurnGate.CloseUtterance | src/lune/pipeline/turn_gate.py:213-224 | the capture begins where the utterance was opened and ends at the end-of-turn sample or the maximum; with skipped samples within the maximum it cannot be built |
| TurnGate.ExactIffNothingSkipped | src/lune/pipeline/turn_gate.py:194-218 | the capture is the device stream for every stream if and only if no sample was skipped at opening |
| TurnGate.DefaultThresholds | src/lune/audio/vad.py:27-44 | the default thresholds in samples are 100, 300 and 350 ms at 16 kHz |
| TurnGate.LateConfirmationHappens | src/lune/audio/vad.py:82-103 | a run pending while the assistant falls silent is confirmed before the current window: 192 ms suffice |
| LateTurn.LateTurnRaises | src/lune/pipeline/turn_gate.py:154-224 | for every device stream of thirty windows: six voiced ones under the assistant's voice, a seventh when it is silent and eleven silent ones leave the gate with 1472 samples skipped and the capture of the utterance raises |
| Transport.LocalAudioTransport.AudioCallback | src/lune/audio/transport.py:61-94 | the cursor advances by every well-formed callback, queued or not, so a drop is a hole in the coordinates; what is queued is the device stream at its coordinates |
| Transport.LocalAudioTransport.Rebuild | src/lune/audio/transport.py:132-143 | a rebuild starts a new timeline with an empty queue and the microphone off |
| VoiceInput.HandleAudio | src/lune/pipeline/session.py:239-250 | feeding, acting on events (with carry-over on barge-in) and pumping never raises, whatever the assistant does and whatever other cancellations reset the gate in between, unless a confirmation is late on arrival; the utterances handed on are exact, and are all that the reference listener captures along the moves made |
| VoiceInput.ReadAndHandle | src/lune/pipeline/session.py:239-250 | the same from the transport queue on: utterances are exactly what the microphone delivered |
| VoiceInput.ValidGrows | src/lune/audio/transport.py:61-94 | callbacks that arrive in the meantime disturb nothing that is buffered: exactness is kept as the device stream grows |
| VoiceInput.NotLate | src/lune/pipeline/session.py:239-250 | after any event the next confirmation cannot be late, whatever flag the next pump is given |
| Playback.RunConsistent | src/lune/pipeline/playback.py:110-236 | over every interleaving of submits, stops, writer steps, drains and close: the queue is what is queued, counters match, fates are explained, writes keep the accept order |
| Deliveries.SinkIsTape | src/lune/pipeline/playback.py:110-236 | after every run the sink is a tape of accepted chunks with their fates: a chunk is accepted exactly if the sink is open, its generation neither stopped nor failed, and fewer than `capacity` chunks are queued; the writer takes the oldest queued one, a stop purges the queued ones of its generation and older ones, and writing begins exactly when something is queued and nothing in flight |
| Playback.Conservation | src/lune/pipeline/playback.py:110-224 | per generation accepted = written + failed + purged + queued + in flight, and for unstopped generations the pending counter is queued + in flight |
| Playback.DrainedIsWritten | src/lune/pipeline/playback.py:151-164 | a drain that answers True has seen every accepted chunk of the generation written |
| Playback.DrainAnswersExactly | src/lune/pipeline/playback.py:151-164 | in every reachable state a drain answers True if and only if every accepted chunk of the open generation has been written, False if and only if one has failed and the drain enters or nothing is on its way, or if it is stopped or closed, and waits otherwise |
| Playback.WaitingIsJustified | src/lune/pipeline/playback.py:151-164 | no wake-up is lost: whoever waits has a chunk queued or in flight |
| Playback.TakeIsNeverStale | src/lune/pipeline/playback.py:183-204 | no device write begins behind the high-water mark |
| Playback.StoppedStaysStopped | src/lune/pipeline/playback.py:110-149 | after any step a stopped generation is still stopped and has nothing queued, accepted or begun |
| Playback.StoppedForever | src/lune/pipeline/playback.py:110-149 | over every run a stopped generation has nothing queued, accepted or begun ever again; at most the write already in flight ends |
| Playback.PlaybackSink.StopGeneration | src/lune/pipeline/playback.py:130-149 | emptying the queue chunk by chunk and putting back what is not stale is the purge of `Stop` |
| Playback.PlaybackSink.SubmitChunk | src/lune/pipeline/playback.py:110-128 | refuses closed, stopped, failed and full (marking the overflow), accepts and counts otherwise |
| Playback.PlaybackSink.WriterLands | src/lune/pipeline/playback.py:183-204 | a finished write releases its chunk, a failed one also fails its generation |
| Playback.PlaybackSink.DrainLooks | src/lune/pipeline/playback.py:151-164 | one look of a drain, as in `DrainAnswersExactly`: it answers, or it waits and is recorded as waiting |
| Coordinator.RunConsistent | src/lune/pipeline/coordinator.py:103-151 | with any number of overlapping cancels, fences reach every collaborator in order and the history has no gap |
| Coordinator.CancelIsCarriedOut | src/lune/pipeline/coordinator.py:103-151 | the caller at the head of the queue gets through whatever its collaborators do: playback is stopped, recogniser, gate and transport get its fence, and the cancellation is recorded with exactly the stages that raised, among the last 64 |
| Coordinator.CancelJoins | src/lune/pipeline/coordinator.py:103-114 | another caller advances the generation by one at once and joins the queue behind the others, which it does not disturb |
| Coordinator.NoFenceRejects | src/lune/pipeline/coordinator.py:103-151 | no recogniser and no turn gate is ever asked to move backwards |
| Coordinator.HistoryIncreases | src/lune/pipeline/coordinator.py:103-135 | recorded cancellations follow each other by exactly one |
| Coordinator.Settled | src/lune/pipeline/coordinator.py:103-151 | when no cancel is running recogniser, gate and transport hold the coordinator's generation and playback is stopped below it |
| Coordinator.FenceIsFinal | src/lune/pipeline/coordinator.py:100-114 | a generation that is not current never becomes current again |
| Session.RunConsistent | src/lune/pipeline/session.py:423-693 | over every interleaving, also with several turns in one generation, each frame acts on the turn that is active when it arrives, and each turn's text is the sentences recorded for it |
| Session.CompleteIsSpoken | src/lune/pipeline/session.py:594-693 | in every reachable state, however turns share generations, a complete turn's assistant text is the concatenation of stripped non-empty sentences, at least one, each with all its synthesized chunks accepted under the turn's generation and written |
| SpokenOrder.SpokenInOrder | src/lune/pipeline/session.py:594-693 | with one turn in flight per generation every turn's sentences went to the device one after the other: all chunks of one before any chunk of the next |
| Session.StaleIsFrozen | src/lune/pipeline/session.py:480-543 | once the fence is past a turn's generation, over every continuation the turn gains no assistant text and does not become complete |
| Session.FinishRow | src/lune/pipeline/session.py:480-543 | finishing changes one row, only its status, and to complete only under the current fence; when it does is `Endings.FinishCompletes` |
| Endings.FinishCompletes | src/lune/pipeline/session.py:480-543 | a turn is completed if and only if its generation completed and is current, it has spoken, and neither a sentence nor its provider loop failed; otherwise it is cancelled and leaves no memory and no score event |
| Endings.CompleteIffEarned | src/lune/pipeline/session.py:423-706 | over every run, in terms of what has happened: the complete turns are exactly those finished by a completed generation under the fence they began under, after something of them had been stored, and with no failed, refused or unspeakable sentence until then |
| Endings.FlagsExactly | src/lune/pipeline/session.py:594-706 | every step spoils a turn exactly if it is a flaw, and marks it as having spoken exactly if it stores a sentence of it |
| Speaking.SaidExactly | src/lune/pipeline/session.py:594-706 | what a turn has said grows exactly by the sentences heard: a text sentence when it arrives, a spoken one when every chunk of its generation has been written, under the current fence and while its turn is pending |
| Speaking.HandExactly | src/lune/pipeline/session.py:594-706 | every step, for every task: a sentence is taken in hand as it was said, each chunk the device admits is put to it, and the first that is not admitted, a failure, or the end of the drain lets it go |
| Speaking.DeviceExactly | src/lune/pipeline/session.py:657-706 | after every step the tape of the device is what it was, or has made the one move the step stands for: a chunk of the current generation offered, a stop, or the work of the writer |
| Speaking.FenceExactly | src/lune/pipeline/session.py:657-706 | the fence moves on with a cancellation and when a chunk of the current generation finds no room, and otherwise never |
| Speaking.BeginsExactly | src/lune/pipeline/session.py:423-440 | a turn begins exactly for a transcript that is not blank, under the current fence, in a known session |
| Proposals.MemoriesAreEarned | src/lune/memory/proposals.py:106-174 | with one turn in flight per generation, at every step boundary every stored memory and score event comes from a complete turn, at most one of each per turn, and the score is consistent |
| Proposals.SupersededLeavesNothing | src/lune/memory/proposals.py:89-174 | a superseded turn that was not complete never leaves a memory or a score event, over every continuation |
| Proposals.CommittedIsCurrent | src/lune/memory/proposals.py:106-174 | in any interleaving, only finishing a turn stores memories or score events, and only from proposals of the current generation |
| Keeping.OffersExactly | src/lune/pipeline/session.py:608-655 | what is proposed after every step: what was, in its order and without the generation dropped or finished, and then the valid proposal the step makes, at most one of each kind a turn and under a fresh identifier |
| Keeping.AllowanceExactly | src/lune/llm_spike/tools.py:127-210 | a valid call uses up the allowance of its kind for the turn it reaches, whether or not the proposal is then taken up; any other call changes no record |
| Keeping.FinishKeeps | src/lune/memory/proposals.py:106-174 | a completed turn leaves, in this order, every due memory that is not known yet and every due step that the score can take (session within 3, score within 0..100, one a turn); a turn that is not completed leaves none; neither leaves anything proposed |
| Keeping.RunScores | src/lune/memory/store.py:781-861 | over every interleaving of turns, also with shared generations, the score is 50 plus its events, within 0..100, and moved by at most 3 in each session |
| Proposals.FinishEarns | src/lune/pipeline/session.py:519-543 | finishing a turn leaves all stored memories with complete sources if and only if, when it completes, it commits nothing new that another turn of its generation has proposed |
| Proposals.FinishEarnsScore | src/lune/pipeline/session.py:519-543 | the same for score events: all stored ones stay with complete turns if and only if, when the turn completes, no applicable score proposal of its generation is another turn's |
| Proposals.SharedGenerationLeaks | src/lune/pipeline/session.py:234-237 | a reachable run in which two turns share a generation and a memory is stored whose turn is not complete |
| ProposalHosts.ProposalHost.CommitGeneration | src/lune/memory/proposals.py:106-174 | a current generation's proposals are written memories first, each against its still pending turn; in any case none of the generation stays proposed |
| ProposalHosts.ProposalHost.CancelGeneration | src/lune/memory/proposals.py:89-104 | exactly the generation's proposals are dropped, the others keep their order, and the count is returned |
| ProposalHosts.ProposalHost.ProposeMemory | src/lune/memory/proposals.py:59-74 | declined exactly when the identifier is known or the turn is not pending under that session and generation, only then refused for empty content, an unknown category or an importance outside 0..1, and otherwise appended |
| ProposalHosts.ProposalHost.ProposeAffinity | src/lune/memory/proposals.py:76-87 | a delta other than one up or down is refused first; then declined as for memories; otherwise appended |
| Store.AffinityOverRuns | src/lune/memory/store.py:781-861 | over every run of writes the score is 50 plus all deltas within 0..100, each session moves it by at most 3, each event records the running score, and no turn has two events |
| Writes.AffinityExactly | src/lune/memory/store.py:781-861 | a step of one is applied if and only if neither its identifier nor its turn has an event, the turn is of that session and generation, the ups and downs of the session stay within 3 and the score within 0..100; what is an error and what is passed over is said exactly, in the order of the source |
| Writes.MemoryExactly | src/lune/memory/store.py:692-760 | a memory is a duplicate if and only if its identifier or its normalized text is known, is refused if then its turn is missing, and is appended otherwise |
| Writes.BeginExactly | src/lune/memory/store.py:262-291 | a turn begins in exactly the known sessions, as a pending row one above every earlier number of the session, and nothing else changes |
| Writes.TranscriptExactly | src/lune/memory/store.py:293-301 | a transcript is taken if and only if it has 1 to 20000 characters and the turn is pending and has none |
| Writes.AppendExactly | src/lune/memory/store.py:1036-1066 | text is added, without a separator, if and only if it has 1 to 20000 characters and the turn is pending |
| Writes.EndExactly | src/lune/memory/store.py:354-400 | a pending turn is cancelled always and completed if and only if both have spoken; only its status changes |
| Writes.AdvanceExactly | src/lune/memory/store.py:609-673 | a summary is accepted if and only if it has 1 to 20000 characters and names four complete turns of a known session that follow one another behind what is covered; it then ends with the last, counts four more and begins where it began |
| Writes.DueExactly | src/lune/memory/summary.py:30-45 | a summary is due if and only if more than twelve complete turns follow the covered ones and the fence is current; it is then of the next four |
| Store.CoverageOverRuns | src/lune/memory/store.py:609-673 | over every run a session's coverage is four turns an advance, in sequence order, none twice |
| Store.AdvanceCovers | src/lune/memory/store.py:609-673 | an accepted advance covers exactly the next four complete turns behind everything covered before |
| Store.CoveredOrUnsummarized | src/lune/memory/store.py:560-573 | a complete turn is never both covered and unsummarized, and always one of them while nothing was missed |
| Store.CompletionMissesNothing | src/lune/memory/store.py:354-387 | one write keeps every complete turn covered or unsummarized if and only if it does not complete a turn behind the covered range |
| Store.RunMissesNothing | src/lune/memory/store.py:354-673 | over every run of writes every complete turn is covered or unsummarized if and only if that was so at the start and no write of the run completes a turn behind the covered range: a missed turn stays missed |
| MissedTurns.TurnsCanBeMissed | src/lune/memory/store.py:609-673 | it happens from an empty store: turn 1 waits, turns 2 to 5 complete and are summarized, turn 1 completes, and it is neither covered nor unsummarized |
| Summaries.SummariesMissNothing | src/lune/pipeline/session.py:480-543 | with one turn in flight per generation it does not happen in the session: over every interleaving each complete turn is in exactly one of covered and unsummarized |
| Store.SummaryTakesFour | src/lune/memory/summary.py:30-53 | a summary is accepted only while current and only for exactly the turns it was made from, if they are still the next four; it takes these off and touches no other session |
| Store.MemoryStore.ChangeAffinity | src/lune/memory/store.py:781-861 | declines duplicates, session sums beyond 3 and scores outside 0..100, refuses bad deltas and mismatched turns, and otherwise appends the event with the new score |
| Store.MemoryStore.Begin | src/lune/memory/store.py:262-291 | the new pending turn has the next sequence number of its session; an unknown session is refused |
| Store.MemoryStore.AppendAssistant | src/lune/memory/store.py:1036-1066 | content is appended to a pending turn without a separator; empty, overlong and non-pending are refused |
| Store.MemoryStore.Advance | src/lune/memory/store.py:609-673 | anything but the next four unsummarized complete turns is refused without change |
| Budget.ActualWithinReserved | src/lune/llm/budget.py:202-234 | usage within the reserved tokens costs at most the reservation, however the input was cached |
| Budget.UnitPrices | src/lune/llm/budget.py:202-234 | the price of a million tokens of each kind for each model |
| Budget.UsageAdds | src/lune/llm/budget.py:202-234 | usage taken together costs what its parts cost, so that the prices of the units say it all |
| Budget.ReservationIsWorst | src/lune/llm/budget.py:202-234 | a reservation costs as much as the dearest usage within its bounds, and no usage within them costs more |
| Budget.ReserveTotals | src/lune/llm/budget.py:143-167 | a reservation adds its cost to its own month only, and only below the lock; a refusal changes nothing |
| Budget.ReserveExactly | src/lune/llm/budget.py:143-167 | a reservation is made if and only if its bounds make sense and it is free or keeps the month below the lock; it is then the newest one, at its own cost |
| Budget.ConversationExactly | src/lune/llm/budget.py:122-141 | Terra exactly while it keeps the month below the fallback line, otherwise Luna exactly while it is free or keeps the month below the lock |
| Budget.SettleExactly | src/lune/llm/budget.py:169-200 | an open attempt is settled once, for its own usage or all that was reserved; an unknown one, or one with the usage of another, leaves the same reservations open |
| Budget.SettleTotals | src/lune/llm/budget.py:169-200 | settling replaces the reservation by the charge in its own month; without usage the month does not move |
| Budget.SettleNeverRaises | src/lune/llm/budget.py:169-200 | an honest settlement never raises any month's total |
| Budget.NeverReachesLock | src/lune/llm/budget.py:111-200 | over every honest run that starts below the lock, confirmed cost plus active reservations of every month stay below it |
| Budget.TerraNeverLocks | src/lune/llm/budget.py:122-141 | Terra is selected only below the fallback line, hence choosing it cannot raise `BudgetLocked`; a refusal is always Luna's |
| Budget.ConfirmedIsCharged | src/lune/llm/budget.py:169-200 | what a month's confirmed cost gained over a run is what the settlements charged to it |
| Budget.BudgetLedger.SettleAttempt | src/lune/llm/budget.py:169-200 | unknown attempts and foreign usage are refused, everything else is settled as `Settle` says |
| Streaming.AttemptSpeaks | src/lune/llm/streaming.py:183-273 | the text emitted by an attempt is what the sentence gate makes of its texts, the remainder only if completed, the error sentence only if it broke off after speaking; the count is exact and at most three, and a retry means silence |
| Streaming.PlayCounts | src/lune/llm/streaming.py:183-273 | whatever raises, at most three sentences reach the sink, and an attempt that returns has been settled and counts exactly what was emitted |
| Streaming.RaisesWithin | src/lune/llm/streaming.py:209-215 | if the sink raises while the stream is being heard, what it took is the beginning of what the attempt would have emitted, and the reservation is left unsettled |
| Streaming.HearAllInStep | src/lune/llm/streaming.py:183-229 | at every point of a stream the gate has seen exactly the attempt's own texts and everything it released was emitted |
| Attempts.HeardExactly | src/lune/llm/streaming.py:196-229 | a stream is listened to exactly as long as the generation is current at every frame of the attempt and its text does not make three sentences; what is known then are its own texts and calls up to its first own terminal frame, and its last own usage |
| Attempts.StopsExactly | src/lune/llm/streaming.py:200-220 | where listening stops: at the first frame that is not heeded, as overtaken if the generation was not current and otherwise with a text that has made the third sentence |
| Attempts.EndsExactly | src/lune/llm/streaming.py:230-273 | a stream heeded to its end reports what its first terminal frame says, and a transient `stream_incomplete` without one; it is charged its last own usage |
| Attempts.StopsWith | src/lune/llm/streaming.py:200-220 | a stream not heeded to its end reports completed or cancelled, asks for no retry, and is charged its last own usage, what the provider still owed included |
| Attempts.RetriesExactly | src/lune/llm/streaming.py:159-173 | Luna is tried after Terra if and only if Terra failed for a passing reason, or did not end its stream, before anything was said, nothing raised, and the generation is still current |
| Streaming.ConversationGenerator.RunAttempt | src/lune/llm/streaming.py:183-273 | over any finite stream of foreign, stale, late and usage frames, and wherever the provider or the sink raises, the attempt gets as far as `Play` says: what it emitted, what it reports, and whether its reservation was settled once with the usage known by then or is still open |
| Streaming.ConversationGenerator.Generate | src/lune/llm/streaming.py:129-181 | ends after at most two attempts; if it returns, each reservation made is settled once with its own usage and the active set is unchanged, if it raises at most the last one stays open; Luna is tried exactly after a silent, transient, still current Terra; emissions and result are those of the attempts |
| Protocol.PcmDecodeEncode | src/lune/tts/protocol.py:75-104 | an encoded audio frame is decoded to itself over the full 64/32/32/16-bit ranges, and fits `MAX_FRAME_BYTES` |
| Protocol.PcmEncodeDecode | src/lune/tts/protocol.py:167-180 | whatever is decoded as audio is encodable and encodes to the very bytes it was read from |
| Protocol.UnpackPack | src/lune/tts/protocol.py:20-21 | big-endian packing of any value in range is undone by unpacking |
| Protocol.PcmOnTheWire | src/lune/tts/protocol.py:92-180 | a body is an audio frame if and only if its bytes say so: kind 2, then generation, sequence and rate and channels most significant byte first, each in range, and at most a megabyte of whole samples |
| Protocol.ControlOnTheWire | src/lune/tts/protocol.py:92-147 | a body is a control frame if and only if it is of kind 1, has at most 64 KiB of JSON and that is read; every other body raises, with which error is said exactly |
| Protocol.EncodedOnTheWire | src/lune/tts/protocol.py:75-104 | what the encoder prints, byte by byte, and exactly when it refuses |
| Protocol.ControlEncodedOnTheWire | src/lune/tts/protocol.py:51-72 | a control frame is printed if and only if its JSON has at most 64 KiB, as length, kind and JSON |
| Protocol.NextOnTheWire | src/lune/tts/protocol.py:189-202 | a frame is there as soon as as many bytes have come as its first four announce, and a length of zero or above the limit is refused |
| Protocol.DecoderFragmentInvariant | src/lune/tts/protocol.py:183-202 | error and remaining buffer do not depend on how the stream was fragmented; the frames returned are always a beginning of those of the stream, and all of them if there is no error |
| Protocol.DecoderExact | src/lune/tts/protocol.py:183-202 | every fragmentation returns the frames of the stream if and only if the stream has no error or nothing in front of it |
| Protocol.FramesBeforeError | src/lune/tts/protocol.py:189-202 | where the stream turns bad within one fragment, the frames returned are exactly those of the fragments before it: the complete frames of that fragment are lost |
| Protocol.ErrorLosesFrames | src/lune/tts/protocol.py:189-202 | a good frame followed by a bad one: fed apart the first is returned, fed together it is lost with the raise |
| Protocol.DecoderInvertsEncoder | src/lune/tts/protocol.py:183-202 | any fragmentation of concatenated frames gives exactly these frames, in order, and an empty buffer |
| Protocol.PrintedIsFramable | src/lune/tts/protocol.py:51-89 | whatever the encoder prints is one frame that the decoder reads back, for audio always and for control frames whose JSON is read back |
| Protocol.ReadFrameAgrees | src/lune/tts/protocol.py:205-217 | reading frame by frame agrees with the incremental decoder up to the end of the stream or the first error |
| Protocol.FrameDecoder.Feed | src/lune/tts/protocol.py:189-202 | complete frames are returned and removed; an error is raised and loses the frames of the same call |

## Left out

- TurnGate.VoiceTurnGate.Pump: the detector's verdict on a window is a function of the window's first sample, arbitrary but the same whenever that window is heard.
- Budget.BudgetLedger.SettleAttempt: the sink that is told of a settlement, and what happens if it raises, are not modelled.
- Worker.Collect: timings and usage figures in the outcome are not modelled.
- Worker.PipelineClosedForm: for a text that ends within a block the exact condition is `FitsInTransit` of `Worker.PipelineExact`, which follows the filter's releases.
- PreRoll.PreRollBuffer.Append: the capacity is positive; with a capacity of zero the source's ring keeps nothing.
- TurnGate.VoiceTurnGate.Feed: mono 16-bit audio; the refusals of a changed sample rate or channel count are not modelled, and the voice detector is an arbitrary Boolean per window.
- VoiceInput.HandleAudio: requires that no confirmation is late when the span arrives (`Late`, a test on the policy's fields); `LateConfirmationHappens`, `ExactIffNothingSkipped` and `LateTurn.LateTurnRaises` say what happens otherwise.
- Session.CompleteIsSpoken: a backend's chunks carry the generation of their request; the order of the sentences on the device is `SpokenOrder.SpokenInOrder`, under its condition.
- Proposals.MemoriesAreEarned: assumes one turn in flight per generation, a condition on each beginning turn; `FinishEarns`, `FinishEarnsScore` and `SharedGenerationLeaks` cover the general case.
- Proposals.FinishEarns: proposal identifiers are fresh, since the source draws them at random.
- Store.MemoryStore.AppendAssistant: content arrives already stripped; identifiers are row numbers and counters; timestamps, retrieved-memory links, titles and forgetting are not modelled.
- Coordinator.RunConsistent: the proposal fence cannot fail and is not a step; deciding between resetting and carrying over the gate is by reason only.
- Playback.Conservation: failed generations and first-audible times are tracked without the source's eviction after 128 entries.
- Streaming.ConversationGenerator.Generate: other attempts on the same ledger do not run meanwhile (`Newest`); for their operations in any order see `Budget.NeverReachesLock`. What a provider streams is an arbitrary finite script.
- ProposalHosts.ProposalHost.CommitGeneration: a store error in the middle of a commit (a proposal of more than 20 000 characters) is not modelled, nor are the formats of identifiers.
- LateTurn.LateTurnRaises: one concrete turn with the default thresholds; `ExactIffNothingSkipped` is the general statement.
- VoiceSession and GenerationCoordinator are modelled on values, as steps between suspension points, because a method cannot be interleaved; cancellation of a task in the middle of a step is not modelled.
- Tool-call validation: one accepted call of each kind per turn is modelled in the session machine; the checks on fields are one Boolean.
- Tool-block and control-frame JSON parsing are arbitrary functions; so are the character classes of Unicode, which need only be disjoint.
- The latest-wins slot and worker loop of the recogniser: its fence is part of the coordinator, the rest would add easy members.
- Time zones and months: the month of a moment is a parameter of the ledger.
- Store.SummaryTakesFour: the text of a summary is arbitrary, and so is what happens to the tables while it is written.
- Devices, models, network transport, desktop shell, configuration and storage engine.
