# Hindi voice assistant: a Dafny model

This project models the control and decision logic of the Hindi voice assistant.
That assistant listens to a microphone and waits for its wake word ("निरंजन").
It then acknowledges and opens a five-second window for a spoken command. A
command it hears is answered from a fixed table of Hindi replies, after which it
stays in a continuous-conversation mode of ten-second windows. If the first
window is silent, it reprompts once. The model covers three source files:

- `hindi_voice_assistant.py`, the assistant itself:
  - the capture callback's decimation by three and the bounded audio queue
    (module `Capture`);
  - `process_command`'s reply selection, the wake-word test and the date
    helpers (module `Commands`);
  - `speak`, `clear_audio_queue`, `listen_with_timeout` and the main loop
    (module `Conversation`).
- `assistant_core.py`: the keyword intent classifier and its reply map (module
  `AssistantCore`).
- `hindi_asr_vosk.py`: the voice-activity segmenter that feeds speech frames to
  the recogniser and takes one result per utterance (module `Segmenter`).

Module `Text` holds the string machinery these modules share:
- Python's `w in s`;
- `str.strip()`;
- first-match search over an ordered table;
- decimal rendering.

The recogniser, the voice-activity detector and the clock are outside the model.
- The main loop's environment is two finite streams, taken in program order:
  - the clock readings, one per `time.time()` call;
  - the recogniser's verdict on each chunk taken from the queue.
- Each part of the main loop has two forms:
  - a pure function over these streams that produces the observable events
    (speech, tones, queue flushes, listening windows and their results, command
    dispatches);
  - a method of the `Conversation.Assistant` class.

  The class state holds the queue, the `is_speaking` flag, the event log and the
  unread input. Each method is proved to append exactly the events its function
  gives. The properties of the loop are proved as lemmas about these functions.
- The segmenter works the same way: `Segmenter.Segmenter`'s methods are tied to
  the pure `StepSpec`/`RunSpec`.

Three behaviours of the code are easy to misread; the model follows the code in
each:
- A failed first window leads to a single reprompt window. Even when that window
  hears a command, the assistant returns to waiting for the wake word and does
  not enter continuous mode.
- The audio queue has no overflow policy. A `put` on a full queue waits. Nothing
  is dropped or evicted. In the model, `Put` and `Callback` return `stored`
  false for a put that is still waiting; the caller keeps the chunk and offers it
  again.
- The `is_speaking` flag is only raised inside `speak`, which runs on the loop's
  own thread, so the loop's busy-wait on it never fires. `Assistant.Run` keeps
  `!isSpeaking` as a loop invariant.

## Model

| member | source | states |
|---|---|---|
| Text.TrimStart | assistant_core.py:6 | the leading whitespace run is removed exactly: the result is a suffix of the text, starts with a non-space character or is empty, and everything dropped is whitespace |
| Text.TrimEnd | assistant_core.py:6 | the trailing whitespace run is removed exactly: the result is a prefix of the text, ends with a non-space character or is empty, and everything dropped is whitespace |
| Text.Strip | assistant_core.py:6 | `str.strip()` is never longer than its input and neither starts nor ends with whitespace; `Text.StripSlice` shows it is the slice between the leading and trailing whitespace runs and `Text.StripIdempotent` that stripping twice changes nothing |
| Text.StripIdempotent | assistant_core.py:6 | stripping an already stripped text changes nothing |
| Text.ContainsStrip | assistant_core.py:6-15 | for a non-empty word with no whitespace at either end, it occurs in the stripped text iff it occurs in the original |
| Text.ContainsTransitive | hindi_voice_assistant.py:43-47 | a word occurring in a word that occurs in a text occurs in the text |
| Text.FirstWhere | hindi_voice_assistant.py:117-120 | the index found satisfies the test and no earlier entry does; `None` only when no entry satisfies it |
| Text.ContainsAnyConcat | assistant_core.py:8-18 | `any` over a concatenated word list is the disjunction of `any` over each part |
| Text.Decimal | assistant_core.py:24 | `str(n)` is a non-empty run of decimal digits with no leading zero |
| Text.DecimalRoundTrip | assistant_core.py:24 | reading back the digits of `str(n)` gives `n` |
| Text.DecimalOfNumeral | assistant_core.py:24 | every digit string without a leading zero is `str` of the number it denotes, so `str(n)` is the only numeral for `n` |
| Text.NumeralPositive | assistant_core.py:24 | a numeral not starting with '0' denotes a positive number |
| Text.TwoDigits | hindi_voice_assistant.py:145 | `%H`/`%M` is two decimal digits denoting the field's value |
| AssistantCore.DetectIntent | assistant_core.py:5-18 | the result is always one of TIME_QUERY, WEATHER_QUERY, GREETING, UNKNOWN |
| AssistantCore.Classify | assistant_core.py:8-18 | every text is classified as one of the four intent labels |
| AssistantCore.DetectIntentPriority | assistant_core.py:8-18 | TIME_QUERY iff a time keyword occurs; WEATHER_QUERY iff no time keyword and a weather keyword occur; GREETING iff neither of those and a greeting keyword occurs; UNKNOWN iff none of the seven keywords occurs |
| AssistantCore.StripKeepsWords | assistant_core.py:6-15 | for keyword lists without edge whitespace, `any` over the stripped text equals `any` over the raw text |
| AssistantCore.DetectIntentIgnoresStrip | assistant_core.py:6 | `detect_intent(strip(text)) == detect_intent(text)` |
| AssistantCore.GenerateResponse | assistant_core.py:21-33 | total over every string: WEATHER_QUERY and GREETING get their fixed replies, every other string except TIME_QUERY gets the apology, and the TIME_QUERY reply parses back to the given hour and minute; with `TimeReplyExact` this pins the reply to the text written with `str(hour)` and `str(minute)` |
| AssistantCore.TimeReplyRoundTrip | assistant_core.py:22-24 | the time reply embeds the supplied hour and minute, recoverable by reading its two digit runs |
| AssistantCore.TwoFieldsExact | assistant_core.py:24 | a string read as two numbers is exactly the lead, the first number's `str`, the separator, the second number's `str` and the tail: no zero-padded or otherwise different text is accepted |
| AssistantCore.TimeReplyExact | assistant_core.py:24 | a string read as a time reply for an hour and a minute is exactly the f-string `generate_response` writes for them |
| AssistantCore.DigitsThenExact | assistant_core.py:24 | a string read as hour numeral, separator, minute numeral and tail is exactly that concatenation |
| AssistantCore.LastDigitsExact | assistant_core.py:24 | a string read as minute numeral and tail is exactly that concatenation |
| AssistantCore.TwoFieldsRoundTrip | assistant_core.py:24 | two numbers written in decimal between a lead, a separator and a tail that do not start with a digit are read back exactly |
| AssistantCore.DigitsThenOf | assistant_core.py:24 | the hour digits, the separator, the minute digits and the tail parse back to the hour and the minute |
| AssistantCore.LastDigitsOf | assistant_core.py:24 | the minute digits followed by the tail parse back to the minute |
| AssistantCore.DigitRun | assistant_core.py:24 | the digit run at the start of a string is maximal |
| Commands.IsWake | hindi_voice_assistant.py:240 | `any(word in text for word in WAKE_WORDS)` over the five-entry list; `Commands.WakeWordsReduce` proves it holds exactly when one of the three distinct base words occurs |
| Commands.WakeWordsReduce | hindi_voice_assistant.py:43-47 | the five-entry wake list accepts exactly the texts containing one of its three distinct base words (the duplicate and the "हे ..." entry add nothing) |
| Commands.HindiMonth | hindi_voice_assistant.py:69-78 | a known English month maps to its Hindi name, which differs from it; any other name is returned unchanged |
| Commands.MonthNamesDistinct | hindi_voice_assistant.py:69-74 | no two months share a Hindi name |
| Commands.HindiDate | hindi_voice_assistant.py:68-79 | the date is the day, one space, the Hindi month, one space, the year, each field at its exact position |
| Commands.SpacedFields | hindi_voice_assistant.py:79 | in `day + " " + month + " " + year` each field sits at its exact position and the length is the sum plus two |
| Commands.DaysToNextSunday | hindi_voice_assistant.py:156-159 | the offset is between 1 and 7, lands on Sunday (`tm_wday` 6) and is the smallest such offset: the next strictly later Sunday |
| Commands.Render | hindi_voice_assistant.py:144-164 | the sentence a chain branch speaks: its fixed text, or the clock time as two zero-padded fields (`Text.TwoDigits`), the date as day, Hindi month and year (`Commands.HindiDate`), the weekday name, or the date of the next strictly later Sunday (`Commands.DaysToNextSunday`) |
| Commands.Select | hindi_voice_assistant.py:117-167 | first-match reply selection over a keyword table and a branch chain; `Commands.SelectFirstMatch` proves the first occurring key decides, else the first branch whose test holds, else the apology |
| Commands.Reply | hindi_voice_assistant.py:96-167 | `process_command`'s reply over the source's own table and chain; `Commands.ReplyFirstMatch` proves its first-match rule and `Commands.PrimeMinisterShadowsKisanScheme` an instance of key order deciding |
| Commands.ReplyFirstMatch | hindi_voice_assistant.py:96-167 | the first table key, in insertion order, that occurs decides the reply; with no key, the first elif branch whose test holds; with neither, the apology |
| Commands.SelectFirstMatch | hindi_voice_assistant.py:117-167 | for any ordered key table and elif chain: the first key that occurs decides the reply; with no key, the first branch whose test holds; with neither, the apology |
| Commands.SecondKeyWins | hindi_voice_assistant.py:117-120 | when the first key is absent and the second occurs, the second key's reply is chosen, whatever later keys occur |
| Commands.DollarTestIsOneWord | hindi_voice_assistant.py:163-164 | the dollar branch's test holds iff "डॉलर" occurs |
| Commands.LitreTestIsOneWord | hindi_voice_assistant.py:141-142 | the litre branch's test holds iff "मिलीलीटर" occurs |
| Commands.PrimeMinisterShadowsKisanScheme | hindi_voice_assistant.py:99-120 | a text naming the prime minister and not the Taj Mahal gets the prime-minister reply, even when it names the farmers' scheme |
| Capture.Decimate | hindi_voice_assistant.py:176-177 | output sample `i` is input sample `3i`, and the output has ceil(n/3) samples |
| Capture.DecimatedLength | hindi_voice_assistant.py:177 | the output length is the least `m` with `3m >= n` |
| Capture.BlockDecimation | hindi_voice_assistant.py:38-40 | a 4000-sample block decimates to 1334 samples, so one second of capture yields 16008 samples, not `VOSK_RATE` |
| Capture.AudioQueue.constructor | hindi_voice_assistant.py:50 | the queue starts empty and within its bound |
| Capture.AudioQueue.IsEmpty | hindi_voice_assistant.py:62 | true iff no chunk is queued |
| Capture.AudioQueue.Put | hindi_voice_assistant.py:178 | the chunk is stored at the back iff fewer than 30 are queued; on a full queue `stored` is false, standing for a put that is still blocked with the chunk in hand, and nothing is stored, dropped or evicted; the bound of 30 is kept |
| Capture.AudioQueue.Get | hindi_voice_assistant.py:63 | the oldest chunk leaves the queue; an empty queue is unchanged |
| Capture.AudioQueue.Clear | hindi_voice_assistant.py:61-63 | the queue ends empty; exactly the chunks queued before the call are discarded, oldest first; an empty queue discards nothing |
| Capture.AudioQueue.Callback | hindi_voice_assistant.py:172-178 | the decimated block is queued iff the queue has room; otherwise `stored` is false, meaning the callback is still blocked and offers the same block again, and the queue is unchanged |
| Conversation.SpeakEvents | hindi_voice_assistant.py:84-91 | what `speak` shows: the text, the done tone, a queue flush; `Conversation.Assistant.Speak` is proved to produce exactly these |
| Conversation.CommandEvents | hindi_voice_assistant.py:96-167 | `process_command` is one dispatch followed by speaking the single chosen reply; `Conversation.Assistant.ProcessCommand` is proved to produce exactly these |
| Conversation.Poll | hindi_voice_assistant.py:188-198 | every ended window consumed at least one clock reading and never adds input; a returned text is never empty |
| Conversation.PollOutcome | hindi_voice_assistant.py:188-198 | a window's result is the text of the first final verdict, all taken before the deadline; `None` only after a clock reading past the deadline, with no final verdict before it |
| Conversation.TimeoutAtOnce | hindi_voice_assistant.py:189-190 | a clock reading past the deadline ends the window with no result, consuming that one reading and no verdict |
| Conversation.FinalAtOnce | hindi_voice_assistant.py:192-196 | a final verdict taken within the deadline ends the window with its text, consuming one reading and one verdict |
| Conversation.OutcomeShift | hindi_voice_assistant.py:188-198 | a non-final verdict taken within the deadline, in front of a window, leaves that window's outcome unchanged |
| Conversation.Listen | hindi_voice_assistant.py:183-198 | `listen_with_timeout` never returns an empty string and always consumes input |
| Conversation.ListenOutcome | hindi_voice_assistant.py:183-198 | the same outcome, measured from the start time read on entry |
| Conversation.Turn | hindi_voice_assistant.py:248-251 | a window that heard a text, the listen-end tone, then that text's command; `Conversation.TurnShape` proves it holds exactly one window, of the given length, and exactly one dispatch, of the heard text |
| Conversation.TurnShape | hindi_voice_assistant.py:248-251 | a turn holds exactly one window, of the given length with the heard text, and exactly one dispatch, of that text |
| Conversation.Continuous | hindi_voice_assistant.py:254-264 | continuous mode never adds input to what it leaves |
| Conversation.AfterWake | hindi_voice_assistant.py:243-278 | a session never adds input to what it leaves |
| Conversation.MainLoop | hindi_voice_assistant.py:226-278 | the events of the main loop over the input streams; `Conversation.MainLoopWellOrdered` proves sessions start only after a wake transcript and every dispatch follows its window, `Conversation.RoundAdvances` that each iteration advances it by exactly its own events, and `Conversation.Assistant.Run` that the program produces exactly these |
| Conversation.ContinuousTurns | hindi_voice_assistant.py:254-264 | in continuous mode every window lasts ten seconds, only the last can be silent, and each window that heard a text yields exactly one `process_command` of that text, in order |
| Conversation.FollowUpsStep | hindi_voice_assistant.py:255-262 | a flush and a ten-second window that heard a text, with its dispatch, in front of continuous-mode events keep the continuous-mode shape |
| Conversation.FollowUpsFront | hindi_voice_assistant.py:255-262 | any events holding exactly one ten-second window that heard a text and the dispatch of that text, in front of continuous-mode events, keep the continuous-mode shape |
| Conversation.FollowUpsCons | hindi_voice_assistant.py:255-262 | a heard ten-second window and the dispatch of its text, in front of continuous-mode events, keep that shape |
| Conversation.FollowUpsEnd | hindi_voice_assistant.py:255-264 | the two endings of continuous mode (input exhausted; a silent window and the done tone) have the continuous-mode shape |
| Conversation.AcknowledgeFirst | hindi_voice_assistant.py:240-246 | a session begins with the acknowledgement (spoken, done tone, flush), a second flush, then a five-second window, before anything is processed |
| Conversation.AfterWakeTurns | hindi_voice_assistant.py:246-278 | a heard first window is processed and followed only by ten-second windows; a silent one gives at most one more five-second window and at most one command; the texts processed are exactly the texts heard |
| Conversation.HeardFirstStep | hindi_voice_assistant.py:246-264 | a session whose first window heard a text processes it first and continues with ten-second windows only |
| Conversation.SilentFirstPaths | hindi_voice_assistant.py:267-278 | each of the three endings after the reprompt has at most two five-second windows and at most one command |
| Conversation.SilentThenHeard | hindi_voice_assistant.py:270-276 | after a silent first window, a reprompt window that heard a text gives exactly that one command |
| Conversation.SilentThenSilent | hindi_voice_assistant.py:270-278 | after a silent first window, a silent reprompt window gives no command |
| Conversation.ContinuousOrdered | hindi_voice_assistant.py:254-264 | in continuous mode every dispatch comes right after the window that heard that text and the listen-end tone |
| Conversation.AfterWakeOrdered | hindi_voice_assistant.py:243-278 | the same within a whole session, which never contains a wake event |
| Conversation.MainLoopWellOrdered | hindi_voice_assistant.py:226-278 | over a whole run, a session starts only right after a non-empty final transcript containing a wake word and opens with the acknowledgement; every dispatch comes right after the window that heard that text |
| Conversation.WakeWellOrdered | hindi_voice_assistant.py:236-278 | the same for a run whose first transcript holds a wake word |
| Conversation.WakeHeadOrdered | hindi_voice_assistant.py:236-246 | a wake transcript, the wake event and a session opening with the acknowledgement are well ordered and do not end in a wake event |
| Conversation.RoundAdvances | hindi_voice_assistant.py:226-246 | one iteration of the main loop advances the run by exactly its own events |
| Conversation.WakeRoundAdvances | hindi_voice_assistant.py:240-278 | the same for an iteration whose transcript holds a wake word, whether or not the input runs out during the session |
| Conversation.ContinuousStep | hindi_voice_assistant.py:254-264 | one iteration of continuous mode: exhausted input ends it after the flush, a silent window ends it with the done tone, a heard window is processed and the mode goes on |
| Conversation.AfterWakeExhausted | hindi_voice_assistant.py:243-246 | input running out in the first window ends the session after the acknowledgement and the flushes |
| Conversation.AfterWakeHeard | hindi_voice_assistant.py:246-264 | a heard first window is followed by its command and then continuous mode |
| Conversation.AfterWakeSilent | hindi_voice_assistant.py:267-278 | a silent first window is followed by the reprompt and one more five-second window, with a command only if that window heard one |
| Conversation.Assistant.constructor | hindi_voice_assistant.py:16-50 | the queue is empty, the flag is down, the log is empty, and for every text the reply function gives `Commands.Reply` of that text at the given calendar, so `Commands.ReplyFirstMatch` describes every reply the assistant speaks |
| Conversation.Assistant.ReadClock | hindi_voice_assistant.py:186 | `time.time()` consumes exactly one clock reading |
| Conversation.Assistant.TakeChunk | hindi_voice_assistant.py:192-196 | taking a chunk consumes exactly one verdict and the oldest queued chunk |
| Conversation.Assistant.ClearAudioQueue | hindi_voice_assistant.py:61-63 | the queue ends empty; nothing else changes but the log |
| Conversation.Assistant.PlayTone | hindi_voice_assistant.py:21-33 | one tone is logged; nothing else changes |
| Conversation.Assistant.Play | hindi_voice_assistant.py:88 | playback happens only while the flag is raised, and the flag stays raised |
| Conversation.Assistant.Speak | hindi_voice_assistant.py:84-91 | the log grows by exactly the text, the done tone and a flush; on return the flag is down and the queue has just been emptied; the text is played through `Play`, whose precondition is that the flag is up |
| Conversation.Assistant.ProcessCommand | hindi_voice_assistant.py:96-167 | exactly one reply, the one `Reply` chooses, is spoken |
| Conversation.Assistant.ListenWithTimeout | hindi_voice_assistant.py:183-198 | the polling loop returns exactly what `Listen` returns and consumes exactly the input it consumes |
| Conversation.Assistant.FollowUpRound | hindi_voice_assistant.py:255-264 | one follow-up round: flush, ten-second window, then the command or the done tone |
| Conversation.Assistant.ContinuousConversation | hindi_voice_assistant.py:254-264 | the nested loop produces exactly the events of `Continuous` |
| Conversation.Assistant.RepromptRound | hindi_voice_assistant.py:267-278 | the reprompt is spoken, the queue flushed, one five-second window opened, and at most one command processed |
| Conversation.Assistant.HeardFirstRound | hindi_voice_assistant.py:248-264 | a heard first command is processed, then continuous mode follows |
| Conversation.Assistant.Greet | hindi_voice_assistant.py:243-244 | the acknowledgement is spoken and the queue flushed; the unread input is untouched |
| Conversation.Assistant.Session | hindi_voice_assistant.py:243-278 | the body of the wake branch produces exactly the events of `AfterWake` |
| Conversation.Assistant.MainRound | hindi_voice_assistant.py:228-246 | one iteration: a non-final verdict is ignored, a final one is reported, and a wake word starts a session |
| Conversation.Assistant.Start | hindi_voice_assistant.py:209-212 | start-up plays the 700 Hz and 900 Hz tones, then announces readiness |
| Conversation.Assistant.Run | hindi_voice_assistant.py:226-278 | the main loop produces exactly the events of `MainLoop`, and the speaking flag is down at every iteration |
| Segmenter.RingAppend | hindi_asr_vosk.py:18 | appending to the deque keeps at most ten frames: the newest frame and the most recent ones before it |
| Segmenter.RingHoldsLatest | hindi_asr_vosk.py:18 | a ring holding the last ten frames of an utterance still does so after an append |
| Segmenter.Report | hindi_asr_vosk.py:46-48 | a text is reported iff it is not empty |
| Segmenter.StepSpec | hindi_asr_vosk.py:37-50 | one loop iteration on a snapshot; `Segmenter.StepConsistent` and `Segmenter.StepCounts` prove it keeps the invariant, feeds the frame iff it is speech and takes a result iff silence follows speech |
| Segmenter.RunSpec | hindi_asr_vosk.py:36-50 | the loop over a frame sequence; `Segmenter.RunConsistent`, `Segmenter.RunFeeds` and `Segmenter.RunExtracts` prove the invariant, that exactly the speech frames are fed, and one result per falling edge |
| Segmenter.StepConsistent | hindi_asr_vosk.py:37-50 | one iteration keeps the ring bounded and holding the latest frames of the utterance, and leaves `voiced` equal to the detector's verdict |
| Segmenter.StepCounts | hindi_asr_vosk.py:39-49 | one iteration feeds the frame iff it is speech, takes a result iff a non-speech frame follows speech, and sets `voiced` to the detector's verdict |
| Segmenter.RunConsistent | hindi_asr_vosk.py:36-50 | over any frame sequence the loop keeps the ring bounded, holding the latest frames of the utterance, and reports only non-empty texts |
| Segmenter.RunFeeds | hindi_asr_vosk.py:36-42 | over any frame sequence only speech frames reach the recogniser, all of them, in order |
| Segmenter.RunExtracts | hindi_asr_vosk.py:36-50 | over any frame sequence one result is taken per speech run that a non-speech frame ends |
| Segmenter.Segmenter.constructor | hindi_asr_vosk.py:15-34 | the segmenter starts unvoiced (line 34), with an empty ring and a fresh recogniser that has been fed nothing (lines 15-18) |
| Segmenter.Segmenter.AcceptWaveform | hindi_asr_vosk.py:42 | the frame is fed to the recogniser |
| Segmenter.Segmenter.Result | hindi_asr_vosk.py:45-46 | one result is taken: the text of the audio fed since the last result |
| Segmenter.Segmenter.Step | hindi_asr_vosk.py:37-50 | a speech frame is appended to the ring, fed, and sets `voiced`; a non-speech frame while voiced takes exactly one result, reports a non-empty text, clears the ring and resets `voiced`; a non-speech frame while unvoiced changes nothing |
| Segmenter.Segmenter.Run | hindi_asr_vosk.py:36-50 | the loop feeds exactly the speech frames and takes one result per falling edge of the speech signal |

## Left out

- The audio device streams and the capture callback's thread. Chunks reach the queue only through explicit `Callback` calls. When the control loop takes a chunk from an empty queue, it uses the next chunk the capture side delivers; the model does not interleave the two sides.
- The Vosk recogniser and its JSON results. In the main loop, each chunk taken yields one verdict from an input stream: whether the waveform was accepted, and the text. In the segmenter, the recogniser is a function from the audio fed since the last result to that result's text.
- The recogniser created afresh for each listening window. Its state is part of the verdict stream, so the model does not tell the recognisers apart.
- `webrtcvad`: an abstract predicate on frames.
- `play_tone`'s sine synthesis and playback: a tone is logged by its frequency. The durations (0.15 s, 0.3 s) and the 0.1 s sleep at start-up are not modelled.
- The `espeak-ng` call: the spoken text is logged.
- `print` output and model loading.
- The byte ↔ `int16` conversion in the callback.
- The wall clock. `process_command` reads one `Calendar` value, fixed for the run:
  - hour, minute and weekday;
  - the day, month and year strings;
  - `time.time()`;
  - and `strftime` of a timestamp, as a function.
- `datetime.now()` in `generate_response` becomes the hour and minute parameters.
- Conversation.Listen: clock readings are whole milliseconds compared against `seconds * 1000`, where the source compares float seconds.
- The main loop's `while True` runs forever. The model ends it when either input stream runs out, including in the middle of a session, so the run is finite.
- stream_test.py and wakeword_test.py are not part of this model. They are plumbing around foreign libraries: a sinc resampler, and a wake-word engine with float-to-`int16` conversion.
- The segmenter's ring buffer is maintained but never read by the source; the model only proves what it holds.
- The segmenter's `SAMPLE_RATE`, `FRAME_DURATION` and `FRAME_SIZE` only configure the audio stream; frames are opaque to the model and their length is not constrained.
- The segmenter's `audio_q` is unbounded and only delivers frames in order, so it is modelled as the frame sequence that `Run` consumes.
