# Voice relay session: a verified model

The backend of this voice assistant relays one browser client to a remote
realtime-conversation session. Each connection has a small session whose
variables its callbacks change in place:

- the playback queue `audioQueue`;
- `isPlaying`;
- `speakerStream`;
- `isResponding`, `currentResponseId` and `currentItemId`;
- the played-audio accumulator `audioPlaybackDuration`.

A process-wide `isCallActive` flag is toggled by the `/start-call` and
`/stop-call` routes. The project models that session and proves what it
guarantees:

- Audio fragments are played in arrival order, with exact byte
  accounting. Each fragment after the first is piped only after a stream
  `end` or speaker `close` callback. That is not one fragment at a time
  (see "## Left out").
- An interruption (barge-in) cancels the response and truncates the item to
  the floor of the milliseconds in the played-byte counter. A stream `end`
  left over from before the last reset also adds to that counter (see
  "## Left out").
- The event router keeps the session invariant.
- Captured audio never leaves while no call is active and none is started.
- The weather enrichment recognises "weather in|at <place>" exactly as the
  regular expression and `trim()` do, and formats the lookup result into
  the system message.

Layout, one module per file:

- `wire.dfy` (`Wire`): the messages at the three boundaries. These are
  remote events, client notifications and remote commands. It also holds the
  `Effects` record of one callback.
- `playback.dfy` (`Playback`): the sequencer behind `queueAudioDelta` and
  `playNextAudio` as a value with pure transitions. It also holds lemmas
  over whole runs of callbacks.
- `weather.dfy` (`Weather`): the matcher, `trim`, and `formatWeatherMessage`.
- `router.dfy` (`Router`): the session value, `handleServerEvent`,
  `handleInterruption` and the other callbacks as transitions. It also holds
  the session invariant and the lemmas about them.
- `session.dfy` (`RelaySession`): the imperative form the source has. It
  holds the `CallControl` class with the call flag and the `Session` class
  with the closure variables as fields. Each method changes the fields in
  place and is proved equal to the corresponding `Router`/`Playback`
  transition.

Modelling choices:

- **Played duration.** `audioPlaybackDuration` is kept as the number of
  bytes whose playback finished. `DurationMs` gives the source's millisecond
  expression `(len / 2) / 24000 * 1000` in exact arithmetic.
  `AudioEndMs(b) = b / 48` is proved to be its floor, which is the
  `audio_end_ms` the truncate carries.
- **Speaker.** The speaker is reduced to whether a live speaker exists.
  `speakerEnded` records that an interruption ended one.
- **Callbacks as inputs.** The stream `end` callback and the speaker `close`
  callback are explicit inputs. A `close` says whether the closing speaker
  is still the current one.
- **Weather lookup.** `fetchOpenMeteoWeather` is not modelled. A user
  transcript yields a lookup request (a city). The lookup's outcome comes
  back later as a separate input, `LookupDone(city, data)`. `data` is a
  `Failed(error)`, a `NoCurrent`, or a `Current` holding the four printed
  values.
- **JavaScript truthiness.** It is modelled where the source relies on it:
  - an empty `currentItemId` sends no truncate;
  - an empty `error` string is reported as "No current weather data…";
  - an empty audio buffer is still played.

Two behaviours of the code shape the invariants, and the model follows them:

- `response.output_item.added` records an item id even when no response is
  in flight. So the invariant the model proves relates only `isResponding`
  and `currentResponseId`, not `currentItemId`.
- `response.done` resets the responding flag, the ids and the duration, but
  leaves the queue and the playing fragment untouched. Audio still queued
  keeps playing. A later speech start no longer interrupts it and sends no
  cancel (`Router.SpeechAfterDoneKeepsPlaying`).

## Model

| member | source | states |
|---|---|---|
| Playback.PlayNext | backend/index.js:241-263 | what is started followed by what still waits is exactly the old queue; a fragment starts iff the queue was non-empty; playing iff one started; on an empty queue only `isPlaying` changes (to false); the duration is untouched; the playback invariant holds after |
| Playback.Enqueue | backend/index.js:234-239 | the fragment joins at the tail (started ++ queue = old queue ++ [f]); while playing nothing else changes and nothing starts; when idle the head starts, and from a valid idle state that head is `f` itself with an empty queue left behind; afterwards the sequencer is playing; the invariant is preserved |
| Playback.Finish | backend/index.js:272-275 | the played bytes grow by exactly the fragment's length, i.e. the millisecond total grows by `(len/2)/24000*1000`; then the next head is popped, in FIFO order; playing iff a fragment started; on an empty queue nothing else changes, so the speaker is kept; the invariant holds |
| Playback.SpeakerClose | backend/index.js:256-260 | a speaker `close` marks playback idle and plays the next fragment; playing afterwards iff one started; the current speaker is dropped when it was the one that closed; duration unchanged; FIFO; invariant holds |
| Playback.Clear | backend/index.js:283-288 | the playback half of an interruption leaves an empty, idle sequencer with no speaker and zero duration, and reports whether a live speaker was ended |
| Playback.DurationMs | backend/index.js:273 | the milliseconds the source's expression `(len / 2) / 24000 * 1000` gives for a byte count, in exact arithmetic; no contract of its own, its link to the reported value is `AudioEndMsIsFloor` and to accumulation `DurationAdds` |
| Playback.AudioEndMs | backend/index.js:302 | the integer milliseconds a truncate reports for the played bytes; no contract of its own, `AudioEndMsIsFloor` proves it equals `Math.floor` of `DurationMs` |
| Playback.AudioEndMsIsFloor | backend/index.js:302 | `bytes / 48` equals `Math.floor` of the source's millisecond expression for that many bytes, and lies within 1 ms below it |
| Playback.DurationAdds | backend/index.js:273 | accumulating bytes and accumulating milliseconds agree |
| Playback.Step | backend/index.js:234-276 | one playback callback: a delta goes to `Enqueue`, a stream end to `Finish`, a speaker close to `SpeakerClose`; no contract of its own, its properties are theirs |
| Playback.Run | backend/index.js:234-276 | the playback callbacks applied in order, collecting the fragments piped; no contract of its own, its meaning is given by `RunIsFifo`, `RunOneAtATime`, `RunAccounts` and `RunKeepsValid` |
| Playback.RunIsFifo | backend/index.js:234-276 | over any sequence of deltas, stream ends and speaker closes, what was piped followed by what still waits equals the old queue followed by every delta in arrival order: nothing skipped, duplicated or reordered |
| Playback.RunOneAtATime | backend/index.js:241-276 | the fragments piped never exceed the stream `end` and speaker `close` callbacks plus one, so each fragment piped after the first follows such a callback; callbacks are not tied to the playing fragment, so this does not bound the fragments in flight (see `LeftoverCloseOverlaps`) |
| Playback.LeftoverCloseOverlaps | backend/index.js:256-260 | two deltas followed by the `close` of an already dropped speaker pipe both fragments while still playing, with no fragment finished: two fragments in flight |
| Playback.RunAccounts | backend/index.js:272-275 | after any run the played bytes are the old count plus the bytes of exactly the fragments that finished |
| Playback.RunKeepsValid | backend/index.js:234-276 | every run of playback callbacks preserves the coupling of the cursor and the queue |
| Playback.PlayedFromReset | backend/index.js:273 | from a reset sequencer, the reported milliseconds are the floor of the summed durations of the finished fragments, and all arrivals are accounted for in order |
| Router.Interrupt | backend/index.js:279-310 | the session becomes the initial one (empty queue, idle, no speaker, not responding, both ids cleared, duration 0); the commands are the cancel followed by the truncates and nothing else; exactly one cancel, sent first; a truncate iff an item id is set (JS truthiness), carrying that id, content index 0 and the floor of the pre-interruption duration; a live speaker is ended; nothing goes to the client |
| Router.StartListening | backend/index.js:207-215 | the microphone is started iff a call is active; nothing is sent |
| Router.Opened | backend/index.js:78-82 | opening the remote socket sends the session configuration, then starts the microphone iff a call is active |
| Router.MicData | backend/index.js:222-231 | a captured chunk is forwarded as one append iff a call is active, and nothing else happens |
| Router.WeatherFetched | backend/index.js:321-330 | a finished lookup sends exactly one system item carrying the formatted message |
| Router.LookupsFor | backend/index.js:314-317 | the lookups a transcript launches; no contract of its own, its meaning is `LookupsForMeans` |
| Router.LookupsForMeans | backend/index.js:314-317 | no lookup iff the pattern occurs nowhere in the transcript, otherwise exactly one, for the recognised place |
| Router.HandleServerEvent | backend/index.js:124-205 | one case per event type of the switch, unknown types swallowed; no contract of its own, its behaviour is stated by `EventEffects`, the per-event lemmas below (one for each case of the switch; `ForwardingEvents` covers the five relaying cases) and `StepKeepsConsistent` |
| Router.EventEffects | backend/index.js:124-205 | every event sends at most one client notification; remote commands and an ended speaker only from a barge-in while responding; fragments piped only by an audio delta; the microphone started only by `response.done` during a call; lookups only from a completed transcript |
| Router.FlagAfter | backend/index.js:28-42 | the call flag after an input: the start and stop routes set it, every other input leaves it; no contract of its own |
| Router.Step | backend/index.js:78-87 | one callback of the connection: a remote message goes to `HandleServerEvent`, the socket `open` to `Opened`, a mic chunk to `MicData`, a stream end or speaker close to the sequencer, a finished lookup to `WeatherFetched`, a call toggle does nothing to the session; no contract of its own, its properties are those members' and `StepKeepsConsistent`'s |
| Router.Run | backend/index.js:51-96 | the callbacks of one connection applied in order, with the call flag carried along and toggled by the routes; no contract of its own, its meaning is `RunKeepsConsistent` and `InactiveCallIsSilent` |
| Router.StepKeepsConsistent | backend/index.js:124-205 | every input (remote event, socket open, mic chunk, stream end, speaker close, lookup result, call toggle) preserves the invariant: playback coupling, and a response id recorded exactly while responding |
| Router.RunKeepsConsistent | backend/index.js:124-205 | every sequence of inputs, with the call flag toggled anywhere in it, preserves the invariant |
| Router.InactiveCallIsSilent | backend/index.js:222-231 | starting with no call active, no sequence of inputs without a `/start-call` ever sends captured audio or starts the microphone (`/stop-call` may occur anywhere) |
| Router.StepIsSilent | backend/index.js:207-231 | one input while no call is active appends no audio and starts no microphone |
| Router.EventIsSilent | backend/index.js:124-205 | no remote event appends audio or starts the microphone while no call is active |
| Router.ForwardingEvents | backend/index.js:137-200 | `speech_stopped`, the two response transcript events, `response.text.delta` and `error` each send one notification carrying the event's payload unchanged and leave the session as it was |
| Router.SpeechStartedBargesIn | backend/index.js:130-136 | a speech start always notifies the client; it performs the interruption iff a response is in flight: the session becomes the initial one and the effects are the notification followed by exactly the interruption's (cancel, truncate, ended speaker); a speaker is ended iff a response is in flight and a live speaker exists; otherwise the session is unchanged and the notification is the only effect |
| Router.SpeechAfterDoneKeepsPlaying | backend/index.js:153-161 | after `response.done`, a speech start leaves the queue and the playing fragment as they were and sends no cancel |
| Router.ResponseCreatedRecords | backend/index.js:141-146 | `response.created` sets the responding flag and records the response id, notifies the client, and changes nothing else |
| Router.ResponseDoneResets | backend/index.js:153-161 | `response.done` notifies the client, clears the flag and both ids, resets the duration whatever is queued, and changes nothing else (queue, cursor and speaker untouched); it restarts the microphone iff a call is active |
| Router.QuietEvents | backend/index.js:124-205 | `session.created`, `session.updated` and unknown types change nothing and send nothing; item and audio events send nothing to the client |
| Router.OutputItemRecords | backend/index.js:147-149 | `response.output_item.added` records the item id and does nothing else |
| Router.TranscriptLaunchesLookup | backend/index.js:162-173 | a completed transcript is forwarded unchanged; it launches no lookup iff the pattern occurs nowhere, and otherwise one lookup for the recognised place |
| Router.AudioDeltaEnqueues | backend/index.js:150-152 | an audio delta joins the playback FIFO at the tail and the sequencer is playing afterwards; while already playing, the tail append is the only change and nothing starts; the flag, both ids and the played bytes are kept, and nothing goes to the client or the remote session |
| Router.TruncateReportsPlayedAudio | backend/index.js:296-303 | after any playback run from a reset session, the truncate's `audio_end_ms` is the floor of the summed durations of the fragments whose stream `end` arrived |
| Router.LeftoverEndCounts | backend/index.js:272-275 | a stream `end` of 960 bytes arriving after a reset makes the next truncate report 20 ms, for an item none of whose audio was piped |
| Weather.IsJsSpace | backend/index.js:314-316 | the characters of the class `\s` and of `trim()`: JavaScript white space and line terminators; a definition, no contract |
| Weather.MatchAt | backend/index.js:314 | the pattern `weather (?:in\|at) [A-Za-z\s]` matches at an index, up to ASCII case; a definition, no contract |
| Weather.WeatherCity | backend/index.js:314-316 | the trimmed capture of the leftmost match, or none; no contract of its own, its meaning is `WeatherCityMeans` |
| Weather.PlaceRun | backend/index.js:314 | the greedy group: a slice of the transcript at the given index made only of letters and white space, and maximal (the next character, if any, is neither) |
| Weather.FirstMatch | backend/index.js:314 | the search returns an index where the pattern matches with no match between the start and it, or none when the pattern occurs nowhere at or after the start |
| Weather.TrimStart | backend/index.js:316 | a suffix whose removed part is all white space and which does not start with white space |
| Weather.TrimEnd | backend/index.js:316 | a prefix whose removed part is all white space and which does not end with white space |
| Weather.Trim | backend/index.js:316 | `trim()`: the input with white space removed from both ends, whose first and last characters are not white space |
| Weather.TrimKeepsTrimmed | backend/index.js:316 | trimming a string without white space at its ends gives it back |
| Weather.WeatherCityMeans | backend/index.js:314-316 | a place is recognised iff the case-insensitive pattern occurs somewhere, and it is the trimmed capture at the leftmost occurrence |
| Weather.WeatherCityShape | backend/index.js:314-316 | a recognised place consists only of ASCII letters and white space and begins and ends with a letter |
| Weather.RecognisedAt | backend/index.js:314-316 | a transcript whose first match is at `i` yields the capture there when it has no white space at its ends |
| Weather.SkipTo | backend/index.js:314 | the search passes over indices where the pattern does not start |
| Weather.MatchShift | backend/index.js:314 | whether the pattern starts at an index depends only on the text from there on |
| Weather.FirstMatchShift | backend/index.js:314 | text in front of a transcript shifts its first match by its length |
| Weather.PlaceRunShift | backend/index.js:314 | text in front of a transcript does not change the group captured after it |
| Weather.PrefixNoMatch | backend/index.js:314 | the pattern cannot start inside an eleven-character prefix with no `w` after its first character and no `e` second |
| Weather.PrefixedPlace | backend/index.js:314-316 | such a prefix in front of a transcript recognised at its start leaves the recognised place unchanged |
| Weather.BostonIsRecognised | backend/index.js:312-317 | "What's the weather in Boston?" launches the lookup for exactly "Boston" |
| Weather.FormatWeatherMessage | backend/index.js:363-379 | a non-empty error gives "Weather data error: " followed by it; a missing `current_weather` (or an empty error) gives "No current weather data found for <city>."; current conditions give a message starting with the data header for the city and ending with the usage note |
| Weather.CurrentMessageCarriesValues | backend/index.js:371-378 | the message for current conditions contains the city and each of the four values on its own labelled line with its unit |
| RelaySession.CallControl.constructor | backend/index.js:22 | the call flag starts cleared |
| RelaySession.CallControl.StartCall | backend/index.js:28-34 | the flag is set afterwards; it reports a change iff it was clear; starting an active call changes nothing |
| RelaySession.CallControl.StopCall | backend/index.js:36-42 | the flag is clear afterwards; it reports a change iff it was set; stopping an inactive call changes nothing |
| RelaySession.Session.constructor | backend/index.js:69-75 | a new connection's variables form the initial session, which satisfies the invariant |
| RelaySession.Session.PlayNextAudio | backend/index.js:241-263 | the fields change exactly as `Playback.PlayNext` says, and the started fragment is the one it names; `Valid()` is preserved |
| RelaySession.Session.QueueAudioDelta | backend/index.js:234-239 | the fields change exactly as `Playback.Enqueue` says; `Valid()` is preserved |
| RelaySession.Session.OnStreamEnd | backend/index.js:272-275 | the fields change exactly as `Playback.Finish` says; `Valid()` is preserved |
| RelaySession.Session.OnSpeakerClose | backend/index.js:256-260 | the fields change exactly as `Playback.SpeakerClose` says; `Valid()` is preserved |
| RelaySession.Session.HandleInterruption | backend/index.js:279-310 | the fields become the initial session; the commands sent are those of `Router.Interrupt`; a speaker is ended iff one was live; the invariant `Valid()` holds after |
| RelaySession.Session.StartListening | backend/index.js:207-215 | the microphone is started iff the call flag is set |
| RelaySession.Session.OnMicData | backend/index.js:222-231 | the commands sent are those of `Router.MicData`: none while no call is active |
| RelaySession.Session.OnOpen | backend/index.js:78-82 | the effects are those of `Router.Opened` |
| RelaySession.Session.HandlePotentialWeatherQuery | backend/index.js:312-317 | the lookups launched are those of `Router.LookupsFor`: none iff the pattern occurs nowhere |
| RelaySession.Session.OnWeatherData | backend/index.js:321-330 | the command sent is the system item of `Router.WeatherFetched` |
| RelaySession.Session.OnSpeechStarted | backend/index.js:130-136 | fields and effects are those of `Router.HandleServerEvent` for a speech start; `Valid()` is preserved |
| RelaySession.Session.OnResponseDone | backend/index.js:153-161 | fields and effects are those of `Router.HandleServerEvent` for `response.done`; `Valid()` is preserved |
| RelaySession.Session.HandleServerEvent | backend/index.js:124-205 | the fields and effects are exactly those of `Router.HandleServerEvent`, so every property proved there holds of the object; the invariant is preserved |
| RelaySession.BargeInScenario | backend/index.js:279-310 | a client of the methods, no contract: after `PlayFirstFragment`, a speech start sends the cancel and a truncate at 20 ms, ends the speaker, and leaves the initial session |
| RelaySession.PlayFirstFragment | backend/index.js:141-152 | a response with an announced item and two fragments, the first of which finished, leaves the second playing, an empty queue and 960 played bytes |

## Left out

- WebSocket transport, Express routes, CORS and dotenv are not modelled. JSON framing and the `Date.now()` event ids are not modelled either. Messages are modelled as datatypes.
- The remote socket's `error` and `close` handlers (`backend/index.js:89-96`) are not modelled; they only log or close the client socket.
- `setupSession` (`backend/index.js:99-122`) is modelled as one `SessionUpdate` command whose payload (instructions, voice, voice-activity thresholds) is not modelled.
- The `mic` and `Speaker` devices and `Readable` piping are foreign libraries. Only their effect on the session is modelled: a fragment piped, a stream `end`, a speaker `close`, a speaker ended.
- Base64 encoding and decoding via `Buffer` is not modelled; a fragment is its byte sequence.
- `fetchOpenMeteoWeather` (`backend/index.js:334-360`) is network I/O. Only its outcome is modelled, as the `WeatherData` input of a later `LookupDone`. Where that result lands relative to responses is not modelled, because the source has no guard for it.
- FormatWeatherMessage: values are taken as the strings JavaScript prints for them. Number-to-string conversion is not modelled.
- Playback.RunOneAtATime: stream `end` and speaker `close` callbacks are unconstrained inputs. In the source each `end` fires once per piped stream and carries that stream's chunk; the model's `Ended(chunk)` may carry any chunk, any number of times. That is a sound over-approximation: every property proved for all inputs holds for the source's runs too. Nothing in the source ties either callback to the fragment now playing. Two kinds arrive after an interruption: the `close` of the speaker it ended, and the `end` of a stream piped before it. The first restarts playback over a playing fragment (`Playback.LeftoverCloseOverlaps`). The second adds its bytes to the reset counter, so the next truncate can overstate what was heard (`Router.LeftoverEndCounts`). So the model proves piped fragments bounded by callbacks, not one fragment in flight.
- Playback.DurationMs: the source accumulates floating-point milliseconds. The model keeps exact bytes, so float rounding of the accumulator is not modelled.
- Concurrency between sessions is not modelled. A toggle of `isCallActive` is an input between callbacks, so a toggle racing an in-flight chunk is not modelled either.
- SIGINT shutdown and the client-disconnect teardown (`backend/index.js:382-403`) are process and device I/O.
- `stopListening` (`backend/index.js:217-220`) is never called by the core.
- The frontend (`frontend/src/App.js`) is a UI component with no session logic.
