/** The per-connection relay session as a value, and the transition each
    callback makes on it: remote events (`handleServerEvent`), the remote
    socket opening, captured microphone chunks, the end of a piped audio
    fragment, a speaker closing, and a weather lookup completing.

    The process-wide `isCallActive` flag is read, never written, by a
    session; every transition that reads it receives its current value, and
    a run of inputs carries the flag, which the call routes toggle. */
module Router {
  import opened Wire
  import opened Playback
  import opened Weather

  /** The closure variables of one connection: the playback sequencer plus
      `isResponding`, `currentResponseId` and `currentItemId`. */
  datatype Session = Session(
    playback: Sequencer,
    isResponding: bool,
    currentResponseId: Option<string>,
    currentItemId: Option<string>)

  /** The session as the connection callback creates it. */
  const INITIAL := Session(IDLE, false, None, None)

  /** The session invariant: the playback cursor is coupled to the queue, and
      a response id is recorded exactly while a response is in flight. */
  predicate Consistent(s: Session) {
    Playback.Valid(s.playback) && (s.isResponding <==> s.currentResponseId.Some?)
  }

  /** JavaScript truthiness of `currentItemId`: set, and not the empty string. */
  predicate HasItem(s: Session) {
    s.currentItemId.Some? && s.currentItemId.value != []
  }

  function ToClient(m: ClientMessage): Effects {
    NO_EFFECTS.(toClient := [m])
  }

  function ToRemote(cmds: seq<RemoteCommand>): Effects {
    NO_EFFECTS.(toRemote := cmds)
  }

  function Played(o: Option<Fragment>): Effects {
    NO_EFFECTS.(rendered := Started(o))
  }

  /** The number of `response.cancel` commands among `cmds`. */
  function Cancels(cmds: seq<RemoteCommand>): nat
    decreases |cmds|
  {
    if cmds == [] then 0 else (if cmds[0].ResponseCancel? then 1 else 0) + Cancels(cmds[1..])
  }

  /** The `conversation.item.truncate` commands among `cmds`, in order. */
  function Truncates(cmds: seq<RemoteCommand>): seq<RemoteCommand>
    decreases |cmds|
  {
    if cmds == [] then [] else (if cmds[0].Truncate? then [cmds[0]] else []) + Truncates(cmds[1..])
  }

  /** `handleInterruption`: the queue is replaced by an empty one, a live
      speaker is ended and dropped, one cancel is sent, a truncate carrying
      the floor of the played milliseconds is sent when an item id is known,
      and the ids, the responding flag and the duration are reset. The
      result is the session's initial state. */
  function Interrupt(s: Session): (r: (Session, Effects))
    ensures r.0 == INITIAL && Consistent(r.0)
    ensures r.1.toClient == [] && r.1.rendered == [] && !r.1.micStarted && r.1.lookups == []
    ensures r.1.speakerEnded == s.playback.speakerOpen
    ensures r.1.toRemote == [ResponseCancel] + Truncates(r.1.toRemote)
    ensures Cancels(r.1.toRemote) == 1 && r.1.toRemote[0] == ResponseCancel
    ensures |Truncates(r.1.toRemote)| == (if HasItem(s) then 1 else 0)
    ensures HasItem(s) ==>
      Truncates(r.1.toRemote) == [Truncate(s.currentItemId.value, 0, DurationMs(s.playback.playedBytes).Floor)]
  {
    var (cleared, ended) := Clear(s.playback);
    var truncate :=
      if HasItem(s) then [Truncate(s.currentItemId.value, 0, AudioEndMs(s.playback.playedBytes))]
      else [];
    AudioEndMsIsFloor(s.playback.playedBytes);
    assert Cancels(truncate) == 0 && Truncates(truncate) == truncate;
    assert Truncates([ResponseCancel] + truncate) == truncate;
    (Session(cleared, false, None, None),
     NO_EFFECTS.(toRemote := [ResponseCancel] + truncate, speakerEnded := ended))
  }

  /** `startListening`: the microphone is started only while a call is active. */
  function StartListening(callActive: bool): (fx: Effects)
    ensures fx.micStarted == callActive
    ensures fx.toClient == [] && fx.toRemote == [] && fx.rendered == [] && fx.lookups == []
  {
    NO_EFFECTS.(micStarted := callActive)
  }

  /** The weather lookup a user transcript launches, if any. */
  function LookupsFor(transcript: string): seq<string> {
    match WeatherCity(transcript)
    case None => []
    case Some(city) => [city]
  }

  /** `handleServerEvent`. */
  function HandleServerEvent(s: Session, e: ServerEvent, callActive: bool): (Session, Effects) {
    match e
    case SessionCreated => (s, NO_EFFECTS)
    case SessionUpdated => (s, NO_EFFECTS)
    case SpeechStarted =>
      if s.isResponding then
        var (s1, fx) := Interrupt(s);
        (s1, Then(ToClient(InputSpeechStarted), fx))
      else (s, ToClient(InputSpeechStarted))
    case SpeechStopped => (s, ToClient(InputSpeechStopped))
    case ResponseCreated(id) =>
      (s.(isResponding := true, currentResponseId := Some(id)), ToClient(ResponseCreatedNote))
    case OutputItemAdded(id) => (s.(currentItemId := Some(id)), NO_EFFECTS)
    case AudioDelta(f) =>
      var (p, o) := Enqueue(s.playback, f);
      (s.(playback := p), Played(o))
    case ResponseDone =>
      (Session(s.playback.(playedBytes := 0), false, None, None),
       Then(ToClient(ResponseDoneNote), StartListening(callActive)))
    case TranscriptionCompleted(t) =>
      (s, ToClient(TranscriptionNote(t)).(lookups := LookupsFor(t)))
    case AudioTranscriptDelta(d) => (s, ToClient(TranscriptDeltaNote(d)))
    case AudioTranscriptDone => (s, ToClient(TranscriptDoneNote))
    case TextDelta(d) => (s, ToClient(TextDeltaNote(d)))
    case ErrorEvent(err) => (s, ToClient(ErrorNote(err)))
    case Unhandled(_) => (s, NO_EFFECTS)
  }

  /** The remote socket's `open` callback: send the session configuration,
      then `startListening`. */
  function Opened(callActive: bool): (fx: Effects)
    ensures fx.toRemote == [SessionUpdate] && fx.micStarted == callActive
  {
    Then(ToRemote([SessionUpdate]), StartListening(callActive))
  }

  /** The microphone's `data` callback: forward the chunk only during a call. */
  function MicData(chunk: Fragment, callActive: bool): (fx: Effects)
    ensures fx.toRemote == (if callActive then [AppendAudio(chunk)] else [])
    ensures fx.toClient == [] && !fx.micStarted && fx.rendered == []
    ensures !fx.speakerEnded && fx.lookups == []
  {
    if callActive then ToRemote([AppendAudio(chunk)]) else NO_EFFECTS
  }

  /** The tail of `handlePotentialWeatherQuery`, once the lookup for `city`
      produced `data`: one system item carrying the formatted message. */
  function WeatherFetched(city: string, data: WeatherData): (fx: Effects)
    ensures fx.toRemote == [ItemAdd("system", FormatWeatherMessage(data, city))]
    ensures fx.toClient == [] && !fx.micStarted
  {
    ToRemote([ItemAdd("system", FormatWeatherMessage(data, city))])
  }

  /** Everything that can happen to a session. */
  datatype Input =
    | Remote(event: ServerEvent)
    | SocketOpened
    | MicChunk(chunk: Fragment)
    | StreamEnded(chunk: Fragment)
    | SpeakerClosed(current: bool)
    | LookupDone(city: string, data: WeatherData)
    | CallToggled(active: bool)  // `/start-call` (true) or `/stop-call` (false)

  function Step(s: Session, i: Input, callActive: bool): (Session, Effects) {
    match i
    case Remote(e) => HandleServerEvent(s, e, callActive)
    case SocketOpened => (s, Opened(callActive))
    case MicChunk(c) => (s, MicData(c, callActive))
    case StreamEnded(c) =>
      var (p, o) := Finish(s.playback, c);
      (s.(playback := p), Played(o))
    case SpeakerClosed(cur) =>
      var (p, o) := SpeakerClose(s.playback, cur);
      (s.(playback := p), Played(o))
    case LookupDone(city, data) => (s, WeatherFetched(city, data))
    case CallToggled(_) => (s, NO_EFFECTS)
  }

  /** The call flag after input `i`: the routes set it, nothing else does. */
  function FlagAfter(i: Input, callActive: bool): bool {
    if i.CallToggled? then i.active else callActive
  }

  /** The session after `ins`, and everything done on the way, with the
      call flag starting at `callActive` and toggled by the routes among
      `ins`. */
  function Run(s: Session, ins: seq<Input>, callActive: bool): (Session, Effects)
    decreases |ins|
  {
    if ins == [] then (s, NO_EFFECTS)
    else
      var (s1, fx1) := Step(s, ins[0], callActive);
      var (sf, fx) := Run(s1, ins[1..], FlagAfter(ins[0], callActive));
      (sf, Then(fx1, fx))
  }

  /** Every transition keeps the session invariant. */
  lemma StepKeepsConsistent(s: Session, i: Input, callActive: bool)
    requires Consistent(s)
    ensures Consistent(Step(s, i, callActive).0)
  {
    match i
    case Remote(e) =>
      match e {
        case AudioDelta(f) =>
        case ResponseDone => assert Playback.Valid(s.playback.(playedBytes := 0));
        case _ =>
      }
    case _ =>
  }

  lemma {:induction false} RunKeepsConsistent(s: Session, ins: seq<Input>, callActive: bool)
    requires Consistent(s)
    ensures Consistent(Run(s, ins, callActive).0)
    decreases |ins|
  {
    if ins != [] {
      StepKeepsConsistent(s, ins[0], callActive);
      RunKeepsConsistent(Step(s, ins[0], callActive).0, ins[1..], FlagAfter(ins[0], callActive));
    }
  }

  /** No command among `cmds` appends captured audio. */
  predicate NoAppend(cmds: seq<RemoteCommand>) {
    forall k :: 0 <= k < |cmds| ==> !cmds[k].AppendAudio?
  }

  /** While no call is active and none is started, no captured audio
      reaches the remote session and the microphone is never started,
      whatever else happens (a `/stop-call` may come in between). */
  lemma {:induction false} InactiveCallIsSilent(s: Session, ins: seq<Input>)
    requires NoStart(ins)
    ensures NoAppend(Run(s, ins, false).1.toRemote)
    ensures !Run(s, ins, false).1.micStarted
    decreases |ins|
  {
    if ins != [] {
      var (s1, fx1) := Step(s, ins[0], false);
      var (sf, fx) := Run(s1, ins[1..], false);
      assert Run(s, ins, false) == (sf, Then(fx1, fx)) by {
        assert FlagAfter(ins[0], false) == false;
      }
      NoStartTail(ins);
      InactiveCallIsSilent(s1, ins[1..]);
      StepIsSilent(s, ins[0]);
      NoAppendConcat(fx1.toRemote, fx.toRemote);
    }
  }

  /** No `/start-call` among `ins`. */
  predicate NoStart(ins: seq<Input>) {
    forall k :: 0 <= k < |ins| ==> ins[k] != CallToggled(true)
  }

  lemma NoStartTail(ins: seq<Input>)
    requires ins != [] && NoStart(ins)
    ensures NoStart(ins[1..])
  {
    forall k | 0 <= k < |ins[1..]| ensures ins[1..][k] != CallToggled(true) {
      assert ins[1..][k] == ins[k + 1];
    }
  }

  lemma NoAppendConcat(a: seq<RemoteCommand>, b: seq<RemoteCommand>)
    requires NoAppend(a) && NoAppend(b)
    ensures NoAppend(a + b)
  {
    forall k | 0 <= k < |a + b| ensures !(a + b)[k].AppendAudio? {
      if k >= |a| {
        assert (a + b)[k] == b[k - |a|];
      }
    }
  }

  /** One input while no call is active appends no audio and starts no
      microphone. */
  lemma StepIsSilent(s: Session, i: Input)
    ensures NoAppend(Step(s, i, false).1.toRemote) && !Step(s, i, false).1.micStarted
  {
    match i
    case Remote(e) => EventIsSilent(s, e);
    case _ =>
  }

  lemma EventIsSilent(s: Session, e: ServerEvent)
    ensures NoAppend(HandleServerEvent(s, e, false).1.toRemote)
    ensures !HandleServerEvent(s, e, false).1.micStarted
  {
    if e.SpeechStarted? && s.isResponding {
      var cmds := Interrupt(s).1.toRemote;
      assert HandleServerEvent(s, e, false).1.toRemote == cmds;
      assert NoAppend(cmds);
    }
  }

  /** What each kind of event may do: at most one client notification; remote
      commands only from a barge-in; fragments piped only by an audio delta;
      the microphone started only by `response.done` during a call; lookups
      only from a completed transcript. */
  lemma EventEffects(s: Session, e: ServerEvent, callActive: bool)
    ensures var fx := HandleServerEvent(s, e, callActive).1;
      |fx.toClient| <= 1
      && (fx.toRemote != [] ==> e.SpeechStarted? && s.isResponding)
      && (fx.rendered != [] ==> e.AudioDelta?)
      && (fx.micStarted ==> e.ResponseDone? && callActive)
      && (fx.speakerEnded ==> e.SpeechStarted? && s.isResponding)
      && (fx.lookups != [] ==> e.TranscriptionCompleted?)
  {
  }

  /** `input_audio_buffer.speech_started` always notifies the client; it
      interrupts exactly when a response is in flight, ending a live
      speaker, and otherwise leaves the session as it was. */
  lemma SpeechStartedBargesIn(s: Session, callActive: bool)
    ensures var (s1, fx) := HandleServerEvent(s, SpeechStarted, callActive);
      fx.toClient == [InputSpeechStarted]
      && (s.isResponding ==> s1 == INITIAL && fx == Then(ToClient(InputSpeechStarted), Interrupt(s).1))
      && (!s.isResponding ==> s1 == s && fx == ToClient(InputSpeechStarted))
      && (fx.speakerEnded <==> s.isResponding && s.playback.speakerOpen)
  {
  }

  /** A speech start once `response.done` arrived does not interrupt: the
      audio still queued from that response keeps playing. */
  lemma SpeechAfterDoneKeepsPlaying(s: Session, callActive: bool)
    ensures var (s1, _) := HandleServerEvent(s, ResponseDone, callActive);
      var (s2, fx) := HandleServerEvent(s1, SpeechStarted, callActive);
      s2.playback.queue == s.playback.queue && s2.playback.isPlaying == s.playback.isPlaying
      && fx.toRemote == []
  {
  }

  /** `response.created` starts a response cycle and records its id. */
  lemma ResponseCreatedRecords(s: Session, id: string, callActive: bool)
    ensures var (s1, fx) := HandleServerEvent(s, ResponseCreated(id), callActive);
      s1 == s.(isResponding := true, currentResponseId := Some(id))
      && fx.toClient == [ResponseCreatedNote] && fx.toRemote == []
  {
  }

  /** `response.done` notifies the client, ends the cycle and resets the
      duration whatever is still queued, and restarts the microphone when a
      call is active. */
  lemma ResponseDoneResets(s: Session, callActive: bool)
    ensures var (s1, fx) := HandleServerEvent(s, ResponseDone, callActive);
      s1 == s.(playback := s.playback.(playedBytes := 0), isResponding := false,
               currentResponseId := None, currentItemId := None)
      && fx.toClient == [ResponseDoneNote] && fx.toRemote == []
      && fx.micStarted == callActive
  {
  }

  /** The events that are only relayed to the client: each forwards its
      payload unchanged as one notification and leaves the session as it
      was. */
  lemma ForwardingEvents(s: Session, e: ServerEvent, callActive: bool)
    ensures e.SpeechStopped? ==>
      HandleServerEvent(s, e, callActive) == (s, ToClient(InputSpeechStopped))
    ensures e.AudioTranscriptDelta? ==>
      HandleServerEvent(s, e, callActive) == (s, ToClient(TranscriptDeltaNote(e.delta)))
    ensures e.AudioTranscriptDone? ==>
      HandleServerEvent(s, e, callActive) == (s, ToClient(TranscriptDoneNote))
    ensures e.TextDelta? ==>
      HandleServerEvent(s, e, callActive) == (s, ToClient(TextDeltaNote(e.delta)))
    ensures e.ErrorEvent? ==>
      HandleServerEvent(s, e, callActive) == (s, ToClient(ErrorNote(e.error)))
  {
  }

  /** Session configuration events and unknown event types are swallowed;
      item and audio events send nothing to the client. */
  lemma QuietEvents(s: Session, e: ServerEvent, callActive: bool)
    ensures e.SessionCreated? || e.SessionUpdated? || e.Unhandled? ==>
      HandleServerEvent(s, e, callActive) == (s, NO_EFFECTS)
    ensures e.OutputItemAdded? || e.AudioDelta? ==>
      HandleServerEvent(s, e, callActive).1.toClient == []
  {
  }

  /** `response.output_item.added` records the item id and nothing else. */
  lemma OutputItemRecords(s: Session, id: string, callActive: bool)
    ensures HandleServerEvent(s, OutputItemAdded(id), callActive)
      == (s.(currentItemId := Some(id)), NO_EFFECTS)
  {
  }

  /** A completed user transcript is forwarded and launches one lookup for
      the recognised place, or none. */
  lemma TranscriptLaunchesLookup(s: Session, t: string, callActive: bool)
    ensures var (s1, fx) := HandleServerEvent(s, TranscriptionCompleted(t), callActive);
      s1 == s && fx.toClient == [TranscriptionNote(t)] && fx.toRemote == []
      && (fx.lookups == [] <==> forall i :: !MatchAt(t, i))
      && (WeatherCity(t).Some? ==> fx.lookups == [WeatherCity(t).value])
  {
    var (s1, fx) := HandleServerEvent(s, TranscriptionCompleted(t), callActive);
    assert fx.lookups == LookupsFor(t);
    LookupsForMeans(t);
  }

  /** A transcript launches no lookup iff the pattern occurs nowhere in it,
      and otherwise exactly one, for the recognised place. */
  lemma LookupsForMeans(t: string)
    ensures LookupsFor(t) == [] <==> forall i :: !MatchAt(t, i)
    ensures WeatherCity(t).Some? ==> LookupsFor(t) == [WeatherCity(t).value]
  {
    WeatherCityMeans(t);
    match WeatherCity(t) {
      case None =>
      case Some(c) => assert LookupsFor(t) == [c];
    }
  }

  /** An audio delta goes through the sequencer and nowhere else. */
  lemma AudioDeltaEnqueues(s: Session, f: Fragment, callActive: bool)
    ensures var (s1, fx) := HandleServerEvent(s, AudioDelta(f), callActive);
      fx.rendered + s1.playback.queue == s.playback.queue + [f]
      && (s.playback.isPlaying ==> fx.rendered == [])
      && s1.isResponding == s.isResponding && s1.currentResponseId == s.currentResponseId
      && s1.currentItemId == s.currentItemId
      && s1.playback.playedBytes == s.playback.playedBytes && s1.playback.isPlaying
      && (s.playback.isPlaying ==> s1 == s.(playback := s.playback.(queue := s.playback.queue + [f])))
      && fx.toRemote == [] && fx.toClient == []
  {
  }

  /** The interruption's truncate reports the floor of the milliseconds of
      every fragment that finished since the session was last reset. */
  lemma TruncateReportsPlayedAudio(s: Session, evs: seq<PlaybackEvent>)
    requires s.playback == Playback.Run(IDLE, evs).0 && HasItem(s)
    ensures Truncates(Interrupt(s).1.toRemote)
      == [Truncate(s.currentItemId.value, 0, DurationMs(EndedBytes(evs)).Floor)]
  {
    var bytes := s.playback.playedBytes;
    assert bytes == EndedBytes(evs) by {
      RunAccounts(IDLE, evs);
    }
    var cmds := Interrupt(s).1.toRemote;
    assert Truncates(cmds) == [Truncate(s.currentItemId.value, 0, DurationMs(bytes).Floor)];
  }

  /** The `end` of a stream piped before a reset still adds its bytes to the
      reset counter: a truncate for an item none of whose audio was piped
      reports 20 ms. */
  lemma LeftoverEndCounts(a: Fragment, s: Session)
    requires |a| == 960
    requires s.playback == Playback.Run(IDLE, [Ended(a)]).0 && s.currentItemId == Some("i")
    ensures Truncates(Interrupt(s).1.toRemote) == [Truncate("i", 0, 20)]
  {
    TruncateReportsPlayedAudio(s, [Ended(a)]);
    assert EndedBytes([Ended(a)]) == 960;
    AudioEndMsIsFloor(960);
  }
}
