/** The relay as the source holds it: the module-level call flag the HTTP
    routes toggle, and, per client connection, the closure variables the
    callbacks update in place. Every method is proved against the value
    model in module Router, whose properties are proved there. */
module RelaySession {
  import opened Wire
  import opened Playback
  import opened Weather
  import Router

  /** The process-wide `isCallActive` flag with the `/start-call` and
      `/stop-call` handlers. */
  class CallControl {
    var isCallActive: bool

    constructor ()
      ensures !isCallActive
    {
      isCallActive := false;
    }

    /** `/start-call`: set the flag; `changed` says whether it was clear
      (the source logs only then). Starting an active call changes nothing. */
    method StartCall() returns (changed: bool)
      modifies this
      ensures isCallActive
      ensures changed == !old(isCallActive)
      ensures old(isCallActive) ==> unchanged(this)
    {
      changed := false;
      if !isCallActive {
        isCallActive := true;
        changed := true;
      }
    }

    /** `/stop-call`: clear the flag; stopping an inactive call changes nothing. */
    method StopCall() returns (changed: bool)
      modifies this
      ensures !isCallActive
      ensures changed == old(isCallActive)
      ensures !old(isCallActive) ==> unchanged(this)
    {
      changed := false;
      if isCallActive {
        isCallActive := false;
        changed := true;
      }
    }
  }

  /** The state of one client connection. `playedBytes` stands for
      `audioPlaybackDuration` (see module Playback); `speakerOpen` says
      whether `speakerStream` holds a speaker that is not destroyed. */
  class Session {
    var audioQueue: seq<Fragment>
    var isPlaying: bool
    var playedBytes: nat
    var speakerOpen: bool
    var isResponding: bool
    var currentResponseId: Option<string>
    var currentItemId: Option<string>

    /** The value this object holds. */
    function Model(): Router.Session
      reads this
    {
      Router.Session(Sequencer(audioQueue, isPlaying, playedBytes, speakerOpen),
                     isResponding, currentResponseId, currentItemId)
    }

    ghost predicate Valid()
      reads this
    {
      Router.Consistent(Model())
    }

    constructor ()
      ensures Model() == Router.INITIAL && Valid()
    {
      audioQueue := [];
      isPlaying := false;
      playedBytes := 0;
      speakerOpen := false;
      isResponding := false;
      currentResponseId := None;
      currentItemId := None;
    }

    /** `playNextAudio`. */
    method PlayNextAudio() returns (started: Option<Fragment>)
      modifies this
      ensures Model() == old(Model()).(playback := PlayNext(old(Model()).playback).0)
      ensures started == PlayNext(old(Model()).playback).1
      ensures old(Valid()) ==> Valid()
    {
      if audioQueue == [] {
        isPlaying := false;
        return None;
      }
      var chunk := audioQueue[0];
      audioQueue := audioQueue[1..];
      if !speakerOpen {
        speakerOpen := true;
      }
      isPlaying := true;
      started := Some(chunk);
    }

    /** `queueAudioDelta`. */
    method QueueAudioDelta(f: Fragment) returns (started: Option<Fragment>)
      modifies this
      ensures Model() == old(Model()).(playback := Enqueue(old(Model()).playback, f).0)
      ensures started == Enqueue(old(Model()).playback, f).1
      ensures old(Valid()) ==> Valid()
    {
      audioQueue := audioQueue + [f];
      started := None;
      if !isPlaying {
        started := PlayNextAudio();
      }
    }

    /** The `end` callback of the stream that piped `chunk`. */
    method OnStreamEnd(chunk: Fragment) returns (started: Option<Fragment>)
      modifies this
      ensures Model() == old(Model()).(playback := Finish(old(Model()).playback, chunk).0)
      ensures started == Finish(old(Model()).playback, chunk).1
      ensures old(Valid()) ==> Valid()
    {
      playedBytes := playedBytes + |chunk|;
      started := PlayNextAudio();
    }

    /** The `close` callback of a speaker; `current` as in Playback.SpeakerClose. */
    method OnSpeakerClose(current: bool) returns (started: Option<Fragment>)
      modifies this
      ensures Model() == old(Model()).(playback := SpeakerClose(old(Model()).playback, current).0)
      ensures started == SpeakerClose(old(Model()).playback, current).1
      ensures old(Valid()) ==> Valid()
    {
      if current {
        speakerOpen := false;
      }
      isPlaying := false;
      started := PlayNextAudio();
    }

    /** `handleInterruption`. */
    method HandleInterruption() returns (commands: seq<RemoteCommand>, speakerEnded: bool)
      modifies this
      ensures Model() == Router.INITIAL && Valid()
      ensures commands == Router.Interrupt(old(Model())).1.toRemote
      ensures speakerEnded == old(speakerOpen)
    {
      audioQueue := [];
      speakerEnded := speakerOpen;
      if speakerOpen {
        speakerOpen := false;
      }
      isPlaying := false;
      commands := [ResponseCancel];
      if currentItemId.Some? && currentItemId.value != [] {
        commands := commands + [Truncate(currentItemId.value, 0, AudioEndMs(playedBytes))];
      }
      isResponding := false;
      currentResponseId := None;
      currentItemId := None;
      playedBytes := 0;
    }

    /** `startListening`: whether the microphone is started. */
    method StartListening(control: CallControl) returns (micStarted: bool)
      ensures micStarted == control.isCallActive
    {
      micStarted := false;
      if !control.isCallActive {
        return;
      }
      micStarted := true;
    }

    /** The microphone's `data` callback: the commands it sends. */
    method OnMicData(control: CallControl, chunk: Fragment) returns (commands: seq<RemoteCommand>)
      ensures commands == Router.MicData(chunk, control.isCallActive).toRemote
      ensures !control.isCallActive ==> commands == []
    {
      if !control.isCallActive {
        return [];
      }
      commands := [AppendAudio(chunk)];
    }

    /** The remote socket's `open` callback. */
    method OnOpen(control: CallControl) returns (fx: Effects)
      ensures fx == Router.Opened(control.isCallActive)
    {
      var started := StartListening(control);
      fx := NO_EFFECTS.(toRemote := [SessionUpdate], micStarted := started);
    }

    /** The synchronous part of `handlePotentialWeatherQuery`: the lookup it
      launches, if any. */
    method HandlePotentialWeatherQuery(transcript: string) returns (lookups: seq<string>)
      ensures lookups == Router.LookupsFor(transcript)
      ensures lookups == [] <==> forall i :: !MatchAt(transcript, i)
    {
      Router.LookupsForMeans(transcript);
      var city := WeatherCity(transcript);
      if city.Some? {
        lookups := [city.value];
      } else {
        lookups := [];
      }
    }

    /** The rest of `handlePotentialWeatherQuery` once the lookup for `city`
      returned `data`: the system item sent to the remote session. */
    method OnWeatherData(city: string, data: WeatherData) returns (command: RemoteCommand)
      ensures [command] == Router.WeatherFetched(city, data).toRemote
    {
      var message := FormatWeatherMessage(data, city);
      command := ItemAdd("system", message);
    }

    /** The `input_audio_buffer.speech_started` case of `handleServerEvent`. */
    method OnSpeechStarted(control: CallControl) returns (fx: Effects)
      modifies this
      ensures Model() == Router.HandleServerEvent(old(Model()), SpeechStarted, control.isCallActive).0
      ensures fx == Router.HandleServerEvent(old(Model()), SpeechStarted, control.isCallActive).1
      ensures old(Valid()) ==> Valid()
    {
      fx := NO_EFFECTS.(toClient := [InputSpeechStarted]);
      if isResponding {
        var commands, ended := HandleInterruption();
        fx := fx.(toRemote := commands, speakerEnded := ended);
      }
    }

    /** The `response.done` case of `handleServerEvent`. */
    method OnResponseDone(control: CallControl) returns (fx: Effects)
      modifies this
      ensures Model() == Router.HandleServerEvent(old(Model()), ResponseDone, control.isCallActive).0
      ensures fx == Router.HandleServerEvent(old(Model()), ResponseDone, control.isCallActive).1
      ensures old(Valid()) ==> Valid()
    {
      fx := NO_EFFECTS.(toClient := [ResponseDoneNote]);
      isResponding := false;
      currentResponseId := None;
      currentItemId := None;
      playedBytes := 0;
      var micStarted := StartListening(control);
      fx := fx.(micStarted := micStarted);
    }

    /** `handleServerEvent`. */
    method HandleServerEvent(e: ServerEvent, control: CallControl) returns (fx: Effects)
      modifies this
      ensures Model() == Router.HandleServerEvent(old(Model()), e, control.isCallActive).0
      ensures fx == Router.HandleServerEvent(old(Model()), e, control.isCallActive).1
      ensures old(Valid()) ==> Valid()
    {
      fx := NO_EFFECTS;
      match e {
        case SessionCreated =>
        case SessionUpdated =>
        case SpeechStarted =>
          fx := OnSpeechStarted(control);
        case SpeechStopped =>
          fx := fx.(toClient := [InputSpeechStopped]);
        case ResponseCreated(id) =>
          isResponding := true;
          currentResponseId := Some(id);
          fx := fx.(toClient := [ResponseCreatedNote]);
        case OutputItemAdded(id) =>
          currentItemId := Some(id);
        case AudioDelta(f) =>
          var started := QueueAudioDelta(f);
          fx := fx.(rendered := Started(started));
        case ResponseDone =>
          fx := OnResponseDone(control);
        case TranscriptionCompleted(t) =>
          fx := fx.(toClient := [TranscriptionNote(t)]);
          var lookups := HandlePotentialWeatherQuery(t);
          fx := fx.(lookups := lookups);
        case AudioTranscriptDelta(d) =>
          fx := fx.(toClient := [TranscriptDeltaNote(d)]);
        case AudioTranscriptDone =>
          fx := fx.(toClient := [TranscriptDoneNote]);
        case TextDelta(d) =>
          fx := fx.(toClient := [TextDeltaNote(d)]);
        case ErrorEvent(err) =>
          fx := fx.(toClient := [ErrorNote(err)]);
        case Unhandled(_) =>
      }
      if old(Valid()) {
        Router.StepKeepsConsistent(old(Model()), Router.Remote(e), control.isCallActive);
      }
    }
  }

  /** The first half of a barge-in: a response starts, its item is
      announced, two fragments arrive and the first (`a`, 20 ms of audio)
      finishes, so the second plays. */
  method PlayFirstFragment(control: CallControl, a: Fragment, b: Fragment) returns (s: Session)
    requires |a| == 960
    ensures fresh(s)
    ensures s.Model() == Router.Session(Sequencer([], true, 960, true), true, Some("resp_1"), Some("item_1"))
  {
    s := new Session();
    var fx := s.HandleServerEvent(ResponseCreated("resp_1"), control);
    fx := s.HandleServerEvent(OutputItemAdded("item_1"), control);
    fx := s.HandleServerEvent(AudioDelta(a), control);
    assert fx.rendered == [a];
    fx := s.HandleServerEvent(AudioDelta(b), control);
    assert fx.rendered == [] && s.audioQueue == [b];
    var started := s.OnStreamEnd(a);
    assert started == Some(b);
  }

  /** The second half: the user speaks while `b` plays. The response is
      cancelled, the item is truncated at the 20 ms that finished, the
      speaker is ended and the session is back to its initial state. */
  method BargeInScenario(control: CallControl, a: Fragment, b: Fragment)
    requires |a| == 960
  {
    var s := PlayFirstFragment(control, a, b);
    var fx := s.HandleServerEvent(SpeechStarted, control);
    assert fx.toClient == [InputSpeechStarted];
    assert fx.toRemote == [ResponseCancel, Truncate("item_1", 0, 20)];
    assert fx.speakerEnded;
    assert s.Model() == Router.INITIAL;
  }
}
