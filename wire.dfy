/** The messages that cross the relay's three boundaries: events pushed by the
    remote realtime session, notifications forwarded to the browser client,
    and commands sent back to the remote session. JSON framing and the
    per-command `event_id` strings are not part of this model. */
module Wire {

  datatype Option<+T> = None | Some(value: T)

  /** One octet of 16-bit mono PCM audio. */
  newtype byte = x: int | 0 <= x < 256

  /** A decoded `response.audio.delta` payload or a captured mic chunk. */
  type Fragment = seq<byte>

  /** Inbound events of the remote session, one constructor per `case` of the
      router's switch. `Unhandled` stands for every other event type. */
  datatype ServerEvent =
    | SessionCreated
    | SessionUpdated
    | SpeechStarted
    | SpeechStopped
    | ResponseCreated(responseId: string)
    | OutputItemAdded(itemId: string)
    | AudioDelta(audio: Fragment)
    | ResponseDone
    | TranscriptionCompleted(transcript: string)
    | AudioTranscriptDelta(delta: string)
    | AudioTranscriptDone
    | TextDelta(delta: string)
    | ErrorEvent(error: string)
    | Unhandled(eventType: string)

  /** Notifications forwarded to the browser client. */
  datatype ClientMessage =
    | InputSpeechStarted
    | InputSpeechStopped
    | ResponseCreatedNote
    | ResponseDoneNote
    | TranscriptionNote(transcript: string)
    | TranscriptDeltaNote(delta: string)
    | TranscriptDoneNote
    | TextDeltaNote(delta: string)
    | ErrorNote(error: string)

  /** Commands sent to the remote session. */
  datatype RemoteCommand =
    | SessionUpdate
    | AppendAudio(audio: Fragment)
    | ResponseCancel
    | Truncate(itemId: string, contentIndex: nat, audioEndMs: nat)
    | ItemAdd(role: string, content: string)

  /** Everything one callback does besides updating the session's variables:
      client notifications and remote commands in the order they are sent,
      fragments piped to the speaker in order, whether the microphone was
      started, whether the speaker was ended, and the weather lookups
      launched (by city name). */
  datatype Effects = Effects(
    toClient: seq<ClientMessage>,
    toRemote: seq<RemoteCommand>,
    rendered: seq<Fragment>,
    micStarted: bool,
    speakerEnded: bool,
    lookups: seq<string>)

  const NO_EFFECTS := Effects([], [], [], false, false, [])

  /** The effects of `a` followed by those of `b`. */
  function Then(a: Effects, b: Effects): Effects {
    Effects(a.toClient + b.toClient, a.toRemote + b.toRemote, a.rendered + b.rendered,
            a.micStarted || b.micStarted, a.speakerEnded || b.speakerEnded,
            a.lookups + b.lookups)
  }
}
