/** The audio playback sequencer of one relay session (`queueAudioDelta`,
    `playNextAudio` and the speaker callbacks) as a value and pure
    transitions. The played duration is kept as the number of bytes whose
    playback finished; `DurationMs` gives the milliseconds the source's
    accumulator holds for that many bytes of 16-bit mono PCM at 24000 Hz. */
module Playback {
  import opened Wire

  const SAMPLE_RATE := 24000
  const BYTES_PER_SAMPLE := 2

  /** `audioQueue`, `isPlaying`, the bytes behind `audioPlaybackDuration`,
      and whether `speakerStream` is a live (created, not destroyed) speaker. */
  datatype Sequencer = Sequencer(
    queue: seq<Fragment>,
    isPlaying: bool,
    playedBytes: nat,
    speakerOpen: bool)

  const IDLE := Sequencer([], false, 0, false)

  /** The coupling of the playback cursor and the queue: when nothing plays,
      nothing waits; and whatever plays has a live speaker to play on. */
  predicate Valid(p: Sequencer) {
    (!p.isPlaying ==> p.queue == []) && (p.isPlaying ==> p.speakerOpen)
  }

  /** The fragments a transition pipes to the speaker. */
  function Started(o: Option<Fragment>): seq<Fragment> {
    match o
    case None => []
    case Some(f) => [f]
  }

  /** Milliseconds of audio in `bytes` bytes, as the source computes them
      (`(length / 2) / 24000 * 1000`), in exact arithmetic. */
  function DurationMs(bytes: nat): real {
    (bytes as real / BYTES_PER_SAMPLE as real) / SAMPLE_RATE as real * 1000.0
  }

  /** The integer milliseconds reported for `bytes` played bytes. */
  function AudioEndMs(bytes: nat): nat {
    bytes / 48
  }

  /** Integer accounting loses nothing: `AudioEndMs` is the floor of the
      source's millisecond expression. */
  lemma AudioEndMsIsFloor(bytes: nat)
    ensures AudioEndMs(bytes) == DurationMs(bytes).Floor
    ensures AudioEndMs(bytes) as real <= DurationMs(bytes) < AudioEndMs(bytes) as real + 1.0
  {
    var q, r := bytes / 48, bytes % 48;
    assert bytes == 48 * q + r;
    assert DurationMs(bytes) == bytes as real / 48.0;
    assert bytes as real / 48.0 == q as real + r as real / 48.0;
    assert 0.0 <= r as real / 48.0 < 1.0;
  }

  /** Accumulating bytes is accumulating milliseconds. */
  lemma DurationAdds(a: nat, b: nat)
    ensures DurationMs(a + b) == DurationMs(a) + DurationMs(b)
  {
  }

  /** `playNextAudio`: take the head of the queue and pipe it to the speaker
      (creating one when there is none), or mark the sequencer idle when the
      queue is empty. */
  function PlayNext(p: Sequencer): (r: (Sequencer, Option<Fragment>))
    ensures Started(r.1) + r.0.queue == p.queue
    ensures r.1.Some? <==> p.queue != []
    ensures r.0.isPlaying <==> r.1.Some?
    ensures r.0.playedBytes == p.playedBytes
    ensures r.1.None? ==> r.0 == p.(isPlaying := false)
    ensures Valid(r.0)
  {
    if p.queue == [] then
      (p.(isPlaying := false), None)
    else
      (p.(queue := p.queue[1..], isPlaying := true, speakerOpen := true), Some(p.queue[0]))
  }

  /** `queueAudioDelta`: append at the tail; start playback only when idle. */
  function Enqueue(p: Sequencer, f: Fragment): (r: (Sequencer, Option<Fragment>))
    ensures Started(r.1) + r.0.queue == p.queue + [f]
    ensures p.isPlaying ==> r == (p.(queue := p.queue + [f]), None)
    ensures !p.isPlaying ==> r.1 == Some((p.queue + [f])[0])
    ensures !p.isPlaying && Valid(p) ==> r.1 == Some(f) && r.0.queue == []
    ensures r.0.isPlaying && r.0.playedBytes == p.playedBytes
    ensures Valid(p) ==> Valid(r.0)
  {
    var q := p.(queue := p.queue + [f]);
    if !p.isPlaying then PlayNext(q) else (q, None)
  }

  /** The `end` callback of the stream that piped `chunk`: account for its
      bytes, then play the next fragment. */
  function Finish(p: Sequencer, chunk: Fragment): (r: (Sequencer, Option<Fragment>))
    ensures r.0.playedBytes == p.playedBytes + |chunk|
    ensures DurationMs(r.0.playedBytes)
         == DurationMs(p.playedBytes) + (|chunk| as real / 2.0) / 24000.0 * 1000.0
    ensures Started(r.1) + r.0.queue == p.queue
    ensures r.1.Some? <==> p.queue != []
    ensures r.0.isPlaying <==> r.1.Some?
    ensures r.1.None? ==> r.0 == p.(isPlaying := false, playedBytes := p.playedBytes + |chunk|)
    ensures Valid(r.0)
  {
    DurationAdds(p.playedBytes, |chunk|);
    PlayNext(p.(playedBytes := p.playedBytes + |chunk|))
  }

  /** The `close` callback of a speaker: `current` says whether it is the
      speaker `speakerStream` still refers to (which is then destroyed) or
      one an interruption already dropped. Either way playback is marked
      idle and the next fragment is played. */
  function SpeakerClose(p: Sequencer, current: bool): (r: (Sequencer, Option<Fragment>))
    ensures r.0.playedBytes == p.playedBytes
    ensures Started(r.1) + r.0.queue == p.queue
    ensures r.1.Some? <==> p.queue != []
    ensures r.0.isPlaying <==> r.1.Some?
    ensures r.1.None? ==> r.0.speakerOpen == (p.speakerOpen && !current)
    ensures Valid(r.0)
  {
    PlayNext(p.(isPlaying := false, speakerOpen := p.speakerOpen && !current))
  }

  /** The playback half of an interruption: the queue is replaced by an
      empty one, a live speaker is ended and dropped, and the played
      duration is reset. The boolean says whether a speaker was ended. */
  function Clear(p: Sequencer): (r: (Sequencer, bool))
    ensures r.0 == IDLE && Valid(r.0)
    ensures r.1 == p.speakerOpen
  {
    (IDLE, p.speakerOpen)
  }

  /** The callbacks that drive the sequencer. */
  datatype PlaybackEvent =
    | Delta(audio: Fragment)
    | Ended(chunk: Fragment)
    | Closed(current: bool)

  function Step(p: Sequencer, e: PlaybackEvent): (Sequencer, Option<Fragment>) {
    match e
    case Delta(f) => Enqueue(p, f)
    case Ended(c) => Finish(p, c)
    case Closed(cur) => SpeakerClose(p, cur)
  }

  /** The final sequencer after `evs`, and every fragment piped, in order. */
  function Run(p: Sequencer, evs: seq<PlaybackEvent>): (Sequencer, seq<Fragment>)
    decreases |evs|
  {
    if evs == [] then (p, [])
    else
      var (p1, o) := Step(p, evs[0]);
      var (pf, rs) := Run(p1, evs[1..]);
      (pf, Started(o) + rs)
  }

  /** The audio deltas among `evs`, in arrival order. */
  function Arrivals(evs: seq<PlaybackEvent>): seq<Fragment>
    decreases |evs|
  {
    if evs == [] then []
    else (if evs[0].Delta? then [evs[0].audio] else []) + Arrivals(evs[1..])
  }

  /** The bytes of the fragments whose playback finished among `evs`. */
  function EndedBytes(evs: seq<PlaybackEvent>): nat
    decreases |evs|
  {
    if evs == [] then 0
    else (if evs[0].Ended? then |evs[0].chunk| else 0) + EndedBytes(evs[1..])
  }

  /** The callbacks among `evs` that end a fragment's playback. */
  function Completions(evs: seq<PlaybackEvent>): nat
    decreases |evs|
  {
    if evs == [] then 0
    else (if evs[0].Delta? then 0 else 1) + Completions(evs[1..])
  }

  function IdleBit(p: Sequencer): nat {
    if p.isPlaying then 0 else 1
  }

  /** Fragments are played in exactly the order they arrived: what was piped
      followed by what still waits is what waited before followed by every
      delta that arrived. Nothing is skipped, duplicated or reordered. */
  lemma {:induction false} RunIsFifo(p: Sequencer, evs: seq<PlaybackEvent>)
    ensures Run(p, evs).1 + Run(p, evs).0.queue == p.queue + Arrivals(evs)
    decreases |evs|
  {
    if evs != [] {
      var (p1, o) := Step(p, evs[0]);
      var (pf, rs) := Run(p1, evs[1..]);
      RunIsFifo(p1, evs[1..]);
      var a0 := if evs[0].Delta? then [evs[0].audio] else [];
      assert Started(o) + p1.queue == p.queue + a0;
      assert Run(p, evs) == (pf, Started(o) + rs);
      assert Arrivals(evs) == a0 + Arrivals(evs[1..]);
      Splice(Started(o), rs, pf.queue, p1.queue, Arrivals(evs[1..]), p.queue, a0);
    }
  }

  /** Sequence algebra behind one step of `RunIsFifo`. */
  lemma Splice<T>(s: seq<T>, rs: seq<T>, q: seq<T>, q1: seq<T>, rest: seq<T>, q0: seq<T>, a0: seq<T>)
    requires rs + q == q1 + rest
    requires s + q1 == q0 + a0
    ensures (s + rs) + q == q0 + (a0 + rest)
  {
    calc {
      (s + rs) + q;
      s + (rs + q);
      s + (q1 + rest);
      (s + q1) + rest;
      (q0 + a0) + rest;
    }
  }

  /** Every fragment piped beyond the first follows a stream `end` or a
      speaker `close` callback. The callbacks are not tied to the fragment
      playing (see `LeftoverCloseOverlaps`), so this bounds the fragments
      piped, not the fragments in flight. */
  lemma {:induction false} RunOneAtATime(p: Sequencer, evs: seq<PlaybackEvent>)
    ensures |Run(p, evs).1| + IdleBit(Run(p, evs).0) <= Completions(evs) + IdleBit(p)
    decreases |evs|
  {
    if evs != [] {
      var (p1, o) := Step(p, evs[0]);
      RunOneAtATime(p1, evs[1..]);
      assert |Started(o)| + IdleBit(p1) <= (if evs[0].Delta? then 0 else 1) + IdleBit(p);
    }
  }

  /** The played-byte counter grows by exactly the bytes of the fragments
      whose playback finished. */
  lemma {:induction false} RunAccounts(p: Sequencer, evs: seq<PlaybackEvent>)
    ensures Run(p, evs).0.playedBytes == p.playedBytes + EndedBytes(evs)
    decreases |evs|
  {
    if evs != [] {
      var (p1, o) := Step(p, evs[0]);
      RunAccounts(p1, evs[1..]);
    }
  }

  /** Every callback keeps the cursor and the queue coupled. */
  lemma {:induction false} RunKeepsValid(p: Sequencer, evs: seq<PlaybackEvent>)
    requires Valid(p)
    ensures Valid(Run(p, evs).0)
    decreases |evs|
  {
    if evs != [] {
      var (p1, o) := Step(p, evs[0]);
      RunKeepsValid(p1, evs[1..]);
    }
  }

  /** The `close` of a speaker that an interruption already dropped marks
      playback idle and pipes the next fragment while another still plays:
      two fragments are in flight and none has finished. */
  lemma LeftoverCloseOverlaps(b: Fragment, c: Fragment)
    ensures var evs := [Delta(b), Delta(c), Closed(false)];
      Run(IDLE, evs).1 == [b, c] && Run(IDLE, evs).0.isPlaying && EndedBytes(evs) == 0
  {
    var evs := [Delta(b), Delta(c), Closed(false)];
    var p1 := Sequencer([], true, 0, true);
    var p2 := Sequencer([c], true, 0, true);
    assert Step(IDLE, Delta(b)) == (p1, Some(b));
    assert p1.queue + [c] == [c];
    assert Step(p1, Delta(c)) == (p2, None);
    assert Step(p2, Closed(false)) == (p1, Some(c));
    assert evs[1..] == [Delta(c), Closed(false)] && evs[1..][1..] == [Closed(false)];
    assert Run(p2, [Closed(false)]) == (p1, [c]);
    assert Run(p1, evs[1..]) == (p1, [c]);
    assert EndedBytes([Closed(false)]) == 0;
    assert EndedBytes(evs[1..]) == 0;
  }

  /** Starting from an idle, empty sequencer with a played counter reset to
      zero: the milliseconds reported later are the floor of the summed
      durations of the fragments that finished. */
  lemma PlayedFromReset(evs: seq<PlaybackEvent>)
    ensures AudioEndMs(Run(IDLE, evs).0.playedBytes) == DurationMs(EndedBytes(evs)).Floor
    ensures Run(IDLE, evs).1 + Run(IDLE, evs).0.queue == Arrivals(evs)
  {
    RunAccounts(IDLE, evs);
    RunIsFifo(IDLE, evs);
    AudioEndMsIsFloor(EndedBytes(evs));
  }
}
