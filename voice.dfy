/** The voice-session controller of components/VoiceInterface.tsx.

    The component keeps its state in React state cells and refs that its event
    handlers update in place. Here that state is the class `VoiceSession`; each
    handler is a method, and each method is specified by a pure transition
    function on `SessionView`, the value of all the fields at once. The
    properties of the controller are lemmas about those transition functions. */
module Voice {
  import opened Wrappers

  /** A playback buffer source. The n-th source ever scheduled has id n. */
  type SourceId = nat

  /** Raw capture samples of one frame. */
  type Pcm = seq<real>

  /** An encoded frame as handed to the session (base64 text). */
  type Blob = string

  const ConnectionError: string := "Ошибка соединения."
  const MicrophoneError: string := "Нет доступа к микрофону."

  // ---------------------------------------------------------------------------
  // Server messages

  /** A transcription delta; its `text` may be missing. */
  datatype Transcription = Transcription(text: Option<string>)

  /** One part of the model turn; `inlineData` is the inline audio data, if any. */
  datatype Part = Part(inlineData: Option<string>)

  /** The `serverContent` of a live server message; `parts` is `modelTurn.parts`. */
  datatype ServerContent = ServerContent(
    parts: Option<seq<Part>>,
    interrupted: bool,
    outputTranscription: Option<Transcription>,
    inputTranscription: Option<Transcription>,
    turnComplete: bool)

  datatype ServerMessage = ServerMessage(serverContent: Option<ServerContent>)

  /** The audio payload of a message: the inline data of the first part only, and
      only when it is a non-empty string (an empty string is falsy in the source). */
  function AudioPayload(m: ServerMessage): (r: Option<string>)
    ensures r.Some? ==> r.value != ""
    ensures r.Some? ==> m.serverContent.Some? && m.serverContent.value.parts.Some?
                        && |m.serverContent.value.parts.value| > 0
                        && m.serverContent.value.parts.value[0].inlineData == r
    ensures m.serverContent.Some? && m.serverContent.value.parts.Some?
            && |m.serverContent.value.parts.value| > 0
            && m.serverContent.value.parts.value[0].inlineData.Some?
            && m.serverContent.value.parts.value[0].inlineData.value != ""
            ==> r.Some?
  {
    match m.serverContent
    case None => None
    case Some(sc) =>
      match sc.parts
      case None => None
      case Some(ps) =>
        if |ps| == 0 then None
        else match ps[0].inlineData
          case None => None
          case Some(d) => if d == "" then None else Some(d)
  }

  /** Whether a message carries the barge-in flag. */
  predicate IsInterrupt(m: ServerMessage) {
    m.serverContent.Some? && m.serverContent.value.interrupted
  }

  /** What `prev + t.text` appends in JavaScript: a missing text is rendered as "undefined". */
  function DeltaText(t: Transcription): string {
    t.text.GetOr("undefined")
  }

  // ---------------------------------------------------------------------------
  // Session state

  /** `sessionRef.current`: no session yet, an open one, or one that was closed. */
  datatype SessionHandle = NoSession | Open | Closed

  /** `micStreamRef.current`: no stream yet, a live one, or one whose tracks were stopped. */
  datatype MicStream = NoStream | Live | Stopped

  /** How the acquisitions of a start attempt turn out: the audio contexts could
      not be created or resumed, the microphone was refused, the microphone was
      granted but the connection failed, or everything succeeded. */
  datatype StartOutcome = AudioUnavailable | MicDenied | ConnectRejected | Connected

  /** One `source.start(at)` call, for a buffer of the given duration. */
  datatype Playback = Playback(source: SourceId, at: real, duration: real)

  /** All the controller's state at once. `started` is the log of start calls
      (source n is `started[n]`), `stopped` the sources on which stop was called,
      `capturing` whether the capture processor has been installed, and `sent`
      the encoded frames handed to the session, in order. */
  datatype SessionView = SessionView(
    isConnecting: bool,
    isActive: bool,
    userText: string,
    aiText: string,
    error: Option<string>,
    nextStartTime: real,
    activeSources: set<SourceId>,
    started: seq<Playback>,
    stopped: set<SourceId>,
    session: SessionHandle,
    mic: MicStream,
    capturing: bool,
    sent: seq<Blob>)

  /** The state when the component mounts. */
  function InitialView(): SessionView {
    SessionView(false, false, "", "", None, 0.0, {}, [], {}, NoSession, NoStream, false, [])
  }

  /** Every active source was scheduled and has not been stopped; every stopped
      source was scheduled. */
  ghost predicate Inv(v: SessionView) {
    (forall s :: s in v.activeSources ==> s < |v.started|) &&
    (forall s :: s in v.stopped ==> s < |v.started|) &&
    v.activeSources !! v.stopped
  }

  // ---------------------------------------------------------------------------
  // Transitions

  /** `Math.max(nextStartTime, currentTime)`: when the next buffer starts. */
  function StartAt(cursor: real, now: real): (r: real)
    ensures r >= cursor && r >= now
    ensures r == cursor || r == now
  {
    if cursor >= now then cursor else now
  }

  /** Scheduling one decoded buffer of `duration` seconds at clock time `now`. */
  function Scheduled(v: SessionView, now: real, duration: real): SessionView {
    var at := StartAt(v.nextStartTime, now);
    var id := |v.started|;
    v.(started := v.started + [Playback(id, at, duration)],
       nextStartTime := at + duration,
       activeSources := v.activeSources + {id})
  }

  /** Stopping every active source and clearing the set. */
  function AllStopped(v: SessionView): SessionView {
    v.(stopped := v.stopped + v.activeSources, activeSources := {})
  }

  /** The barge-in flush: stop everything and reset the timeline cursor to 0. */
  function Interrupted(v: SessionView): SessionView {
    AllStopped(v).(nextStartTime := 0.0)
  }

  /** The transcription rule: an output delta goes to `aiText`; otherwise an
      input delta goes to `userText`; `turnComplete` changes nothing. */
  function Transcribed(v: SessionView, sc: ServerContent): SessionView {
    match sc.outputTranscription
    case Some(t) => v.(aiText := v.aiText + DeltaText(t))
    case None =>
      match sc.inputTranscription
      case Some(t) => v.(userText := v.userText + DeltaText(t))
      case None => v
  }

  /** The message handler: audio first, then the interrupt flag, then
      transcripts. `decoded` is the duration of the decoded audio buffer, or None
      when decoding throws; it is consulted only when the message carries audio.
      A decoding failure rejects the handler right after the cursor has been
      moved to max(cursor, clock): no source is added, and the interrupt flag
      and the transcript deltas of that message are not handled. */
  function Dispatched(v: SessionView, m: ServerMessage, now: real, decoded: Option<real>): SessionView {
    if AudioPayload(m).Some? && decoded.None? then
      v.(nextStartTime := StartAt(v.nextStartTime, now))
    else
      var v1 := if AudioPayload(m).Some? then Scheduled(v, now, decoded.value) else v;
      var v2 := if IsInterrupt(m) then Interrupted(v1) else v1;
      match m.serverContent
      case None => v2
      case Some(sc) => Transcribed(v2, sc)
  }

  /** The `ended` listener of one source. */
  function SourceEnded(v: SessionView, id: SourceId): SessionView {
    v.(activeSources := v.activeSources - {id})
  }

  /** Closing the session and stopping the microphone tracks, when there are any. */
  function Released(v: SessionView): SessionView {
    v.(session := if v.session == NoSession then NoSession else Closed,
       mic := if v.mic == NoStream then NoStream else Stopped)
  }

  /** `cleanup`: close the session if there is one, stop the microphone if there
      is one, stop and forget every source, reset flags, cursor and transcripts.
      The error message is kept. */
  function Cleaned(v: SessionView): (r: SessionView)
    ensures r.session != Open && r.mic != Live
    ensures v.session != NoSession ==> r.session == Closed
    ensures v.mic != NoStream ==> r.mic == Stopped
    ensures r.stopped == v.stopped + v.activeSources && r.activeSources == {}
    ensures r.nextStartTime == 0.0
    ensures !r.isActive && !r.isConnecting
    ensures r.userText == "" && r.aiText == ""
    ensures r.error == v.error
    ensures r.started == v.started && r.sent == v.sent && r.capturing == v.capturing
  {
    AllStopped(Released(v)).(
      isActive := false,
      isConnecting := false,
      nextStartTime := 0.0,
      userText := "",
      aiText := "")
  }

  /** `onopen`: the session is active and the capture processor is installed. */
  function Opened(v: SessionView): SessionView {
    v.(isActive := true, isConnecting := false, capturing := true)
  }

  /** `onerror`: record the connection error, then clean up. */
  function Errored(v: SessionView): SessionView {
    Cleaned(v.(error := Some(ConnectionError)))
  }

  /** `startVoiceSession`, with the outcome of its acquisitions as an input. The
      microphone stream is recorded once granted, and is not released when the
      connection then fails. Every failure reports the microphone message. */
  function Started(v: SessionView, outcome: StartOutcome): SessionView {
    var v1 := v.(isConnecting := true, error := None, userText := "", aiText := "");
    var v2 := if outcome == ConnectRejected || outcome == Connected then v1.(mic := Live) else v1;
    if outcome == Connected then v2.(session := Open)
    else v2.(error := Some(MicrophoneError), isConnecting := false)
  }

  /** `handleToggle`. */
  function Toggled(v: SessionView, outcome: StartOutcome): SessionView {
    if v.isActive then Cleaned(v) else Started(v, outcome)
  }

  /** `onaudioprocess`: once capture is installed, every frame is sent. */
  function FrameSent(v: SessionView, blob: Blob): SessionView {
    if v.capturing then v.(sent := v.sent + [blob]) else v
  }

  // ---------------------------------------------------------------------------
  // Events and traces

  /** Everything that can happen to the controller, one event at a time. */
  datatype Event =
    | Message(m: ServerMessage, now: real, decoded: Option<real>)
    | SourceEnd(id: SourceId)
    | SessionOpen
    | SessionError
    | SessionClose
    | Toggle(outcome: StartOutcome)
    | Frame(blob: Blob)
    | Unmount

  function Step(v: SessionView, e: Event): SessionView {
    match e
    case Message(m, now, d) => Dispatched(v, m, now, d)
    case SourceEnd(id) => SourceEnded(v, id)
    case SessionOpen => Opened(v)
    case SessionError => Errored(v)
    case SessionClose => Cleaned(v)
    case Toggle(o) => Toggled(v, o)
    case Frame(b) => FrameSent(v, b)
    case Unmount => Cleaned(v)
  }

  function Trace(v: SessionView, es: seq<Event>): SessionView
    decreases |es|
  {
    if es == [] then v else Step(Trace(v, es[..|es| - 1]), es[|es| - 1])
  }

  lemma ScheduledKeepsInv(v: SessionView, now: real, duration: real)
    requires Inv(v)
    ensures Inv(Scheduled(v, now, duration))
  {
  }

  lemma StepKeepsInv(v: SessionView, e: Event)
    requires Inv(v)
    ensures Inv(Step(v, e))
  {
    match e
    case Message(m, now, d) => DispatchedKeepsInv(v, m, now, d);
    case SessionError => CleanedKeepsInv(v.(error := Some(ConnectionError)));
    case SessionClose => CleanedKeepsInv(v);
    case Toggle(o) => if v.isActive { CleanedKeepsInv(v); }
    case Unmount => CleanedKeepsInv(v);
    case _ =>
  }

  lemma DispatchedKeepsInv(v: SessionView, m: ServerMessage, now: real, decoded: Option<real>)
    requires Inv(v)
    ensures Inv(Dispatched(v, m, now, decoded))
  {
    if !(AudioPayload(m).Some? && decoded.None?) {
      var v1 := if AudioPayload(m).Some? then Scheduled(v, now, decoded.value) else v;
      if AudioPayload(m).Some? {
        ScheduledKeepsInv(v, now, decoded.value);
      }
      var v2 := if IsInterrupt(m) then Interrupted(v1) else v1;
      if m.serverContent.Some? {
        TranscribedKeepsInv(v2, m.serverContent.value);
      }
    }
  }

  lemma TranscribedKeepsInv(v: SessionView, sc: ServerContent)
    requires Inv(v)
    ensures Inv(Transcribed(v, sc))
  {
  }

  lemma CleanedKeepsInv(v: SessionView)
    requires Inv(v)
    ensures Inv(Cleaned(v))
  {
  }

  /** Every state reachable from the initial one satisfies the invariant. */
  lemma {:induction false} ReachableInv(es: seq<Event>)
    ensures Inv(Trace(InitialView(), es))
  {
    if es != [] {
      ReachableInv(es[..|es| - 1]);
      StepKeepsInv(Trace(InitialView(), es[..|es| - 1]), es[|es| - 1]);
    }
  }

  // ---------------------------------------------------------------------------
  // Playback scheduling

  /** A scheduled buffer starts no earlier than the clock and no earlier than the
      timeline cursor, the cursor moves to its end, it is a fresh source, and it is
      added to the active set. */
  lemma ScheduleStartsAtCursorOrNow(v: SessionView, now: real, duration: real)
    requires Inv(v)
    ensures var r := Scheduled(v, now, duration);
            var p := r.started[|v.started|];
            |r.started| == |v.started| + 1 && r.started[..|v.started|] == v.started
            && p.source == |v.started| && p.duration == duration
            && p.at >= now && p.at >= v.nextStartTime
            && (p.at == now || p.at == v.nextStartTime)
            && r.nextStartTime == p.at + duration
            && p.source !in v.activeSources && p.source !in v.stopped
            && r.activeSources == v.activeSources + {p.source}
  {
  }

  /** With non-negative durations the cursor never moves backwards on a schedule. */
  lemma ScheduleAdvancesCursor(v: SessionView, now: real, duration: real)
    requires duration >= 0.0
    ensures Scheduled(v, now, duration).nextStartTime >= v.nextStartTime
  {
  }

  /** The `ended` event of a freshly scheduled source removes exactly that source. */
  lemma EndedRemovesOnlyThatSource(v: SessionView, now: real, duration: real)
    requires Inv(v)
    ensures SourceEnded(Scheduled(v, now, duration), |v.started|).activeSources == v.activeSources
  {
  }

  /** The interrupt stops every active source, empties the set, resets the cursor. */
  lemma InterruptStopsAll(v: SessionView)
    ensures var r := Interrupted(v);
            r.activeSources == {} && r.nextStartTime == 0.0
            && r.stopped == v.stopped + v.activeSources
            && r.started == v.started && r.aiText == v.aiText && r.userText == v.userText
  {
  }

  /** On an empty active set the interrupt only resets the cursor. */
  lemma InterruptOnEmptySet(v: SessionView)
    requires v.activeSources == {}
    ensures Interrupted(v) == v.(nextStartTime := 0.0)
  {
  }

  /** After an interrupt the next buffer is anchored to the current clock. */
  lemma InterruptReanchors(v: SessionView, now: real, duration: real)
    requires now >= 0.0
    ensures var r := Scheduled(Interrupted(v), now, duration);
            r.started[|v.started|].at == now && r.nextStartTime == now + duration
  {
  }

  /** A decoded audio chunk as seen by the scheduler: the clock when it arrives
      and its duration. */
  datatype Chunk = Chunk(now: real, duration: real)

  /** Scheduling a run of chunks with no interrupt in between. */
  function Run(v: SessionView, cs: seq<Chunk>): SessionView
    decreases |cs|
  {
    if cs == [] then v
    else Scheduled(Run(v, cs[..|cs| - 1]), cs[|cs| - 1].now, cs[|cs| - 1].duration)
  }

  function TotalDuration(cs: seq<Chunk>): real
    decreases |cs|
  {
    if cs == [] then 0.0 else TotalDuration(cs[..|cs| - 1]) + cs[|cs| - 1].duration
  }

  /** A run appends one start record per chunk, in order, and leaves the cursor at
      the end of the last one. */
  lemma {:induction false} RunShape(v: SessionView, cs: seq<Chunk>)
    ensures var r := Run(v, cs);
            |r.started| == |v.started| + |cs| && r.started[..|v.started|] == v.started
            && (forall k :: 0 <= k < |cs| ==> r.started[|v.started| + k].duration == cs[k].duration)
            && (cs != [] ==> r.nextStartTime == r.started[|r.started| - 1].at + cs[|cs| - 1].duration)
    decreases |cs|
  {
    if cs != [] {
      var init := cs[..|cs| - 1];
      RunShape(v, init);
      var p := Run(v, init);
      assert Run(v, cs) == Scheduled(p, cs[|cs| - 1].now, cs[|cs| - 1].duration);
      forall k | 0 <= k < |cs|
        ensures Run(v, cs).started[|v.started| + k].duration == cs[k].duration
      {
        if k < |cs| - 1 {
          assert init[k] == cs[k];
          assert Run(v, cs).started[|v.started| + k] == p.started[|v.started| + k];
        }
      }
      assert Run(v, cs).started[..|v.started|] == p.started[..|v.started|];
    }
  }

  /** No overlap: within a run, every buffer starts at or after the end of the
      previous one, and never before the clock at which it arrived. */
  lemma {:induction false} RunNoOverlap(v: SessionView, cs: seq<Chunk>, k: nat)
    requires k + 1 < |cs|
    ensures var r := Run(v, cs).started;
            |r| == |v.started| + |cs|
            && r[|v.started| + k + 1].at >= r[|v.started| + k].at + cs[k].duration
            && r[|v.started| + k + 1].at >= cs[k + 1].now
    decreases |cs|
  {
    RunShape(v, cs);
    var init := cs[..|cs| - 1];
    RunShape(v, init);
    var p := Run(v, init);
    var b := |v.started|;
    assert Run(v, cs).started == p.started + [Run(v, cs).started[|p.started|]];
    if k + 2 == |cs| {
      assert init[k] == cs[k];
      assert Run(v, cs).started[b + k + 1].at == StartAt(p.nextStartTime, cs[k + 1].now);
    } else {
      RunNoOverlap(v, init, k);
      assert init[k] == cs[k] && init[k + 1] == cs[k + 1];
    }
  }

  /** Gapless playback: when every chunk after the first arrives no later than
      the end of the chunks before it (the clock is behind the timeline), chunk k
      starts exactly where the chunks before it end, and the cursor ends at the
      end of the run. */
  lemma RunGapless(v: SessionView, cs: seq<Chunk>)
    requires cs != []
    requires forall k :: 1 <= k < |cs| ==>
               cs[k].now <= StartAt(v.nextStartTime, cs[0].now) + TotalDuration(cs[..k])
    ensures var anchor := StartAt(v.nextStartTime, cs[0].now);
            var r := Run(v, cs);
            |r.started| == |v.started| + |cs|
            && (forall k :: 0 <= k < |cs| ==> r.started[|v.started| + k].at == anchor + TotalDuration(cs[..k]))
            && r.nextStartTime == anchor + TotalDuration(cs)
  {
    GaplessCursor(v, cs);
    forall k | 0 <= k < |cs|
      ensures Run(v, cs).started[|v.started| + k].at == StartAt(v.nextStartTime, cs[0].now) + TotalDuration(cs[..k])
    {
      GaplessAt(v, cs, k);
    }
  }

  /** The cursor half of gapless playback: an on-time run leaves the cursor at
      its first start plus its total duration. */
  lemma {:induction false} GaplessCursor(v: SessionView, cs: seq<Chunk>)
    requires cs != []
    requires forall k :: 1 <= k < |cs| ==>
               cs[k].now <= StartAt(v.nextStartTime, cs[0].now) + TotalDuration(cs[..k])
    ensures |Run(v, cs).started| == |v.started| + |cs|
    ensures Run(v, cs).nextStartTime == StartAt(v.nextStartTime, cs[0].now) + TotalDuration(cs)
    decreases |cs|
  {
    var anchor := StartAt(v.nextStartTime, cs[0].now);
    var last := |cs| - 1;
    var init := cs[..last];
    if |cs| == 1 {
      assert init == [];
      assert Run(v, init) == v;
    } else {
      GaplessPrefix(v, cs, last);
      GaplessCursor(v, init);
      var p := Run(v, init);
      assert cs[last].now <= anchor + TotalDuration(init);
      assert Run(v, cs) == Scheduled(p, cs[last].now, cs[last].duration);
    }
  }

  /** The arrival hypothesis of a gapless run holds for each of its non-empty prefixes. */
  lemma GaplessPrefix(v: SessionView, cs: seq<Chunk>, j: nat)
    requires 1 <= j <= |cs|
    requires forall k :: 1 <= k < |cs| ==>
               cs[k].now <= StartAt(v.nextStartTime, cs[0].now) + TotalDuration(cs[..k])
    ensures cs[..j][0] == cs[0]
    ensures forall k :: 1 <= k < j ==>
              cs[..j][k].now <= StartAt(v.nextStartTime, cs[..j][0].now) + TotalDuration(cs[..j][..k])
  {
    forall k | 1 <= k < j
      ensures cs[..j][k].now <= StartAt(v.nextStartTime, cs[..j][0].now) + TotalDuration(cs[..j][..k])
    {
      assert cs[..j][k] == cs[k] && cs[..j][..k] == cs[..k];
    }
  }

  /** A run's log extends the log of each of its prefixes. */
  lemma {:induction false} RunPrefixLog(v: SessionView, cs: seq<Chunk>, j: nat)
    requires j <= |cs|
    ensures |Run(v, cs).started| == |v.started| + |cs|
    ensures Run(v, cs[..j]).started == Run(v, cs).started[..|v.started| + j]
    decreases |cs| - j
  {
    RunShape(v, cs);
    if j == |cs| {
      assert cs[..j] == cs;
    } else {
      var init := cs[..|cs| - 1];
      RunPrefixLog(v, init, j);
      assert init[..j] == cs[..j];
      var p := Run(v, init);
      assert Run(v, cs) == Scheduled(p, cs[|cs| - 1].now, cs[|cs| - 1].duration);
      assert Run(v, cs).started[..|p.started|] == p.started;
    }
  }

  /** The start half of gapless playback, one chunk at a time. */
  lemma GaplessAt(v: SessionView, cs: seq<Chunk>, k: nat)
    requires k < |cs|
    requires forall k :: 1 <= k < |cs| ==>
               cs[k].now <= StartAt(v.nextStartTime, cs[0].now) + TotalDuration(cs[..k])
    ensures |Run(v, cs).started| == |v.started| + |cs|
    ensures Run(v, cs).started[|v.started| + k].at == StartAt(v.nextStartTime, cs[0].now) + TotalDuration(cs[..k])
  {
    RunPrefixLog(v, cs, k + 1);
    GaplessLastStart(v, cs, k);
    assert Run(v, cs[..k + 1]).started[|v.started| + k] == Run(v, cs).started[|v.started| + k];
  }

  /** Chunk k of an on-time run starts where the chunks before it end. */
  lemma GaplessLastStart(v: SessionView, cs: seq<Chunk>, k: nat)
    requires k < |cs|
    requires forall k :: 1 <= k < |cs| ==>
               cs[k].now <= StartAt(v.nextStartTime, cs[0].now) + TotalDuration(cs[..k])
    ensures |Run(v, cs[..k + 1]).started| == |v.started| + k + 1
    ensures Run(v, cs[..k + 1]).started[|v.started| + k].at == StartAt(v.nextStartTime, cs[0].now) + TotalDuration(cs[..k])
  {
    assert cs[..k + 1][..k] == cs[..k];
    var q := Run(v, cs[..k]);
    RunShape(v, cs[..k]);
    assert Run(v, cs[..k + 1]) == Scheduled(q, cs[k].now, cs[k].duration);
    if k == 0 {
      assert cs[..0] == [];
      assert q == v;
    } else {
      GaplessPrefix(v, cs, k);
      GaplessCursor(v, cs[..k]);
    }
  }

  /** Three half-second chunks, each arriving no later than the end of the ones
      before it, play back to back and span exactly 1.5 seconds. */
  lemma ThreeHalfSecondChunks(v: SessionView, t0: real, t1: real, t2: real)
    requires t1 <= StartAt(v.nextStartTime, t0) + 0.5 && t2 <= StartAt(v.nextStartTime, t0) + 1.0
    ensures var cs := [Chunk(t0, 0.5), Chunk(t1, 0.5), Chunk(t2, 0.5)];
            var r := Run(v, cs);
            var b := |v.started|;
            |r.started| == b + 3
            && r.started[b].at == StartAt(v.nextStartTime, t0)
            && r.started[b + 1].at == r.started[b].at + 0.5
            && r.started[b + 2].at == r.started[b + 1].at + 0.5
            && r.nextStartTime - r.started[b].at == 1.5
  {
    var cs := [Chunk(t0, 0.5), Chunk(t1, 0.5), Chunk(t2, 0.5)];
    assert cs[..0] == [] && cs[..1] == [cs[0]] && cs[..2] == [cs[0], cs[1]];
    assert [cs[0], cs[1]][..1] == [cs[0]] && cs[..3] == cs;
    assert [cs[0]][..0] == [];
    assert TotalDuration(cs[..1]) == 0.5 && TotalDuration(cs[..2]) == 1.0;
    RunGapless(v, cs);
  }

  /** A timeline already running at 1.0 with the clock at 0.0: the second chunk
      arrives at 1.2, while the first is still playing, and starts at 1.5. */
  lemma ArrivalWhilePlaying(v: SessionView)
    requires v.nextStartTime == 1.0
    ensures var r := Run(v, [Chunk(0.0, 0.5), Chunk(1.2, 0.5)]);
            |r.started| == |v.started| + 2
            && r.started[|v.started|].at == 1.0 && r.started[|v.started| + 1].at == 1.5
            && r.nextStartTime == 2.0
  {
    var cs := [Chunk(0.0, 0.5), Chunk(1.2, 0.5)];
    assert cs[..1] == [cs[0]] && cs[..0] == [] && cs[..2] == cs;
    assert [cs[0]][..0] == [];
    assert TotalDuration(cs[..1]) == 0.5;
    RunGapless(v, cs);
  }

  // ---------------------------------------------------------------------------
  // Message dispatch

  /** A message that only carries audio schedules it and does nothing else. */
  function AudioMessage(data: string): ServerMessage {
    ServerMessage(Some(ServerContent(Some([Part(Some(data))]), false, None, None, false)))
  }

  lemma AudioMessageSchedules(v: SessionView, data: string, now: real, duration: real)
    requires data != ""
    ensures Dispatched(v, AudioMessage(data), now, Some(duration)) == Scheduled(v, now, duration)
  {
  }

  /** Only the first part's inline data is audio: later parts are ignored. */
  lemma OnlyFirstPartIsAudio(sc: ServerContent, p: Part, rest: seq<Part>)
    ensures AudioPayload(ServerMessage(Some(sc.(parts := Some([p] + rest)))))
         == AudioPayload(ServerMessage(Some(sc.(parts := Some([p])))))
  {
  }

  /** Audio is handled before the interrupt flag: a message carrying both leaves
      no active source and a zero cursor, the new buffer having been started and
      then stopped. */
  lemma AudioThenInterrupt(v: SessionView, m: ServerMessage, now: real, duration: real)
    requires AudioPayload(m).Some? && IsInterrupt(m)
    ensures var r := Dispatched(v, m, now, Some(duration));
            r.activeSources == {} && r.nextStartTime == 0.0
            && |r.started| == |v.started| + 1 && |v.started| in r.stopped
  {
  }

  /** The transcript rules of one message. */
  lemma TranscriptRules(v: SessionView, m: ServerMessage, now: real, decoded: Option<real>)
    requires m.serverContent.Some?
    requires AudioPayload(m).Some? ==> decoded.Some?
    ensures var sc := m.serverContent.value;
            var r := Dispatched(v, m, now, decoded);
            (sc.outputTranscription.Some? ==>
               r.aiText == v.aiText + DeltaText(sc.outputTranscription.value) && r.userText == v.userText)
            && (sc.outputTranscription.None? && sc.inputTranscription.Some? ==>
               r.userText == v.userText + DeltaText(sc.inputTranscription.value) && r.aiText == v.aiText)
            && (sc.outputTranscription.None? && sc.inputTranscription.None? ==>
               r.userText == v.userText && r.aiText == v.aiText)
  {
  }

  /** When decoding the audio of a message throws, the cursor has already moved to
      max(cursor, clock) but nothing else happens: no source is started, and a
      barge-in or transcript delta carried by the same message is lost. */
  lemma DecodeFailureDropsRest(v: SessionView, m: ServerMessage, now: real)
    requires AudioPayload(m).Some?
    ensures var r := Dispatched(v, m, now, None);
            r.nextStartTime == StartAt(v.nextStartTime, now)
            && r.started == v.started && r.activeSources == v.activeSources && r.stopped == v.stopped
            && r.aiText == v.aiText && r.userText == v.userText
            && (IsInterrupt(m) && v.activeSources != {} ==> r.activeSources != {})
  {
  }

  /** `turnComplete` changes no state. */
  lemma TurnCompleteIsInert(v: SessionView, sc: ServerContent, now: real, decoded: Option<real>)
    ensures Dispatched(v, ServerMessage(Some(sc.(turnComplete := true))), now, decoded)
         == Dispatched(v, ServerMessage(Some(sc.(turnComplete := false))), now, decoded)
  {
  }

  /** A message carrying only an output transcription delta. */
  function OutputDelta(text: string): ServerMessage {
    ServerMessage(Some(ServerContent(None, false, Some(Transcription(Some(text))), None, false)))
  }

  /** Feeding a series of output deltas, one message each. */
  function Feed(v: SessionView, texts: seq<string>): SessionView
    decreases |texts|
  {
    if texts == [] then v
    else Dispatched(Feed(v, texts[..|texts| - 1]), OutputDelta(texts[|texts| - 1]), 0.0, None)
  }

  function Concat(texts: seq<string>): string
    decreases |texts|
  {
    if texts == [] then "" else Concat(texts[..|texts| - 1]) + texts[|texts| - 1]
  }

  /** Output deltas accumulate in arrival order, with no deduplication, and touch
      nothing but `aiText`. */
  lemma {:induction false} FeedAppends(v: SessionView, texts: seq<string>)
    ensures Feed(v, texts) == v.(aiText := v.aiText + Concat(texts))
    decreases |texts|
  {
    if texts != [] {
      FeedAppends(v, texts[..|texts| - 1]);
    }
  }

  /** Five one-letter deltas make "Приве". */
  lemma FiveDeltas(v: SessionView)
    requires v.aiText == ""
    ensures Feed(v, ["П", "р", "и", "в", "е"]).aiText == "Приве"
  {
    var ts := ["П", "р", "и", "в", "е"];
    FeedAppends(v, ts);
    assert ts[..4] == ["П", "р", "и", "в"];
    assert ts[..4][..3] == ["П", "р", "и"];
    assert ts[..4][..3][..2] == ["П", "р"];
    assert ts[..4][..3][..2][..1] == ["П"];
    assert ts[..4][..3][..2][..1][..0] == [];
    assert Concat(["П"]) == "П";
    assert Concat(["П", "р"]) == "Пр";
    assert Concat(["П", "р", "и"]) == "При";
    assert Concat(["П", "р", "и", "в"]) == "Прив";
  }

  // ---------------------------------------------------------------------------
  // Lifecycle

  /** Cleanup is idempotent. */
  lemma CleanupIdempotent(v: SessionView)
    ensures Cleaned(Cleaned(v)) == Cleaned(v)
  {
  }

  /** A start attempt raises the connecting flag and clears the error and both
      transcripts before anything can fail; on success it stays connecting with an
      open session and a live microphone. */
  lemma StartSucceeds(v: SessionView)
    ensures var r := Started(v, Connected);
            r.isConnecting && r.error == None && r.userText == "" && r.aiText == ""
            && r.session == Open && r.mic == Live && r.isActive == v.isActive
  {
  }

  /** A failed start reports the microphone message, is no longer connecting and
      does not make the session active; only a refusal after the microphone was
      granted records the stream. */
  lemma StartFails(v: SessionView, outcome: StartOutcome)
    requires outcome != Connected
    ensures var r := Started(v, outcome);
            r.error == Some(MicrophoneError) && !r.isConnecting && r.isActive == v.isActive
            && r.session == v.session
            && r.mic == (if outcome == ConnectRejected then Live else v.mic)
            && r.userText == "" && r.aiText == ""
  {
  }

  /** `onopen` makes the session active and no longer connecting. */
  lemma OpenActivates(v: SessionView)
    ensures var r := Opened(v);
            r.isActive && !r.isConnecting && r.capturing && r.error == v.error
  {
  }

  /** `onerror` records the connection error and leaves the cleaned-up state. */
  lemma ErrorCleansUp(v: SessionView)
    ensures var r := Errored(v);
            r.error == Some(ConnectionError) && !r.isActive && !r.isConnecting
            && r.activeSources == {} && r.nextStartTime == 0.0 && r.session != Open && r.mic != Live
  {
  }

  /** Toggling an active session tears it down, keeping the error; toggling an
      inactive one starts an attempt, which is still connecting, with no error,
      exactly when every acquisition succeeded. */
  lemma ToggleChooses(v: SessionView, outcome: StartOutcome)
    ensures var r := Toggled(v, outcome);
            (v.isActive ==>
               !r.isActive && !r.isConnecting && r.activeSources == {} && r.nextStartTime == 0.0
               && r.session != Open && r.mic != Live && r.error == v.error)
            && (!v.isActive ==>
               !r.isActive && r.userText == "" && r.aiText == ""
               && (r.isConnecting <==> outcome == Connected)
               && (r.error == None <==> outcome == Connected))
  {
  }

  /** Microphone refused on the first toggle: the attempt ends not connecting and
      not active, with exactly the microphone message and no session or
      microphone stream recorded. */
  lemma FirstToggleMicDenied()
    ensures var r := Trace(InitialView(), [Toggle(MicDenied)]);
            !r.isActive && !r.isConnecting && r.error == Some(MicrophoneError)
            && r.session == NoSession && r.mic == NoStream
  {
    assert [Toggle(MicDenied)][..0] == [];
  }

  /** Captured frames are sent in capture order once capture is installed. */
  lemma FramesInOrder(v: SessionView, a: Blob, b: Blob)
    requires v.capturing
    ensures FrameSent(FrameSent(v, a), b).sent == v.sent + [a, b]
  {
  }

  // ---------------------------------------------------------------------------
  // The controller object

  class VoiceSession {
    /** The capture encoder (`createAudioBlob`), not modelled further. */
    const createAudioBlob: Pcm -> Blob

    var isConnecting: bool
    var isActive: bool
    var userText: string
    var aiText: string
    var error: Option<string>
    var nextStartTime: real
    var activeSources: set<SourceId>
    var started: seq<Playback>
    var stopped: set<SourceId>
    var session: SessionHandle
    var mic: MicStream
    var capturing: bool
    var sent: seq<Blob>

    ghost function View(): SessionView
      reads this
    {
      SessionView(isConnecting, isActive, userText, aiText, error, nextStartTime,
                  activeSources, started, stopped, session, mic, capturing, sent)
    }

    ghost predicate Valid()
      reads this
    {
      Inv(View())
    }

    constructor (createAudioBlob: Pcm -> Blob)
      ensures Valid() && View() == InitialView()
      ensures this.createAudioBlob == createAudioBlob
    {
      this.createAudioBlob := createAudioBlob;
      isConnecting, isActive := false, false;
      userText, aiText := "", "";
      error := None;
      nextStartTime := 0.0;
      activeSources, started, stopped := {}, [], {};
      session, mic := NoSession, NoStream;
      capturing, sent := false, [];
    }

    /** Schedules one decoded buffer; returns its source and its start time. */
    method Schedule(now: real, duration: real) returns (source: SourceId, at: real)
      requires Valid()
      modifies this
      ensures Valid()
      ensures View() == Scheduled(old(View()), now, duration)
      ensures source == |old(started)| && at == StartAt(old(nextStartTime), now)
    {
      ScheduledKeepsInv(View(), now, duration);
      nextStartTime := StartAt(nextStartTime, now);
      source := |started|;
      at := nextStartTime;
      started := started + [Playback(source, at, duration)];
      nextStartTime := nextStartTime + duration;
      activeSources := activeSources + {source};
    }

    /** Calls stop on every active source, then clears the set. */
    method StopAllSources()
      modifies this`stopped, this`activeSources
      ensures View() == AllStopped(old(View()))
    {
      var pending := activeSources;
      while pending != {}
        invariant pending <= activeSources
        invariant activeSources == old(activeSources)
        invariant stopped == old(stopped) + (activeSources - pending)
        decreases pending
      {
        var s :| s in pending;
        stopped := stopped + {s};
        pending := pending - {s};
      }
      activeSources := {};
    }

    /** The barge-in flush. */
    method Interrupt()
      requires Valid()
      modifies this
      ensures Valid()
      ensures View() == Interrupted(old(View()))
    {
      StopAllSources();
      nextStartTime := 0.0;
    }

    /** `onmessage`, with the output clock and the decoded buffer's duration
        (None when decoding throws) supplied by the caller. */
    method HandleMessage(m: ServerMessage, now: real, decoded: Option<real>)
      requires Valid()
      modifies this
      ensures Valid()
      ensures View() == Dispatched(old(View()), m, now, decoded)
    {
      if AudioPayload(m).Some? {
        if decoded.None? {
          nextStartTime := StartAt(nextStartTime, now);
          return;
        }
        var source, at := Schedule(now, decoded.value);
      }
      if IsInterrupt(m) {
        Interrupt();
      }
      if m.serverContent.Some? {
        var sc := m.serverContent.value;
        if sc.outputTranscription.Some? {
          aiText := aiText + DeltaText(sc.outputTranscription.value);
        } else if sc.inputTranscription.Some? {
          userText := userText + DeltaText(sc.inputTranscription.value);
        }
      }
    }

    /** The `ended` listener of source `id`. */
    method OnSourceEnded(id: SourceId)
      requires Valid()
      modifies this
      ensures Valid()
      ensures View() == SourceEnded(old(View()), id)
    {
      activeSources := activeSources - {id};
    }

    /** Closes the session and stops the microphone tracks, when there are any. */
    method Release()
      modifies this`session, this`mic
      ensures View() == Released(old(View()))
    {
      if session != NoSession {
        session := Closed;
      }
      if mic != NoStream {
        mic := Stopped;
      }
    }

    method Cleanup()
      requires Valid()
      modifies this
      ensures Valid()
      ensures View() == Cleaned(old(View()))
    {
      Release();
      StopAllSources();
      isActive := false;
      isConnecting := false;
      nextStartTime := 0.0;
      userText := "";
      aiText := "";
      assert Inv(Cleaned(old(View())));
    }

    method OnOpen()
      requires Valid()
      modifies this
      ensures Valid()
      ensures View() == Opened(old(View()))
    {
      isActive := true;
      isConnecting := false;
      capturing := true;
    }

    method OnError()
      requires Valid()
      modifies this
      ensures Valid()
      ensures View() == Errored(old(View()))
    {
      error := Some(ConnectionError);
      Cleanup();
    }

    method OnClose()
      requires Valid()
      modifies this
      ensures Valid()
      ensures View() == Cleaned(old(View()))
    {
      Cleanup();
    }

    /** One capture frame: encode it and send it, once capture is installed. */
    method OnAudioProcess(frame: Pcm)
      requires Valid()
      modifies this
      ensures Valid()
      ensures View() == FrameSent(old(View()), createAudioBlob(frame))
    {
      if capturing {
        sent := sent + [createAudioBlob(frame)];
      }
    }

    method Start(outcome: StartOutcome)
      requires Valid()
      modifies this
      ensures Valid()
      ensures View() == Started(old(View()), outcome)
    {
      isConnecting := true;
      error := None;
      userText := "";
      aiText := "";
      if outcome == ConnectRejected || outcome == Connected {
        mic := Live;
      }
      if outcome == Connected {
        session := Open;
      } else {
        error := Some(MicrophoneError);
        isConnecting := false;
      }
    }

    method Toggle(outcome: StartOutcome)
      requires Valid()
      modifies this
      ensures Valid()
      ensures View() == Toggled(old(View()), outcome)
    {
      if isActive {
        Cleanup();
      } else {
        Start(outcome);
      }
    }
  }
}
