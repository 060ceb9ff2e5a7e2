/**
 * The bookkeeping of `LiveSessionManager` (services/liveClient.ts): the
 * `active` liveness flag, the set of playing AudioBufferSourceNodes, the
 * `nextStartTime` playback cursor and the nullable handles of the media
 * stream, the two audio contexts, the two gain nodes and the AI session.
 *
 * Browser objects are opaque identities. Every event the manager reacts to
 * is first a function from the old state to the new one (the `...Step`
 * functions below, about which the lemmas speak); class LiveSessionManager
 * then does the same thing imperatively, field by field, and its methods
 * are proved to agree with those functions.
 *
 * Times are exact reals (seconds on the playback context's clock).
 */
module LiveSession {
  import opened Wrappers
  import opened JsErrors
  import opened BinaryString
  import opened AudioCodec
  import Base64

  /** A MediaStream granted by `getUserMedia`. */
  type StreamId = nat
  /** An AudioContext, a GainNode or the AI session promise. */
  type HandleId = nat
  /** An AudioBufferSourceNode; the n-th node the manager creates is `n`. */
  type SourceId = nat

  /** The objects `connect` creates once the microphone has been granted. */
  datatype Devices = Devices(
    inputContext: HandleId, outputContext: HandleId,
    inputNode: HandleId, outputNode: HandleId, session: HandleId)

  /** The manager's fields. `createdSources` counts the source nodes created so far. */
  datatype Session = Session(
    active: bool,
    mediaStream: Option<StreamId>,
    inputContext: Option<HandleId>,
    outputContext: Option<HandleId>,
    inputNode: Option<HandleId>,
    outputNode: Option<HandleId>,
    session: Option<HandleId>,
    sources: set<SourceId>,
    nextStartTime: real,
    createdSources: nat)

  /** A server message, reduced to what `onmessage` reads: the first inline audio part and the interrupt flag. */
  datatype ServerMessage = ServerMessage(audio: Option<string>, interrupted: bool)

  /** An audio chunk handed to the speakers: its source node, start time and duration. */
  datatype Chunk = Chunk(source: SourceId, start: real, duration: real)

  /** What `getUserMedia` settles with. */
  datatype MicGrant = Granted(stream: StreamId) | Rejected(error: JsError)

  /** How `connect` ends once the microphone request has settled. */
  datatype ConnectOutcome =
    | Connected
    | Released(stream: StreamId)   // disconnected meanwhile: the tracks were stopped
    | Threw(error: JsError)

  datatype ConnectStarted = ConnectStarted(after: Session, thrown: Option<JsError>)
  datatype MicEffect = MicEffect(after: Session, outcome: ConnectOutcome)
  datatype MessageEffect = MessageEffect(after: Session, scheduled: Option<Chunk>, stopped: set<SourceId>, failure: Option<DomError>)
  datatype DisconnectEffect = DisconnectEffect(after: Session, released: Option<StreamId>, stopped: set<SourceId>)

  function Max(a: real, b: real): (m: real)
    ensures m >= a && m >= b && (m == a || m == b)
  {
    if a >= b then a else b
  }

  /** The end of a chunk's playback. */
  function End(c: Chunk): real
  {
    c.start + c.duration
  }

  /** The state of a freshly constructed manager. */
  const Initial: Session := Session(false, None, None, None, None, None, None, {}, 0.0, 0)

  /** No handle is held. */
  predicate NoneOpen(s: Session)
  {
    s.mediaStream.None? && s.inputContext.None? && s.outputContext.None? &&
    s.inputNode.None? && s.outputNode.None? && s.session.None?
  }

  /** Every handle is held. */
  predicate AllOpen(s: Session)
  {
    s.mediaStream.Some? && s.inputContext.Some? && s.outputContext.Some? &&
    s.inputNode.Some? && s.outputNode.Some? && s.session.Some?
  }

  /** Nothing is held, nothing plays and the cursor is at zero. */
  predicate Quiescent(s: Session)
  {
    NoneOpen(s) && s.sources == {} && s.nextStartTime == 0.0
  }

  /**
   * The manager's invariant: handles are held all together or not at all,
   * only while active; audio plays only while they are held; the cursor is
   * never negative; every playing source is one the manager created.
   */
  predicate Consistent(s: Session)
  {
    && (AllOpen(s) || NoneOpen(s))
    && (!s.active ==> Quiescent(s))
    && (NoneOpen(s) ==> s.sources == {} && s.nextStartTime == 0.0)
    && s.nextStartTime >= 0.0
    && (forall id :: id in s.sources ==> id < s.createdSources)
  }

  /** `connect` up to its first await: sets `active`, then throws if there is no `getUserMedia`. */
  function ConnectStep(s: Session, mediaDevicesAvailable: bool): (r: ConnectStarted)
    ensures r.after.active
    ensures r.thrown.Some? <==> !mediaDevicesAvailable
  {
    var after := s.(active := true);
    if mediaDevicesAvailable then ConnectStarted(after, None) else ConnectStarted(after, Some(MediaDevicesMissing))
  }

  /**
   * `connect` after `getUserMedia` settles: a rejection is rethrown; a grant
   * that arrives after `disconnect` only releases the stream; otherwise the
   * stream, contexts, nodes and session are stored.
   */
  function MicStep(s: Session, grant: MicGrant, devices: Devices): (r: MicEffect)
  {
    match grant
    case Rejected(error) => MicEffect(s, Threw(error))
    case Granted(stream) =>
      if !s.active then MicEffect(s, Released(stream))
      else
        MicEffect(s.(mediaStream := Some(stream),
                     inputContext := Some(devices.inputContext),
                     outputContext := Some(devices.outputContext),
                     inputNode := Some(devices.inputNode),
                     outputNode := Some(devices.outputNode),
                     session := Some(devices.session)),
                  Connected)
  }

  /** The buffer a base64 audio part decodes to, or the error `decode` or `decodeAudioData` throws. */
  function DecodeChunk(audio: string): Result<AudioBuffer, DomError>
  {
    match Base64.Decode(audio)
    case None => Failure(InvalidCharacterError)
    case Some(bytes) => AudioBufferOf(bytes, OutputSampleRate, OutputChannels)
  }

  /** The `if (interrupted)` block: stop and drop every source, rewind the cursor. */
  function InterruptStep(s: Session, interrupted: bool, scheduled: Option<Chunk>): MessageEffect
  {
    if interrupted then MessageEffect(s.(sources := {}, nextStartTime := 0.0), scheduled, s.sources, None)
    else MessageEffect(s, scheduled, {}, None)
  }

  /** True when `onmessage` would try to play the message's audio on `s`. */
  predicate WillPlay(s: Session, m: ServerMessage)
  {
    m.audio.Some? && m.audio.value != "" && s.outputContext.Some? && s.outputNode.Some?
  }

  /**
   * The audio branch of `onmessage`: the cursor becomes `max(cursor, now)`;
   * then the part is decoded (its error ends the handler) and played from the
   * cursor by a new source node, and the cursor advances by its duration.
   */
  function PlayStep(s: Session, audio: string, now: real): (r: (Session, Result<Chunk, DomError>))
  {
    var s1 := s.(nextStartTime := Max(s.nextStartTime, now));
    match DecodeChunk(audio)
    case Failure(error) => (s1, Failure(error))
    case Success(buffer) =>
      var chunk := Chunk(s.createdSources, s1.nextStartTime, Duration(buffer));
      (s1.(nextStartTime := End(chunk),
           sources := s.sources + {chunk.source},
           createdSources := s.createdSources + 1),
       Success(chunk))
  }

  /**
   * `onmessage`: ignored when inactive; otherwise the audio part (if any, and
   * if the output graph exists) is played, then an interrupt flushes every
   * source. A decoding error ends the handler before the interrupt is looked at.
   */
  function MessageStep(s: Session, m: ServerMessage, now: real): (r: MessageEffect)
  {
    if !s.active then MessageEffect(s, None, {}, None)
    else if WillPlay(s, m) then
      var (s1, played) := PlayStep(s, m.audio.value, now);
      match played
      case Failure(error) => MessageEffect(s1, None, {}, Some(error))
      case Success(chunk) => InterruptStep(s1, m.interrupted, Some(chunk))
    else InterruptStep(s, m.interrupted, None)
  }

  /** A source's `ended` event removes it from the set. */
  function EndedStep(s: Session, source: SourceId): (r: Session)
    ensures r.sources == s.sources - {source}
  {
    s.(sources := s.sources - {source})
  }

  /** `disconnect`: clears `active`, releases the stream, drops every handle, stops every source, rewinds. */
  function DisconnectStep(s: Session): (r: DisconnectEffect)
  {
    DisconnectEffect(
      s.(active := false, mediaStream := None, inputContext := None, outputContext := None,
         inputNode := None, outputNode := None, session := None, sources := {}, nextStartTime := 0.0),
      s.mediaStream, s.sources)
  }

  /** The `onaudioprocess` handler: a blob is sent only while active. */
  function AudioProcessStep(s: Session, frame: seq<int>): (r: Option<Blob>)
    ensures r.Some? <==> s.active
    ensures r.Some? ==> r.value.mimeType == PcmMimeType &&
                        r.value.data == Base64.Encode(LittleEndian(ToInt16s(frame)))
  {
    if s.active then Some(Blob(Base64.Encode(LittleEndian(ToInt16s(frame))), PcmMimeType)) else None
  }

  // ---------------------------------------------------------------------
  // The invariant holds initially and every event keeps it.

  lemma InitialConsistent()
    ensures Consistent(Initial) && Quiescent(Initial) && !Initial.active
  {
  }

  lemma ConnectKeeps(s: Session, available: bool)
    requires Consistent(s)
    ensures Consistent(ConnectStep(s, available).after)
  {
  }

  lemma MicKeeps(s: Session, grant: MicGrant, devices: Devices)
    requires Consistent(s)
    ensures Consistent(MicStep(s, grant, devices).after)
  {
  }

  lemma MessageKeeps(s: Session, m: ServerMessage, now: real)
    requires Consistent(s)
    ensures Consistent(MessageStep(s, m, now).after)
  {
    if s.active && WillPlay(s, m) && DecodeChunk(m.audio.value).Success? {
      var buffer := DecodeChunk(m.audio.value).value;
      assert Duration(buffer) >= 0.0;
    }
  }

  /** The audio branch keeps the invariant on a live manager whose output graph exists. */
  lemma PlayKeeps(s: Session, audio: string, now: real)
    requires Consistent(s) && s.active && s.outputContext.Some? && s.outputNode.Some?
    ensures Consistent(PlayStep(s, audio, now).0)
  {
    if DecodeChunk(audio).Success? {
      assert Duration(DecodeChunk(audio).value) >= 0.0;
    }
  }

  lemma EndedKeeps(s: Session, source: SourceId)
    requires Consistent(s)
    ensures Consistent(EndedStep(s, source))
  {
  }

  lemma DisconnectKeeps(s: Session)
    requires Consistent(s)
    ensures Consistent(DisconnectStep(s).after)
  {
  }

  // ---------------------------------------------------------------------
  // Scheduling.

  /** While inactive, a message changes nothing, schedules nothing and stops nothing. */
  lemma InactiveMessageIgnored(s: Session, m: ServerMessage, now: real)
    requires !s.active
    ensures MessageStep(s, m, now) == MessageEffect(s, None, {}, None)
  {
  }

  /**
   * A live message with nothing playable and no interrupt (a turn end, a text
   * part, or audio before the output graph exists) changes nothing.
   */
  lemma MessageNoOp(s: Session, m: ServerMessage, now: real)
    requires s.active && !WillPlay(s, m) && !m.interrupted
    ensures MessageStep(s, m, now) == MessageEffect(s, None, {}, None)
  {
  }

  /** A message touches only the playback fields: never `active`, the stream, the contexts, the nodes or the session. */
  lemma MessageFrame(s: Session, m: ServerMessage, now: real)
    ensures var a := MessageStep(s, m, now).after;
      a == s.(nextStartTime := a.nextStartTime, sources := a.sources, createdSources := a.createdSources)
  {
  }

  /**
   * A decodable chunk starts at `max(cursor, now)`, so neither before the
   * current time nor before the previous cursor; without an interrupt the
   * cursor then stands at its end and its (new) source joins the set.
   */
  lemma ChunkScheduled(s: Session, m: ServerMessage, now: real)
    requires Consistent(s) && s.active && WillPlay(s, m) && DecodeChunk(m.audio.value).Success?
    ensures var e := MessageStep(s, m, now);
      && e.failure.None?
      && e.scheduled.Some?
      && e.scheduled.value.start == Max(s.nextStartTime, now)
      && e.scheduled.value.start >= now && e.scheduled.value.start >= s.nextStartTime
      && e.scheduled.value.duration == Duration(DecodeChunk(m.audio.value).value)
      && e.scheduled.value.source !in s.sources
      && (!m.interrupted ==> e.after.nextStartTime == End(e.scheduled.value) &&
                             e.after.sources == s.sources + {e.scheduled.value.source} &&
                             e.stopped == {})
  {
    assert s.createdSources !in s.sources;
  }

  /** Without an interrupt the cursor never moves backward. */
  lemma CursorMonotone(s: Session, m: ServerMessage, now: real)
    requires Consistent(s) && !m.interrupted
    ensures MessageStep(s, m, now).after.nextStartTime >= s.nextStartTime
  {
    if s.active && WillPlay(s, m) && DecodeChunk(m.audio.value).Success? {
      assert Duration(DecodeChunk(m.audio.value).value) >= 0.0;
    }
  }

  /** An audio part that fails to decode leaves the cursor at `max(cursor, now)` and skips the interrupt. */
  lemma DecodeFailureSkipsInterrupt(s: Session, m: ServerMessage, now: real)
    requires s.active && WillPlay(s, m) && DecodeChunk(m.audio.value).Failure?
    ensures MessageStep(s, m, now) ==
      MessageEffect(s.(nextStartTime := Max(s.nextStartTime, now)), None, {}, Some(DecodeChunk(m.audio.value).error))
  {
  }

  /**
   * An interrupt (in a message whose audio, if any, decodes) stops exactly the
   * sources that were playing, plus the message's own chunk, which is
   * scheduled first; afterwards nothing plays and the cursor is zero.
   */
  lemma InterruptFlushes(s: Session, m: ServerMessage, now: real)
    requires s.active && m.interrupted
    requires WillPlay(s, m) ==> DecodeChunk(m.audio.value).Success?
    ensures var e := MessageStep(s, m, now);
      && e.failure.None?
      && e.after.sources == {}
      && e.after.nextStartTime == 0.0
      && e.stopped == s.sources + (if e.scheduled.Some? then {e.scheduled.value.source} else {})
      && (e.scheduled.Some? <==> WillPlay(s, m))
  {
  }

  /** An interrupt with nothing playing and no audio changes only the cursor. */
  lemma EmptyInterruptOnlyRewinds(s: Session, m: ServerMessage, now: real)
    requires s.active && m.interrupted && s.sources == {} && !WillPlay(s, m)
    ensures MessageStep(s, m, now) == MessageEffect(s.(nextStartTime := 0.0), None, {}, None)
  {
  }

  /** Two consecutive chunks without interrupt, the second arriving before the first ends, play back to back. */
  lemma BackToBack(s: Session, m1: ServerMessage, now1: real, m2: ServerMessage, now2: real)
    requires Consistent(s) && s.active && !m1.interrupted
    requires WillPlay(s, m1) && DecodeChunk(m1.audio.value).Success?
    requires m2.audio.Some? && m2.audio.value != "" && DecodeChunk(m2.audio.value).Success?
    requires now2 <= End(MessageStep(s, m1, now1).scheduled.value)
    ensures var e1 := MessageStep(s, m1, now1);
      var e2 := MessageStep(e1.after, m2, now2);
      e2.scheduled.Some? && e2.scheduled.value.start == End(e1.scheduled.value)
  {
    ChunkScheduled(s, m1, now1);
    var e1 := MessageStep(s, m1, now1);
    MessageKeeps(s, m1, now1);
    ChunkScheduled(e1.after, m2, now2);
  }

  /** A message arriving at `now`. */
  datatype Arrival = Arrival(message: ServerMessage, now: real)

  /** The state after a sequence of messages, and what each of them scheduled. */
  function Feed(s: Session, arrivals: seq<Arrival>): (r: (Session, seq<Option<Chunk>>))
    ensures |r.1| == |arrivals|
    decreases |arrivals|
  {
    if arrivals == [] then (s, [])
    else
      var e := MessageStep(s, arrivals[0].message, arrivals[0].now);
      var rest := Feed(e.after, arrivals[1..]);
      (rest.0, [e.scheduled] + rest.1)
  }

  /** A message carrying decodable audio and no interrupt. */
  predicate PlainAudio(m: ServerMessage)
  {
    m.audio.Some? && m.audio.value != "" && DecodeChunk(m.audio.value).Success? && !m.interrupted
  }

  /** The summed durations of the chunks scheduled. */
  function TotalDuration(cs: seq<Option<Chunk>>): real
    decreases |cs|
  {
    if cs == [] then 0.0
    else TotalDuration(cs[..|cs| - 1]) + (if cs[|cs| - 1].Some? then cs[|cs| - 1].value.duration else 0.0)
  }

  /**
   * Fed a sequence of plain audio messages, a connected session schedules
   * every one of them; the first at `max(cursor, now)`, each later one at
   * `max(end of the previous chunk, now)`, so never overlapping the previous;
   * the cursor ends at the end of the last chunk.
   */
  lemma {:induction false} FeedSchedules(s: Session, arrivals: seq<Arrival>)
    requires Consistent(s) && s.active && AllOpen(s)
    requires forall k :: 0 <= k < |arrivals| ==> PlainAudio(arrivals[k].message)
    ensures var (after, cs) := Feed(s, arrivals);
      && (forall k :: 0 <= k < |cs| ==> cs[k].Some?)
      && (|cs| > 0 ==> cs[0].value.start == Max(s.nextStartTime, arrivals[0].now))
      && (forall k :: 0 < k < |cs| ==> cs[k].value.start == Max(End(cs[k - 1].value), arrivals[k].now))
      && (forall k :: 0 < k < |cs| ==> cs[k].value.start >= End(cs[k - 1].value))
      && (|cs| > 0 ==> after.nextStartTime == End(cs[|cs| - 1].value))
      && (|cs| == 0 ==> after == s)
      && Consistent(after) && after.active && AllOpen(after)
    decreases |arrivals|
  {
    if arrivals != [] {
      var m, now := arrivals[0].message, arrivals[0].now;
      ChunkScheduled(s, m, now);
      MessageKeeps(s, m, now);
      var e := MessageStep(s, m, now);
      assert e.after.active && AllOpen(e.after);
      FeedSchedules(e.after, arrivals[1..]);
      var (after, cs) := Feed(s, arrivals);
      var rest := Feed(e.after, arrivals[1..]).1;
      assert cs == [e.scheduled] + rest;
      forall k | 0 < k < |cs|
        ensures cs[k].value.start == Max(End(cs[k - 1].value), arrivals[k].now)
      {
        assert cs[k] == rest[k - 1] && arrivals[k] == arrivals[1..][k - 1];
        if k == 1 {
          assert rest[0].value.start == Max(e.after.nextStartTime, arrivals[1..][0].now);
        }
      }
    }
  }

  lemma TotalDurationStep(cs: seq<Option<Chunk>>, k: nat)
    requires k < |cs| && cs[k].Some?
    ensures TotalDuration(cs[..k + 1]) == TotalDuration(cs[..k]) + cs[k].value.duration
  {
    assert cs[..k + 1][..k] == cs[..k];
  }

  /**
   * Gap-free playback: if each chunk after the first arrives before the
   * previous one has finished, chunk k starts exactly when chunks 0..k-1,
   * played back to back from the first start, are over.
   */
  lemma {:induction false} FeedGapless(s: Session, arrivals: seq<Arrival>, k: nat)
    requires Consistent(s) && s.active && AllOpen(s)
    requires forall j :: 0 <= j < |arrivals| ==> PlainAudio(arrivals[j].message)
    requires k < |arrivals|
    requires var cs := Feed(s, arrivals).1;
      forall j :: 0 < j <= k ==> cs[j - 1].Some? && arrivals[j].now <= End(cs[j - 1].value)
    ensures var cs := Feed(s, arrivals).1;
      cs[k].Some? && cs[0].Some? && cs[k].value.start == cs[0].value.start + TotalDuration(cs[..k])
  {
    FeedSchedules(s, arrivals);
    var cs := Feed(s, arrivals).1;
    if k > 0 {
      FeedGapless(s, arrivals, k - 1);
      TotalDurationStep(cs, k - 1);
      assert cs[k].value.start == End(cs[k - 1].value);
    } else {
      assert cs[..0] == [];
    }
  }

  // ---------------------------------------------------------------------
  // Disconnect and the microphone race.

  /** After `disconnect` nothing is held or playing, and what it released is what was held. */
  lemma DisconnectClears(s: Session)
    ensures var e := DisconnectStep(s);
      && !e.after.active && Quiescent(e.after)
      && e.released == s.mediaStream && e.stopped == s.sources
      && e.after.createdSources == s.createdSources
  {
  }

  /** A second `disconnect` changes nothing and releases or stops nothing. */
  lemma DisconnectIdempotent(s: Session)
    ensures var e := DisconnectStep(DisconnectStep(s).after);
      e.after == DisconnectStep(s).after && e.released.None? && e.stopped == {}
  {
  }

  /** `disconnect` is harmless on a manager whose `connect` never completed. */
  lemma DisconnectBeforeConnect(available: bool)
    ensures DisconnectStep(Initial) == DisconnectEffect(Initial, None, {})
    ensures DisconnectStep(ConnectStep(Initial, available).after) == DisconnectEffect(Initial, None, {})
  {
  }

  /**
   * The race guard: when `disconnect` runs while `getUserMedia` is pending,
   * the late grant only stops the granted tracks; no stream, context, node or
   * session is stored and the manager stays inactive.
   */
  lemma DisconnectWhileMicPending(s: Session, stream: StreamId, devices: Devices)
    ensures var pending := ConnectStep(s, true).after;
      var closed := DisconnectStep(pending).after;
      var e := MicStep(closed, Granted(stream), devices);
      && e.outcome == Released(stream)
      && e.after == closed
      && NoneOpen(e.after) && !e.after.active
  {
  }

  /**
   * A refused microphone: `connect` rethrows the error for its caller, stores
   * nothing and leaves `active` as it was.
   */
  lemma MicRejected(s: Session, e: JsError, devices: Devices)
    ensures MicStep(s, Rejected(e), devices) == MicEffect(s, Threw(e))
  {
  }

  /** A granted microphone on a live manager opens every handle. */
  lemma GrantOpensAll(s: Session, stream: StreamId, devices: Devices)
    requires s.active
    ensures var e := MicStep(s, Granted(stream), devices);
      e.outcome == Connected && AllOpen(e.after) && e.after.mediaStream == Some(stream) &&
      e.after.sources == s.sources && e.after.nextStartTime == s.nextStartTime
  {
  }

  /** Once disconnected, audio frames send nothing, the volume loop stops and messages are ignored. */
  lemma DisconnectedIsSilent(s: Session, frame: seq<int>, m: ServerMessage, now: real)
    ensures var after := DisconnectStep(s).after;
      && AudioProcessStep(after, frame).None?
      && !after.active
      && MessageStep(after, m, now) == MessageEffect(after, None, {}, None)
  {
  }

  // ---------------------------------------------------------------------
  // The manager itself.

  class LiveSessionManager {
    var active: bool
    var mediaStream: Option<StreamId>
    var inputAudioContext: Option<HandleId>
    var outputAudioContext: Option<HandleId>
    var inputNode: Option<HandleId>
    var outputNode: Option<HandleId>
    var session: Option<HandleId>
    var sources: set<SourceId>
    var nextStartTime: real
    var createdSources: nat

    /** The manager's fields as a value. */
    function State(): Session
      reads this
    {
      Session(active, mediaStream, inputAudioContext, outputAudioContext, inputNode, outputNode,
              session, sources, nextStartTime, createdSources)
    }

    ghost predicate Valid()
      reads this
    {
      Consistent(State())
    }

    constructor ()
      ensures State() == Initial && Valid()
    {
      active := false;
      mediaStream, inputAudioContext, outputAudioContext := None, None, None;
      inputNode, outputNode, session := None, None, None;
      sources := {};
      nextStartTime := 0.0;
      createdSources := 0;
    }

    /** `connect` up to the `getUserMedia` await. */
    method Connect(mediaDevicesAvailable: bool) returns (thrown: Option<JsError>)
      requires Valid()
      modifies this
      ensures Valid()
      ensures State() == ConnectStep(old(State()), mediaDevicesAvailable).after
      ensures thrown == ConnectStep(old(State()), mediaDevicesAvailable).thrown
    {
      active := true;
      if !mediaDevicesAvailable {
        return Some(MediaDevicesMissing);
      }
      thrown := None;
    }

    /** `connect` from the moment `getUserMedia` settles. */
    method MicResolved(grant: MicGrant, devices: Devices) returns (outcome: ConnectOutcome)
      requires Valid()
      modifies this
      ensures Valid()
      ensures State() == MicStep(old(State()), grant, devices).after
      ensures outcome == MicStep(old(State()), grant, devices).outcome
    {
      if grant.Rejected? {
        return Threw(grant.error);
      }
      var stream := grant.stream;
      if !active {
        return Released(stream);
      }
      mediaStream := Some(stream);
      inputAudioContext := Some(devices.inputContext);
      outputAudioContext := Some(devices.outputContext);
      inputNode := Some(devices.inputNode);
      outputNode := Some(devices.outputNode);
      session := Some(devices.session);
      outcome := Connected;
    }

    /** One `updateVolume` frame: the level is reported, and the next frame requested, only while active. */
    method UpdateVolume(level: real) returns (reported: Option<real>)
      ensures reported.Some? <==> active
      ensures reported.Some? ==> reported.value == level
    {
      if !active {
        return None;
      }
      reported := Some(level);
    }

    /** The `onaudioprocess` handler: the blob it sends, if any. */
    method OnAudioProcess(inputData: seq<int>) returns (sent: Option<Blob>)
      ensures sent == AudioProcessStep(State(), inputData)
    {
      if !active {
        return None;
      }
      var pcmBlob := CreateBlob(inputData);
      sent := Some(pcmBlob);
    }

    /** The audio branch of `onmessage`, reached on a live manager whose output graph exists. */
    method PlayAudio(audio: string, now: real) returns (played: Result<Chunk, DomError>)
      requires Valid() && active && outputAudioContext.Some? && outputNode.Some?
      modifies this
      ensures Valid()
      ensures var (after, r) := PlayStep(old(State()), audio, now);
        State() == after && played == r
    {
      PlayKeeps(State(), audio, now);
      nextStartTime := Max(nextStartTime, now);
      var bytes := Decode(audio);
      if bytes.Failure? {
        return Failure(bytes.error);
      }
      var audioBuffer := DecodeAudioData(bytes.value, OutputSampleRate, OutputChannels);
      if audioBuffer.Failure? {
        return Failure(audioBuffer.error);
      }
      var source := createdSources;
      createdSources := createdSources + 1;
      played := Success(Chunk(source, nextStartTime, Duration(audioBuffer.value)));
      nextStartTime := nextStartTime + Duration(audioBuffer.value);
      sources := sources + {source};
    }

    /** The interrupt loop of `onmessage`: stops and deletes every source. */
    method StopAllSources() returns (stopped: set<SourceId>)
      requires Valid()
      modifies this
      ensures Valid()
      ensures stopped == old(sources) && sources == {}
      ensures State() == old(State()).(sources := {})
    {
      stopped := {};
      while sources != {}
        invariant sources <= old(sources) && stopped == old(sources) - sources
        invariant State() == old(State()).(sources := sources)
        decreases |sources|
      {
        var source :| source in sources;
        stopped := stopped + {source};
        sources := sources - {source};
      }
    }

    /** The `onmessage` handler, for a message arriving when the playback clock reads `now`. */
    method OnMessage(message: ServerMessage, now: real)
      returns (scheduled: Option<Chunk>, stopped: set<SourceId>, failure: Option<DomError>)
      requires Valid()
      modifies this
      ensures Valid()
      ensures var e := MessageStep(old(State()), message, now);
        State() == e.after && scheduled == e.scheduled && stopped == e.stopped && failure == e.failure
    {
      MessageKeeps(State(), message, now);
      scheduled, stopped, failure := None, {}, None;
      if !active {
        return;
      }
      var audio := message.audio;
      if audio.Some? && audio.value != "" && outputAudioContext.Some? && outputNode.Some? {
        var played := PlayAudio(audio.value, now);
        if played.Failure? {
          failure := Some(played.error);
          return;
        }
        scheduled := Some(played.value);
      }
      if message.interrupted {
        stopped := StopAllSources();
        nextStartTime := 0.0;
      }
    }

    /** A source's `ended` event. */
    method OnSourceEnded(source: SourceId)
      requires Valid()
      modifies this
      ensures Valid()
      ensures State() == EndedStep(old(State()), source)
    {
      sources := sources - {source};
    }

    /** `disconnect`: the stream it released and the sources it stopped. */
    method Disconnect() returns (released: Option<StreamId>, stopped: set<SourceId>)
      requires Valid()
      modifies this
      ensures Valid()
      ensures var e := DisconnectStep(old(State()));
        State() == e.after && released == e.released && stopped == e.stopped
    {
      active := false;
      released := mediaStream;
      mediaStream := None;
      inputNode := None;
      outputNode := None;
      inputAudioContext := None;
      outputAudioContext := None;
      stopped := {};
      var pending := sources;
      while pending != {}
        invariant pending <= sources && stopped == sources - pending
        decreases |pending|
      {
        var source :| source in pending;
        stopped := stopped + {source};
        pending := pending - {source};
      }
      sources := {};
      nextStartTime := 0.0;
      session := None;
    }
  }
}
