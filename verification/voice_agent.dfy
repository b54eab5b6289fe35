/**
 * The voice panel controller (components/VoiceAgent.tsx): connection flag
 * and status text, the playback scheduler fed by the live session's audio
 * messages, microphone capture turned into outbound PCM blobs, and the
 * teardown every ending path runs.
 *
 * The audio graph, the capture device and the network are not modelled:
 * the values they pass in (the output clock, received messages, captured
 * buffers, the outcome of setup) arrive as events.
 */
module VoiceAgent {
  import opened Wrappers
  import opened Pcm
  import opened Playback
  import GeminiService

  const StandbyStatus: string := "Standby Mode"
  const InitializingStatus: string := "Initializing Link..."
  const LiveStatus: string := "Live Connection Established"
  const FailedStatus: string := "Connection Failed"
  const DisconnectedStatus: string := "Disconnected"

  /** The MIME type of every outbound capture blob. */
  const CaptureMime: string := "audio/pcm;rate=16000"

  /** The capture buffer length the script processor is created with. */
  const CaptureBufferSize: nat := 4096

  /** The panel's state: `isConnected`, `status`, and the playback refs. */
  datatype Panel = Panel(connected: bool, status: string, playback: Scheduler)

  /** The panel as mounted. */
  const Initial: Panel := Panel(false, StandbyStatus, Playback.Initial)

  /** An outbound realtime-input blob. */
  datatype Blob = Blob(mimeType: string, data: string)

  /** What happens to the panel. */
  datatype Event =
    | Click                                                  // the connect / disconnect button
    | SetupSucceeded                                         // microphone and live session both ready
    | SetupFailed                                            // `startSession` threw
    | Message(now: real, message: GeminiService.LiveMessage) // a live message, at output-clock time `now`
    | SourceEnded(source: SourceId)                          // a scheduled source finished playing
    | RemoteClosed                                           // the live session closed
    | RemoteError                                            // the live session reported an error
    | Unmount                                                // the panel is removed
    | CaptureBuffer(input: seq<real>)                        // the microphone delivered a buffer

  /** What an event does outside the state: blobs sent, sources started, sources stopped. */
  datatype Effects = Effects(sent: seq<Blob>, started: seq<Start>, stopped: set<SourceId>)

  const NoEffects: Effects := Effects([], [], {})

  /**
   * `stopSession`: not connected, status "Disconnected", every active source
   * stopped, the active set cleared and the cursor back at zero.
   */
  function StopSession(p: Panel): (r: (Panel, set<SourceId>))
    ensures !r.0.connected && r.0.status == DisconnectedStatus
    ensures r.0.playback.active == {} && r.0.playback.cursor == 0.0
    ensures r.1 == p.playback.active
    ensures Valid(r.0.playback)
  {
    var (playback, stopped) := Playback.Stop(p.playback);
    (Panel(false, DisconnectedStatus, playback), stopped)
  }

  /** The state after stopping does not depend on connection flag or status before it. */
  lemma StopForgetsStatus(p: Panel, connected: bool, status: string)
    ensures StopSession(p.(connected := connected, status := status)).0 == StopSession(p).0
  {
  }

  /** `stopSession` twice leaves the state it leaves once, and the second call stops nothing. */
  lemma StopSessionIdempotent(p: Panel)
    ensures StopSession(StopSession(p).0) == (StopSession(p).0, {})
  {
  }

  /**
   * The audio callback: decode the payload and schedule it. A payload that
   * does not decode (bad base64, odd byte count) or decodes to no samples
   * (an empty buffer cannot be created) throws before anything changes.
   */
  function OnAudio(p: Panel, now: real, base64: string): (r: (Panel, Option<Start>))
    ensures r.1.None? <==> DecodePcm(base64).Err? || |DecodePcm(base64).value| == 0
    ensures r.1.None? ==> r.0 == p
    ensures r.1.Some? ==> r.1.value.at == Max(p.playback.cursor, now)
    ensures r.1.Some? ==> r.1.value.duration * OutputRate == |DecodePcm(base64).value| as real
    ensures r.1.Some? ==> r.0.playback.cursor == r.1.value.End()
    ensures r.1.Some? ==> r.0.playback.active == p.playback.active + {r.1.value.source}
    ensures r.0.connected == p.connected && r.0.status == p.status
    ensures Valid(p.playback) ==> Valid(r.0.playback)
  {
    match DecodePcm(base64)
    case Err(_) => (p, None)
    case Ok(samples) =>
      if |samples| == 0 then (p, None)
      else
        var (playback, start) := Schedule(p.playback, Frame(now, |samples|));
        (p.(playback := playback), Some(start))
  }

  /** The int16 values the capture loop stores for a buffer. */
  function Quantised(input: seq<real>): (ks: seq<Int16>)
    ensures |ks| == |input|
    ensures forall i | 0 <= i < |input| :: ks[i] == Quantise(input[i])
  {
    seq(|input|, i requires 0 <= i < |input| => Quantise(input[i]))
  }

  /**
   * The blob one capture callback sends: every sample quantised to int16,
   * the little-endian buffer base64-encoded, tagged 16 kHz PCM. Decoding its
   * data gives back exactly one sample per input sample.
   */
  function CaptureBlob(input: seq<real>): (b: Blob)
    ensures b.mimeType == CaptureMime
    ensures DecodePcm(b.data) == Ok(Samples(Quantised(input)))
    ensures |DecodePcm(b.data).value| == |input|
  {
    DecodeEncodedInt16(Quantised(input));
    Blob(CaptureMime, EncodeBytes(Int16Buffer(Quantised(input))))
  }

  /** The loop of the capture callback: `int16[i] = inputData[i] * 32768`, then encode and send. */
  method ProcessCapture(input: seq<real>) returns (b: Blob)
    ensures b == CaptureBlob(input)
  {
    var int16: seq<Int16> := [];
    var i := 0;
    while i < |input|
      invariant 0 <= i <= |input|
      invariant int16 == Quantised(input)[..i]
    {
      int16 := int16 + [ToInt16(input[i] * 32768.0)];
      i := i + 1;
    }
    assert int16 == Quantised(input);
    var data := ArrayBufferToBase64(Int16Buffer(int16));
    b := Blob(CaptureMime, data);
  }

  /** Captured audio within [-1, 1) comes back from the wire within one quantisation step. */
  lemma CaptureWithinOneStep(input: seq<real>, i: nat)
    requires i < |input| && -1.0 <= input[i] < 1.0
    ensures var x := DecodePcm(CaptureBlob(input).data).value[i];
            -1.0 / Scale < x - input[i] < 1.0 / Scale
  {
    QuantiseInRange(input[i]);
  }

  /** Sending back received samples reproduces the payload they were decoded from. */
  lemma CaptureOfDecodedSamples(ks: seq<Int16>)
    ensures CaptureBlob(Samples(ks)).data == EncodeBytes(Int16Buffer(ks))
  {
    var q := Quantised(Samples(ks));
    forall i | 0 <= i < |ks| ensures q[i] == ks[i] {
      QuantiseSample(ks[i]);
    }
    assert q == ks;
  }

  /** One event: the new state and its effects. */
  function Step(p: Panel, e: Event): (r: (Panel, Effects))
    ensures Valid(p.playback) ==> Valid(r.0.playback)
  {
    match e
    case Click =>
      if p.connected then
        var (q, stopped) := StopSession(p);
        (q, NoEffects.(stopped := stopped))
      else (p.(status := InitializingStatus), NoEffects)
    case SetupSucceeded => (p.(connected := true, status := LiveStatus), NoEffects)
    case SetupFailed =>
      var (q, stopped) := StopSession(p.(status := FailedStatus));
      (q, NoEffects.(stopped := stopped))
    case Message(now, message) =>
      (match GeminiService.FirstPartAudio(message)
       case None => (p, NoEffects)
       case Some(base64) =>
         var (q, start) := OnAudio(p, now, base64);
         (q, NoEffects.(started := if start.Some? then [start.value] else [])))
    case SourceEnded(source) => (p.(playback := Ended(p.playback, source)), NoEffects)
    case RemoteClosed =>
      var (q, stopped) := StopSession(p);
      (q, NoEffects.(stopped := stopped))
    case RemoteError =>
      var (q, stopped) := StopSession(p);
      (q, NoEffects.(stopped := stopped))
    case Unmount =>
      var (q, stopped) := StopSession(p);
      (q, NoEffects.(stopped := stopped))
    case CaptureBuffer(input) =>
      (p, NoEffects.(sent := if p.connected then [CaptureBlob(input)] else []))
  }

  /** Remote close, remote error, setup failure and unmount all run the same teardown as stop. */
  lemma TeardownPathsAgree(p: Panel)
    ensures Step(p, RemoteClosed) == Step(p, RemoteError) == Step(p, Unmount)
    ensures Step(p, RemoteClosed) == (StopSession(p).0, NoEffects.(stopped := p.playback.active))
    ensures Step(p, SetupFailed) == Step(p, RemoteClosed)
    ensures p.connected ==> Step(p, Click) == Step(p, RemoteClosed)
  {
    StopForgetsStatus(p, p.connected, FailedStatus);
  }

  /**
   * The active set changes only as the scheduler allows: a played message
   * adds the one new source, an ended source leaves, teardown empties it, and
   * nothing else touches it.
   */
  lemma ActiveSetDiscipline(p: Panel, e: Event)
    requires Valid(p.playback)
    ensures var (q, fx) := Step(p, e);
      match e
      case Message(_, _) =>
        |fx.started| <= 1
        && (fx.started == [] ==> q == p)
        && (|fx.started| == 1 ==> fx.started[0].source !in p.playback.active
                                  && q.playback.active == p.playback.active + {fx.started[0].source})
      case SourceEnded(id) => q.playback.active == p.playback.active - {id}
      case CaptureBuffer(_) => q == p
      case SetupSucceeded => q.playback == p.playback
      case Click => if p.connected then q.playback.active == {} else q.playback == p.playback
      case _ => q.playback.active == {} && q.playback.cursor == 0.0 && fx.stopped == p.playback.active
  {
  }

  /** Each capture callback sends exactly one blob while connected, carrying one sample per input sample. */
  lemma CaptureSendsOneBlob(p: Panel, input: seq<real>)
    requires p.connected
    ensures var fx := Step(p, CaptureBuffer(input)).1;
            |fx.sent| == 1 && fx.sent[0].mimeType == CaptureMime
            && |DecodePcm(fx.sent[0].data).value| == |input|
  {
  }

  /** A full 4096-sample capture buffer is sent as one blob of 4096 samples. */
  lemma FullBufferCapture(p: Panel, input: seq<real>)
    requires p.connected && |input| == CaptureBufferSize
    ensures var fx := Step(p, CaptureBuffer(input)).1;
            |fx.sent| == 1 && |DecodePcm(fx.sent[0].data).value| == 4096
  {
    CaptureSendsOneBlob(p, input);
  }

  /**
   * The session is never closed on stop and its callbacks carry no session
   * identity, so an audio message arriving after teardown is still
   * scheduled: the cursor leaves zero and the active set is non-empty again.
   */
  lemma StaleAudioAfterStop(p: Panel, now: real, message: GeminiService.LiveMessage)
    requires now >= 0.0
    requires GeminiService.FirstPartAudio(message).Some?
    requires DecodePcm(GeminiService.FirstPartAudio(message).value).Ok?
    requires |DecodePcm(GeminiService.FirstPartAudio(message).value).value| > 0
    ensures var q := Step(StopSession(p).0, Message(now, message)).0;
            !q.connected && q.playback.active != {} && q.playback.cursor > 0.0
  {
  }
}
