/**
 * One recording pipeline (`capture/linux/pipeline.rs`): construction picks
 * encoders and an audio topology, `start` records the start time, `pause` and
 * `resume` toggle the engine's run state, and `stop` waits on the bus for
 * end-of-stream, an error or a timeout before tearing the graph down.
 */
module Pipeline {
  import opened Wrappers
  import opened Ints
  import opened Config
  import opened Encoding
  import opened Capture

  /** An audio input: the default PulseAudio source (the microphone) or a named device. */
  datatype AudioSource = Microphone | Device(name: string)

  /** How audio reaches the muxer. */
  datatype AudioRoute =
    | Silent
      /** One source, converted, resampled and encoded straight into the muxer. */
    | Direct(source: AudioSource, encoder: string)
      /** Several sources into an audiomixer whose single output is encoded once. */
    | Mixed(inputs: seq<AudioSource>, encoder: string)

  /**
   * The processing graph in place of its launch string: the video branch
   * (source at `nodeId`, convert, scale, `framerate/1`, encoder), the muxer
   * (named `mux` when audio branches link to it), the audio route and the
   * file sink's location.
   */
  datatype Graph = Graph(
    nodeId: u32,
    framerate: u8,
    videoEncoder: string,
    muxer: string,
    muxerNamed: bool,
    audio: AudioRoute,
    location: string)

  /** The engine's run state, as set through `set_state`. */
  datatype RunState = Null | Playing | Halted

  datatype RecordingPipeline = RecordingPipeline(
    graph: Graph,
    outputPath: string,
    startTime: Option<nat>,
    width: u32,
    height: u32,
    run: RunState)

  /** A message popped from the pipeline bus. */
  datatype BusMessage = Eos | Failure(text: string) | Other

  /** How a bounded wait on the bus ended. */
  datatype WaitOutcome = Completed | Failed(text: string) | TimedOut

  /** The transition a pipeline call asks the engine for, and whether the engine accepts it. */
  datatype Changed = Changed(result: Result<(), BackendError>, pipeline: RecordingPipeline)

  datatype Stopped = Stopped(result: Result<RecordingResult, BackendError>, pipeline: RecordingPipeline)

  /** The audio sources a route reads from. */
  function Inputs(route: AudioRoute): seq<AudioSource> {
    match route
    case Silent => []
    case Direct(s, _) => [s]
    case Mixed(ss, _) => ss
  }

  /** The audio topology chosen by the two audio flags. */
  function RouteFor(audio: AudioConfig, encoder: string): (route: AudioRoute)
    ensures route.Silent? <==> !audio.mic && !audio.system
    ensures route.Mixed? <==> audio.mic && audio.system
    ensures Microphone in Inputs(route) <==> audio.mic
    ensures Device(SYSTEM_AUDIO_SOURCE) in Inputs(route) <==> audio.system
    ensures |Inputs(route)| == (if audio.mic then 1 else 0) + (if audio.system then 1 else 0)
    ensures !route.Silent? ==> route.encoder == encoder
  {
    if audio.mic && audio.system then Mixed([Microphone, Device(SYSTEM_AUDIO_SOURCE)], encoder)
    else if audio.system then Direct(Device(SYSTEM_AUDIO_SOURCE), encoder)
    else if audio.mic then Direct(Microphone, encoder)
    else Silent
  }

  /**
   * Construct a pipeline. `launched` says whether the engine parsed the
   * description into a pipeline. The audio encoder is looked up only when
   * some audio is requested.
   */
  function New(
    reg: Registry, nodeId: u32, outputPath: string, fps: u8, container: ContainerFormat,
    audio: AudioConfig, width: Option<u32>, height: Option<u32>, launched: bool
  ): (r: Result<RecordingPipeline, BackendError>)
    ensures r.Ok? <==>
      && reg.initialized
      && DetectVideoEncoder(reg).Some?
      && (audio.mic || audio.system ==> DetectAudioEncoder(reg, container).Some?)
      && launched
    ensures r.Err? ==> r.error.Internal?
    ensures reg.initialized && DetectVideoEncoder(reg).None? ==> r == Err(Internal("No H.264 encoder available"))
    ensures (reg.initialized && DetectVideoEncoder(reg).Some? && (audio.mic || audio.system)
             && DetectAudioEncoder(reg, container).None?) ==> r == Err(Internal("No audio encoder available"))
    ensures r.Ok? ==>
      var p := r.value;
      && p.startTime.None? && p.run == Null && p.outputPath == outputPath
      && p.graph.nodeId == nodeId && p.graph.framerate == fps && p.graph.location == outputPath
      && p.graph.videoEncoder == DetectVideoEncoder(reg).value
      && p.graph.muxer == MuxerFor(container)
      && (p.graph.muxerNamed <==> audio.mic || audio.system)
      && p.graph.audio == RouteFor(audio, if audio.mic || audio.system then DetectAudioEncoder(reg, container).value else "")
      && p.width == width.GetOr(1920) && p.height == height.GetOr(1080)
  {
    if !reg.initialized then Err(Internal("Failed to initialize GStreamer"))
    else
      var video := DetectVideoEncoder(reg);
      if video.None? then Err(Internal("No H.264 encoder available"))
      else
        var hasAudio := audio.mic || audio.system;
        var audioEncoder := if hasAudio then DetectAudioEncoder(reg, container) else None;
        if hasAudio && audioEncoder.None? then Err(Internal("No audio encoder available"))
        else if !launched then Err(Internal("Failed to create pipeline"))
        else
          var graph := Graph(nodeId, fps, video.value, MuxerFor(container), hasAudio,
                             RouteFor(audio, audioEncoder.GetOr("")), outputPath);
          Ok(RecordingPipeline(graph, outputPath, None, width.GetOr(1920), height.GetOr(1080), Null))
  }

  /** Set the pipeline playing and record `now` as the start time; `accepted` is the engine's answer. */
  function Start(p: RecordingPipeline, accepted: bool, now: nat): (c: Changed)
    ensures c.result.Ok? <==> accepted
    ensures c.result.Ok? ==> c.pipeline == p.(startTime := Some(now), run := Playing)
    ensures c.result.Err? ==> c.result.error.Internal? && c.pipeline == p
  {
    if !accepted then Changed(Err(Internal("Failed to start pipeline")), p)
    else Changed(Ok(()), p.(startTime := Some(now), run := Playing))
  }

  /** Set the pipeline to paused without tearing it down; no check of the current run state. */
  function Pause(p: RecordingPipeline, accepted: bool): (c: Changed)
    ensures c.result.Ok? <==> accepted
    ensures c.result.Ok? ==> c.pipeline == p.(run := Halted)
    ensures c.result.Err? ==> c.result.error.Internal? && c.pipeline == p
  {
    if !accepted then Changed(Err(Internal("Failed to pause pipeline")), p)
    else Changed(Ok(()), p.(run := Halted))
  }

  /** Set the pipeline back to playing; no check of the current run state. */
  function Resume(p: RecordingPipeline, accepted: bool): (c: Changed)
    ensures c.result.Ok? <==> accepted
    ensures c.result.Ok? ==> c.pipeline == p.(run := Playing)
    ensures c.result.Err? ==> c.result.error.Internal? && c.pipeline == p
  {
    if !accepted then Changed(Err(Internal("Failed to resume pipeline")), p)
    else Changed(Ok(()), p.(run := Playing))
  }

  /** The first message at position `i` that is end-of-stream or an error; all before it are ignored. */
  predicate FirstSignificant(msgs: seq<BusMessage>, i: int) {
    0 <= i < |msgs| && !msgs[i].Other? && forall j :: 0 <= j < i ==> msgs[j].Other?
  }

  /** The outcome a significant message ends the wait with. */
  function Ends(m: BusMessage): WaitOutcome
    requires !m.Other?
  {
    match m
    case Eos => Completed
    case Failure(t) => Failed(t)
  }

  /**
   * The wait for end-of-stream: pop messages until end-of-stream or an error;
   * `msgs` are the messages popped until one pop finds nothing within the
   * timeout. Each pop is bounded, the total wait is not.
   */
  function WaitForEos(msgs: seq<BusMessage>): (w: WaitOutcome)
    ensures w.TimedOut? <==> forall i :: 0 <= i < |msgs| ==> msgs[i].Other?
    ensures !w.TimedOut? ==> exists i :: FirstSignificant(msgs, i) && Ends(msgs[i]) == w
    decreases |msgs|
  {
    if |msgs| == 0 then TimedOut
    else match msgs[0]
      case Eos => assert FirstSignificant(msgs, 0); Completed
      case Failure(t) => assert FirstSignificant(msgs, 0); Failed(t)
      case Other =>
        var w := WaitForEos(msgs[1..]);
        assert !w.TimedOut? ==> exists i :: FirstSignificant(msgs, i) && Ends(msgs[i]) == w by {
          if !w.TimedOut? {
            var i :| FirstSignificant(msgs[1..], i) && Ends(msgs[1..][i]) == w;
            assert msgs[i + 1] == msgs[1..][i];
            forall j | 0 <= j < i + 1 ensures msgs[j].Other? {
              if j > 0 { assert msgs[j] == msgs[1..][j - 1]; }
            }
            assert FirstSignificant(msgs, i + 1);
          }
        }
        assert (forall i :: 0 <= i < |msgs| ==> msgs[i].Other?) ==> w.TimedOut? by {
          if forall i :: 0 <= i < |msgs| ==> msgs[i].Other? {
            forall i | 0 <= i < |msgs[1..]| ensures msgs[1..][i].Other? {
              assert msgs[1..][i] == msgs[i + 1];
            }
          }
        }
        assert w.TimedOut? ==> forall i :: 0 <= i < |msgs| ==> msgs[i].Other? by {
          if w.TimedOut? {
            forall i | 0 <= i < |msgs| ensures msgs[i].Other? {
              if i > 0 { assert msgs[i] == msgs[1..][i - 1]; }
            }
          }
        }
        w
  }

  /** Messages before the first significant one are skipped and messages after it are never read. */
  lemma {:induction false} WaitStopsAtFirstSignificant(skipped: seq<BusMessage>, m: BusMessage, rest: seq<BusMessage>)
    requires forall i :: 0 <= i < |skipped| ==> skipped[i].Other?
    requires !m.Other?
    ensures WaitForEos(skipped + [m] + rest) == Ends(m)
    decreases |skipped|
  {
    var msgs := skipped + [m] + rest;
    if |skipped| == 0 {
      assert msgs[0] == m;
    } else {
      assert msgs[0] == skipped[0];
      assert msgs[1..] == skipped[1..] + [m] + rest;
      WaitStopsAtFirstSignificant(skipped[1..], m, rest);
    }
  }

  /**
   * Finalize the recording. `busAvailable` says whether the pipeline has a
   * bus, `msgs` are the bus messages read until none arrives for five seconds,
   * `elapsedMs` is the wall-clock time since the start and `fileExists`
   * whether the output file is on disk afterwards.
   */
  function Stop(p: RecordingPipeline, busAvailable: bool, msgs: seq<BusMessage>, elapsedMs: nat, fileExists: bool): (s: Stopped)
    ensures !busAvailable ==> s == Stopped(Err(Internal("Failed to get pipeline bus")), p)
    ensures busAvailable ==> s.pipeline == p.(run := Null)
    ensures s.result.Ok? <==> busAvailable && !WaitForEos(msgs).Failed? && fileExists
    ensures s.result.Err? ==> s.result.error.Internal?
    ensures busAvailable && WaitForEos(msgs).Failed? ==> s.result.error.msg == "Pipeline error: " + WaitForEos(msgs).text
    ensures s.result.Ok? ==>
      && s.result.value.path == p.outputPath
      && s.result.value.width == p.width && s.result.value.height == p.height
      && s.result.value.durationMs == (if p.startTime.Some? then elapsedMs else 0)
  {
    var duration := if p.startTime.Some? then elapsedMs else 0;
    if !busAvailable then Stopped(Err(Internal("Failed to get pipeline bus")), p)
    else
      var wait := WaitForEos(msgs);
      var torn := p.(run := Null);
      if wait.Failed? then Stopped(Err(Internal("Pipeline error: " + wait.text)), torn)
      else if !fileExists then Stopped(Err(Internal("Recording file was not created")), torn)
      else Stopped(Ok(RecordingResult(p.outputPath, duration, p.width, p.height)), torn)
  }

  /** A timeout is not an error for `stop`: with the file present it still succeeds. */
  lemma StopProceedsOnTimeout(p: RecordingPipeline, elapsedMs: nat)
    ensures Stop(p, true, [Other, Other], elapsedMs, true).result.Ok?
  {
  }

  /** Stopping a pipeline that never started reports zero duration. */
  lemma NeverStartedHasZeroDuration(p: RecordingPipeline, msgs: seq<BusMessage>, elapsedMs: nat)
    requires p.startTime.None?
    requires Stop(p, true, msgs, elapsedMs, true).result.Ok?
    ensures Stop(p, true, msgs, elapsedMs, true).result.value.durationMs == 0
  {
  }

  /** With no audio requested the audio encoder is never consulted: construction succeeds without one. */
  lemma VideoOnlyIgnoresAudio(reg: Registry, nodeId: u32, path: string, fps: u8, container: ContainerFormat)
    requires reg.initialized && DetectVideoEncoder(reg).Some?
    requires DetectAudioEncoder(reg, container).None?
    ensures New(reg, nodeId, path, fps, container, AudioConfig(false, false), None, None, true).Ok?
    ensures New(reg, nodeId, path, fps, container, AudioConfig(false, false), None, None, true).value.graph.audio == Silent
  {
  }

  /** Both audio flags give one mixer of the microphone and the monitor, encoded once. */
  lemma BothAudioIsMixed(reg: Registry, nodeId: u32, path: string, fps: u8, container: ContainerFormat)
    requires reg.initialized && DetectVideoEncoder(reg).Some? && DetectAudioEncoder(reg, container).Some?
    ensures
      var r := New(reg, nodeId, path, fps, container, AudioConfig(true, true), None, None, true);
      r.Ok? && r.value.graph.audio == Mixed([Microphone, Device("@DEFAULT_MONITOR@")], DetectAudioEncoder(reg, container).value)
  {
  }
}
