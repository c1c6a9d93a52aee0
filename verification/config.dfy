/** Capture configuration and its validation (`config.rs`). */
module Config {
  import opened Wrappers
  import opened Ints

  datatype CaptureSource = Screen | Monitor | Window | Region

  datatype ContainerFormat = Mp4 | Mkv

  datatype AudioConfig = AudioConfig(system: bool, mic: bool)

  datatype CaptureConfig = CaptureConfig(
    source: CaptureSource,
    fps: u8,
    includeCursor: bool,
    audio: AudioConfig,
    container: ContainerFormat,
    outputPath: string)

  /** A validation failure naming the offending field. */
  datatype ConfigError = ConfigError(field: string, message: string)

  const FPS_MESSAGE := "FPS must be between 1 and 60"
  const PATH_MESSAGE := "Output path cannot be empty"

  /** The derived `Default` of `AudioConfig`: no audio at all. */
  const DefaultAudio := AudioConfig(false, false)

  /** `CaptureConfig::default()`. */
  const DefaultConfig := CaptureConfig(Screen, 30, true, DefaultAudio, Mp4, "")

  /** Range check on the frame rate first, then the emptiness check on the path. */
  function Validate(c: CaptureConfig): (r: Result<(), ConfigError>)
    ensures r.Ok? <==> 1 <= c.fps <= 60 && |c.outputPath| > 0
    ensures r.Err? && r.error.field == "fps" <==> c.fps == 0 || c.fps > 60
    ensures r.Err? && r.error.field == "output_path" <==> 1 <= c.fps <= 60 && c.outputPath == []
    ensures r.Err? ==> r.error.field in {"fps", "output_path"}
    ensures r.Err? && r.error.field == "fps" ==> r.error.message == FPS_MESSAGE
    ensures r.Err? && r.error.field == "output_path" ==> r.error.message == PATH_MESSAGE
  {
    if c.fps == 0 || c.fps > 60 then
      Err(ConfigError("fps", FPS_MESSAGE))
    else if |c.outputPath| == 0 then
      Err(ConfigError("output_path", PATH_MESSAGE))
    else
      Ok(())
  }

  /** The frame-rate check wins over the path check when both fail. */
  lemma FpsCheckedFirst(c: CaptureConfig)
    requires c.fps == 0 || c.fps > 60
    requires c.outputPath == []
    ensures Validate(c) == Err(ConfigError("fps", FPS_MESSAGE))
  {
  }

  /** The default configuration only lacks an output path. */
  lemma DefaultNeedsOutputPath()
    ensures DefaultConfig.source == Screen && DefaultConfig.fps == 30 && DefaultConfig.includeCursor
    ensures !DefaultConfig.audio.system && !DefaultConfig.audio.mic && DefaultConfig.container == Mp4
    ensures Validate(DefaultConfig) == Err(ConfigError("output_path", PATH_MESSAGE))
    ensures forall p: string :: p != [] ==> Validate(DefaultConfig.(outputPath := p)) == Ok(())
  {
  }
}
