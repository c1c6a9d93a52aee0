/**
 * Encoder and muxer negotiation (`capture/linux/encoding.rs`): a
 * priority-ordered first-match search over the media engine's element
 * registry, which the model reduces to the names it knows and the names it
 * can actually instantiate.
 */
module Encoding {
  import opened Wrappers
  import opened Config

  /**
   * The element registry at call time: whether the engine initialised, the
   * factory names it can find, and the names whose factory builds an element.
   */
  datatype Registry = Registry(initialized: bool, known: set<string>, loadable: set<string>)

  /** H.264 encoders, hardware first, software last. */
  const H264_ENCODERS: seq<string> := ["vaapih264enc", "nvh264enc", "x264enc"]

  /** AAC encoders in order of preference. */
  const AAC_ENCODERS: seq<string> := ["fdkaacenc", "voaacenc", "avenc_aac"]

  /** Opus encoders, for Matroska. */
  const OPUS_ENCODERS: seq<string> := ["opusenc"]

  /** PulseAudio's name for the monitor of the default output device. */
  const SYSTEM_AUDIO_SOURCE := "@DEFAULT_MONITOR@"

  /** A name is usable only if it is found AND its factory can build an element. */
  predicate Usable(reg: Registry, name: string) {
    name in reg.known && name in reg.loadable
  }

  /** No candidate before position `i` is usable. */
  predicate NoneUsableBefore(reg: Registry, cands: seq<string>, i: int)
    requires 0 <= i <= |cands|
  {
    forall j :: 0 <= j < i ==> !Usable(reg, cands[j])
  }

  /** The first usable candidate, scanning in order. */
  function FirstUsable(reg: Registry, cands: seq<string>): (r: Option<string>)
    ensures r.None? <==> NoneUsableBefore(reg, cands, |cands|)
    ensures r.Some? ==> exists i :: 0 <= i < |cands| && cands[i] == r.value
                                    && Usable(reg, cands[i]) && NoneUsableBefore(reg, cands, i)
    decreases |cands|
  {
    if |cands| == 0 then None
    else if Usable(reg, cands[0]) then Some(cands[0])
    else
      var r := FirstUsable(reg, cands[1..]);
      assert r.Some? ==> exists i :: 1 <= i < |cands| && cands[i] == r.value
                                     && Usable(reg, cands[i]) && NoneUsableBefore(reg, cands, i) by {
        if r.Some? {
          var i :| 0 <= i < |cands[1..]| && cands[1..][i] == r.value
                   && Usable(reg, cands[1..][i]) && NoneUsableBefore(reg, cands[1..], i);
          assert cands[i + 1] == r.value && Usable(reg, cands[i + 1]);
          assert NoneUsableBefore(reg, cands, i + 1) by {
            forall j | 0 <= j < i + 1 ensures !Usable(reg, cands[j]) {
              if j > 0 { assert cands[j] == cands[1..][j - 1]; }
            }
          }
        }
      }
      assert r.None? ==> NoneUsableBefore(reg, cands, |cands|) by {
        if r.None? {
          forall j | 0 <= j < |cands| ensures !Usable(reg, cands[j]) {
            if j > 0 { assert cands[j] == cands[1..][j - 1]; }
          }
        }
      }
      assert NoneUsableBefore(reg, cands, |cands|) ==> r.None? by {
        if NoneUsableBefore(reg, cands, |cands|) {
          forall j | 0 <= j < |cands[1..]| ensures !Usable(reg, cands[1..][j]) {
            assert cands[1..][j] == cands[j + 1];
          }
        }
      }
      r
  }

  /** The best available H.264 encoder, or None. */
  function DetectVideoEncoder(reg: Registry): (r: Option<string>)
    ensures !reg.initialized ==> r.None?
    ensures r.Some? ==> r.value in H264_ENCODERS && Usable(reg, r.value)
    ensures reg.initialized && Usable(reg, H264_ENCODERS[0]) ==> r == Some(H264_ENCODERS[0])
    ensures reg.initialized ==> (r.None? <==> forall n :: n in H264_ENCODERS ==> !Usable(reg, n))
    ensures r.Some? ==> exists i :: 0 <= i < |H264_ENCODERS| && H264_ENCODERS[i] == r.value
                                    && NoneUsableBefore(reg, H264_ENCODERS, i)
  {
    if !reg.initialized then None else FirstUsable(reg, H264_ENCODERS)
  }

  /** The muxer element for a container; the mapping is total and constant. */
  function MuxerFor(c: ContainerFormat): (r: string)
    ensures |r| > 0
  {
    match c
    case Mp4 => "mp4mux"
    case Mkv => "matroskamux"
  }

  /** The best available audio encoder for a container: AAC for MP4; Opus, then AAC, for Matroska. */
  function DetectAudioEncoder(reg: Registry, c: ContainerFormat): (r: Option<string>)
    ensures !reg.initialized ==> r.None?
    ensures r.Some? ==> Usable(reg, r.value)
    ensures c == Mp4 && r.Some? ==> r.value in AAC_ENCODERS
    ensures c == Mkv && r.Some? ==> r.value in OPUS_ENCODERS || r.value in AAC_ENCODERS
    ensures c == Mp4 && r.Some? ==> exists i :: 0 <= i < |AAC_ENCODERS| && AAC_ENCODERS[i] == r.value
                                                && NoneUsableBefore(reg, AAC_ENCODERS, i)
    ensures c == Mkv && r.Some? && r.value in AAC_ENCODERS ==>
      NoneUsableBefore(reg, OPUS_ENCODERS, |OPUS_ENCODERS|)
      && exists i :: 0 <= i < |AAC_ENCODERS| && AAC_ENCODERS[i] == r.value && NoneUsableBefore(reg, AAC_ENCODERS, i)
    ensures reg.initialized && c == Mp4 ==> (r.None? <==> NoneUsableBefore(reg, AAC_ENCODERS, |AAC_ENCODERS|))
    ensures reg.initialized && c == Mkv ==>
      (r.None? <==> NoneUsableBefore(reg, OPUS_ENCODERS, |OPUS_ENCODERS|) && NoneUsableBefore(reg, AAC_ENCODERS, |AAC_ENCODERS|))
  {
    if !reg.initialized then None
    else match c
      case Mp4 => FirstUsable(reg, AAC_ENCODERS)
      case Mkv =>
        var opus := FirstUsable(reg, OPUS_ENCODERS);
        if opus.Some? then opus else FirstUsable(reg, AAC_ENCODERS)
  }

  /** Matroska takes Opus whenever the Opus encoder is usable. */
  lemma MkvPrefersOpus(reg: Registry)
    requires reg.initialized && Usable(reg, "opusenc")
    ensures DetectAudioEncoder(reg, Mkv) == Some("opusenc")
  {
  }

  /** Without Opus, Matroska falls back to exactly the AAC choice MP4 would make. */
  lemma MkvFallsBackToAac(reg: Registry)
    requires !Usable(reg, "opusenc")
    ensures DetectAudioEncoder(reg, Mkv) == DetectAudioEncoder(reg, Mp4)
  {
    if reg.initialized {
      assert NoneUsableBefore(reg, OPUS_ENCODERS, |OPUS_ENCODERS|);
    }
  }

  /** The search depends only on which candidates are usable, so repeated calls agree. */
  lemma {:induction false} FirstUsableDependsOnUsability(r1: Registry, r2: Registry, cands: seq<string>)
    requires forall i :: 0 <= i < |cands| ==> (Usable(r1, cands[i]) <==> Usable(r2, cands[i]))
    ensures FirstUsable(r1, cands) == FirstUsable(r2, cands)
    decreases |cands|
  {
    if |cands| > 0 {
      assert Usable(r1, cands[0]) <==> Usable(r2, cands[0]);
      if !Usable(r1, cands[0]) {
        forall i | 0 <= i < |cands[1..]|
          ensures Usable(r1, cands[1..][i]) <==> Usable(r2, cands[1..][i])
        {
          assert cands[1..][i] == cands[i + 1];
        }
        FirstUsableDependsOnUsability(r1, r2, cands[1..]);
      }
    }
  }

  /** Detection gives the same answer under any registry that agrees on the candidates. */
  lemma DetectionDeterministic(r1: Registry, r2: Registry)
    requires r1.initialized == r2.initialized
    requires forall n :: n in H264_ENCODERS + AAC_ENCODERS + OPUS_ENCODERS ==> (Usable(r1, n) <==> Usable(r2, n))
    ensures DetectVideoEncoder(r1) == DetectVideoEncoder(r2)
    ensures DetectAudioEncoder(r1, Mp4) == DetectAudioEncoder(r2, Mp4)
    ensures DetectAudioEncoder(r1, Mkv) == DetectAudioEncoder(r2, Mkv)
  {
    var all := H264_ENCODERS + AAC_ENCODERS + OPUS_ENCODERS;
    forall i | 0 <= i < |H264_ENCODERS| ensures Usable(r1, H264_ENCODERS[i]) <==> Usable(r2, H264_ENCODERS[i]) {
      assert H264_ENCODERS[i] == all[i];
    }
    forall i | 0 <= i < |AAC_ENCODERS| ensures Usable(r1, AAC_ENCODERS[i]) <==> Usable(r2, AAC_ENCODERS[i]) {
      assert AAC_ENCODERS[i] == all[3 + i];
    }
    forall i | 0 <= i < |OPUS_ENCODERS| ensures Usable(r1, OPUS_ENCODERS[i]) <==> Usable(r2, OPUS_ENCODERS[i]) {
      assert OPUS_ENCODERS[i] == all[6 + i];
    }
    FirstUsableDependsOnUsability(r1, r2, H264_ENCODERS);
    FirstUsableDependsOnUsability(r1, r2, AAC_ENCODERS);
    FirstUsableDependsOnUsability(r1, r2, OPUS_ENCODERS);
  }

  /** A name that is found but cannot be instantiated is never chosen, even when it comes first. */
  lemma UnloadableSkipped(reg: Registry)
    requires reg.initialized
    requires "vaapih264enc" in reg.known && "vaapih264enc" !in reg.loadable
    requires Usable(reg, "x264enc") && !Usable(reg, "nvh264enc")
    ensures DetectVideoEncoder(reg) == Some("x264enc")
  {
  }

  /** Both containers have a muxer, and they differ. */
  lemma MuxersDistinct()
    ensures MuxerFor(Mp4) == "mp4mux" && MuxerFor(Mkv) == "matroskamux"
    ensures MuxerFor(Mp4) != MuxerFor(Mkv)
  {
  }
}
