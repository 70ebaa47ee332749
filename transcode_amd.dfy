/** The first AMD transcoding plugin: it probes the GPU's VAAPI and AMF
    support, keeps the source's codec, and writes an ffmpeg command into the
    runner data, taking its settings from that data. */
module TranscodeAmd {

  import opened Common
  import opened Runner

  /** What `detect_amd_gpu` reports. */
  datatype Capabilities = Capabilities(hasVaapi: bool, hasAmf: bool, renderDevice: string, gpuDetected: bool)

  const DefaultCapabilities := Capabilities(false, false, "/dev/dri/renderD128", false)

  /** An lspci line that describes an AMD display controller. */
  predicate IsAmdDisplayLine(line: string) {
    (Contains(Lower(line), "vga") || Contains(Lower(line), "display"))
    && (Contains(Lower(line), "amd") || Contains(Lower(line), "ati") || Contains(Lower(line), "radeon"))
  }

  /** What `detect_amd_gpu` returns, given lspci's run, the /dev/dri listing
      and the run of `ffmpeg -encoders`. A raising call ends detection with
      what was found so far. Any render node counts as VAAPI support. */
  function DetectedCapabilities(lspci: Run, dri: DirListing, ffmpegEncoders: Run): Capabilities {
    if lspci.Failed? then DefaultCapabilities
    else
      var lines := Split(lspci.stdout, '\n');
      var detected := lspci.returnCode == 0 && exists k :: 0 <= k < |lines| && IsAmdDisplayLine(lines[k]);
      var afterLspci := DefaultCapabilities.(gpuDetected := detected);
      if dri.Unreadable? then afterLspci
      else
        var render := if dri.Listed? then FirstWithPrefix(dri.entries, "renderD") else None;
        var afterDri := if render.Some? then afterLspci.(hasVaapi := true, renderDevice := "/dev/dri/" + render.value)
                        else afterLspci;
        if ffmpegEncoders.Exited? && ffmpegEncoders.returnCode == 0 then
          afterDri.(hasAmf := Contains(ffmpegEncoders.stdout, "h264_amf"),
                    hasVaapi := afterDri.hasVaapi || Contains(ffmpegEncoders.stdout, "h264_vaapi"))
        else afterDri
  }

  /** Scans lspci's output line by line, then the render nodes, then asks
      ffmpeg which encoders it has. */
  method DetectAmdGpu(lspci: Run, dri: DirListing, ffmpegEncoders: Run) returns (caps: Capabilities)
    ensures caps == DetectedCapabilities(lspci, dri, ffmpegEncoders)
  {
    caps := DefaultCapabilities;
    if lspci.Failed? {
      return;
    }
    if lspci.returnCode == 0 {
      var lines := Split(lspci.stdout, '\n');
      var i := 0;
      while i < |lines|
        invariant 0 <= i <= |lines|
        invariant caps == DefaultCapabilities
        invariant forall k :: 0 <= k < i ==> !IsAmdDisplayLine(lines[k])
      {
        if IsAmdDisplayLine(lines[i]) {
          caps := caps.(gpuDetected := true);
          break;
        }
        i := i + 1;
      }
    }
    if dri.Unreadable? {
      return;
    }
    if dri.Listed? {
      var render := FirstWithPrefix(dri.entries, "renderD");
      if render.Some? {
        caps := caps.(hasVaapi := true);
        caps := caps.(renderDevice := "/dev/dri/" + render.value);
      }
    }
    if ffmpegEncoders.Exited? && ffmpegEncoders.returnCode == 0 {
      var encoders := ffmpegEncoders.stdout;
      if Contains(encoders, "h264_amf") {
        caps := caps.(hasAmf := true);
      }
      if Contains(encoders, "h264_vaapi") {
        caps := caps.(hasVaapi := true);
      }
    }
  }

  /** A render node in /dev/dri is enough for VAAPI: whether or not the GPU is
      AMD's and whatever ffmpeg reports. */
  lemma RenderNodeMeansVaapi(lspci: Run, dri: DirListing, ffmpegEncoders: Run)
    requires lspci.Exited? && dri.Listed?
    requires exists k :: 0 <= k < |dri.entries| && StartsWith(dri.entries[k], "renderD")
    ensures var caps := DetectedCapabilities(lspci, dri, ffmpegEncoders);
      caps.hasVaapi && StartsWith(caps.renderDevice, "/dev/dri/renderD")
  {
    var r := FirstWithPrefix(dri.entries, "renderD");
    assert ("/dev/dri/" + r.value)[9..] == r.value;
    assert ("/dev/dri/" + r.value)[..16] == "/dev/dri/" + r.value[..7];
  }

  // ---------------------------------------------------------------------
  // Encoder choice

  /** The software fallback for codecs the plugin does not know. */
  const DefaultEncoder: Encoder := ("libx264", ["-preset", "medium", "-crf", "23"])

  /** An encoder and the parameters that follow `-c:v encoder`. */
  type Encoder = (string, seq<string>)

  /** The encoders for one codec: AMF when there is one, VAAPI and software. */
  datatype CodecEncoders = CodecEncoders(amf: Option<Encoder>, vaapi: Encoder, software: Encoder)

  /** The encoder table, for the four codecs it knows. */
  function EncoderTable(codec: string, videoQuality: string): Option<CodecEncoders> {
    if codec == "h264" then Some(H264Row(videoQuality))
    else if codec == "hevc" then Some(HevcRow(videoQuality))
    else if codec == "av1" then Some(Av1Row(videoQuality))
    else if codec == "vp9" then Some(Vp9Row)
    else None
  }

  function H264Row(videoQuality: string): CodecEncoders {
    CodecEncoders(Some(("h264_amf", ["-quality", videoQuality])), ("h264_vaapi", ["-qp", "23"]),
                  ("libx264", ["-preset", "medium", "-crf", "23"]))
  }

  function HevcRow(videoQuality: string): CodecEncoders {
    CodecEncoders(Some(("hevc_amf", ["-quality", videoQuality])), ("hevc_vaapi", ["-qp", "25"]),
                  ("libx265", ["-preset", "medium", "-crf", "25"]))
  }

  function Av1Row(videoQuality: string): CodecEncoders {
    CodecEncoders(Some(("av1_amf", ["-quality", videoQuality])), ("av1_vaapi", ["-qp", "30"]),
                  ("libsvtav1", ["-preset", "7"]))
  }

  const Vp9Row: CodecEncoders :=
    CodecEncoders(None, ("vp9_vaapi", ["-qp", "30"]), ("libvpx-vp9", ["-crf", "30", "-b:v", "0"]))

  /** An encoder that runs on the GPU. */
  predicate IsHardwareEncoder(encoder: string) {
    EndsWith(encoder, "_amf") || EndsWith(encoder, "_vaapi")
  }

  /** `get_optimal_encoder`: AMF when preferred, available and made for the
      codec, else VAAPI when available, else the codec's software encoder. */
  function GetOptimalEncoder(codec: string, caps: Capabilities, preferAmf: bool, videoQuality: string)
    : (r: Encoder)
    ensures codec !in {"h264", "hevc", "av1", "vp9"} ==> r == DefaultEncoder
    ensures |r.0| > 0 && r.0[0] != '-'
  {
    match EncoderTable(codec, videoQuality)
    case None => DefaultEncoder
    case Some(encoders) =>
      if preferAmf && caps.hasAmf && encoders.amf.Some? then encoders.amf.value
      else if caps.hasVaapi then encoders.vaapi
      else encoders.software
  }

  /** The kinds of encoder a table row holds: AMF names end in `_amf` and
      take the quality setting, VAAPI names end in `_vaapi` and take `-qp`,
      software names end in neither. */
  predicate RowKinds(encoders: CodecEncoders, videoQuality: string) {
    && (encoders.amf.Some? ==>
          EndsWith(encoders.amf.value.0, "_amf") && !EndsWith(encoders.amf.value.0, "_vaapi")
          && encoders.amf.value.1 == ["-quality", videoQuality])
    && EndsWith(encoders.vaapi.0, "_vaapi") && !EndsWith(encoders.vaapi.0, "_amf")
    && |encoders.vaapi.1| == 2 && encoders.vaapi.1[0] == "-qp"
    && !EndsWith(encoders.software.0, "_amf") && !EndsWith(encoders.software.0, "_vaapi")
  }

  /** The table knows h264, hevc, av1 and vp9, every row is well kinded, and
      only vp9 lacks an AMF encoder. */
  lemma {:induction false} TableRows(codec: string, videoQuality: string)
    ensures EncoderTable(codec, videoQuality).None? <==> codec !in {"h264", "hevc", "av1", "vp9"}
    ensures EncoderTable(codec, videoQuality).Some? ==>
              RowKinds(EncoderTable(codec, videoQuality).value, videoQuality)
              && (EncoderTable(codec, videoQuality).value.amf.Some? <==> codec != "vp9")
  {
    if codec == "h264" {
      H264RowKinds(videoQuality);
    } else if codec == "hevc" {
      HevcRowKinds(videoQuality);
    } else if codec == "av1" {
      Av1RowKinds(videoQuality);
    } else if codec == "vp9" {
      Vp9RowKinds(videoQuality);
    }
  }

  lemma H264RowKinds(videoQuality: string)
    ensures RowKinds(H264Row(videoQuality), videoQuality)
  {
    assert "h264_amf"[4..] == "_amf" && "h264_vaapi"[4..] == "_vaapi";
    assert "h264_amf"[2] != "_vaapi"[0] && "h264_vaapi"[6] != "_amf"[0] && "libx264"[3] != "_amf"[0];
  }

  lemma HevcRowKinds(videoQuality: string)
    ensures RowKinds(HevcRow(videoQuality), videoQuality)
  {
    assert "hevc_amf"[4..] == "_amf" && "hevc_vaapi"[4..] == "_vaapi";
    assert "hevc_amf"[2] != "_vaapi"[0] && "hevc_vaapi"[6] != "_amf"[0] && "libx265"[3] != "_amf"[0];
  }

  lemma Av1RowKinds(videoQuality: string)
    ensures RowKinds(Av1Row(videoQuality), videoQuality)
  {
    assert "av1_amf"[3..] == "_amf" && "av1_vaapi"[3..] == "_vaapi";
    assert "av1_amf"[1] != "_vaapi"[0] && "av1_vaapi"[5] != "_amf"[0] && "libsvtav1"[5] != "_amf"[0];
  }

  lemma Vp9RowKinds(videoQuality: string)
    ensures RowKinds(Vp9Row, videoQuality)
  {
    assert "vp9_vaapi"[3..] == "_vaapi";
    assert "vp9_vaapi"[5] != "_amf"[0] && "libvpx-vp9"[6] != "_amf"[0];
  }

  /** AMF is chosen exactly when preferred, available and made for the codec
      (vp9 has none); VAAPI exactly when available and AMF was not chosen;
      AMF encoders take the quality setting and VAAPI ones a fixed `-qp`. */
  lemma OptimalEncoderChoice(codec: string, caps: Capabilities, preferAmf: bool, videoQuality: string)
    ensures var r := GetOptimalEncoder(codec, caps, preferAmf, videoQuality);
      && (EndsWith(r.0, "_amf") <==> codec in {"h264", "hevc", "av1"} && preferAmf && caps.hasAmf)
      && (EndsWith(r.0, "_vaapi") <==>
            codec in {"h264", "hevc", "av1", "vp9"} && caps.hasVaapi && !(preferAmf && caps.hasAmf && codec != "vp9"))
      && (EndsWith(r.0, "_amf") ==> r.1 == ["-quality", videoQuality])
      && (EndsWith(r.0, "_vaapi") ==> |r.1| == 2 && r.1[0] == "-qp")
    ensures var r := GetOptimalEncoder(codec, caps, preferAmf, videoQuality);
      EncoderTable(codec, videoQuality).Some? ==>
        var row := EncoderTable(codec, videoQuality).value;
        && (EndsWith(r.0, "_amf") ==> row.amf.Some? && r == row.amf.value)
        && (EndsWith(r.0, "_vaapi") ==> r == row.vaapi)
        && (!IsHardwareEncoder(r.0) ==> r == row.software)
  {
    TableRows(codec, videoQuality);
    if EncoderTable(codec, videoQuality).None? {
      assert !EndsWith("libx264", "_amf") && !EndsWith("libx264", "_vaapi");
    }
  }

  /** The choice ignores whether lspci found an AMD GPU: only the VAAPI and
      AMF flags count. */
  lemma GpuDetectionIgnored(codec: string, caps: Capabilities, preferAmf: bool, videoQuality: string)
    ensures GetOptimalEncoder(codec, caps.(gpuDetected := true), preferAmf, videoQuality)
            == GetOptimalEncoder(codec, caps.(gpuDetected := false), preferAmf, videoQuality)
  {
  }

  /** `detect_source_codec` given ffprobe's run: one of the four known codecs,
      'h264' unless ffprobe succeeded and named another one. */
  function DetectSourceCodec(ffprobe: Run): (codec: string)
    ensures codec in {"h264", "hevc", "av1", "vp9"}
    ensures codec == "hevc" <==>
            ffprobe.Exited? && ffprobe.returnCode == 0 && Lower(Strip(ffprobe.stdout)) in {"hevc", "h265"}
    ensures codec in {"av1", "vp9"} ==>
              ffprobe.Exited? && ffprobe.returnCode == 0 && Lower(Strip(ffprobe.stdout)) == codec
    ensures ffprobe.Exited? && ffprobe.returnCode == 0 && Lower(Strip(ffprobe.stdout)) in {"av1", "vp9"}
            ==> codec == Lower(Strip(ffprobe.stdout))
  {
    if ffprobe.Exited? && ffprobe.returnCode == 0 then
      var codec := Lower(Strip(ffprobe.stdout));
      if codec in {"h264", "avc"} then "h264"
      else if codec in {"hevc", "h265"} then "hevc"
      else if codec == "av1" then "av1"
      else if codec == "vp9" then "vp9"
      else "h264"
    else "h264"
  }

  // ---------------------------------------------------------------------
  // The ffmpeg command

  /** The settings `on_worker_process` reads from the runner data. */
  datatype Settings = Settings(preferAmf: bool, videoQuality: string, bitrate: string,
                               maxBitrate: string, audioBitrate: string)

  /** The runner data's keys that feed the command hold text when present. */
  predicate SettingsAreText(entries: map<string, Value>) {
    && TextWhenPresent(entries, "video_quality") && TextWhenPresent(entries, "bitrate")
    && TextWhenPresent(entries, "max_bitrate") && TextWhenPresent(entries, "audio_bitrate")
  }

  /** `settings = {key: data.get(key, default) ...}` */
  function SettingsOf(entries: map<string, Value>): (s: Settings)
    requires SettingsAreText(entries)
    ensures s.preferAmf <==> "prefer_amf_over_vaapi" !in entries || Truthy(entries["prefer_amf_over_vaapi"])
    ensures "video_quality" !in entries ==> s.videoQuality == "balanced"
    ensures "bitrate" !in entries ==> s.bitrate == "2M"
    ensures "max_bitrate" !in entries ==> s.maxBitrate == "4M"
    ensures "audio_bitrate" !in entries ==> s.audioBitrate == "128k"
    ensures "video_quality" in entries ==> entries["video_quality"] == Str(s.videoQuality)
    ensures "bitrate" in entries ==> entries["bitrate"] == Str(s.bitrate)
    ensures "max_bitrate" in entries ==> entries["max_bitrate"] == Str(s.maxBitrate)
    ensures "audio_bitrate" in entries ==> entries["audio_bitrate"] == Str(s.audioBitrate)
  {
    Settings(Truthy(Get(entries, "prefer_amf_over_vaapi", Bool(true))),
             TextOr(entries, "video_quality", "balanced"), TextOr(entries, "bitrate", "2M"),
             TextOr(entries, "max_bitrate", "4M"), TextOr(entries, "audio_bitrate", "128k"))
  }

  function HwaccelArgs(encoder: string, renderDevice: string): seq<string> {
    if EndsWith(encoder, "_vaapi") then
      ["-hwaccel", "vaapi", "-hwaccel_device", renderDevice, "-hwaccel_output_format", "vaapi"]
    else []
  }

  function BitrateArgs(encoder: string, bitrate: string, maxBitrate: string): seq<string> {
    if IsHardwareEncoder(encoder) then ["-b:v", bitrate, "-maxrate", maxBitrate] else []
  }

  /** The command `on_worker_process` builds for an encoder and its parameters. */
  function Command(fileIn: string, fileOut: string, encoder: Encoder, renderDevice: string,
                   settings: Settings): seq<string>
  {
    ["ffmpeg", "-i", fileIn]
    + HwaccelArgs(encoder.0, renderDevice)
    + ["-c:v", encoder.0] + encoder.1
    + BitrateArgs(encoder.0, settings.bitrate, settings.maxBitrate)
    + ["-c:a", "aac", "-b:a", settings.audioBitrate]
    + ["-y", fileOut]
  }

  /** The texts the command takes from outside the plugin's own literals. */
  function SuppliedTexts(fileIn: string, fileOut: string, renderDevice: string, settings: Settings): seq<string> {
    [fileIn, fileOut, renderDevice, settings.videoQuality, settings.bitrate, settings.maxBitrate,
     settings.audioBitrate]
  }

  /** The input comes first; for a VAAPI encoder the hardware-decoding
      options follow it, then `-c:v` names the encoder followed at once by
      its parameters, and the output is overwritten last. */
  lemma CommandFrame(fileIn: string, fileOut: string, encoder: Encoder, renderDevice: string,
                     settings: Settings)
    ensures var cmd := Command(fileIn, fileOut, encoder, renderDevice, settings);
      && cmd[..3] == ["ffmpeg", "-i", fileIn]
      && cmd[|cmd| - 2..] == ["-y", fileOut]
      && cmd[|cmd| - 6..|cmd| - 2] == ["-c:a", "aac", "-b:a", settings.audioBitrate]
      && (EndsWith(encoder.0, "_vaapi") <==> cmd[3] == "-hwaccel")
      && (EndsWith(encoder.0, "_vaapi") ==> cmd[3..9] == HwaccelArgs(encoder.0, renderDevice))
      && (var k := 3 + |HwaccelArgs(encoder.0, renderDevice)|;
          cmd[k..k + 2 + |encoder.1|] == ["-c:v", encoder.0] + encoder.1)
  {
  }

  /** Among the encoder parameters only libvpx-vp9's hold `-b:v`, and none
      hold `-maxrate`. */
  lemma EncoderParamFlags(codec: string, caps: Capabilities, preferAmf: bool, videoQuality: string)
    requires videoQuality != "-b:v" && videoQuality != "-maxrate"
    ensures var r := GetOptimalEncoder(codec, caps, preferAmf, videoQuality);
      && "-maxrate" !in r.1
      && ("-b:v" in r.1 <==> r.0 == "libvpx-vp9")
  {
    var r := GetOptimalEncoder(codec, caps, preferAmf, videoQuality);
    match EncoderTable(codec, videoQuality)
    case None =>
      assert r == DefaultEncoder;
    case Some(encoders) =>
      assert r == encoders.software || r == encoders.vaapi || (encoders.amf.Some? && r == encoders.amf.value);
  }

  /** For an encoder whose name is not an option and whose parameters hold no
      `-maxrate`, the command holds `-maxrate` exactly for GPU encoders and
      `-b:v` for GPU encoders or when the parameters hold it. */
  lemma CommandBitrateFlags(fileIn: string, fileOut: string, encoder: Encoder, renderDevice: string,
                            settings: Settings)
    requires !(|encoder.0| > 0 && encoder.0[0] == '-')
    requires "-maxrate" !in encoder.1
    requires "-b:v" !in SuppliedTexts(fileIn, fileOut, renderDevice, settings)
    requires "-maxrate" !in SuppliedTexts(fileIn, fileOut, renderDevice, settings)
    ensures var cmd := Command(fileIn, fileOut, encoder, renderDevice, settings);
      && ("-maxrate" in cmd <==> IsHardwareEncoder(encoder.0))
      && ("-b:v" in cmd <==> IsHardwareEncoder(encoder.0) || "-b:v" in encoder.1)
  {
    var cmd := Command(fileIn, fileOut, encoder, renderDevice, settings);
    var head := ["ffmpeg", "-i", fileIn] + HwaccelArgs(encoder.0, renderDevice) + ["-c:v", encoder.0];
    var tail := ["-c:a", "aac", "-b:a", settings.audioBitrate, "-y", fileOut];
    assert cmd == head + encoder.1 + BitrateArgs(encoder.0, settings.bitrate, settings.maxBitrate) + tail;
    assert encoder.0 != "-b:v" && encoder.0 != "-maxrate";
    assert "-b:v" !in head && "-maxrate" !in head;
    assert "-b:v" !in tail && "-maxrate" !in tail;
  }

  /** `-maxrate` is in the command exactly for GPU encoders; `-b:v` is there
      for GPU encoders and for libvpx-vp9, whose own parameters hold
      `-b:v 0`. */
  lemma BitrateFlags(fileIn: string, fileOut: string, codec: string, caps: Capabilities, settings: Settings)
    requires "-b:v" !in SuppliedTexts(fileIn, fileOut, caps.renderDevice, settings)
    requires "-maxrate" !in SuppliedTexts(fileIn, fileOut, caps.renderDevice, settings)
    ensures var encoder := GetOptimalEncoder(codec, caps, settings.preferAmf, settings.videoQuality);
      var cmd := Command(fileIn, fileOut, encoder, caps.renderDevice, settings);
      && ("-maxrate" in cmd <==> IsHardwareEncoder(encoder.0))
      && ("-b:v" in cmd <==> IsHardwareEncoder(encoder.0) || encoder.0 == "libvpx-vp9")
  {
    var encoder := GetOptimalEncoder(codec, caps, settings.preferAmf, settings.videoQuality);
    EncoderParamFlags(codec, caps, settings.preferAmf, settings.videoQuality);
    CommandBitrateFlags(fileIn, fileOut, encoder, caps.renderDevice, settings);
  }

  /** What `on_worker_process` does with the runner data once both files are
      known: it sets 'exec_command' and logs the encoder and whether an AMD
      GPU was found. */
  function Processed(entries: map<string, Value>, fileIn: string, fileOut: string, lspci: Run,
                     dri: DirListing, ffmpegEncoders: Run, ffprobe: Run): map<string, Value>
    requires SettingsAreText(entries) && LogIsList(entries)
  {
    var settings := SettingsOf(entries);
    var caps := DetectedCapabilities(lspci, dri, ffmpegEncoders);
    var encoder := GetOptimalEncoder(DetectSourceCodec(ffprobe), caps, settings.preferAmf, settings.videoQuality);
    Recorded(entries, Command(fileIn, fileOut, encoder, caps.renderDevice, settings),
             ["Using encoder: " + encoder.0, "AMD GPU: " + if caps.gpuDetected then "Detected" else "Not detected"])
  }

  /** `on_worker_process`: without a (truthy) input and output file the data
      is left as it is. Otherwise 'exec_command' is set; then the two log
      lines are appended, which raises (KeyError) when the data has no
      'worker_log', after the command was set. */
  method OnWorkerProcess(data: RunnerData, lspci: Run, dri: DirListing, ffmpegEncoders: Run, ffprobe: Run)
    returns (raised: bool)
    requires TextWhenTruthy(data.entries, "file_in") && TextWhenTruthy(data.entries, "file_out")
    requires SettingsAreText(data.entries) && LogIsList(data.entries)
    modifies data
    ensures TruthyText(old(data.entries), "file_in").None? || TruthyText(old(data.entries), "file_out").None?
            ==> !raised && data.entries == old(data.entries)
    ensures TruthyText(old(data.entries), "file_in").Some? && TruthyText(old(data.entries), "file_out").Some?
            ==> (raised <==> "worker_log" !in old(data.entries))
                && data.entries == Processed(old(data.entries), TruthyText(old(data.entries), "file_in").value,
                                             TruthyText(old(data.entries), "file_out").value,
                                             lspci, dri, ffmpegEncoders, ffprobe)
  {
    var settings := SettingsOf(data.entries);
    var fileIn := TruthyText(data.entries, "file_in");
    var fileOut := TruthyText(data.entries, "file_out");
    if fileIn.None? || fileOut.None? {
      return false;
    }
    raised := Transcode(data, settings, fileIn.value, fileOut.value, lspci, dri, ffmpegEncoders, ffprobe);
  }

  /** The part of `on_worker_process` after both files were found. */
  method Transcode(data: RunnerData, settings: Settings, fileIn: string, fileOut: string, lspci: Run,
                   dri: DirListing, ffmpegEncoders: Run, ffprobe: Run) returns (raised: bool)
    requires SettingsAreText(data.entries) && LogIsList(data.entries) && settings == SettingsOf(data.entries)
    modifies data
    ensures raised <==> "worker_log" !in old(data.entries)
    ensures data.entries == Processed(old(data.entries), fileIn, fileOut, lspci, dri, ffmpegEncoders, ffprobe)
  {
    var caps := DetectAmdGpu(lspci, dri, ffmpegEncoders);
    var sourceCodec := DetectSourceCodec(ffprobe);
    var encoder := GetOptimalEncoder(sourceCodec, caps, settings.preferAmf, settings.videoQuality);
    var cmd := BuildCommand(fileIn, fileOut, encoder, caps.renderDevice, settings);
    var entries := data.entries["exec_command" := List(cmd)];
    var encoderLine := "Using encoder: " + encoder.0;
    var gpuLine := "AMD GPU: " + if caps.gpuDetected then "Detected" else "Not detected";
    if "worker_log" !in entries {
      raised := true;
    } else {
      raised := false;
      var log := entries["worker_log"].items + [encoderLine];
      entries := entries["worker_log" := List(log + [gpuLine])];
      assert log + [gpuLine] == data.entries["worker_log"].items + [encoderLine, gpuLine];
    }
    assert entries == Recorded(data.entries, cmd, [encoderLine, gpuLine]);
    data.entries := entries;
  }

  /** The command-building steps of `on_worker_process`, in order. */
  method BuildCommand(fileIn: string, fileOut: string, encoder: Encoder, renderDevice: string,
                      settings: Settings) returns (cmd: seq<string>)
    ensures cmd == Command(fileIn, fileOut, encoder, renderDevice, settings)
  {
    cmd := ["ffmpeg", "-i", fileIn];
    if EndsWith(encoder.0, "_vaapi") {
      cmd := cmd + ["-hwaccel", "vaapi"];
      cmd := cmd + ["-hwaccel_device", renderDevice];
      cmd := cmd + ["-hwaccel_output_format", "vaapi"];
    }
    cmd := cmd + ["-c:v", encoder.0];
    cmd := cmd + encoder.1;
    ghost var beforeBitrate := cmd;
    assert beforeBitrate == ["ffmpeg", "-i", fileIn] + HwaccelArgs(encoder.0, renderDevice) + ["-c:v", encoder.0] + encoder.1;
    if EndsWith(encoder.0, "_amf") || EndsWith(encoder.0, "_vaapi") {
      cmd := cmd + ["-b:v", settings.bitrate];
      cmd := cmd + ["-maxrate", settings.maxBitrate];
    }
    assert cmd == beforeBitrate + BitrateArgs(encoder.0, settings.bitrate, settings.maxBitrate);
    cmd := cmd + ["-c:a", "aac", "-b:a", settings.audioBitrate];
    cmd := cmd + ["-y", fileOut];
  }
}
