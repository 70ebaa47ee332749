/** The second AMD transcoding plugin: it detects an AMD GPU and CPU, picks
    an AMF, VAAPI or software encoder from the encoding mode, and writes the
    ffmpeg command into the runner data. */
module TranscodeAmdV2 {

  import opened Common
  import opened Runner

  /** The plugin's settings, as the host stores them. */
  datatype Settings = Settings(encodingMode: string, preferAmfOverVaapi: bool, targetCodec: string,
                               videoQuality: string, bitrate: string, maxBitrate: string,
                               audioCodec: string, audioBitrate: string)

  /** What `detect_amd_gpu` reports. */
  datatype GpuInfo = GpuInfo(detected: bool, renderDevice: string, hasAmf: bool, hasVaapi: bool)

  const DefaultGpuInfo := GpuInfo(false, "/dev/dri/renderD128", false, false)

  /** What `detect_amd_cpu` reports. */
  datatype CpuInfo = CpuInfo(detected: bool, cores: nat)

  // ---------------------------------------------------------------------
  // Hardware detection from command output

  /** An lspci line that describes an AMD display controller. */
  predicate IsAmdDisplayLine(line: string) {
    var l := Lower(line);
    (Contains(l, "vga") || Contains(l, "display"))
    && (Contains(l, "amd") || Contains(l, "ati") || Contains(l, "radeon"))
  }

  /** Some line of lspci's output describes an AMD display controller. */
  predicate ListsAmdDisplay(stdout: string) {
    var lines := Split(stdout, '\n');
    exists k :: 0 <= k < |lines| && IsAmdDisplayLine(lines[k])
  }

  /** lspci names every graphics card a "VGA compatible controller", and
      "compatible" holds "ati": such a line counts as AMD whatever its vendor. */
  lemma VgaControllerLineCounts(line: string)
    requires Contains(Lower(line), "vga compatible")
    ensures IsAmdDisplayLine(line)
  {
    var l := Lower(line);
    assert "vga compatible" == "vga" + " compatible";
    ContainsHead(l, "vga", " compatible");
    assert "vga compatible" == "vga comp" + ("ati" + "ble");
    ContainsTail(l, "vga comp", "ati" + "ble");
    ContainsHead(l, "ati", "ble");
  }

  /** So a successful lspci listing any VGA controller, of any vendor, is
      reported as an AMD GPU. */
  lemma AnyVgaControllerDetected(lspci: Run, dri: DirListing, ffmpegEncoders: Run, k: nat)
    requires lspci.Exited? && lspci.returnCode == 0
    requires k < |Split(lspci.stdout, '\n')| && Contains(Lower(Split(lspci.stdout, '\n')[k]), "vga compatible")
    ensures DetectedGpu(lspci, dri, ffmpegEncoders).detected
  {
    VgaControllerLineCounts(Split(lspci.stdout, '\n')[k]);
  }

  /** What `detect_amd_gpu` returns, given lspci's run, the /dev/dri listing
      and the run of `ffmpeg -encoders`. A raising call ends detection with
      what was found so far. */
  function DetectedGpu(lspci: Run, dri: DirListing, ffmpegEncoders: Run): GpuInfo {
    if lspci.Failed? then DefaultGpuInfo
    else
      var afterLspci := DefaultGpuInfo.(detected := lspci.returnCode == 0 && ListsAmdDisplay(lspci.stdout));
      if dri.Unreadable? then afterLspci
      else
        var render := if dri.Listed? then FirstWithPrefix(dri.entries, "renderD") else None;
        var afterDri := if render.Some? then afterLspci.(renderDevice := "/dev/dri/" + render.value) else afterLspci;
        if ffmpegEncoders.Exited? && ffmpegEncoders.returnCode == 0 then
          afterDri.(hasAmf := Contains(ffmpegEncoders.stdout, "h264_amf"),
                    hasVaapi := Contains(ffmpegEncoders.stdout, "h264_vaapi"))
        else afterDri
  }

  /** Scans lspci's output line by line for an AMD display controller, then
      looks for a render node and asks ffmpeg which encoders it has. */
  method DetectAmdGpu(lspci: Run, dri: DirListing, ffmpegEncoders: Run) returns (info: GpuInfo)
    ensures info == DetectedGpu(lspci, dri, ffmpegEncoders)
  {
    info := DefaultGpuInfo;
    if lspci.Failed? {
      return;
    }
    if lspci.returnCode == 0 {
      var lines := Split(lspci.stdout, '\n');
      var i := 0;
      while i < |lines|
        invariant 0 <= i <= |lines|
        invariant info == DefaultGpuInfo
        invariant forall k :: 0 <= k < i ==> !IsAmdDisplayLine(lines[k])
      {
        if IsAmdDisplayLine(lines[i]) {
          info := info.(detected := true);
          break;
        }
        i := i + 1;
      }
    }
    if dri.Unreadable? {
      return;
    }
    if dri.Listed? {
      var render := FirstWithPrefix(dri.entries, "renderD");
      if render.Some? {
        info := info.(renderDevice := "/dev/dri/" + render.value);
      }
    }
    if ffmpegEncoders.Exited? && ffmpegEncoders.returnCode == 0 {
      if Contains(ffmpegEncoders.stdout, "h264_amf") {
        info := info.(hasAmf := true);
      }
      if Contains(ffmpegEncoders.stdout, "h264_vaapi") {
        info := info.(hasVaapi := true);
      }
    }
  }

  /** What `detect_amd_cpu` returns for the text of /proc/cpuinfo (None when
      it cannot be read): an AMD CPU and its number of 'processor' entries. */
  function DetectAmdCpu(cpuinfo: Option<string>): (info: CpuInfo)
    ensures info.detected <==> cpuinfo.Some? && Contains(cpuinfo.value, "AMD")
    ensures info.detected ==> info.cores == CountOccurrences(cpuinfo.value, "processor")
    ensures !info.detected ==> info.cores == 0
  {
    match cpuinfo
    case None => CpuInfo(false, 0)
    case Some(text) =>
      if Contains(text, "AMD") || Contains(text, "AuthenticAMD") then
        assert Contains(text, "AMD") by {
          if !Contains(text, "AMD") {
            assert "AuthenticAMD" == "Authentic" + "AMD";
            ContainsTail(text, "Authentic", "AMD");
          }
        }
        CpuInfo(true, CountOccurrences(text, "processor"))
      else CpuInfo(false, 0)
  }

  // ---------------------------------------------------------------------
  // Encoder choice

  /** The encoders per codec: AMF, VAAPI and software. */
  function EncoderMap(): map<string, map<string, string>> {
    map["h264" := map["amf" := "h264_amf", "vaapi" := "h264_vaapi", "software" := "libx264"],
        "hevc" := map["amf" := "hevc_amf", "vaapi" := "hevc_vaapi", "software" := "libx265"]]
  }

  /** An encoder that runs on the GPU. */
  predicate IsHardwareEncoder(encoder: string) {
    EndsWith(encoder, "_amf") || EndsWith(encoder, "_vaapi")
  }

  /** `get_encoder`: the encoder and its kind ('gpu' or 'cpu') for a codec. */
  function GetEncoder(codec: string, gpu: GpuInfo, cpu: CpuInfo, mode: string, preferAmf: bool): (r: (string, string))
    ensures r.1 == "gpu" || r.1 == "cpu"
    ensures r.1 == "gpu" <==> IsHardwareEncoder(r.0)
    ensures codec !in {"h264", "hevc"} ==> r == ("libx264", "cpu")
    ensures codec == "h264" && r.1 == "cpu" ==> r.0 == "libx264"
    ensures codec == "hevc" && r.1 == "cpu" ==> r.0 == "libx265"
    ensures mode == "cpu_only" ==> r.1 == "cpu"
    ensures r.1 == "gpu" ==> mode in {"auto", "gpu_only"} && gpu.detected && ((preferAmf && gpu.hasAmf) || gpu.hasVaapi)
  {
    if codec !in EncoderMap() then ("libx264", "cpu")
    else
      var encoders := EncoderMap()[codec];
      if mode == "cpu_only" then (encoders["software"], "cpu")
      else if (mode == "gpu_only" || mode == "auto") && gpu.detected && preferAmf && gpu.hasAmf then
        (encoders["amf"], "gpu")
      else if (mode == "gpu_only" || mode == "auto") && gpu.detected && gpu.hasVaapi then
        (encoders["vaapi"], "gpu")
      else (encoders["software"], "cpu")
  }

  /** In 'auto' and 'gpu_only' mode with a detected GPU: AMF when preferred
      and available, else VAAPI when available, else software. */
  lemma GpuModePreference(codec: string, gpu: GpuInfo, cpu: CpuInfo, mode: string, preferAmf: bool)
    requires codec in {"h264", "hevc"} && mode in {"auto", "gpu_only"} && gpu.detected
    ensures var r := GetEncoder(codec, gpu, cpu, mode, preferAmf);
      && (preferAmf && gpu.hasAmf ==> r == (codec + "_amf", "gpu"))
      && (!(preferAmf && gpu.hasAmf) && gpu.hasVaapi ==> r == (codec + "_vaapi", "gpu"))
      && (!(preferAmf && gpu.hasAmf) && !gpu.hasVaapi ==> r.1 == "cpu")
  {
    if codec == "h264" {
      assert codec + "_amf" == "h264_amf" && codec + "_vaapi" == "h264_vaapi";
    } else {
      assert codec + "_amf" == "hevc_amf" && codec + "_vaapi" == "hevc_vaapi";
    }
  }

  /** 'gpu_only' is 'auto': both fall back to software without a GPU encoder. */
  lemma GpuOnlyIsAuto(codec: string, gpu: GpuInfo, cpu: CpuInfo, preferAmf: bool)
    ensures GetEncoder(codec, gpu, cpu, "gpu_only", preferAmf) == GetEncoder(codec, gpu, cpu, "auto", preferAmf)
  {
  }

  /** `detect_source_codec` given ffprobe's run: 'hevc' for hevc/h265,
      otherwise (including avc, unknown codecs and failures) 'h264'. */
  function DetectSourceCodec(ffprobe: Run): (codec: string)
    ensures codec in {"h264", "hevc"}
    ensures codec == "hevc" <==>
            ffprobe.Exited? && ffprobe.returnCode == 0 && Lower(Strip(ffprobe.stdout)) in {"hevc", "h265"}
  {
    if ffprobe.Exited? && ffprobe.returnCode == 0 then
      var codec := Lower(Strip(ffprobe.stdout));
      if codec in {"h264", "avc"} then "h264"
      else if codec in {"hevc", "h265"} then "hevc"
      else "h264"
    else "h264"
  }

  /** The codec to encode to: the target, or the source's codec for 'copy'. */
  function ResolveCodec(targetCodec: string, ffprobe: Run): (codec: string)
    ensures targetCodec != "copy" ==> codec == targetCodec
    ensures targetCodec == "copy" ==> codec in {"h264", "hevc"}
  {
    if targetCodec == "copy" then DetectSourceCodec(ffprobe) else targetCodec
  }

  // ---------------------------------------------------------------------
  // The ffmpeg command

  /** `-threads cores-1`, only with more than one core. */
  function ThreadArgs(cores: nat): seq<string> {
    if cores > 1 then ["-threads", NatToString(cores - 1)] else []
  }

  /** The encoder-specific arguments. */
  function EncoderArgs(encoder: string, quality: string, cores: nat): seq<string> {
    if EndsWith(encoder, "_amf") then ["-quality", quality, "-rc", "vbr"]
    else if EndsWith(encoder, "_vaapi") then ["-qp", "23"]
    else if encoder == "libx264" then ["-preset", "medium", "-crf", "23"] + ThreadArgs(cores)
    else if encoder == "libx265" then ["-preset", "medium", "-crf", "25"] + ThreadArgs(cores)
    else []
  }

  function VaapiDeviceArgs(encoder: string, renderDevice: string): seq<string> {
    if EndsWith(encoder, "_vaapi") then
      ["-vaapi_device", renderDevice, "-hwaccel", "vaapi", "-hwaccel_output_format", "vaapi"]
    else []
  }

  function BitrateArgs(encoder: string, bitrate: string, maxBitrate: string): seq<string> {
    if IsHardwareEncoder(encoder) then ["-b:v", bitrate, "-maxrate", maxBitrate] else []
  }

  function AudioArgs(audioCodec: string, audioBitrate: string): seq<string> {
    if audioCodec == "copy" then ["-c:a", "copy"] else ["-c:a", audioCodec, "-b:a", audioBitrate]
  }

  /** The command `on_worker_process` builds. */
  function Command(fileIn: string, fileOut: string, encoder: string, renderDevice: string,
                   cores: nat, settings: Settings): seq<string>
  {
    ["ffmpeg", "-hide_banner", "-loglevel", "info", "-i", fileIn]
    + VaapiDeviceArgs(encoder, renderDevice)
    + ["-c:v", encoder]
    + EncoderArgs(encoder, settings.videoQuality, cores)
    + BitrateArgs(encoder, settings.bitrate, settings.maxBitrate)
    + AudioArgs(settings.audioCodec, settings.audioBitrate)
    + ["-y", fileOut]
  }

  /** The texts the command takes from outside the plugin's own literals. */
  function SuppliedTexts(fileIn: string, fileOut: string, encoder: string, renderDevice: string,
                         settings: Settings): seq<string>
  {
    [fileIn, fileOut, encoder, renderDevice, settings.videoQuality, settings.bitrate,
     settings.maxBitrate, settings.audioCodec, settings.audioBitrate]
  }

  /** The command starts by reading the input and ends by overwriting the output. */
  lemma CommandFrame(fileIn: string, fileOut: string, encoder: string, renderDevice: string,
                     cores: nat, settings: Settings)
    ensures var cmd := Command(fileIn, fileOut, encoder, renderDevice, cores, settings);
      && |cmd| >= 10
      && cmd[..6] == ["ffmpeg", "-hide_banner", "-loglevel", "info", "-i", fileIn]
      && cmd[|cmd| - 2..] == ["-y", fileOut]
  {
  }

  /** A thread count is text of digits, never a flag. */
  lemma DigitsAreNotFlags(n: nat)
    ensures NatToString(n)[0] != '-'
  {
  }

  /** No encoder parameter is a bitrate flag. */
  lemma BitrateFlagsNotInEncoderArgs(encoder: string, quality: string, cores: nat)
    requires quality != "-b:v" && quality != "-maxrate"
    ensures "-b:v" !in EncoderArgs(encoder, quality, cores) && "-maxrate" !in EncoderArgs(encoder, quality, cores)
  {
    DigitsAreNotFlags(if cores > 0 then cores - 1 else 0);
    var args := EncoderArgs(encoder, quality, cores);
    if EndsWith(encoder, "_amf") {
      assert args == ["-quality", quality, "-rc", "vbr"];
    } else if EndsWith(encoder, "_vaapi") {
      assert args == ["-qp", "23"];
    } else if encoder == "libx264" {
      assert args == ["-preset", "medium", "-crf", "23"] + ThreadArgs(cores);
    } else if encoder == "libx265" {
      assert args == ["-preset", "medium", "-crf", "25"] + ThreadArgs(cores);
    }
  }

  /** Unless a supplied text is itself the flag, `-b:v` and `-maxrate` are in
      the command exactly when the encoder runs on the GPU. */
  lemma BitrateOnlyForHardware(fileIn: string, fileOut: string, encoder: string, renderDevice: string,
                               cores: nat, settings: Settings)
    requires "-b:v" !in SuppliedTexts(fileIn, fileOut, encoder, renderDevice, settings)
    requires "-maxrate" !in SuppliedTexts(fileIn, fileOut, encoder, renderDevice, settings)
    ensures var cmd := Command(fileIn, fileOut, encoder, renderDevice, cores, settings);
      && ("-b:v" in cmd <==> IsHardwareEncoder(encoder))
      && ("-maxrate" in cmd <==> IsHardwareEncoder(encoder))
  {
    CommandParts(fileIn, fileOut, encoder, renderDevice, cores, settings);
    DigitsAreNotFlags(if cores > 0 then cores - 1 else 0);
    var head := ["ffmpeg", "-hide_banner", "-loglevel", "info", "-i", fileIn]
                + VaapiDeviceArgs(encoder, renderDevice) + ["-c:v", encoder];
    assert "-b:v" !in head && "-maxrate" !in head;
    BitrateFlagsNotInEncoderArgs(encoder, settings.videoQuality, cores);
    assert "-b:v" !in AudioArgs(settings.audioCodec, settings.audioBitrate);
    assert "-maxrate" !in AudioArgs(settings.audioCodec, settings.audioBitrate);
  }

  /** The command is its head (input, VAAPI device options, encoder), the
      encoder's parameters, and its tail (bitrates, audio, output). */
  lemma CommandParts(fileIn: string, fileOut: string, encoder: string, renderDevice: string,
                     cores: nat, settings: Settings)
    ensures Command(fileIn, fileOut, encoder, renderDevice, cores, settings)
            == (["ffmpeg", "-hide_banner", "-loglevel", "info", "-i", fileIn]
                + VaapiDeviceArgs(encoder, renderDevice) + ["-c:v", encoder])
               + EncoderArgs(encoder, settings.videoQuality, cores)
               + (BitrateArgs(encoder, settings.bitrate, settings.maxBitrate)
                  + AudioArgs(settings.audioCodec, settings.audioBitrate) + ["-y", fileOut])
  {
  }

  /** Only libx264 and libx265 take a thread count, and only with more than one core. */
  lemma ThreadsInEncoderArgs(encoder: string, quality: string, cores: nat)
    requires quality != "-threads"
    ensures "-threads" in EncoderArgs(encoder, quality, cores) <==> encoder in {"libx264", "libx265"} && cores > 1
    ensures encoder in {"libx264", "libx265"} && cores > 1 ==>
              EncoderArgs(encoder, quality, cores)[4..] == ["-threads", NatToString(cores - 1)]
  {
    DigitsAreNotFlags(if cores > 0 then cores - 1 else 0);
    if encoder in {"libx264", "libx265"} {
      assert !EndsWith(encoder, "_amf") && !EndsWith(encoder, "_vaapi");
    }
  }

  /** `-threads` appears only for libx264/libx265 with more than one core,
      and then it is followed by the count cores-1 as text. */
  lemma ThreadsOnlyForMulticoreSoftware(fileIn: string, fileOut: string, encoder: string,
                                        renderDevice: string, cores: nat, settings: Settings)
    requires "-threads" !in SuppliedTexts(fileIn, fileOut, encoder, renderDevice, settings)
    ensures var cmd := Command(fileIn, fileOut, encoder, renderDevice, cores, settings);
      && ("-threads" in cmd <==> encoder in {"libx264", "libx265"} && cores > 1)
      && (encoder in {"libx264", "libx265"} && cores > 1 ==>
            cmd[12] == "-threads" && cmd[13] == NatToString(cores - 1))
  {
    CommandParts(fileIn, fileOut, encoder, renderDevice, cores, settings);
    ThreadsInEncoderArgs(encoder, settings.videoQuality, cores);
    var head := ["ffmpeg", "-hide_banner", "-loglevel", "info", "-i", fileIn]
                + VaapiDeviceArgs(encoder, renderDevice) + ["-c:v", encoder];
    var tail := BitrateArgs(encoder, settings.bitrate, settings.maxBitrate)
                + AudioArgs(settings.audioCodec, settings.audioBitrate) + ["-y", fileOut];
    assert "-threads" !in head;
    assert "-threads" !in tail;
    if encoder in {"libx264", "libx265"} {
      assert !EndsWith(encoder, "_vaapi");
    }
  }

  /** Copied audio has no `-b:a`; any other audio codec gets its bitrate. */
  lemma AudioBitrateUnlessCopy(fileIn: string, fileOut: string, encoder: string, renderDevice: string,
                               cores: nat, settings: Settings)
    requires "-b:a" !in SuppliedTexts(fileIn, fileOut, encoder, renderDevice, settings)
    ensures var cmd := Command(fileIn, fileOut, encoder, renderDevice, cores, settings);
      && (settings.audioCodec == "copy" ==> "-b:a" !in cmd && cmd[|cmd| - 4..|cmd| - 2] == ["-c:a", "copy"])
      && (settings.audioCodec != "copy" ==>
            cmd[|cmd| - 6..|cmd| - 2] == ["-c:a", settings.audioCodec, "-b:a", settings.audioBitrate])
  {
    CommandParts(fileIn, fileOut, encoder, renderDevice, cores, settings);
    DigitsAreNotFlags(if cores > 0 then cores - 1 else 0);
    var head := ["ffmpeg", "-hide_banner", "-loglevel", "info", "-i", fileIn]
                + VaapiDeviceArgs(encoder, renderDevice) + ["-c:v", encoder];
    assert "-b:a" !in head;
    assert "-b:a" !in EncoderArgs(encoder, settings.videoQuality, cores);
    assert "-b:a" !in BitrateArgs(encoder, settings.bitrate, settings.maxBitrate);
  }

  /** The encoder and its kind for a run of `on_worker_process`. */
  function ChosenEncoder(settings: Settings, lspci: Run, dri: DirListing, ffmpegEncoders: Run,
                         cpuinfo: Option<string>, ffprobe: Run): (string, string)
  {
    GetEncoder(ResolveCodec(settings.targetCodec, ffprobe), DetectedGpu(lspci, dri, ffmpegEncoders),
               DetectAmdCpu(cpuinfo), settings.encodingMode, settings.preferAmfOverVaapi)
  }

  /** The command `on_worker_process` writes for an input and output file. */
  function TranscodeCommand(fileIn: string, fileOut: string, settings: Settings, lspci: Run,
                            dri: DirListing, ffmpegEncoders: Run, cpuinfo: Option<string>,
                            ffprobe: Run): seq<string>
  {
    Command(fileIn, fileOut, ChosenEncoder(settings, lspci, dri, ffmpegEncoders, cpuinfo, ffprobe).0,
            DetectedGpu(lspci, dri, ffmpegEncoders).renderDevice, DetectAmdCpu(cpuinfo).cores, settings)
  }

  /** The line logged to the worker for a mode and encoder. */
  function LogLine(mode: string, encoder: (string, string)): string {
    "[AMD] Mode: " + mode + ", Encoder: " + encoder.0 + " (" + encoder.1 + ")"
  }

  /** The runner data after `on_worker_process` found both files. */
  function Processed(entries: map<string, Value>, fileIn: string, fileOut: string, settings: Settings,
                     lspci: Run, dri: DirListing, ffmpegEncoders: Run, cpuinfo: Option<string>,
                     ffprobe: Run): map<string, Value>
    requires LogIsList(entries)
  {
    Recorded(entries, TranscodeCommand(fileIn, fileOut, settings, lspci, dri, ffmpegEncoders, cpuinfo, ffprobe),
             [LogLine(settings.encodingMode, ChosenEncoder(settings, lspci, dri, ffmpegEncoders, cpuinfo, ffprobe))])
  }

  /** ffprobe's answer matters only when the target codec is 'copy'. */
  lemma SourceCodecOnlyForCopy(fileIn: string, fileOut: string, settings: Settings, lspci: Run,
                               dri: DirListing, ffmpegEncoders: Run, cpuinfo: Option<string>,
                               ffprobe1: Run, ffprobe2: Run)
    requires settings.targetCodec != "copy"
    ensures TranscodeCommand(fileIn, fileOut, settings, lspci, dri, ffmpegEncoders, cpuinfo, ffprobe1)
            == TranscodeCommand(fileIn, fileOut, settings, lspci, dri, ffmpegEncoders, cpuinfo, ffprobe2)
  {
  }

  /** The command-building steps of `on_worker_process`, in order. */
  method BuildCommand(fileIn: string, fileOut: string, encoder: string, renderDevice: string,
                      cores: nat, settings: Settings) returns (cmd: seq<string>)
    ensures cmd == Command(fileIn, fileOut, encoder, renderDevice, cores, settings)
  {
    cmd := ["ffmpeg", "-hide_banner", "-loglevel", "info", "-i", fileIn];
    ghost var prefix := cmd;
    if EndsWith(encoder, "_vaapi") {
      cmd := cmd + ["-vaapi_device", renderDevice];
      cmd := cmd + ["-hwaccel", "vaapi"];
      cmd := cmd + ["-hwaccel_output_format", "vaapi"];
    }
    cmd := cmd + ["-c:v", encoder];
    ghost var beforeParams := cmd;
    assert beforeParams == prefix + VaapiDeviceArgs(encoder, renderDevice) + ["-c:v", encoder];
    if EndsWith(encoder, "_amf") {
      cmd := cmd + ["-quality", settings.videoQuality, "-rc", "vbr"];
    } else if EndsWith(encoder, "_vaapi") {
      cmd := cmd + ["-qp", "23"];
    } else if encoder == "libx264" {
      cmd := cmd + ["-preset", "medium", "-crf", "23"];
      if cores > 1 {
        cmd := cmd + ["-threads", NatToString(cores - 1)];
      }
    } else if encoder == "libx265" {
      cmd := cmd + ["-preset", "medium", "-crf", "25"];
      if cores > 1 {
        cmd := cmd + ["-threads", NatToString(cores - 1)];
      }
    }
    assert cmd == beforeParams + EncoderArgs(encoder, settings.videoQuality, cores);
    ghost var beforeBitrate := cmd;
    if EndsWith(encoder, "_amf") || EndsWith(encoder, "_vaapi") {
      cmd := cmd + ["-b:v", settings.bitrate, "-maxrate", settings.maxBitrate];
    }
    assert cmd == beforeBitrate + BitrateArgs(encoder, settings.bitrate, settings.maxBitrate);
    if settings.audioCodec == "copy" {
      cmd := cmd + ["-c:a", "copy"];
    } else {
      cmd := cmd + ["-c:a", settings.audioCodec, "-b:a", settings.audioBitrate];
    }
    cmd := cmd + ["-y", fileOut];
  }

  /** `on_worker_process`: without a (truthy) input and output file the data
      is left as it is; otherwise 'exec_command' is set to the command and the
      choice is logged to the worker. */
  method OnWorkerProcess(data: RunnerData, settings: Settings, lspci: Run, dri: DirListing,
                         ffmpegEncoders: Run, cpuinfo: Option<string>, ffprobe: Run)
    requires TextWhenTruthy(data.entries, "file_in") && TextWhenTruthy(data.entries, "file_out")
    requires LogIsList(data.entries)
    modifies data
    ensures TruthyText(old(data.entries), "file_in").None? || TruthyText(old(data.entries), "file_out").None?
            ==> data.entries == old(data.entries)
    ensures TruthyText(old(data.entries), "file_in").Some? && TruthyText(old(data.entries), "file_out").Some?
            ==> data.entries == Processed(old(data.entries), TruthyText(old(data.entries), "file_in").value,
                                          TruthyText(old(data.entries), "file_out").value,
                                          settings, lspci, dri, ffmpegEncoders, cpuinfo, ffprobe)
  {
    var fileIn := TruthyText(data.entries, "file_in");
    var fileOut := TruthyText(data.entries, "file_out");
    if fileIn.None? || fileOut.None? {
      return;
    }
    Transcode(data, settings, fileIn.value, fileOut.value, lspci, dri, ffmpegEncoders, cpuinfo, ffprobe);
  }

  /** The encoder for the target codec, which for 'copy' is the source's. */
  method ChooseEncoder(settings: Settings, gpu: GpuInfo, cpu: CpuInfo, ffprobe: Run)
    returns (encoder: string, encoderType: string)
    ensures (encoder, encoderType)
            == GetEncoder(ResolveCodec(settings.targetCodec, ffprobe), gpu, cpu, settings.encodingMode,
                          settings.preferAmfOverVaapi)
  {
    var targetCodec := settings.targetCodec;
    if targetCodec == "copy" {
      targetCodec := DetectSourceCodec(ffprobe);
    }
    var chosen := GetEncoder(targetCodec, gpu, cpu, settings.encodingMode, settings.preferAmfOverVaapi);
    encoder, encoderType := chosen.0, chosen.1;
  }

  /** The part of `on_worker_process` after both files were found. */
  method Transcode(data: RunnerData, settings: Settings, fileIn: string, fileOut: string, lspci: Run,
                   dri: DirListing, ffmpegEncoders: Run, cpuinfo: Option<string>, ffprobe: Run)
    requires LogIsList(data.entries)
    modifies data
    ensures data.entries == Processed(old(data.entries), fileIn, fileOut, settings, lspci, dri,
                                      ffmpegEncoders, cpuinfo, ffprobe)
  {
    var gpu := DetectAmdGpu(lspci, dri, ffmpegEncoders);
    var cpu := DetectAmdCpu(cpuinfo);
    var mode := settings.encodingMode;
    var encoder, encoderType := ChooseEncoder(settings, gpu, cpu, ffprobe);

    var cmd := BuildCommand(fileIn, fileOut, encoder, gpu.renderDevice, cpu.cores, settings);
    assert cmd == TranscodeCommand(fileIn, fileOut, settings, lspci, dri, ffmpegEncoders, cpuinfo, ffprobe);
    var entries := data.entries["exec_command" := List(cmd)];
    if "worker_log" in entries {
      var log := entries["worker_log"].items;
      entries := entries["worker_log" := List(log + [LogLine(mode, (encoder, encoderType))])];
    }
    assert entries == Processed(data.entries, fileIn, fileOut, settings, lspci, dri,
                                ffmpegEncoders, cpuinfo, ffprobe);
    data.entries := entries;
  }
}
