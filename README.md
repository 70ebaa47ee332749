# AMD hardware acceleration in Unmanic, modelled in Dafny

This project models the parts of Unmanic, the library optimiser, that decide how a
transcode uses an AMD (or other) GPU:

- **HardwareAcceleration** (`hardware_acceleration.dfy`) models `HardwareAccelerationHandle`, the unffmpeg helper. It lists the host's CUDA and VAAPI devices and identifies each render node's vendor, model and driver from sysfs. It also turns the configured device, encoder and decoding flag into ffmpeg main and advanced options.
- **TranscodeAmdV2** (`transcode_amd_v2.dfy`) models the second AMD transcoding plugin. It detects an AMD GPU (lspci, `/dev/dri`, `ffmpeg -encoders`) and an AMD CPU (`/proc/cpuinfo`). It then picks an AMF, VAAPI or software encoder from the encoding mode and writes the ffmpeg command into the runner data.
- **TranscodeAmd** (`transcode_amd.dfy`) models the first AMD plugin. It probes VAAPI and AMF support, keeps the source file's codec, chooses from a four-codec encoder table and writes the command. Its settings come from the runner data itself.
- **SystemInfo** (`system.dfy`) models the `System` service. It reports the Python version, the platform, the CPU and the GPUs the handle finds, with per-device capabilities. Each part is computed once and then served from the object's fields.
- **Runner** (`runner.dfy`) models the runner `data` dictionary that Unmanic hands to a plugin. The plugin updates it in place.
- **Common** (`common.dfy`) holds the Python string and path operations the code relies on: `lower`, `strip`, `in`, `split`, `join`, `count`, `str(int)` and `os.path.basename`. It also holds the outcomes of subprocess runs and directory listings.
- **PluginsCompared** (`plugins_compared.dfy`) relates the two plugins' hardware detection.

The outside world becomes parameters:
- A subprocess run is `Run`: `Exited(returnCode, stdout)`, or `Failed` when the call raises (missing binary, timeout).
- A directory is `DirListing`: `Absent`, `Unreadable` (listing raises) or `Listed(entries)`.
- `/sys/class/drm` is a `Sysfs` value.
- `/proc/cpuinfo` is an optional text.
- The host's CUDA devices, `platform.uname()`, `sys.version_info` and the `cpuinfo` description are all parameters.

State that the source changes in place is modelled with classes:
- `HardwareAccelerationHandle` (its option lists and device)
- `RunnerData` (the runner dictionary)
- `System` (its cached parts)

The model follows the code, including these behaviours:
- In the second plugin, 'gpu_only' mode silently falls back to software encoding exactly like 'auto' (`GpuOnlyIsAuto`). It does not fail.
- The AMD-specific VAAPI generator produces the same options as the generic one (`GenerateAmdVaapiMainArgs`). It has no AMD-only options.

Both plugins decide "AMD GPU" with the same substring test on each lspci line. Because "compatible" contains "ati", every "VGA compatible controller" line counts as AMD, whatever the vendor (`VgaControllerLineCounts`, `AnyVgaControllerDetected`).

## Model

| member | source | states |
|---|---|---|
| Common.StripSpec | plugins/transcode_amd_v2/plugin.py:223 | `strip()` keeps a slice of the input that neither starts nor ends with whitespace, and stripping is idempotent |
| Common.BasenameOfJoin | unmanic/libs/unffmpeg/hardware_acceleration_handle.py:276 | the base name of `/dev/dri/<entry>` is the entry itself when it holds no '/' |
| Common.JoinSplit | plugins/transcode_amd_v2/plugin.py:133 | splitting lspci output at newlines loses nothing: joining the lines gives the output back |
| Common.SplitJoin | unmanic/libs/system.py:53 | fields without the separator, joined and split again, give the same fields |
| Common.CountPositiveIffContains | plugins/transcode_amd_v2/plugin.py:171-173 | `count(sub) > 0` exactly when `sub in s` |
| Common.ParseNatToString | plugins/transcode_amd_v2/plugin.py:300 | `int(str(n)) == n` for the thread count written into the command |
| Common.FirstWithPrefix | plugins/transcode_amd_v2/plugin.py:142-144 | `[f for f in entries if f.startswith(p)][0]` is absent exactly when no entry has the prefix, and otherwise is the first entry that has it |
| Runner.TruthyText | plugins/transcode_amd_v2/plugin.py:254-259 | `data.get(key)` goes on only when truthy, and then it is the non-empty text stored under the key |
| Runner.TextOr | plugins/transcode_amd/plugin.py:175-182 | `data.get(key, default)` is the stored text when present, else the default |
| Runner.RecordedEntries | plugins/transcode_amd_v2/plugin.py:323-328 | a runner sets 'exec_command' to its command, extends an existing worker log by exactly its lines, and changes no other key |
| HardwareAcceleration.VendorName | unmanic/libs/unffmpeg/hardware_acceleration_handle.py:313-318 | 0x1002 gives AMD, 0x8086 Intel and 0x10de NVIDIA; any other id gives exactly 'Unknown (<id>)' |
| HardwareAcceleration.ModaliasVendor | unmanic/libs/unffmpeg/hardware_acceleration_handle.py:344-354 | the lower-cased modalias is checked in the source's order: amd gives AMD; else intel gives Intel; else nvidia gives NVIDIA; none of them keeps the vendor read before |
| HardwareAcceleration.DriverName | unmanic/libs/unffmpeg/hardware_acceleration_handle.py:335-341 | amdgpu, i915, nouveau and nvidia get their readable names, and any other driver keeps its own name |
| HardwareAcceleration.FirstCardSpec | unmanic/libs/unffmpeg/hardware_acceleration_handle.py:285-297 | the card search finds nothing exactly when no non-connector card directory lists the render node, and otherwise it finds the first one that does |
| HardwareAcceleration.VaapiDeviceFields | unmanic/libs/unffmpeg/hardware_acceleration_handle.py:249-259 | a VAAPI device record has type 'vaapi', names its render node's path, and carries the node's own name |
| HardwareAcceleration.VaapiDeviceListSpec | unmanic/libs/unffmpeg/hardware_acceleration_handle.py:246-263 | the VAAPI list holds a record for every 'render*' entry and for nothing else, and its first record belongs to the first render entry |
| HardwareAcceleration.RenderNodeListed | unmanic/libs/unffmpeg/hardware_acceleration_handle.py:247-260 | every render entry of /dev/dri has its record in the list |
| HardwareAcceleration.HardwareAccelerationHandle.constructor | unmanic/libs/unffmpeg/hardware_acceleration_handle.py:43-49 | a new handle has no device, no encoder, decoding off and empty option lists |
| HardwareAcceleration.HardwareAccelerationHandle.GetHwaccelDevices | unmanic/libs/unffmpeg/hardware_acceleration_handle.py:51-66 | the CUDA devices come first, followed by the VAAPI devices; it raises exactly when /dev/dri cannot be listed |
| HardwareAcceleration.HardwareAccelerationHandle.SetHwaccelArgs | unmanic/libs/unffmpeg/hardware_acceleration_handle.py:68-93 | a configured device yields VAAPI or CUDA options by its type, or none for another type. With no device and a VAAPI encoder, the first VAAPI device is adopted and configured, if there is one. Otherwise the main options are cleared |
| HardwareAcceleration.HardwareAccelerationHandle.UpdateMainOptions | unmanic/libs/unffmpeg/hardware_acceleration_handle.py:95-96 | the caller's options are followed by the generated main options |
| HardwareAcceleration.HardwareAccelerationHandle.UpdateAdvancedOptions | unmanic/libs/unffmpeg/hardware_acceleration_handle.py:98-99 | the caller's options are followed by the generated advanced options |
| HardwareAcceleration.HardwareAccelerationHandle.GenerateVaapiMainArgs | unmanic/libs/unffmpeg/hardware_acceleration_handle.py:101-145 | VAAPI options by encoder and decoding flag; an AMD device handed to the AMD generator gets the same options |
| HardwareAcceleration.HardwareAccelerationHandle.GenerateAmdVaapiMainArgs | unmanic/libs/unffmpeg/hardware_acceleration_handle.py:147-182 | the AMD generator yields exactly the generic VAAPI options for every encoder and decoding flag |
| HardwareAcceleration.HardwareAccelerationHandle.GenerateCudaMainArgs | unmanic/libs/unffmpeg/hardware_acceleration_handle.py:184-190 | CUDA decoding options naming the configured device |
| HardwareAcceleration.HardwareAccelerationHandle.DescribeVaapiDevice | unmanic/libs/unffmpeg/hardware_acceleration_handle.py:249-259 | the record built for one render node is that node's device record |
| HardwareAcceleration.HardwareAccelerationHandle.ListAvailableVaapiDevices | unmanic/libs/unffmpeg/hardware_acceleration_handle.py:237-263 | the loop builds the records of the 'render*' entries in listing order; no directory gives none, and an unreadable one raises |
| HardwareAcceleration.HardwareAccelerationHandle.FindCard | unmanic/libs/unffmpeg/hardware_acceleration_handle.py:282-304 | the sysfs card is the first card directory listing the render node, else `card<N>` for `renderD<N>`; there is none exactly when neither applies |
| HardwareAcceleration.HardwareAccelerationHandle.IdentifyVaapiDeviceVendor | unmanic/libs/unffmpeg/hardware_acceleration_handle.py:265-360 | vendor, model and driver come from the matched card's files, and the device name is the node's base name; without /sys/class/drm everything stays 'unknown' |
| HardwareAcceleration.HardwareAccelerationHandle.ReadCard | unmanic/libs/unffmpeg/hardware_acceleration_handle.py:306-354 | the card's vendor, device, driver and modalias files are read in that order, later ones overriding |
| TranscodeAmdV2.VgaControllerLineCounts | plugins/transcode_amd_v2/plugin.py:133-136 | any lspci line naming a VGA compatible controller passes the AMD test, because "compatible" contains "ati" |
| TranscodeAmdV2.AnyVgaControllerDetected | plugins/transcode_amd_v2/plugin.py:120-138 | a successful lspci listing any VGA controller reports an AMD GPU |
| TranscodeAmdV2.DetectAmdGpu | plugins/transcode_amd_v2/plugin.py:120-157 | the line scan stops at the first AMD display line; the render node is the first 'renderD*' entry; AMF and VAAPI support come from ffmpeg's encoder list; a raising step keeps what was found before it |
| TranscodeAmdV2.DetectAmdCpu | plugins/transcode_amd_v2/plugin.py:160-182 | an AMD CPU is reported exactly when the cpuinfo text contains "AMD", and then its core count is the number of 'processor' occurrences; otherwise the count is 0 |
| TranscodeAmdV2.GetEncoder | plugins/transcode_amd_v2/plugin.py:185-210 | the kind is 'gpu' exactly for AMF and VAAPI encoders; an unknown codec gives libx264 on the CPU; software means libx264 or libx265 by codec; 'cpu_only' never uses the GPU; a GPU encoder is chosen only in 'auto' or 'gpu_only' mode with a detected GPU that has AMF (when preferred) or VAAPI |
| TranscodeAmdV2.GpuModePreference | plugins/transcode_amd_v2/plugin.py:202-207 | with a detected GPU in 'auto' or 'gpu_only' mode: AMF when preferred and available, else VAAPI when available, else software |
| TranscodeAmdV2.GpuOnlyIsAuto | plugins/transcode_amd_v2/plugin.py:202-210 | 'gpu_only' chooses exactly as 'auto' does, including the software fallback |
| TranscodeAmdV2.DetectSourceCodec | plugins/transcode_amd_v2/plugin.py:213-231 | the source codec is h264 or hevc, and hevc exactly when ffprobe succeeds and reports hevc or h265 |
| TranscodeAmdV2.ResolveCodec | plugins/transcode_amd_v2/plugin.py:270-272 | the target codec is kept unless it is 'copy', which becomes the source's h264 or hevc |
| TranscodeAmdV2.CommandFrame | plugins/transcode_amd_v2/plugin.py:280-321 | the command starts with ffmpeg reading the input and ends by overwriting the output |
| TranscodeAmdV2.BitrateFlagsNotInEncoderArgs | plugins/transcode_amd_v2/plugin.py:292-304 | no encoder parameter is a bitrate flag |
| TranscodeAmdV2.BitrateOnlyForHardware | plugins/transcode_amd_v2/plugin.py:306-310 | `-b:v` and `-maxrate` are in the command exactly for GPU encoders |
| TranscodeAmdV2.ThreadsInEncoderArgs | plugins/transcode_amd_v2/plugin.py:297-304 | only libx264 and libx265 parameters take `-threads`, only with more than one core, and then followed by cores-1 |
| TranscodeAmdV2.ThreadsOnlyForMulticoreSoftware | plugins/transcode_amd_v2/plugin.py:297-304 | `-threads` is in the command exactly for libx264/libx265 with more than one core, at position 12 followed by cores-1 as text |
| TranscodeAmdV2.AudioBitrateUnlessCopy | plugins/transcode_amd_v2/plugin.py:312-318 | copied audio has no `-b:a`; any other audio codec is followed by its bitrate |
| TranscodeAmdV2.SourceCodecOnlyForCopy | plugins/transcode_amd_v2/plugin.py:270-275 | ffprobe's answer changes the command only when the target codec is 'copy' |
| TranscodeAmdV2.BuildCommand | plugins/transcode_amd_v2/plugin.py:279-321 | the step-by-step command building yields the command: head, encoder parameters, bitrates, audio, output |
| TranscodeAmdV2.ChooseEncoder | plugins/transcode_amd_v2/plugin.py:266-275 | the encoder for the resolved codec under the configured mode and AMF preference |
| TranscodeAmdV2.Transcode | plugins/transcode_amd_v2/plugin.py:261-330 | after detection, 'exec_command' is the command for the chosen encoder, and the choice is logged when there is a worker log |
| TranscodeAmdV2.OnWorkerProcess | plugins/transcode_amd_v2/plugin.py:234-330 | without a truthy input and output file the data is unchanged; otherwise it is recorded as in Transcode |
| TranscodeAmd.DetectAmdGpu | plugins/transcode_amd/plugin.py:48-86 | the line scan stops at the first AMD display line; a render node gives VAAPI support and the device path; ffmpeg's encoders add AMF and VAAPI; a raising step keeps what was found before it |
| TranscodeAmd.RenderNodeMeansVaapi | plugins/transcode_amd/plugin.py:68-72 | any 'renderD*' entry in /dev/dri means VAAPI support on `/dev/dri/renderD…`, whatever lspci and ffmpeg say |
| TranscodeAmd.GetOptimalEncoder | plugins/transcode_amd/plugin.py:89-126 | an unknown codec gets the libx264 default; the chosen encoder name is never an option flag |
| TranscodeAmd.TableRows | plugins/transcode_amd/plugin.py:93-113 | the table knows h264, hevc, av1 and vp9, and only vp9 lacks AMF. AMF encoders end in `_amf` and take the quality setting. VAAPI encoders end in `_vaapi` and take `-qp`. Software encoders end in neither |
| TranscodeAmd.OptimalEncoderChoice | plugins/transcode_amd/plugin.py:115-126 | AMF exactly when preferred, available and the codec has one; VAAPI exactly when available and AMF was not chosen; AMF takes the quality setting and VAAPI takes `-qp`; for a known codec, the AMF, VAAPI or software encoder chosen is that codec's own row of the table, with its parameters |
| TranscodeAmd.GpuDetectionIgnored | plugins/transcode_amd/plugin.py:121-126 | whether lspci found an AMD GPU does not affect the choice |
| TranscodeAmd.DetectSourceCodec | plugins/transcode_amd/plugin.py:129-152 | one of h264, hevc, av1 and vp9; hevc exactly for a zero-exit ffprobe answering hevc or h265; av1 and vp9 exactly for a zero-exit ffprobe answering them; h264 otherwise, including any failed or non-zero run |
| TranscodeAmd.SettingsOf | plugins/transcode_amd/plugin.py:175-182 | settings read from the runner data, with defaults balanced, 2M, 4M and 128k; AMF is preferred unless the data holds a falsy preference; a key present in the data supplies its own text |
| TranscodeAmd.CommandFrame | plugins/transcode_amd/plugin.py:207-228 | the input comes first; hardware decoding options follow it exactly for VAAPI encoders; `-c:v` and the encoder come next, followed at once by the encoder's parameters; aac audio and the overwritten output end the command |
| TranscodeAmd.EncoderParamFlags | plugins/transcode_amd/plugin.py:93-126 | no chosen encoder's parameters hold `-maxrate`, and only libvpx-vp9's hold `-b:v` |
| TranscodeAmd.CommandBitrateFlags | plugins/transcode_amd/plugin.py:207-228 | for an encoder without `-maxrate` among its parameters, `-maxrate` is in the command exactly for GPU encoders and `-b:v` exactly for GPU encoders or parameters holding it |
| TranscodeAmd.BitrateFlags | plugins/transcode_amd/plugin.py:219-222 | `-maxrate` is in the command exactly for GPU encoders; `-b:v` for GPU encoders and for libvpx-vp9 |
| TranscodeAmd.BuildCommand | plugins/transcode_amd/plugin.py:206-228 | the step-by-step command building yields the command |
| TranscodeAmd.Transcode | plugins/transcode_amd/plugin.py:192-236 | 'exec_command' is set to the command; the two log lines are appended, which raises exactly when there is no worker log (after the command was set) |
| TranscodeAmd.OnWorkerProcess | plugins/transcode_amd/plugin.py:155-238 | without a truthy input and output file the data is unchanged and nothing raises; otherwise it is processed as in Transcode |
| SystemInfo.GpuCapabilities | unmanic/libs/system.py:105-142 | a device encodes with something exactly when it is a CUDA or VAAPI device, and it handles the p010 format exactly when it decodes av1 |
| SystemInfo.CapabilitiesOnlyForGpuTypes | unmanic/libs/system.py:112-142 | only CUDA and VAAPI devices have capabilities, and theirs always decode and encode something |
| SystemInfo.CudaEncodersAreNvenc | unmanic/libs/system.py:122-125 | a CUDA device's encoders are all NVENC encoders |
| SystemInfo.VaapiEncodersByVendor | unmanic/libs/system.py:127-140 | a VAAPI device's encoders are VAAPI encoders, plus AMF ones only for AMD |
| SystemInfo.VaapiVendorTiers | unmanic/libs/system.py:127-140 | a generic VAAPI vendor's capabilities are within Intel's, and AMD's are Intel's plus the AMF encoders; any other vendor lacks av1 decoding and the p010 format and gets only the h264 and hevc VAAPI encoders |
| SystemInfo.GpuInfoListsRenderNodes | unmanic/libs/system.py:70-103 | every render node of a readable /dev/dri appears after the CUDA records as a VAAPI record naming that node |
| SystemInfo.VersionText | unmanic/libs/system.py:53 | the version text is never empty, so it is computed only once |
| SystemInfo.VersionTextFields | unmanic/libs/system.py:53 | the version text splits at its dots into the five fields, whose numbers read back as the version's numbers |
| SystemInfo.System.constructor | unmanic/libs/system.py:36-43 | a new service has no cached part |
| SystemInfo.System.GetPythonInfo | unmanic/libs/system.py:45-54 | the version text is computed on first use and then kept |
| SystemInfo.System.GetGpuInfo | unmanic/libs/system.py:70-103 | one record per device the handle lists, in its order, with 'unknown' for missing fields; nothing when the listing raises |
| SystemInfo.System.GetDevicesInfo | unmanic/libs/system.py:56-68 | CPU and GPU information computed on first use and then kept |
| SystemInfo.System.GetPlatformInfo | unmanic/libs/system.py:144-153 | the platform is taken on first use and then kept |
| SystemInfo.System.Info | unmanic/libs/system.py:155-166 | after a call every part is cached; once cached, later calls return the same information whatever the host reports |
| PluginsCompared.DetectionAgrees | plugins/transcode_amd/plugin.py:48-86 | the two plugins agree on the GPU, its render node and AMF; the first also counts any render node as VAAPI support |

## Left out

- CUDA probing through `ctypes` (`list_available_cuda_decoders`) is foreign code; the CUDA devices are a parameter.
- `sorted(os.listdir('/dev/dri'))` in the handle: the listing is given already sorted.
- Unicode: `lower()` folds ASCII letters only, and `strip()` removes ASCII and Latin-1 whitespace only.
- A sysfs file that exists but cannot be read: the handle stops reading at that file and keeps what it read before it, so the later fields stay 'unknown'. The model has files either present with text or absent.
- A device record without 'hwaccel_device': the source puts Python's None into the option list; the model writes the text "None".
- Logging (module loggers, `logger.info`, the warning in `__get_gpu_info`) has no effect on results and is not modelled.
- The second plugin's settings persistence (`PluginSettings`, `get_setting`) is a parameter; the form definitions are UI only.
- `System` is a singleton whose caches are class attributes; the model has one object with those fields.
- `cpuinfo.get_cpu_info()` and `platform.uname()` are libraries outside the model; their results are parameters.
- The unused `ffmpeg` class attribute of `System` and the handle's unused `file_probe` are not modelled.
- The `__main__` blocks of both library files are demos and are not modelled.
- The first plugin's `codec_encoders.get('software', default)` fallback is unreachable, because every table row has a software encoder.
- The first plugin's unused 'fallback_to_software' setting is not modelled.
- Subprocess timeouts are folded into `Failed`.
- The regular expression that extracts the CPU model name in `detect_amd_cpu` only feeds a log line and is not modelled.
- TranscodeAmd.OnWorkerProcess: requires 'video_quality', 'bitrate', 'max_bitrate' and 'audio_bitrate' to hold text when present. The source itself fails only when such a value reaches the command: `' '.join(cmd)` raises on a non-text 'audio_bitrate', on a non-text 'video_quality' with an AMF encoder, and on a non-text 'bitrate' or 'max_bitrate' with a GPU encoder. The model does not cover the runs where a non-text value never reaches a command: with other encoders it goes unused, and without a truthy 'file_in' and 'file_out' the source reads the settings and returns the data untouched, whatever they hold.
- TranscodeAmdV2.OnWorkerProcess: the settings are a parameter, not read from storage.
