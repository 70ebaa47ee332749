/** The two AMD plugins probe the host the same way; they differ only in
    what counts as VAAPI support. */
module PluginsCompared {

  import opened Common
  import TranscodeAmd
  import TranscodeAmdV2

  /** Given the same lspci, /dev/dri and ffmpeg answers, both plugins agree
      on the GPU, its render node and AMF support; the first plugin also
      takes any render node as VAAPI support, the second only ffmpeg's
      h264_vaapi encoder. */
  lemma DetectionAgrees(lspci: Run, dri: DirListing, ffmpegEncoders: Run)
    ensures var v1 := TranscodeAmd.DetectedCapabilities(lspci, dri, ffmpegEncoders);
      var v2 := TranscodeAmdV2.DetectedGpu(lspci, dri, ffmpegEncoders);
      && v1.gpuDetected == v2.detected
      && v1.renderDevice == v2.renderDevice
      && v1.hasAmf == v2.hasAmf
      && (v1.hasVaapi <==>
            (v2.hasVaapi || (lspci.Exited? && dri.Listed? && FirstWithPrefix(dri.entries, "renderD").Some?)))
  {
    if lspci.Exited? {
      var lines := Split(lspci.stdout, '\n');
      forall k | 0 <= k < |lines|
        ensures TranscodeAmd.IsAmdDisplayLine(lines[k]) == TranscodeAmdV2.IsAmdDisplayLine(lines[k])
      {
      }
    }
  }
}
