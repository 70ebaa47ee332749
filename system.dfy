/** Unmanic's system-information service: the host's Python version, its
    platform, its CPU and the GPUs the hardware-acceleration handle finds,
    each worked out once and then served from the object's own fields. */
module SystemInfo {

  import opened Common
  import opened HardwareAcceleration

  /** What a GPU can decode, which ffmpeg encoders drive it, and the pixel
      formats it handles. */
  datatype Capabilities = Capabilities(decoding: seq<string>, encoding: seq<string>, formats: seq<string>)

  const NoCapabilities := Capabilities([], [], [])

  const FullDecoding := ["h264", "hevc", "vp8", "vp9", "av1"]
  const FullFormats := ["nv12", "p010", "yuv420p"]
  const VaapiEncoders := ["h264_vaapi", "hevc_vaapi", "av1_vaapi", "vp9_vaapi"]
  const AmfEncoders := ["h264_amf", "hevc_amf", "av1_amf"]

  /** `__get_gpu_capabilities`: by the device's hwaccel type and, for VAAPI,
      its vendor. */
  function GpuCapabilities(device: Device): (c: Capabilities)
    ensures c.encoding == [] <==> Field(device, "hwaccel", "unknown") !in {"cuda", "vaapi"}
    ensures "p010" in c.formats <==> "av1" in c.decoding
  {
    var hwType := Field(device, "hwaccel", "unknown");
    var vendor := Field(device, "vendor", "unknown");
    if hwType == "cuda" then
      Capabilities(FullDecoding, ["h264_nvenc", "hevc_nvenc", "av1_nvenc"], FullFormats)
    else if hwType == "vaapi" then
      if vendor == "AMD" then Capabilities(FullDecoding, VaapiEncoders + AmfEncoders, FullFormats)
      else if vendor == "Intel" then Capabilities(FullDecoding, VaapiEncoders, FullFormats)
      else Capabilities(["h264", "hevc", "vp8", "vp9"], ["h264_vaapi", "hevc_vaapi"], ["nv12", "yuv420p"])
    else NoCapabilities
  }

  /** Only CUDA and VAAPI devices have capabilities, and those always
      decode and encode something. */
  lemma CapabilitiesOnlyForGpuTypes(device: Device)
    ensures var c := GpuCapabilities(device);
      && (Field(device, "hwaccel", "unknown") !in {"cuda", "vaapi"} <==> c == NoCapabilities)
      && (Field(device, "hwaccel", "unknown") in {"cuda", "vaapi"} ==> c.decoding != [] && c.encoding != [])
  {
  }

  /** A CUDA device is driven by NVENC encoders. */
  lemma CudaEncodersAreNvenc(device: Device)
    requires Field(device, "hwaccel", "unknown") == "cuda"
    ensures var c := GpuCapabilities(device);
      forall k :: 0 <= k < |c.encoding| ==> EndsWith(c.encoding[k], "_nvenc")
  {
  }

  /** A VAAPI device is driven by VAAPI encoders, and an AMD one also by AMF. */
  lemma VaapiEncodersByVendor(device: Device)
    requires Field(device, "hwaccel", "unknown") == "vaapi"
    ensures var c := GpuCapabilities(device);
      forall k :: 0 <= k < |c.encoding| ==>
        EndsWith(c.encoding[k], "_vaapi") || (Field(device, "vendor", "unknown") == "AMD" && EndsWith(c.encoding[k], "_amf"))
  {
  }

  /** Among VAAPI devices a generic vendor's capabilities are within Intel's,
      and AMD's are Intel's plus the AMF encoders. */
  lemma VaapiVendorTiers(generic: Device, intel: Device, amd: Device)
    requires Field(generic, "hwaccel", "unknown") == "vaapi" && Field(generic, "vendor", "unknown") !in {"AMD", "Intel"}
    requires Field(intel, "hwaccel", "unknown") == "vaapi" && Field(intel, "vendor", "unknown") == "Intel"
    requires Field(amd, "hwaccel", "unknown") == "vaapi" && Field(amd, "vendor", "unknown") == "AMD"
    ensures var g, i, a := GpuCapabilities(generic), GpuCapabilities(intel), GpuCapabilities(amd);
      && (forall x :: x in g.decoding ==> x in i.decoding)
      && (forall x :: x in g.encoding ==> x in i.encoding)
      && (forall x :: x in g.formats ==> x in i.formats)
      && a.decoding == i.decoding && a.formats == i.formats
      && a.encoding == i.encoding + AmfEncoders
      && "av1" !in g.decoding && "p010" !in g.formats && g.encoding == ["h264_vaapi", "hevc_vaapi"]
  {
  }

  /** One entry of `gpu_info`: the device's fields, 'unknown' where missing. */
  datatype GpuRecord = GpuRecord(hwType: string, vendor: string, model: string, driver: string,
                                 devicePath: string, deviceName: string, capabilities: Capabilities)

  function GpuRecordOf(device: Device): GpuRecord {
    GpuRecord(Field(device, "hwaccel", "unknown"), Field(device, "vendor", "unknown"),
              Field(device, "model", "unknown"), Field(device, "driver", "unknown"),
              Field(device, "hwaccel_device", "unknown"), Field(device, "device_name", "unknown"),
              GpuCapabilities(device))
  }

  /** What `__get_gpu_info` returns: a record per device the handle lists, in
      its order, or nothing when listing raised. */
  function GpuInfo(cudaDevices: seq<Device>, dri: DirListing, sysfs: Sysfs): seq<GpuRecord> {
    match HwaccelDevices(cudaDevices, dri, sysfs)
    case Raised => []
    case Returned(devices) => seq(|devices|, k requires 0 <= k < |devices| => GpuRecordOf(devices[k]))
  }

  /** Every render node of a readable /dev/dri shows up as a VAAPI record
      naming that node, after the CUDA records. */
  lemma GpuInfoListsRenderNodes(cudaDevices: seq<Device>, entries: seq<string>, sysfs: Sysfs, e: string)
    requires e in entries && StartsWith(e, "render") && '/' !in e
    ensures exists k :: |cudaDevices| <= k < |GpuInfo(cudaDevices, Listed(entries), sysfs)|
              && GpuInfo(cudaDevices, Listed(entries), sysfs)[k].hwType == "vaapi"
              && GpuInfo(cudaDevices, Listed(entries), sysfs)[k].devicePath == "/dev/dri/" + e
              && GpuInfo(cudaDevices, Listed(entries), sysfs)[k].deviceName == e
  {
    var vaapi := VaapiDeviceList(entries, sysfs);
    var d := VaapiDevice(e, sysfs);
    assert d in vaapi by { RenderNodeListed(entries, sysfs, e); }
    var j :| 0 <= j < |vaapi| && vaapi[j] == d;
    VaapiDeviceFields(e, sysfs);
    var devices := cudaDevices + vaapi;
    assert devices[|cudaDevices| + j] == d;
    var info := GpuInfo(cudaDevices, Listed(entries), sysfs);
    assert info[|cudaDevices| + j] == GpuRecordOf(d);
  }

  /** The CPU description the `cpuinfo` library returns (outside the model). */
  type CpuDescription = map<string, string>

  /** `platform.uname()` */
  datatype Uname = Uname(system: string, node: string, release: string, version: string, machine: string)

  /** `sys.version_info` */
  datatype VersionInfo = VersionInfo(major: nat, minor: nat, micro: nat, releaseLevel: string, serial: nat)

  /** The five fields of a version, as text. */
  function VersionFields(v: VersionInfo): seq<string> {
    [NatToString(v.major), NatToString(v.minor), NatToString(v.micro), v.releaseLevel, NatToString(v.serial)]
  }

  /** `"{0}.{1}.{2}.{3}.{4}".format(*sys.version_info)`: the fields joined by dots. */
  function VersionText(v: VersionInfo): (text: string)
    ensures text != ""
  {
    Join(VersionFields(v), '.')
  }

  /** The version text splits at its dots back into the five fields, whose
      numbers read back as the version's numbers. */
  lemma VersionTextFields(v: VersionInfo)
    requires '.' !in v.releaseLevel
    ensures var parts := Split(VersionText(v), '.');
      && parts == VersionFields(v)
      && ParseDigits(parts[0]) == v.major && ParseDigits(parts[1]) == v.minor
      && ParseDigits(parts[2]) == v.micro && ParseDigits(parts[4]) == v.serial
  {
    var parts := VersionFields(v);
    forall k | 0 <= k < |parts| && k != 3 ensures '.' !in parts[k] {
      var s := parts[k];
      assert forall j :: 0 <= j < |s| ==> '0' <= s[j] <= '9';
    }
    SplitJoin(parts, '.');
    ParseNatToString(v.major);
    ParseNatToString(v.minor);
    ParseNatToString(v.micro);
    ParseNatToString(v.serial);
  }

  /** The `devices` entry of the information. */
  datatype DevicesInfo = DevicesInfo(cpuInfo: CpuDescription, gpuInfo: seq<GpuRecord>)

  /** What `info` returns. */
  datatype Summary = Summary(devices: DevicesInfo, platform: Uname, python: string)

  /** The service. Each part of the information starts empty (the class's
      empty dicts) and is filled on first use, after which it is served as is. */
  class System {
    var devices: Option<DevicesInfo>
    var platform: Option<Uname>
    var pythonVersion: string

    constructor ()
      ensures devices == None && platform == None && pythonVersion == ""
    {
      devices := None;
      platform := None;
      pythonVersion := "";
    }

    /** Every part has been worked out. */
    predicate Cached()
      reads this
    {
      devices.Some? && platform.Some? && pythonVersion != ""
    }

    /** The information as the fields hold it. */
    function CachedSummary(): Summary
      reads this
      requires Cached()
    {
      Summary(devices.value, platform.value, pythonVersion)
    }

    /** `__get_python_info` */
    method GetPythonInfo(version: VersionInfo) returns (r: string)
      modifies this`pythonVersion
      ensures old(pythonVersion) != "" ==> pythonVersion == old(pythonVersion)
      ensures old(pythonVersion) == "" ==> pythonVersion == VersionText(version)
      ensures r == pythonVersion && r != ""
    {
      if pythonVersion == "" {
        pythonVersion := Join(VersionFields(version), '.');
      }
      r := pythonVersion;
    }

    /** `__get_gpu_info`: a fresh handle lists the devices; each becomes a
        record. A raising listing leaves the list empty. */
    method GetGpuInfo(cudaDevices: seq<Device>, dri: DirListing, sysfs: Sysfs) returns (r: seq<GpuRecord>)
      ensures r == GpuInfo(cudaDevices, dri, sysfs)
    {
      r := [];
      var handle := new HardwareAccelerationHandle();
      var listed := handle.GetHwaccelDevices(cudaDevices, dri, sysfs);
      if listed.Raised? {
        return;
      }
      var devices := listed.value;
      var i := 0;
      while i < |devices|
        invariant 0 <= i <= |devices|
        invariant |r| == i
        invariant forall k :: 0 <= k < i ==> r[k] == GpuRecordOf(devices[k])
      {
        var device := devices[i];
        var record := GpuRecord(Field(device, "hwaccel", "unknown"), Field(device, "vendor", "unknown"),
                                Field(device, "model", "unknown"), Field(device, "driver", "unknown"),
                                Field(device, "hwaccel_device", "unknown"),
                                Field(device, "device_name", "unknown"), GpuCapabilities(device));
        r := r + [record];
        i := i + 1;
      }
    }

    /** `__get_devices_info` */
    method GetDevicesInfo(cpu: CpuDescription, cudaDevices: seq<Device>, dri: DirListing, sysfs: Sysfs)
      returns (r: DevicesInfo)
      modifies this`devices
      ensures old(devices).Some? ==> devices == old(devices)
      ensures old(devices).None? ==> devices == Some(DevicesInfo(cpu, GpuInfo(cudaDevices, dri, sysfs)))
      ensures devices == Some(r)
    {
      if devices.None? {
        var gpus := GetGpuInfo(cudaDevices, dri, sysfs);
        devices := Some(DevicesInfo(cpu, gpus));
      }
      r := devices.value;
    }

    /** `__get_platform_info` */
    method GetPlatformInfo(uname: Uname) returns (r: Uname)
      modifies this`platform
      ensures old(platform).Some? ==> platform == old(platform)
      ensures old(platform).None? ==> platform == Some(uname)
      ensures platform == Some(r)
    {
      if platform.None? {
        platform := Some(uname);
      }
      r := platform.value;
    }

    /** `info`: the three parts, each worked out on first use. Once they are,
        every later call returns the same information, whatever the host
        reports then. */
    method Info(cpu: CpuDescription, cudaDevices: seq<Device>, dri: DirListing, sysfs: Sysfs,
                uname: Uname, version: VersionInfo) returns (r: Summary)
      modifies this`devices, this`platform, this`pythonVersion
      ensures Cached() && r == CachedSummary()
      ensures old(Cached()) ==> r == old(CachedSummary())
      ensures old(devices).None? ==> r.devices == DevicesInfo(cpu, GpuInfo(cudaDevices, dri, sysfs))
      ensures old(platform).None? ==> r.platform == uname
      ensures old(pythonVersion) == "" ==> r.python == VersionText(version)
    {
      var d := GetDevicesInfo(cpu, cudaDevices, dri, sysfs);
      var p := GetPlatformInfo(uname);
      var v := GetPythonInfo(version);
      r := Summary(d, p, v);
    }
  }
}
