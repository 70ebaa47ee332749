/** The hardware-acceleration argument generator of unffmpeg: which ffmpeg
    main and advanced options a transcode gets for its CUDA or VAAPI device,
    and how the host's VAAPI render nodes are listed and identified. */
module HardwareAcceleration {

  import opened Common

  /** A device record as the handle stores it: a dict of text fields
      ('hwaccel', 'hwaccel_device', 'vendor', 'model', 'driver', 'device_name'). */
  type Device = map<string, string>

  /** `d.get(key, default)` */
  function Field(d: Device, key: string, default: string): string {
    if key in d then d[key] else default
  }

  /** `d.get('hwaccel_device')` as it lands in an argument list; a record
      without that key yields Python's None, read here as the text "None". */
  function DevicePath(d: Device): string {
    Field(d, "hwaccel_device", "None")
  }

  /** `video_encoder and "vaapi" in video_encoder.lower()` */
  predicate IsVaapiEncoder(encoder: Option<string>) {
    encoder.Some? && Contains(Lower(encoder.value), "vaapi")
  }

  /** The options a VAAPI device yields: the new `main_options`, and the new
      `advanced_options` given the current ones. With a VAAPI encoder the
      device both (optionally) decodes and encodes through a `vaapi0` handle;
      with any other encoder it only decodes, and the advanced options stay. */
  function VaapiOptions(encoder: Option<string>, hwDecoding: bool, devicePath: string,
                        advanced: seq<string>): (seq<string>, seq<string>)
  {
    if IsVaapiEncoder(encoder) then
      if hwDecoding then
        (["-init_hw_device", "vaapi=vaapi0:" + devicePath,
          "-hwaccel", "vaapi",
          "-hwaccel_output_format", "vaapi",
          "-hwaccel_device", "vaapi0"],
         ["-filter_hw_device", "vaapi0", "-vf", "format=nv12|vaapi,hwupload"])
      else
        (["-vaapi_device", devicePath], ["-vf", "format=nv12|vaapi,hwupload"])
    else
      (["-hwaccel", "vaapi", "-hwaccel_device", devicePath], advanced)
  }

  /** The options a CUDA device yields. */
  function CudaOptions(devicePath: string): seq<string> {
    ["-hwaccel", "cuda", "-hwaccel_device", devicePath]
  }

  // ---------------------------------------------------------------------
  // sysfs: what /sys/class/drm shows about the host's DRM devices

  /** One entry of /sys/class/drm: whether it is a directory, the render
      nodes listed under its device/drm, and the contents of its
      device/vendor, device/device and device/modalias files and the target
      of its device/driver link (None when absent). */
  datatype DrmNode = DrmNode(isDir: bool, renderNodes: set<string>,
                             vendorFile: Option<string>, deviceFile: Option<string>,
                             driverLink: Option<string>, modaliasFile: Option<string>)

  /** /sys/class/drm: its listing (in `os.listdir` order) and its entries by name. */
  datatype Sysfs = Sysfs(drm: DirListing, nodes: map<string, DrmNode>)

  /** What `identify_vaapi_device_vendor` reports about a render node. */
  datatype VendorInfo = VendorInfo(vendor: string, model: string, driver: string, deviceName: string)

  /** The PCI vendor id read from sysfs, as a vendor name. */
  function VendorName(vendorId: string): (name: string)
    ensures name in {"AMD", "Intel", "NVIDIA"} <==> vendorId in {"0x1002", "0x8086", "0x10de"}
    ensures vendorId !in {"0x1002", "0x8086", "0x10de"} ==> name == "Unknown (" + vendorId + ")"
    ensures vendorId == "0x1002" ==> name == "AMD"
    ensures vendorId == "0x8086" ==> name == "Intel"
    ensures vendorId == "0x10de" ==> name == "NVIDIA"
  {
    if vendorId == "0x1002" then "AMD"
    else if vendorId == "0x8086" then "Intel"
    else if vendorId == "0x10de" then "NVIDIA"
    else "Unknown (" + vendorId + ")"
  }

  /** The kernel driver name, as a readable driver name. */
  function DriverName(driver: string): (name: string)
    ensures driver == "amdgpu" ==> name == "AMD GPU Driver"
    ensures driver == "i915" ==> name == "Intel Graphics Driver"
    ensures driver == "nouveau" ==> name == "Nouveau (NVIDIA Open Source)"
    ensures driver == "nvidia" ==> name == "NVIDIA Proprietary Driver"
    ensures driver !in {"amdgpu", "i915", "nouveau", "nvidia"} ==> name == driver
  {
    if driver == "amdgpu" then "AMD GPU Driver"
    else if driver == "i915" then "Intel Graphics Driver"
    else if driver == "nouveau" then "Nouveau (NVIDIA Open Source)"
    else if driver == "nvidia" then "NVIDIA Proprietary Driver"
    else driver
  }

  /** The vendor after the modalias check: a modalias naming amd, intel or
      nvidia (in that order, ignoring case) overrides the vendor read before. */
  function ModaliasVendor(modalias: string, vendor: string): (r: string)
    ensures Contains(Lower(modalias), "amd") ==> r == "AMD"
    ensures !Contains(Lower(modalias), "amd") && Contains(Lower(modalias), "intel") ==> r == "Intel"
    ensures (!Contains(Lower(modalias), "amd") && !Contains(Lower(modalias), "intel")
             && Contains(Lower(modalias), "nvidia")) ==> r == "NVIDIA"
    ensures r != vendor ==> r in {"AMD", "Intel", "NVIDIA"}
    ensures (!Contains(Lower(modalias), "amd") && !Contains(Lower(modalias), "intel")
             && !Contains(Lower(modalias), "nvidia")) ==> r == vendor
  {
    var m := Lower(modalias);
    if Contains(m, "amd") then "AMD"
    else if Contains(m, "intel") then "Intel"
    else if Contains(m, "nvidia") then "NVIDIA"
    else vendor
  }

  /** A /sys/class/drm entry is the card of render node `renderName` when it
      is a card directory (not a connector such as card0-HDMI-A-1) whose
      device/drm lists that render node. */
  predicate IsCardFor(item: string, nodes: map<string, DrmNode>, renderName: string) {
    StartsWith(item, "card") && '-' !in item
    && item in nodes && nodes[item].isDir && renderName in nodes[item].renderNodes
  }

  /** The first entry of the listing that is the card of `renderName`. */
  function FirstCard(items: seq<string>, nodes: map<string, DrmNode>, renderName: string): Option<string>
  {
    if items == [] then None
    else if IsCardFor(items[0], nodes, renderName) then Some(items[0])
    else FirstCard(items[1..], nodes, renderName)
  }

  /** FirstCard finds a card exactly when one is listed, and it is the first one. */
  lemma {:induction false} FirstCardSpec(items: seq<string>, nodes: map<string, DrmNode>, renderName: string)
    ensures FirstCard(items, nodes, renderName).None?
            <==> forall k :: 0 <= k < |items| ==> !IsCardFor(items[k], nodes, renderName)
    ensures FirstCard(items, nodes, renderName).Some? ==>
            exists k :: 0 <= k < |items| && items[k] == FirstCard(items, nodes, renderName).value
                        && IsCardFor(items[k], nodes, renderName)
                        && forall j :: 0 <= j < k ==> !IsCardFor(items[j], nodes, renderName)
  {
    if items != [] && !IsCardFor(items[0], nodes, renderName) {
      FirstCardSpec(items[1..], nodes, renderName);
      var r := FirstCard(items, nodes, renderName);
      if r.Some? {
        var k :| 0 <= k < |items[1..]| && items[1..][k] == r.value && IsCardFor(items[1..][k], nodes, renderName)
                 && forall j :: 0 <= j < k ==> !IsCardFor(items[1..][j], nodes, renderName);
        assert items[k + 1] == r.value;
        forall j | 0 <= j < k + 1 ensures !IsCardFor(items[j], nodes, renderName) {
          if j > 0 { assert items[j] == items[1..][j - 1]; }
        }
      } else {
        forall k | 0 <= k < |items| ensures !IsCardFor(items[k], nodes, renderName) {
          if k > 0 { assert items[k] == items[1..][k - 1]; }
        }
      }
    } else if items != [] {
      assert items[0] == FirstCard(items, nodes, renderName).value;
    }
  }

  /** The sysfs directory read for a render node: its card found in the
      listing, else `card<N>` for `renderD<N>`. */
  function CardName(items: seq<string>, nodes: map<string, DrmNode>, renderName: string): Option<string> {
    var found := FirstCard(items, nodes, renderName);
    if found.Some? then found
    else if StartsWith(renderName, "renderD") then Some("card" + renderName[7..])
    else None
  }

  /** The information read from one card's sysfs files, in the order the
      source reads them: vendor, device, driver, modalias. */
  function ReadCardInfo(node: DrmNode, info: VendorInfo): VendorInfo {
    var withVendor :=
      if node.vendorFile.Some? then info.(vendor := VendorName(Strip(node.vendorFile.value))) else info;
    var withModel :=
      if node.deviceFile.Some? then withVendor.(model := "Device " + Strip(node.deviceFile.value)) else withVendor;
    var withDriver :=
      if node.driverLink.Some? then withModel.(driver := DriverName(Basename(node.driverLink.value))) else withModel;
    if node.modaliasFile.Some? then withDriver.(vendor := ModaliasVendor(Strip(node.modaliasFile.value), withDriver.vendor))
    else withDriver
  }

  /** What `identify_vaapi_device_vendor(device_path)` returns. */
  function VendorInfoOf(devicePath: string, sysfs: Sysfs): VendorInfo {
    var defaults := VendorInfo("unknown", "unknown", "unknown", Basename(devicePath));
    match sysfs.drm
    case Listed(items) =>
      var card := CardName(items, sysfs.nodes, Basename(devicePath));
      if card.Some? && card.value in sysfs.nodes then ReadCardInfo(sysfs.nodes[card.value], defaults)
      else defaults
    case _ => defaults
  }

  /** The record `list_available_vaapi_devices` builds for /dev/dri entry `entry`. */
  function VaapiDevice(entry: string, sysfs: Sysfs): Device {
    var path := "/dev/dri/" + entry;
    var info := VendorInfoOf(path, sysfs);
    map["hwaccel" := "vaapi", "hwaccel_device" := path, "vendor" := info.vendor,
        "model" := info.model, "driver" := info.driver, "device_name" := info.deviceName]
  }

  /** A VAAPI device record names its render node and carries its own file name. */
  lemma VaapiDeviceFields(entry: string, sysfs: Sysfs)
    requires '/' !in entry
    ensures var d := VaapiDevice(entry, sysfs);
      && Field(d, "hwaccel", "") == "vaapi"
      && Field(d, "hwaccel_device", "") == "/dev/dri/" + entry
      && Field(d, "device_name", "") == entry
  {
    assert "/dev/dri/" + entry == "/dev/dri" + "/" + entry;
    BasenameOfJoin("/dev/dri", entry);
  }

  /** The records for the 'render*' entries of a /dev/dri listing, in listing order. */
  function VaapiDeviceList(entries: seq<string>, sysfs: Sysfs): seq<Device> {
    if entries == [] then []
    else
      var last := entries[|entries| - 1];
      var init := VaapiDeviceList(entries[..|entries| - 1], sysfs);
      if StartsWith(last, "render") then init + [VaapiDevice(last, sysfs)] else init
  }

  /** VaapiDeviceList holds a record for every render entry and for nothing
      else, and its first record is that of the first render entry. */
  lemma {:induction false} VaapiDeviceListSpec(entries: seq<string>, sysfs: Sysfs)
    ensures forall d :: d in VaapiDeviceList(entries, sysfs) ==>
              exists e :: e in entries && StartsWith(e, "render") && d == VaapiDevice(e, sysfs)
    ensures forall e :: e in entries && StartsWith(e, "render") ==> VaapiDevice(e, sysfs) in VaapiDeviceList(entries, sysfs)
    ensures VaapiDeviceList(entries, sysfs) != [] ==>
              exists k :: 0 <= k < |entries| && StartsWith(entries[k], "render")
                          && VaapiDeviceList(entries, sysfs)[0] == VaapiDevice(entries[k], sysfs)
                          && forall j :: 0 <= j < k ==> !StartsWith(entries[j], "render")
  {
    if entries != [] {
      var init := entries[..|entries| - 1];
      var last := entries[|entries| - 1];
      VaapiDeviceListSpec(init, sysfs);
      assert entries == init + [last];
      var list := VaapiDeviceList(entries, sysfs);
      var initList := VaapiDeviceList(init, sysfs);
      forall e | e in entries && StartsWith(e, "render") ensures VaapiDevice(e, sysfs) in list {
        if e != last { assert e in init; }
      }
      if list != [] {
        if initList != [] {
          var k :| 0 <= k < |init| && StartsWith(init[k], "render") && initList[0] == VaapiDevice(init[k], sysfs)
                   && forall j :: 0 <= j < k ==> !StartsWith(init[j], "render");
          assert entries[k] == init[k];
          assert list[0] == initList[0];
        } else {
          assert forall e :: e in init ==> !StartsWith(e, "render");
          assert forall j :: 0 <= j < |init| ==> init[j] in init;
          assert entries[|entries| - 1] == last;
        }
      }
    }
  }

  /** What `list_available_vaapi_devices` returns for a /dev/dri listing
      (sorted): no directory gives no devices, an unreadable one raises. */
  function VaapiDevices(dri: DirListing, sysfs: Sysfs): Outcome<seq<Device>> {
    match dri
    case Absent => Returned([])
    case Unreadable => Raised
    case Listed(entries) => Returned(VaapiDeviceList(entries, sysfs))
  }

  /** Every render node in the listing has its record in the device list. */
  lemma RenderNodeListed(entries: seq<string>, sysfs: Sysfs, e: string)
    requires e in entries && StartsWith(e, "render")
    ensures VaapiDevice(e, sysfs) in VaapiDeviceList(entries, sysfs)
  {
    VaapiDeviceListSpec(entries, sysfs);
  }

  /** What `get_hwaccel_devices` returns. */
  function HwaccelDevices(cudaDevices: seq<Device>, dri: DirListing, sysfs: Sysfs): Outcome<seq<Device>> {
    match VaapiDevices(dri, sysfs)
    case Returned(vaapi) => Returned(cudaDevices + vaapi)
    case Raised => Raised
  }

  /** The handle a transcode configures: the caller sets the device, the
      encoder and the decoding flag, then asks for the ffmpeg options. */
  class HardwareAccelerationHandle {
    var enableHardwareAcceleratedDecoding: bool
    var hardwareDevice: Option<Device>
    var videoEncoder: Option<string>
    var mainOptions: seq<string>
    var advancedOptions: seq<string>

    constructor ()
      ensures !enableHardwareAcceleratedDecoding && hardwareDevice == None && videoEncoder == None
      ensures mainOptions == [] && advancedOptions == []
    {
      enableHardwareAcceleratedDecoding := false;
      hardwareDevice := None;
      videoEncoder := None;
      mainOptions := [];
      advancedOptions := [];
    }

    /** `if self.hardware_device:` (a dict is truthy when it is not empty). */
    predicate DeviceSet()
      reads this
    {
      hardwareDevice.Some? && hardwareDevice.value != map[]
    }

    /** The CUDA devices (probed outside the model) followed by the VAAPI
        devices of /dev/dri. */
    method GetHwaccelDevices(cudaDevices: seq<Device>, dri: DirListing, sysfs: Sysfs)
      returns (r: Outcome<seq<Device>>)
      ensures r == HwaccelDevices(cudaDevices, dri, sysfs)
      ensures r.Raised? <==> dri.Unreadable?
      ensures r.Returned? ==> |r.value| >= |cudaDevices| && r.value[..|cudaDevices|] == cudaDevices
    {
      var vaapi := ListAvailableVaapiDevices(dri, sysfs);
      match vaapi
      case Raised => r := Raised;
      case Returned(devices) =>
        r := Returned(cudaDevices + devices);
        assert r.value[..|cudaDevices|] == cudaDevices;
    }

    /** Sets `main_options` (and for VAAPI `advanced_options`, and with no
        device but a VAAPI encoder `hardware_device`). `raised` reports that
        listing /dev/dri raised, which the source lets escape. */
    method SetHwaccelArgs(dri: DirListing, sysfs: Sysfs) returns (raised: bool)
      modifies this`mainOptions, this`advancedOptions, this`hardwareDevice
      // a configured device: options by its hwaccel type
      ensures old(DeviceSet()) ==> !raised && hardwareDevice == old(hardwareDevice)
      ensures old(DeviceSet()) && Field(hardwareDevice.value, "hwaccel", "") == "vaapi" ==>
                (mainOptions, advancedOptions)
                == VaapiOptions(videoEncoder, enableHardwareAcceleratedDecoding,
                                DevicePath(hardwareDevice.value), old(advancedOptions))
      ensures old(DeviceSet()) && Field(hardwareDevice.value, "hwaccel", "") == "cuda" ==>
                mainOptions == CudaOptions(DevicePath(hardwareDevice.value))
                && advancedOptions == old(advancedOptions)
      ensures old(DeviceSet()) && Field(hardwareDevice.value, "hwaccel", "") !in {"vaapi", "cuda"} ==>
                mainOptions == [] && advancedOptions == old(advancedOptions)
      // no device and no VAAPI encoder: nothing
      ensures !old(DeviceSet()) && !IsVaapiEncoder(videoEncoder) ==>
                !raised && mainOptions == [] && advancedOptions == old(advancedOptions)
                && hardwareDevice == old(hardwareDevice)
      // no device but a VAAPI encoder: the first VAAPI device, if any
      ensures !old(DeviceSet()) && IsVaapiEncoder(videoEncoder) ==>
                raised == VaapiDevices(dri, sysfs).Raised?
      ensures !old(DeviceSet()) && IsVaapiEncoder(videoEncoder)
              && VaapiDevices(dri, sysfs) in {Raised, Returned([])} ==>
                mainOptions == [] && advancedOptions == old(advancedOptions)
                && hardwareDevice == old(hardwareDevice)
      ensures !old(DeviceSet()) && IsVaapiEncoder(videoEncoder)
              && VaapiDevices(dri, sysfs).Returned? && VaapiDevices(dri, sysfs).value != [] ==>
                hardwareDevice == Some(VaapiDevices(dri, sysfs).value[0])
                && (mainOptions, advancedOptions)
                   == VaapiOptions(videoEncoder, enableHardwareAcceleratedDecoding,
                                   DevicePath(hardwareDevice.value), old(advancedOptions))
    {
      raised := false;
      mainOptions := [];
      if DeviceSet() {
        var device := hardwareDevice.value;
        if "hwaccel" in device {
          if device["hwaccel"] == "vaapi" {
            GenerateVaapiMainArgs();
          } else if device["hwaccel"] == "cuda" {
            GenerateCudaMainArgs();
          }
        }
      } else {
        if IsVaapiEncoder(videoEncoder) {
          var vaapiDevices := ListAvailableVaapiDevices(dri, sysfs);
          match vaapiDevices
          case Raised =>
            raised := true;
          case Returned(devices) =>
            if devices != [] {
              hardwareDevice := Some(devices[0]);
              GenerateVaapiMainArgs();
            }
        }
      }
    }

    /** `update_main_options`: the caller's options followed by the generated ones. */
    method UpdateMainOptions(options: seq<string>) returns (r: seq<string>)
      ensures r == options + mainOptions
    {
      r := options + mainOptions;
    }

    /** `update_advanced_options`: the caller's options followed by the generated ones. */
    method UpdateAdvancedOptions(options: seq<string>) returns (r: seq<string>)
      ensures r == options + advancedOptions
    {
      r := options + advancedOptions;
    }

    /** VAAPI options; an AMD device is handed to the AMD generator, which
        yields the same options. */
    method GenerateVaapiMainArgs()
      requires hardwareDevice.Some?
      modifies this`mainOptions, this`advancedOptions
      ensures (mainOptions, advancedOptions)
              == VaapiOptions(videoEncoder, enableHardwareAcceleratedDecoding,
                              DevicePath(hardwareDevice.value), old(advancedOptions))
    {
      if DeviceSet() && Field(hardwareDevice.value, "vendor", "") == "AMD" {
        GenerateAmdVaapiMainArgs();
        return;
      }
      var path := DevicePath(hardwareDevice.value);
      if IsVaapiEncoder(videoEncoder) {
        if enableHardwareAcceleratedDecoding {
          mainOptions := ["-init_hw_device", "vaapi=vaapi0:" + path,
                          "-hwaccel", "vaapi",
                          "-hwaccel_output_format", "vaapi",
                          "-hwaccel_device", "vaapi0"];
          advancedOptions := ["-filter_hw_device", "vaapi0", "-vf", "format=nv12|vaapi,hwupload"];
        } else {
          mainOptions := ["-vaapi_device", path];
          advancedOptions := ["-vf", "format=nv12|vaapi,hwupload"];
        }
      } else {
        mainOptions := ["-hwaccel", "vaapi", "-hwaccel_device", path];
      }
    }

    /** The AMD generator, written out separately in the source: for every
        encoder and decoding flag it yields exactly the generic VAAPI options. */
    method GenerateAmdVaapiMainArgs()
      requires hardwareDevice.Some?
      modifies this`mainOptions, this`advancedOptions
      ensures (mainOptions, advancedOptions)
              == VaapiOptions(videoEncoder, enableHardwareAcceleratedDecoding,
                              DevicePath(hardwareDevice.value), old(advancedOptions))
    {
      if videoEncoder.Some? && Contains(Lower(videoEncoder.value), "vaapi") {
        if enableHardwareAcceleratedDecoding {
          mainOptions := ["-init_hw_device", "vaapi=vaapi0:" + Field(hardwareDevice.value, "hwaccel_device", "None"),
                          "-hwaccel", "vaapi",
                          "-hwaccel_output_format", "vaapi",
                          "-hwaccel_device", "vaapi0"];
          advancedOptions := ["-filter_hw_device", "vaapi0", "-vf", "format=nv12|vaapi,hwupload"];
        } else {
          mainOptions := ["-vaapi_device", Field(hardwareDevice.value, "hwaccel_device", "None")];
          advancedOptions := ["-vf", "format=nv12|vaapi,hwupload"];
        }
      } else {
        mainOptions := ["-hwaccel", "vaapi", "-hwaccel_device", Field(hardwareDevice.value, "hwaccel_device", "None")];
      }
    }

    /** CUDA options for the configured device. */
    method GenerateCudaMainArgs()
      requires hardwareDevice.Some?
      modifies this`mainOptions
      ensures mainOptions == CudaOptions(DevicePath(hardwareDevice.value))
    {
      mainOptions := ["-hwaccel", "cuda", "-hwaccel_device", DevicePath(hardwareDevice.value)];
    }

    /** The record `list_available_vaapi_devices` builds for one render node. */
    method DescribeVaapiDevice(device: string, sysfs: Sysfs) returns (deviceData: Device)
      ensures deviceData == VaapiDevice(device, sysfs)
    {
      var devicePath := "/dev/dri/" + device;
      var info := IdentifyVaapiDeviceVendor(devicePath, sysfs);
      deviceData := map["hwaccel" := "vaapi", "hwaccel_device" := devicePath,
                        "vendor" := info.vendor, "model" := info.model,
                        "driver" := info.driver, "device_name" := info.deviceName];
    }

    /** The VAAPI devices: one record per 'render*' entry of the (sorted)
        /dev/dri listing, in order. */
    method ListAvailableVaapiDevices(dri: DirListing, sysfs: Sysfs) returns (r: Outcome<seq<Device>>)
      ensures r == VaapiDevices(dri, sysfs)
    {
      match dri {
        case Absent => r := Returned([]);
        case Unreadable => r := Raised;
        case Listed(entries) =>
          var decoders: seq<Device> := [];
          var i := 0;
          while i < |entries|
            invariant 0 <= i <= |entries|
            invariant decoders == VaapiDeviceList(entries[..i], sysfs)
          {
            var device := entries[i];
            assert entries[..i + 1][..i] == entries[..i];
            if StartsWith(device, "render") {
              var deviceData := DescribeVaapiDevice(device, sysfs);
              decoders := decoders + [deviceData];
            }
            i := i + 1;
          }
          assert entries[..|entries|] == entries;
          r := Returned(decoders);
      }
    }

    /** The /sys/class/drm entry to read for render node `renderName`: the
        first card directory whose device/drm lists the node, else
        `card<N>` for `renderD<N>`. */
    method FindCard(items: seq<string>, nodes: map<string, DrmNode>, renderName: string)
      returns (sysfsPath: Option<string>)
      ensures sysfsPath == CardName(items, nodes, renderName)
      ensures sysfsPath.None? <==>
              !StartsWith(renderName, "renderD") && forall k :: 0 <= k < |items| ==> !IsCardFor(items[k], nodes, renderName)
    {
      FirstCardSpec(items, nodes, renderName);
      sysfsPath := None;
      var i := 0;
      while i < |items|
        invariant 0 <= i <= |items|
        invariant sysfsPath.None? ==> FirstCard(items, nodes, renderName) == FirstCard(items[i..], nodes, renderName)
        invariant sysfsPath.Some? ==> sysfsPath == FirstCard(items, nodes, renderName)
      {
        var item := items[i];
        assert items[i..][1..] == items[i + 1..];
        if StartsWith(item, "card") && '-' !in item && item in nodes && nodes[item].isDir {
          if renderName in nodes[item].renderNodes {
            sysfsPath := Some(item);
            break;
          }
        }
        i := i + 1;
      }
      if sysfsPath.None? {
        if StartsWith(renderName, "renderD") {
          sysfsPath := Some("card" + renderName[7..]);
        }
      }
    }

    /** Vendor, model, driver and name of a render node from sysfs: the card
        whose device/drm lists the node (else `card<N>` for `renderD<N>`). */
    method IdentifyVaapiDeviceVendor(devicePath: string, sysfs: Sysfs) returns (info: VendorInfo)
      ensures info == VendorInfoOf(devicePath, sysfs)
      ensures info.deviceName == Basename(devicePath)
      ensures !sysfs.drm.Listed? ==> info == VendorInfo("unknown", "unknown", "unknown", Basename(devicePath))
    {
      var renderName := Basename(devicePath);
      info := VendorInfo("unknown", "unknown", "unknown", renderName);
      if !sysfs.drm.Listed? {
        return;
      }
      var sysfsPath := FindCard(sysfs.drm.entries, sysfs.nodes, renderName);
      if sysfsPath.Some? && sysfsPath.value in sysfs.nodes {
        info := ReadCard(sysfs.nodes[sysfsPath.value], info);
      }
    }

    /** Reads one card's vendor, device, driver and modalias files, in that order. */
    method ReadCard(node: DrmNode, info0: VendorInfo) returns (info: VendorInfo)
      ensures info == ReadCardInfo(node, info0)
    {
      info := info0;
      if node.vendorFile.Some? {
        info := info.(vendor := VendorName(Strip(node.vendorFile.value)));
      }
      if node.deviceFile.Some? {
        info := info.(model := "Device " + Strip(node.deviceFile.value));
      }
      if node.driverLink.Some? {
        var driverName := Basename(node.driverLink.value);
        info := info.(driver := DriverName(driverName));
      }
      if node.modaliasFile.Some? {
        var modalias := Lower(Strip(node.modaliasFile.value));
        if Contains(modalias, "amd") {
          info := info.(vendor := "AMD");
        } else if Contains(modalias, "intel") {
          info := info.(vendor := "Intel");
        } else if Contains(modalias, "nvidia") {
          info := info.(vendor := "NVIDIA");
        }
      }
    }
  }
}
