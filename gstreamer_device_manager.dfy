/**
 * The GStreamer device manager: three sets of native device handles (video
 * sources, audio sources, audio sinks) kept in step with the device monitor,
 * and the lists and lookups the host framework builds from them.
 *
 * A native device is an object whose attributes never change; the manager's
 * effect on its reference count is kept in a ghost map and the "changed"
 * signals it emits in a ghost log. The monitor and its bus, and the parsing
 * of capability structures, are outside the model: a device carries the
 * values that parsing would produce.
 */
module GStreamerDeviceManager {
  import opened Wrappers
  import opened QAudio

  // ----- Native device data -----

  /** A field of a device's property bag. */
  datatype PropValue = StringValue(s: string) | BooleanValue(b: bool) | OtherValue

  type PropertyBag = map<string, PropValue>

  /** The string field `key`, or None when it is absent or not a string. */
  function GetString(bag: PropertyBag, key: string): Option<string> {
    if key in bag && bag[key].StringValue? then Some(bag[key].s) else None
  }

  /** The string field `key` as a byte array would hold it: a missing string reads as empty. */
  function GetStringOr(bag: PropertyBag, key: string): string {
    GetString(bag, key).GetOr("")
  }

  /** The boolean field `key`, or None when it is absent or not a boolean. */
  function GetBoolean(bag: PropertyBag, key: string): Option<bool> {
    if key in bag && bag[key].BooleanValue? then Some(bag[key].b) else None
  }

  /** A width and a height; either may be negative (unset). */
  datatype Size = Size(width: int, height: int) {
    predicate IsValid() {
      width >= 0 && height >= 0
    }
  }

  /** A pixel format as the capability parser names it. */
  datatype PixelFormat = PixelFormat(code: nat)

  /** A frame-rate range; carried along, never computed with. */
  datatype FrameRateRange = FrameRateRange(minimum: real, maximum: real)

  /** What the parser extracts from one capability structure of a device. */
  datatype CapStructure = CapStructure(resolution: Size, pixelFormat: PixelFormat, frameRate: FrameRateRange)

  /** A native device. Its class, name, property bag and capabilities are fixed. */
  class GstDevice {
    const deviceClass: string
    const displayName: string
    const properties: Option<PropertyBag>
    const caps: Option<seq<CapStructure>>

    constructor (deviceClass: string, displayName: string, properties: Option<PropertyBag>, caps: Option<seq<CapStructure>>)
      ensures this.deviceClass == deviceClass && this.displayName == displayName
      ensures this.properties == properties && this.caps == caps
    {
      this.deviceClass := deviceClass;
      this.displayName := displayName;
      this.properties := properties;
      this.caps := caps;
    }
  }

  // ----- Host framework values -----

  datatype AudioDeviceInfo = AudioDeviceInfo(id: string, mode: Mode)

  datatype CameraFormat = CameraFormat(pixelFormat: PixelFormat, resolution: Size, minFrameRate: real, maxFrameRate: real)

  datatype CameraInfo = CameraInfo(
    description: string,
    id: string,
    isDefault: bool,
    videoFormats: seq<CameraFormat>,
    photoResolutions: set<Size>)

  // ----- Categories and signals -----

  const VideoSourceClass := "Video/Source"
  const AudioSourceClass := "Audio/Source"
  const AudioSinkClass := "Audio/Sink"

  datatype Category = VideoSources | AudioSources | AudioSinks

  /** The notifications the host device manager emits. */
  datatype Signal = VideoInputsChanged | AudioInputsChanged | AudioOutputsChanged

  /** The set a device of class `deviceClass` belongs in, if any. */
  function CategoryOf(deviceClass: string): Option<Category> {
    if deviceClass == VideoSourceClass then Some(VideoSources)
    else if deviceClass == AudioSourceClass then Some(AudioSources)
    else if deviceClass == AudioSinkClass then Some(AudioSinks)
    else None
  }

  function SignalFor(c: Category): Signal {
    match c
    case VideoSources => VideoInputsChanged
    case AudioSources => AudioInputsChanged
    case AudioSinks => AudioOutputsChanged
  }

  /** The signals that adding the devices of `s` in order emits. */
  function SignalsOf(s: seq<GstDevice>): seq<Signal> {
    if s == [] then []
    else
      var last := s[|s| - 1];
      SignalsOf(s[..|s| - 1]) + (if CategoryOf(last.deviceClass).Some? then [SignalFor(CategoryOf(last.deviceClass).value)] else [])
  }

  // ----- Properties of single devices -----

  /** The device's property bag says it is the default device. */
  predicate IsDefault(d: GstDevice) {
    d.properties.Some? && GetBoolean(d.properties.value, "is-default") == Some(true)
  }

  /** The property bag, if any, names the device's class as a string. */
  predicate HasClassString(d: GstDevice) {
    d.properties.Some? ==> GetString(d.properties.value, "device.class").Some?
  }

  /** An audio device is listed when it has properties and is not a monitor. */
  predicate IsListedAudio(d: GstDevice) {
    d.properties.Some? && GetString(d.properties.value, "device.class") != Some("monitor")
  }

  function AudioInfoOf(d: GstDevice, mode: Mode): AudioDeviceInfo {
    match d.properties
    case Some(bag) => AudioDeviceInfo(GetStringOr(bag, "sysfs.path"), mode)
    case None => AudioDeviceInfo("", mode)
  }

  /** The device's "sysfs.path" reads as `id`. */
  predicate AudioIdMatches(d: GstDevice, id: string) {
    d.properties.Some? && GetStringOr(d.properties.value, "sysfs.path") == id
  }

  /** The device's "device.path" reads as `id`. */
  predicate CameraIdMatches(d: GstDevice, id: string) {
    d.properties.Some? && GetStringOr(d.properties.value, "device.path") == id
  }

  function DriverOf(d: GstDevice): string {
    match d.properties
    case Some(bag) => GetStringOr(bag, "v4l2.device.driver")
    case None => ""
  }

  // ----- Camera formats -----

  function FormatOf(cap: CapStructure): CameraFormat {
    CameraFormat(cap.pixelFormat, cap.resolution, cap.frameRate.minimum, cap.frameRate.maximum)
  }

  /** The camera formats of the capability structures with a valid resolution, in order. */
  function KeptFormats(caps: seq<CapStructure>): seq<CameraFormat> {
    if caps == [] then []
    else
      var last := caps[|caps| - 1];
      KeptFormats(caps[..|caps| - 1]) + (if last.resolution.IsValid() then [FormatOf(last)] else [])
  }

  /** Exactly the structures with a valid resolution become formats, and at most one each. */
  lemma {:induction false} KeptFormatsExact(caps: seq<CapStructure>)
    ensures |KeptFormats(caps)| <= |caps|
    ensures forall f :: f in KeptFormats(caps) ==> f.resolution.IsValid()
    ensures forall f :: f in KeptFormats(caps) <==>
      exists i :: 0 <= i < |caps| && caps[i].resolution.IsValid() && f == FormatOf(caps[i])
  {
    if caps != [] {
      var front := caps[..|caps| - 1];
      KeptFormatsExact(front);
      forall f | f in KeptFormats(caps)
        ensures exists i :: 0 <= i < |caps| && caps[i].resolution.IsValid() && f == FormatOf(caps[i])
      {
        if f in KeptFormats(front) {
          var i :| 0 <= i < |front| && front[i].resolution.IsValid() && f == FormatOf(front[i]);
          assert caps[i] == front[i];
        } else {
          assert f == FormatOf(caps[|caps| - 1]);
        }
      }
      forall i | 0 <= i < |caps| && caps[i].resolution.IsValid()
        ensures FormatOf(caps[i]) in KeptFormats(caps)
      {
        if i < |front| {
          assert front[i] == caps[i];
        }
      }
    }
  }

  function CameraInfoOf(d: GstDevice): CameraInfo {
    var bag := d.properties.GetOr(map[]);
    var formats := if d.caps.Some? then KeptFormats(d.caps.value) else [];
    CameraInfo(d.displayName, GetStringOr(bag, "device.path"), IsDefault(d), formats,
               set f | f in formats :: f.resolution)
  }

  /**
   * Collects the formats of a device's capability structures: structures
   * without a valid resolution are skipped, and the photo resolutions are the
   * distinct resolutions of the formats kept.
   */
  method CollectFormats(caps: seq<CapStructure>) returns (formats: seq<CameraFormat>, photoResolutions: set<Size>)
    ensures formats == KeptFormats(caps)
    ensures forall f :: f in formats ==> f.resolution.IsValid()
    ensures forall i :: 0 <= i < |caps| && caps[i].resolution.IsValid() ==> FormatOf(caps[i]) in formats
    ensures photoResolutions == set f | f in formats :: f.resolution
  {
    formats := [];
    photoResolutions := {};
    for i := 0 to |caps|
      invariant formats == KeptFormats(caps[..i])
      invariant photoResolutions == set f | f in formats :: f.resolution
    {
      assert caps[..i + 1][..i] == caps[..i];
      var cap := caps[i];
      var resolution := cap.resolution;
      if !resolution.IsValid() {
        continue;
      }
      var f := CameraFormat(cap.pixelFormat, resolution, cap.frameRate.minimum, cap.frameRate.maximum);
      formats := formats + [f];
      photoResolutions := photoResolutions + {resolution};
    }
    assert caps[..|caps|] == caps;
    KeptFormatsExact(caps);
  }

  /**
   * The camera entry for one video source: its display name, its
   * "device.path", its default flag and the formats of its capabilities.
   */
  method CameraInfoFor(d: GstDevice) returns (info: CameraInfo)
    requires d.properties.Some?
    ensures info == CameraInfoOf(d)
    ensures info.isDefault == IsDefault(d)
    ensures forall f :: f in info.videoFormats ==> f.resolution.IsValid()
    ensures info.photoResolutions == set f | f in info.videoFormats :: f.resolution
  {
    var bag := d.properties.value;
    var def := GetBoolean(bag, "is-default").GetOr(false);
    info := CameraInfo(d.displayName, GetStringOr(bag, "device.path"), def, [], {});
    if d.caps.Some? {
      var formats, photoResolutions := CollectFormats(d.caps.value);
      info := info.(videoFormats := formats, photoResolutions := photoResolutions);
    }
  }

  // ----- Ordered lists -----

  predicate NoDuplicates<T(==)>(s: seq<T>) {
    forall i, j :: 0 <= i < j < |s| ==> s[i] != s[j]
  }

  /** Every default device comes before every device that is not the default. */
  predicate DefaultsFirst(order: seq<GstDevice>) {
    forall i, j :: 0 <= i < j < |order| && IsDefault(order[j]) ==> IsDefault(order[i])
  }

  /** Where a listed device goes: to the front when it is the default, else to the back. */
  function Place<T>(s: seq<T>, x: T, isDefault: bool): seq<T> {
    if isDefault then [x] + s else s + [x]
  }

  /** Placing a new device keeps the list free of repeats and its defaults in front. */
  lemma PlaceKeepsOrder(order: seq<GstDevice>, d: GstDevice)
    requires NoDuplicates(order) && DefaultsFirst(order) && d !in order
    ensures NoDuplicates(Place(order, d, IsDefault(d)))
    ensures DefaultsFirst(Place(order, d, IsDefault(d)))
    ensures forall x :: x in Place(order, d, IsDefault(d)) <==> x in order || x == d
  {
  }

  /** Each entry of a placed list is still the entry of the device placed beside it. */
  lemma PlaceKeepsPairs<T, U>(entries: seq<T>, order: seq<U>, e: T, d: U, isDefault: bool, f: U -> T)
    requires |entries| == |order|
    requires forall i :: 0 <= i < |order| ==> entries[i] == f(order[i])
    requires e == f(d)
    ensures |Place(entries, e, isDefault)| == |Place(order, d, isDefault)|
    ensures forall i :: 0 <= i < |Place(order, d, isDefault)| ==>
      Place(entries, e, isDefault)[i] == f(Place(order, d, isDefault)[i])
  {
  }

  /**
   * A list built alongside a repeat-free `order` of exactly the devices of
   * `listed` has one entry per listed device and nothing else.
   */
  lemma EntriesCoverListed<T>(entries: seq<T>, order: seq<GstDevice>, listed: set<GstDevice>, f: GstDevice -> T)
    requires |entries| == |order| && NoDuplicates(order)
    requires forall i :: 0 <= i < |order| ==> entries[i] == f(order[i])
    requires forall d :: d in order <==> d in listed
    ensures |entries| == |listed|
    ensures forall d :: d in listed ==> f(d) in entries
    ensures forall e :: e in entries ==> exists d :: d in listed && e == f(d)
  {
    NoDuplicatesCardinality(order);
    assert (set d | d in order) == listed;
    forall d | d in listed
      ensures f(d) in entries
    {
      var i :| 0 <= i < |order| && order[i] == d;
      assert entries[i] == f(d);
    }
    forall e | e in entries
      ensures exists d :: d in listed && e == f(d)
    {
      var i :| 0 <= i < |entries| && entries[i] == e;
      assert order[i] in order;
    }
  }

  lemma {:induction false} NoDuplicatesCardinality<T>(s: seq<T>)
    requires NoDuplicates(s)
    ensures |set x | x in s| == |s|
  {
    if s != [] {
      NoDuplicatesCardinality(s[1..]);
      assert (set x | x in s) == {s[0]} + (set x | x in s[1..]);
      assert s[0] !in (set x | x in s[1..]);
    }
  }

  /**
   * The audio devices of `deviceSet` as the host framework lists them:
   * devices without properties and monitor devices are skipped, and default
   * devices go to the front. `order` is the device behind each entry.
   */
  method DevicesFromSet(deviceSet: set<GstDevice>, mode: Mode) returns (devices: seq<AudioDeviceInfo>, ghost order: seq<GstDevice>)
    requires forall d :: d in deviceSet ==> HasClassString(d)
    ensures |devices| == |set d | d in deviceSet && IsListedAudio(d)|
    ensures forall d :: d in deviceSet && IsListedAudio(d) ==> AudioInfoOf(d, mode) in devices
    ensures forall e :: e in devices ==> exists d :: d in deviceSet && IsListedAudio(d) && e == AudioInfoOf(d, mode)
    ensures |order| == |devices|
    ensures forall i :: 0 <= i < |order| ==> devices[i] == AudioInfoOf(order[i], mode)
    ensures forall d :: d in order <==> d in deviceSet && IsListedAudio(d)
    ensures NoDuplicates(order)
    ensures DefaultsFirst(order)
  {
    devices, order := [], [];
    var rest := deviceSet;
    while rest != {}
      invariant rest <= deviceSet
      invariant |devices| == |order|
      invariant forall i :: 0 <= i < |order| ==> devices[i] == AudioInfoOf(order[i], mode)
      invariant forall d :: d in order <==> d in deviceSet && d !in rest && IsListedAudio(d)
      invariant NoDuplicates(order)
      invariant DefaultsFirst(order)
    {
      var d :| d in rest;
      if d.properties.Some? {
        var bag := d.properties.value;
        var klass := GetString(bag, "device.class");
        if klass.value != "monitor" {
          var info := AudioDeviceInfo(GetStringOr(bag, "sysfs.path"), mode);
          var def := GetBoolean(bag, "is-default");
          var isDefault := def.Some? && def.value;
          PlaceKeepsOrder(order, d);
          PlaceKeepsPairs(devices, order, info, d, isDefault, (x: GstDevice) => AudioInfoOf(x, mode));
          devices, order := Place(devices, info, isDefault), Place(order, d, isDefault);
        }
      }
      rest := rest - {d};
    }
    EntriesCoverListed(devices, order, (set d | d in deviceSet && IsListedAudio(d)), (x: GstDevice) => AudioInfoOf(x, mode));
  }

  /** `s` after adding `device` to set `c`: it grows only when the device's class names `c`. */
  function Added(s: set<GstDevice>, c: Category, device: GstDevice): set<GstDevice> {
    if CategoryOf(device.deviceClass) == Some(c) then s + {device} else s
  }

  /** `s` after removing `device` from the set `holder` names: only that set shrinks. */
  function Removed(s: set<GstDevice>, c: Category, holder: Option<Category>, device: GstDevice): set<GstDevice> {
    if holder == Some(c) then s - {device} else s
  }

  /** The devices of `s` whose class names set `c`. */
  function Filed(s: seq<GstDevice>, c: Category): set<GstDevice> {
    set d | d in s && CategoryOf(d.deviceClass) == Some(c)
  }

  /** Taking in one more device files it exactly as adding it to the set would. */
  lemma FiledAppend(s: seq<GstDevice>, x: GstDevice)
    ensures forall c :: Filed(s + [x], c) == Added(Filed(s, c), c, x)
    ensures SignalsOf(s + [x]) == SignalsOf(s) + AddSignals(x, true)
  {
  }

  /** Adding a device grows a set by at most one, and not at all when it is already there. */
  lemma AddedGrowsByAtMostOne(s: set<GstDevice>, c: Category, device: GstDevice)
    ensures |Added(s, c, device)| <= |s| + 1
    ensures device in s ==> Added(s, c, device) == s
  {
  }

  /** The signal adding `device` emits: its set's, when it has one and the host manager exists. */
  function AddSignals(device: GstDevice, frontEnd: bool): seq<Signal> {
    match CategoryOf(device.deviceClass)
    case Some(c) => if frontEnd then [SignalFor(c)] else []
    case None => []
  }

  /** The signal a removal emits: that of the set the device was taken from, if any. */
  function RemoveSignals(holder: Option<Category>, frontEnd: bool): seq<Signal> {
    match holder
    case Some(c) => if frontEnd then [SignalFor(c)] else []
    case None => []
  }

  // ----- The manager -----

  class DeviceManager {
    var videoSources: set<GstDevice>
    var audioSources: set<GstDevice>
    var audioSinks: set<GstDevice>
    /** References taken on each device by the manager, less those it released. */
    ghost var refs: map<GstDevice, int>
    /** The signals emitted so far, oldest first. */
    ghost var log: seq<Signal>

    ghost function Refs(d: GstDevice): int
      reads this
    {
      if d in refs then refs[d] else 0
    }

    function DevicesOf(c: Category): set<GstDevice>
      reads this
    {
      match c
      case VideoSources => videoSources
      case AudioSources => audioSources
      case AudioSinks => audioSinks
    }

    /** The first set holding `d`, looked at in the order video, audio source, audio sink. */
    function FirstHolder(d: GstDevice): Option<Category>
      reads this
    {
      if d in videoSources then Some(VideoSources)
      else if d in audioSources then Some(AudioSources)
      else if d in audioSinks then Some(AudioSinks)
      else None
    }

    /** Every device sits in the set its class names. */
    ghost predicate Valid()
      reads this
    {
      && (forall d :: d in videoSources ==> d.deviceClass == VideoSourceClass)
      && (forall d :: d in audioSources ==> d.deviceClass == AudioSourceClass)
      && (forall d :: d in audioSinks ==> d.deviceClass == AudioSinkClass)
    }

    /**
     * Starts with no devices and takes in every device the monitor already
     * knows, releasing the enumeration's reference to each one afterwards.
     * `frontEnd` says whether the host device manager exists to be notified.
     */
    constructor (initial: seq<GstDevice>, frontEnd: bool)
      ensures Valid()
      ensures forall c :: DevicesOf(c) == Filed(initial, c)
      ensures forall d :: Refs(d) == if CategoryOf(d.deviceClass).Some? then 0 else -(multiset(initial)[d] as int)
      ensures log == if frontEnd then SignalsOf(initial) else []
    {
      videoSources, audioSources, audioSinks := {}, {}, {};
      refs, log := map[], [];
      new;
      var devices := initial;
      ghost var k := 0;
      while devices != []
        invariant 0 <= k <= |initial| && devices == initial[k..]
        invariant Valid()
        invariant forall c :: DevicesOf(c) == Filed(initial[..k], c)
        invariant forall d :: Refs(d) == if CategoryOf(d.deviceClass).Some? then 0 else -(multiset(initial[..k])[d] as int)
        invariant log == if frontEnd then SignalsOf(initial[..k]) else []
      {
        var device := devices[0];
        assert initial[..k + 1] == initial[..k] + [device];
        FiledAppend(initial[..k], device);
        TakeInEnumerated(device, frontEnd);
        forall d
          ensures Refs(d) == if CategoryOf(d.deviceClass).Some? then 0 else -(multiset(initial[..k + 1])[d] as int)
        {
          assert multiset(initial[..k + 1])[d] == multiset(initial[..k])[d] + (if d == device then 1 else 0);
        }
        devices := devices[1..];
        k := k + 1;
      }
      assert initial[..k] == initial;
    }

    /**
     * One step of the start-up enumeration: the device is added, then the
     * enumeration's own reference to it is released, so that a filed device
     * ends up held by the manager alone and any other one is let go.
     */
    method TakeInEnumerated(device: GstDevice, frontEnd: bool)
      requires Valid()
      modifies this
      ensures Valid()
      ensures forall c :: DevicesOf(c) == Added(old(DevicesOf(c)), c, device)
      ensures log == old(log) + AddSignals(device, frontEnd)
      ensures Refs(device) == old(Refs(device)) - (if CategoryOf(device.deviceClass).Some? then 0 else 1)
      ensures refs == old(refs)[device := Refs(device)]
    {
      AddDevice(device, frontEnd);
      refs := refs[device := Refs(device) - 1];
    }

    /**
     * Files `device` under the set its class names, taking a reference to
     * it and emitting that set's signal. A device of any other class is
     * left alone and the reference is given back.
     */
    method AddDevice(device: GstDevice, frontEnd: bool)
      requires Valid()
      modifies this
      ensures Valid()
      ensures forall c :: DevicesOf(c) == Added(old(DevicesOf(c)), c, device)
      ensures log == old(log) + AddSignals(device, frontEnd)
      ensures Refs(device) == old(Refs(device)) + (if CategoryOf(device.deviceClass).Some? then 1 else 0)
      ensures refs == old(refs)[device := Refs(device)]
    {
      var klass := device.deviceClass;
      refs := refs[device := Refs(device) + 1];
      if klass == VideoSourceClass {
        videoSources := videoSources + {device};
        if frontEnd {
          log := log + [VideoInputsChanged];
        }
      } else if klass == AudioSourceClass {
        audioSources := audioSources + {device};
        if frontEnd {
          log := log + [AudioInputsChanged];
        }
      } else if klass == AudioSinkClass {
        audioSinks := audioSinks + {device};
        if frontEnd {
          log := log + [AudioOutputsChanged];
        }
      } else {
        refs := refs[device := Refs(device) - 1];
      }
    }

    /**
     * Takes `device` out of the first set that holds it and emits that
     * set's signal; drops one reference to it whether or not it was held.
     */
    method RemoveDevice(device: GstDevice, frontEnd: bool)
      requires Valid()
      modifies this
      ensures Valid()
      ensures old(FirstHolder(device)).Some? ==> old(FirstHolder(device)) == CategoryOf(device.deviceClass)
      ensures forall c :: DevicesOf(c) == Removed(old(DevicesOf(c)), c, old(FirstHolder(device)), device)
      ensures forall c :: device !in DevicesOf(c)
      ensures log == old(log) + RemoveSignals(old(FirstHolder(device)), frontEnd)
      ensures Refs(device) == old(Refs(device)) - 1
      ensures refs == old(refs)[device := Refs(device)]
    {
      if device in videoSources {
        videoSources := videoSources - {device};
        if frontEnd {
          log := log + [VideoInputsChanged];
        }
      } else if device in audioSources {
        audioSources := audioSources - {device};
        if frontEnd {
          log := log + [AudioInputsChanged];
        }
      } else if device in audioSinks {
        audioSinks := audioSinks - {device};
        if frontEnd {
          log := log + [AudioOutputsChanged];
        }
      }
      refs := refs[device := Refs(device) - 1];
    }

    method AudioInputs() returns (devices: seq<AudioDeviceInfo>, ghost order: seq<GstDevice>)
      requires forall d :: d in audioSources ==> HasClassString(d)
      ensures |devices| == |set d | d in audioSources && IsListedAudio(d)|
      ensures forall d :: d in audioSources && IsListedAudio(d) ==> AudioInfoOf(d, AudioInput) in devices
      ensures forall e :: e in devices ==> exists d :: d in audioSources && IsListedAudio(d) && e == AudioInfoOf(d, AudioInput)
      ensures |order| == |devices|
      ensures forall i :: 0 <= i < |order| ==> devices[i] == AudioInfoOf(order[i], AudioInput)
      ensures forall d :: d in order <==> d in audioSources && IsListedAudio(d)
      ensures NoDuplicates(order) && DefaultsFirst(order)
    {
      devices, order := DevicesFromSet(audioSources, AudioInput);
    }

    method AudioOutputs() returns (devices: seq<AudioDeviceInfo>, ghost order: seq<GstDevice>)
      requires forall d :: d in audioSinks ==> HasClassString(d)
      ensures |devices| == |set d | d in audioSinks && IsListedAudio(d)|
      ensures forall d :: d in audioSinks && IsListedAudio(d) ==> AudioInfoOf(d, AudioOutput) in devices
      ensures forall e :: e in devices ==> exists d :: d in audioSinks && IsListedAudio(d) && e == AudioInfoOf(d, AudioOutput)
      ensures |order| == |devices|
      ensures forall i :: 0 <= i < |order| ==> devices[i] == AudioInfoOf(order[i], AudioOutput)
      ensures forall d :: d in order <==> d in audioSinks && IsListedAudio(d)
      ensures NoDuplicates(order) && DefaultsFirst(order)
    {
      devices, order := DevicesFromSet(audioSinks, AudioOutput);
    }

    /**
     * The cameras: every video source with properties, default ones first,
     * each with the formats and photo resolutions of its capabilities.
     */
    method VideoInputs() returns (devices: seq<CameraInfo>, ghost order: seq<GstDevice>)
      ensures |devices| == |set d | d in videoSources && d.properties.Some?|
      ensures forall d :: d in videoSources && d.properties.Some? ==> CameraInfoOf(d) in devices
      ensures forall e :: e in devices ==> exists d :: d in videoSources && d.properties.Some? && e == CameraInfoOf(d)
      ensures forall i, j :: 0 <= i < j < |devices| && devices[j].isDefault ==> devices[i].isDefault
      ensures |order| == |devices|
      ensures forall i :: 0 <= i < |order| ==> devices[i] == CameraInfoOf(order[i])
      ensures forall d :: d in order <==> d in videoSources && d.properties.Some?
      ensures NoDuplicates(order)
      ensures DefaultsFirst(order)
    {
      devices, order := [], [];
      var rest := videoSources;
      while rest != {}
        invariant rest <= videoSources
        invariant |devices| == |order|
        invariant forall i :: 0 <= i < |order| ==> devices[i] == CameraInfoOf(order[i])
        invariant forall d :: d in order <==> d in videoSources && d !in rest && d.properties.Some?
        invariant NoDuplicates(order)
        invariant DefaultsFirst(order)
      {
        var d :| d in rest;
        if d.properties.Some? {
          var info := CameraInfoFor(d);
          PlaceKeepsOrder(order, d);
          PlaceKeepsPairs(devices, order, info, d, info.isDefault, CameraInfoOf);
          devices, order := Place(devices, info, info.isDefault), Place(order, d, info.isDefault);
        }
        rest := rest - {d};
      }
      EntriesCoverListed(devices, order, (set d | d in videoSources && d.properties.Some?), CameraInfoOf);
    }

    /**
     * The driver of a video source whose "device.path" reads as `cameraId`,
     * or empty when there is none.
     */
    method CameraDriver(cameraId: string) returns (driver: string)
      ensures (exists d :: d in videoSources && CameraIdMatches(d, cameraId) && driver == DriverOf(d))
        || ((forall d :: d in videoSources ==> !CameraIdMatches(d, cameraId)) && driver == "")
    {
      var rest := videoSources;
      while rest != {}
        invariant rest <= videoSources
        invariant forall d :: d in videoSources && d !in rest ==> !CameraIdMatches(d, cameraId)
      {
        var d :| d in rest;
        if d.properties.Some? {
          var bag := d.properties.value;
          var name := GetStringOr(bag, "device.path");
          if cameraId == name {
            return GetStringOr(bag, "v4l2.device.driver");
          }
        }
        rest := rest - {d};
      }
      return "";
    }

    /**
     * The audio sink (output mode) or audio source (otherwise) whose
     * "sysfs.path" reads as `id`, or null when there is none.
     */
    method AudioDevice(id: string, mode: Mode) returns (device: GstDevice?)
      ensures device != null ==>
        device in (if mode == AudioOutput then audioSinks else audioSources) && AudioIdMatches(device, id)
      ensures device == null <==>
        forall d :: d in (if mode == AudioOutput then audioSinks else audioSources) ==> !AudioIdMatches(d, id)
    {
      var devices := if mode == AudioOutput then audioSinks else audioSources;
      device := null;
      var rest := devices;
      while rest != {}
        invariant rest <= devices
        invariant device == null
        invariant forall d :: d in devices && d !in rest ==> !AudioIdMatches(d, id)
      {
        var d :| d in rest;
        if d.properties.Some? {
          var name := GetStringOr(d.properties.value, "sysfs.path");
          if id == name {
            device := d;
          }
        }
        if device != null {
          assert device in devices && AudioIdMatches(device, id);
          break;
        }
        rest := rest - {d};
      }
    }
  }
}
