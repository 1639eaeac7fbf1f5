# Qt Multimedia platform backends: device registry, control registry, format check

This project models in Dafny three small pieces of logic from the platform
backends of Qt Multimedia, and proves properties of them:

- **GStreamer device manager** (`GStreamerDeviceManager`, imperative). The
  `DeviceManager` class keeps three sets of native device handles: video
  sources, audio sources and audio sinks. `AddDevice` files a device in a set
  by its class string. `RemoveDevice` takes a device out of the first set
  that holds it. Every change emits the matching "changed" signal, recorded
  in a ghost `log`, but only when the host device manager exists (the
  `frontEnd` flag). The manager's net effect on each handle's reference
  count is kept in the ghost map `refs`. A native device is a `GstDevice`
  object with constant attributes: class, display name, property bag as a
  map, and the parsed capability structures. The list builders
  (`DevicesFromSet`, `VideoInputs`) and the lookups (`CameraDriver`,
  `AudioDevice`) are loops over the sets. The sets are unordered, so each
  loop picks the next device arbitrarily. Each list comes with a ghost
  `order`: the device behind each entry.
- **Media Foundation player service** (`MFPlayerService`, imperative). The
  `PlayerService` class holds the player and metadata controls, plus two
  optional fields: the video renderer control and the video window control.
  `RequestControl` and `ReleaseControl` run the name-keyed protocol, and
  `Destroy` is the destructor. The invariant `Valid()` says the renderer and
  the window control never exist together. Destroying an object and closing
  or releasing the session are recorded, in order, in a ghost `events` log.
- **OpenSL ES device info** (`OpenSLESDeviceInfo`, pure). `IsFormatSupported`
  checks five fields of a format against five lists. Sample sizes, byte
  orders and sample types come from fixed lists that depend on the mode.
  `PreferredFormat` is a fixed template. The shared engine's sample-rate and
  channel-count lists, and the output sample rate it reports, are carried in
  an `Engine` value.

`Wrappers` holds `Option`, and `QAudio` holds the `Mode` enumeration that two
of the backends share.

Behaviour worth knowing that the contracts make explicit:

- Re-adding a handle that is already in its set leaves the set unchanged.
  It still takes a reference and still emits the signal.
- `RemoveDevice` drops one reference even when no set held the device.
- Default devices are prepended. Several defaults therefore come out in
  reverse order of visiting, but all of them precede every non-default
  device.
- A missing string property reads as the empty string. So does the
  comparison of an id with a missing "device.path" or "sysfs.path": an
  empty id matches a device that lacks the field.

## Model

| member | source | states |
|---|---|---|
| `OpenSLESDeviceInfo.SupportedSampleSizes` | src/multimedia/platform/android/audio/qopenslesdeviceinfo.cpp:87-93 | 16 is always supported; 8 is supported exactly in output mode; no other size is |
| `OpenSLESDeviceInfo.SupportedByteOrders` | src/multimedia/platform/android/audio/qopenslesdeviceinfo.cpp:95-98 | little-endian is the one and only byte order |
| `OpenSLESDeviceInfo.SupportedSampleTypes` | src/multimedia/platform/android/audio/qopenslesdeviceinfo.cpp:100-103 | signed integer is the one and only sample type |
| `OpenSLESDeviceInfo.IsFormatSupported` | src/multimedia/platform/android/audio/qopenslesdeviceinfo.cpp:52-60 | true exactly when the rate and the channel count are in the engine's lists for the mode, the size is 16 (or 8 on output), the order is little-endian and the type is signed int |
| `OpenSLESDeviceInfo.RejectedFormats` | src/multimedia/platform/android/audio/qopenslesdeviceinfo.cpp:52-103 | big-endian formats, formats whose type is not signed int, 8-bit input formats and sizes other than 8 and 16 are always rejected |
| `OpenSLESDeviceInfo.PreferredFormat` | src/multimedia/platform/android/audio/qopenslesdeviceinfo.cpp:62-70 | 16-bit signed int; 1 channel for input, 2 for output; rate is the platform's value, or 48000 when it reports none; byte order is left at the default |
| `OpenSLESDeviceInfo.PreferredFormatSupported` | src/multimedia/platform/android/audio/qopenslesdeviceinfo.cpp:52-70 | the preferred format passes the device's own check exactly when the engine lists its rate and channel count and the default byte order is little-endian |
| `OpenSLESDeviceInfo.DeviceName` | src/multimedia/platform/android/audio/qopenslesdeviceinfo.cpp:72-75 | the name is the device id |
| `MFPlayerService.PlayerService.constructor` | src/multimedia/platform/windows/player/mfplayerservice.cpp:51-56 | a fresh session, a player control bound to it and a metadata control; no renderer or window control; invariant established |
| `MFPlayerService.PlayerService.VideoRenderer` | src/multimedia/platform/windows/player/mfplayerservice.cpp:119-122 | the current renderer control; when there is one, there is no window control |
| `MFPlayerService.PlayerService.VideoWindow` | src/multimedia/platform/windows/player/mfplayerservice.cpp:124-127 | the current window control; when there is one, there is no renderer control |
| `MFPlayerService.PlayerService.RequestControl` | src/multimedia/platform/windows/player/mfplayerservice.cpp:71-90 | player and metadata names always get their control, with no state change; a renderer or window request creates, stores and returns a fresh control when neither exists; otherwise, including a second request of the same kind, and for unknown names, it returns null and changes nothing; the invariant is preserved |
| `MFPlayerService.PlayerService.ReleaseControl` | src/multimedia/platform/windows/player/mfplayerservice.cpp:92-107 | releasing the current renderer clears its surface, destroys it and empties both slots; releasing the window control destroys it and empties both slots; null logs a warning and changes nothing; any other control changes nothing; the invariant is preserved |
| `MFPlayerService.PlayerService.Destroy` | src/multimedia/platform/windows/player/mfplayerservice.cpp:58-69 | events in order: session closed, window control deleted if present, renderer control deleted if present, session released |
| `MFPlayerService.RendererThenWindow` | src/multimedia/platform/windows/player/mfplayerservice.cpp:71-107 | from an empty registry: the renderer request succeeds, the window request is refused, and after the renderer is released the window request succeeds |
| `GStreamerDeviceManager.DeviceManager.constructor` | src/multimedia/platform/gstreamer/qgstreamerdevicemanager.cpp:74-102 | each set holds exactly the enumerated devices of its class; a filed device's count is back where it started (the enumeration's reference passed to the set); every other device loses one reference per occurrence; the log holds one signal per filed device, in order, when the host manager exists |
| `GStreamerDeviceManager.DeviceManager.TakeInEnumerated` | src/multimedia/platform/gstreamer/qgstreamerdevicemanager.cpp:96-100 | one enumeration step: files the device as adding does, and the net count change is 0 for a filed device and -1 otherwise |
| `GStreamerDeviceManager.DeviceManager.AddDevice` | src/multimedia/platform/gstreamer/qgstreamerdevicemanager.cpp:205-227 | a "Video/Source", "Audio/Source" or "Audio/Sink" device joins exactly that set, the other sets are unchanged, one matching signal is logged and its count rises by one; any other class changes no set, logs nothing and leaves the count unchanged; no other device's count moves; every device stays in the set its class names |
| `GStreamerDeviceManager.AddedGrowsByAtMostOne` | src/multimedia/platform/gstreamer/qgstreamerdevicemanager.cpp:210-222 | adding grows a set by at most one, and not at all when the handle is already in it |
| `GStreamerDeviceManager.DeviceManager.RemoveDevice` | src/multimedia/platform/gstreamer/qgstreamerdevicemanager.cpp:229-245 | the device leaves the first set holding it (video, then audio source, then sink), which is the set its class names, and that set's signal is logged; if no set held it, nothing changes and nothing is logged; exactly one reference is dropped either way; afterwards no set holds it |
| `GStreamerDeviceManager.DevicesFromSet` | src/multimedia/platform/gstreamer/qgstreamerdevicemanager.cpp:104-125 | one entry per device that has properties and is not a monitor, with no repeats; each entry carries its device's "sysfs.path" and the mode; default devices precede all others; the length equals the number of such devices |
| `GStreamerDeviceManager.DeviceManager.AudioInputs` | src/multimedia/platform/gstreamer/qgstreamerdevicemanager.cpp:127-130 | the audio-source list with the guarantees of DevicesFromSet, in input mode |
| `GStreamerDeviceManager.DeviceManager.AudioOutputs` | src/multimedia/platform/gstreamer/qgstreamerdevicemanager.cpp:132-135 | the audio-sink list with the guarantees of DevicesFromSet, in output mode |
| `GStreamerDeviceManager.PlaceKeepsOrder` | src/multimedia/platform/gstreamer/qgstreamerdevicemanager.cpp:115-118 | prepending a default device or appending any other keeps the list free of repeats and keeps defaults before non-defaults |
| `GStreamerDeviceManager.DeviceManager.VideoInputs` | src/multimedia/platform/gstreamer/qgstreamerdevicemanager.cpp:137-193 | one camera entry per video source that has properties, with no repeats; default devices precede all others; each entry is that device's display name, "device.path", default flag and formats; the length equals the number of such devices |
| `GStreamerDeviceManager.CameraInfoFor` | src/multimedia/platform/gstreamer/qgstreamerdevicemanager.cpp:142-189 | one camera entry: the default flag is the device's "is-default"; every format has a valid resolution; the photo resolutions are exactly the distinct resolutions of the formats |
| `GStreamerDeviceManager.CollectFormats` | src/multimedia/platform/gstreamer/qgstreamerdevicemanager.cpp:160-189 | structures with an invalid resolution are skipped; every structure with a valid resolution yields its format, in order; the photo resolutions are exactly the distinct resolutions of the formats kept |
| `GStreamerDeviceManager.KeptFormatsExact` | src/multimedia/platform/gstreamer/qgstreamerdevicemanager.cpp:165-185 | a format is kept exactly when it comes from a structure with a valid resolution; there are no more formats than structures |
| `GStreamerDeviceManager.DeviceManager.CameraDriver` | src/multimedia/platform/gstreamer/qgstreamerdevicemanager.cpp:247-262 | the "v4l2.device.driver" of some video source whose "device.path" matches the id, or empty when no video source matches |
| `GStreamerDeviceManager.DeviceManager.AudioDevice` | src/multimedia/platform/gstreamer/qgstreamerdevicemanager.cpp:264-282 | searches the sinks in output mode and the sources otherwise; the result is a device of that set whose "sysfs.path" matches the id; it is null exactly when no device there matches |

## Left out

- The GStreamer device monitor: its filters, its bus, the bus watch and the `deviceMonitor` callback (qgstreamerdevicemanager.cpp:51-92). They are native calls and a callback thread. The list of devices the monitor reports at start-up is the constructor's `initial` parameter.
- The GStreamer capability parser (`structureResolution`, `structurePixelFormat`, `structureFrameRateRange`). A `CapStructure` carries the values it would return. Frame rates are floating point, so they are carried along and never computed with.
- `createAudioInputDevice` / `createAudioOutputDevice` (qgstreamerdevicemanager.cpp:195-203). They only construct objects of classes that are not part of this model.
- Qt signal emission. It is a ghost log of `Signal` values. Whether `deviceManager()` returns an object is the `frontEnd` parameter.
- DevicesFromSet: requires every property bag to hold "device.class" as a string. The code passes that lookup to `strcmp` unchecked, and a missing key is undefined behaviour there. AudioInputs and AudioOutputs inherit this requirement.
- VideoInputs: the code inserts each camera entry and only then fills in its formats, through a shared private pointer. The model builds the entry complete and then inserts it. The resulting list is the same.
- VideoInputs: photo resolutions are a set. The code converts its set to a list in unspecified order.
- CameraDriver: when several video sources match the id, the code returns the first one it visits, in set order. The model says only that the result belongs to one of the matching devices.
- DevicesFromSet, VideoInputs: the order of non-default devices follows set iteration, which is unspecified. The contracts pin down only which entries appear and that defaults come first.
- The Media Foundation session's COM internals (`close`, `Release`) and the actual freeing of controls. Both are events in the ghost log. A deleted control is simply dropped from its field.
- The control-interface identifiers are declared in headers that are not part of this model. The model uses Qt's identifier strings, and only their distinctness matters. A null name compares unequal to all of them, so it behaves as an unknown name.
- `player()`, `dataReader()` and `metaDataControl()` (mfplayerservice.cpp:109-117,139-142) return constant fields. The model reads the `player` and `metaDataControl` fields directly. `createVideoRenderer`/`videoRendererControl` and `createVideoWindow`/`videoWindowControl` return the same field in pairs. Each pair is modelled once, as `VideoRenderer` and `VideoWindow`.
- The OpenSL ES engine singleton and `getOutputValue`. Their answers are the `Engine` value's per-mode lists and its optional output sample rate. `supportedSampleRates` and `supportedChannelCounts` just read those lists.
- The default byte order of a freshly constructed audio format is the host's, passed in as `hostOrder`. The codec field of an audio format is not inspected by this backend and is not modelled.
- The Darwin camera focus control (avfcamerafocuscontrol_p.h). It declares behaviour without defining it, and its zoom and focus use floating point and the AVFoundation API.
- Byte strings are modelled as text. Device ids, display names and property-bag strings are `seq<char>`, and the model compares them as text. The source holds them as byte arrays or C strings, decodes them as UTF-8 where it builds a `QString` (the camera description, the OpenSL ES device name), and compares ids byte by byte. Invalid UTF-8 and embedded NUL bytes are not captured.
- Logging text.
