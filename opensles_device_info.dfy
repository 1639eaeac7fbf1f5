/**
 * Audio device information for the Android OpenSL ES backend.
 *
 * Every member is a pure expression over the device's mode and what the
 * shared OpenSL ES engine reports; the engine itself is not modelled and
 * its answers are carried in an `Engine` value.
 */
module OpenSLESDeviceInfo {
  import opened Wrappers
  import opened QAudio

  datatype Endian = BigEndian | LittleEndian

  datatype SampleType = Unknown | SignedInt | UnSignedInt | Float

  /** The fields of an audio format that the backend inspects. */
  datatype AudioFormat = AudioFormat(
    sampleRate: int,
    channelCount: int,
    sampleSize: int,
    byteOrder: Endian,
    sampleType: SampleType)

  /**
   * What the shared engine answers: its sample-rate and channel-count lists
   * for each mode, and the output sample rate the platform reports, if any.
   */
  datatype Engine = Engine(
    sampleRates: Mode -> seq<int>,
    channelCounts: Mode -> seq<int>,
    outputSampleRate: Option<int>)

  /** One device: its identifier, its direction and the engine it queries. */
  datatype DeviceInfo = DeviceInfo(id: string, mode: Mode, engine: Engine)

  /** The sample rate the platform falls back to when the engine reports none. */
  const DefaultSampleRate := 48000

  /**
   * A default-constructed format: every number unset (-1), the type unknown
   * and the byte order that of the host.
   */
  function DefaultFormat(hostOrder: Endian): AudioFormat {
    AudioFormat(-1, -1, -1, hostOrder, Unknown)
  }

  function SupportedSampleRates(info: DeviceInfo): seq<int> {
    info.engine.sampleRates(info.mode)
  }

  function SupportedChannelCounts(info: DeviceInfo): seq<int> {
    info.engine.channelCounts(info.mode)
  }

  /** Inputs take 16-bit samples only; outputs take 8- or 16-bit samples. */
  function SupportedSampleSizes(info: DeviceInfo): (r: seq<int>)
    ensures 16 in r
    ensures 8 in r <==> info.mode == AudioOutput
    ensures forall s :: s in r ==> s == 8 || s == 16
  {
    match info.mode
    case AudioInput => [16]
    case AudioOutput => [8, 16]
  }

  /** Little-endian is the only byte order, whatever the mode. */
  function SupportedByteOrders(info: DeviceInfo): (r: seq<Endian>)
    ensures forall e :: e in r <==> e == LittleEndian
  {
    [LittleEndian]
  }

  /** Signed integers are the only sample type, whatever the mode. */
  function SupportedSampleTypes(info: DeviceInfo): (r: seq<SampleType>)
    ensures forall t :: t in r <==> t == SignedInt
  {
    [SignedInt]
  }

  /**
   * A format is supported exactly when each of its five fields is in the
   * corresponding supported list.
   */
  function IsFormatSupported(info: DeviceInfo, format: AudioFormat): (ok: bool)
    ensures ok <==>
      && format.sampleRate in SupportedSampleRates(info)
      && format.channelCount in SupportedChannelCounts(info)
      && (format.sampleSize == 16 || (format.sampleSize == 8 && info.mode == AudioOutput))
      && format.byteOrder == LittleEndian
      && format.sampleType == SignedInt
  {
    && format.sampleRate in SupportedSampleRates(info)
    && format.channelCount in SupportedChannelCounts(info)
    && format.sampleSize in SupportedSampleSizes(info)
    && format.byteOrder in SupportedByteOrders(info)
    && format.sampleType in SupportedSampleTypes(info)
  }

  /** What the five membership checks rule out whatever the engine reports. */
  lemma RejectedFormats(info: DeviceInfo, format: AudioFormat)
    ensures format.byteOrder == BigEndian ==> !IsFormatSupported(info, format)
    ensures format.sampleType != SignedInt ==> !IsFormatSupported(info, format)
    ensures info.mode == AudioInput && format.sampleSize == 8 ==> !IsFormatSupported(info, format)
    ensures format.sampleSize != 8 && format.sampleSize != 16 ==> !IsFormatSupported(info, format)
  {
  }

  /**
   * The preferred format: 16-bit signed samples, one channel for input and
   * two for output, at the platform's output rate (48000 when it reports
   * none). The byte order is left as the default format has it.
   */
  function PreferredFormat(info: DeviceInfo, hostOrder: Endian): (format: AudioFormat)
    ensures format.sampleSize == 16
    ensures format.sampleType == SignedInt
    ensures format.channelCount == (if info.mode == AudioInput then 1 else 2)
    ensures info.engine.outputSampleRate.None? ==> format.sampleRate == DefaultSampleRate
    ensures info.engine.outputSampleRate.Some? ==> format.sampleRate == info.engine.outputSampleRate.value
    ensures format.byteOrder == hostOrder
  {
    DefaultFormat(hostOrder).(
      sampleSize := 16,
      sampleType := SignedInt,
      sampleRate := info.engine.outputSampleRate.GetOr(DefaultSampleRate),
      channelCount := if info.mode == AudioInput then 1 else 2)
  }

  /**
   * The preferred format passes the device's own check exactly when the
   * engine lists its rate and channel count and the host is little-endian.
   */
  lemma PreferredFormatSupported(info: DeviceInfo, hostOrder: Endian)
    ensures IsFormatSupported(info, PreferredFormat(info, hostOrder)) <==>
      && info.engine.outputSampleRate.GetOr(DefaultSampleRate) in SupportedSampleRates(info)
      && (if info.mode == AudioInput then 1 else 2) in SupportedChannelCounts(info)
      && hostOrder == LittleEndian
  {
  }

  /** The device name is the identifier the device was created with. */
  function DeviceName(info: DeviceInfo): (name: string)
    ensures name == info.id
  {
    info.id
  }
}
