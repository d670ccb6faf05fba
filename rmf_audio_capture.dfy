/**
 * Types of the RMF audio-capture HAL interface: return codes, capture
 * formats and sampling frequencies, the settings record handed to Start
 * and the status record returned by GetStatus.
 */
module RmfAudioCapture {

  /**
   * Return codes. The last two are the OSAL codes that legacy
   * implementations return where extended implementations return one of
   * the interface's own codes.
   */
  datatype RmfError =
    | Success
    | Error
    | InvalidParm
    | InvalidHandle
    | NotInitialized
    | InvalidState
    | OsalEinval
    | OsalEbusy

  /** The numeric value of each return code. */
  function Code(e: RmfError): (c: nat)
    ensures e == Success <==> c == 0
    ensures e.OsalEinval? || e.OsalEbusy? <==> c >= 0x100
  {
    match e
    case Success => 0
    case Error => 1
    case InvalidParm => 2
    case InvalidHandle => 3
    case NotInitialized => 4
    case InvalidState => 5
    case OsalEinval => 0x100 + 1
    case OsalEbusy => 0x100 + 3
  }

  lemma CodeInjective(a: RmfError, b: RmfError)
    requires Code(a) == Code(b)
    ensures a == b
  {
  }

  // racFormat: the enumerators in declaration order, then the bound.
  const Format16BitStereo := 0
  const Format24BitStereo := 1
  const Format16BitMonoLeft := 2
  const Format16BitMonoRight := 3
  const Format16BitMono := 4
  const Format24Bit5_1 := 5
  const FormatMax := 6

  // racFreq: the enumerators in declaration order, then the bound.
  const Freq16000 := 0
  const Freq22050 := 1
  const Freq24000 := 2
  const Freq32000 := 3
  const Freq44100 := 4
  const Freq48000 := 5
  const FreqMax := 6

  /** The capture types accepted by Open_Type. */
  const TypePrimary: string := "primary"
  const TypeAuxiliary: string := "auxiliary"

  /** Which data callback, if any, a settings record names. */
  datatype Callback = NoCallback | DummyDataCb | CountingDataCb | TrackingDataCb

  /**
   * RMF_AudioCapture_Settings. Pointers are modelled by what they point to:
   * the buffer-ready callback, its caller context (a context number), and
   * whether a status-change callback is installed.
   */
  datatype Settings = Settings(
    cbBufferReady: Callback,
    cbBufferReadyParm: nat,
    hasStatusChange: bool,
    fifoSize: nat,
    threshold: nat,
    format: int,
    samplingFreq: int,
    delayCompensationMs: nat)

  /** The fields of RMF_AudioCapture_Status that the tests inspect. */
  datatype Status = Status(started: int, format: int, samplingFreq: int)
}
