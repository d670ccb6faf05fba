/**
 * The audio/video/display type definitions shared by the device-settings
 * HAL: enumerations with their `_isValid` range checks, the single-bit
 * capability enumerations whose values are OR-ed into capability words,
 * and the bounded records (short audio descriptor list, volume leveller,
 * surround virtualizer).
 *
 * Enumerators are plain integer constants because the range checks are C
 * macros applied to arbitrary integers. Each check is stated against the
 * list of named enumerators it is meant to accept.
 */
module AvdTypes {
  import Bits

  // dsVideoPortType_t
  const VideoPortRf := 0
  const VideoPortBb := 1
  const VideoPortSvideo := 2
  const VideoPort1394 := 3
  const VideoPortDvi := 4
  const VideoPortComponent := 5
  const VideoPortHdmi := 6
  const VideoPortHdmiInput := 7
  const VideoPortInternal := 8
  const VideoPortMax := 9
  const VideoPortTypes: seq<int> := [VideoPortRf, VideoPortBb, VideoPortSvideo, VideoPort1394,
    VideoPortDvi, VideoPortComponent, VideoPortHdmi, VideoPortHdmiInput, VideoPortInternal]

  /** dsVideoPortType_isValid: accepts exactly the named port types. */
  function VideoPortTypeIsValid(t: int): (b: bool)
    ensures b <==> t in VideoPortTypes
  {
    VideoPortRf <= t < VideoPortMax
  }

  // dsAudioPortType_t
  const AudioPortIdLr := 0
  const AudioPortHdmi := 1
  const AudioPortSpdif := 2
  const AudioPortSpeaker := 3
  const AudioPortHdmiArc := 4
  const AudioPortHeadphone := 5
  const AudioPortMax := 6
  const AudioPortTypes: seq<int> :=
    [AudioPortIdLr, AudioPortHdmi, AudioPortSpdif, AudioPortSpeaker, AudioPortHdmiArc, AudioPortHeadphone]

  /** dsAudioType_isValid. */
  function AudioTypeIsValid(t: int): (b: bool)
    ensures b <==> t in AudioPortTypes
  {
    AudioPortIdLr <= t < AudioPortMax
  }

  // dsAudioEncoding_t
  const EncNone := 0
  const EncDisplay := 1
  const EncPcm := 2
  const EncAc3 := 3
  const EncEac3 := 4
  const EncMax := 5
  const AudioEncodings: seq<int> := [EncNone, EncDisplay, EncPcm, EncAc3, EncEac3]

  /** dsAudioEncoding_isValid: NONE is a valid encoding. */
  function AudioEncodingIsValid(t: int): (b: bool)
    ensures b <==> t in AudioEncodings
  {
    EncNone <= t < EncMax
  }

  // dsAudioCompression_t
  const CmpNone := 0
  const CmpLight := 1
  const CmpMedium := 2
  const CmpHeavy := 3
  const CmpMax := 4
  const AudioCompressions: seq<int> := [CmpNone, CmpLight, CmpMedium, CmpHeavy]

  /** dsAudioCompression_isValid. */
  function AudioCompressionIsValid(t: int): (b: bool)
    ensures b <==> t in AudioCompressions
  {
    CmpNone <= t < CmpMax
  }

  // dsAudioStereoMode_t
  const StereoUnknown := 0
  const StereoMono := 1
  const StereoStereo := 2
  const StereoSurround := 3
  const StereoPassthru := 4
  const StereoDd := 5
  const StereoDdPlus := 6
  const StereoMax := 7
  const StereoModes: seq<int> :=
    [StereoUnknown, StereoMono, StereoStereo, StereoSurround, StereoPassthru, StereoDd, StereoDdPlus]

  /** dsAudioStereoMode_isValid: UNKNOWN counts as a valid mode. */
  function AudioStereoModeIsValid(t: int): (b: bool)
    ensures b <==> t in StereoModes
  {
    StereoUnknown <= t < StereoMax
  }

  // dsVideoResolution_t
  const PixelRes720x480 := 0
  const PixelRes720x576 := 1
  const PixelRes1280x720 := 2
  const PixelRes1366x768 := 3
  const PixelRes1920x1080 := 4
  const PixelRes3840x2160 := 5
  const PixelRes4096x2160 := 6
  const PixelResMax := 7
  const PixelResolutions: seq<int> := [PixelRes720x480, PixelRes720x576, PixelRes1280x720,
    PixelRes1366x768, PixelRes1920x1080, PixelRes3840x2160, PixelRes4096x2160]

  /** dsVideoPortPixelResolution_isValid. */
  function PixelResolutionIsValid(t: int): (b: bool)
    ensures b <==> t in PixelResolutions
  {
    PixelRes720x480 <= t < PixelResMax
  }

  // dsVideoFrameRate_t
  const FrameRateUnknown := 0
  const FrameRate24 := 1
  const FrameRate25 := 2
  const FrameRate30 := 3
  const FrameRate60 := 4
  const FrameRate23dot98 := 5
  const FrameRate29dot97 := 6
  const FrameRate50 := 7
  const FrameRate59dot94 := 8
  const FrameRateMax := 9
  const FrameRates: seq<int> := [FrameRateUnknown, FrameRate24, FrameRate25, FrameRate30,
    FrameRate60, FrameRate23dot98, FrameRate29dot97, FrameRate50, FrameRate59dot94]

  /** dsVideoPortFrameRate_isValid: UNKNOWN counts as a valid rate. */
  function FrameRateIsValid(t: int): (b: bool)
    ensures b <==> t in FrameRates
  {
    FrameRateUnknown <= t < FrameRateMax
  }

  // dsVideoScanMode_t
  const ScanInterlaced := 0
  const ScanProgressive := 1
  const ScanMax := 2

  /** dsVideoPortScanMode_isValid. */
  function ScanModeIsValid(t: int): (b: bool)
    ensures b <==> t == ScanInterlaced || t == ScanProgressive
  {
    ScanInterlaced <= t < ScanMax
  }

  // dsVideoBackgroundColor_t (no validity macro; the HAL rejects MAX)
  const BgBlue := 0
  const BgBlack := 1
  const BgNone := 2
  const BgMax := 3

  // dsVideoStereoScopicMode_t
  const SsUnknown := 0
  const Ss2D := 1
  const Ss3DSideBySide := 2
  const Ss3DTopAndBottom := 3
  const SsMax := 4
  const StereoScopicModes: seq<int> := [SsUnknown, Ss2D, Ss3DSideBySide, Ss3DTopAndBottom]

  /** dsVideoPortStereoScopicMode_isValid. */
  function StereoScopicModeIsValid(t: int): (b: bool)
    ensures b <==> t in StereoScopicModes
  {
    SsUnknown <= t < SsMax
  }

  // dsVideoAspectRatio_t
  const Aspect4x3 := 0
  const Aspect16x9 := 1
  const AspectMax := 2

  /** dsVideoPortAspectRatio_isValid. */
  function AspectRatioIsValid(t: int): (b: bool)
    ensures b <==> t == Aspect4x3 || t == Aspect16x9
  {
    Aspect4x3 <= t < AspectMax
  }

  // dsHdcpStatus_t
  const HdcpUnpowered := 0
  const HdcpUnauthenticated := 1
  const HdcpAuthenticated := 2
  const HdcpAuthenticationFailure := 3
  const HdcpInProgress := 4
  const HdcpPortDisabled := 5
  const HdcpStatusMax := 6
  const HdcpStatuses: seq<int> := [HdcpUnpowered, HdcpUnauthenticated, HdcpAuthenticated,
    HdcpAuthenticationFailure, HdcpInProgress, HdcpPortDisabled]

  /** dsHdcpStatus_isValid. */
  function HdcpStatusIsValid(t: int): (b: bool)
    ensures b <==> t in HdcpStatuses
  {
    HdcpUnpowered <= t < HdcpStatusMax
  }

  // dsHdcpProtocolVersion_t
  const HdcpVersion1X := 0
  const HdcpVersion2X := 1
  const HdcpVersionMax := 2

  /** The largest HDCP key the HAL accepts, in bytes. */
  const HdcpKeyMaxSize := 4 * 1024

  /*
   * Capability enumerations. Each is given by its values as declared, and
   * by the bit position of every named value other than NONE.
   */

  // dsHDRStandard_t
  const HdrNone: nat := 0x0
  const HdrHdr10: nat := 0x01
  const HdrHlg: nat := 0x02
  const HdrDolbyVision: nat := 0x04
  const HdrTechnicolorPrime: nat := 0x08
  const HdrHdr10Plus: nat := 0x10
  const HdrSdr: nat := 0x20
  const HdrInvalid: nat := 0x80
  const HdrStandards: seq<nat> :=
    [HdrHdr10, HdrHlg, HdrDolbyVision, HdrTechnicolorPrime, HdrHdr10Plus, HdrSdr, HdrInvalid]
  const HdrStandardBits: seq<nat> := [0, 1, 2, 3, 4, 5, 7]

  // dsDisplayColorDepth_t
  const ColorDepthUnknown: nat := 0x0
  const ColorDepth8Bit: nat := 0x01
  const ColorDepth10Bit: nat := 0x02
  const ColorDepth12Bit: nat := 0x04
  const ColorDepthAuto: nat := 0x08
  const ColorDepths: seq<nat> := [ColorDepth8Bit, ColorDepth10Bit, ColorDepth12Bit, ColorDepthAuto]
  const ColorDepthBits: seq<nat> := [0, 1, 2, 3]

  // dsTVResolution_t
  const TvResolutions: seq<nat> := [
    0x000001, 0x000002, 0x000004, 0x000008, 0x000010, 0x000020, 0x000040,
    0x000080, 0x000100, 0x000200, 0x000400, 0x000800, 0x001000, 0x002000,
    0x004000, 0x008000, 0x010000, 0x020000, 0x040000, 0x080000, 0x100000]
  const TvResolutionBits: seq<nat> := Bits.Positions(21)

  // dsAudioCapabilities_t
  const AudioSupportNone: nat := 0x0
  const AudioSupportAtmos: nat := 0x01
  const AudioSupportDd: nat := 0x02
  const AudioSupportDdPlus: nat := 0x04
  const AudioSupportDad: nat := 0x08
  const AudioSupportDapV2: nat := 0x10
  const AudioSupportMs12: nat := 0x20
  const AudioSupportMs12V2: nat := 0x40
  const AudioSupportInvalid: nat := 0x80
  const AudioCapabilities: seq<nat> := [AudioSupportAtmos, AudioSupportDd, AudioSupportDdPlus,
    AudioSupportDad, AudioSupportDapV2, AudioSupportMs12, AudioSupportMs12V2, AudioSupportInvalid]
  const AudioCapabilityBits: seq<nat> := [0, 1, 2, 3, 4, 5, 6, 7]

  // dsAudioARCTypes_t
  const ArcNone: nat := 0x0
  const ArcArc: nat := 0x01
  const ArcEarc: nat := 0x02
  const ArcTypes: seq<nat> := [ArcArc, ArcEarc]
  const ArcTypeBits: seq<nat> := [0, 1]

  // dsMS12Capabilities_t
  const Ms12None: nat := 0x0
  const Ms12DolbyVolume: nat := 0x01
  const Ms12IntelligentEqualizer: nat := 0x02
  const Ms12DialogueEnhancer: nat := 0x04
  const Ms12Invalid: nat := 0x80
  const Ms12Capabilities: seq<nat> :=
    [Ms12DolbyVolume, Ms12IntelligentEqualizer, Ms12DialogueEnhancer, Ms12Invalid]
  const Ms12CapabilityBits: seq<nat> := [0, 1, 2, 7]

  /** An enumeration whose named values are single, distinct bits. */
  predicate SingleBitFlags(values: seq<nat>, bits: seq<nat>)
  {
    |values| == |bits| && Bits.DistinctBits(bits) && values == Bits.Flags(bits)
  }

  /** Each named value is the flag of the listed bit position. */
  lemma FlagsMatch(values: seq<nat>, bits: seq<nat>)
    requires |values| == |bits|
    requires forall i :: 0 <= i < |values| ==> values[i] == Bits.Pow2(bits[i])
    ensures values == Bits.Flags(bits)
  {
  }

  /** The named HDR standards other than NONE are distinct single bits. */
  lemma HdrStandardsAreSingleBits()
    ensures SingleBitFlags(HdrStandards, HdrStandardBits) && HdrNone == 0
  {
    PowersUpTo20();
    FlagsMatch(HdrStandards, HdrStandardBits);
  }

  /** The colour depths other than UNKNOWN are distinct single bits. */
  lemma ColorDepthsAreSingleBits()
    ensures SingleBitFlags(ColorDepths, ColorDepthBits) && ColorDepthUnknown == 0
  {
    PowersUpTo20();
    FlagsMatch(ColorDepths, ColorDepthBits);
  }

  /** The 21 TV resolutions are distinct single bits. */
  lemma TvResolutionsAreSingleBits()
    ensures SingleBitFlags(TvResolutions, TvResolutionBits)
  {
    PowersUpTo20();
    forall i | 0 <= i < 21
      ensures TvResolutions[i] == Bits.Pow2(TvResolutionBits[i])
    {
      assert TvResolutionBits[i] == i;
    }
    FlagsMatch(TvResolutions, TvResolutionBits);
  }

  /** The audio capabilities other than NONE are distinct single bits. */
  lemma AudioCapabilitiesAreSingleBits()
    ensures SingleBitFlags(AudioCapabilities, AudioCapabilityBits) && AudioSupportNone == 0
  {
    PowersUpTo20();
    FlagsMatch(AudioCapabilities, AudioCapabilityBits);
  }

  /** The ARC types other than NONE are distinct single bits. */
  lemma ArcTypesAreSingleBits()
    ensures SingleBitFlags(ArcTypes, ArcTypeBits) && ArcNone == 0
  {
    PowersUpTo20();
    FlagsMatch(ArcTypes, ArcTypeBits);
  }

  /** The MS12 capabilities other than NONE are distinct single bits. */
  lemma Ms12CapabilitiesAreSingleBits()
    ensures SingleBitFlags(Ms12Capabilities, Ms12CapabilityBits) && Ms12None == 0
  {
    PowersUpTo20();
    FlagsMatch(Ms12Capabilities, Ms12CapabilityBits);
  }

  lemma {:induction false} PowersUpTo20()
    ensures Bits.Pow2(0) == 0x1 && Bits.Pow2(1) == 0x2 && Bits.Pow2(2) == 0x4 && Bits.Pow2(3) == 0x8
    ensures Bits.Pow2(4) == 0x10 && Bits.Pow2(5) == 0x20 && Bits.Pow2(6) == 0x40 && Bits.Pow2(7) == 0x80
    ensures Bits.Pow2(8) == 0x100 && Bits.Pow2(9) == 0x200 && Bits.Pow2(10) == 0x400
    ensures Bits.Pow2(11) == 0x800 && Bits.Pow2(12) == 0x1000 && Bits.Pow2(13) == 0x2000
    ensures Bits.Pow2(14) == 0x4000 && Bits.Pow2(15) == 0x8000 && Bits.Pow2(16) == 0x1_0000
    ensures Bits.Pow2(17) == 0x2_0000 && Bits.Pow2(18) == 0x4_0000 && Bits.Pow2(19) == 0x8_0000
    ensures Bits.Pow2(20) == 0x10_0000
  {
  }

  /**
   * A capability word made of some named flags of a single-bit enumeration
   * reports flag `k` (that is, `word & flag != 0`) exactly when `k` was
   * among them.
   */
  lemma {:induction false} CapabilityWordHas(values: seq<nat>, bits: seq<nat>, chosen: seq<nat>, k: nat)
    requires SingleBitFlags(values, bits)
    requires forall i :: 0 <= i < |chosen| ==> chosen[i] < |values|
    requires k < |values|
    ensures Bits.BitAnd(Bits.OrAll(Bits.Select(values, chosen)), values[k]) != 0 <==> k in chosen
  {
    Bits.FlagWordHas(bits, chosen, k);
    var picked := Bits.Select(values, chosen);
    var flags := Bits.Flags(Bits.Select(bits, chosen));
    forall i | 0 <= i < |chosen|
      ensures picked[i] == flags[i]
    {
      assert picked[i] == values[chosen[i]] == Bits.Pow2(bits[chosen[i]]);
    }
    assert picked == flags;
    assert values[k] == Bits.Pow2(bits[k]);
  }

  /** dsAudioSADList_t: up to MAX_SAD short audio descriptors. */
  const MaxSad := 15

  datatype SadList = SadList(sad: seq<int>, count: int)

  /** A descriptor list fits its fixed array and counts no more than it holds. */
  predicate SadListIsValid(l: SadList)
  {
    |l.sad| == MaxSad && 0 <= l.count <= MaxSad
  }

  /** The descriptors a valid list carries: its first `count` entries, at most MAX_SAD. */
  function Descriptors(l: SadList): (d: seq<int>)
    requires SadListIsValid(l)
    ensures |d| == l.count <= MaxSad
    ensures forall i :: 0 <= i < |d| ==> d[i] == l.sad[i]
  {
    l.sad[..l.count]
  }

  /** The volume-leveller and surround-virtualizer modes: off, on, auto. */
  const ModeOff := 0
  const ModeOn := 1
  const ModeAuto := 2
  const Modes: seq<int> := [ModeOff, ModeOn, ModeAuto]

  datatype VolumeLeveller = VolumeLeveller(mode: int, level: int)

  /** dsVolumeLeveller_t: one of the three modes and a level from 0 to 10. */
  function VolumeLevellerIsValid(v: VolumeLeveller): (b: bool)
    ensures b <==> v.mode in Modes && v.level in LevelRange(10)
  {
    InLevelRange(10, v.level);
    0 <= v.mode <= 2 && 0 <= v.level <= 10
  }

  datatype SurroundVirtualizer = SurroundVirtualizer(mode: int, boost: int)

  /** dsSurroundVirtualizer_t: one of the three modes and a boost from 0 to 96. */
  function SurroundVirtualizerIsValid(v: SurroundVirtualizer): (b: bool)
    ensures b <==> v.mode in Modes && v.boost in LevelRange(96)
  {
    InLevelRange(96, v.boost);
    0 <= v.mode <= 2 && 0 <= v.boost <= 96
  }

  /** The levels 0, 1, ..., `top`. */
  function LevelRange(top: nat): (r: seq<int>)
    ensures |r| == top + 1 && forall i :: 0 <= i < |r| ==> r[i] == i
  {
    seq(top + 1, i => i)
  }

  lemma InLevelRange(top: nat, x: int)
    ensures x in LevelRange(top) <==> 0 <= x <= top
  {
    if 0 <= x <= top {
      assert LevelRange(top)[x] == x;
    }
  }
}
