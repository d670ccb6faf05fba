/**
 * The audio-port HAL as its level-2 tests use it: a table of per-port
 * settings behind set and get calls. Each dsSet* call is a `Setting`
 * value, each dsGet* call a `Kind`; a set that is accepted replaces the
 * one entry of its kind and a get returns it. Calls are refused outside
 * init, for unknown handles, for values the AV types rule out, and for
 * features the port's profile does not list.
 */
module AudioPortTable {
  import opened HalCommon
  import opened DeviceSettings
  import opened AvdTypes
  import opened PortHandles
  import Bits

  /** One setting as a set call carries it. */
  datatype Setting =
    | PortEnabled(enabled: bool)                      // dsEnableAudioPort
    | Compression(compression: int)                   // dsSetAudioCompression
    | DialogEnhancement(level: int)                   // dsSetDialogEnhancement
    | DolbyVolumeMode(on: bool)                       // dsSetDolbyVolumeMode
    | Leveller(leveller: VolumeLeveller)              // dsSetVolumeLeveller
    | BassEnhancer(boost: int)                        // dsSetBassEnhancer
    | Virtualizer(virtualizer: SurroundVirtualizer)   // dsSetSurroundVirtualizer
    | Mute(muted: bool)                               // dsSetAudioMute
    | Delay(delayMs: int)                             // dsSetAudioDelay
    | Fader(balance: int)                             // dsSetFaderControl
    | AudioMixing(mixing: bool)                       // dsSetAssociatedAudioMixing
    | PrimaryLanguage(language: string)               // dsSetPrimaryLanguage
    | SecondaryLanguage(language: string)             // dsSetSecondaryLanguage

  /** Which setting a get call asks for. */
  datatype Kind =
    | EnabledKind | CompressionKind | DialogEnhancementKind | DolbyVolumeKind | LevellerKind
    | BassKind | VirtualizerKind | MuteKind | DelayKind | FaderKind | MixingKind
    | PrimaryLanguageKind | SecondaryLanguageKind

  function KindOf(s: Setting): Kind
  {
    match s
    case PortEnabled(_) => EnabledKind
    case Compression(_) => CompressionKind
    case DialogEnhancement(_) => DialogEnhancementKind
    case DolbyVolumeMode(_) => DolbyVolumeKind
    case Leveller(_) => LevellerKind
    case BassEnhancer(_) => BassKind
    case Virtualizer(_) => VirtualizerKind
    case Mute(_) => MuteKind
    case Delay(_) => DelayKind
    case Fader(_) => FaderKind
    case AudioMixing(_) => MixingKind
    case PrimaryLanguage(_) => PrimaryLanguageKind
    case SecondaryLanguage(_) => SecondaryLanguageKind
  }

  /** The settings of one port. */
  datatype AudioSettings = AudioSettings(
    enabled: bool, compression: int, dialogEnhancement: int, dolbyVolume: bool,
    leveller: VolumeLeveller, bassBoost: int, virtualizer: SurroundVirtualizer, muted: bool,
    delayMs: int, fader: int, mixing: bool, primaryLanguage: string, secondaryLanguage: string)

  /** What a get call of kind `k` reads. */
  function Read(st: AudioSettings, k: Kind): (s: Setting)
    ensures KindOf(s) == k
  {
    match k
    case EnabledKind => PortEnabled(st.enabled)
    case CompressionKind => Compression(st.compression)
    case DialogEnhancementKind => DialogEnhancement(st.dialogEnhancement)
    case DolbyVolumeKind => DolbyVolumeMode(st.dolbyVolume)
    case LevellerKind => Leveller(st.leveller)
    case BassKind => BassEnhancer(st.bassBoost)
    case VirtualizerKind => Virtualizer(st.virtualizer)
    case MuteKind => Mute(st.muted)
    case DelayKind => Delay(st.delayMs)
    case FaderKind => Fader(st.fader)
    case MixingKind => AudioMixing(st.mixing)
    case PrimaryLanguageKind => PrimaryLanguage(st.primaryLanguage)
    case SecondaryLanguageKind => SecondaryLanguage(st.secondaryLanguage)
  }

  /** The settings after an accepted set call. */
  function Apply(st: AudioSettings, s: Setting): AudioSettings
  {
    match s
    case PortEnabled(v) => st.(enabled := v)
    case Compression(v) => st.(compression := v)
    case DialogEnhancement(v) => st.(dialogEnhancement := v)
    case DolbyVolumeMode(v) => st.(dolbyVolume := v)
    case Leveller(v) => st.(leveller := v)
    case BassEnhancer(v) => st.(bassBoost := v)
    case Virtualizer(v) => st.(virtualizer := v)
    case Mute(v) => st.(muted := v)
    case Delay(v) => st.(delayMs := v)
    case Fader(v) => st.(fader := v)
    case AudioMixing(v) => st.(mixing := v)
    case PrimaryLanguage(v) => st.(primaryLanguage := v)
    case SecondaryLanguage(v) => st.(secondaryLanguage := v)
  }

  /** Set then get returns the value just set. */
  lemma ReadApply(st: AudioSettings, s: Setting)
    ensures Read(Apply(st, s), KindOf(s)) == s
  {
    match s
    case PortEnabled(_) =>
    case Compression(_) =>
    case DialogEnhancement(_) =>
    case DolbyVolumeMode(_) =>
    case Leveller(_) =>
    case BassEnhancer(_) =>
    case Virtualizer(_) =>
    case Mute(_) =>
    case Delay(_) =>
    case Fader(_) =>
    case AudioMixing(_) =>
    case PrimaryLanguage(_) =>
    case SecondaryLanguage(_) =>
  }

  /** A set call leaves every other setting as it was. */
  lemma ReadApplyOther(st: AudioSettings, s: Setting, k: Kind)
    requires k != KindOf(s)
    ensures Read(Apply(st, s), k) == Read(st, k)
  {
  }

  /** Setting what was just read changes nothing. */
  lemma ApplyRead(st: AudioSettings, k: Kind)
    ensures Apply(st, Read(st, k)) == st
  {
  }

  /** Of two sets of the same kind the later one wins. */
  lemma ApplyTwice(st: AudioSettings, s: Setting, t: Setting)
    requires KindOf(s) == KindOf(t)
    ensures Apply(Apply(st, s), t) == Apply(st, t)
  {
  }

  /**
   * Values the AV types allow: a compression within dsAudioCompression_t, a
   * leveller and a virtualizer within their struct ranges, a delay that
   * fits uint32_t, and a language code that fits the four-byte buffer the
   * getters fill (three characters and the terminator).
   */
  predicate ValueValid(s: Setting)
  {
    match s
    case Compression(c) => AudioCompressionIsValid(c)
    case Leveller(v) => VolumeLevellerIsValid(v)
    case Virtualizer(v) => SurroundVirtualizerIsValid(v)
    case Delay(d) => 0 <= d < U32
    case PrimaryLanguage(l) => |l| <= 3
    case SecondaryLanguage(l) => |l| <= 3
    case _ => true
  }

  /** Every setting a port holds is one the AV types allow. */
  ghost predicate StateValid(st: AudioSettings)
  {
    forall k: Kind :: ValueValid(Read(st, k))
  }

  /** An accepted set keeps a port's settings valid. */
  lemma {:induction false} ApplyKeepsValid(st: AudioSettings, s: Setting)
    requires StateValid(st) && ValueValid(s)
    ensures StateValid(Apply(st, s))
  {
    forall k: Kind
      ensures ValueValid(Read(Apply(st, s), k))
    {
      if k == KindOf(s) {
        ReadApply(st, s);
      } else {
        ReadApplyOther(st, s, k);
      }
    }
  }

  /** MS12 capability bits the level-2 tests gate features on. */
  const DolbyVolumeBit: nat := 0x01
  const DialogueEnhancerBit: nat := 0x04
  const VolumeLevellerBit: nat := 0x08
  const BassEnhancerBit: nat := 0x10
  const SurroundVirtualizerBit: nat := 0x80

  /** One entry of the platform's audio-port table, with the port's settings at init. */
  datatype AudioPortConfig = AudioPortConfig(
    id: PortId, compressions: seq<int>, ms12Capabilities: nat,
    minDialogEnhancement: int, maxDialogEnhancement: int, initial: AudioSettings)

  predicate HasCapability(c: AudioPortConfig, bit: nat)
  {
    Bits.BitAnd(c.ms12Capabilities, bit) != 0
  }

  /** Whether a port has the feature a kind of setting controls. */
  predicate Supported(c: AudioPortConfig, k: Kind)
  {
    match k
    case CompressionKind => |c.compressions| > 0
    case DialogEnhancementKind => HasCapability(c, DialogueEnhancerBit)
    case DolbyVolumeKind => HasCapability(c, DolbyVolumeBit)
    case LevellerKind => HasCapability(c, VolumeLevellerBit)
    case BassKind => HasCapability(c, BassEnhancerBit)
    case VirtualizerKind => HasCapability(c, SurroundVirtualizerBit)
    case DelayKind => c.id.typeId == AudioPortSpdif || c.id.typeId == AudioPortHdmiArc || c.id.typeId == AudioPortHdmi
    case _ => true
  }

  /**
   * A set call's own checks on a valid handle: INVALID_PARAM for a value
   * the AV types rule out, OPERATION_NOT_SUPPORTED for a feature the port
   * lacks or a compression it does not list, INVALID_PARAM for a dialog
   * enhancement level outside the port's range.
   */
  function ValueCode(c: AudioPortConfig, s: Setting): (r: DsError)
    ensures r == NoError <==>
      ValueValid(s) && Supported(c, KindOf(s))
      && (s.Compression? ==> s.compression in c.compressions)
      && (s.DialogEnhancement? ==> c.minDialogEnhancement <= s.level <= c.maxDialogEnhancement)
  {
    if !ValueValid(s) then InvalidParam
    else if !Supported(c, KindOf(s)) then OperationNotSupported
    else if s.Compression? && s.compression !in c.compressions then OperationNotSupported
    else if s.DialogEnhancement? && !(c.minDialogEnhancement <= s.level <= c.maxDialogEnhancement) then InvalidParam
    else NoError
  }

  /** The names of the table's ports, in table order. */
  function AudioPortIds(ports: seq<AudioPortConfig>): (r: seq<PortId>)
    ensures |r| == |ports| && forall i :: 0 <= i < |r| ==> r[i] == ports[i].id
  {
    seq(|ports|, i requires 0 <= i < |ports| => ports[i].id)
  }

  /** Valid port types and indices, listed compressions within range, valid settings at init, no port listed twice. */
  ghost predicate ProfileValid(ports: seq<AudioPortConfig>)
  {
    && (forall i :: 0 <= i < |ports| ==> AudioTypeIsValid(ports[i].id.typeId) && ports[i].id.index >= 0)
    && (forall i, j :: 0 <= i < |ports| && 0 <= j < |ports[i].compressions| ==> AudioCompressionIsValid(ports[i].compressions[j]))
    && (forall i :: 0 <= i < |ports| ==> StateValid(ports[i].initial))
    && Distinct(AudioPortIds(ports))
  }

  function InitialSettings(ports: seq<AudioPortConfig>): (r: seq<AudioSettings>)
    ensures |r| == |ports| && forall i :: 0 <= i < |r| ==> r[i] == ports[i].initial
  {
    seq(|ports|, i requires 0 <= i < |ports| => ports[i].initial)
  }

  class AudioPortHal {
    const ports: seq<AudioPortConfig>
    var initialized: bool
    var states: seq<AudioSettings>

    ghost predicate Valid()
      reads this
    {
      ProfileValid(ports) && |states| == |ports| && forall i :: 0 <= i < |states| ==> StateValid(states[i])
    }

    constructor (p: seq<AudioPortConfig>)
      requires ProfileValid(p)
      ensures Valid()
      ensures ports == p && !initialized && states == InitialSettings(p)
    {
      ports := p;
      initialized := false;
      states := InitialSettings(p);
    }

    /** A handle-taking call's first checks: NOT_INITIALIZED outside init, INVALID_PARAM for a handle never given out. */
    function HandleCode(handle: int): (r: DsError)
      reads this
      ensures r == NoError <==> initialized && PositionOf(handle, |ports|).Some?
    {
      if !initialized then NotInitialized
      else if PositionOf(handle, |ports|).None? then InvalidParam
      else NoError
    }

    /** The code of a set call. */
    function SetCode(handle: int, s: Setting): DsError
      reads this
    {
      if HandleCode(handle) != NoError then HandleCode(handle) else ValueCode(ports[handle - 1], s)
    }

    /** The code of a get call: a NULL out-pointer is INVALID_PARAM, a feature the port lacks OPERATION_NOT_SUPPORTED. */
    function GetCode(handle: int, k: Kind, hasOut: bool): DsError
      reads this
    {
      if HandleCode(handle) != NoError then HandleCode(handle)
      else if !hasOut then InvalidParam
      else if !Supported(ports[handle - 1], k) then OperationNotSupported
      else NoError
    }

    /**
     * dsAudioPortInit: resets every port to its settings at init. A device
     * without audio ports refuses with OPERATION_NOT_SUPPORTED and stays
     * uninitialised.
     */
    method Init() returns (r: DsError)
      requires Valid()
      modifies this
      ensures Valid()
      ensures r == if old(initialized) then AlreadyInitialized
                   else if |ports| == 0 then OperationNotSupported
                   else NoError
      ensures initialized == (old(initialized) || |ports| > 0)
      ensures states == if old(initialized) || |ports| == 0 then old(states) else InitialSettings(ports)
    {
      if initialized {
        r := AlreadyInitialized;
      } else if |ports| == 0 {
        r := OperationNotSupported;
      } else {
        initialized := true;
        states := InitialSettings(ports);
        r := NoError;
      }
    }

    /** dsAudioPortTerm. */
    method Term() returns (r: DsError)
      requires Valid()
      modifies this
      ensures Valid()
      ensures r == if old(initialized) then NoError else NotInitialized
      ensures !initialized && states == old(states)
    {
      r := if initialized then NoError else NotInitialized;
      initialized := false;
    }

    /**
     * dsGetAudioPort: an invalid type, a negative index or a NULL handle
     * pointer is INVALID_PARAM; a type the platform lacks is
     * OPERATION_NOT_SUPPORTED and an index it lacks INVALID_PARAM.
     */
    method GetAudioPort(typeId: int, index: int, hasOut: bool) returns (r: DsError, handle: int)
      requires Valid()
      ensures r == (if !initialized then NotInitialized
                    else if !AudioTypeIsValid(typeId) || index < 0 || !hasOut then InvalidParam
                    else if FindPort(AudioPortIds(ports), PortId(typeId, index)).Some? then NoError
                    else if HasType(AudioPortIds(ports), typeId) then InvalidParam
                    else OperationNotSupported)
      ensures r == NoError ==>
                exists position: nat :: position < |ports| && ports[position].id == PortId(typeId, index) && handle == HandleOf(position)
    {
      handle := 0;
      if !initialized {
        r := NotInitialized;
      } else if !AudioTypeIsValid(typeId) || index < 0 || !hasOut {
        r := InvalidParam;
      } else {
        var found := FindPort(AudioPortIds(ports), PortId(typeId, index));
        if found.Some? {
          var position: nat := found.value;
          handle := HandleOf(position);
          assert position < |ports| && ports[position].id == PortId(typeId, index);
          r := NoError;
        } else if HasType(AudioPortIds(ports), typeId) {
          r := InvalidParam;
        } else {
          r := OperationNotSupported;
        }
      }
    }

    /** Every dsSet* call: an accepted value replaces the port's setting of its kind and nothing else. */
    method Set(handle: int, s: Setting) returns (r: DsError)
      requires Valid()
      modifies this
      ensures Valid()
      ensures r == SetCode(handle, s)
      ensures initialized == old(initialized)
      ensures states == if r == NoError then old(states)[handle - 1 := Apply(old(states)[handle - 1], s)] else old(states)
    {
      r := HandleCode(handle);
      if r == NoError {
        r := ValueCode(ports[handle - 1], s);
        if r == NoError {
          ApplyKeepsValid(states[handle - 1], s);
          states := states[handle - 1 := Apply(states[handle - 1], s)];
        }
      }
    }

    /** Every dsGet* call: the port's current setting of the kind asked for, always one the AV types allow. */
    method Get(handle: int, k: Kind, hasOut: bool) returns (r: DsError, s: Setting)
      requires Valid()
      ensures r == GetCode(handle, k, hasOut)
      ensures r == NoError ==> s == Read(states[handle - 1], k) && KindOf(s) == k && ValueValid(s)
    {
      s := PortEnabled(false);
      r := GetCode(handle, k, hasOut);
      if r == NoError {
        s := Read(states[handle - 1], k);
      }
    }
  }
}
