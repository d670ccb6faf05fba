/**
 * The host-side dsAudio helper's reading of the platform profile: the
 * "Ports" table of the YAML profile, searched by port name and index.
 * Python's enum lookups raise on a value outside the enum; those
 * exceptions are `Err` results here.
 */
module AudioProfile {
  import opened HalCommon
  import opened AvdTypes
  import opened ProfileCommon
  import Bits

  /** One entry of the profile's "Ports" table. */
  datatype ProfilePort = ProfilePort(
    typeId: int, index: int, ms12Capabilities: nat, compressionCount: int,
    stereoModes: seq<int>, ms12Profiles: seq<string>, dialogLevels: seq<int>)

  /** A (port name, index) pair as getSupportedPorts returns it. */
  datatype PortName = PortName(name: string, index: int)

  /** The names of dsAudioPortType, by value. */
  const PortTypeNames: seq<string> := [
    "dsAUDIOPORT_TYPE_ID_LR", "dsAUDIOPORT_TYPE_HDMI", "dsAUDIOPORT_TYPE_SPDIF",
    "dsAUDIOPORT_TYPE_SPEAKER", "dsAUDIOPORT_TYPE_HDMI_ARC", "dsAUDIOPORT_TYPE_HEADPHONE"]

  /** The names of dsAudioStereoMode, values 1 to 6. */
  const StereoModeNames: seq<string> := [
    "dsAUDIO_STEREO_MONO", "dsAUDIO_STEREO_STEREO", "dsAUDIO_STEREO_SURROUND",
    "dsAUDIO_STEREO_PASSTHRU", "dsAUDIO_STEREO_DD", "dsAUDIO_STEREO_DDPLUS"]

  /** `dsAudioPortType(t).name`. */
  function PortTypeName(t: int): (r: Result<string, PyError>)
    ensures r.Ok? <==> AudioTypeIsValid(t)
    ensures r.Err? ==> r.error == ValueError
  {
    EnumName(PortTypeNames, t)
  }

  /** Two port types with the same name are the same type. */
  lemma PortTypeNameInjective(a: int, b: int)
    requires PortTypeName(a).Ok? && PortTypeName(a) == PortTypeName(b)
    ensures a == b
  {
  }

  /** `dsAudioStereoMode(m).name`. */
  function StereoModeName(m: int): (r: Result<string, PyError>)
    ensures r.Ok? <==> 1 <= m <= 6
    ensures r.Ok? ==> r.value == StereoModeNames[m - 1]
    ensures r.Err? ==> r.error == ValueError
  {
    if 1 <= m <= |StereoModeNames| then Ok(StereoModeNames[m - 1]) else Err(ValueError)
  }

  /** `dsMS12Capabilities[name].value`: each capability is one bit. */
  function FeatureFlag(name: string): (r: Result<nat, PyError>)
    ensures r.Err? ==> r.error == KeyError
    ensures r.Ok? ==> exists k: nat :: k <= 10 && r.value == Bits.Pow2(k)
  {
    if name == "DolbyVolume" then (assert Bits.Pow2(0) == 0x01; Ok(0x01))
    else if name == "IntelligentEqualizer" then (assert Bits.Pow2(1) == 0x02; Ok(0x02))
    else if name == "DialogueEnhancer" then (assert Bits.Pow2(2) == 0x04; Ok(0x04))
    else if name == "Volumeleveller" then (assert Bits.Pow2(3) == 0x08; Ok(0x08))
    else if name == "BassEnhancer" then (assert Bits.Pow2(4) == 0x10; Ok(0x10))
    else if name == "SurroundDecoder" then (assert Bits.Pow2(5) == 0x20; Ok(0x20))
    else if name == "DRCMode" then (assert Bits.Pow2(6) == 0x40; Ok(0x40))
    else if name == "SurroundVirtualizer" then (assert Bits.Pow2(7) == 0x80; Ok(0x80))
    else if name == "MISteering" then (assert Bits.Pow2(8) == 0x100; Ok(0x100))
    else if name == "GraphicEqualizer" then (assert Bits.Pow2(9) == 0x200; Ok(0x200))
    else if name == "LEConfig" then (assert Bits.Pow2(10) == 0x400; Ok(0x400))
    else Err(KeyError)
  }

  /** The capability flags the C tests use agree with the profile's names. */
  lemma FeatureFlagsAgreeWithTests()
    ensures FeatureFlag("DolbyVolume") == Ok(Ms12DolbyVolume)
    ensures FeatureFlag("DialogueEnhancer") == Ok(Ms12DialogueEnhancer)
    ensures FeatureFlag("Volumeleveller") == Ok(0x08) && FeatureFlag("BassEnhancer") == Ok(0x10)
    ensures FeatureFlag("SurroundVirtualizer") == Ok(0x80)
  {
  }

  /** boolToString: the menu's "1: Enable, 2: Disable" answer. */
  function BoolToString(v: bool): (r: string)
    ensures MenuBool(r) == Some(v)
  {
    if v then "1" else "2"
  }

  /** How the menu reads a "1: Enable, 2: Disable" answer. */
  function MenuBool(s: string): Option<bool>
  {
    if s == "1" then Some(true) else if s == "2" then Some(false) else None
  }

  /** Distinct booleans give distinct answers. */
  lemma BoolToStringInjective(a: bool, b: bool)
    requires BoolToString(a) == BoolToString(b)
    ensures a == b
  {
    assert MenuBool(BoolToString(a)) == Some(a);
  }

  /** Every entry's type is a dsAudioPortType value. */
  predicate TypesValid(ports: seq<ProfilePort>)
  {
    forall i :: 0 <= i < |ports| ==> AudioTypeIsValid(ports[i].typeId)
  }

  /**
   * getSupportedPorts: one (enum name, index) pair per entry in table
   * order, `[]` for an empty table; an entry whose type is not an enum
   * value raises ValueError.
   */
  method SupportedPorts(ports: seq<ProfilePort>) returns (r: Result<seq<PortName>, PyError>)
    ensures r.Ok? <==> TypesValid(ports)
    ensures r.Err? ==> r.error == ValueError
    ensures r.Ok? ==> |r.value| == |ports|
    ensures r.Ok? ==> forall i :: 0 <= i < |ports| ==> r.value[i] == PortName(PortTypeNames[ports[i].typeId], ports[i].index)
  {
    if |ports| == 0 {
      return Ok([]);
    }
    var supported: seq<PortName> := [];
    var i := 0;
    while i < |ports|
      invariant 0 <= i <= |ports|
      invariant TypesValid(ports[..i])
      invariant |supported| == i
      invariant forall j :: 0 <= j < i ==> supported[j] == PortName(PortTypeNames[ports[j].typeId], ports[j].index)
    {
      var name := PortTypeName(ports[i].typeId);
      if name.Err? {
        return Err(name.error);
      }
      supported := supported + [PortName(name.value, ports[i].index)];
      i := i + 1;
    }
    assert ports[..i] == ports;
    r := Ok(supported);
  }

  /** `dsAudioPortType(entry['Typeid']).name == audio_port and entry['Index'] == port_index`. */
  function NameMatches(e: ProfilePort, audioPort: string, portIndex: int): (r: Result<bool, PyError>)
    ensures r.Ok? <==> AudioTypeIsValid(e.typeId)
    ensures r.Err? ==> r.error == ValueError
  {
    match PortTypeName(e.typeId)
    case Err(x) => Err(x)
    case Ok(n) => Ok(n == audioPort && e.index == portIndex)
  }

  /**
   * The search shared by getMS12DAPFeatureSupport and
   * getAudioCompressionSupport: True at the first entry that matches and
   * passes `test`, False when none does; `test` is evaluated on matching
   * entries only.
   */
  function AnyMatch(ports: seq<ProfilePort>, audioPort: string, portIndex: int,
                    test: ProfilePort -> Result<bool, PyError>): Result<bool, PyError>
    decreases |ports|
  {
    if |ports| == 0 then Ok(false)
    else match NameMatches(ports[0], audioPort, portIndex)
      case Err(x) => Err(x)
      case Ok(m) =>
        if !m then AnyMatch(ports[1..], audioPort, portIndex, test)
        else match test(ports[0])
          case Err(x) => Err(x)
          case Ok(b) => if b then Ok(true) else AnyMatch(ports[1..], audioPort, portIndex, test)
  }

  /** Whether entry `e` matches and passes `test`. */
  predicate Hit(e: ProfilePort, audioPort: string, portIndex: int, test: ProfilePort -> Result<bool, PyError>)
  {
    NameMatches(e, audioPort, portIndex) == Ok(true) && test(e) == Ok(true)
  }

  /** With valid types and a test that does not raise, the search is an existential. */
  lemma {:induction false} AnyMatchIsExists(ports: seq<ProfilePort>, audioPort: string, portIndex: int,
                                            test: ProfilePort -> Result<bool, PyError>)
    requires TypesValid(ports)
    requires forall i :: 0 <= i < |ports| ==> test(ports[i]).Ok?
    ensures AnyMatch(ports, audioPort, portIndex, test) ==
            Ok(exists i :: 0 <= i < |ports| && Hit(ports[i], audioPort, portIndex, test))
    decreases |ports|
  {
    if |ports| > 0 {
      var tail := ports[1..];
      assert forall i :: 0 <= i < |tail| ==> tail[i] == ports[i + 1];
      AnyMatchIsExists(tail, audioPort, portIndex, test);
      if !Hit(ports[0], audioPort, portIndex, test) {
        assert (exists i :: 0 <= i < |ports| && Hit(ports[i], audioPort, portIndex, test)) <==>
               (exists i :: 0 <= i < |tail| && Hit(tail[i], audioPort, portIndex, test)) by {
          forall i | 0 <= i < |ports| && Hit(ports[i], audioPort, portIndex, test)
            ensures exists j :: 0 <= j < |tail| && Hit(tail[j], audioPort, portIndex, test)
          {
            assert i != 0;
            assert tail[i - 1] == ports[i];
          }
        }
      }
    }
  }

  /** When no entry matches, the test is never evaluated and the answer is False. */
  lemma {:induction false} NoMatchIsFalse(ports: seq<ProfilePort>, audioPort: string, portIndex: int,
                                          test: ProfilePort -> Result<bool, PyError>)
    requires forall i :: 0 <= i < |ports| ==> NameMatches(ports[i], audioPort, portIndex) == Ok(false)
    ensures AnyMatch(ports, audioPort, portIndex, test) == Ok(false)
    decreases |ports|
  {
    if |ports| > 0 {
      assert NameMatches(ports[0], audioPort, portIndex) == Ok(false);
      NoMatchIsFalse(ports[1..], audioPort, portIndex, test);
    }
  }

  /** The loop of the two searches. */
  method SearchPorts(ports: seq<ProfilePort>, audioPort: string, portIndex: int,
                     test: ProfilePort -> Result<bool, PyError>) returns (r: Result<bool, PyError>)
    ensures r == AnyMatch(ports, audioPort, portIndex, test)
  {
    var i := 0;
    while i < |ports|
      invariant 0 <= i <= |ports|
      invariant AnyMatch(ports, audioPort, portIndex, test) == AnyMatch(ports[i..], audioPort, portIndex, test)
    {
      assert ports[i..][1..] == ports[i + 1..];
      var m := NameMatches(ports[i], audioPort, portIndex);
      if m.Err? {
        return Err(m.error);
      }
      if m.value {
        var t := test(ports[i]);
        if t.Err? {
          return Err(t.error);
        }
        if t.value {
          return Ok(true);
        }
      }
      i := i + 1;
    }
    r := Ok(false);
  }

  /** `entry["MS12_Capabilities"] & dsMS12Capabilities[feature].value`, raising KeyError for an unknown feature. */
  function HasFeature(feature: string): ProfilePort -> Result<bool, PyError>
  {
    (e: ProfilePort) =>
      match FeatureFlag(feature)
      case Err(x) => Err(x)
      case Ok(flag) => Ok(Bits.BitAnd(e.ms12Capabilities, flag) != 0)
  }

  /** `entry["number_of_supported_compressions"] > 0`. */
  function HasCompression(e: ProfilePort): Result<bool, PyError>
  {
    Ok(e.compressionCount > 0)
  }

  /** getMS12DAPFeatureSupport. */
  method MS12DAPFeatureSupport(ports: seq<ProfilePort>, audioPort: string, portIndex: int, feature: string)
    returns (r: Result<bool, PyError>)
    ensures r == AnyMatch(ports, audioPort, portIndex, HasFeature(feature))
  {
    r := SearchPorts(ports, audioPort, portIndex, HasFeature(feature));
  }

  /** getAudioCompressionSupport. */
  method AudioCompressionSupport(ports: seq<ProfilePort>, audioPort: string, portIndex: int)
    returns (r: Result<bool, PyError>)
    ensures r == AnyMatch(ports, audioPort, portIndex, HasCompression)
  {
    r := SearchPorts(ports, audioPort, portIndex, HasCompression);
  }

  /** A known feature is supported exactly when some matching entry has its bit. */
  lemma FeatureSupportMeaning(ports: seq<ProfilePort>, audioPort: string, portIndex: int, feature: string)
    requires TypesValid(ports) && FeatureFlag(feature).Ok?
    ensures AnyMatch(ports, audioPort, portIndex, HasFeature(feature)) ==
            Ok(exists i :: 0 <= i < |ports| && NameMatches(ports[i], audioPort, portIndex) == Ok(true)
                             && Bits.BitAnd(ports[i].ms12Capabilities, FeatureFlag(feature).value) != 0)
  {
    AnyMatchIsExists(ports, audioPort, portIndex, HasFeature(feature));
  }

  /** Compression is supported exactly when some matching entry lists a compression. */
  lemma CompressionSupportMeaning(ports: seq<ProfilePort>, audioPort: string, portIndex: int)
    requires TypesValid(ports)
    ensures AnyMatch(ports, audioPort, portIndex, HasCompression) ==
            Ok(exists i :: 0 <= i < |ports| && NameMatches(ports[i], audioPort, portIndex) == Ok(true)
                             && ports[i].compressionCount > 0)
  {
    AnyMatchIsExists(ports, audioPort, portIndex, HasCompression);
  }

  /** The stereo-mode names of one entry, raising ValueError for a value outside the enum. */
  function ModeNames(modes: seq<int>): (r: Result<seq<string>, PyError>)
    ensures r.Ok? <==> forall j :: 0 <= j < |modes| ==> 1 <= modes[j] <= 6
    ensures r.Err? ==> r.error == ValueError
    ensures r.Ok? ==> |r.value| == |modes| && forall j :: 0 <= j < |modes| ==> r.value[j] == StereoModeNames[modes[j] - 1]
    decreases |modes|
  {
    if |modes| == 0 then Ok([])
    else match StereoModeName(modes[0])
      case Err(x) => Err(x)
      case Ok(n) =>
        match ModeNames(modes[1..])
        case Err(x) => Err(x)
        case Ok(rest) => Ok([n] + rest)
  }

  /** The stereo-mode names of all matching entries, in table order. */
  function OutputModes(ports: seq<ProfilePort>, audioPort: string, portIndex: int): (r: Result<seq<string>, PyError>)
    ensures r.Err? ==> r.error == ValueError
    decreases |ports|
  {
    if |ports| == 0 then Ok([])
    else match NameMatches(ports[0], audioPort, portIndex)
      case Err(x) => Err(x)
      case Ok(m) =>
        if !m then OutputModes(ports[1..], audioPort, portIndex)
        else match ModeNames(ports[0].stereoModes)
          case Err(x) => Err(x)
          case Ok(names) =>
            match OutputModes(ports[1..], audioPort, portIndex)
            case Err(x) => Err(x)
            case Ok(rest) => Ok(names + rest)
  }

  /** The inner loop of getSupportedOutputModes: one entry's mode names, in order. */
  method EntryModeNames(modes: seq<int>) returns (r: Result<seq<string>, PyError>)
    ensures r == ModeNames(modes)
  {
    var added: seq<string> := [];
    var j := 0;
    while j < |modes|
      invariant 0 <= j <= |modes| && |added| == j
      invariant forall jj :: 0 <= jj < j ==> 1 <= modes[jj] <= 6 && added[jj] == StereoModeNames[modes[jj] - 1]
    {
      var n := StereoModeName(modes[j]);
      if n.Err? {
        assert ModeNames(modes).Err?;
        return Err(n.error);
      }
      added := added + [n.value];
      j := j + 1;
    }
    assert ModeNames(modes).Ok? && ModeNames(modes).value == added;
    r := Ok(added);
  }

  /** getSupportedOutputModes: appends the names of every matching entry's modes. */
  method SupportedOutputModes(ports: seq<ProfilePort>, audioPort: string, portIndex: int)
    returns (r: Result<seq<string>, PyError>)
    ensures r == OutputModes(ports, audioPort, portIndex)
  {
    var outputModes: seq<string> := [];
    var i := 0;
    assert ports[0..] == ports;
    if OutputModes(ports, audioPort, portIndex).Ok? {
      assert [] + OutputModes(ports, audioPort, portIndex).value == OutputModes(ports, audioPort, portIndex).value;
    }
    while i < |ports|
      invariant 0 <= i <= |ports|
      invariant OutputModes(ports, audioPort, portIndex) == Prepend(outputModes, OutputModes(ports[i..], audioPort, portIndex))
    {
      assert ports[i..][0] == ports[i] && ports[i..][1..] == ports[i + 1..];
      ghost var rest := OutputModes(ports[i + 1..], audioPort, portIndex);
      var m := NameMatches(ports[i], audioPort, portIndex);
      if m.Err? {
        return Err(m.error);
      }
      if m.value {
        var names := EntryModeNames(ports[i].stereoModes);
        if names.Err? {
          return Err(names.error);
        }
        var added := names.value;
        assert OutputModes(ports[i..], audioPort, portIndex) == Prepend(added, rest);
        if rest.Ok? {
          assert outputModes + (added + rest.value) == (outputModes + added) + rest.value;
        }
        outputModes := outputModes + added;
      } else {
        assert OutputModes(ports[i..], audioPort, portIndex) == rest;
      }
      i := i + 1;
    }
    assert OutputModes(ports[i..], audioPort, portIndex) == Ok([]);
    assert outputModes + [] == outputModes;
    r := Ok(outputModes);
  }

  /** With one matching entry, the output modes are that entry's mode names. */
  lemma {:induction false} OutputModesOfOneEntry(ports: seq<ProfilePort>, audioPort: string, portIndex: int, k: nat)
    requires TypesValid(ports) && k < |ports|
    requires forall i :: 0 <= i < |ports| ==> (NameMatches(ports[i], audioPort, portIndex) == Ok(true) <==> i == k)
    ensures OutputModes(ports, audioPort, portIndex) == ModeNames(ports[k].stereoModes)
    decreases |ports|
  {
    var tail := ports[1..];
    assert forall i :: 0 <= i < |tail| ==> tail[i] == ports[i + 1];
    assert forall i :: 0 <= i < |ports| && i != k ==> NameMatches(ports[i], audioPort, portIndex) == Ok(false);
    if k == 0 {
      NoMatchNoModes(tail, audioPort, portIndex);
      var names := ModeNames(ports[0].stereoModes);
      if names.Ok? {
        assert names.value + [] == names.value;
      }
    } else {
      OutputModesOfOneEntry(tail, audioPort, portIndex, k - 1);
    }
  }

  /** With no matching entry and valid types, there are no output modes. */
  lemma {:induction false} NoMatchNoModes(ports: seq<ProfilePort>, audioPort: string, portIndex: int)
    requires forall i :: 0 <= i < |ports| ==> NameMatches(ports[i], audioPort, portIndex) == Ok(false)
    ensures OutputModes(ports, audioPort, portIndex) == Ok([])
    decreases |ports|
  {
    if |ports| > 0 {
      assert NameMatches(ports[0], audioPort, portIndex) == Ok(false);
      NoMatchNoModes(ports[1..], audioPort, portIndex);
    }
  }

  /** The position of the first matching entry, raising at an entry before it whose type is not an enum value. */
  function FirstMatch(ports: seq<ProfilePort>, audioPort: string, portIndex: int): (r: Result<Option<nat>, PyError>)
    ensures r.Ok? && r.value.Some? ==> r.value.value < |ports| && NameMatches(ports[r.value.value], audioPort, portIndex) == Ok(true)
    ensures r.Ok? && r.value.Some? ==> forall j :: 0 <= j < r.value.value ==> NameMatches(ports[j], audioPort, portIndex) == Ok(false)
    ensures r.Ok? && r.value.None? ==> forall j :: 0 <= j < |ports| ==> NameMatches(ports[j], audioPort, portIndex) == Ok(false)
    ensures r.Err? ==> exists j :: 0 <= j < |ports| && !AudioTypeIsValid(ports[j].typeId)
    decreases |ports|
  {
    if |ports| == 0 then Ok(None)
    else match NameMatches(ports[0], audioPort, portIndex)
      case Err(x) => Err(x)
      case Ok(m) =>
        if m then Ok(Some(0))
        else match FirstMatch(ports[1..], audioPort, portIndex)
          case Err(x) => (assert forall j :: 0 <= j < |ports| - 1 ==> ports[1..][j] == ports[j + 1]; Err(x))
          case Ok(None) => Ok(None)
          case Ok(Some(k)) => Ok(Some(k + 1))
  }

  /** A search result on a suffix of the table, as a position in the whole table. */
  function Shift(r: Result<Option<nat>, PyError>, offset: nat): Result<Option<nat>, PyError>
  {
    match r
    case Ok(Some(k)) => Ok(Some(k + offset))
    case _ => r
  }

  /** One step of the search: the entry at `i` decides, or the search goes on after it. */
  lemma FirstMatchStep(ports: seq<ProfilePort>, audioPort: string, portIndex: int, i: nat)
    requires i < |ports|
    ensures FirstMatch(ports[i..], audioPort, portIndex) ==
              match NameMatches(ports[i], audioPort, portIndex)
              case Err(x) => Err(x)
              case Ok(true) => Ok(Some(0))
              case Ok(false) => Shift(FirstMatch(ports[i + 1..], audioPort, portIndex), 1)
  {
    assert ports[i..][0] == ports[i] && ports[i..][1..] == ports[i + 1..];
  }

  /** The loop of getSupportedMS12Profiles and getDialogueEnhance. */
  method FindEntry(ports: seq<ProfilePort>, audioPort: string, portIndex: int) returns (r: Result<Option<nat>, PyError>)
    ensures r == FirstMatch(ports, audioPort, portIndex)
  {
    ghost var whole := FirstMatch(ports, audioPort, portIndex);
    var i := 0;
    assert ports[0..] == ports;
    while i < |ports|
      invariant 0 <= i <= |ports|
      invariant whole == Shift(FirstMatch(ports[i..], audioPort, portIndex), i)
    {
      FirstMatchStep(ports, audioPort, portIndex, i);
      var m := NameMatches(ports[i], audioPort, portIndex);
      if m.Err? {
        assert FirstMatch(ports[i..], audioPort, portIndex) == Err(m.error);
        return Err(m.error);
      }
      if m.value {
        assert FirstMatch(ports[i..], audioPort, portIndex) == Ok(Some(0));
        return Ok(Some(i));
      }
      ghost var rest := FirstMatch(ports[i + 1..], audioPort, portIndex);
      assert FirstMatch(ports[i..], audioPort, portIndex) == Shift(rest, 1);
      assert Shift(Shift(rest, 1), i) == Shift(rest, i + 1);
      i := i + 1;
    }
    assert ports[i..] == [];
    r := Ok(None);
  }

  /** getSupportedMS12Profiles: the first matching entry's profiles, `[]` if none matches. */
  method SupportedMS12Profiles(ports: seq<ProfilePort>, audioPort: string, portIndex: int)
    returns (r: Result<seq<string>, PyError>)
    ensures r.Err? <==> FirstMatch(ports, audioPort, portIndex).Err?
    ensures r.Ok? ==> r.value == match FirstMatch(ports, audioPort, portIndex).value
                                 case None => []
                                 case Some(k) => ports[k].ms12Profiles
  {
    var found := FindEntry(ports, audioPort, portIndex);
    match found
    case Err(x) => r := Err(x);
    case Ok(None) => r := Ok([]);
    case Ok(Some(k)) => r := Ok(ports[k].ms12Profiles);
  }

  /** getDialogueEnhance: the first matching entry's dialog enhancement levels, `[]` if none matches. */
  method DialogueEnhance(ports: seq<ProfilePort>, audioPort: string, portIndex: int)
    returns (r: Result<seq<int>, PyError>)
    ensures r.Err? <==> FirstMatch(ports, audioPort, portIndex).Err?
    ensures r.Ok? ==> r.value == match FirstMatch(ports, audioPort, portIndex).value
                                 case None => []
                                 case Some(k) => ports[k].dialogLevels
  {
    var found := FindEntry(ports, audioPort, portIndex);
    match found
    case Err(x) => r := Err(x);
    case Ok(None) => r := Ok([]);
    case Ok(Some(k)) => r := Ok(ports[k].dialogLevels);
  }

  /** In a table naming each port once, the first match is the entry with that name. */
  lemma FirstMatchFindsEntry(ports: seq<ProfilePort>, k: nat)
    requires TypesValid(ports) && k < |ports|
    requires forall i, j :: 0 <= i < j < |ports| ==> (ports[i].typeId, ports[i].index) != (ports[j].typeId, ports[j].index)
    ensures FirstMatch(ports, PortTypeNames[ports[k].typeId], ports[k].index) == Ok(Some(k))
  {
    var r := FirstMatch(ports, PortTypeNames[ports[k].typeId], ports[k].index);
    assert NameMatches(ports[k], PortTypeNames[ports[k].typeId], ports[k].index) == Ok(true);
    if r.Ok? && r.value.Some? && r.value.value != k {
      var j := r.value.value;
      PortTypeNameInjective(ports[j].typeId, ports[k].typeId);
    }
  }

  /** Python's `needle in s` on strings. */
  predicate Contains(s: string, needle: string)
  {
    exists i: nat :: i <= |s| && OccursAt(s, needle, i)
  }

  /** `needle` occurs in `s` at position `i`. */
  predicate OccursAt(s: string, needle: string, i: nat)
  {
    i + |needle| <= |s| && s[i..i + |needle|] == needle
  }

  lemma ContainsAt(s: string, needle: string, i: nat)
    requires i + |needle| <= |s| && s[i..i + |needle|] == needle
    ensures Contains(s, needle)
  {
    assert OccursAt(s, needle, i);
  }

  /** A string containing "eARC" contains "ARC". */
  lemma EarcContainsArc(s: string)
    requires Contains(s, "eARC")
    ensures Contains(s, "ARC")
  {
    var i: nat :| i <= |s| && OccursAt(s, "eARC", i);
    assert s[i + 1..i + 1 + 3] == s[i..i + 4][1..];
    ContainsAt(s, "ARC", i + 1);
  }

  /** What every ARC type the helper's search captures starts with. */
  const ArcPrefix: string := "dsAUDIOARCSUPPORT_"

  /**
   * getConnectedARCType's classification as written: "eARC" if the
   * captured type contains it, else "ARC" if it contains that, else
   * "NONE"; a failed search (None) raises TypeError at `in`.
   */
  function ClassifyArcAsWritten(t: Option<string>): (r: Result<string, PyError>)
    ensures r.Err? <==> t.None?
    ensures t.Some? && Contains(t.value, "eARC") ==> r == Ok("eARC")
    ensures t.Some? ==> (r == Ok("NONE") <==> !Contains(t.value, "ARC"))
  {
    match t
    case None => Err(TypeError)
    case Some(s) =>
      if Contains(s, "eARC") then EarcContainsArc(s); Ok("eARC")
      else if Contains(s, "ARC") then Ok("ARC")
      else Ok("NONE")
  }

  /** The prefix itself contains "ARC", so every captured type does. */
  lemma {:induction false} CapturedTypeContainsArc(w: string)
    ensures Contains(ArcPrefix + w, "ARC")
  {
    var s := ArcPrefix + w;
    assert s[7..7 + 3] == "ARC";
    ContainsAt(s, "ARC", 7);
  }

  /** As written, a port without ARC (dsAUDIOARCSUPPORT_NONE) is reported as "ARC", and "NONE" is never returned for a captured type. */
  lemma AsWrittenNoneReadsAsArc(w: string)
    ensures ClassifyArcAsWritten(Some(ArcPrefix + w)) != Ok("NONE")
    ensures ClassifyArcAsWritten(Some(ArcPrefix + "NONE")) == Ok("ARC")
  {
    CapturedTypeContainsArc(w);
    CapturedTypeContainsArc("NONE");
    var n := ArcPrefix + "NONE";
    assert !Contains(n, "eARC") by {
      forall i: nat
        ensures !OccursAt(n, "eARC", i)
      {
        if i + 4 <= |n| {
          assert n[i..i + 4][0] == n[i];
        }
      }
    }
  }

  /** The captured type with the enum prefix removed. */
  function ArcSuffix(s: string): string
  {
    if |ArcPrefix| <= |s| && s[..|ArcPrefix|] == ArcPrefix then s[|ArcPrefix|..] else s
  }

  /** Removing the prefix recovers the enum member's own name. */
  lemma ArcSuffixOfCaptured(w: string)
    ensures ArcSuffix(ArcPrefix + w) == w
  {
    assert (ArcPrefix + w)[..|ArcPrefix|] == ArcPrefix && (ArcPrefix + w)[|ArcPrefix|..] == w;
  }

  /** The classification with the prefix removed first, so that only the enum member's own name is tested. */
  function ClassifyArc(t: Option<string>): (r: Result<string, PyError>)
    ensures r.Err? <==> t.None?
    ensures t.Some? ==> r == ClassifyArcAsWritten(Some(ArcSuffix(t.value)))
  {
    match t
    case None => Err(TypeError)
    case Some(s) => ClassifyArcAsWritten(Some(ArcSuffix(s)))
  }

  /** Each of the three ARC types is classified by its own name. */
  lemma ArcTypesClassify()
    ensures ClassifyArc(Some(ArcPrefix + "NONE")) == Ok("NONE")
    ensures ClassifyArc(Some(ArcPrefix + "ARC")) == Ok("ARC")
    ensures ClassifyArc(Some(ArcPrefix + "eARC")) == Ok("eARC")
  {
    ArcSuffixOfCaptured("NONE");
    ArcSuffixOfCaptured("ARC");
    ArcSuffixOfCaptured("eARC");
    var none := "NONE";
    assert !Contains(none, "ARC") by {
      forall i: nat
        ensures !OccursAt(none, "ARC", i)
      {
        if i + 3 <= |none| {
          assert none[i..i + 3][0] == none[i];
        }
      }
    }
    ContainsAt("ARC", "ARC", 0);
    var arc := "ARC";
    assert !Contains(arc, "eARC");
    ContainsAt("eARC", "eARC", 0);
  }

  /** The Python values a feature dictionary carries. */
  datatype Value = Flag(b: bool) | Number(n: int) | Text(s: string) | Items(xs: seq<Value>)

  /** Python truthiness, as `if(val)` in boolToString reads it. */
  predicate Truthy(v: Value)
  {
    match v
    case Flag(b) => b
    case Number(n) => n != 0
    case Text(s) => s != ""
    case Items(xs) => xs != []
  }

  /** `v[i]` for i of 0 or 1: a list's element, a string's character; other values raise TypeError. */
  function Item(v: Value, i: nat): (r: Result<Value, PyError>)
    ensures v.Items? && i < |v.xs| ==> r == Ok(v.xs[i])
    ensures (v.Flag? || v.Number?) ==> r == Err(TypeError)
  {
    match v
    case Items(xs) => if i < |xs| then Ok(xs[i]) else Err(IndexError)
    case Text(s) => if i < |s| then Ok(Text([s[i]])) else Err(IndexError)
    case _ => Err(TypeError)
  }

  /** One answer the menu is sent after the port and feature prompts. */
  datatype Answer =
    | AsGiven(v: Value)    // the value itself, for a list selection
    | AsText(v: Value)     // `str(value)`
    | Choice(s: string)    // a boolToString answer

  /** What setMS12Feature does with a feature dictionary. */
  datatype FeatureRequest =
    | Refused                                  // returns False before any menu
    | Skipped                                  // an unknown feature name: returns without a menu
    | Menu(name: string, answers: seq<Answer>) // the "MS12 DAP Features" menu with these answers

  /** The features answered as "1: Enable, 2: Disable". */
  predicate IsSwitchFeature(name: string)
  {
    name == "DolbyVolume" || name == "SurroundDecoder" || name == "MISteering" || name == "LEConfig"
  }

  /** The features answered with a mode and a level or boost. */
  predicate IsPairFeature(name: string)
  {
    name == "Volumeleveller" || name == "SurroundVirtualizer"
  }

  /** The two answers of a [mode, level] feature value. */
  function PairAnswers(v: Value): (r: Result<seq<Answer>, PyError>)
    ensures r.Ok? ==> |r.value| == 2
    ensures v.Items? && |v.xs| >= 2 ==> r == Ok([AsText(v.xs[0]), AsText(v.xs[1])])
  {
    match Item(v, 0)
    case Err(x) => Err(x)
    case Ok(first) =>
      match Item(v, 1)
      case Err(x) => Err(x)
      case Ok(second) => Ok([AsText(first), AsText(second)])
  }

  /**
   * setMS12Feature: no dictionary, or one without exactly two entries, is
   * refused; a missing "name" or "value" key raises KeyError; the feature
   * name selects the answers that follow the port and feature prompts.
   */
  function MS12FeatureRequest(feature: Option<map<string, Value>>): (r: Result<FeatureRequest, PyError>)
    ensures feature.None? || |feature.value| != 2 ==> r == Ok(Refused)
    ensures feature.Some? && |feature.value| == 2 && ("name" !in feature.value || "value" !in feature.value) ==>
      r == Err(KeyError)
  {
    if feature.None? || |feature.value| != 2 then Ok(Refused)
    else if "name" !in feature.value || "value" !in feature.value then Err(KeyError)
    else
      var name := feature.value["name"];
      var value := feature.value["value"];
      if !name.Text? || FeatureFlag(name.s).Err? then Ok(Skipped)
      else if IsSwitchFeature(name.s) then Ok(Menu(name.s, [Choice(BoolToString(Truthy(value)))]))
      else if name.s == "IntelligentEqualizer" then Ok(Menu(name.s, [AsGiven(value)]))
      else if IsPairFeature(name.s) then
        match PairAnswers(value)
        case Err(x) => Err(x)
        case Ok(answers) => Ok(Menu(name.s, answers))
      else Ok(Menu(name.s, [AsText(value)]))
  }

  /** The menu is reached only with exactly the two keys and a known MS12 feature name, which the dictionary's "name" holds. */
  lemma MenuOnlyForWellFormed(feature: Option<map<string, Value>>)
    requires MS12FeatureRequest(feature).Ok? && MS12FeatureRequest(feature).value.Menu?
    ensures feature.Some? && |feature.value| == 2 && "name" in feature.value && "value" in feature.value
    ensures feature.value["name"] == Text(MS12FeatureRequest(feature).value.name)
    ensures FeatureFlag(MS12FeatureRequest(feature).value.name).Ok?
  {
  }

  /** Switch features send one answer, which the menu reads back as the value's truthiness. */
  lemma SwitchAnswerReadsBack(feature: map<string, Value>)
    requires |feature| == 2 && "name" in feature && "value" in feature
    requires feature["name"].Text? && IsSwitchFeature(feature["name"].s)
    ensures MS12FeatureRequest(Some(feature)).Ok?
    ensures var req := MS12FeatureRequest(Some(feature)).value;
      req.Menu? && |req.answers| == 1 && req.answers[0].Choice?
      && MenuBool(req.answers[0].s) == Some(Truthy(feature["value"]))
  {
    assert FeatureFlag(feature["name"].s).Ok?;
  }

  /** A [mode, level] list gives two answers in that order; a plain number raises TypeError. */
  lemma PairAnswersInOrder(feature: map<string, Value>, mode: Value, level: Value, n: int)
    requires |feature| == 2 && "name" in feature && "value" in feature
    requires feature["name"].Text? && IsPairFeature(feature["name"].s)
    ensures feature["value"] == Items([mode, level]) ==>
      MS12FeatureRequest(Some(feature)) == Ok(Menu(feature["name"].s, [AsText(mode), AsText(level)]))
    ensures feature["value"] == Number(n) ==> MS12FeatureRequest(Some(feature)) == Err(TypeError)
  {
    assert FeatureFlag(feature["name"].s).Ok?;
  }
}
