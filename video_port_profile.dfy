/**
 * The host-side dsVideoPort helper's reading of the platform profile:
 * the "Ports" dictionary, keyed 1 to n, is walked in key order and the
 * numbers it holds are turned into the enum member names the host tests
 * compare against. A missing key raises KeyError, a number outside its
 * enum ValueError.
 */
module VideoPortProfile {
  import opened HalCommon
  import opened AvdTypes
  import opened ProfileCommon
  import Bits

  /** The members of dsVideoPortType, including its MAX member. */
  const PortTypeNames: seq<string> := [
    "dsVIDEOPORT_TYPE_RF", "dsVIDEOPORT_TYPE_BB", "dsVIDEOPORT_TYPE_SVIDEO", "dsVIDEOPORT_TYPE_1394",
    "dsVIDEOPORT_TYPE_DVI", "dsVIDEOPORT_TYPE_COMPONENT", "dsVIDEOPORT_TYPE_HDMI",
    "dsVIDEOPORT_TYPE_HDMI_INPUT", "dsVIDEOPORT_TYPE_INTERNAL", "dsVIDEOPORT_TYPE_MAX"]

  const HdcpVersionNames: seq<string> := ["dsHDCP_VERSION_1X", "dsHDCP_VERSION_2X", "dsHDCP_VERSION_MAX"]

  const PixelResolutionNames: seq<string> := [
    "dsVIDEO_PIXELRES_720x480", "dsVIDEO_PIXELRES_720x576", "dsVIDEO_PIXELRES_1280x720",
    "dsVIDEO_PIXELRES_1366x768", "dsVIDEO_PIXELRES_1920x1080", "dsVIDEO_PIXELRES_3840x2160",
    "dsVIDEO_PIXELRES_4096x2160", "dsVIDEO_PIXELRES_MAX"]

  const AspectRatioNames: seq<string> := ["dsVIDEO_ASPECT_RATIO_4x3", "dsVIDEO_ASPECT_RATIO_16x9", "dsVIDEO_ASPECT_RATIO_MAX"]

  const FrameRateNames: seq<string> := [
    "dsVIDEO_FRAMERATE_UNKNOWN", "dsVIDEO_FRAMERATE_24", "dsVIDEO_FRAMERATE_25", "dsVIDEO_FRAMERATE_30",
    "dsVIDEO_FRAMERATE_60", "dsVIDEO_FRAMERATE_23dot98", "dsVIDEO_FRAMERATE_29dot97",
    "dsVIDEO_FRAMERATE_50", "dsVIDEO_FRAMERATE_59dot94", "dsVIDEO_FRAMERATE_MAX"]

  const StereoScopicModeNames: seq<string> := [
    "dsVIDEO_SSMODE_UNKNOWN", "dsVIDEO_SSMODE_2D", "dsVIDEO_SSMODE_3D_SIDE_BY_SIDE",
    "dsVIDEO_SSMODE_3D_TOP_AND_BOTTOM", "dsVIDEO_SSMODE_MAX"]

  const ScanModeNames: seq<string> := ["dsVIDEO_SCANMODE_INTERLACED", "dsVIDEO_SCANMODE_PROGRESSIVE"]

  /** The dsHDRStandard members in definition order, with their values. */
  const HdrMemberNames: seq<string> := [
    "dsHDRSTANDARD_NONE", "dsHDRSTANDARD_HDR10", "dsHDRSTANDARD_HLG", "dsHDRSTANDARD_DolbyVision",
    "dsHDRSTANDARD_TechnicolorPrime", "dsHDRSTANDARD_HDR10PLUS", "dsHDRSTANDARD_SDR", "dsHDRSTANDARD_Invalid"]
  const HdrMemberValues: seq<nat> := [0x0, 0x01, 0x02, 0x04, 0x08, 0x10, 0x20, 0x80]

  /** The dsDisplayColorDepth members and their values. */
  const ColorDepthNames: seq<string> := [
    "dsDISPLAY_COLORDEPTH_UNKNOWN", "dsDISPLAY_COLORDEPTH_8BIT", "dsDISPLAY_COLORDEPTH_10BIT",
    "dsDISPLAY_COLORDEPTH_12BIT", "dsDISPLAY_COLORDEPTH_AUTO"]
  const ColorDepthValues: seq<nat> := [0x0, 0x01, 0x02, 0x04, 0x08]

  /** The Python enums agree with the C header: HDR standards other than NONE and colour depths other than UNKNOWN are distinct single bits. */
  lemma EnumsMatchHeader()
    ensures HdrMemberValues[0] == HdrNone && HdrMemberValues[1..] == HdrStandards
    ensures SingleBitFlags(HdrMemberValues[1..], HdrStandardBits)
    ensures ColorDepthValues[0] == ColorDepthUnknown && ColorDepthValues[1..] == ColorDepths
    ensures SingleBitFlags(ColorDepthValues[1..], ColorDepthBits)
  {
    HdrStandardsAreSingleBits();
    ColorDepthsAreSingleBits();
  }

  /** One entry of a port's "supportedResolutions" dictionary. */
  datatype Resolution = Resolution(pixelResolution: int, aspectRatio: int, stereoScopicMode: int, frameRate: int, interlaced: int)

  /** The five enum names getResolutions emits for one resolution. */
  datatype ResolutionNames = ResolutionNames(
    pixelResolution: string, aspectRatio: string, stereoScopicMode: string, frameRate: string, interlaced: string)

  /** One entry of the profile's "Ports" dictionary. */
  datatype VideoEntry = VideoEntry(
    typeId: int, index: int, hdcpVersion: int,
    resolutionCount: int, resolutions: map<int, Resolution>, hdrCapabilities: nat)

  /** A [Typeid name, Index] pair as getSupportedPorts returns it. */
  datatype VideoPortName = VideoPortName(name: string, index: int)

  /** The dictionary is keyed 1 to n. */
  predicate KeyedFromOne(ports: map<int, VideoEntry>)
  {
    forall k :: 1 <= k <= |ports| ==> k in ports
  }

  /** The pairs of entries `i` to n. */
  function PortsFrom(ports: map<int, VideoEntry>, i: nat): Result<seq<VideoPortName>, PyError>
    requires i >= 1
    decreases |ports| + 1 - i
  {
    if i > |ports| then Ok([])
    else if i !in ports then Err(KeyError)
    else match EnumName(PortTypeNames, ports[i].typeId)
      case Err(x) => Err(x)
      case Ok(name) => Prepend([VideoPortName(name, ports[i].index)], PortsFrom(ports, i + 1))
  }

  /** getSupportedPorts. */
  method SupportedPorts(ports: map<int, VideoEntry>) returns (r: Result<seq<VideoPortName>, PyError>)
    ensures r == PortsFrom(ports, 1)
  {
    var portLists: seq<VideoPortName> := [];
    var i := 1;
    PrependLaws(portLists, [], PortsFrom(ports, 1));
    while i <= |ports|
      invariant 1 <= i <= |ports| + 1
      invariant PortsFrom(ports, 1) == Prepend(portLists, PortsFrom(ports, i))
      decreases |ports| + 1 - i
    {
      if i !in ports {
        return Err(KeyError);
      }
      var name := EnumName(PortTypeNames, ports[i].typeId);
      if name.Err? {
        return Err(name.error);
      }
      PrependLaws(portLists, [VideoPortName(name.value, ports[i].index)], PortsFrom(ports, i + 1));
      portLists := portLists + [VideoPortName(name.value, ports[i].index)];
      i := i + 1;
    }
    PrependLaws(portLists, [], PortsFrom(ports, i));
    assert portLists + [] == portLists;
    r := Ok(portLists);
  }

  /** On a table keyed 1 to n with valid types, the pairs are the entries' names and indices in key order. */
  lemma {:induction false} PortsFromMeaning(ports: map<int, VideoEntry>, i: nat)
    requires 1 <= i <= |ports| + 1 && KeyedFromOne(ports)
    requires forall k :: 1 <= k <= |ports| ==> 0 <= ports[k].typeId < |PortTypeNames|
    ensures PortsFrom(ports, i).Ok?
    ensures |PortsFrom(ports, i).value| == |ports| + 1 - i
    ensures forall j :: 0 <= j < |ports| + 1 - i ==>
      PortsFrom(ports, i).value[j] == VideoPortName(PortTypeNames[ports[i + j].typeId], ports[i + j].index)
    decreases |ports| + 1 - i
  {
    if i <= |ports| {
      PortsFromMeaning(ports, i + 1);
      var rest := PortsFrom(ports, i + 1).value;
      var head := VideoPortName(PortTypeNames[ports[i].typeId], ports[i].index);
      assert PortsFrom(ports, i) == Ok([head] + rest);
      forall j | 1 <= j < |ports| + 1 - i
        ensures ([head] + rest)[j] == VideoPortName(PortTypeNames[ports[i + j].typeId], ports[i + j].index)
      {
        assert ([head] + rest)[j] == rest[j - 1];
        assert i + 1 + (j - 1) == i + j;
      }
    }
  }

  /** What getHDCPVersion returns: the integer 0 untouched, or a version name. */
  datatype HdcpVersion = Unset | VersionName(name: string)

  /** The variable after entries `i` to n have overwritten `last`. */
  function HdcpVersionFrom(ports: map<int, VideoEntry>, i: nat, last: HdcpVersion): Result<HdcpVersion, PyError>
    requires i >= 1
    decreases |ports| + 1 - i
  {
    if i > |ports| then Ok(last)
    else if i !in ports then Err(KeyError)
    else match EnumName(HdcpVersionNames, ports[i].hdcpVersion)
      case Err(x) => Err(x)
      case Ok(name) => HdcpVersionFrom(ports, i + 1, VersionName(name))
  }

  /** getHDCPVersion: each entry overwrites the result. */
  method HDCPVersion(ports: map<int, VideoEntry>) returns (r: Result<HdcpVersion, PyError>)
    ensures r == HdcpVersionFrom(ports, 1, Unset)
  {
    var version := Unset;
    var i := 1;
    while i <= |ports|
      invariant 1 <= i <= |ports| + 1
      invariant HdcpVersionFrom(ports, 1, Unset) == HdcpVersionFrom(ports, i, version)
      decreases |ports| + 1 - i
    {
      if i !in ports {
        return Err(KeyError);
      }
      var name := EnumName(HdcpVersionNames, ports[i].hdcpVersion);
      if name.Err? {
        return Err(name.error);
      }
      version := VersionName(name.value);
      i := i + 1;
    }
    r := Ok(version);
  }

  /** On a table keyed 1 to n with valid versions, the result is the last entry's version, or 0 for an empty table. */
  lemma {:induction false} HdcpVersionIsLast(ports: map<int, VideoEntry>, i: nat, last: HdcpVersion)
    requires 1 <= i <= |ports| + 1 && KeyedFromOne(ports)
    requires forall k :: 1 <= k <= |ports| ==> 0 <= ports[k].hdcpVersion < |HdcpVersionNames|
    ensures HdcpVersionFrom(ports, i, last) ==
            if i > |ports| then Ok(last) else Ok(VersionName(HdcpVersionNames[ports[|ports|].hdcpVersion]))
    decreases |ports| + 1 - i
  {
    if i <= |ports| {
      HdcpVersionIsLast(ports, i + 1, VersionName(HdcpVersionNames[ports[i].hdcpVersion]));
    }
  }

  /**
   * The five names of one resolution. The helper converts the fields one
   * after another and the first number outside its enum raises ValueError;
   * since every failure is the same ValueError, the order does not show.
   */
  predicate Converts(res: Resolution)
  {
    && 0 <= res.pixelResolution < |PixelResolutionNames| && 0 <= res.aspectRatio < |AspectRatioNames|
    && 0 <= res.stereoScopicMode < |StereoScopicModeNames| && 0 <= res.frameRate < |FrameRateNames|
    && 0 <= res.interlaced < |ScanModeNames|
  }

  function NamesOf(res: Resolution): Result<ResolutionNames, PyError>
  {
    if Converts(res) then
      Ok(ResolutionNames(
        PixelResolutionNames[res.pixelResolution], AspectRatioNames[res.aspectRatio],
        StereoScopicModeNames[res.stereoScopicMode], FrameRateNames[res.frameRate], ScanModeNames[res.interlaced]))
    else Err(ValueError)
  }

  /** The conversion as the helper writes it: one field after another, the first number outside its enum raising. */
  function NamesInOrder(res: Resolution): Result<ResolutionNames, PyError>
  {
    match EnumName(PixelResolutionNames, res.pixelResolution)
    case Err(x) => Err(x)
    case Ok(pixel) =>
      match EnumName(AspectRatioNames, res.aspectRatio)
      case Err(x) => Err(x)
      case Ok(aspect) =>
        match EnumName(StereoScopicModeNames, res.stereoScopicMode)
        case Err(x) => Err(x)
        case Ok(stereo) =>
          match EnumName(FrameRateNames, res.frameRate)
          case Err(x) => Err(x)
          case Ok(rate) =>
            match EnumName(ScanModeNames, res.interlaced)
            case Err(x) => Err(x)
            case Ok(scan) => Ok(ResolutionNames(pixel, aspect, stereo, rate, scan))
  }

  /** Converting the fields in order gives the same record, or the same ValueError, as checking all five at once. */
  lemma NamesInOrderAgrees(res: Resolution)
    ensures NamesInOrder(res) == NamesOf(res)
  {
  }

  /** The records of one port for resolution indices `j` to its count; an index the dictionary lacks is skipped. */
  function EntryResolutionsFrom(e: VideoEntry, j: int): Result<seq<ResolutionNames>, PyError>
    requires j >= 1
    decreases e.resolutionCount + 1 - j
  {
    if j > e.resolutionCount then Ok([])
    else if j !in e.resolutions then EntryResolutionsFrom(e, j + 1)
    else match NamesOf(e.resolutions[j])
      case Err(x) => Err(x)
      case Ok(names) => Prepend([names], EntryResolutionsFrom(e, j + 1))
  }

  /** The records of entries `i` to n, port by port. */
  function ResolutionsFrom(ports: map<int, VideoEntry>, i: nat): Result<seq<ResolutionNames>, PyError>
    requires i >= 1
    decreases |ports| + 1 - i
  {
    if i > |ports| then Ok([])
    else if i !in ports then Err(KeyError)
    else match EntryResolutionsFrom(ports[i], 1)
      case Err(x) => Err(x)
      case Ok(records) => Prepend(records, ResolutionsFrom(ports, i + 1))
  }

  /** The inner loop of getResolutions, over one port's resolution indices. */
  method EntryResolutions(e: VideoEntry) returns (r: Result<seq<ResolutionNames>, PyError>)
    ensures r == EntryResolutionsFrom(e, 1)
  {
    var records: seq<ResolutionNames> := [];
    var j := 1;
    PrependLaws(records, [], EntryResolutionsFrom(e, 1));
    while j <= e.resolutionCount
      invariant 1 <= j && (e.resolutionCount >= 1 ==> j <= e.resolutionCount + 1)
      invariant EntryResolutionsFrom(e, 1) == Prepend(records, EntryResolutionsFrom(e, j))
      decreases e.resolutionCount + 1 - j
    {
      if j in e.resolutions {
        var names := NamesOf(e.resolutions[j]);
        if names.Err? {
          return Err(names.error);
        }
        PrependLaws(records, [names.value], EntryResolutionsFrom(e, j + 1));
        records := records + [names.value];
      }
      j := j + 1;
    }
    PrependLaws(records, [], EntryResolutionsFrom(e, j));
    assert records + [] == records;
    r := Ok(records);
  }

  /** getResolutions. */
  method Resolutions(ports: map<int, VideoEntry>) returns (r: Result<seq<ResolutionNames>, PyError>)
    ensures r == ResolutionsFrom(ports, 1)
  {
    var resolutionsList: seq<ResolutionNames> := [];
    var i := 1;
    PrependLaws(resolutionsList, [], ResolutionsFrom(ports, 1));
    while i <= |ports|
      invariant 1 <= i <= |ports| + 1
      invariant ResolutionsFrom(ports, 1) == Prepend(resolutionsList, ResolutionsFrom(ports, i))
      decreases |ports| + 1 - i
    {
      if i !in ports {
        return Err(KeyError);
      }
      var records := EntryResolutions(ports[i]);
      if records.Err? {
        return Err(records.error);
      }
      PrependLaws(resolutionsList, records.value, ResolutionsFrom(ports, i + 1));
      resolutionsList := resolutionsList + records.value;
      i := i + 1;
    }
    PrependLaws(resolutionsList, [], ResolutionsFrom(ports, i));
    assert resolutionsList + [] == resolutionsList;
    r := Ok(resolutionsList);
  }

  /** One present, valid index puts its record in front of the rest. */
  lemma EntryResolutionsStep(e: VideoEntry, j: int)
    requires 1 <= j <= e.resolutionCount && j in e.resolutions && NamesOf(e.resolutions[j]).Ok?
    ensures EntryResolutionsFrom(e, j) == Prepend([NamesOf(e.resolutions[j]).value], EntryResolutionsFrom(e, j + 1))
  {
  }

  /** A port whose dictionary lacks every index from `j` on contributes no record. */
  lemma {:induction false} MissingResolutionsSkipped(e: VideoEntry, j: int)
    requires j >= 1
    requires forall k :: j <= k <= e.resolutionCount ==> k !in e.resolutions
    ensures EntryResolutionsFrom(e, j) == Ok([])
    decreases e.resolutionCount + 1 - j
  {
    if j <= e.resolutionCount {
      MissingResolutionsSkipped(e, j + 1);
    }
  }

  /** A port listing every index from `j` to its count, each valid, contributes one record per index, in index order. */
  lemma {:induction false} PresentResolutionsListed(e: VideoEntry, j: int)
    requires 1 <= j <= e.resolutionCount + 1
    requires forall k :: j <= k <= e.resolutionCount ==> k in e.resolutions && Converts(e.resolutions[k])
    ensures EntryResolutionsFrom(e, j).Ok?
    ensures |EntryResolutionsFrom(e, j).value| == e.resolutionCount + 1 - j
    ensures forall t :: 0 <= t < e.resolutionCount + 1 - j ==>
      EntryResolutionsFrom(e, j).value[t] == NamesOf(e.resolutions[j + t]).value
    decreases e.resolutionCount + 1 - j
  {
    if j <= e.resolutionCount {
      PresentResolutionsListed(e, j + 1);
      EntryResolutionsStep(e, j);
      var rest := EntryResolutionsFrom(e, j + 1).value;
      var all := [NamesOf(e.resolutions[j]).value] + rest;
      assert EntryResolutionsFrom(e, j) == Ok(all);
      forall t | 0 <= t < e.resolutionCount + 1 - j
        ensures all[t] == NamesOf(e.resolutions[j + t]).value
      {
        if t > 0 {
          assert all[t] == rest[t - 1];
          assert j + 1 + (t - 1) == j + t;
        }
      }
    }
  }

  /** The field getAspectRatio, getStereoScopicMode, getFrameRates or getScanModes reads from each resolution. */
  datatype ResolutionField = AspectRatioField | StereoScopicModeField | FrameRateField | ScanModeField

  function FieldValue(res: Resolution, f: ResolutionField): int
  {
    match f
    case AspectRatioField => res.aspectRatio
    case StereoScopicModeField => res.stereoScopicMode
    case FrameRateField => res.frameRate
    case ScanModeField => res.interlaced
  }

  function FieldNames(f: ResolutionField): seq<string>
  {
    match f
    case AspectRatioField => AspectRatioNames
    case StereoScopicModeField => StereoScopicModeNames
    case FrameRateField => FrameRateNames
    case ScanModeField => ScanModeNames
  }

  /** The name getResolutions records for that field. */
  function FieldOf(names: ResolutionNames, f: ResolutionField): string
  {
    match f
    case AspectRatioField => names.aspectRatio
    case StereoScopicModeField => names.stereoScopicMode
    case FrameRateField => names.frameRate
    case ScanModeField => names.interlaced
  }

  function FieldsOf(records: seq<ResolutionNames>, f: ResolutionField): (r: seq<string>)
    ensures |r| == |records| && forall t :: 0 <= t < |r| ==> r[t] == FieldOf(records[t], f)
  {
    if records == [] then [] else [FieldOf(records[0], f)] + FieldsOf(records[1..], f)
  }

  /** The names of one field for resolution indices `j` to the port's count; an index the dictionary lacks is skipped. */
  function EntryFieldFrom(e: VideoEntry, j: int, f: ResolutionField): Result<seq<string>, PyError>
    requires j >= 1
    decreases e.resolutionCount + 1 - j
  {
    if j > e.resolutionCount then Ok([])
    else if j !in e.resolutions then EntryFieldFrom(e, j + 1, f)
    else match EnumName(FieldNames(f), FieldValue(e.resolutions[j], f))
      case Err(x) => Err(x)
      case Ok(name) => Prepend([name], EntryFieldFrom(e, j + 1, f))
  }

  /** The names of one field for entries `i` to n, port by port. */
  function FieldFrom(ports: map<int, VideoEntry>, i: nat, f: ResolutionField): Result<seq<string>, PyError>
    requires i >= 1
    decreases |ports| + 1 - i
  {
    if i > |ports| then Ok([])
    else if i !in ports then Err(KeyError)
    else match EntryFieldFrom(ports[i], 1, f)
      case Err(x) => Err(x)
      case Ok(names) => Prepend(names, FieldFrom(ports, i + 1, f))
  }

  /** The inner loop of the single-field listings, over one port's resolution indices. */
  method EntryField(e: VideoEntry, f: ResolutionField) returns (r: Result<seq<string>, PyError>)
    ensures r == EntryFieldFrom(e, 1, f)
  {
    var names: seq<string> := [];
    var j := 1;
    PrependLaws(names, [], EntryFieldFrom(e, 1, f));
    while j <= e.resolutionCount
      invariant 1 <= j && (e.resolutionCount >= 1 ==> j <= e.resolutionCount + 1)
      invariant EntryFieldFrom(e, 1, f) == Prepend(names, EntryFieldFrom(e, j, f))
      decreases e.resolutionCount + 1 - j
    {
      if j in e.resolutions {
        var name := EnumName(FieldNames(f), FieldValue(e.resolutions[j], f));
        if name.Err? {
          return Err(name.error);
        }
        PrependLaws(names, [name.value], EntryFieldFrom(e, j + 1, f));
        names := names + [name.value];
      }
      j := j + 1;
    }
    PrependLaws(names, [], EntryFieldFrom(e, j, f));
    assert names + [] == names;
    r := Ok(names);
  }

  /** getAspectRatio, getStereoScopicMode, getFrameRates and getScanModes, one field each. */
  method FieldList(ports: map<int, VideoEntry>, f: ResolutionField) returns (r: Result<seq<string>, PyError>)
    ensures r == FieldFrom(ports, 1, f)
  {
    var list: seq<string> := [];
    var i := 1;
    PrependLaws(list, [], FieldFrom(ports, 1, f));
    while i <= |ports|
      invariant 1 <= i <= |ports| + 1
      invariant FieldFrom(ports, 1, f) == Prepend(list, FieldFrom(ports, i, f))
      decreases |ports| + 1 - i
    {
      if i !in ports {
        return Err(KeyError);
      }
      var names := EntryField(ports[i], f);
      if names.Err? {
        return Err(names.error);
      }
      PrependLaws(list, names.value, FieldFrom(ports, i + 1, f));
      list := list + names.value;
      i := i + 1;
    }
    PrependLaws(list, [], FieldFrom(ports, i, f));
    assert list + [] == list;
    r := Ok(list);
  }

  /** A resolution getResolutions converts gives each single-field listing the same name for that field. */
  lemma FieldNameAgrees(res: Resolution, f: ResolutionField)
    requires NamesOf(res).Ok?
    ensures EnumName(FieldNames(f), FieldValue(res, f)) == Ok(FieldOf(NamesOf(res).value, f))
  {
  }

  lemma FieldsOfConcat(a: seq<ResolutionNames>, b: seq<ResolutionNames>, f: ResolutionField)
    ensures FieldsOf(a + b, f) == FieldsOf(a, f) + FieldsOf(b, f)
  {
  }

  /** Where getResolutions succeeds on a port, each single-field listing gives that field of its records. */
  lemma {:induction false} EntryFieldAgrees(e: VideoEntry, j: int, f: ResolutionField)
    requires j >= 1 && EntryResolutionsFrom(e, j).Ok?
    ensures EntryFieldFrom(e, j, f) == Ok(FieldsOf(EntryResolutionsFrom(e, j).value, f))
    decreases e.resolutionCount + 1 - j
  {
    if j <= e.resolutionCount {
      EntryFieldAgrees(e, j + 1, f);
      if j in e.resolutions {
        FieldNameAgrees(e.resolutions[j], f);
        FieldsOfConcat([NamesOf(e.resolutions[j]).value], EntryResolutionsFrom(e, j + 1).value, f);
      }
    }
  }

  /** Where getResolutions succeeds, getAspectRatio, getStereoScopicMode, getFrameRates and getScanModes list that field of its records, in the same order. */
  lemma {:induction false} FieldListsAgree(ports: map<int, VideoEntry>, i: nat, f: ResolutionField)
    requires i >= 1 && ResolutionsFrom(ports, i).Ok?
    ensures FieldFrom(ports, i, f) == Ok(FieldsOf(ResolutionsFrom(ports, i).value, f))
    decreases |ports| + 1 - i
  {
    if i <= |ports| {
      FieldListsAgree(ports, i + 1, f);
      EntryFieldAgrees(ports[i], 1, f);
      FieldsOfConcat(EntryResolutionsFrom(ports[i], 1).value, ResolutionsFrom(ports, i + 1).value, f);
    }
  }

  /** The names of the enum members from position `m` on whose value shares a bit with `cap`. */
  function MembersSet(cap: nat, names: seq<string>, values: seq<nat>, m: nat): seq<string>
    requires |names| == |values| && m <= |names|
    decreases |names| - m
  {
    if m == |names| then []
    else (if Bits.BitAnd(cap, values[m]) != 0 then [names[m]] else []) + MembersSet(cap, names, values, m + 1)
  }

  /** The HDR formats one port lists. */
  function HdrFormatsOf(cap: nat): seq<string>
  {
    MembersSet(cap, HdrMemberNames, HdrMemberValues, 0)
  }

  /** The inner loop of getHDRCapabilities, over the members of an enum. */
  method ListMembers(cap: nat, names: seq<string>, values: seq<nat>) returns (formats: seq<string>)
    requires |names| == |values|
    ensures formats == MembersSet(cap, names, values, 0)
  {
    formats := [];
    var m := 0;
    while m < |names|
      invariant 0 <= m <= |names|
      invariant MembersSet(cap, names, values, 0) == formats + MembersSet(cap, names, values, m)
    {
      if Bits.BitAnd(cap, values[m]) != 0 {
        formats := formats + [names[m]];
      }
      m := m + 1;
    }
    assert formats + [] == formats;
  }

  /** The formats of entries `i` to n, port by port. */
  function HdrFrom(ports: map<int, VideoEntry>, i: nat): Result<seq<string>, PyError>
    requires i >= 1
    decreases |ports| + 1 - i
  {
    if i > |ports| then Ok([])
    else if i !in ports then Err(KeyError)
    else Prepend(HdrFormatsOf(ports[i].hdrCapabilities), HdrFrom(ports, i + 1))
  }

  /** getHDRCapabilities. */
  method HDRCapabilities(ports: map<int, VideoEntry>) returns (r: Result<seq<string>, PyError>)
    ensures r == HdrFrom(ports, 1)
  {
    var supported: seq<string> := [];
    var i := 1;
    PrependLaws(supported, [], HdrFrom(ports, 1));
    while i <= |ports|
      invariant 1 <= i <= |ports| + 1
      invariant HdrFrom(ports, 1) == Prepend(supported, HdrFrom(ports, i))
      decreases |ports| + 1 - i
    {
      if i !in ports {
        return Err(KeyError);
      }
      var formats := ListMembers(ports[i].hdrCapabilities, HdrMemberNames, HdrMemberValues);
      PrependLaws(supported, formats, HdrFrom(ports, i + 1));
      supported := supported + formats;
      i := i + 1;
    }
    PrependLaws(supported, [], HdrFrom(ports, i));
    assert supported + [] == supported;
    r := Ok(supported);
  }

  /** The members from position `m` on are listed exactly when their value shares a bit with `cap`, provided the names are distinct. */
  lemma {:induction false} MembersSetHas(cap: nat, names: seq<string>, values: seq<nat>, m: nat, k: nat)
    requires |names| == |values| && m <= k < |names|
    requires forall a, b :: 0 <= a < b < |names| ==> names[a] != names[b]
    ensures names[k] in MembersSet(cap, names, values, m) <==> Bits.BitAnd(cap, values[k]) != 0
    decreases |names| - m
  {
    var head := if Bits.BitAnd(cap, values[m]) != 0 then [names[m]] else [];
    assert MembersSet(cap, names, values, m) == head + MembersSet(cap, names, values, m + 1);
    if m < k {
      MembersSetHas(cap, names, values, m + 1, k);
    } else {
      NotListedAfter(cap, names, values, m + 1, names[k]);
    }
  }

  /** A name that occurs at no position from `m` on is not listed from `m` on. */
  lemma {:induction false} NotListedAfter(cap: nat, names: seq<string>, values: seq<nat>, m: nat, name: string)
    requires |names| == |values| && m <= |names|
    requires forall j :: m <= j < |names| ==> names[j] != name
    ensures name !in MembersSet(cap, names, values, m)
    decreases |names| - m
  {
    if m < |names| {
      NotListedAfter(cap, names, values, m + 1, name);
    }
  }

  lemma HdrMemberNamesDistinct()
    ensures forall a, b :: 0 <= a < b < |HdrMemberNames| ==> HdrMemberNames[a] != HdrMemberNames[b]
  {
  }

  /** NONE is never listed, and each other standard is listed exactly when its bit is set in the port's capabilities. */
  lemma HdrFormatsMeaning(cap: nat, k: nat)
    requires 1 <= k < |HdrMemberNames|
    ensures "dsHDRSTANDARD_NONE" !in HdrFormatsOf(cap)
    ensures HdrMemberNames[k] in HdrFormatsOf(cap) <==> Bits.Bit(cap, HdrStandardBits[k - 1]) == 1
  {
    HdrMemberNamesDistinct();
    MembersSetHas(cap, HdrMemberNames, HdrMemberValues, 0, 0);
    MembersSetHas(cap, HdrMemberNames, HdrMemberValues, 0, k);
    EnumsMatchHeader();
    assert HdrMemberValues[k] == Bits.Pow2(HdrStandardBits[k - 1]);
    Bits.AndPow2(cap, HdrStandardBits[k - 1]);
  }

  /** getColorDepth: the name of the profile's "color_depth"; a missing or unknown value raises ValueError. */
  function ColorDepthName(d: Option<int>): (r: Result<string, PyError>)
    ensures r.Ok? <==> d.Some? && (d.value == ColorDepthUnknown || d.value in ColorDepths)
    ensures r.Err? ==> r.error == ValueError
    ensures r.Ok? ==> exists k :: 0 <= k < |ColorDepthValues| && ColorDepthValues[k] == d.value && r.value == ColorDepthNames[k]
  {
    if d.None? then Err(ValueError)
    else if d.value == 0x0 then (assert ColorDepthValues[0] == d.value; Ok(ColorDepthNames[0]))
    else if d.value == 0x01 then (assert ColorDepthValues[1] == d.value; Ok(ColorDepthNames[1]))
    else if d.value == 0x02 then (assert ColorDepthValues[2] == d.value; Ok(ColorDepthNames[2]))
    else if d.value == 0x04 then (assert ColorDepthValues[3] == d.value; Ok(ColorDepthNames[3]))
    else if d.value == 0x08 then (assert ColorDepthValues[4] == d.value; Ok(ColorDepthNames[4]))
    else Err(ValueError)
  }
}
