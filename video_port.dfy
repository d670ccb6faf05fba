/**
 * The video-port HAL as its level-1 conformance tests state it: an
 * init/term lifecycle, a handle per entry of the platform's port table,
 * and per-port settings (port enable, HDCP, HDMI preference, background
 * colour, preferred colour depth) behind the same validation order:
 * outside init NOT_INITIALIZED, then an unknown handle, then a bad
 * argument or a NULL pointer (INVALID_PARAM), then what only a source
 * device supports (OPERATION_NOT_SUPPORTED on a sink).
 */
module VideoPort {
  import opened HalCommon
  import opened DeviceSettings
  import opened AvdTypes
  import opened PortHandles

  /** One entry of the platform's video-port table. */
  datatype PortConfig = PortConfig(id: PortId, hdcpSupported: bool, hdcpProtocol: int, enabled: bool)

  /**
   * The platform profile: its port table, whether the device is a source
   * (set-top box) or a sink (television), and its preferred colour depth.
   */
  datatype VideoProfile = VideoProfile(ports: seq<PortConfig>, isSource: bool, colorDepth: int)

  /** An HDCP protocol version below dsHDCP_VERSION_MAX. */
  function HdcpVersionIsValid(v: int): (b: bool)
    ensures b <==> v == HdcpVersion1X || v == HdcpVersion2X
  {
    HdcpVersion1X <= v < HdcpVersionMax
  }

  /** A background colour below dsVIDEO_BGCOLOR_MAX. */
  function BackgroundColorIsValid(c: int): (b: bool)
    ensures b <==> c == BgBlue || c == BgBlack || c == BgNone
  {
    BgBlue <= c < BgMax
  }

  /** A preferred colour depth: UNKNOWN or one of the single-bit depths up to AUTO. */
  function ColorDepthIsValid(d: int): (b: bool)
    ensures b <==> d == ColorDepthUnknown || d in ColorDepths
  {
    d == 0 || (0 < d <= ColorDepthAuto && ColorDepthAuto % d == 0)
  }

  /** A key pointer and size that dsEnableHDCP accepts. */
  function HdcpKeyIsValid(hasKey: bool, keySize: nat): (b: bool)
    ensures b <==> hasKey && keySize <= 4096
  {
    hasKey && keySize <= HdcpKeyMaxSize
  }

  /** Every entry is a valid port type with a non-negative index and a valid HDCP version, and no port is listed twice. */
  predicate ProfileValid(p: VideoProfile)
  {
    && (forall i :: 0 <= i < |p.ports| ==>
          VideoPortTypeIsValid(p.ports[i].id.typeId) && p.ports[i].id.index >= 0 && HdcpVersionIsValid(p.ports[i].hdcpProtocol))
    && Distinct(PortIds(p.ports))
    && ColorDepthIsValid(p.colorDepth)
  }

  /** The names of the table's ports, in table order. */
  function PortIds(ports: seq<PortConfig>): (r: seq<PortId>)
    ensures |r| == |ports| && forall i :: 0 <= i < |r| ==> r[i] == ports[i].id
  {
    seq(|ports|, i requires 0 <= i < |ports| => ports[i].id)
  }

  /** Settings of one port; the background colour is None until one is set. */
  datatype PortState = PortState(enabled: bool, hdcpEnabled: bool, hdmiPreference: int, background: Option<int>, colorDepth: int)

  /** Every stored setting is one the HAL accepts. */
  predicate StateValid(s: PortState)
  {
    HdcpVersionIsValid(s.hdmiPreference) && ColorDepthIsValid(s.colorDepth)
    && (s.background.Some? ==> BackgroundColorIsValid(s.background.value))
  }

  /** A port as init leaves it: the platform's enable state, HDCP on where supported, the table's HDCP version, the profile's colour depth. */
  function InitialState(c: PortConfig, p: VideoProfile): PortState
  {
    PortState(c.enabled, c.hdcpSupported, c.hdcpProtocol, None, p.colorDepth)
  }

  function InitialStates(p: VideoProfile): (r: seq<PortState>)
    ensures |r| == |p.ports|
    ensures forall i :: 0 <= i < |r| ==> r[i] == InitialState(p.ports[i], p)
  {
    seq(|p.ports|, i requires 0 <= i < |p.ports| => InitialState(p.ports[i], p))
  }

  class VideoPortHal {
    const extendedEnums: bool
    const profile: VideoProfile
    var initialized: bool
    var states: seq<PortState>

    ghost predicate Valid()
      reads this
    {
      ProfileValid(profile) && |states| == |profile.ports|
      && forall i :: 0 <= i < |states| ==> StateValid(states[i])
    }

    constructor (extended: bool, p: VideoProfile)
      requires ProfileValid(p)
      ensures Valid()
      ensures extendedEnums == extended && profile == p
      ensures !initialized && states == InitialStates(p)
    {
      extendedEnums := extended;
      profile := p;
      initialized := false;
      states := InitialStates(p);
    }

    /**
     * The code a handle-taking call gets from its first two checks:
     * NOT_INITIALIZED outside init (INVALID_PARAM on a legacy
     * implementation), INVALID_PARAM for a handle never given out.
     */
    function HandleCode(handle: int): (r: DsError)
      reads this
      ensures r == NoError <==> initialized && PositionOf(handle, |profile.ports|).Some?
    {
      if !initialized then Ext(extendedEnums, NotInitialized, InvalidParam)
      else if PositionOf(handle, |profile.ports|).None? then InvalidParam
      else NoError
    }

    /** dsVideoPortInit: resets every port; a second call reports ALREADY_INITIALIZED (GENERAL on a legacy implementation). */
    method Init() returns (r: DsError)
      requires Valid()
      modifies this
      ensures Valid()
      ensures r == if old(initialized) then Ext(extendedEnums, AlreadyInitialized, General) else NoError
      ensures initialized
      ensures states == if old(initialized) then old(states) else InitialStates(profile)
    {
      if initialized {
        r := Ext(extendedEnums, AlreadyInitialized, General);
      } else {
        initialized := true;
        states := InitialStates(profile);
        r := NoError;
      }
    }

    /** dsVideoPortTerm: outside init NOT_INITIALIZED (NONE on a legacy implementation). */
    method Term() returns (r: DsError)
      requires Valid()
      modifies this
      ensures Valid()
      ensures r == if old(initialized) then NoError else Ext(extendedEnums, NotInitialized, NoError)
      ensures !initialized && states == old(states)
    {
      r := if initialized then NoError else Ext(extendedEnums, NotInitialized, NoError);
      initialized := false;
    }

    /**
     * dsGetVideoPort: an invalid type, a negative index or a NULL handle
     * pointer is INVALID_PARAM; a type the platform lacks is
     * OPERATION_NOT_SUPPORTED and an index it lacks INVALID_PARAM.
     * Outside init the legacy code is NONE.
     */
    method GetVideoPort(typeId: int, index: int, hasOut: bool) returns (r: DsError, handle: int)
      requires Valid()
      ensures r == (if !initialized then Ext(extendedEnums, NotInitialized, NoError)
                    else if !VideoPortTypeIsValid(typeId) || index < 0 || !hasOut then InvalidParam
                    else if FindPort(PortIds(profile.ports), PortId(typeId, index)).Some? then NoError
                    else if HasType(PortIds(profile.ports), typeId) then InvalidParam
                    else OperationNotSupported)
      ensures initialized && r == NoError ==>
                exists position: nat :: position < |profile.ports| && profile.ports[position].id == PortId(typeId, index) && handle == HandleOf(position)
    {
      handle := 0;
      if !initialized {
        r := Ext(extendedEnums, NotInitialized, NoError);
      } else if !VideoPortTypeIsValid(typeId) || index < 0 || !hasOut {
        r := InvalidParam;
      } else {
        var found := FindPort(PortIds(profile.ports), PortId(typeId, index));
        if found.Some? {
          var position: nat := found.value;
          handle := HandleOf(position);
          assert position < |profile.ports| && profile.ports[position].id == PortId(typeId, index);
          r := NoError;
        } else if HasType(PortIds(profile.ports), typeId) {
          r := InvalidParam;
        } else {
          r := OperationNotSupported;
        }
      }
    }

    /** dsIsVideoPortEnabled. */
    method IsVideoPortEnabled(handle: int, hasOut: bool) returns (r: DsError, enabled: bool)
      requires Valid()
      ensures r == (if HandleCode(handle) != NoError then HandleCode(handle)
                    else if !hasOut then InvalidParam
                    else NoError)
      ensures r == NoError ==> enabled == states[handle - 1].enabled
    {
      enabled := false;
      r := HandleCode(handle);
      if r == NoError {
        if !hasOut {
          r := InvalidParam;
        } else {
          enabled := states[handle - 1].enabled;
        }
      }
    }

    /** dsEnableVideoPort. */
    method EnableVideoPort(handle: int, enabled: bool) returns (r: DsError)
      requires Valid()
      modifies this
      ensures Valid()
      ensures r == HandleCode(handle)
      ensures initialized == old(initialized)
      ensures states == if r == NoError then old(states)[handle - 1 := old(states)[handle - 1].(enabled := enabled)]
                        else old(states)
    {
      r := HandleCode(handle);
      if r == NoError {
        states := states[handle - 1 := states[handle - 1].(enabled := enabled)];
      }
    }

    /**
     * dsEnableHDCP: an oversized or NULL key is INVALID_PARAM; a sink, or a
     * port without HDCP, is OPERATION_NOT_SUPPORTED.
     */
    method EnableHDCP(handle: int, enable: bool, hasKey: bool, keySize: nat) returns (r: DsError)
      requires Valid()
      modifies this
      ensures Valid()
      ensures r == (if HandleCode(handle) != NoError then HandleCode(handle)
                    else if !HdcpKeyIsValid(hasKey, keySize) then InvalidParam
                    else if !profile.isSource || !profile.ports[handle - 1].hdcpSupported then OperationNotSupported
                    else NoError)
      ensures initialized == old(initialized)
      ensures states == if r == NoError then old(states)[handle - 1 := old(states)[handle - 1].(hdcpEnabled := enable)]
                        else old(states)
    {
      r := HandleCode(handle);
      if r == NoError {
        if !HdcpKeyIsValid(hasKey, keySize) {
          r := InvalidParam;
        } else if !profile.isSource || !profile.ports[handle - 1].hdcpSupported {
          r := OperationNotSupported;
        } else {
          states := states[handle - 1 := states[handle - 1].(hdcpEnabled := enable)];
        }
      }
    }

    /** dsIsHDCPEnabled: a sink always reports content protection on; a source port without HDCP is OPERATION_NOT_SUPPORTED. */
    method IsHDCPEnabled(handle: int, hasOut: bool) returns (r: DsError, enabled: bool)
      requires Valid()
      ensures r == (if HandleCode(handle) != NoError then HandleCode(handle)
                    else if !hasOut then InvalidParam
                    else if profile.isSource && !profile.ports[handle - 1].hdcpSupported then OperationNotSupported
                    else NoError)
      ensures r == NoError ==> enabled == (!profile.isSource || states[handle - 1].hdcpEnabled)
    {
      enabled := false;
      r := HandleCode(handle);
      if r == NoError {
        if !hasOut {
          r := InvalidParam;
        } else if profile.isSource && !profile.ports[handle - 1].hdcpSupported {
          r := OperationNotSupported;
        } else {
          enabled := !profile.isSource || states[handle - 1].hdcpEnabled;
        }
      }
    }

    /** dsSetHdmiPreference: a version of dsHDCP_VERSION_MAX or beyond is INVALID_PARAM. */
    method SetHdmiPreference(handle: int, version: int) returns (r: DsError)
      requires Valid()
      modifies this
      ensures Valid()
      ensures r == (if HandleCode(handle) != NoError then HandleCode(handle)
                    else if !HdcpVersionIsValid(version) then InvalidParam
                    else NoError)
      ensures initialized == old(initialized)
      ensures states == if r == NoError then old(states)[handle - 1 := old(states)[handle - 1].(hdmiPreference := version)]
                        else old(states)
    {
      r := HandleCode(handle);
      if r == NoError {
        if !HdcpVersionIsValid(version) {
          r := InvalidParam;
        } else {
          states := states[handle - 1 := states[handle - 1].(hdmiPreference := version)];
        }
      }
    }

    /** dsGetHdmiPreference: the version last set, which is always a valid one. */
    method GetHdmiPreference(handle: int, hasOut: bool) returns (r: DsError, version: int)
      requires Valid()
      ensures r == (if HandleCode(handle) != NoError then HandleCode(handle)
                    else if !hasOut then InvalidParam
                    else NoError)
      ensures r == NoError ==> version == states[handle - 1].hdmiPreference && HdcpVersionIsValid(version)
    {
      version := 0;
      r := HandleCode(handle);
      if r == NoError {
        if !hasOut {
          r := InvalidParam;
        } else {
          version := states[handle - 1].hdmiPreference;
        }
      }
    }

    /** dsSetBackgroundColor: dsVIDEO_BGCOLOR_MAX or beyond is INVALID_PARAM; a sink does not support it. */
    method SetBackgroundColor(handle: int, color: int) returns (r: DsError)
      requires Valid()
      modifies this
      ensures Valid()
      ensures r == (if HandleCode(handle) != NoError then HandleCode(handle)
                    else if !BackgroundColorIsValid(color) then InvalidParam
                    else if !profile.isSource then OperationNotSupported
                    else NoError)
      ensures initialized == old(initialized)
      ensures states == if r == NoError then old(states)[handle - 1 := old(states)[handle - 1].(background := Some(color))]
                        else old(states)
    {
      r := HandleCode(handle);
      if r == NoError {
        if !BackgroundColorIsValid(color) {
          r := InvalidParam;
        } else if !profile.isSource {
          r := OperationNotSupported;
        } else {
          states := states[handle - 1 := states[handle - 1].(background := Some(color))];
        }
      }
    }

    /** dsGetPreferredColorDepth: a sink does not support it. */
    method GetPreferredColorDepth(handle: int, hasOut: bool) returns (r: DsError, depth: int)
      requires Valid()
      ensures r == (if HandleCode(handle) != NoError then HandleCode(handle)
                    else if !hasOut then InvalidParam
                    else if !profile.isSource then OperationNotSupported
                    else NoError)
      ensures r == NoError ==> depth == states[handle - 1].colorDepth && ColorDepthIsValid(depth)
    {
      depth := 0;
      r := HandleCode(handle);
      if r == NoError {
        if !hasOut {
          r := InvalidParam;
        } else if !profile.isSource {
          r := OperationNotSupported;
        } else {
          depth := states[handle - 1].colorDepth;
        }
      }
    }

    /** dsSetPreferredColorDepth: a value outside dsDisplayColorDepth_t is INVALID_PARAM; a sink does not support it. */
    method SetPreferredColorDepth(handle: int, depth: int) returns (r: DsError)
      requires Valid()
      modifies this
      ensures Valid()
      ensures r == (if HandleCode(handle) != NoError then HandleCode(handle)
                    else if !ColorDepthIsValid(depth) then InvalidParam
                    else if !profile.isSource then OperationNotSupported
                    else NoError)
      ensures initialized == old(initialized)
      ensures states == if r == NoError then old(states)[handle - 1 := old(states)[handle - 1].(colorDepth := depth)]
                        else old(states)
    {
      r := HandleCode(handle);
      if r == NoError {
        if !ColorDepthIsValid(depth) {
          r := InvalidParam;
        } else if !profile.isSource {
          r := OperationNotSupported;
        } else {
          states := states[handle - 1 := states[handle - 1].(colorDepth := depth)];
        }
      }
    }
  }
}
