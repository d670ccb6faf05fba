/**
 * The level-1 video-port tests as scenarios over `VideoPortHal`: each
 * method runs one test's call sequence on a fresh HAL and states the codes
 * and values the test asserts. `extended` is extendedEnumsSupported and
 * `k` a position in the platform's port table, standing for the tests'
 * loop over every port.
 */
module VideoPortTests {
  import opened HalCommon
  import opened DeviceSettings
  import opened AvdTypes
  import opened VideoPort
  import opened PortHandles

  /** dsGetVideoPort on table entry `k` in init succeeds with that entry's handle. */
  method PortHandle(hal: VideoPortHal, k: nat) returns (r: DsError, handle: int)
    requires hal.Valid() && hal.initialized && k < |hal.profile.ports|
    ensures r == NoError && handle == HandleOf(k)
  {
    var ids := PortIds(hal.profile.ports);
    var id := hal.profile.ports[k].id;
    FindsEachPort(ids, k);
    r, handle := hal.GetVideoPort(id.typeId, id.index, true);
    ghost var position: nat :| position < |ids| && ids[position] == id && handle == HandleOf(position);
    NamedOnlyAt(ids, k, position);
  }

  /** The init and term tests: init and term alternate freely; a second init and a spare term are refused. */
  method InitTermScenario(extended: bool, p: VideoProfile) returns (codes: seq<DsError>)
    requires ProfileValid(p)
    ensures codes == [
      NoError, NoError, NoError, NoError,                       // init, term, init, term
      NoError, Ext(extended, AlreadyInitialized, General), NoError, // init, init again, term
      Ext(extended, NotInitialized, NoError), NoError, NoError,  // term before init, init, term
      Ext(extended, NotInitialized, NoError)]                    // term after term
  {
    var hal := new VideoPortHal(extended, p);
    var a := hal.Init();
    var b := hal.Term();
    var c := hal.Init();
    var d := hal.Term();
    var e := hal.Init();
    var f := hal.Init();
    var g := hal.Term();
    var h := hal.Term();
    var i := hal.Init();
    var j := hal.Term();
    var l := hal.Term();
    codes := [a, b, c, d, e, f, g, h, i, j, l];
  }

  /**
   * The positive dsGetVideoPort test: every table entry yields a handle,
   * the handles are distinct, and asking again for the last entry yields
   * the same handle.
   */
  method GetVideoPortScenario(extended: bool, p: VideoProfile)
    returns (codes: seq<DsError>, handles: seq<int>, lastHandle: int, newHandle: int)
    requires ProfileValid(p) && |p.ports| > 0
    ensures |codes| == |handles| == |p.ports|
    ensures forall i :: 0 <= i < |codes| ==> codes[i] == NoError
    ensures forall i, j :: 0 <= i < j < |handles| ==> handles[i] != handles[j]
    ensures lastHandle == handles[|handles| - 1] && newHandle == lastHandle
  {
    var hal := new VideoPortHal(extended, p);
    var r := hal.Init();
    codes := [];
    handles := [];
    var i := 0;
    while i < |p.ports|
      invariant 0 <= i <= |p.ports|
      invariant hal.Valid() && hal.initialized && hal.profile == p
      invariant |codes| == i && |handles| == i
      invariant forall j :: 0 <= j < i ==> codes[j] == NoError && handles[j] == HandleOf(j)
    {
      var c, h := PortHandle(hal, i);
      codes := codes + [c];
      handles := handles + [h];
      i := i + 1;
    }
    lastHandle := handles[|handles| - 1];
    var c;
    c, newHandle := PortHandle(hal, |p.ports| - 1);
    r := hal.Term();
  }

  /** The negative dsGetVideoPort test, for table entry `k`. */
  method GetVideoPortNegativeScenario(extended: bool, p: VideoProfile, k: nat) returns (codes: seq<DsError>)
    requires ProfileValid(p) && k < |p.ports|
    ensures codes == [
      Ext(extended, NotInitialized, NoError),       // before init
      InvalidParam, InvalidParam, InvalidParam,     // type MAX, index -1, NULL handle pointer
      Ext(extended, NotInitialized, NoError)]       // after term
  {
    var hal := new VideoPortHal(extended, p);
    var port := p.ports[k];
    var a, h := hal.GetVideoPort(port.id.typeId, port.id.index, true);
    var r := hal.Init();
    var b, c, d;
    b, h := hal.GetVideoPort(VideoPortMax, port.id.index, true);
    c, h := hal.GetVideoPort(port.id.typeId, -1, true);
    d, h := hal.GetVideoPort(port.id.typeId, port.id.index, false);
    r := hal.Term();
    var e;
    e, h := hal.GetVideoPort(port.id.typeId, port.id.index, true);
    codes := [a, b, c, d, e];
  }

  /**
   * The positive dsIsVideoPortEnabled test: for every table entry, two
   * reads succeed and agree; both report the entry's initial enable state,
   * a platform setting the table carries.
   */
  method IsEnabledScenario(extended: bool, p: VideoProfile)
    returns (codes: seq<DsError>, first: seq<bool>, second: seq<bool>)
    requires ProfileValid(p)
    ensures |codes| == 3 * |p.ports| && |first| == |second| == |p.ports|
    ensures forall i :: 0 <= i < |codes| ==> codes[i] == NoError
    ensures forall i :: 0 <= i < |p.ports| ==> first[i] == second[i] == p.ports[i].enabled
  {
    var hal := new VideoPortHal(extended, p);
    var r := hal.Init();
    codes, first, second := [], [], [];
    var i := 0;
    while i < |p.ports|
      invariant 0 <= i <= |p.ports|
      invariant hal.Valid() && hal.initialized && hal.profile == p && hal.states == InitialStates(p)
      invariant |codes| == 3 * i && |first| == |second| == i
      invariant forall j :: 0 <= j < |codes| ==> codes[j] == NoError
      invariant forall j :: 0 <= j < i ==> first[j] == second[j] == p.ports[j].enabled
    {
      var c, handle := PortHandle(hal, i);
      var e, f, one, two;
      e, one := hal.IsVideoPortEnabled(handle, true);
      f, two := hal.IsVideoPortEnabled(handle, true);
      codes, first, second := codes + [c, e, f], first + [one], second + [two];
      i := i + 1;
    }
    r := hal.Term();
  }

  /**
   * The negative dsIsVideoPortEnabled test: refused before init, with
   * handle 0, with a NULL pointer on every port, and after term with the
   * last handle obtained.
   */
  method IsEnabledNegativeScenario(extended: bool, p: VideoProfile) returns (codes: seq<DsError>)
    requires ProfileValid(p)
    ensures |codes| == 3 + 2 * |p.ports|
    ensures codes[0] == codes[|codes| - 1] == Ext(extended, NotInitialized, InvalidParam) // handle -1 before init, after term
    ensures codes[1] == InvalidParam                                                      // handle 0
    ensures forall i :: 0 <= i < |p.ports| ==> codes[2 + 2 * i] == NoError && codes[3 + 2 * i] == InvalidParam // handle, NULL pointer
  {
    var hal := new VideoPortHal(extended, p);
    var ignored;
    var a, b;
    a, ignored := hal.IsVideoPortEnabled(-1, true);
    var r := hal.Init();
    var handle := 0;
    b, ignored := hal.IsVideoPortEnabled(handle, true);
    codes := [a, b];
    var i := 0;
    while i < |p.ports|
      invariant 0 <= i <= |p.ports|
      invariant hal.Valid() && hal.initialized && hal.profile == p
      invariant |codes| == 2 + 2 * i && codes[0] == a && codes[1] == b
      invariant forall j :: 0 <= j < i ==> codes[2 + 2 * j] == NoError && codes[3 + 2 * j] == InvalidParam
    {
      var c, d;
      c, handle := PortHandle(hal, i);
      d, ignored := hal.IsVideoPortEnabled(handle, false);
      codes := codes + [c, d];
      i := i + 1;
    }
    r := hal.Term();
    var e;
    e, ignored := hal.IsVideoPortEnabled(handle, true);
    codes := codes + [e];
  }

  /**
   * The positive dsEnableVideoPort test: enabling every table entry in
   * turn succeeds, and afterwards every port is enabled.
   */
  method EnableScenario(extended: bool, p: VideoProfile) returns (codes: seq<DsError>, hal: VideoPortHal)
    requires ProfileValid(p)
    ensures |codes| == 2 * |p.ports|
    ensures forall i :: 0 <= i < |codes| ==> codes[i] == NoError
    ensures hal.Valid() && hal.profile == p && !hal.initialized
    ensures forall i :: 0 <= i < |hal.states| ==> hal.states[i].enabled
  {
    hal := new VideoPortHal(extended, p);
    var r := hal.Init();
    codes := [];
    var i := 0;
    while i < |p.ports|
      invariant 0 <= i <= |p.ports|
      invariant hal.Valid() && hal.initialized && hal.profile == p
      invariant |codes| == 2 * i
      invariant forall j :: 0 <= j < |codes| ==> codes[j] == NoError
      invariant forall j :: 0 <= j < i ==> hal.states[j].enabled
    {
      var c, handle := PortHandle(hal, i);
      var e := hal.EnableVideoPort(handle, true);
      codes := codes + [c, e];
      i := i + 1;
    }
    r := hal.Term();
  }

  /**
   * The negative dsEnableVideoPort test: refused before init, with handle
   * 0, and after term with the last handle obtained.
   */
  method EnableNegativeScenario(extended: bool, p: VideoProfile) returns (codes: seq<DsError>)
    requires ProfileValid(p)
    ensures codes == [
      Ext(extended, NotInitialized, InvalidParam),  // handle -1 before init
      InvalidParam,                                 // handle 0
      Ext(extended, NotInitialized, InvalidParam)]  // after term
  {
    var hal := new VideoPortHal(extended, p);
    var a := hal.EnableVideoPort(-1, true);
    var r := hal.Init();
    var handle := 0;
    var b := hal.EnableVideoPort(handle, true);
    var i := 0;
    while i < |p.ports|
      invariant 0 <= i <= |p.ports|
      invariant hal.Valid() && hal.initialized && hal.profile == p
    {
      r, handle := PortHandle(hal, i);
      i := i + 1;
    }
    r := hal.Term();
    var c := hal.EnableVideoPort(handle, true);
    codes := [a, b, c];
  }

  /**
   * The positive dsEnableHDCP and dsIsHDCPEnabled tests: enabling HDCP as
   * the table says succeeds only on a source port that supports it; a
   * supporting source port, and every sink port, report it enabled.
   */
  method HdcpScenario(extended: bool, p: VideoProfile, k: nat)
    returns (enableCode: DsError, readCode: DsError, enabled: bool)
    requires ProfileValid(p) && k < |p.ports|
    ensures enableCode == if p.isSource && p.ports[k].hdcpSupported then NoError else OperationNotSupported
    ensures if p.isSource && !p.ports[k].hdcpSupported then readCode == OperationNotSupported
            else readCode == NoError && enabled
  {
    var hal := new VideoPortHal(extended, p);
    var r := hal.Init();
    var handle;
    r, handle := PortHandle(hal, k);
    enableCode := hal.EnableHDCP(handle, p.ports[k].hdcpSupported, true, HdcpKeyMaxSize);
    r := hal.Term();
    r := hal.Init();
    r, handle := PortHandle(hal, k);
    readCode, enabled := hal.IsHDCPEnabled(handle, true);
    r := hal.Term();
  }

  /** The negative dsEnableHDCP and dsIsHDCPEnabled tests. */
  method HdcpNegativeScenario(extended: bool, p: VideoProfile, k: nat) returns (codes: seq<DsError>)
    requires ProfileValid(p) && k < |p.ports|
    ensures codes == [
      Ext(extended, NotInitialized, InvalidParam), Ext(extended, NotInitialized, InvalidParam), // handle -1 before init
      InvalidParam, InvalidParam,                  // handle 0
      InvalidParam, InvalidParam,                  // key of HDCP_KEY_MAX_SIZE + 1, NULL key
      InvalidParam,                                // NULL pointer for the status
      Ext(extended, NotInitialized, InvalidParam), Ext(extended, NotInitialized, InvalidParam)] // after term
  {
    var hal := new VideoPortHal(extended, p);
    var supported := p.ports[k].hdcpSupported;
    var ignored;
    var a, b;
    a := hal.EnableHDCP(-1, supported, true, HdcpKeyMaxSize);
    b, ignored := hal.IsHDCPEnabled(-1, true);
    var r := hal.Init();
    var c, d;
    c := hal.EnableHDCP(0, supported, true, HdcpKeyMaxSize);
    d, ignored := hal.IsHDCPEnabled(0, true);
    var handle;
    r, handle := PortHandle(hal, k);
    var e := hal.EnableHDCP(handle, supported, true, HdcpKeyMaxSize + 1);
    var f := hal.EnableHDCP(handle, supported, false, HdcpKeyMaxSize);
    var g;
    g, ignored := hal.IsHDCPEnabled(handle, false);
    r := hal.Term();
    var h := hal.EnableHDCP(handle, supported, true, HdcpKeyMaxSize);
    var i;
    i, ignored := hal.IsHDCPEnabled(handle, true);
    codes := [a, b, c, d, e, f, g, h, i];
  }

  /**
   * The dsSetHdmiPreference and dsGetHdmiPreference tests: the preference
   * reads back as the table's HDCP version, setting that version succeeds,
   * and dsHDCP_VERSION_MAX is refused without changing it.
   */
  method HdmiPreferenceScenario(extended: bool, p: VideoProfile, k: nat)
    returns (codes: seq<DsError>, first: int, last: int)
    requires ProfileValid(p) && k < |p.ports|
    ensures codes == [
      Ext(extended, NotInitialized, InvalidParam), Ext(extended, NotInitialized, InvalidParam), // handle -1 before init
      InvalidParam, InvalidParam,                  // handle 0
      NoError, NoError,                            // get, set the table's version
      InvalidParam, InvalidParam,                  // set MAX, get into NULL
      NoError,                                     // get
      Ext(extended, NotInitialized, InvalidParam), Ext(extended, NotInitialized, InvalidParam)] // after term
    ensures first == last == p.ports[k].hdcpProtocol
  {
    var hal := new VideoPortHal(extended, p);
    var early := PreferenceRefused(hal, -1);
    var r := hal.Init();
    var zero := PreferenceRefused(hal, 0);
    var handle, checks;
    r, handle := PortHandle(hal, k);
    checks, first, last := HdmiPreferenceChecks(hal, k, handle);
    r := hal.Term();
    var late := PreferenceRefused(hal, handle);
    codes := early + zero + checks + late;
  }

  /** dsSetHdmiPreference and dsGetHdmiPreference with a handle the implementation does not accept. */
  method PreferenceRefused(hal: VideoPortHal, handle: int) returns (codes: seq<DsError>)
    requires hal.Valid() && hal.HandleCode(handle) != NoError
    modifies hal
    ensures hal.Valid() && hal.initialized == old(hal.initialized) && hal.states == old(hal.states)
    ensures codes == [hal.HandleCode(handle), hal.HandleCode(handle)]
  {
    var a := hal.SetHdmiPreference(handle, HdcpVersion1X);
    var b, ignored := hal.GetHdmiPreference(handle, true);
    codes := [a, b];
  }

  /** The preference checks on an opened port whose preference is still the table's HDCP version. */
  method HdmiPreferenceChecks(hal: VideoPortHal, k: nat, handle: int) returns (codes: seq<DsError>, first: int, last: int)
    requires hal.Valid() && hal.initialized && k < |hal.profile.ports| && handle == HandleOf(k)
    requires hal.states[k].hdmiPreference == hal.profile.ports[k].hdcpProtocol
    modifies hal
    ensures hal.Valid() && hal.initialized
    ensures codes == [NoError, NoError, InvalidParam, InvalidParam, NoError]
    ensures first == last == hal.profile.ports[k].hdcpProtocol
  {
    var e, f, g, h, i, ignored;
    e, first := hal.GetHdmiPreference(handle, true);
    f := hal.SetHdmiPreference(handle, hal.profile.ports[k].hdcpProtocol);
    g := hal.SetHdmiPreference(handle, HdcpVersionMax);
    h, ignored := hal.GetHdmiPreference(handle, false);
    i, last := hal.GetHdmiPreference(handle, true);
    codes := [e, f, g, h, i];
  }

  /** Sets every background colour from BLUE up to (not including) MAX on one port, as the positive test does. */
  method SetEveryBackground(hal: VideoPortHal, handle: int) returns (codes: seq<DsError>)
    requires hal.Valid() && hal.initialized && PositionOf(handle, |hal.profile.ports|).Some?
    modifies hal
    ensures hal.Valid() && hal.initialized
    ensures |codes| == BgMax - BgBlue
    ensures forall i :: 0 <= i < |codes| ==> codes[i] == if hal.profile.isSource then NoError else OperationNotSupported
    ensures hal.profile.isSource ==> hal.states[handle - 1].background == Some(BgNone)
  {
    codes := [];
    var color := BgBlue;
    while color < BgMax
      invariant BgBlue <= color <= BgMax
      invariant hal.Valid() && hal.initialized
      invariant |codes| == color - BgBlue
      invariant forall i :: 0 <= i < |codes| ==> codes[i] == if hal.profile.isSource then NoError else OperationNotSupported
      invariant hal.profile.isSource && color > BgBlue ==> hal.states[handle - 1].background == Some(color - 1)
    {
      var c := hal.SetBackgroundColor(handle, color);
      codes := codes + [c];
      color := color + 1;
    }
  }

  /**
   * The dsSetBackgroundColor tests: every colour is accepted on a source
   * and unsupported on a sink; MAX is refused on both.
   */
  method BackgroundColorScenario(extended: bool, p: VideoProfile, k: nat)
    returns (colorCodes: seq<DsError>, codes: seq<DsError>)
    requires ProfileValid(p) && k < |p.ports|
    ensures |colorCodes| == 3
    ensures forall i :: 0 <= i < |colorCodes| ==> colorCodes[i] == if p.isSource then NoError else OperationNotSupported
    ensures codes == [
      Ext(extended, NotInitialized, InvalidParam), // handle -1 before init
      InvalidParam, InvalidParam,                  // handle 0, colour MAX
      Ext(extended, NotInitialized, InvalidParam)] // after term
  {
    var hal := new VideoPortHal(extended, p);
    var a := hal.SetBackgroundColor(-1, BgBlue);
    var r := hal.Init();
    var b := hal.SetBackgroundColor(0, BgBlue);
    var handle;
    r, handle := PortHandle(hal, k);
    colorCodes := SetEveryBackground(hal, handle);
    var c := hal.SetBackgroundColor(handle, BgMax);
    r := hal.Term();
    var d := hal.SetBackgroundColor(handle, BgBlack);
    codes := [a, b, c, d];
  }

  /**
   * The dsGetPreferredColorDepth and dsSetPreferredColorDepth tests: a
   * source reads the profile's depth and accepts it back, a sink supports
   * neither; 0x60 is refused on both.
   */
  method ColorDepthScenario(extended: bool, p: VideoProfile, k: nat)
    returns (getCode: DsError, depth: int, setCode: DsError, codes: seq<DsError>)
    requires ProfileValid(p) && k < |p.ports|
    ensures getCode == (if p.isSource then NoError else OperationNotSupported)
    ensures p.isSource ==> depth == p.colorDepth
    ensures setCode == (if p.isSource then NoError else OperationNotSupported)
    ensures codes == [
      Ext(extended, NotInitialized, InvalidParam), Ext(extended, NotInitialized, InvalidParam), // handle -1 before init
      InvalidParam, InvalidParam,                  // handle 0
      InvalidParam, InvalidParam,                  // get into NULL, set 0x60
      Ext(extended, NotInitialized, InvalidParam), Ext(extended, NotInitialized, InvalidParam)] // after term
  {
    var hal := new VideoPortHal(extended, p);
    var ignored;
    var a, b;
    a, ignored := hal.GetPreferredColorDepth(-1, true);
    b := hal.SetPreferredColorDepth(-1, ColorDepth8Bit);
    var r := hal.Init();
    var c, d;
    c, ignored := hal.GetPreferredColorDepth(0, true);
    d := hal.SetPreferredColorDepth(0, ColorDepth8Bit);
    var handle;
    r, handle := PortHandle(hal, k);
    getCode, depth := hal.GetPreferredColorDepth(handle, true);
    setCode := hal.SetPreferredColorDepth(handle, p.colorDepth);
    var e, f;
    e, ignored := hal.GetPreferredColorDepth(handle, false);
    f := hal.SetPreferredColorDepth(handle, 0x60);
    r := hal.Term();
    var g, h;
    g, ignored := hal.GetPreferredColorDepth(handle, true);
    h := hal.SetPreferredColorDepth(handle, ColorDepth12Bit);
    codes := [a, b, c, d, e, f, g, h];
  }
}
