/**
 * The front-panel conformance tests as scenarios on the reference model:
 * each method drives a fresh FrontPanelDisplay through the calls a test
 * makes and states, in its postcondition, the codes and values the test
 * asserts. Loops over "every indicator of the profile" take the profile's
 * indicator ids as a sequence.
 */
module FrontPanelTests {
  import opened HalCommon
  import opened DeviceSettings
  import opened FrontPanel

  /** `ids` lists exactly the indicators of the profile. */
  ghost predicate ListsProfile(p: Profile, ids: seq<int>)
  {
    (forall i :: 0 <= i < |ids| ==> ids[i] in p.indicators) &&
    (forall id :: id in p.indicators ==> id in ids)
  }

  /** Every indicator is ON with a brightness inside its profile's range. */
  ghost predicate AllOnInRange(fp: FrontPanelDisplay)
    reads fp
  {
    forall id :: id in fp.leds && id in fp.profile.indicators ==>
      fp.leds[id].state == StateOn &&
      fp.profile.indicators[id].minBrightness <= fp.leds[id].brightness <= fp.profile.indicators[id].maxBrightness
  }

  /** dsFPInit followed by enableFPDIndicators. */
  method InitAllOn(fp: FrontPanelDisplay, ids: seq<int>)
    requires fp.Valid() && !fp.initialized && ListsProfile(fp.profile, ids)
    modifies fp
    ensures fp.Valid() && fp.initialized
    ensures AllOnInRange(fp) && fp.mode == ModeAny
    ensures forall id :: id in fp.leds ==> fp.leds[id] == InitialLeds(fp.profile.indicators)[id].(state := StateOn)
  {
    var r := fp.Init();
    assert fp.leds == InitialLeds(fp.profile.indicators);
    var codes := SetAllStates(fp, ids, StateOn);
  }

  /** dsSetFPBrightness with the minimum, the average and the maximum of one indicator that is ON. */
  method BrightnessLevelsOne(fp: FrontPanelDisplay, id: int) returns (codes: seq<DsError>)
    requires fp.Valid() && fp.initialized && id in fp.leds && AllOnInRange(fp)
    modifies fp
    ensures fp.Valid() && fp.initialized && AllOnInRange(fp)
    ensures codes == [NoError, NoError, NoError]
  {
    var c := fp.profile.indicators[id];
    var lo := fp.SetFPBrightness(id, c.minBrightness);
    var mid := fp.SetFPBrightness(id, (c.minBrightness + c.maxBrightness) / 2);
    var hi := fp.SetFPBrightness(id, c.maxBrightness);
    codes := [lo, mid, hi];
  }

  /** enableFPDIndicators / disableFPDIndicators: switch every listed indicator to `state`. */
  method SetAllStates(fp: FrontPanelDisplay, ids: seq<int>, state: int) returns (codes: seq<DsError>)
    requires fp.Valid() && fp.initialized && (state == StateOff || state == StateOn)
    requires forall i :: 0 <= i < |ids| ==> ids[i] in fp.leds
    modifies fp
    ensures fp.Valid()
    ensures |codes| == |ids| && forall i :: 0 <= i < |ids| ==> codes[i] == NoError
    ensures fp.Snapshot() == old(fp.Snapshot()).(leds := fp.leds)
    ensures fp.leds.Keys == old(fp.leds).Keys
    ensures forall id :: id in fp.leds ==>
      fp.leds[id] == if id in ids then old(fp.leds[id]).(state := state) else old(fp.leds[id])
    ensures forall i :: 0 <= i < |ids| ==> fp.leds[ids[i]].state == state
  {
    codes := [];
    var i := 0;
    while i < |ids|
      invariant 0 <= i <= |ids| && fp.Valid()
      invariant |codes| == i && forall j :: 0 <= j < i ==> codes[j] == NoError
      invariant fp.Snapshot() == old(fp.Snapshot()).(leds := fp.leds)
      invariant fp.leds.Keys == old(fp.leds).Keys
      invariant forall id :: id in fp.leds ==>
        fp.leds[id] == if id in ids[..i] then old(fp.leds[id]).(state := state) else old(fp.leds[id])
    {
      var r := fp.SetFPState(ids[i], state);
      codes := codes + [r];
      assert ids[..i + 1] == ids[..i] + [ids[i]];
      i := i + 1;
    }
    assert ids[..i] == ids;
    forall j | 0 <= j < |ids|
      ensures fp.leds[ids[j]].state == state
    {
      var id := ids[j];
      assert id in ids && id in old(fp.leds) && id in fp.leds;
      assert fp.leds[id] == old(fp.leds[id]).(state := state);
    }
  }

  /**
   * dsFPInit/dsFPTerm: a second init is refused, and so are a term before
   * init and a repeated term.
   */
  method InitTermScenario(extended: bool, p: Profile)
    returns (early: DsError, first: DsError, second: DsError, term: DsError, again: DsError)
    requires ProfileValid(p)
    ensures early == Ext(extended, NotInitialized, NoError)
    ensures first == NoError && term == NoError
    ensures second == Ext(extended, AlreadyInitialized, NoError)
    ensures again == Ext(extended, NotInitialized, NoError)
  {
    var fp := new FrontPanelDisplay(extended, p);
    early := fp.Term();
    first := fp.Init();
    second := fp.Init();
    term := fp.Term();
    again := fp.Term();
  }

  /**
   * dsSetFPState negative: MAX as indicator or as state, and every valid
   * indicator from POWER upwards that the profile lacks, are invalid.
   */
  method SetStateNegativeScenario(extended: bool, p: Profile, ids: seq<int>)
    returns (early: DsError, badIndicator: DsError, badStates: seq<DsError>, absent: seq<int>,
             absentCodes: seq<DsError>, late: DsError)
    requires ProfileValid(p) && ListsProfile(p, ids)
    ensures early == Ext(extended, NotInitialized, NoError) && late == early
    ensures badIndicator == InvalidParam
    ensures |badStates| == |ids| && forall i :: 0 <= i < |ids| ==> badStates[i] == InvalidParam
    ensures forall i :: IndicatorPower <= i < IndicatorMax ==> (i in absent <==> i !in p.indicators)
    ensures |absentCodes| == |absent| && forall i :: 0 <= i < |absent| ==> absentCodes[i] == InvalidParam
  {
    var fp := new FrontPanelDisplay(extended, p);
    early := fp.SetFPState(IndicatorPower, StateOff);
    var r := fp.Init();
    badIndicator := fp.SetFPState(IndicatorMax, StateOff);
    badStates := [];
    var i := 0;
    while i < |ids|
      invariant 0 <= i <= |ids| && fp.Valid() && fp.initialized
      invariant |badStates| == i && forall j :: 0 <= j < i ==> badStates[j] == InvalidParam
    {
      r := fp.SetFPState(ids[i], StateMax);
      badStates := badStates + [r];
      i := i + 1;
    }
    absent := [];
    absentCodes := [];
    var k := IndicatorPower;
    while k < IndicatorMax
      invariant IndicatorPower <= k <= IndicatorMax && fp.Valid() && fp.initialized
      invariant forall j :: IndicatorPower <= j < IndicatorMax ==> (j in absent <==> j < k && j !in p.indicators)
      invariant |absentCodes| == |absent| && forall j :: 0 <= j < |absent| ==> absentCodes[j] == InvalidParam
    {
      if k !in p.indicators {
        r := fp.SetFPState(k, StateOff);
        absent := absent + [k];
        absentCodes := absentCodes + [r];
      }
      k := k + 1;
    }
    r := fp.Term();
    late := fp.SetFPState(IndicatorPower, StateOff);
  }

  /** The blink steps of the blink tests on one indicator of the profile. */
  method BlinkOne(fp: FrontPanelDisplay, id: int)
    returns (on: DsError, off: DsError, tooLong: DsError, tooMany: DsError)
    requires fp.Valid() && fp.initialized && id in fp.leds
    modifies fp
    ensures fp.Valid() && fp.initialized
    ensures on == NoError && off == OperationNotSupported
    ensures tooLong == InvalidParam && tooMany == InvalidParam
  {
    var r := fp.SetFPState(id, StateOn);
    tooLong := fp.SetFPBlink(id, RejectedBlinkDuration, BlinkIterations);
    tooMany := fp.SetFPBlink(id, BlinkDuration, RejectedBlinkIterations);
    on := fp.SetFPBlink(id, BlinkDuration, BlinkIterations);
    r := fp.SetFPState(id, StateOff);
    off := fp.SetFPBlink(id, BlinkDuration, BlinkIterations);
  }

  /** dsSetFPBlink with the standard pattern on every listed indicator while the sub-module is not initialised. */
  method BlinkUninitialised(fp: FrontPanelDisplay, ids: seq<int>) returns (codes: seq<DsError>)
    requires fp.Valid() && !fp.initialized
    modifies fp
    ensures fp.Valid() && fp.Snapshot() == old(fp.Snapshot())
    ensures |codes| == |ids| && forall i :: 0 <= i < |ids| ==> codes[i] == Ext(fp.extendedEnums, NotInitialized, NoError)
  {
    codes := [];
    var i := 0;
    while i < |ids|
      invariant 0 <= i <= |ids| && fp.Valid() && fp.Snapshot() == old(fp.Snapshot())
      invariant |codes| == i && forall j :: 0 <= j < i ==> codes[j] == Ext(fp.extendedEnums, NotInitialized, NoError)
    {
      var r := fp.SetFPBlink(ids[i], BlinkDuration, BlinkIterations);
      codes := codes + [r];
      i := i + 1;
    }
  }

  /**
   * dsSetFPBlink: refused as not initialised before dsFPInit and after
   * dsFPTerm (NONE on a legacy implementation); the standard pattern is
   * accepted on an indicator that is ON and refused once it is OFF;
   * patterns beyond the platform's limits and the MAX indicator are invalid.
   */
  method BlinkScenario(extended: bool, p: Profile, ids: seq<int>)
    returns (earlyCodes: seq<DsError>, onCodes: seq<DsError>, offCodes: seq<DsError>, longCodes: seq<DsError>,
             manyCodes: seq<DsError>, badIndicator: DsError, lateCodes: seq<DsError>)
    requires ProfileValid(p) && ListsProfile(p, ids)
    ensures |earlyCodes| == |lateCodes| == |ids|
    ensures forall i :: 0 <= i < |ids| ==>
      earlyCodes[i] == Ext(extended, NotInitialized, NoError) && lateCodes[i] == Ext(extended, NotInitialized, NoError)
    ensures |onCodes| == |offCodes| == |longCodes| == |manyCodes| == |ids|
    ensures forall i :: 0 <= i < |ids| ==> onCodes[i] == NoError && offCodes[i] == OperationNotSupported
    ensures forall i :: 0 <= i < |ids| ==> longCodes[i] == InvalidParam && manyCodes[i] == InvalidParam
    ensures badIndicator == InvalidParam
  {
    var fp := new FrontPanelDisplay(extended, p);
    earlyCodes := BlinkUninitialised(fp, ids);
    var r := fp.Init();
    onCodes, offCodes, longCodes, manyCodes := [], [], [], [];
    var i := 0;
    while i < |ids|
      invariant 0 <= i <= |ids| && fp.Valid() && fp.initialized
      invariant |onCodes| == |offCodes| == |longCodes| == |manyCodes| == i
      invariant forall j :: 0 <= j < i ==> onCodes[j] == NoError && offCodes[j] == OperationNotSupported
      invariant forall j :: 0 <= j < i ==> longCodes[j] == InvalidParam && manyCodes[j] == InvalidParam
    {
      var on, off, tooLong, tooMany := BlinkOne(fp, ids[i]);
      onCodes, offCodes := onCodes + [on], offCodes + [off];
      longCodes, manyCodes := longCodes + [tooLong], manyCodes + [tooMany];
      i := i + 1;
    }
    badIndicator := fp.SetFPBlink(IndicatorMax, BlinkDuration, BlinkIterations);
    r := fp.Term();
    lateCodes := BlinkUninitialised(fp, ids);
  }

  /**
   * A blink pattern ends with a change of LED state, and with dsFPTerm
   * (the library forgets every pattern).
   */
  method BlinkStopScenario(extended: bool, p: Profile, id: int, s: int)
    returns (blink: DsError, stoppedByState: bool, stoppedByTerm: bool)
    requires ProfileValid(p) && id in p.indicators && s in p.ledStates
    ensures blink == NoError && stoppedByState && stoppedByTerm
  {
    var fp := new FrontPanelDisplay(extended, p);
    var r := fp.Init();
    r := fp.SetFPState(id, StateOn);
    blink := fp.SetFPBlink(id, BlinkDuration, BlinkIterations);
    assert id in fp.blinking;
    r := fp.SetLEDState(s);
    stoppedByState := fp.blinking == map[];
    r := fp.SetFPBlink(id, BlinkDuration, BlinkIterations);
    r := fp.Term();
    stoppedByTerm := fp.blinking == map[];
  }

  /** Every code of `codes` is `c`. */
  predicate Every(codes: seq<DsError>, c: DsError)
  {
    forall j :: 0 <= j < |codes| ==> codes[j] == c
  }

  /** A call the tests repeat on every indicator of the profile where it must be refused. */
  datatype Probe =
    | SetAverageBrightness  // dsSetFPBrightness with the middle of the indicator's range
    | GetBrightness         // dsGetFPBrightness
    | SetWhite              // dsSetFPColor with WHITE
    | GetColor              // dsGetFPColor
    | GetState              // dsGetFPState

  /** Whether the probe writes through an output pointer, which the tests pass as NULL. */
  predicate Reads(probe: Probe)
  {
    probe.GetBrightness? || probe.GetColor? || probe.GetState?
  }

  /**
   * The situations in which the tests expect a probe of `id` to be refused:
   * outside init, with a NULL output, or on an indicator that is OFF
   * (where only the state can still be read).
   */
  ghost predicate Refuses(fp: FrontPanelDisplay, id: int, probe: Probe, hasOut: bool)
    reads fp
  {
    !fp.initialized ||
    (IndicatorIsValid(id) && !hasOut && Reads(probe)) ||
    (id in fp.leds && fp.leds[id].state == StateOff && !probe.GetState?)
  }

  /** The code a refused probe gets. */
  function RefusalCode(fp: FrontPanelDisplay, probe: Probe, hasOut: bool): DsError
    reads fp
  {
    if !fp.initialized then fp.NotInitCode()
    else if !hasOut && Reads(probe) then InvalidParam
    else OperationNotSupported
  }

  /** One refused probe of `id`; the panel does not change. */
  method ProbeOne(fp: FrontPanelDisplay, id: int, probe: Probe, hasOut: bool) returns (r: DsError)
    requires fp.Valid() && Refuses(fp, id, probe, hasOut)
    modifies fp
    ensures fp.Valid() && fp.Snapshot() == old(fp.Snapshot())
    ensures r == RefusalCode(fp, probe, hasOut)
  {
    var ignored;
    match probe
    case SetAverageBrightness =>
      var level := if id in fp.profile.indicators
                   then (fp.profile.indicators[id].minBrightness + fp.profile.indicators[id].maxBrightness) / 2
                   else 0;
      r := fp.SetFPBrightness(id, level);
    case GetBrightness =>
      r, ignored := fp.GetFPBrightness(id, hasOut);
    case SetWhite =>
      r := fp.SetFPColor(id, ColorWhite);
    case GetColor =>
      r, ignored := fp.GetFPColor(id, hasOut);
    case GetState =>
      r, ignored := fp.GetFPState(id, hasOut);
  }

  /** The probe on every listed indicator, each refused with the same code; the panel does not change. */
  method ProbeAll(fp: FrontPanelDisplay, ids: seq<int>, probe: Probe, hasOut: bool) returns (codes: seq<DsError>)
    requires fp.Valid() && forall i :: 0 <= i < |ids| ==> Refuses(fp, ids[i], probe, hasOut)
    modifies fp
    ensures fp.Valid() && fp.Snapshot() == old(fp.Snapshot())
    ensures |codes| == |ids| && Every(codes, RefusalCode(fp, probe, hasOut))
  {
    codes := [];
    var i := 0;
    while i < |ids|
      invariant 0 <= i <= |ids| && fp.Valid() && fp.Snapshot() == old(fp.Snapshot())
      invariant forall j :: 0 <= j < |ids| ==> Refuses(fp, ids[j], probe, hasOut)
      invariant |codes| == i && Every(codes, RefusalCode(fp, probe, hasOut))
    {
      var r := ProbeOne(fp, ids[i], probe, hasOut);
      codes := codes + [r];
      i := i + 1;
    }
  }

  /**
   * The positive dsSetFPBrightness test: with every indicator ON, the
   * minimum, average and maximum of each are accepted; once every
   * indicator is OFF, the average is refused.
   */
  method SetBrightnessScenario(extended: bool, p: Profile, ids: seq<int>)
    returns (setCodes: seq<DsError>, offCodes: seq<DsError>)
    requires ProfileValid(p) && ListsProfile(p, ids)
    ensures |setCodes| == 3 * |ids| && Every(setCodes, NoError)
    ensures |offCodes| == |ids| && Every(offCodes, OperationNotSupported)
  {
    var fp := new FrontPanelDisplay(extended, p);
    InitAllOn(fp, ids);
    setCodes := [];
    var i := 0;
    while i < |ids|
      invariant 0 <= i <= |ids| && fp.Valid() && fp.initialized && AllOnInRange(fp)
      invariant |setCodes| == 3 * i && Every(setCodes, NoError)
    {
      var codes := BrightnessLevelsOne(fp, ids[i]);
      setCodes := setCodes + codes;
      i := i + 1;
    }
    var states := SetAllStates(fp, ids, StateOff);
    offCodes := ProbeAll(fp, ids, SetAverageBrightness, true);
    var r := fp.Term();
  }

  /**
   * The negative dsSetFPBrightness test: refused as not initialised before
   * dsFPInit and after dsFPTerm (NONE on a legacy implementation); with
   * every indicator ON, 101 and the MAX indicator are invalid.
   */
  method SetBrightnessNegativeScenario(extended: bool, p: Profile, ids: seq<int>)
    returns (early: seq<DsError>, tooBright: seq<DsError>, badIndicator: DsError, late: seq<DsError>)
    requires ProfileValid(p) && ListsProfile(p, ids)
    ensures |early| == |tooBright| == |late| == |ids|
    ensures Every(early, Ext(extended, NotInitialized, NoError)) && Every(late, Ext(extended, NotInitialized, NoError))
    ensures Every(tooBright, InvalidParam) && badIndicator == InvalidParam
  {
    var fp := new FrontPanelDisplay(extended, p);
    early := ProbeAll(fp, ids, SetAverageBrightness, true);
    InitAllOn(fp, ids);
    tooBright := [];
    var i := 0;
    while i < |ids|
      invariant 0 <= i <= |ids| && fp.Valid() && fp.initialized
      invariant |tooBright| == i && Every(tooBright, InvalidParam)
    {
      var r := fp.SetFPBrightness(ids[i], BrightnessMax + 1);
      tooBright := tooBright + [r];
      i := i + 1;
    }
    // the test passes the average left over from its last loop
    var level := if |ids| > 0 then (p.indicators[ids[|ids| - 1]].minBrightness + p.indicators[ids[|ids| - 1]].maxBrightness) / 2
                 else 0;
    badIndicator := fp.SetFPBrightness(IndicatorMax, level);
    var states := SetAllStates(fp, ids, StateOff);
    var r := fp.Term();
    late := ProbeAll(fp, ids, SetAverageBrightness, true);
  }

  /**
   * The positive dsGetFPBrightness test: with every indicator ON, each
   * brightness read lies within the indicator's range; once every
   * indicator is OFF, the read is refused.
   */
  method GetBrightnessScenario(extended: bool, p: Profile, ids: seq<int>)
    returns (codes: seq<DsError>, readBack: seq<nat>, offCodes: seq<DsError>)
    requires ProfileValid(p) && ListsProfile(p, ids)
    ensures |codes| == |readBack| == |offCodes| == |ids|
    ensures Every(codes, NoError)
    ensures forall i :: 0 <= i < |ids| ==>
      p.indicators[ids[i]].minBrightness <= readBack[i] <= p.indicators[ids[i]].maxBrightness
    ensures Every(offCodes, OperationNotSupported)
  {
    var fp := new FrontPanelDisplay(extended, p);
    InitAllOn(fp, ids);
    codes, readBack := [], [];
    var i := 0;
    while i < |ids|
      invariant 0 <= i <= |ids| && fp.Valid() && fp.initialized && AllOnInRange(fp)
      invariant |codes| == |readBack| == i && Every(codes, NoError)
      invariant forall j :: 0 <= j < i ==>
        p.indicators[ids[j]].minBrightness <= readBack[j] <= p.indicators[ids[j]].maxBrightness
    {
      var g, b := fp.GetFPBrightness(ids[i], true);
      codes, readBack := codes + [g], readBack + [b];
      i := i + 1;
    }
    var states := SetAllStates(fp, ids, StateOff);
    offCodes := ProbeAll(fp, ids, GetBrightness, true);
    var r := fp.Term();
  }

  /**
   * The negative dsGetFPBrightness test: refused as not initialised before
   * dsFPInit and after dsFPTerm; with every indicator ON, a NULL output and
   * the MAX indicator are invalid.
   */
  method GetBrightnessNegativeScenario(extended: bool, p: Profile, ids: seq<int>)
    returns (early: seq<DsError>, nullCodes: seq<DsError>, badIndicator: DsError, late: seq<DsError>)
    requires ProfileValid(p) && ListsProfile(p, ids)
    ensures |early| == |nullCodes| == |late| == |ids|
    ensures Every(early, Ext(extended, NotInitialized, NoError)) && Every(late, Ext(extended, NotInitialized, NoError))
    ensures Every(nullCodes, InvalidParam) && badIndicator == InvalidParam
  {
    var fp := new FrontPanelDisplay(extended, p);
    early := ProbeAll(fp, ids, GetBrightness, true);
    InitAllOn(fp, ids);
    nullCodes := ProbeAll(fp, ids, GetBrightness, false);
    var ignored;
    badIndicator, ignored := fp.GetFPBrightness(IndicatorMax, true);
    var states := SetAllStates(fp, ids, StateOff);
    var r := fp.Term();
    late := ProbeAll(fp, ids, GetBrightness, true);
  }

  /** Every indicator is ON. */
  ghost predicate AllOn(fp: FrontPanelDisplay)
    reads fp
  {
    forall id :: id in fp.leds ==> fp.leds[id].state == StateOn
  }

  /** dsGetFPState twice on every listed indicator. */
  method ReadStatesTwice(fp: FrontPanelDisplay, ids: seq<int>)
    returns (first: seq<int>, second: seq<int>, codes: seq<DsError>)
    requires fp.Valid() && fp.initialized
    requires forall i :: 0 <= i < |ids| ==> ids[i] in fp.leds
    ensures |first| == |second| == |codes| == |ids|
    ensures forall i :: 0 <= i < |ids| ==>
      codes[i] == NoError && first[i] == second[i] == fp.leds[ids[i]].state
  {
    first, second, codes := [], [], [];
    var i := 0;
    while i < |ids|
      invariant 0 <= i <= |ids|
      invariant |first| == |second| == |codes| == i
      invariant forall j :: 0 <= j < i ==>
        codes[j] == NoError && first[j] == second[j] == fp.leds[ids[j]].state
    {
      var a, x := fp.GetFPState(ids[i], true);
      var b, y := fp.GetFPState(ids[i], true);
      first, second, codes := first + [x], second + [y], codes + [if a == b then a else General];
      i := i + 1;
    }
  }

  /** dsGetFPState on every valid indicator the profile lacks. */
  method ReadUnlisted(fp: FrontPanelDisplay) returns (absent: seq<int>, codes: seq<DsError>)
    requires fp.Valid() && fp.initialized
    ensures forall j :: IndicatorMessage <= j < IndicatorMax ==> (j in absent <==> j !in fp.profile.indicators)
    ensures |codes| == |absent| && forall j :: 0 <= j < |codes| ==> codes[j] == OperationNotSupported
  {
    absent, codes := [], [];
    var k := IndicatorMessage;
    while k < IndicatorMax
      invariant IndicatorMessage <= k <= IndicatorMax
      invariant forall j :: IndicatorMessage <= j < IndicatorMax ==> (j in absent <==> j < k && j !in fp.profile.indicators)
      invariant |codes| == |absent| && forall j :: 0 <= j < |codes| ==> codes[j] == OperationNotSupported
    {
      if k !in fp.profile.indicators {
        var r, ignored := fp.GetFPState(k, true);
        absent, codes := absent + [k], codes + [r];
      }
      k := k + 1;
    }
  }

  /**
   * The indicator type the profile reader gives for key `n` of the
   * profile's indicator list: entry `n` (counted from 1) when the profile
   * has it, otherwise `absentKey`.
   */
  function EntryType(entries: seq<int>, n: int, absentKey: int): int
  {
    if 1 <= n <= |entries| then entries[n - 1] else absentKey
  }

  /**
   * The indicators from `from` upwards that step 05 of the negative
   * dsGetFPState test probes as written: its inner loop reads the key of
   * entry `i`, the indicator being decided, instead of entry `j`, so
   * indicator `i` is probed unless entry `i` names it. `entries` lists the
   * profile's Indicator_Type values in entry order.
   */
  function ProbedAsWritten(entries: seq<int>, absentKey: int, from: int): (r: seq<int>)
    requires IndicatorMessage <= from <= IndicatorMax
    ensures forall i :: i in r <==>
      from <= i < IndicatorMax && !(|entries| > 0 && EntryType(entries, i, absentKey) == i)
    decreases IndicatorMax - from
  {
    if from == IndicatorMax then []
    else
      var rest := ProbedAsWritten(entries, absentKey, from + 1);
      if |entries| > 0 && EntryType(entries, from, absentKey) == from then rest else [from] + rest
  }

  /**
   * With POWER and RECORD listed as entries 2 and 1, the as-written
   * selection probes both, although the profile has them: the test then
   * demands OPERATION_NOT_SUPPORTED of dsGetFPState on indicators from
   * which its positive counterpart demands NONE.
   */
  method ProbedAsWrittenContradicts(extended: bool, p: Profile)
    returns (probed: seq<int>, powerCode: DsError, recordCode: DsError)
    requires ProfileValid(p) && p.indicators.Keys == {IndicatorPower, IndicatorRecord}
    ensures IndicatorPower in probed && IndicatorRecord in probed
    ensures powerCode == NoError && recordCode == NoError
  {
    probed := ProbedAsWritten([IndicatorRecord, IndicatorPower], 0, IndicatorMessage);
    var fp := new FrontPanelDisplay(extended, p);
    var r := fp.Init();
    var ignored;
    powerCode, ignored := fp.GetFPState(IndicatorPower, true);
    recordCode, ignored := fp.GetFPState(IndicatorRecord, true);
  }

  /**
   * The positive dsGetFPState test: two reads of each listed indicator
   * succeed and agree. After init every indicator is OFF.
   */
  method GetStateScenario(extended: bool, p: Profile, ids: seq<int>)
    returns (first: seq<int>, second: seq<int>, codes: seq<DsError>)
    requires ProfileValid(p) && ListsProfile(p, ids)
    ensures |first| == |second| == |codes| == |ids|
    ensures forall i :: 0 <= i < |ids| ==> codes[i] == NoError && first[i] == second[i] == StateOff
  {
    var fp := new FrontPanelDisplay(extended, p);
    var r := fp.Init();
    assert fp.leds == InitialLeds(p.indicators);
    first, second, codes := ReadStatesTwice(fp, ids);
    r := fp.Term();
  }

  /**
   * The negative dsGetFPState test: refused as not initialised before
   * dsFPInit and after dsFPTerm; MAX and a NULL output on every listed
   * indicator are invalid; an indicator the profile lacks is not supported.
   */
  method GetStateNegativeScenario(extended: bool, p: Profile, ids: seq<int>)
    returns (early: seq<DsError>, badIndicator: DsError, nullCodes: seq<DsError>,
             absent: seq<int>, unlisted: seq<DsError>, late: seq<DsError>)
    requires ProfileValid(p) && ListsProfile(p, ids)
    ensures |early| == |nullCodes| == |late| == |ids|
    ensures Every(early, Ext(extended, NotInitialized, NoError)) && Every(late, Ext(extended, NotInitialized, NoError))
    ensures badIndicator == InvalidParam && Every(nullCodes, InvalidParam)
    ensures forall j :: IndicatorMessage <= j < IndicatorMax ==> (j in absent <==> j !in p.indicators)
    ensures |unlisted| == |absent| && Every(unlisted, OperationNotSupported)
  {
    var fp := new FrontPanelDisplay(extended, p);
    early := ProbeAll(fp, ids, GetState, true);
    var r := fp.Init();
    var ignored;
    badIndicator, ignored := fp.GetFPState(IndicatorMax, true);
    nullCodes := ProbeAll(fp, ids, GetState, false);
    absent, unlisted := ReadUnlisted(fp);
    r := fp.Term();
    late := ProbeAll(fp, ids, GetState, true);
  }

  /** The codes the colour test expects for the supported colours of an indicator that is ON. */
  predicate ColorCodesExpected(c: IndicatorConfig, codes: seq<DsError>)
  {
    |codes| == |c.colors| &&
    forall j :: 0 <= j < |codes| ==> codes[j] == if c.colorMode == 0 then OperationNotSupported else NoError
  }

  predicate AllRefused(codes: seq<DsError>)
  {
    forall j :: 0 <= j < |codes| ==> codes[j] == OperationNotSupported
  }

  /** dsSetFPColor on one indicator that is ON, with each of its supported colours. */
  method ColorsOne(fp: FrontPanelDisplay, id: int) returns (codes: seq<DsError>)
    requires fp.Valid() && fp.initialized && id in fp.leds && AllOn(fp)
    modifies fp
    ensures fp.Valid() && fp.initialized && AllOn(fp)
    ensures ColorCodesExpected(fp.profile.indicators[id], codes)
  {
    var config := fp.profile.indicators[id];
    codes := [];
    var j := 0;
    while j < |config.colors|
      invariant 0 <= j <= |config.colors| && fp.Valid() && fp.initialized && AllOn(fp)
      invariant |codes| == j
      invariant forall k :: 0 <= k < j ==>
        codes[k] == if config.colorMode == 0 then OperationNotSupported else NoError
    {
      var r := fp.SetFPColor(id, config.colors[j]);
      codes := codes + [r];
      j := j + 1;
    }
  }

  /** The standard colours an indicator does not support, in their order. */
  function Unsupported(c: IndicatorConfig, colors: seq<nat>): (r: seq<nat>)
    ensures forall x :: x in r <==> x in colors && (c.colorMode == 0 || x !in c.colors)
  {
    if colors == [] then []
    else
      var rest := Unsupported(c, colors[1..]);
      assert forall x :: x in colors <==> x == colors[0] || x in colors[1..];
      if c.colorMode == 0 || colors[0] !in c.colors then [colors[0]] + rest else rest
  }

  /**
   * dsSetFPColor with each of the six standard colours that the indicator
   * does not support (all six on a single-colour indicator): all refused.
   */
  method UnsupportedColorsOne(fp: FrontPanelDisplay, id: int) returns (tried: seq<nat>, codes: seq<DsError>)
    requires fp.Valid() && fp.initialized && id in fp.leds && AllOn(fp)
    modifies fp
    ensures fp.Valid() && fp.initialized && AllOn(fp)
    ensures tried == Unsupported(fp.profile.indicators[id], AvailableColors)
    ensures |codes| == |tried| && AllRefused(codes)
  {
    var config := fp.profile.indicators[id];
    tried := Unsupported(config, AvailableColors);
    StandardColorsAreValid();
    codes := [];
    var j := 0;
    while j < |tried|
      invariant 0 <= j <= |tried| && fp.Valid() && fp.initialized && AllOn(fp)
      invariant |codes| == j && AllRefused(codes)
    {
      var c := tried[j];
      assert c in tried;
      assert c in AvailableColors && (config.colorMode == 0 || c !in config.colors);
      assert fp.leds[id].state == StateOn;
      var r := fp.SetFPColor(id, c);
      assert r == OperationNotSupported;
      codes := codes + [r];
      j := j + 1;
    }
  }

  /** What the positive dsGetFPColor test demands of the two reads of an indicator that is ON. */
  predicate ColorReadExpected(c: IndicatorConfig, r1: DsError, c1: nat, r2: DsError, c2: nat)
  {
    if c.colorMode == 0 then r1 == OperationNotSupported
    else r1 == NoError && r2 == NoError && c1 in c.colors && c2 == c1
  }

  /** dsGetFPColor twice on one indicator that is ON. */
  method GetColorOne(fp: FrontPanelDisplay, id: int)
    returns (r1: DsError, c1: nat, r2: DsError, c2: nat)
    requires fp.Valid() && fp.initialized && id in fp.leds && fp.leds[id].state == StateOn
    ensures fp.profile.indicators[id].colorMode == 0 ==> r1 == OperationNotSupported
    ensures fp.profile.indicators[id].colorMode != 0 ==>
      r1 == NoError && r2 == NoError && c1 in fp.profile.indicators[id].colors && c2 == c1
  {
    r1, c1 := fp.GetFPColor(id, true);
    r2, c2 := fp.GetFPColor(id, true);
  }

  /** dsSetFPColor with each supported colour of one indicator that is OFF: all refused. */
  method ColorsWhenOffOne(fp: FrontPanelDisplay, id: int) returns (codes: seq<DsError>)
    requires fp.Valid() && fp.initialized && id in fp.leds && fp.leds[id].state == StateOff
    modifies fp
    ensures fp.Valid() && fp.Snapshot() == old(fp.Snapshot())
    ensures |codes| == |fp.profile.indicators[id].colors| && AllRefused(codes)
  {
    var config := fp.profile.indicators[id];
    codes := [];
    var j := 0;
    while j < |config.colors|
      invariant 0 <= j <= |config.colors| && fp.Valid() && fp.Snapshot() == old(fp.Snapshot())
      invariant |codes| == j && AllRefused(codes)
    {
      var r := fp.SetFPColor(id, config.colors[j]);
      codes := codes + [r];
      j := j + 1;
    }
  }

  /** dsSetFPColor with every supported colour of every listed indicator, once all of them are OFF. */
  method ColorWhenOff(fp: FrontPanelDisplay, ids: seq<int>) returns (codes: seq<seq<DsError>>)
    requires fp.Valid() && fp.initialized
    requires forall i :: 0 <= i < |ids| ==> ids[i] in fp.leds && fp.leds[ids[i]].state == StateOff
    modifies fp
    ensures fp.Valid() && fp.Snapshot() == old(fp.Snapshot())
    ensures |codes| == |ids|
    ensures forall i :: 0 <= i < |ids| ==> |codes[i]| == |fp.profile.indicators[ids[i]].colors| && AllRefused(codes[i])
  {
    codes := [];
    var i := 0;
    while i < |ids|
      invariant 0 <= i <= |ids| && fp.Valid() && fp.Snapshot() == old(fp.Snapshot())
      invariant |codes| == i
      invariant forall j :: 0 <= j < i ==> |codes[j]| == |fp.profile.indicators[ids[j]].colors| && AllRefused(codes[j])
    {
      var c := ColorsWhenOffOne(fp, ids[i]);
      codes := codes + [c];
      i := i + 1;
    }
  }

  /**
   * The positive dsSetFPColor test: with every indicator ON, each
   * supported colour is accepted by a multi-colour indicator and refused by
   * a single-colour one; once every indicator is OFF, each is refused.
   */
  method SetColorScenario(extended: bool, p: Profile, ids: seq<int>)
    returns (setCodes: seq<seq<DsError>>, offCodes: seq<seq<DsError>>)
    requires ProfileValid(p) && ListsProfile(p, ids)
    ensures |setCodes| == |offCodes| == |ids|
    ensures forall i :: 0 <= i < |ids| ==> ColorCodesExpected(p.indicators[ids[i]], setCodes[i])
    ensures forall i :: 0 <= i < |ids| ==> |offCodes[i]| == |p.indicators[ids[i]].colors| && AllRefused(offCodes[i])
  {
    var fp := new FrontPanelDisplay(extended, p);
    InitAllOn(fp, ids);
    setCodes := [];
    var i := 0;
    while i < |ids|
      invariant 0 <= i <= |ids| && fp.Valid() && fp.initialized && AllOn(fp)
      invariant |setCodes| == i
      invariant forall k :: 0 <= k < i ==> ColorCodesExpected(p.indicators[ids[k]], setCodes[k])
    {
      var codes := ColorsOne(fp, ids[i]);
      setCodes := setCodes + [codes];
      i := i + 1;
    }
    var states := SetAllStates(fp, ids, StateOff);
    offCodes := ColorWhenOff(fp, ids);
    var r := fp.Term();
  }

  /** UnsupportedColorsOne on every listed indicator. */
  method UnsupportedColorsAll(fp: FrontPanelDisplay, ids: seq<int>)
    returns (tried: seq<seq<nat>>, unsupported: seq<seq<DsError>>)
    requires fp.Valid() && fp.initialized && AllOn(fp)
    requires forall i :: 0 <= i < |ids| ==> ids[i] in fp.leds
    modifies fp
    ensures fp.Valid() && fp.initialized && AllOn(fp)
    ensures |tried| == |unsupported| == |ids|
    ensures forall i :: 0 <= i < |ids| ==>
      tried[i] == Unsupported(fp.profile.indicators[ids[i]], AvailableColors) &&
      |unsupported[i]| == |tried[i]| && AllRefused(unsupported[i])
  {
    tried, unsupported := [], [];
    var i := 0;
    while i < |ids|
      invariant 0 <= i <= |ids| && fp.Valid() && fp.initialized && AllOn(fp)
      invariant |tried| == |unsupported| == i
      invariant forall k :: 0 <= k < i ==>
        tried[k] == Unsupported(fp.profile.indicators[ids[k]], AvailableColors) &&
        |unsupported[k]| == |tried[k]| && AllRefused(unsupported[k])
    {
      var t, codes := UnsupportedColorsOne(fp, ids[i]);
      tried, unsupported := tried + [t], unsupported + [codes];
      i := i + 1;
    }
  }

  /**
   * The negative dsSetFPColor test: WHITE is refused as not initialised
   * before dsFPInit and after dsFPTerm; with every indicator ON, each
   * standard colour it does not support is refused; the MAX indicator is
   * invalid.
   */
  method SetColorNegativeScenario(extended: bool, p: Profile, ids: seq<int>)
    returns (early: seq<DsError>, tried: seq<seq<nat>>, unsupported: seq<seq<DsError>>,
             badIndicator: DsError, late: seq<DsError>)
    requires ProfileValid(p) && ListsProfile(p, ids)
    ensures |early| == |tried| == |unsupported| == |late| == |ids|
    ensures Every(early, Ext(extended, NotInitialized, NoError)) && Every(late, Ext(extended, NotInitialized, NoError))
    ensures forall i :: 0 <= i < |ids| ==>
      tried[i] == Unsupported(p.indicators[ids[i]], AvailableColors) &&
      |unsupported[i]| == |tried[i]| && AllRefused(unsupported[i])
    ensures badIndicator == InvalidParam
  {
    var fp := new FrontPanelDisplay(extended, p);
    early := ProbeAll(fp, ids, SetWhite, true);
    InitAllOn(fp, ids);
    tried, unsupported := UnsupportedColorsAll(fp, ids);
    badIndicator := fp.SetFPColor(IndicatorMax, AvailableColors[0]);
    var states := SetAllStates(fp, ids, StateOff);
    var r := fp.Term();
    late := ProbeAll(fp, ids, SetWhite, true);
  }

  /**
   * The positive dsGetFPColor test: with every indicator ON, a
   * single-colour indicator refuses the read and a multi-colour one reads
   * a supported colour, the same twice; once every indicator is OFF, the
   * read is refused.
   */
  method GetColorScenario(extended: bool, p: Profile, ids: seq<int>)
    returns (firstCodes: seq<DsError>, firstColors: seq<nat>, secondCodes: seq<DsError>, secondColors: seq<nat>,
             offCodes: seq<DsError>)
    requires ProfileValid(p) && ListsProfile(p, ids)
    ensures |firstCodes| == |firstColors| == |secondCodes| == |secondColors| == |offCodes| == |ids|
    ensures forall i :: 0 <= i < |ids| ==>
      ColorReadExpected(p.indicators[ids[i]], firstCodes[i], firstColors[i], secondCodes[i], secondColors[i])
    ensures Every(offCodes, OperationNotSupported)
  {
    var fp := new FrontPanelDisplay(extended, p);
    InitAllOn(fp, ids);
    firstCodes, firstColors, secondCodes, secondColors := [], [], [], [];
    var i := 0;
    while i < |ids|
      invariant 0 <= i <= |ids| && fp.Valid() && fp.initialized && AllOn(fp)
      invariant |firstCodes| == |firstColors| == |secondCodes| == |secondColors| == i
      invariant forall k :: 0 <= k < i ==>
        ColorReadExpected(p.indicators[ids[k]], firstCodes[k], firstColors[k], secondCodes[k], secondColors[k])
    {
      var r1, c1, r2, c2 := GetColorOne(fp, ids[i]);
      firstCodes, firstColors := firstCodes + [r1], firstColors + [c1];
      secondCodes, secondColors := secondCodes + [r2], secondColors + [c2];
      i := i + 1;
    }
    var states := SetAllStates(fp, ids, StateOff);
    offCodes := ProbeAll(fp, ids, GetColor, true);
    var r := fp.Term();
  }

  /**
   * The negative dsGetFPColor test: refused as not initialised before
   * dsFPInit and after dsFPTerm; with every indicator ON, a NULL output and
   * the MAX indicator are invalid.
   */
  method GetColorNegativeScenario(extended: bool, p: Profile, ids: seq<int>)
    returns (early: seq<DsError>, nullCodes: seq<DsError>, badIndicator: DsError, late: seq<DsError>)
    requires ProfileValid(p) && ListsProfile(p, ids)
    ensures |early| == |nullCodes| == |late| == |ids|
    ensures Every(early, Ext(extended, NotInitialized, NoError)) && Every(late, Ext(extended, NotInitialized, NoError))
    ensures Every(nullCodes, InvalidParam) && badIndicator == InvalidParam
  {
    var fp := new FrontPanelDisplay(extended, p);
    early := ProbeAll(fp, ids, GetColor, true);
    InitAllOn(fp, ids);
    nullCodes := ProbeAll(fp, ids, GetColor, false);
    var ignored;
    badIndicator, ignored := fp.GetFPColor(IndicatorMax, true);
    var states := SetAllStates(fp, ids, StateOff);
    var r := fp.Term();
    late := ProbeAll(fp, ids, GetColor, true);
  }

  /** The test's valid and invalid times in one display mode that shows the time. */
  method TimeChecks(fp: FrontPanelDisplay, m: int) returns (codes: seq<DsError>)
    requires fp.Valid() && fp.initialized && (m == ModeClock || m == ModeAny)
    modifies fp
    ensures fp.Valid() && fp.initialized
    ensures codes == [NoError, NoError, InvalidParam, InvalidParam, InvalidParam, InvalidParam]
  {
    var r := fp.SetFPDMode(m);
    var a := fp.SetFPTime(Time24Hour, 14, 30);
    var b := fp.SetFPTime(Time12Hour, 2, 30);
    var c := fp.SetFPTime(Time24Hour, 25, 30);
    var d := fp.SetFPTime(Time24Hour, 14, 60);
    var e := fp.SetFPTime(Time12Hour, 13, 30);
    var f := fp.SetFPTime(Time12Hour, 2, 60);
    codes := [a, b, c, d, e, f];
  }

  /** dsSetFPTime in each display mode, with the test's valid and invalid times. */
  method SetTimeScenario(extended: bool, p: Profile) returns (codes: seq<DsError>)
    requires ProfileValid(p)
    ensures codes == [
      Ext(extended, NotInitialized, NoError),
      NoError, NoError,                                  // CLOCK: 14:30 (24h), 2:30 (12h)
      InvalidParam, InvalidParam, InvalidParam, InvalidParam,  // CLOCK: 25:30, 14:60, 13:30 (12h), 2:60 (12h)
      NoError, NoError,                                  // ANY: 14:30 (24h), 2:30 (12h)
      InvalidParam, InvalidParam, InvalidParam, InvalidParam,  // ANY: the same invalid times
      OperationNotSupported,                             // TEXT: 14:30 (24h)
      Ext(extended, NotInitialized, NoError)]
  {
    var fp := new FrontPanelDisplay(extended, p);
    var early := fp.SetFPTime(Time24Hour, 14, 30);
    var r := fp.Init();
    var clock := TimeChecks(fp, ModeClock);
    var any := TimeChecks(fp, ModeAny);
    r := fp.SetFPDMode(ModeText);
    var g := fp.SetFPTime(Time24Hour, 14, 30);
    r := fp.Term();
    var late := fp.SetFPTime(Time24Hour, 14, 30);
    codes := [early] + clock + any + [g, late];
  }

  /** dsSetFPText in each display mode. */
  method SetTextScenario(extended: bool, p: Profile) returns (codes: seq<DsError>)
    requires ProfileValid(p)
    ensures codes == [
      Ext(extended, NotInitialized, NoError),
      NoError, InvalidParam, InvalidParam,   // TEXT: "HELLO", NULL, "LONGTEXTHER"
      NoError, InvalidParam, InvalidParam,   // ANY: the same
      OperationNotSupported,                 // CLOCK: "HELLO"
      Ext(extended, NotInitialized, NoError)]
  {
    var fp := new FrontPanelDisplay(extended, p);
    var early := fp.SetFPText(Some("HELLO"));
    var r := fp.Init();
    r := fp.SetFPDMode(ModeText);
    var a := fp.SetFPText(Some("HELLO"));
    var b := fp.SetFPText(None);
    var c := fp.SetFPText(Some("LONGTEXTHER"));
    r := fp.SetFPDMode(ModeAny);
    var d := fp.SetFPText(Some("HELLO"));
    var e := fp.SetFPText(None);
    var f := fp.SetFPText(Some("LONGTEXTHER"));
    r := fp.SetFPDMode(ModeClock);
    var g := fp.SetFPText(Some("HELLO"));
    r := fp.Term();
    var late := fp.SetFPText(Some("HELLO"));
    codes := [early, a, b, c, d, e, f, g, late];
  }

  /** dsSetFPTextBrightness / dsGetFPTextBrightness in each display mode. */
  method TextBrightnessScenario(extended: bool, p: Profile) returns (codes: seq<DsError>, read1: nat, read2: nat)
    requires ProfileValid(p)
    ensures codes == [
      Ext(extended, NotInitialized, NoError),
      NoError, InvalidParam, InvalidParam,    // TEXT: 70, 110, display MAX
      NoError, InvalidParam, InvalidParam,    // ANY: the same
      OperationNotSupported,                  // CLOCK: 70
      NoError, NoError,                       // two reads
      InvalidParam, InvalidParam,             // NULL output, display MAX
      Ext(extended, NotInitialized, NoError)]
    ensures read1 == read2 == 70
  {
    var fp := new FrontPanelDisplay(extended, p);
    var early := fp.SetFPTextBrightness(TextDisplayText, 70);
    var r := fp.Init();
    r := fp.SetFPDMode(ModeText);
    var a := fp.SetFPTextBrightness(TextDisplayText, 70);
    var b := fp.SetFPTextBrightness(TextDisplayText, 110);
    var c := fp.SetFPTextBrightness(TextDisplayMax, 50);
    r := fp.SetFPDMode(ModeAny);
    var d := fp.SetFPTextBrightness(TextDisplayText, 70);
    var e := fp.SetFPTextBrightness(TextDisplayText, 110);
    var f := fp.SetFPTextBrightness(TextDisplayMax, 50);
    r := fp.SetFPDMode(ModeClock);
    var g := fp.SetFPTextBrightness(TextDisplayText, 70);
    var h, i, j, k;
    h, read1 := fp.GetFPTextBrightness(TextDisplayText, true);
    i, read2 := fp.GetFPTextBrightness(TextDisplayText, true);
    var ignored;
    j, ignored := fp.GetFPTextBrightness(TextDisplayText, false);
    k, ignored := fp.GetFPTextBrightness(TextDisplayMax, true);
    r := fp.Term();
    var late := fp.SetFPTextBrightness(TextDisplayText, 70);
    codes := [early, a, b, c, d, e, f, g, h, i, j, k, late];
  }

  /** dsFPEnableCLockDisplay in each display mode. */
  method ClockDisplayScenario(extended: bool, p: Profile) returns (codes: seq<DsError>)
    requires ProfileValid(p)
    ensures codes == [
      Ext(extended, NotInitialized, NoError),
      NoError, NoError, InvalidParam, InvalidParam,   // CLOCK: 1, 0, 2, -1
      NoError, NoError, InvalidParam, InvalidParam,   // ANY: the same
      OperationNotSupported,                          // TEXT: 1
      Ext(extended, NotInitialized, NoError)]
  {
    var fp := new FrontPanelDisplay(extended, p);
    var early := fp.EnableClockDisplay(1);
    var r := fp.Init();
    r := fp.SetFPDMode(ModeClock);
    var a := fp.EnableClockDisplay(1);
    var b := fp.EnableClockDisplay(0);
    var c := fp.EnableClockDisplay(2);
    var d := fp.EnableClockDisplay(-1);
    r := fp.SetFPDMode(ModeAny);
    var e := fp.EnableClockDisplay(1);
    var f := fp.EnableClockDisplay(0);
    var g := fp.EnableClockDisplay(2);
    var h := fp.EnableClockDisplay(-1);
    r := fp.SetFPDMode(ModeText);
    var i := fp.EnableClockDisplay(1);
    r := fp.Term();
    var late := fp.EnableClockDisplay(1);
    codes := [early, a, b, c, d, e, f, g, h, i, late];
  }

  /** dsSetFPScroll: one direction at a time with a positive hold time. */
  method ScrollScenario(extended: bool, p: Profile) returns (codes: seq<DsError>)
    requires ProfileValid(p)
    ensures codes == [
      Ext(extended, NotInitialized, NoError),
      NoError, NoError, NoError, NoError,      // (1000,5,0) (1000,0,5) (100,1,0) (100,0,1)
      InvalidParam, OperationNotSupported,     // (0,5,0) (1000,5,5)
      Ext(extended, NotInitialized, NoError)]
  {
    var fp := new FrontPanelDisplay(extended, p);
    var early := fp.SetFPScroll(1000, 5, 5);
    var r := fp.Init();
    var a := fp.SetFPScroll(1000, 5, 0);
    var b := fp.SetFPScroll(1000, 0, 5);
    var c := fp.SetFPScroll(100, 1, 0);
    var d := fp.SetFPScroll(100, 0, 1);
    var e := fp.SetFPScroll(0, 5, 0);
    var f := fp.SetFPScroll(1000, 5, 5);
    r := fp.Term();
    var late := fp.SetFPScroll(1000, 5, 0);
    codes := [early, a, b, c, d, e, f, late];
  }

  /** dsSetFPTimeFormat then dsGetFPTimeFormat: the format set is the format read, twice. */
  method TimeFormatScenario(extended: bool, p: Profile, format: int)
    returns (codes: seq<DsError>, read1: int, read2: int)
    requires ProfileValid(p) && (format == Time12Hour || format == Time24Hour)
    ensures codes == [
      Ext(extended, NotInitialized, NoError),
      NoError, NoError, NoError,             // CLOCK: set, get, get
      InvalidParam, InvalidParam,            // CLOCK: set MAX, get with NULL
      OperationNotSupported, OperationNotSupported,  // TEXT: set, get
      Ext(extended, NotInitialized, NoError)]
    ensures read1 == read2 == format
  {
    var fp := new FrontPanelDisplay(extended, p);
    var early := fp.SetFPTimeFormat(Time12Hour);
    var r := fp.Init();
    r := fp.SetFPDMode(ModeClock);
    var a := fp.SetFPTimeFormat(format);
    var b, c, d, e, f, g;
    b, read1 := fp.GetFPTimeFormat(true);
    c, read2 := fp.GetFPTimeFormat(true);
    d := fp.SetFPTimeFormat(TimeMax);
    var ignored;
    e, ignored := fp.GetFPTimeFormat(false);
    r := fp.SetFPDMode(ModeText);
    f := fp.SetFPTimeFormat(Time12Hour);
    g, ignored := fp.GetFPTimeFormat(true);
    r := fp.Term();
    var late;
    late, ignored := fp.GetFPTimeFormat(true);
    codes := [early, a, b, c, d, e, f, g, late];
  }

  /**
   * The LED-state tests, with the supported-states word read in full: the
   * word reported equals the profile's, every state it lists can be set,
   * MAX is invalid, and the state read back is one it lists.
   */
  method LedStateScenario(extended: bool, p: Profile)
    returns (mask: nat, setStates: seq<int>, setCodes: seq<DsError>, badState: DsError, current: nat, listed: bool)
    requires ProfileValid(p)
    ensures mask == LedMask(p.ledStates)
    ensures forall s :: LedNone <= s < LedMax ==> (s in setStates <==> s in p.ledStates)
    ensures |setCodes| == |setStates| && forall i :: 0 <= i < |setCodes| ==> setCodes[i] == NoError
    ensures badState == InvalidParam
    ensures listed && current in p.ledStates
  {
    var fp := new FrontPanelDisplay(extended, p);
    var r := fp.Init();
    r, mask := fp.GetSupportedLEDStates(true);
    setStates, setCodes := [], [];
    var s := LedNone;
    while s < LedMax
      invariant LedNone <= s <= LedMax && fp.Valid() && fp.initialized && fp.profile == p
      invariant forall t :: LedNone <= t < LedMax ==> (t in setStates <==> t < s && t in p.ledStates)
      invariant |setCodes| == |setStates| && forall i :: 0 <= i < |setCodes| ==> setCodes[i] == NoError
    {
      if LedStateListed(mask, s) {
        LedMaskHas(p.ledStates, s);
        r := fp.SetLEDState(s);
        setStates, setCodes := setStates + [s], setCodes + [r];
      } else {
        LedMaskHas(p.ledStates, s);
      }
      s := s + 1;
    }
    badState := fp.SetLEDState(LedMax);
    r, current := fp.GetLEDState(true);
    listed := LedStateListed(mask, current);
    LedMaskHas(p.ledStates, current);
    r := fp.Term();
  }
}
