/**
 * The level-1 conformance contract of the RMF audio-capture HAL: the
 * settings and status validators used by the tests, and a reference state
 * machine (Closed, Open, Started per capture type) that returns exactly the
 * codes the tests assert, with legacy codes chosen by the extended-enums
 * flag.
 */
module AudioCaptureL1 {
  import opened HalCommon
  import opened RmfAudioCapture

  /** test_l1_validate_settings: format and frequency are in range. */
  function ValidateSettings(s: Settings): (r: RmfError)
    ensures r == Success || r == Error
    ensures r == Success <==> Format16BitStereo <= s.format < FormatMax && Freq16000 <= s.samplingFreq < FreqMax
  {
    if s.format < Format16BitStereo || FormatMax <= s.format then Error
    else if s.samplingFreq < Freq16000 || FreqMax <= s.samplingFreq then Error
    else Success
  }

  /** test_l1_validate_status_active: started is 1 and format and frequency are in range. */
  function ValidateStatusActive(st: Status): (r: RmfError)
    ensures r == Success || r == Error
    ensures r == Success <==> st.started == 1 && 0 <= st.format < FormatMax && 0 <= st.samplingFreq < FreqMax
  {
    if st.started != 1 then Error
    else if st.format < Format16BitStereo || FormatMax <= st.format then Error
    else if st.samplingFreq < Freq16000 || FreqMax <= st.samplingFreq then Error
    else Success
  }

  /** test_l1_compare_settings: a byte-wise comparison of two settings records. */
  function CompareSettings(left: Settings, right: Settings): (r: RmfError)
    ensures r == Success <==> left == right
    ensures r != Success ==> r == Error
  {
    if left == right then Success else Error
  }

  /** Settings that Start accepts: a buffer-ready callback and a valid format and frequency. */
  predicate Startable(s: Settings)
  {
    s.cbBufferReady != NoCallback && ValidateSettings(s) == Success
  }

  /** test_l1_prepare_dummy_start_settings. */
  function WithDummyCallbacks(s: Settings): (r: Settings)
    ensures r.cbBufferReady == DummyDataCb && !r.hasStatusChange
    ensures r.(cbBufferReady := s.cbBufferReady, hasStatusChange := s.hasStatusChange) == s
  {
    s.(cbBufferReady := DummyDataCb, hasStatusChange := false)
  }

  lemma DummySettingsStartable(s: Settings)
    requires ValidateSettings(s) == Success
    ensures Startable(WithDummyCallbacks(s))
    ensures ValidateSettings(WithDummyCallbacks(s).(delayCompensationMs := s.delayCompensationMs + 2000)) == Success
  {
  }

  datatype CaptureType = Primary | Auxiliary

  /** The capture type named by the string argument of Open_Type. */
  function ParseType(t: Option<string>): (r: Option<CaptureType>)
    ensures r == Some(Primary) <==> t == Some(TypePrimary)
    ensures r == Some(Auxiliary) <==> t == Some(TypeAuxiliary)
  {
    if t == Some(TypePrimary) then Some(Primary)
    else if t == Some(TypeAuxiliary) then Some(Auxiliary)
    else None
  }

  /** A handle value: NULL, or the handle of one opening of one capture type. */
  datatype Handle = NullHandle | HandleOf(kind: CaptureType, id: nat)

  /** The state of one capture type. */
  datatype Session = Closed | Opened(id: nat) | Started(id: nat, current: Settings)
  {
    predicate Holds(h: Handle)
    {
      h.HandleOf? && match this
        case Closed => false
        case Opened(id) => id == h.id
        case Started(id, _) => id == h.id
    }
  }

  class AudioCaptureHal {
    /** Whether the platform profile declares extended return codes. */
    const extendedEnums: bool
    /** The settings the implementation reports as its defaults. */
    const defaults: Settings
    var primary: Session
    var auxiliary: Session
    /** The next handle number to hand out; every handle ever returned is below it. */
    var nextId: nat

    ghost predicate Valid()
      reads this
    {
      ValidateSettings(defaults) == Success
      && SessionBelow(primary, nextId) && SessionBelow(auxiliary, nextId)
    }

    static predicate SessionBelow(s: Session, n: nat)
    {
      match s
      case Closed => true
      case Opened(id) => id < n
      case Started(id, _) => id < n
    }

    function SessionOf(kind: CaptureType): Session
      reads this
    {
      if kind == Primary then primary else auxiliary
    }

    /** The handle refers to the current opening of its capture type. */
    predicate Live(h: Handle)
      reads this
    {
      h.HandleOf? && SessionOf(h.kind).Holds(h)
    }

    constructor (extendedEnums: bool, defaults: Settings)
      requires ValidateSettings(defaults) == Success
      ensures Valid()
      ensures this.extendedEnums == extendedEnums && this.defaults == defaults
      ensures primary == Closed && auxiliary == Closed && nextId == 0
    {
      this.extendedEnums := extendedEnums;
      this.defaults := defaults;
      primary := Closed;
      auxiliary := Closed;
      nextId := 0;
    }

    /**
     * RMF_AudioCapture_Open_Type. `hasOut` is false for a NULL handle
     * pointer; on failure the caller's handle variable is not written,
     * which the model expresses by returning NullHandle.
     */
    method OpenType(hasOut: bool, captureType: Option<string>) returns (r: RmfError, h: Handle)
      requires Valid()
      modifies this`primary, this`auxiliary, this`nextId
      ensures Valid()
      ensures var kind := ParseType(captureType);
        if !hasOut || kind.None? then
          r == InvalidParm && h == NullHandle && unchanged(this)
        else if !old(SessionOf(kind.value)).Closed? then
          r == Ext(extendedEnums, InvalidState, OsalEbusy) && h == NullHandle && unchanged(this)
        else
          r == Success && h == HandleOf(kind.value, old(nextId)) && Live(h)
          && nextId == old(nextId) + 1
          && SessionOf(kind.value) == Opened(old(nextId))
          && (kind.value == Primary ==> auxiliary == old(auxiliary))
          && (kind.value == Auxiliary ==> primary == old(primary))
    {
      var kind := ParseType(captureType);
      if !hasOut || kind.None? {
        return InvalidParm, NullHandle;
      }
      if !SessionOf(kind.value).Closed? {
        return Ext(extendedEnums, InvalidState, OsalEbusy), NullHandle;
      }
      h := HandleOf(kind.value, nextId);
      if kind.value == Primary {
        primary := Opened(nextId);
      } else {
        auxiliary := Opened(nextId);
      }
      nextId := nextId + 1;
      r := Success;
    }

    /** RMF_AudioCapture_Open: Open_Type with the primary capture type. */
    method Open(hasOut: bool) returns (r: RmfError, h: Handle)
      requires Valid()
      modifies this`primary, this`auxiliary, this`nextId
      ensures Valid()
      ensures if !hasOut then
          r == InvalidParm && h == NullHandle && unchanged(this)
        else if !old(primary).Closed? then
          r == Ext(extendedEnums, InvalidState, OsalEbusy) && h == NullHandle && unchanged(this)
        else
          r == Success && h == HandleOf(Primary, old(nextId)) && Live(h)
          && primary == Opened(old(nextId)) && auxiliary == old(auxiliary) && nextId == old(nextId) + 1
    {
      r, h := OpenType(hasOut, Some(TypePrimary));
    }

    /**
     * RMF_AudioCapture_Close. A stale handle is reported as a state error,
     * a started capture must be stopped first.
     */
    method Close(h: Handle) returns (r: RmfError)
      requires Valid()
      modifies this`primary, this`auxiliary
      ensures Valid()
      ensures h == NullHandle ==> r == Ext(extendedEnums, InvalidHandle, OsalEinval) && unchanged(this)
      ensures h.HandleOf? && !old(Live(h)) ==> r == Ext(extendedEnums, InvalidState, OsalEinval) && unchanged(this)
      ensures old(Live(h)) && old(SessionOf(h.kind)).Started? ==> r == InvalidState && unchanged(this)
      ensures old(Live(h)) && old(SessionOf(h.kind)).Opened? ==>
        r == Success && SessionOf(h.kind) == Closed && !Live(h)
        && (h.kind == Primary ==> auxiliary == old(auxiliary))
        && (h.kind == Auxiliary ==> primary == old(primary))
    {
      if h == NullHandle {
        return Ext(extendedEnums, InvalidHandle, OsalEinval);
      }
      if !Live(h) {
        return Ext(extendedEnums, InvalidState, OsalEinval);
      }
      if SessionOf(h.kind).Started? {
        return InvalidState;
      }
      if h.kind == Primary {
        primary := Closed;
      } else {
        auxiliary := Closed;
      }
      r := Success;
    }

    /**
     * RMF_AudioCapture_GetDefaultSettings. `hasOut` is false for a NULL
     * pointer. Outside the Open and Started states a legacy implementation
     * still succeeds.
     */
    method GetDefaultSettings(hasOut: bool) returns (r: RmfError, s: Settings)
      requires Valid()
      ensures !hasOut ==> r == InvalidParm
      ensures hasOut && primary.Closed? && auxiliary.Closed? ==> r == Ext(extendedEnums, InvalidState, Success)
      ensures hasOut && !(primary.Closed? && auxiliary.Closed?) ==> r == Success
      ensures r == Success ==> s == defaults && ValidateSettings(s) == Success
    {
      s := defaults;
      if !hasOut {
        r := InvalidParm;
      } else if primary.Closed? && auxiliary.Closed? {
        r := Ext(extendedEnums, InvalidState, Success);
      } else {
        r := Success;
      }
    }

    /** RMF_AudioCapture_Start. `settings` is None for a NULL settings pointer. */
    method Start(h: Handle, settings: Option<Settings>) returns (r: RmfError)
      requires Valid()
      modifies this`primary, this`auxiliary
      ensures Valid()
      ensures h == NullHandle ==> r == InvalidHandle && unchanged(this)
      ensures h.HandleOf? && !old(Live(h)) ==> r == Ext(extendedEnums, InvalidHandle, OsalEinval) && unchanged(this)
      ensures old(Live(h)) && (settings.None? || !Startable(settings.value)) ==> r == InvalidParm && unchanged(this)
      ensures old(Live(h)) && settings.Some? && Startable(settings.value) && old(SessionOf(h.kind)).Started? ==>
        r == Ext(extendedEnums, InvalidState, OsalEbusy) && unchanged(this)
      ensures old(Live(h)) && settings.Some? && Startable(settings.value) && old(SessionOf(h.kind)).Opened? ==>
        r == Success && SessionOf(h.kind) == Started(h.id, settings.value) && Live(h)
        && (h.kind == Primary ==> auxiliary == old(auxiliary))
        && (h.kind == Auxiliary ==> primary == old(primary))
    {
      if h == NullHandle {
        return InvalidHandle;
      }
      if !Live(h) {
        return Ext(extendedEnums, InvalidHandle, OsalEinval);
      }
      if settings.None? || !Startable(settings.value) {
        return InvalidParm;
      }
      if SessionOf(h.kind).Started? {
        return Ext(extendedEnums, InvalidState, OsalEbusy);
      }
      if h.kind == Primary {
        primary := Started(h.id, settings.value);
      } else {
        auxiliary := Started(h.id, settings.value);
      }
      r := Success;
    }

    /** RMF_AudioCapture_Stop. */
    method Stop(h: Handle) returns (r: RmfError)
      requires Valid()
      modifies this`primary, this`auxiliary
      ensures Valid()
      ensures h == NullHandle ==> r == InvalidHandle && unchanged(this)
      ensures h.HandleOf? && !old(Live(h)) ==> r == Ext(extendedEnums, InvalidHandle, OsalEinval) && unchanged(this)
      ensures old(Live(h)) && old(SessionOf(h.kind)).Opened? ==> r == Ext(extendedEnums, InvalidState, OsalEinval) && unchanged(this)
      ensures old(Live(h)) && old(SessionOf(h.kind)).Started? ==>
        r == Success && SessionOf(h.kind) == Opened(h.id) && Live(h)
        && (h.kind == Primary ==> auxiliary == old(auxiliary))
        && (h.kind == Auxiliary ==> primary == old(primary))
    {
      if h == NullHandle {
        return InvalidHandle;
      }
      if !Live(h) {
        return Ext(extendedEnums, InvalidHandle, OsalEinval);
      }
      if !SessionOf(h.kind).Started? {
        return Ext(extendedEnums, InvalidState, OsalEinval);
      }
      if h.kind == Primary {
        primary := Opened(h.id);
      } else {
        auxiliary := Opened(h.id);
      }
      r := Success;
    }

    /**
     * RMF_AudioCapture_GetStatus. A stale handle is refused before the
     * output pointer is looked at.
     */
    method GetStatus(h: Handle, hasOut: bool) returns (r: RmfError, st: Status)
      requires Valid()
      ensures h == NullHandle ==> r == InvalidHandle
      ensures h.HandleOf? && !Live(h) ==> r == Ext(extendedEnums, InvalidHandle, OsalEinval)
      ensures Live(h) && !hasOut ==> r == InvalidParm
      ensures Live(h) && hasOut ==> r == Success
      ensures r == Success && SessionOf(h.kind).Started? ==>
        st.started == 1 && st.format == SessionOf(h.kind).current.format && st.samplingFreq == SessionOf(h.kind).current.samplingFreq
      ensures r == Success && SessionOf(h.kind).Opened? ==> st.started == 0
    {
      st := Status(0, defaults.format, defaults.samplingFreq);
      if h == NullHandle {
        return InvalidHandle, st;
      }
      if !Live(h) {
        return Ext(extendedEnums, InvalidHandle, OsalEinval), st;
      }
      if !hasOut {
        return InvalidParm, st;
      }
      var s := SessionOf(h.kind);
      if s.Started? {
        st := Status(1, s.current.format, s.current.samplingFreq);
      }
      r := Success;
    }

    /**
     * RMF_AudioCapture_GetCurrentSettings: the settings most recently
     * accepted by Start, while the capture is started.
     */
    method GetCurrentSettings(h: Handle, hasOut: bool) returns (r: RmfError, s: Settings)
      requires Valid()
      ensures h == NullHandle ==> r == InvalidHandle
      ensures h.HandleOf? && !Live(h) ==> r == Ext(extendedEnums, InvalidHandle, OsalEinval)
      ensures Live(h) && !hasOut ==> r == InvalidParm
      ensures Live(h) && hasOut && SessionOf(h.kind).Opened? ==> r == Ext(extendedEnums, InvalidState, Success)
      ensures Live(h) && hasOut && SessionOf(h.kind).Started? ==> r == Success && s == SessionOf(h.kind).current
    {
      s := defaults;
      if h == NullHandle {
        return InvalidHandle, s;
      }
      if !Live(h) {
        return Ext(extendedEnums, InvalidHandle, OsalEinval), s;
      }
      if !hasOut {
        return InvalidParm, s;
      }
      var session := SessionOf(h.kind);
      if session.Started? {
        return Success, session.current;
      }
      r := Ext(extendedEnums, InvalidState, Success);
    }
  }

  /** A started capture always reports a status that the active-status validator accepts. */
  lemma StartedStatusValid(st: Status, current: Settings)
    requires Startable(current)
    requires st == Status(1, current.format, current.samplingFreq)
    ensures ValidateStatusActive(st) == Success
  {
  }

  /** test_l1_rmfAudioCapture_negative_RMF_AudioCapture_Open_Type_primary, steps 1 to 5. */
  method OpenTypeNegativeScenario(extended: bool, defaults: Settings, kind: string)
    returns (nullOut: RmfError, junk: RmfError, first: RmfError, again: RmfError, close: RmfError)
    requires ValidateSettings(defaults) == Success
    requires kind == TypePrimary || kind == TypeAuxiliary
    ensures nullOut == InvalidParm && junk == InvalidParm
    ensures first == Success && close == Success
    ensures again == Ext(extended, InvalidState, OsalEbusy)
  {
    var hal := new AudioCaptureHal(extended, defaults);
    var h, h2;
    nullOut, h := hal.OpenType(false, Some(kind));
    junk, h := hal.OpenType(true, Some("junk"));
    first, h := hal.OpenType(true, Some(kind));
    again, h2 := hal.OpenType(true, Some(kind));
    close := hal.Close(h);
  }

  /** test_l1_rmfAudioCapture_negative_RMF_AudioCapture_Open: Open and Open_Type(primary) exclude each other. */
  method OpenExclusionScenario(extended: bool, defaults: Settings)
    returns (openOpen: RmfError, openThenType: RmfError, typeThenOpen: RmfError, closes: RmfError)
    requires ValidateSettings(defaults) == Success
    ensures openOpen == Ext(extended, InvalidState, OsalEbusy)
    ensures openThenType == Ext(extended, InvalidState, OsalEbusy)
    ensures typeThenOpen == Ext(extended, InvalidState, OsalEbusy)
    ensures closes == Success
  {
    var hal := new AudioCaptureHal(extended, defaults);
    var r, h, other, r2;
    r, h := hal.Open(true);
    openOpen, other := hal.Open(true);
    openThenType, other := hal.OpenType(true, Some(TypePrimary));
    r := hal.Close(h);
    r2, h := hal.OpenType(true, Some(TypePrimary));
    typeThenOpen, other := hal.Open(true);
    closes := hal.Close(h);
  }

  /** test_l1_rmfAudioCapture_negative_RMF_AudioCapture_Close. */
  method CloseNegativeScenario(extended: bool, defaults: Settings)
    returns (nullBefore: RmfError, nullOpen: RmfError, close: RmfError, again: RmfError)
    requires ValidateSettings(defaults) == Success
    ensures nullBefore == Ext(extended, InvalidHandle, OsalEinval)
    ensures nullOpen == Ext(extended, InvalidHandle, OsalEinval)
    ensures close == Success
    ensures again == Ext(extended, InvalidState, OsalEinval)
  {
    var hal := new AudioCaptureHal(extended, defaults);
    var r, h;
    nullBefore := hal.Close(NullHandle);
    r, h := hal.Open(true);
    nullOpen := hal.Close(NullHandle);
    close := hal.Close(h);
    again := hal.Close(h);
  }

  /** test_l1_rmfAudioCapture_negative_RMF_AudioCapture_GetDefaultSettings. */
  method DefaultSettingsNegativeScenario(extended: bool, defaults: Settings)
    returns (beforeOpen: RmfError, nullOut: RmfError, afterClose: RmfError)
    requires ValidateSettings(defaults) == Success
    ensures beforeOpen == Ext(extended, InvalidState, Success)
    ensures nullOut == InvalidParm
    ensures afterClose == Ext(extended, InvalidState, Success)
  {
    var hal := new AudioCaptureHal(extended, defaults);
    var r, h, s;
    beforeOpen, s := hal.GetDefaultSettings(true);
    r, h := hal.Open(true);
    nullOut, s := hal.GetDefaultSettings(false);
    r := hal.Close(h);
    afterClose, s := hal.GetDefaultSettings(true);
  }

  /**
   * Steps 2-4 and 12-14 of the positive Start test on an opened handle:
   * the default settings, their validation, a start with the dummy
   * callback and a stop all succeed, and the capture is open again.
   */
  method DefaultStartStop(hal: AudioCaptureHal, h: Handle) returns (codes: seq<RmfError>)
    requires hal.Valid() && hal.Live(h) && hal.SessionOf(h.kind).Opened? && h.kind == Primary
    modifies hal`primary, hal`auxiliary
    ensures hal.Valid() && hal.Live(h) && hal.SessionOf(h.kind).Opened?
    ensures codes == [Success, Success, Success, Success]
  {
    var default, s := hal.GetDefaultSettings(true);
    var valid := ValidateSettings(s);
    s := WithDummyCallbacks(s);
    var start := hal.Start(h, Some(s));
    var stop := hal.Stop(h);
    codes := [default, valid, start, stop];
  }

  /**
   * Steps 5-9 of the positive Start test on an opened handle: the
   * defaults with 2000 ms more delay compensation start, read back equal
   * and stop; the same settings as 16-bit stereo at 48 kHz start and stop.
   */
  method CompareStartStop(hal: AudioCaptureHal, h: Handle) returns (codes: seq<RmfError>)
    requires hal.Valid() && hal.Live(h) && hal.SessionOf(h.kind).Opened? && h.kind == Primary
    modifies hal`primary, hal`auxiliary
    ensures hal.Valid() && hal.Live(h) && hal.SessionOf(h.kind).Opened?
    ensures codes == [Success, Success, Success, Success, Success, Success, Success, Success]
  {
    var default, s := hal.GetDefaultSettings(true);
    var valid := ValidateSettings(s);
    DummySettingsStartable(s);
    s := WithDummyCallbacks(s.(delayCompensationMs := s.delayCompensationMs + 2000));
    var start := hal.Start(h, Some(s));
    var current, cur := hal.GetCurrentSettings(h, true);
    var compare := CompareSettings(s, cur);
    var stop := hal.Stop(h);
    s := s.(format := Format16BitStereo, samplingFreq := Freq48000);
    var start16 := hal.Start(h, Some(s));
    var stop16 := hal.Stop(h);
    codes := [default, valid, start, current, compare, stop, start16, stop16];
  }

  /**
   * test_l1_rmfAudioCapture_positive_RMF_AudioCapture_Start, steps 1 to 15:
   * every call succeeds, the default settings validate each time they are
   * read, and the settings read back equal the settings passed to Start.
   * `codes` holds, in order, the results of: open; default settings, their
   * validation, start, stop (steps 1-4); default settings, their
   * validation, start with 2000 ms more delay compensation, current
   * settings, their comparison, stop (steps 5-8); start as 16-bit stereo at
   * 48 kHz, stop, close (steps 9-10); open; default settings, their
   * validation, start, stop (steps 11-14); close (step 15).
   */
  method StartPositiveScenario(extended: bool, defaults: Settings) returns (codes: seq<RmfError>)
    requires ValidateSettings(defaults) == Success
    ensures |codes| == 20
    ensures forall i :: 0 <= i < |codes| ==> codes[i] == Success
  {
    var hal := new AudioCaptureHal(extended, defaults);
    var open1, h := hal.Open(true);
    var first := DefaultStartStop(hal, h);
    var compared := CompareStartStop(hal, h);
    var close1 := hal.Close(h);
    var open2;
    open2, h := hal.Open(true);
    var again := DefaultStartStop(hal, h);
    var close2 := hal.Close(h);
    codes := [open1] + first + compared + [close1, open2] + again + [close2];
  }

  /** test_l1_rmfAudioCapture_negative_RMF_AudioCapture_Start. */
  method StartNegativeScenario(extended: bool, defaults: Settings)
    returns (nullHandle: RmfError, nullSettings: RmfError, badFormat: RmfError, badFreq: RmfError,
             noCallback: RmfError, started: RmfError, again: RmfError, afterClose: RmfError)
    requires ValidateSettings(defaults) == Success
    ensures nullHandle == InvalidHandle
    ensures nullSettings == InvalidParm && badFormat == InvalidParm && badFreq == InvalidParm && noCallback == InvalidParm
    ensures started == Success
    ensures again == Ext(extended, InvalidState, OsalEbusy)
    ensures afterClose == Ext(extended, InvalidHandle, OsalEinval)
  {
    var hal := new AudioCaptureHal(extended, defaults);
    var r, h, s;
    nullHandle := hal.Start(NullHandle, None);
    r, h := hal.Open(true);
    r, s := hal.GetDefaultSettings(true);
    s := WithDummyCallbacks(s);
    r := hal.Start(NullHandle, Some(s));
    nullSettings := hal.Start(h, None);
    badFormat := hal.Start(h, Some(s.(format := FormatMax)));
    badFreq := hal.Start(h, Some(s.(samplingFreq := FreqMax)));
    noCallback := hal.Start(h, Some(s.(cbBufferReady := NoCallback)));
    started := hal.Start(h, Some(s));
    again := hal.Start(h, Some(s));
    r := hal.Stop(h);
    r := hal.Close(h);
    afterClose := hal.Start(h, Some(s));
  }

  /** test_l1_rmfAudioCapture_negative_RMF_AudioCapture_Stop. */
  method StopNegativeScenario(extended: bool, defaults: Settings)
    returns (beforeOpen: RmfError, beforeStart: RmfError, stop: RmfError, again: RmfError, nullAfterClose: RmfError)
    requires ValidateSettings(defaults) == Success
    ensures beforeOpen == InvalidHandle && nullAfterClose == InvalidHandle
    ensures beforeStart == Ext(extended, InvalidState, OsalEinval)
    ensures stop == Success
    ensures again == Ext(extended, InvalidState, OsalEinval)
  {
    var hal := new AudioCaptureHal(extended, defaults);
    var r, h, s;
    beforeOpen := hal.Stop(NullHandle);
    r, h := hal.Open(true);
    beforeStart := hal.Stop(h);
    r, s := hal.GetDefaultSettings(true);
    r := hal.Start(h, Some(WithDummyCallbacks(s)));
    r := hal.Stop(NullHandle);
    stop := hal.Stop(h);
    again := hal.Stop(h);
    r := hal.Close(h);
    nullAfterClose := hal.Stop(NullHandle);
  }

  /** test_l1_rmfAudioCapture_positive_RMF_AudioCapture_GetStatus: started is 0, then 1, then 0. */
  method StatusPositiveScenario(extended: bool, defaults: Settings)
    returns (afterOpen: Status, afterStart: Status, activeCheck: RmfError, afterStop: Status)
    requires ValidateSettings(defaults) == Success
    ensures afterOpen.started == 0 && afterStart.started == 1 && afterStop.started == 0
    ensures activeCheck == Success
  {
    var hal := new AudioCaptureHal(extended, defaults);
    var r, h, s;
    r, h := hal.Open(true);
    r, afterOpen := hal.GetStatus(h, true);
    r, s := hal.GetDefaultSettings(true);
    s := WithDummyCallbacks(s);
    r := hal.Start(h, Some(s));
    r, afterStart := hal.GetStatus(h, true);
    activeCheck := ValidateStatusActive(afterStart);
    r := hal.Stop(h);
    r, afterStop := hal.GetStatus(h, true);
  }

  /** test_l1_rmfAudioCapture_negative_RMF_AudioCapture_GetStatus, steps 12 to 14. */
  method StatusAfterCloseScenario(extended: bool, defaults: Settings)
    returns (nullOut: RmfError, afterClose: RmfError, afterCloseNullOut: RmfError)
    requires ValidateSettings(defaults) == Success
    ensures nullOut == InvalidParm
    ensures afterClose == Ext(extended, InvalidHandle, OsalEinval)
    ensures afterCloseNullOut == Ext(extended, InvalidHandle, OsalEinval)
  {
    var hal := new AudioCaptureHal(extended, defaults);
    var r, h, st;
    r, h := hal.Open(true);
    nullOut, st := hal.GetStatus(h, false);
    r := hal.Close(h);
    afterClose, st := hal.GetStatus(h, true);
    afterCloseNullOut, st := hal.GetStatus(h, false);
  }

  /** test_l1_rmfAudioCapture_negative_RMF_AudioCapture_GetCurrentSettings. */
  method CurrentSettingsNegativeScenario(extended: bool, defaults: Settings)
    returns (nullHandle: RmfError, beforeStart: RmfError, nullOut: RmfError, afterStop: RmfError,
             nullOutStopped: RmfError, afterClose: RmfError)
    requires ValidateSettings(defaults) == Success
    ensures nullHandle == InvalidHandle
    ensures beforeStart == Ext(extended, InvalidState, Success)
    ensures nullOut == InvalidParm && nullOutStopped == InvalidParm
    ensures afterStop == Ext(extended, InvalidState, Success)
    ensures afterClose == Ext(extended, InvalidHandle, OsalEinval)
  {
    var hal := new AudioCaptureHal(extended, defaults);
    var r, h, s, cur;
    nullHandle, cur := hal.GetCurrentSettings(NullHandle, true);
    r, h := hal.Open(true);
    beforeStart, cur := hal.GetCurrentSettings(h, true);
    r, s := hal.GetDefaultSettings(true);
    r := hal.Start(h, Some(WithDummyCallbacks(s)));
    nullOut, cur := hal.GetCurrentSettings(h, false);
    r := hal.Stop(h);
    afterStop, cur := hal.GetCurrentSettings(h, true);
    nullOutStopped, cur := hal.GetCurrentSettings(h, false);
    r := hal.Close(h);
    afterClose, cur := hal.GetCurrentSettings(h, true);
  }
}
