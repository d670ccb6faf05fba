/**
 * The deep-sleep manager HAL as its conformance tests state it: an
 * init/term lifecycle, entering deep sleep with a bounded timeout and a
 * wake-up, and the last wake-up reason and key code. Every error that a
 * legacy implementation does not report is SUCCESS there, so the
 * `extendedEnums` flag decides each error code.
 */
module DeepSleep {
  import opened HalCommon

  /** DeepSleep_Return_Status_t, the codes the tests use. */
  datatype DeepSleepError = Success | InvalidArgument | NotInitialized | AlreadyInitialized

  /** The longest deep-sleep timeout accepted, one week in seconds. */
  const MaxTimeout := 604800

  /** A pending deep sleep: its timeout and whether network standby was requested. */
  datatype Sleep = Sleep(timeoutSeconds: nat, networkStandby: bool)

  class DeepSleepManager {
    const extendedEnums: bool
    /** What the platform reports as the last wake-up reason and key code. */
    const lastReason: nat
    const lastKeyCode: nat
    /** What the platform reports through `isGPIOWakeup` when deep sleep is entered. */
    const gpioWakeup: bool
    var initialized: bool
    var sleeping: Option<Sleep>

    constructor (extended: bool, reason: nat, keyCode: nat, gpio: bool)
      ensures extendedEnums == extended && lastReason == reason && lastKeyCode == keyCode && gpioWakeup == gpio
      ensures !initialized && sleeping == None
    {
      extendedEnums := extended;
      lastReason := reason;
      lastKeyCode := keyCode;
      gpioWakeup := gpio;
      initialized := false;
      sleeping := None;
    }

    /** The code of every call made before PLAT_DS_INIT or after PLAT_DS_TERM. */
    function NotInitCode(): DeepSleepError
    {
      Ext(extendedEnums, NotInitialized, Success)
    }

    /** PLAT_DS_INIT: a second call reports ALREADY_INITIALIZED. */
    method Init() returns (r: DeepSleepError)
      modifies this
      ensures r == if old(initialized) then Ext(extendedEnums, AlreadyInitialized, Success) else Success
      ensures initialized
      ensures sleeping == if old(initialized) then old(sleeping) else None
    {
      if initialized {
        r := Ext(extendedEnums, AlreadyInitialized, Success);
      } else {
        initialized := true;
        sleeping := None;
        r := Success;
      }
    }

    /** PLAT_DS_TERM. */
    method Term() returns (r: DeepSleepError)
      modifies this
      ensures r == if old(initialized) then Success else NotInitCode()
      ensures !initialized && sleeping == None
    {
      if !initialized {
        r := NotInitCode();
      } else {
        r := Success;
      }
      initialized := false;
      sleeping := None;
    }

    /**
     * PLAT_DS_SetDeepSleep: a NULL `isGPIOWakeup` or a timeout beyond one
     * week is an invalid argument; otherwise the platform goes to sleep.
     */
    method SetDeepSleep(timeoutSeconds: nat, hasGpioOut: bool, networkStandby: bool)
      returns (r: DeepSleepError, isGpioWakeup: bool)
      modifies this
      ensures r == (if !old(initialized) then NotInitCode()
                    else if !hasGpioOut || timeoutSeconds > MaxTimeout then Ext(extendedEnums, InvalidArgument, Success)
                    else Success)
      ensures initialized == old(initialized)
      ensures if old(initialized) && hasGpioOut && timeoutSeconds <= MaxTimeout
              then sleeping == Some(Sleep(timeoutSeconds, networkStandby)) && isGpioWakeup == gpioWakeup
              else sleeping == old(sleeping)
    {
      isGpioWakeup := false;
      if !initialized {
        r := NotInitCode();
      } else if !hasGpioOut || timeoutSeconds > MaxTimeout {
        r := Ext(extendedEnums, InvalidArgument, Success);
      } else {
        sleeping := Some(Sleep(timeoutSeconds, networkStandby));
        isGpioWakeup := gpioWakeup;
        r := Success;
      }
    }

    /** PLAT_DS_DeepSleepWakeup: leaves deep sleep. */
    method Wakeup() returns (r: DeepSleepError)
      modifies this
      ensures r == if old(initialized) then Success else NotInitCode()
      ensures initialized == old(initialized)
      ensures sleeping == if old(initialized) then None else old(sleeping)
    {
      if !initialized {
        r := NotInitCode();
      } else {
        sleeping := None;
        r := Success;
      }
    }

    /** PLAT_DS_GetLastWakeupReason. */
    method GetLastWakeupReason(hasOut: bool) returns (r: DeepSleepError, reason: nat)
      ensures r == (if !initialized then NotInitCode()
                    else if !hasOut then Ext(extendedEnums, InvalidArgument, Success)
                    else Success)
      ensures initialized && hasOut ==> reason == lastReason
    {
      reason := 0;
      if !initialized {
        r := NotInitCode();
      } else if !hasOut {
        r := Ext(extendedEnums, InvalidArgument, Success);
      } else {
        r := Success;
        reason := lastReason;
      }
    }

    /** PLAT_DS_GetLastWakeupKeyCode. */
    method GetLastWakeupKeyCode(hasOut: bool) returns (r: DeepSleepError, keyCode: nat)
      ensures r == (if !initialized then NotInitCode()
                    else if !hasOut then Ext(extendedEnums, InvalidArgument, Success)
                    else Success)
      ensures initialized && hasOut ==> keyCode == lastKeyCode
    {
      keyCode := 0;
      if !initialized {
        r := NotInitCode();
      } else if !hasOut {
        r := Ext(extendedEnums, InvalidArgument, Success);
      } else {
        r := Success;
        keyCode := lastKeyCode;
      }
    }
  }

  /** The init and term tests: init, term, init, term succeed; a second init and a spare term are refused. */
  method InitTermScenario(extended: bool) returns (codes: seq<DeepSleepError>)
    ensures codes == [
      Ext(extended, NotInitialized, Success),      // term before init
      Success, Success, Success,                   // init, term, init
      Ext(extended, AlreadyInitialized, Success),  // init again
      Success,                                     // term
      Ext(extended, NotInitialized, Success)]      // term after term
  {
    var m := new DeepSleepManager(extended, 0, 0, false);
    var a := m.Term();
    var b := m.Init();
    var c := m.Term();
    var d := m.Init();
    var e := m.Init();
    var f := m.Term();
    var g := m.Term();
    codes := [a, b, c, d, e, f, g];
  }

  /**
   * The deep-sleep tests: sleeping for 30 s with and without network
   * standby, each followed by a wake-up, succeeds; calls outside init and
   * invalid arguments are refused.
   */
  method SetDeepSleepScenario(extended: bool, gpio: bool) returns (codes: seq<DeepSleepError>, woke: bool)
    ensures codes == [
      Ext(extended, NotInitialized, Success),     // sleep before init
      Ext(extended, NotInitialized, Success),     // wake-up before init
      Success, Success, Success, Success,         // 30 s, wake-up, 30 s with network standby, wake-up
      Ext(extended, InvalidArgument, Success),    // NULL isGPIOWakeup
      Ext(extended, InvalidArgument, Success),    // 604801 s
      Ext(extended, NotInitialized, Success),     // sleep after term
      Ext(extended, NotInitialized, Success)]     // wake-up after term
    ensures woke
  {
    var m := new DeepSleepManager(extended, 0, 0, gpio);
    var a, x := m.SetDeepSleep(60, true, false);
    var b := m.Wakeup();
    var r := m.Init();
    var c, y := m.SetDeepSleep(30, true, false);
    var d := m.Wakeup();
    var e, z := m.SetDeepSleep(30, true, true);
    assert m.sleeping == Some(Sleep(30, true));
    var f := m.Wakeup();
    woke := m.sleeping == None;
    var g, u := m.SetDeepSleep(30, false, false);
    var h, v := m.SetDeepSleep(MaxTimeout + 1, true, false);
    r := m.Term();
    var i, w := m.SetDeepSleep(60, true, false);
    var j := m.Wakeup();
    codes := [a, b, c, d, e, f, g, h, i, j];
  }

  /** The wake-up reason and key-code tests: the platform's values are read back in init only. */
  method WakeupInfoScenario(extended: bool, reason: nat, keyCode: nat)
    returns (codes: seq<DeepSleepError>, readReason: nat, readKey: nat)
    ensures codes == [
      Ext(extended, NotInitialized, Success), Ext(extended, NotInitialized, Success),
      Success, Success,
      Ext(extended, InvalidArgument, Success), Ext(extended, InvalidArgument, Success),
      Ext(extended, NotInitialized, Success), Ext(extended, NotInitialized, Success)]
    ensures readReason == reason && readKey == keyCode
  {
    var m := new DeepSleepManager(extended, reason, keyCode, false);
    var a, x := m.GetLastWakeupReason(true);
    var b, y := m.GetLastWakeupKeyCode(true);
    var r := m.Init();
    var c, d;
    c, readReason := m.GetLastWakeupReason(true);
    d, readKey := m.GetLastWakeupKeyCode(true);
    var e, f, g, h;
    e, x := m.GetLastWakeupReason(false);
    f, y := m.GetLastWakeupKeyCode(false);
    r := m.Term();
    g, x := m.GetLastWakeupReason(true);
    h, y := m.GetLastWakeupKeyCode(true);
    codes := [a, b, c, d, e, f, g, h];
  }
}
