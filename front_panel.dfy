/**
 * The front-panel display (FPD) sub-module of the device-settings HAL: a
 * module-wide initialised flag, discrete indicator LEDs that are switched
 * ON/OFF and have a brightness, a colour and a blink pattern, the
 * 7-segment text/clock display with its mode, time format, text
 * brightness and scrolling, and the power LED state.
 *
 * The platform is described by a profile (the indicators present with
 * their colour mode, supported colours and brightness range; the LED
 * states supported), as the conformance tests read it from their
 * configuration file. Error codes that differ between legacy and
 * extended implementations are chosen by `extendedEnums`.
 */
module FrontPanel {
  import opened HalCommon
  import opened DeviceSettings
  import Bits

  // dsFPDIndicator_t
  const IndicatorMessage := 0
  const IndicatorPower := 1
  const IndicatorRecord := 2
  const IndicatorRemote := 3
  const IndicatorRfBypass := 4
  const IndicatorMax := 5
  const Indicators: seq<int> :=
    [IndicatorMessage, IndicatorPower, IndicatorRecord, IndicatorRemote, IndicatorRfBypass]

  /** dsFPDIndicator_isValid. */
  function IndicatorIsValid(t: int): (b: bool)
    ensures b <==> t in Indicators
  {
    IndicatorMessage <= t < IndicatorMax
  }

  // dsFPDState_t
  const StateOff := 0
  const StateOn := 1
  const StateMax := 2

  // dsFPDLedState_t
  const LedNone := 0
  const LedActive := 1
  const LedStandby := 2
  const LedWpsConnecting := 3
  const LedWpsConnected := 4
  const LedWpsError := 5
  const LedFactoryReset := 6
  const LedUsbUpgrade := 7
  const LedSoftwareDownloadError := 8
  const LedMax := 9

  // dsFPDTimeFormat_t
  const Time12Hour := 0
  const Time24Hour := 1
  const TimeMax := 2

  // dsFPDMode_t
  const ModeAny := 0
  const ModeText := 1
  const ModeClock := 2
  const ModeMax := 3

  // dsFPDTextDisplay_t
  const TextDisplayText := 0
  const TextDisplayMax := 1

  const BrightnessMax := 100
  const MaxTextLength := 10

  /** The blink pattern every conformant platform accepts, and the ones it rejects. */
  const BlinkDuration := 500
  const BlinkIterations := 10
  const RejectedBlinkDuration := 20000
  const RejectedBlinkIterations := 200

  /** dsFPDColor_Make: a 24-bit RGB word. */
  function ColorMake(r: nat, g: nat, b: nat): (c: nat)
    requires r < 256 && g < 256 && b < 256
    ensures c < 0x100_0000
  {
    r * 0x1_0000 + g * 0x100 + b
  }

  function ColorR(c: nat): nat { (c / 0x1_0000) % 256 }
  function ColorG(c: nat): nat { (c / 0x100) % 256 }
  function ColorB(c: nat): nat { c % 256 }

  /** The component extractors recover what dsFPDColor_Make combined. */
  lemma ColorRoundTrip(r: nat, g: nat, b: nat)
    requires r < 256 && g < 256 && b < 256
    ensures ColorR(ColorMake(r, g, b)) == r
    ensures ColorG(ColorMake(r, g, b)) == g
    ensures ColorB(ColorMake(r, g, b)) == b
  {
    var c := ColorMake(r, g, b);
    assert c / 0x100 == r * 0x100 + g;
    assert c / 0x1_0000 == r;
  }

  // The standard colours, by value.
  const ColorBlue: nat := 0x0000FF
  const ColorGreen: nat := 0x00FF00
  const ColorRed: nat := 0xFF0000
  const ColorYellow: nat := 0xFFFFE0
  const ColorOrange: nat := 0xFF8C00
  const ColorWhite: nat := 0xFFFFFF
  /** The colours the negative colour test tries on every indicator. */
  const AvailableColors: seq<nat> := [ColorBlue, ColorGreen, ColorRed, ColorYellow, ColorOrange, ColorWhite]

  /** Each standard colour is the dsFPDColor_Make of its components. */
  lemma StandardColorsAreMade()
    ensures ColorBlue == ColorMake(0, 0, 0xFF) && ColorGreen == ColorMake(0, 0xFF, 0)
    ensures ColorRed == ColorMake(0xFF, 0, 0) && ColorYellow == ColorMake(0xFF, 0xFF, 0xE0)
    ensures ColorOrange == ColorMake(0xFF, 0x8C, 0) && ColorWhite == ColorMake(0xFF, 0xFF, 0xFF)
  {
  }

  /** The standard colours are 24-bit words. */
  lemma StandardColorsAreValid()
    ensures forall i :: 0 <= i < |AvailableColors| ==> AvailableColors[i] < 0x100_0000
  {
  }

  /** dsFPDColor_isValid: the top byte of the 32-bit word, which the mask selects, is zero. */
  function ColorIsValid(c: nat): (b: bool)
    requires c < U32
    ensures b <==> c < 0x100_0000
  {
    (c / 0x100_0000) % 0x100 == 0
  }

  /** The supported-LED-states word: bit `s` set for every supported state `s`. */
  function LedMask(states: seq<nat>): nat
  {
    Bits.OrAll(Bits.Flags(states))
  }

  /** `mask & (1 << s)` is non-zero: the supported-states word lists state `s`. */
  function LedStateListed(mask: nat, s: nat): bool
  {
    Bits.BitAnd(mask, Bits.Pow2(s)) != 0
  }

  /** The supported-states word lists exactly the supported states. */
  lemma LedMaskHas(states: seq<nat>, s: nat)
    ensures LedStateListed(LedMask(states), s) <==> s in states
  {
    Bits.OrOfFlagsHas(states, s);
  }

  /**
   * The supported-state test of the LED-state tests as written: they read
   * the supported-states entry of the profile as an 8-bit value, so the
   * word they test is below 256.
   */
  function LedStateListedUint8(readMask: nat, s: nat): bool
    requires readMask < U8
  {
    LedStateListed(readMask, s)
  }

  /**
   * An 8-bit read of the supported-states word can never list
   * SOFTWARE_DOWNLOAD_ERROR (bit 8), although the 32-bit word that
   * dsFPGetSupportedLEDStates reports does list it when it is supported.
   */
  lemma Uint8ReadMissesLastState(states: seq<nat>, readMask: nat)
    requires LedSoftwareDownloadError in states && readMask < U8
    ensures LedStateListed(LedMask(states), LedSoftwareDownloadError)
    ensures !LedStateListedUint8(readMask, LedSoftwareDownloadError)
  {
    LedMaskHas(states, LedSoftwareDownloadError);
    assert Bits.Pow2(8) == 256 by {
      assert Bits.Pow2(4) == 16;
    }
    Bits.BitAbove(readMask, 8);
    Bits.AndPow2(readMask, 8);
  }

  /** Time validity for SetFPTime: hours agree with the format, minutes below 60. */
  function TimeIsValid(format: int, hour: nat, minute: nat): (b: bool)
    ensures b ==> (format == Time12Hour || format == Time24Hour) && minute < 60
    ensures format == Time24Hour ==> (b <==> hour < 24 && minute < 60)
    ensures format == Time12Hour ==> (b <==> 1 <= hour <= 12 && minute < 60)
  {
    minute < 60 &&
    if format == Time24Hour then hour < 24
    else if format == Time12Hour then 1 <= hour <= 12
    else false
  }

  /** Text validity for SetFPText: a non-NULL string of at most ten characters. */
  function TextIsValid(text: Option<string>): (b: bool)
    ensures text.None? ==> !b
    ensures text.Some? ==> (b <==> |text.value| <= MaxTextLength)
  {
    text.Some? && |text.value| <= MaxTextLength
  }

  /** One indicator as the profile describes it. */
  datatype IndicatorConfig = IndicatorConfig(
    colorMode: int,
    colors: seq<nat>,
    minBrightness: nat,
    maxBrightness: nat,
    levels: nat)

  /** The platform profile the tests read from their configuration. */
  datatype Profile = Profile(
    indicators: map<int, IndicatorConfig>,
    ledStates: seq<nat>,
    maxBlinkDuration: nat,
    maxBlinkIterations: nat,
    textLevel: nat)

  predicate ConfigValid(c: IndicatorConfig)
  {
    c.minBrightness <= c.levels <= c.maxBrightness <= BrightnessMax &&
    (c.colorMode != 0 ==> |c.colors| > 0) &&
    forall i :: 0 <= i < |c.colors| ==> c.colors[i] < 0x100_0000
  }

  predicate ProfileValid(p: Profile)
  {
    (forall id :: id in p.indicators ==> IndicatorIsValid(id) && ConfigValid(p.indicators[id])) &&
    |p.ledStates| > 0 && (forall i :: 0 <= i < |p.ledStates| ==> p.ledStates[i] < LedMax) &&
    BlinkDuration <= p.maxBlinkDuration < RejectedBlinkDuration &&
    BlinkIterations <= p.maxBlinkIterations < RejectedBlinkIterations &&
    p.textLevel <= BrightnessMax
  }

  /** The state of one discrete indicator. */
  datatype Led = Led(state: int, brightness: nat, color: nat)

  predicate LedValid(c: IndicatorConfig, l: Led)
  {
    (l.state == StateOff || l.state == StateOn) && l.brightness <= BrightnessMax &&
    (c.colorMode != 0 ==> l.color in c.colors)
  }

  datatype Blink = Blink(durationMs: nat, iterations: nat)

  /** What the 7-segment display was last asked to show. */
  datatype Shown = Blank | Time(format: int, hour: nat, minute: nat) | Text(text: string)

  datatype Scroll = NoScroll | Scrolling(holdMs: nat, horizontal: nat, vertical: nat)

  /** All mutable state of the sub-module, as one value. */
  datatype Panel = Panel(
    initialized: bool,
    leds: map<int, Led>,
    blinking: map<int, Blink>,
    mode: int,
    timeFormat: int,
    shown: Shown,
    textBrightness: nat,
    clockEnabled: bool,
    scroll: Scroll,
    ledState: nat)

  /** Every indicator OFF at its default brightness and first supported colour. */
  function InitialLeds(inds: map<int, IndicatorConfig>): (m: map<int, Led>)
    ensures m.Keys == inds.Keys
  {
    map id | id in inds :: Led(StateOff, inds[id].levels, if |inds[id].colors| > 0 then inds[id].colors[0] else 0)
  }

  /** The state in which initialisation leaves the sub-module. */
  function InitialPanel(p: Profile, initialized: bool): Panel
    requires |p.ledStates| > 0
  {
    Panel(initialized, InitialLeds(p.indicators), map[], ModeAny, Time12Hour, Blank,
      p.textLevel, false, NoScroll, p.ledStates[0])
  }

  class FrontPanelDisplay {
    const extendedEnums: bool
    const profile: Profile
    var initialized: bool
    var leds: map<int, Led>
    var blinking: map<int, Blink>
    var mode: int
    var timeFormat: int
    var shown: Shown
    var textBrightness: nat
    var clockEnabled: bool
    var scroll: Scroll
    var ledState: nat

    function Snapshot(): Panel
      reads this
    {
      Panel(initialized, leds, blinking, mode, timeFormat, shown, textBrightness, clockEnabled, scroll, ledState)
    }

    ghost predicate Valid()
      reads this
    {
      ProfileValid(profile) &&
      leds.Keys == profile.indicators.Keys && blinking.Keys <= leds.Keys &&
      (forall id :: id in leds ==> LedValid(profile.indicators[id], leds[id])) &&
      0 <= mode < ModeMax && 0 <= timeFormat < TimeMax && textBrightness <= BrightnessMax &&
      ledState in profile.ledStates
    }

    /** The code returned by every call made before dsFPInit or after dsFPTerm. */
    function NotInitCode(): DsError
    {
      Ext(extendedEnums, NotInitialized, NoError)
    }

    constructor (extended: bool, p: Profile)
      requires ProfileValid(p)
      ensures Valid() && extendedEnums == extended && profile == p
      ensures Snapshot() == InitialPanel(p, false)
    {
      extendedEnums := extended;
      profile := p;
      initialized := false;
      leds := InitialLeds(p.indicators);
      blinking := map[];
      mode := ModeAny;
      timeFormat := Time12Hour;
      shown := Blank;
      textBrightness := p.textLevel;
      clockEnabled := false;
      scroll := NoScroll;
      ledState := p.ledStates[0];
    }

    method Reset(init: bool)
      requires ProfileValid(profile)
      modifies this
      ensures Valid() && Snapshot() == InitialPanel(profile, init)
    {
      initialized := init;
      leds := InitialLeds(profile.indicators);
      blinking := map[];
      mode := ModeAny;
      timeFormat := Time12Hour;
      shown := Blank;
      textBrightness := profile.textLevel;
      clockEnabled := false;
      scroll := NoScroll;
      ledState := profile.ledStates[0];
    }

    /** dsFPInit: a second call reports ALREADY_INITIALIZED (NONE on legacy platforms). */
    method Init() returns (r: DsError)
      requires Valid()
      modifies this
      ensures Valid()
      ensures r == (if old(initialized) then Ext(extendedEnums, AlreadyInitialized, NoError) else NoError)
      ensures if old(initialized) then Snapshot() == old(Snapshot()) else Snapshot() == InitialPanel(profile, true)
    {
      if initialized {
        r := Ext(extendedEnums, AlreadyInitialized, NoError);
      } else {
        Reset(true);
        r := NoError;
      }
    }

    /** dsFPTerm: releases the module and stops any blinking. */
    method Term() returns (r: DsError)
      requires Valid()
      modifies this
      ensures Valid()
      ensures r == (if old(initialized) then NoError else NotInitCode())
      ensures if old(initialized) then Snapshot() == old(Snapshot()).(initialized := false, blinking := map[])
              else Snapshot() == old(Snapshot())
    {
      if !initialized {
        r := NotInitCode();
      } else {
        initialized := false;
        blinking := map[];
        r := NoError;
      }
    }

    /** dsSetFPState: only indicators of the profile, and only ON or OFF. */
    method SetFPState(ind: int, state: int) returns (r: DsError)
      requires Valid()
      modifies this
      ensures Valid()
      ensures r == (if !old(initialized) then NotInitCode()
                    else if !IndicatorIsValid(ind) || !(state == StateOff || state == StateOn) then InvalidParam
                    else if ind !in old(leds) then InvalidParam
                    else NoError)
      ensures if old(initialized) && r == NoError
              then Snapshot() == old(Snapshot()).(leds := old(leds)[ind := old(leds)[ind].(state := state)])
              else Snapshot() == old(Snapshot())
    {
      if !initialized {
        r := NotInitCode();
      } else if !IndicatorIsValid(ind) || !(state == StateOff || state == StateOn) || ind !in leds {
        r := InvalidParam;
      } else {
        leds := leds[ind := leds[ind].(state := state)];
        r := NoError;
      }
    }

    /** dsGetFPState: the state last set; indicators outside the profile are not supported. */
    method GetFPState(ind: int, hasOut: bool) returns (r: DsError, state: int)
      requires Valid()
      ensures r == (if !initialized then NotInitCode()
                    else if !IndicatorIsValid(ind) || !hasOut then InvalidParam
                    else if ind !in leds then OperationNotSupported
                    else NoError)
      ensures initialized && r == NoError ==> state == leds[ind].state && (state == StateOff || state == StateOn)
    {
      state := StateOff;
      if !initialized {
        r := NotInitCode();
      } else if !IndicatorIsValid(ind) || !hasOut {
        r := InvalidParam;
      } else if ind !in leds {
        r := OperationNotSupported;
      } else {
        r := NoError;
        state := leds[ind].state;
      }
    }

    /** dsSetFPBlink: needs the indicator ON; the pattern must be within the platform's limits. */
    method SetFPBlink(ind: int, durationMs: nat, iterations: nat) returns (r: DsError)
      requires Valid()
      modifies this
      ensures Valid()
      ensures r == (if !old(initialized) then NotInitCode()
                    else if !IndicatorIsValid(ind) || durationMs > profile.maxBlinkDuration
                         || iterations > profile.maxBlinkIterations then InvalidParam
                    else if ind !in old(leds) || old(leds)[ind].state == StateOff then OperationNotSupported
                    else NoError)
      ensures if old(initialized) && r == NoError
              then Snapshot() == old(Snapshot()).(blinking := old(blinking)[ind := Blink(durationMs, iterations)])
              else Snapshot() == old(Snapshot())
    {
      if !initialized {
        r := NotInitCode();
      } else if !IndicatorIsValid(ind) || durationMs > profile.maxBlinkDuration || iterations > profile.maxBlinkIterations {
        r := InvalidParam;
      } else if ind !in leds || leds[ind].state == StateOff {
        r := OperationNotSupported;
      } else {
        blinking := blinking[ind := Blink(durationMs, iterations)];
        r := NoError;
      }
    }

    /** dsSetFPBrightness: 0 to 100, and only while the indicator is ON. */
    method SetFPBrightness(ind: int, brightness: nat) returns (r: DsError)
      requires Valid()
      modifies this
      ensures Valid()
      ensures r == (if !old(initialized) then NotInitCode()
                    else if !IndicatorIsValid(ind) || brightness > BrightnessMax then InvalidParam
                    else if ind !in old(leds) || old(leds)[ind].state == StateOff then OperationNotSupported
                    else NoError)
      ensures if old(initialized) && r == NoError
              then Snapshot() == old(Snapshot()).(leds := old(leds)[ind := old(leds)[ind].(brightness := brightness)])
              else Snapshot() == old(Snapshot())
    {
      if !initialized {
        r := NotInitCode();
      } else if !IndicatorIsValid(ind) || brightness > BrightnessMax {
        r := InvalidParam;
      } else if ind !in leds || leds[ind].state == StateOff {
        r := OperationNotSupported;
      } else {
        leds := leds[ind := leds[ind].(brightness := brightness)];
        r := NoError;
      }
    }

    /** dsGetFPBrightness: the indicator's current brightness, only while it is ON. */
    method GetFPBrightness(ind: int, hasOut: bool) returns (r: DsError, brightness: nat)
      requires Valid()
      ensures r == (if !initialized then NotInitCode()
                    else if !IndicatorIsValid(ind) || !hasOut then InvalidParam
                    else if ind !in leds || leds[ind].state == StateOff then OperationNotSupported
                    else NoError)
      ensures initialized && r == NoError ==> brightness == leds[ind].brightness <= BrightnessMax
    {
      brightness := 0;
      if !initialized {
        r := NotInitCode();
      } else if !IndicatorIsValid(ind) || !hasOut {
        r := InvalidParam;
      } else if ind !in leds || leds[ind].state == StateOff {
        r := OperationNotSupported;
      } else {
        r := NoError;
        brightness := leds[ind].brightness;
      }
    }

    /** dsSetFPColor: only a supported colour of a multi-colour indicator that is ON. */
    method SetFPColor(ind: int, color: nat) returns (r: DsError)
      requires Valid() && color < U32
      modifies this
      ensures Valid()
      ensures r == (if !old(initialized) then NotInitCode()
                    else if !IndicatorIsValid(ind) || !ColorIsValid(color) then InvalidParam
                    else if ind !in old(leds) || old(leds)[ind].state == StateOff then OperationNotSupported
                    else if profile.indicators[ind].colorMode == 0 then OperationNotSupported
                    else if color !in profile.indicators[ind].colors then OperationNotSupported
                    else NoError)
      ensures if old(initialized) && r == NoError
              then Snapshot() == old(Snapshot()).(leds := old(leds)[ind := old(leds)[ind].(color := color)])
              else Snapshot() == old(Snapshot())
    {
      if !initialized {
        r := NotInitCode();
      } else if !IndicatorIsValid(ind) || !ColorIsValid(color) {
        r := InvalidParam;
      } else if ind !in leds || leds[ind].state == StateOff {
        r := OperationNotSupported;
      } else if profile.indicators[ind].colorMode == 0 || color !in profile.indicators[ind].colors {
        r := OperationNotSupported;
      } else {
        leds := leds[ind := leds[ind].(color := color)];
        r := NoError;
      }
    }

    /** dsGetFPColor: the current colour of a multi-colour indicator that is ON; always a supported one. */
    method GetFPColor(ind: int, hasOut: bool) returns (r: DsError, color: nat)
      requires Valid()
      ensures r == (if !initialized then NotInitCode()
                    else if !IndicatorIsValid(ind) || !hasOut then InvalidParam
                    else if ind !in leds || leds[ind].state == StateOff then OperationNotSupported
                    else if profile.indicators[ind].colorMode == 0 then OperationNotSupported
                    else NoError)
      ensures initialized && r == NoError ==>
        color == leds[ind].color && color in profile.indicators[ind].colors
    {
      color := 0;
      if !initialized {
        r := NotInitCode();
      } else if !IndicatorIsValid(ind) || !hasOut {
        r := InvalidParam;
      } else if ind !in leds || leds[ind].state == StateOff || profile.indicators[ind].colorMode == 0 {
        r := OperationNotSupported;
      } else {
        r := NoError;
        color := leds[ind].color;
      }
    }

    /** dsSetFPDMode: text, clock or both. */
    method SetFPDMode(m: int) returns (r: DsError)
      requires Valid()
      modifies this
      ensures Valid()
      ensures r == (if !old(initialized) then NotInitCode()
                    else if !(ModeAny <= m < ModeMax) then InvalidParam
                    else NoError)
      ensures if old(initialized) && r == NoError then Snapshot() == old(Snapshot()).(mode := m)
              else Snapshot() == old(Snapshot())
    {
      if !initialized {
        r := NotInitCode();
      } else if !(ModeAny <= m < ModeMax) {
        r := InvalidParam;
      } else {
        mode := m;
        r := NoError;
      }
    }

    /** dsSetFPTime: a valid time, shown unless the display is in text-only mode. */
    method SetFPTime(format: int, hour: nat, minute: nat) returns (r: DsError)
      requires Valid()
      modifies this
      ensures Valid()
      ensures r == (if !old(initialized) then NotInitCode()
                    else if !TimeIsValid(format, hour, minute) then InvalidParam
                    else if old(mode) == ModeText then OperationNotSupported
                    else NoError)
      ensures if old(initialized) && r == NoError then Snapshot() == old(Snapshot()).(shown := Time(format, hour, minute))
              else Snapshot() == old(Snapshot())
    {
      if !initialized {
        r := NotInitCode();
      } else if !TimeIsValid(format, hour, minute) {
        r := InvalidParam;
      } else if mode == ModeText {
        r := OperationNotSupported;
      } else {
        shown := Time(format, hour, minute);
        r := NoError;
      }
    }

    /** dsSetFPText: at most ten characters, shown unless the display is in clock-only mode. */
    method SetFPText(text: Option<string>) returns (r: DsError)
      requires Valid()
      modifies this
      ensures Valid()
      ensures r == (if !old(initialized) then NotInitCode()
                    else if !TextIsValid(text) then InvalidParam
                    else if old(mode) == ModeClock then OperationNotSupported
                    else NoError)
      ensures if old(initialized) && r == NoError then Snapshot() == old(Snapshot()).(shown := Text(text.value))
              else Snapshot() == old(Snapshot())
    {
      if !initialized {
        r := NotInitCode();
      } else if !TextIsValid(text) {
        r := InvalidParam;
      } else if mode == ModeClock {
        r := OperationNotSupported;
      } else {
        shown := Text(text.value);
        r := NoError;
      }
    }

    /** dsSetFPTextBrightness: 0 to 100 on the text display, unless in clock-only mode. */
    method SetFPTextBrightness(display: int, brightness: nat) returns (r: DsError)
      requires Valid()
      modifies this
      ensures Valid()
      ensures r == (if !old(initialized) then NotInitCode()
                    else if !(TextDisplayText <= display < TextDisplayMax) || brightness > BrightnessMax then InvalidParam
                    else if old(mode) == ModeClock then OperationNotSupported
                    else NoError)
      ensures if old(initialized) && r == NoError then Snapshot() == old(Snapshot()).(textBrightness := brightness)
              else Snapshot() == old(Snapshot())
    {
      if !initialized {
        r := NotInitCode();
      } else if !(TextDisplayText <= display < TextDisplayMax) || brightness > BrightnessMax {
        r := InvalidParam;
      } else if mode == ModeClock {
        r := OperationNotSupported;
      } else {
        textBrightness := brightness;
        r := NoError;
      }
    }

    /** dsGetFPTextBrightness: the text brightness last set. */
    method GetFPTextBrightness(display: int, hasOut: bool) returns (r: DsError, brightness: nat)
      requires Valid()
      ensures r == (if !initialized then NotInitCode()
                    else if !(TextDisplayText <= display < TextDisplayMax) || !hasOut then InvalidParam
                    else NoError)
      ensures initialized && r == NoError ==> brightness == textBrightness <= BrightnessMax
    {
      brightness := 0;
      if !initialized {
        r := NotInitCode();
      } else if !(TextDisplayText <= display < TextDisplayMax) || !hasOut {
        r := InvalidParam;
      } else {
        r := NoError;
        brightness := textBrightness;
      }
    }

    /** dsFPEnableCLockDisplay: 1 enables and 0 disables, unless in text-only mode. */
    method EnableClockDisplay(enable: int) returns (r: DsError)
      requires Valid()
      modifies this
      ensures Valid()
      ensures r == (if !old(initialized) then NotInitCode()
                    else if !(enable == 0 || enable == 1) then InvalidParam
                    else if old(mode) == ModeText then OperationNotSupported
                    else NoError)
      ensures if old(initialized) && r == NoError then Snapshot() == old(Snapshot()).(clockEnabled := enable == 1)
              else Snapshot() == old(Snapshot())
    {
      if !initialized {
        r := NotInitCode();
      } else if !(enable == 0 || enable == 1) {
        r := InvalidParam;
      } else if mode == ModeText {
        r := OperationNotSupported;
      } else {
        clockEnabled := enable == 1;
        r := NoError;
      }
    }

    /** dsSetFPScroll: a positive hold time, and never both directions at once. */
    method SetFPScroll(holdMs: nat, horizontal: nat, vertical: nat) returns (r: DsError)
      requires Valid()
      modifies this
      ensures Valid()
      ensures r == (if !old(initialized) then NotInitCode()
                    else if holdMs == 0 then InvalidParam
                    else if horizontal != 0 && vertical != 0 then OperationNotSupported
                    else NoError)
      ensures if old(initialized) && r == NoError then Snapshot() == old(Snapshot()).(scroll := Scrolling(holdMs, horizontal, vertical))
              else Snapshot() == old(Snapshot())
    {
      if !initialized {
        r := NotInitCode();
      } else if holdMs == 0 {
        r := InvalidParam;
      } else if horizontal != 0 && vertical != 0 {
        r := OperationNotSupported;
      } else {
        scroll := Scrolling(holdMs, horizontal, vertical);
        r := NoError;
      }
    }

    /** dsSetFPTimeFormat: 12 or 24 hours, unless in text-only mode. */
    method SetFPTimeFormat(format: int) returns (r: DsError)
      requires Valid()
      modifies this
      ensures Valid()
      ensures r == (if !old(initialized) then NotInitCode()
                    else if !(Time12Hour <= format < TimeMax) then InvalidParam
                    else if old(mode) == ModeText then OperationNotSupported
                    else NoError)
      ensures if old(initialized) && r == NoError then Snapshot() == old(Snapshot()).(timeFormat := format)
              else Snapshot() == old(Snapshot())
    {
      if !initialized {
        r := NotInitCode();
      } else if !(Time12Hour <= format < TimeMax) {
        r := InvalidParam;
      } else if mode == ModeText {
        r := OperationNotSupported;
      } else {
        timeFormat := format;
        r := NoError;
      }
    }

    /** dsGetFPTimeFormat: the format last set, unless in text-only mode. */
    method GetFPTimeFormat(hasOut: bool) returns (r: DsError, format: int)
      requires Valid()
      ensures r == (if !initialized then NotInitCode()
                    else if !hasOut then InvalidParam
                    else if mode == ModeText then OperationNotSupported
                    else NoError)
      ensures initialized && r == NoError ==> format == timeFormat && (format == Time12Hour || format == Time24Hour)
    {
      format := Time12Hour;
      if !initialized {
        r := NotInitCode();
      } else if !hasOut {
        r := InvalidParam;
      } else if mode == ModeText {
        r := OperationNotSupported;
      } else {
        r := NoError;
        format := timeFormat;
      }
    }

    /** dsFPGetSupportedLEDStates: bit `s` set exactly for the supported states `s`. */
    method GetSupportedLEDStates(hasOut: bool) returns (r: DsError, states: nat)
      requires Valid()
      ensures r == (if !initialized then NotInitCode() else if !hasOut then InvalidParam else NoError)
      ensures initialized && r == NoError ==> states == LedMask(profile.ledStates)
      ensures initialized && r == NoError ==>
        forall s: nat :: LedStateListed(states, s) <==> s in profile.ledStates
    {
      states := 0;
      if !initialized {
        r := NotInitCode();
      } else if !hasOut {
        r := InvalidParam;
      } else {
        r := NoError;
        states := LedMask(profile.ledStates);
        forall s: nat
          ensures LedStateListed(states, s) <==> s in profile.ledStates
        {
          LedMaskHas(profile.ledStates, s);
        }
      }
    }

    /** dsFPSetLEDState: a supported state; changing the LED state stops any blinking. */
    method SetLEDState(state: int) returns (r: DsError)
      requires Valid()
      modifies this
      ensures Valid()
      ensures r == (if !old(initialized) then NotInitCode()
                    else if !(LedNone <= state < LedMax) then InvalidParam
                    else if state !in profile.ledStates then OperationNotSupported
                    else NoError)
      ensures if old(initialized) && r == NoError then Snapshot() == old(Snapshot()).(ledState := state, blinking := map[])
              else Snapshot() == old(Snapshot())
    {
      if !initialized {
        r := NotInitCode();
      } else if !(LedNone <= state < LedMax) {
        r := InvalidParam;
      } else if state !in profile.ledStates {
        r := OperationNotSupported;
      } else {
        ledState := state;
        blinking := map[];
        r := NoError;
      }
    }

    /** dsFPGetLEDState: the current LED state, always one of the supported states. */
    method GetLEDState(hasOut: bool) returns (r: DsError, state: nat)
      requires Valid()
      ensures r == (if !initialized then NotInitCode() else if !hasOut then InvalidParam else NoError)
      ensures initialized && r == NoError ==>
        state == ledState && LedStateListed(LedMask(profile.ledStates), state)
    {
      state := 0;
      if !initialized {
        r := NotInitCode();
      } else if !hasOut {
        r := InvalidParam;
      } else {
        r := NoError;
        state := ledState;
        LedMaskHas(profile.ledStates, state);
      }
    }
  }
}
