# RDK HAL conformance suite, modelled in Dafny

The RDK hardware abstraction layer (HAL) is specified by C headers, and conformance is checked by C test suites and Python host-side helpers. Vendors implement the HAL; the repository contains no implementation. This project models what those headers and tests promise, and proves properties of that model:

- **RMF audio capture.** The level-1 tests drive a capture handle through the states Closed, Open and Started with `rmfAudioCapture_Open`, `Open_Type`, `Start`, `Stop` and `Close`, and check its validators. The level-3 helpers do the following:
  - decode a capture format and sampling frequency;
  - compute the expected byte count and check it within ±10 %;
  - count or copy the data the capture callback delivers into a fixed-size buffer;
  - write the capture as a RIFF/WAVE file.
- **Device-settings types.** These are the validity macros, the single-bit capability enums and the bounded structs of `dsAVDTypes.h`.
- **Front panel display.** This is the contract of `dsFPD.h`: init and term, per-indicator state, brightness, blink and colour, the 7-segment time, text and scroll operations, and the supported LED states. The level-1 tests are stated as scenarios against it.
- **Deep-sleep manager and video port.** These are the lifecycle and argument checks of the level-1 tests: every deep-sleep test, and the video-port tests of init and term, port lookup, enable, HDCP enable, HDMI preference, background colour and preferred colour depth. Video-port handles are given out from the platform's port table.
- **Audio port.** This is the set-then-get settings table that the level-2 tests sweep port by port.
- **Python host helpers.** `dsAudio.py` and `dsVideoPort.py` decode the YAML platform profile: port lists, capability bits, enum names, the device type and the MS12 feature request.

Each HAL's error codes depend on whether the platform reports the extended error enums. `extendedEnums` is a parameter of every state machine, and `HalCommon.Ext` picks the extended or the legacy code, as the tests' `CHECK_FOR_EXTENDED_ERROR_CODE` macro does.

Objects whose state the tests change are classes, and each of their methods states its whole new state. Pure checks and decoders are functions. The Python loops are methods, each proved against a recursive specification function. Python exceptions are the `Err` side of a `Result` (`ValueError`, `KeyError`, `TypeError`).

## Model

The 7-segment scenarios `FrontPanelTests.SetTimeScenario`, `SetTextScenario`, `TextBrightnessScenario`, `ClockDisplayScenario`, `ScrollScenario` and `TimeFormatScenario` model test bodies at test_l1_dsFPD.c:1547-2793 that the suite's registration function (test_l1_dsFPD.c:3086-3119) does not register, so the suite as shipped does not run them.

`FrontPanel.FrontPanelDisplay.Reset`, `AudioCaptureL3.MulMonotone`, `Bits.DisjointFlags`, `VideoPortProfile.FieldsOfConcat`, `AudioProfile.FirstMatchStep`, `AudioCaptureL3.PartAt`, `AudioCaptureL3.ProductReordered` and `AudioCaptureL3.ByteRateWhole` are proof helpers: they state nothing of the source's own and have no row.

| member | source | states |
|---|---|---|
| RmfAudioCapture.Code | staging/external_content/rmf_audio_capture/include/rmfAudioCapture.h:80-88 | success is code 0 and only the two legacy OSAL codes lie at or above the OSAL error base |
| RmfAudioCapture.CodeInjective | staging/external_content/rmf_audio_capture_test/src/test_l1_rmfAudioCapture.c:74-76 | distinct return codes have distinct numeric values, legacy OSAL codes included |
| AudioCaptureL1.ValidateSettings | staging/external_content/rmf_audio_capture_test/src/test_l1_rmfAudioCapture.c:112-128 | success exactly when the format and the sampling frequency lie in their half-open enum ranges, otherwise RMF_ERROR |
| AudioCaptureL1.ValidateStatusActive | staging/external_content/rmf_audio_capture_test/src/test_l1_rmfAudioCapture.c:130-152 | success exactly when started is 1 and format and frequency are in range |
| AudioCaptureL1.CompareSettings | staging/external_content/rmf_audio_capture_test/src/test_l1_rmfAudioCapture.c:154-163 | success exactly when the two settings records are equal, otherwise RMF_ERROR |
| AudioCaptureL1.WithDummyCallbacks | staging/external_content/rmf_audio_capture_test/src/test_l1_rmfAudioCapture.c:106-110 | installs the dummy data callback, clears the status callback and leaves every other field as it was |
| AudioCaptureL1.DummySettingsStartable | staging/external_content/rmf_audio_capture_test/src/test_l1_rmfAudioCapture.c:652-660 | valid defaults with the dummy callback are accepted by Start, also after adding 2000 ms of delay compensation |
| AudioCaptureL1.ParseType | staging/external_content/rmf_audio_capture/include/rmfAudioCapture.h:106-108 | the type string "primary" selects the primary capture, "auxiliary" the auxiliary one, anything else (or NULL) neither |
| AudioCaptureL1.AudioCaptureHal.constructor | staging/external_content/rmf_audio_capture_test/src/test_l1_rmfAudioCapture.c:185-209 | both capture types start closed, with extended codes as the profile declares |
| AudioCaptureL1.AudioCaptureHal.OpenType | staging/external_content/rmf_audio_capture_test/src/test_l1_rmfAudioCapture.c:233-261 | NULL handle pointer or unknown type gives INVALID_PARM; an already open type gives INVALID_STATE (legacy EBUSY); otherwise a fresh live handle and only that type's session changes |
| AudioCaptureL1.AudioCaptureHal.Open | staging/external_content/rmf_audio_capture_test/src/test_l1_rmfAudioCapture.c:352-390 | Open is Open_Type on the primary capture, so it and Open_Type(primary) exclude each other |
| AudioCaptureL1.AudioCaptureHal.Close | staging/external_content/rmf_audio_capture_test/src/test_l1_rmfAudioCapture.c:451-479 | NULL gives INVALID_HANDLE, a stale handle INVALID_STATE (legacy EINVAL), a started capture INVALID_STATE; otherwise the session closes and the handle dies |
| AudioCaptureL1.AudioCaptureHal.GetDefaultSettings | staging/external_content/rmf_audio_capture_test/src/test_l1_rmfAudioCapture.c:553-582 | NULL gives INVALID_PARM; with nothing open an extended implementation gives INVALID_STATE; success returns the platform defaults, which validate |
| AudioCaptureL1.AudioCaptureHal.Start | staging/external_content/rmf_audio_capture_test/src/test_l1_rmfAudioCapture.c:738-810 | NULL handle, stale handle, NULL or unstartable settings, or an already started capture are refused with their codes; otherwise the session is started with exactly these settings |
| AudioCaptureL1.AudioCaptureHal.Stop | staging/external_content/rmf_audio_capture_test/src/test_l1_rmfAudioCapture.c:920-967 | a capture that is only open gives INVALID_STATE (legacy EINVAL), so does a repeated Stop; a started one returns to open |
| AudioCaptureL1.AudioCaptureHal.GetStatus | staging/external_content/rmf_audio_capture_test/src/test_l1_rmfAudioCapture.c:1068-1127 | handle checks come before the output pointer; started is 1 with the started format and frequency, 0 when only open |
| AudioCaptureL1.AudioCaptureHal.GetCurrentSettings | staging/external_content/rmf_audio_capture_test/src/test_l1_rmfAudioCapture.c:1250-1307 | while started it returns exactly the settings passed to Start; while only open an extended implementation gives INVALID_STATE |
| AudioCaptureL1.StartedStatusValid | staging/external_content/rmf_audio_capture_test/src/test_l1_rmfAudioCapture.c:1008-1030 | the status of a started capture always passes the active-status validator |
| AudioCaptureL1.OpenTypeNegativeScenario | staging/external_content/rmf_audio_capture_test/src/test_l1_rmfAudioCapture.c:233-261 | the negative Open_Type sequence yields INVALID_PARM, INVALID_PARM, success, INVALID_STATE (legacy EBUSY), success |
| AudioCaptureL1.OpenExclusionScenario | staging/external_content/rmf_audio_capture_test/src/test_l1_rmfAudioCapture.c:352-390 | Open then Open, Open then Open_Type(primary) and Open_Type(primary) then Open are all refused with INVALID_STATE (legacy EBUSY) |
| AudioCaptureL1.CloseNegativeScenario | staging/external_content/rmf_audio_capture_test/src/test_l1_rmfAudioCapture.c:451-479 | Close(NULL) before and after opening gives INVALID_HANDLE, a second Close INVALID_STATE |
| AudioCaptureL1.DefaultSettingsNegativeScenario | staging/external_content/rmf_audio_capture_test/src/test_l1_rmfAudioCapture.c:553-582 | GetDefaultSettings before open and after close gives INVALID_STATE when extended, and NULL gives INVALID_PARM |
| AudioCaptureL1.DefaultStartStop | staging/external_content/rmf_audio_capture_test/src/test_l1_rmfAudioCapture.c:616-702 | on an open primary handle, getting the default settings, validating them, starting with them and the dummy callbacks, and stopping all succeed, and the handle is left open |
| AudioCaptureL1.CompareStartStop | staging/external_content/rmf_audio_capture_test/src/test_l1_rmfAudioCapture.c:616-702 | on an open primary handle, the eight calls of the comparison part (defaults, validate, start with a 2000 ms delay compensation, read back the current settings, compare them with those passed, stop, start with 16-bit stereo at 48 kHz, stop) all succeed, and the handle is left open |
| AudioCaptureL1.StartPositiveScenario | staging/external_content/rmf_audio_capture_test/src/test_l1_rmfAudioCapture.c:616-702 | all twenty codes of steps 1 to 15 are success: open, the default start and stop, the comparison start and stop, close, then open, the default start and stop again, and close |
| AudioCaptureL1.StartNegativeScenario | staging/external_content/rmf_audio_capture_test/src/test_l1_rmfAudioCapture.c:738-810 | the eight refusals of the negative Start test, each with its own code |
| AudioCaptureL1.StopNegativeScenario | staging/external_content/rmf_audio_capture_test/src/test_l1_rmfAudioCapture.c:920-967 | Stop before open, before start, twice, and with NULL after close gives the codes the test asserts |
| AudioCaptureL1.StatusPositiveScenario | staging/external_content/rmf_audio_capture_test/src/test_l1_rmfAudioCapture.c:994-1036 | started reads 0 after Open, 1 after Start (and validates), 0 after Stop |
| AudioCaptureL1.StatusAfterCloseScenario | staging/external_content/rmf_audio_capture_test/src/test_l1_rmfAudioCapture.c:1068-1127 | a NULL status pointer gives INVALID_PARM; after Close the handle is refused with INVALID_HANDLE (legacy EINVAL), with or without an output |
| AudioCaptureL1.CurrentSettingsNegativeScenario | staging/external_content/rmf_audio_capture_test/src/test_l1_rmfAudioCapture.c:1250-1307 | GetCurrentSettings refusals before start, with NULL output, after stop and after close |
| AudioCaptureL3.GetValuesFromSettings | staging/external_content/rmf_audio_capture_test/src/test_l3_rmfAudioCapture.c:170-222 | the format is decoded before the frequency; an unknown one of either gives RMF_ERROR |
| AudioCaptureL3.DecodingTable | staging/external_content/rmf_audio_capture_test/src/test_l3_rmfAudioCapture.c:172-221 | the six formats decode to 16/2, 24/2, 16/1 (three mono variants), 24/6 and the six frequencies to 16000 to 48000 samples per second |
| AudioCaptureL3.ByteRateIsFrames | staging/external_content/rmf_audio_capture_test/src/test_l3_rmfAudioCapture.c:443-444 | the byte rate is the block align times the sample rate, because every decoded frame is a whole number of bytes |
| AudioCaptureL3.ExpectedBytes | staging/external_content/rmf_audio_capture_test/src/test_l3_rmfAudioCapture.c:373 | the expected byte count is below 2^32/8, because the product is formed in 32 bits before the division |
| AudioCaptureL3.NoWrapBelow256 | staging/external_content/rmf_audio_capture_test/src/test_l3_rmfAudioCapture.c:337 | a uint8_t duration times any decoded per-second byte count stays below 2^32 |
| AudioCaptureL3.ExpectedBytesExact | staging/external_content/rmf_audio_capture_test/src/test_l3_rmfAudioCapture.c:337 | for every duration a uint8_t can hold, the computed byte count is the exact duration times the byte rate |
| AudioCaptureL3.Tolerance | staging/external_content/rmf_audio_capture_test/src/test_l3_rmfAudioCapture.c:374-382 | with something expected, success exactly when 90 % < received/expected < 110 %; with nothing expected, success only when nothing arrived |
| AudioCaptureL3.ToleranceBounds | staging/external_content/rmf_audio_capture_test/src/test_l3_rmfAudioCapture.c:374-382 | exactly the expected amount always passes; nothing, or twice as much, passes only when nothing was expected |
| AudioCaptureL3.ToleranceInterval | staging/external_content/rmf_audio_capture_test/src/test_l3_rmfAudioCapture.c:374-382 | the set of passing deliveries is an interval |
| AudioCaptureL3.ValidateBytesReceived | staging/external_content/rmf_audio_capture_test/src/test_l3_rmfAudioCapture.c:356-383 | undecodable settings give RMF_ERROR; otherwise the tolerance test on the expected count |
| AudioCaptureL3.EffectiveDuration | staging/external_content/rmf_audio_capture_test/src/test_l3_rmfAudioCapture.c:324-329 | a non-positive entry gives 10 seconds; a positive one is truncated to uint8_t |
| AudioCaptureL3.BufferSizeFor | staging/external_content/rmf_audio_capture_test/src/test_l3_rmfAudioCapture.c:331-338 | undecodable settings give duration * 192000 bytes, otherwise duration times the byte rate |
| AudioCaptureL3.FullBufferValidates | staging/external_content/rmf_audio_capture_test/src/test_l3_rmfAudioCapture.c:331-383 | a tracking buffer filled completely passes validation for the same duration |
| AudioCaptureL3.Duration256IsEmptyCapture | staging/external_content/rmf_audio_capture_test/src/test_l3_rmfAudioCapture.c:324-337 | an entered duration of 256 is stored as 0, so the buffer is empty and an empty capture validates |
| AudioCaptureL3.CopyLengthFits | staging/external_content/rmf_audio_capture_test/src/test_l3_rmfAudioCapture.c:283-294 | the callback never writes past the buffer, copies the whole chunk or exactly the remaining space, and refuses only a full buffer |
| AudioCaptureL3.WrittenCopyOverruns | staging/external_content/rmf_audio_capture_test/src/test_l3_rmfAudioCapture.c:283 | as written, one byte received and a chunk of 0xFFFFFFFF bytes wrap the 32-bit sum to 0, so the whole chunk is copied into a 10-byte buffer |
| AudioCaptureL3.WrittenCopyAgrees | staging/external_content/rmf_audio_capture_test/src/test_l3_rmfAudioCapture.c:283-292 | when the 32-bit sum does not wrap, the written guard and the corrected one copy the same amount |
| AudioCaptureL3.WavHeader | staging/external_content/rmf_audio_capture_test/src/test_l3_rmfAudioCapture.c:435-451 | the header is 44 bytes |
| AudioCaptureL3.WavImage | staging/external_content/rmf_audio_capture_test/src/test_l3_rmfAudioCapture.c:435-454 | the file is the 44-byte header followed by exactly the captured bytes |
| AudioCaptureL3.ParseWav | staging/external_content/rmf_audio_capture_test/src/test_l3_rmfAudioCapture.c:435-454 | a parsed file always splits into a 44-byte header and its data |
| AudioCaptureL3.WavHeaderLayout | staging/external_content/rmf_audio_capture_test/src/test_l3_rmfAudioCapture.c:435-451 | RIFF, 36 + data length, WAVE, "fmt ", 16, PCM format 1, channels, rate, byte rate, block align, bits, "data", data length, each at its offset and width |
| AudioCaptureL3.HeaderRoundTrip | staging/external_content/rmf_audio_capture_test/src/test_l3_rmfAudioCapture.c:435-451 | reading the header back gives the fields it was written from |
| AudioCaptureL3.WavRoundTrip | staging/external_content/rmf_audio_capture_test/src/test_l3_rmfAudioCapture.c:435-454 | parsing the written file gives back the PCM parameters and exactly the captured bytes |
| AudioCaptureL3.CaptureContext.constructor | staging/external_content/rmf_audio_capture_test/src/test_l3_rmfAudioCapture.c:132-144 | an empty context with the given settings |
| AudioCaptureL3.CaptureContext.PrepareForDataCounting | staging/external_content/rmf_audio_capture_test/src/test_l3_rmfAudioCapture.c:251-263 | installs the counting callback and no status callback, and resets the buffer size and byte count |
| AudioCaptureL3.CaptureContext.CountingCallback | staging/external_content/rmf_audio_capture_test/src/test_l3_rmfAudioCapture.c:229-244 | adds the chunk size to the uint32_t byte count, raises the cookie and succeeds |
| AudioCaptureL3.CaptureContext.PrepareForDataTracking | staging/external_content/rmf_audio_capture_test/src/test_l3_rmfAudioCapture.c:304-348 | installs the tracking callback, stores the effective duration, allocates a fresh buffer of the computed size and resets the byte count |
| AudioCaptureL3.CaptureContext.TrackingCallback | staging/external_content/rmf_audio_capture_test/src/test_l3_rmfAudioCapture.c:270-297 | copies as much of the chunk as fits after the bytes already received, leaving the earlier bytes unchanged; a full buffer gives RMF_ERROR and nothing changes |
| AudioCaptureL3.WriteHeader | staging/external_content/rmf_audio_capture_test/src/test_l3_rmfAudioCapture.c:435-451 | the field-by-field header writes produce exactly the 44-byte RIFF/WAVE header for the data length, whose layout and round trip are proved below |
| AudioCaptureL3.CaptureContext.WriteWavFile | staging/external_content/rmf_audio_capture_test/src/test_l3_rmfAudioCapture.c:390-464 | writes only when validation passes and the file opens, and then the file is exactly the WAVE image of the captured bytes |
| AudioCaptureL3.CaptureTypeChoice | staging/external_content/rmf_audio_capture_test/src/test_l3_rmfAudioCapture.c:510-530 | the choice is 1 (primary) unless 2 (auxiliary) was entered |
| AudioCaptureL3.TrackingCaptureScenario | staging/external_content/rmf_audio_capture_test/src/test_l3_rmfAudioCapture.c:304-464 | a chunk that fills the buffer is accepted, the next is refused, and the file holds exactly the first chunk |
| HalCommon.Le16RoundTrip | staging/external_content/rmf_audio_capture_test/src/test_l3_rmfAudioCapture.c:441 | a 16-bit field written little-endian reads back as the same value |
| HalCommon.Le32RoundTrip | staging/external_content/rmf_audio_capture_test/src/test_l3_rmfAudioCapture.c:437 | a 32-bit field written little-endian reads back as the same value |
| AvdTypes.VideoPortTypeIsValid | staging/external_content/device_settings/include/dsAVDTypes.h:138 | valid exactly for the nine named port types RF to INTERNAL |
| AvdTypes.AudioTypeIsValid | staging/external_content/device_settings/include/dsAVDTypes.h:159 | valid exactly for the six named audio port types |
| AvdTypes.AudioEncodingIsValid | staging/external_content/device_settings/include/dsAVDTypes.h:165 | valid exactly for NONE, DISPLAY, PCM, AC3 and EAC3 |
| AvdTypes.AudioCompressionIsValid | staging/external_content/device_settings/include/dsAVDTypes.h:171 | valid exactly for NONE, LIGHT, MEDIUM and HEAVY |
| AvdTypes.AudioStereoModeIsValid | staging/external_content/device_settings/include/dsAVDTypes.h:177 | valid exactly for the seven stereo modes, UNKNOWN included |
| AvdTypes.PixelResolutionIsValid | staging/external_content/device_settings/include/dsAVDTypes.h:461 | valid exactly for the seven named pixel resolutions |
| AvdTypes.FrameRateIsValid | staging/external_content/device_settings/include/dsAVDTypes.h:514 | valid exactly for the nine frame rates, UNKNOWN included |
| AvdTypes.ScanModeIsValid | staging/external_content/device_settings/include/dsAVDTypes.h:530 | valid exactly for interlaced and progressive |
| AvdTypes.StereoScopicModeIsValid | staging/external_content/device_settings/include/dsAVDTypes.h:558 | valid exactly for the four stereoscopic modes, UNKNOWN included |
| AvdTypes.AspectRatioIsValid | staging/external_content/device_settings/include/dsAVDTypes.h:575 | valid exactly for 4:3 and 16:9 |
| AvdTypes.HdcpStatusIsValid | staging/external_content/device_settings/include/dsAVDTypes.h:655 | valid exactly for the named HDCP statuses |
| AvdTypes.FlagsMatch | staging/external_content/device_settings/include/dsAVDTypes.h:612-625 | an enum whose values are written as hex literals equals the flag list of its bit positions |
| AvdTypes.HdrStandardsAreSingleBits | staging/external_content/device_settings/include/dsAVDTypes.h:616-625 | every HDR standard other than NONE is a distinct single bit, and NONE is 0 |
| AvdTypes.ColorDepthsAreSingleBits | staging/external_content/device_settings/include/dsAVDTypes.h:751-758 | the colour depths 8, 10, 12 bit and AUTO are distinct single bits, and UNKNOWN is 0 |
| AvdTypes.TvResolutionsAreSingleBits | staging/external_content/device_settings/include/dsAVDTypes.h:467-488 | the TV resolutions 480i to 2160p60 are the 21 distinct bits 0 to 20 |
| AvdTypes.AudioCapabilitiesAreSingleBits | staging/external_content/device_settings/include/dsAVDTypes.h:282-292 | the audio capabilities ATMOS to Invalid are distinct single bits, and NONE is 0 |
| AvdTypes.ArcTypesAreSingleBits | staging/external_content/device_settings/include/dsAVDTypes.h:300-304 | ARC and eARC are distinct single bits, and NONE is 0 |
| AvdTypes.Ms12CapabilitiesAreSingleBits | staging/external_content/device_settings/include/dsAVDTypes.h:329-335 | the MS12 capabilities are distinct single bits, and NONE is 0 |
| AvdTypes.PowersUpTo20 | staging/external_content/device_settings/include/dsAVDTypes.h:467-488 | the hex literals 0x1 to 0x100000 are the powers of two 2^0 to 2^20 |
| AvdTypes.CapabilityWordHas | staging/external_content/device_settings/include/dsAVDTypes.h:611-613 | in the OR of any chosen single-bit values, masking with a value is non-zero exactly when that value was chosen |
| AvdTypes.Descriptors | staging/external_content/device_settings/include/dsAVDTypes.h:310-313 | a SAD list carries at most MAX_SAD = 15 descriptors, the first count entries of its array |
| AvdTypes.VolumeLevellerIsValid | staging/external_content/device_settings/include/dsAVDTypes.h:350-353 | valid exactly when the mode is off, on or auto and the level is 0 to 10 |
| AvdTypes.SurroundVirtualizerIsValid | staging/external_content/device_settings/include/dsAVDTypes.h:358-361 | valid exactly when the mode is off, on or auto and the boost is 0 to 96 |
| AvdTypes.InLevelRange | staging/external_content/device_settings/include/dsAVDTypes.h:350-361 | a level is listed in the range exactly when it lies between 0 and the top |
| Bits.OrOfFlagsHas | staging/external_content/device_settings/include/dsAVDTypes.h:611-613 | in an OR of single-bit flags, a bit is set exactly when its flag was ORed in |
| Bits.FlagWordHas | staging/external_content/device_settings/include/dsAVDTypes.h:611-613 | the same for flags at any list of distinct bit positions |
| Bits.AndPow2 | staging/external_content/device_settings/include/dsAVDTypes.h:611-613 | masking a word with a single-bit flag is non-zero exactly when that bit of the word is set |
| FrontPanel.IndicatorIsValid | staging/external_content/device_settings/include/dsFPDTypes.h:141-156 | valid exactly for the five named indicators MESSAGE to RFBYPASS, the values below MAX |
| FrontPanel.ColorMake | staging/external_content/device_settings/include/dsFPDTypes.h:114 | an RGB triple packs into the low 24 bits |
| FrontPanel.ColorRoundTrip | staging/external_content/device_settings/include/dsFPDTypes.h:114-117 | extracting R, G and B from a packed colour gives back the three components |
| FrontPanel.StandardColorsAreMade | staging/external_content/device_settings/include/dsFPDTypes.h:122-127 | the six standard colours are the packings of their RGB components |
| FrontPanel.StandardColorsAreValid | staging/external_content/device_settings/include/dsFPDTypes.h:122-134 | every standard colour passes the colour validity check |
| FrontPanel.ColorIsValid | staging/external_content/device_settings/include/dsFPDTypes.h:134 | a colour is valid exactly when its reserved top byte is zero |
| FrontPanel.LedMaskHas | staging/external_content/device_settings/include/dsFPD.h:626-628 | the supported-states word has bit s set exactly when state s is supported |
| FrontPanel.Uint8ReadMissesLastState | staging/external_content/device_settings_test/src/test_l1_dsFPD.c:2905-2908 | an 8-bit read of the supported-states word never lists SOFTWARE_DOWNLOAD_ERROR (bit 8), although the 32-bit word does when it is supported |
| FrontPanel.TimeIsValid | staging/external_content/device_settings/include/dsFPD.h:283-314 | a 24-hour time needs hour below 24, a 12-hour time hour 1 to 12, and both minutes below 60; other formats are invalid |
| FrontPanel.TextIsValid | staging/external_content/device_settings/include/dsFPD.h:316-344 | NULL is invalid and text is valid exactly when it has at most 10 characters |
| FrontPanel.FrontPanelDisplay.constructor | staging/external_content/device_settings/include/dsFPD.h:85-103 | a sub-module not yet initialised, every indicator OFF |
| FrontPanel.FrontPanelDisplay.Init | staging/external_content/device_settings/include/dsFPD.h:85-103 | a second init gives ALREADY_INITIALIZED (NONE on legacy platforms) and changes nothing; a first init resets the panel |
| FrontPanel.FrontPanelDisplay.Term | staging/external_content/device_settings/include/dsFPD.h:468-487 | term without init gives NOT_INITIALIZED; otherwise the sub-module is uninitialised and every blink stops |
| FrontPanel.FrontPanelDisplay.SetFPState | staging/external_content/device_settings/include/dsFPD.h:185-206 | NOT_INITIALIZED before init; an invalid indicator or state, or an indicator the platform lacks, gives INVALID_PARAM; otherwise only that indicator's state changes |
| FrontPanel.FrontPanelDisplay.GetFPState | staging/external_content/device_settings/include/dsFPD.h:208-229 | an invalid indicator or NULL gives INVALID_PARAM, an indicator the platform lacks OPERATION_NOT_SUPPORTED; otherwise the state last set, ON or OFF |
| FrontPanel.FrontPanelDisplay.SetFPBlink | staging/external_content/device_settings/include/dsFPD.h:105-130 | out-of-range duration or iterations give INVALID_PARAM; an OFF indicator gives OPERATION_NOT_SUPPORTED; otherwise the indicator blinks |
| FrontPanel.FrontPanelDisplay.SetFPBrightness | staging/external_content/device_settings/include/dsFPD.h:132-157 | brightness above 100 gives INVALID_PARAM; an OFF indicator gives OPERATION_NOT_SUPPORTED; otherwise only that indicator's brightness changes |
| FrontPanel.FrontPanelDisplay.GetFPBrightness | staging/external_content/device_settings/include/dsFPD.h:159-183 | an OFF indicator gives OPERATION_NOT_SUPPORTED; otherwise the brightness last set, at most 100 |
| FrontPanel.FrontPanelDisplay.SetFPColor | staging/external_content/device_settings/include/dsFPD.h:231-255 | an invalid colour gives INVALID_PARAM; an OFF or single-colour indicator, or a colour it does not support, gives OPERATION_NOT_SUPPORTED; otherwise only its colour changes |
| FrontPanel.FrontPanelDisplay.GetFPColor | staging/external_content/device_settings/include/dsFPD.h:257-281 | an OFF or single-colour indicator gives OPERATION_NOT_SUPPORTED; otherwise the colour last set, one the indicator supports |
| FrontPanel.FrontPanelDisplay.SetFPDMode | staging/external_content/device_settings/include/dsFPD.h:551-576 | a mode outside ANY..TEXT gives INVALID_PARAM; otherwise only the mode changes |
| FrontPanel.FrontPanelDisplay.SetFPTime | staging/external_content/device_settings/include/dsFPD.h:283-314 | an invalid time gives INVALID_PARAM, TEXT mode gives OPERATION_NOT_SUPPORTED; otherwise the time is shown |
| FrontPanel.FrontPanelDisplay.SetFPText | staging/external_content/device_settings/include/dsFPD.h:316-344 | NULL or text longer than 10 characters gives INVALID_PARAM, CLOCK mode gives OPERATION_NOT_SUPPORTED; otherwise the text is shown |
| FrontPanel.FrontPanelDisplay.SetFPTextBrightness | staging/external_content/device_settings/include/dsFPD.h:346-376 | an invalid display or a brightness above 100 gives INVALID_PARAM, CLOCK mode gives OPERATION_NOT_SUPPORTED; otherwise only the text brightness changes |
| FrontPanel.FrontPanelDisplay.GetFPTextBrightness | staging/external_content/device_settings/include/dsFPD.h:378-407 | an invalid display or NULL gives INVALID_PARAM; otherwise the text brightness last set |
| FrontPanel.FrontPanelDisplay.EnableClockDisplay | staging/external_content/device_settings/include/dsFPD.h:409-434 | arguments other than 0 and 1 give INVALID_PARAM, TEXT mode gives OPERATION_NOT_SUPPORTED; otherwise the clock display is switched |
| FrontPanel.FrontPanelDisplay.SetFPScroll | staging/external_content/device_settings/include/dsFPD.h:436-466 | a zero hold time gives INVALID_PARAM, scrolling in both directions gives OPERATION_NOT_SUPPORTED; otherwise the scroll is recorded |
| FrontPanel.FrontPanelDisplay.SetFPTimeFormat | staging/external_content/device_settings/include/dsFPD.h:489-519 | a format outside 12/24 hour gives INVALID_PARAM, TEXT mode gives OPERATION_NOT_SUPPORTED; otherwise only the format changes |
| FrontPanel.FrontPanelDisplay.GetFPTimeFormat | staging/external_content/device_settings/include/dsFPD.h:521-549 | NULL gives INVALID_PARAM, TEXT mode gives OPERATION_NOT_SUPPORTED; otherwise the format last set |
| FrontPanel.FrontPanelDisplay.GetSupportedLEDStates | staging/external_content/device_settings/include/dsFPD.h:622-641 | the word reported is the OR of 1 << s over the supported states, and lists exactly those states |
| FrontPanel.FrontPanelDisplay.SetLEDState | staging/external_content/device_settings/include/dsFPD.h:600-620 | an out-of-range state gives INVALID_PARAM, an unsupported one OPERATION_NOT_SUPPORTED; otherwise the LED state changes and blinking stops |
| FrontPanel.FrontPanelDisplay.GetLEDState | staging/external_content/device_settings/include/dsFPD.h:578-598 | the state read is the state last set, and the supported-states word lists it |
| FrontPanelTests.InitAllOn | staging/external_content/device_settings_test/src/test_l1_dsFPD.c:90-100 | after init and enableFPDIndicators every indicator is ON with its initial brightness and colour, and every brightness lies in its range |
| FrontPanelTests.BrightnessLevelsOne | staging/external_content/device_settings_test/src/test_l1_dsFPD.c:647-670 | on an ON indicator, its minimum, average and maximum brightness are each accepted, and every brightness stays in its range |
| FrontPanelTests.SetAllStates | staging/external_content/device_settings_test/src/test_l1_dsFPD.c:90-112 | switching every listed indicator succeeds and changes only their states |
| FrontPanelTests.InitTermScenario | staging/external_content/device_settings_test/src/test_l1_dsFPD.c:148-300 | term before init gives NOT_INITIALIZED, init succeeds, a second init gives ALREADY_INITIALIZED, term succeeds and a second term gives NOT_INITIALIZED (NONE throughout with legacy codes) |
| FrontPanelTests.SetStateNegativeScenario | staging/external_content/device_settings_test/src/test_l1_dsFPD.c:380-442 | SetFPState before init and after term gives NOT_INITIALIZED; indicator MAX, state MAX and every indicator from POWER up that the platform lacks give INVALID_PARAM |
| FrontPanelTests.BlinkOne | staging/external_content/device_settings_test/src/test_l1_dsFPD.c:470-600 | a blink beyond the duration or iteration limits gives INVALID_PARAM; the standard blink succeeds while ON and gives OPERATION_NOT_SUPPORTED once OFF |
| FrontPanelTests.BlinkUninitialised | staging/external_content/device_settings_test/src/test_l1_dsFPD.c:470-600 | outside init, blinking every indicator gives NOT_INITIALIZED (NONE with legacy codes) and changes nothing |
| FrontPanelTests.BlinkScenario | staging/external_content/device_settings_test/src/test_l1_dsFPD.c:470-600 | every indicator gives NOT_INITIALIZED (NONE with legacy codes) before init and again after term; in between the blink checks hold on every indicator, and indicator MAX gives INVALID_PARAM |
| FrontPanelTests.BlinkStopScenario | staging/external_content/device_settings/include/dsFPD.h:105-130 | a blink is stopped by a later SetLEDState and by term |
| FrontPanelTests.ProbeOne | staging/external_content/device_settings_test/src/test_l1_dsFPD.c:675-680 | a call the tests expect refused (outside init, NULL output, or an OFF indicator) gets NOT_INITIALIZED (NONE with legacy codes), INVALID_PARAM or OPERATION_NOT_SUPPORTED in that order of precedence, and changes nothing |
| FrontPanelTests.ProbeAll | staging/external_content/device_settings_test/src/test_l1_dsFPD.c:1043-1049 | the same refusal on every listed indicator, with one code for each and the panel unchanged |
| FrontPanelTests.SetBrightnessScenario | staging/external_content/device_settings_test/src/test_l1_dsFPD.c:627-686 | every listed indicator accepts its minimum, average and maximum brightness while ON (3 NONE each), and refuses the average with OPERATION_NOT_SUPPORTED once OFF (:675-680) |
| FrontPanelTests.SetBrightnessNegativeScenario | staging/external_content/device_settings_test/src/test_l1_dsFPD.c:715-780 | every indicator gives NOT_INITIALIZED (NONE with legacy codes) before init (:740) and after term (:777); brightness 101 on every indicator and indicator MAX (:761) give INVALID_PARAM |
| FrontPanelTests.GetBrightnessScenario | staging/external_content/device_settings_test/src/test_l1_dsFPD.c:807-859 | while ON, every read succeeds and lies between the indicator's minimum and maximum; once OFF, every read gives OPERATION_NOT_SUPPORTED (:847-852) |
| FrontPanelTests.GetBrightnessNegativeScenario | staging/external_content/device_settings_test/src/test_l1_dsFPD.c:888-945 | NOT_INITIALIZED (NONE with legacy codes) on every indicator before init (:905) and after term (:942); a NULL output on every indicator (:922) and indicator MAX (:927) give INVALID_PARAM |
| FrontPanelTests.ReadStatesTwice | staging/external_content/device_settings_test/src/test_l1_dsFPD.c:987-997 | reading each indicator's state twice succeeds and gives the same value, the state last set |
| FrontPanelTests.GetStateScenario | staging/external_content/device_settings_test/src/test_l1_dsFPD.c:970-1003 | after init, two reads of every listed indicator succeed and both give OFF |
| FrontPanelTests.ReadUnlisted | staging/external_content/device_settings_test/src/test_l1_dsFPD.c:1068-1087 | as intended: exactly the valid indicators the platform lacks are read, and each gives OPERATION_NOT_SUPPORTED |
| FrontPanelTests.GetStateNegativeScenario | staging/external_content/device_settings_test/src/test_l1_dsFPD.c:1031-1102 | NOT_INITIALIZED (NONE with legacy codes) on every indicator before init (:1048) and after term (:1099); indicator MAX and a NULL output on every indicator give INVALID_PARAM; exactly the indicators the platform lacks give OPERATION_NOT_SUPPORTED |
| FrontPanelTests.ProbedAsWritten | staging/external_content/device_settings_test/src/test_l1_dsFPD.c:1068-1087 | as written: an indicator is probed exactly when the profile entry numbered like the indicator does not name it (every indicator when the profile lists none) |
| FrontPanelTests.ProbedAsWrittenContradicts | staging/external_content/device_settings_test/src/test_l1_dsFPD.c:970-1087 | with POWER and RECORD listed as entries 2 and 1, the as-written loop probes both, while a state read on either gives NONE, as the positive test demands |
| FrontPanelTests.ColorsOne | staging/external_content/device_settings_test/src/test_l1_dsFPD.c:1148-1174 | each supported colour of an ON indicator is accepted, or refused with OPERATION_NOT_SUPPORTED on a single-colour indicator |
| FrontPanelTests.ColorsWhenOffOne | staging/external_content/device_settings_test/src/test_l1_dsFPD.c:1177-1193 | every supported colour of an OFF indicator is refused with OPERATION_NOT_SUPPORTED, and nothing changes |
| FrontPanelTests.ColorWhenOff | staging/external_content/device_settings_test/src/test_l1_dsFPD.c:1177-1193 | the same for every listed indicator, one code per supported colour |
| FrontPanelTests.SetColorScenario | staging/external_content/device_settings_test/src/test_l1_dsFPD.c:1128-1199 | while ON, each supported colour gets NONE on a multi-colour indicator and OPERATION_NOT_SUPPORTED on a single-colour one; once OFF, each supported colour of each indicator is refused |
| FrontPanelTests.Unsupported | staging/external_content/device_settings_test/src/test_l1_dsFPD.c:1265-1307 | the colours tried are exactly the standard colours the indicator does not support (all of them for a single-colour indicator) |
| FrontPanelTests.UnsupportedColorsOne | staging/external_content/device_settings_test/src/test_l1_dsFPD.c:1265-1307 | every standard colour an indicator does not support is refused with OPERATION_NOT_SUPPORTED |
| FrontPanelTests.UnsupportedColorsAll | staging/external_content/device_settings_test/src/test_l1_dsFPD.c:1265-1307 | the same on every listed indicator, with every indicator left ON |
| FrontPanelTests.SetColorNegativeScenario | staging/external_content/device_settings_test/src/test_l1_dsFPD.c:1227-1329 | WHITE gives NOT_INITIALIZED (NONE with legacy codes) on every indicator before init (:1256) and after term (:1326); each unsupported standard colour is refused; indicator MAX gives INVALID_PARAM (:1311) |
| FrontPanelTests.GetColorOne | staging/external_content/device_settings_test/src/test_l1_dsFPD.c:1380-1420 | a single-colour indicator gives OPERATION_NOT_SUPPORTED; otherwise two reads succeed and give the same supported colour |
| FrontPanelTests.GetColorScenario | staging/external_content/device_settings_test/src/test_l1_dsFPD.c:1356-1436 | the colour reads of every ON indicator are as above; once OFF, every read gives OPERATION_NOT_SUPPORTED (:1423-1431) |
| FrontPanelTests.GetColorNegativeScenario | staging/external_content/device_settings_test/src/test_l1_dsFPD.c:1464-1521 | NOT_INITIALIZED (NONE with legacy codes) on every indicator before init (:1481) and after term (:1518); a NULL output on every indicator (:1497) and indicator MAX (:1502) give INVALID_PARAM |
| FrontPanelTests.TimeChecks | staging/external_content/device_settings_test/src/test_l1_dsFPD.c:1657-1801 | in CLOCK or ANY mode, 14:30 (24h) and 2:30 (12h) are accepted and 25:30, 14:60, 13:30 (12h) and 2:60 (12h) give INVALID_PARAM |
| FrontPanelTests.SetTimeScenario | staging/external_content/device_settings_test/src/test_l1_dsFPD.c:1657-1801 | the exact code sequence: NOT_INITIALIZED before init; 14:30 and 2:30 accepted and 25:30, 14:60, 13:30 and 2:60 refused in CLOCK and ANY mode; TEXT mode refused; NOT_INITIALIZED after term |
| FrontPanelTests.SetTextScenario | staging/external_content/device_settings_test/src/test_l1_dsFPD.c:1828-1950 | the exact code sequence: "HELLO" accepted, NULL and the 11-character "LONGTEXTHER" refused in TEXT and ANY mode, CLOCK mode refused, NOT_INITIALIZED outside init |
| FrontPanelTests.TextBrightnessScenario | staging/external_content/device_settings_test/src/test_l1_dsFPD.c:1977-2209 | the exact code sequence: 70 accepted, 110 and display MAX refused in TEXT and ANY mode, CLOCK refused; two reads give 70; NULL and display MAX refused on read |
| FrontPanelTests.ClockDisplayScenario | staging/external_content/device_settings_test/src/test_l1_dsFPD.c:2238-2364 | the exact code sequence: 1 and 0 accepted, 2 and -1 give INVALID_PARAM in CLOCK and ANY mode, TEXT mode refused |
| FrontPanelTests.ScrollScenario | staging/external_content/device_settings_test/src/test_l1_dsFPD.c:2391-2482 | the exact code sequence: four one-direction scrolls accepted, a zero hold time gives INVALID_PARAM, two directions give OPERATION_NOT_SUPPORTED |
| FrontPanelTests.TimeFormatScenario | staging/external_content/device_settings_test/src/test_l1_dsFPD.c:2511-2768 | the format set is the format read, twice; MAX and a NULL read are refused; TEXT mode refuses set and get |
| FrontPanelTests.LedStateScenario | staging/external_content/device_settings_test/src/test_l1_dsFPD.c:2793-3076 | the supported word is the mask of the profile's states; exactly the supported states are set, all succeed; state MAX is refused; the state read is supported |
| DeepSleep.DeepSleepManager.constructor | staging/external_content/deepsleep_manager_test/src/test_l1_deepSleepMgr.c:115-138 | a manager not yet initialised and not sleeping, with the platform's wake-up reason, key code and GPIO report |
| DeepSleep.DeepSleepManager.Init | staging/external_content/deepsleep_manager_test/src/test_l1_deepSleepMgr.c:115-181 | a second init gives ALREADY_INITIALIZED (SUCCESS with legacy codes) and keeps any pending sleep; a first init succeeds and nothing is pending |
| DeepSleep.DeepSleepManager.Term | staging/external_content/deepsleep_manager_test/src/test_l1_deepSleepMgr.c:202-265 | term without init gives NOT_INITIALIZED (SUCCESS with legacy codes); afterwards the manager is uninitialised and nothing is pending |
| DeepSleep.DeepSleepManager.SetDeepSleep | staging/external_content/deepsleep_manager_test/src/test_l1_deepSleepMgr.c:379-486 | NOT_INITIALIZED outside init; a NULL isGPIOWakeup or a timeout above 604800 s gives INVALID_ARGUMENT; otherwise the sleep is pending and the GPIO report is returned |
| DeepSleep.DeepSleepManager.Wakeup | staging/external_content/deepsleep_manager_test/src/test_l1_deepSleepMgr.c:287-354 | NOT_INITIALIZED outside init; otherwise success and no sleep is pending |
| DeepSleep.DeepSleepManager.GetLastWakeupReason | staging/external_content/deepsleep_manager_test/src/test_l1_deepSleepMgr.c:508-586 | NOT_INITIALIZED outside init, INVALID_ARGUMENT for NULL; otherwise the platform's last wake-up reason |
| DeepSleep.DeepSleepManager.GetLastWakeupKeyCode | staging/external_content/deepsleep_manager_test/src/test_l1_deepSleepMgr.c:608-681 | NOT_INITIALIZED outside init, INVALID_ARGUMENT for NULL; otherwise the platform's last wake-up key code |
| DeepSleep.InitTermScenario | staging/external_content/deepsleep_manager_test/src/test_l1_deepSleepMgr.c:115-265 | the exact code sequence of the init and term tests, positive and negative |
| DeepSleep.SetDeepSleepScenario | staging/external_content/deepsleep_manager_test/src/test_l1_deepSleepMgr.c:287-486 | the exact code sequence of the sleep and wake-up tests, including 604801 s refused; the wake-up leaves nothing pending |
| DeepSleep.WakeupInfoScenario | staging/external_content/deepsleep_manager_test/src/test_l1_deepSleepMgr.c:508-681 | the exact code sequence of the wake-up reason and key code tests, and the values read are the platform's |
| PortHandles.FindPort | staging/external_content/device_settings_test/src/test_l1_dsVideoPort.c:321-336 | the position found holds the requested port and is its first occurrence; no result means the table lacks the port |
| PortHandles.NamedOnlyAt | staging/external_content/device_settings_test/src/test_l1_dsVideoPort.c:321-336 | in a table without repeats, a port is listed at one position only |
| PortHandles.FindsEachPort | staging/external_content/device_settings_test/src/test_l1_dsVideoPort.c:321-336 | in a table without repeats, looking up the entry at position i finds position i |
| PortHandles.HandleOf | staging/external_content/device_settings_test/src/test_l1_dsVideoPort.c:321-336 | a handle given out is never 0 or negative, the values the negative tests use as invalid handles |
| PortHandles.PositionOf | staging/external_content/device_settings_test/src/test_l1_dsVideoPort.c:433-533 | a handle is recognised exactly when some table position maps to it, and then its position lies in the table |
| VideoPort.HdcpVersionIsValid | staging/external_content/device_settings/include/dsAVDTypes.h:660-664 | valid exactly for HDCP 1.x and 2.x |
| VideoPort.BackgroundColorIsValid | staging/external_content/device_settings/include/dsAVDTypes.h:535-540 | valid exactly for BLUE, BLACK and NONE |
| VideoPort.ColorDepthIsValid | staging/external_content/device_settings/include/dsAVDTypes.h:751-758 | valid exactly for UNKNOWN and the depths 8-bit, 10-bit, 12-bit and AUTO |
| VideoPort.HdcpKeyIsValid | staging/external_content/device_settings/include/dsAVDTypes.h:607 | a key is accepted exactly when it is present and at most HDCP_KEY_MAX_SIZE (4096) bytes |
| VideoPort.VideoPortHal.constructor | staging/external_content/device_settings_test/src/test_l1_dsVideoPort.c:120-143 | a HAL not yet initialised with every port in its initial state |
| VideoPort.VideoPortHal.HandleCode | staging/external_content/device_settings_test/src/test_l1_dsVideoPort.c:494-533 | NO_ERROR exactly when the HAL is initialised and the handle belongs to a table entry |
| VideoPort.VideoPortHal.Init | staging/external_content/device_settings_test/src/test_l1_dsVideoPort.c:120-186 | a second init gives ALREADY_INITIALIZED (GENERAL with legacy codes) and changes nothing; a first init resets every port |
| VideoPort.VideoPortHal.Term | staging/external_content/device_settings_test/src/test_l1_dsVideoPort.c:210-282 | term without init gives NOT_INITIALIZED (NONE with legacy codes); afterwards the HAL is uninitialised, port settings kept |
| VideoPort.VideoPortHal.GetVideoPort | staging/external_content/device_settings_test/src/test_l1_dsVideoPort.c:306-407 | NOT_INITIALIZED outside init; an invalid type, negative index or NULL gives INVALID_PARAM; a listed port gives NO_ERROR and its table handle; an unlisted index of a listed type INVALID_PARAM, an unlisted type OPERATION_NOT_SUPPORTED |
| VideoPort.VideoPortHal.IsVideoPortEnabled | staging/external_content/device_settings_test/src/test_l1_dsVideoPort.c:433-533 | the handle check, then INVALID_PARAM for NULL; otherwise the port's enable state |
| VideoPort.VideoPortHal.EnableVideoPort | staging/external_content/device_settings_test/src/test_l1_dsVideoPort.c:1329-1418 | the handle check decides the code; on success only that port's enable state changes |
| VideoPort.VideoPortHal.EnableHDCP | staging/external_content/device_settings_test/src/test_l1_dsVideoPort.c:1058-1174 | the handle check, then INVALID_PARAM for a missing or oversize key, then OPERATION_NOT_SUPPORTED on a sink or a port without HDCP; on success only that port's HDCP setting changes |
| VideoPort.VideoPortHal.IsHDCPEnabled | staging/external_content/device_settings_test/src/test_l1_dsVideoPort.c:1199-1305 | the handle check, INVALID_PARAM for NULL, OPERATION_NOT_SUPPORTED for a source port without HDCP; a sink reads enabled, a source its setting |
| VideoPort.VideoPortHal.SetHdmiPreference | staging/external_content/device_settings_test/src/test_l1_dsVideoPort.c:3926-4020 | the handle check, then INVALID_PARAM for a version outside 1.x and 2.x; on success only that port's preference changes |
| VideoPort.VideoPortHal.GetHdmiPreference | staging/external_content/device_settings_test/src/test_l1_dsVideoPort.c:4045-4143 | the handle check, INVALID_PARAM for NULL; otherwise the preference last set, a valid version |
| VideoPort.VideoPortHal.SetBackgroundColor | staging/external_content/device_settings_test/src/test_l1_dsVideoPort.c:4298-4395 | the handle check, INVALID_PARAM for a colour outside BLUE..NONE, OPERATION_NOT_SUPPORTED on a sink; on success only that port's background changes |
| VideoPort.VideoPortHal.GetPreferredColorDepth | staging/external_content/device_settings_test/src/test_l1_dsVideoPort.c:4664-4767 | the handle check, INVALID_PARAM for NULL, OPERATION_NOT_SUPPORTED on a sink; otherwise the depth last set, a valid depth |
| VideoPort.VideoPortHal.SetPreferredColorDepth | staging/external_content/device_settings_test/src/test_l1_dsVideoPort.c:4790-4885 | the handle check, INVALID_PARAM for an invalid depth, OPERATION_NOT_SUPPORTED on a sink; on success only that port's depth changes |
| VideoPortTests.PortHandle | staging/external_content/device_settings_test/src/test_l1_dsVideoPort.c:321-336 | dsGetVideoPort on table entry k succeeds with the handle of position k |
| VideoPortTests.InitTermScenario | staging/external_content/device_settings_test/src/test_l1_dsVideoPort.c:120-282 | the exact code sequence of the init and term tests, positive and negative |
| VideoPortTests.GetVideoPortScenario | staging/external_content/device_settings_test/src/test_l1_dsVideoPort.c:306-343 | every table entry gives NO_ERROR, the handles are pairwise distinct, and asking again for the last entry gives the same handle |
| VideoPortTests.GetVideoPortNegativeScenario | staging/external_content/device_settings_test/src/test_l1_dsVideoPort.c:371-407 | the exact code sequence of the negative dsGetVideoPort test |
| VideoPortTests.IsEnabledScenario | staging/external_content/device_settings_test/src/test_l1_dsVideoPort.c:433-465 | on every port of the table, the handle and both reads succeed and the two reads agree; both report the table entry's enable state |
| VideoPortTests.IsEnabledNegativeScenario | staging/external_content/device_settings_test/src/test_l1_dsVideoPort.c:494-533 | handle -1 before init and the last handle after term give NOT_INITIALIZED (INVALID_PARAM with legacy codes); handle 0 and a NULL pointer on every port give INVALID_PARAM |
| VideoPortTests.EnableScenario | staging/external_content/device_settings_test/src/test_l1_dsVideoPort.c:1329-1354 | enabling every port of the table succeeds, and every port is then enabled |
| VideoPortTests.EnableNegativeScenario | staging/external_content/device_settings_test/src/test_l1_dsVideoPort.c:1382-1418 | handle -1 before init and the last handle after term give NOT_INITIALIZED (INVALID_PARAM with legacy codes); handle 0 gives INVALID_PARAM |
| VideoPortTests.HdcpScenario | staging/external_content/device_settings_test/src/test_l1_dsVideoPort.c:1058-1237 | enabling HDCP succeeds exactly on a source port with HDCP; reading it then gives enabled, or OPERATION_NOT_SUPPORTED on a source port without HDCP |
| VideoPortTests.HdcpNegativeScenario | staging/external_content/device_settings_test/src/test_l1_dsVideoPort.c:1127-1305 | the exact code sequence of the negative HDCP tests, including an oversize and a NULL key |
| VideoPortTests.PreferenceRefused | staging/external_content/device_settings_test/src/test_l1_dsVideoPort.c:3926-4143 | with a handle the implementation does not accept, both the set and the get report the handle's error and no port changes |
| VideoPortTests.HdmiPreferenceChecks | staging/external_content/device_settings_test/src/test_l1_dsVideoPort.c:3926-4143 | on an opened port, reading, setting the table's version, refusing dsHDCP_VERSION_MAX, refusing a NULL output and reading again give the listed codes, and both reads give the table's protocol |
| VideoPortTests.HdmiPreferenceScenario | staging/external_content/device_settings_test/src/test_l1_dsVideoPort.c:3926-4143 | the exact code sequence of the HDMI preference tests; both reads give the table's protocol |
| VideoPortTests.SetEveryBackground | staging/external_content/device_settings_test/src/test_l1_dsVideoPort.c:4298-4329 | each background colour is accepted on a source and refused on a sink; a source ends with NONE |
| VideoPortTests.BackgroundColorScenario | staging/external_content/device_settings_test/src/test_l1_dsVideoPort.c:4298-4395 | the codes of the background colour tests, positive and negative |
| VideoPortTests.ColorDepthScenario | staging/external_content/device_settings_test/src/test_l1_dsVideoPort.c:4664-4885 | get and set succeed exactly on a source, the depth read is the profile's; the exact code sequence of the negative tests, including depth 0x60 refused |
| AudioPortTable.Read | staging/external_content/device_settings_test/src/test_l2_dsAudio.c:315-369 | reading a kind of setting gives a setting of that kind |
| AudioPortTable.ReadApply | staging/external_content/device_settings_test/src/test_l2_dsAudio.c:315-369 | a get after a set of the same kind returns the value set, the check every level-2 set/get test makes |
| AudioPortTable.ReadApplyOther | staging/external_content/device_settings_test/src/test_l2_dsAudio.c:101-2242 | a set leaves every other kind of setting unchanged |
| AudioPortTable.ApplyRead | staging/external_content/device_settings_test/src/test_l2_dsAudio.c:315-369 | setting the value just read changes nothing |
| AudioPortTable.ApplyTwice | staging/external_content/device_settings_test/src/test_l2_dsAudio.c:619-677 | a second set of the same kind overrides the first, so each step of a sweep starts fresh |
| AudioPortTable.ApplyKeepsValid | staging/external_content/device_settings_test/src/test_l2_dsAudio.c:101-2242 | an accepted value keeps every setting of the port in range |
| AudioPortTable.ValueCode | staging/external_content/device_settings_test/src/test_l2_dsAudio.c:388-440 | NO_ERROR exactly when the value is in range, the port has the feature, a compression is one the port lists and a dialogue level lies within the port's range |
| AudioPortTable.AudioPortHal.constructor | staging/external_content/device_settings_test/src/test_l2_dsAudio.c:101-162 | a HAL not yet initialised with every port at its initial settings |
| AudioPortTable.AudioPortHal.HandleCode | staging/external_content/device_settings_test/src/test_l2_dsAudio.c:101-162 | NO_ERROR exactly when the HAL is initialised and the handle belongs to a table entry |
| AudioPortTable.AudioPortHal.Init | 1.4.4.0/external_content/device_settings/include/dsAudio.h:152-166 | a second init gives ALREADY_INITIALIZED and changes nothing; a device without audio ports gives OPERATION_NOT_SUPPORTED and stays uninitialised; otherwise a first init resets every port |
| AudioPortTable.AudioPortHal.Term | staging/external_content/device_settings_test/src/test_l2_dsAudio.c:101-162 | term without init gives NOT_INITIALIZED; afterwards the HAL is uninitialised, settings kept |
| AudioPortTable.AudioPortHal.GetAudioPort | staging/external_content/device_settings_test/src/test_l2_dsAudio.c:101-162 | NOT_INITIALIZED outside init; an invalid type, negative index or NULL gives INVALID_PARAM; a listed port gives NO_ERROR and its table handle |
| AudioPortTable.AudioPortHal.Set | staging/external_content/device_settings_test/src/test_l2_dsAudio.c:315-369 | the code is the handle check then the value check; on success only that port's setting of that kind changes |
| AudioPortTable.AudioPortHal.Get | staging/external_content/device_settings_test/src/test_l2_dsAudio.c:315-369 | on success the setting of the kind asked for, in range, as last set |
| AudioPortTests.PortHandle | staging/external_content/device_settings_test/src/test_l2_dsAudio.c:101-162 | dsGetAudioPort on table entry k succeeds with the handle of position k |
| AudioPortTests.RoundTrip | staging/external_content/device_settings_test/src/test_l2_dsAudio.c:315-369 | on one port, each value of an accepted sweep is set and read back unchanged |
| AudioPortTests.Sweep | staging/external_content/device_settings_test/src/test_l2_dsAudio.c:101-2242 | the test passes exactly when the table has a port (init refuses an empty one); then the ports the test gates in read back every value set, and the others are skipped |
| AudioPortTests.FirstPort | staging/external_content/device_settings_test/src/test_l2_dsAudio.c:2032-2073 | the tests that use only the first port read back every value set |
| AudioPortTests.ListedCompressions | staging/external_content/device_settings_test/src/test_l2_dsAudio.c:328-362 | the compression values swept are the port's listed compressions, in order |
| AudioPortTests.DialogLevels | staging/external_content/device_settings_test/src/test_l2_dsAudio.c:401-433 | the dialogue levels swept are every level from the port's minimum to its maximum |
| AudioPortTests.LevellerGrid | staging/external_content/device_settings_test/src/test_l2_dsAudio.c:632-670 | the leveller sweep is every mode 0 to 2 with every level 0 to 10 |
| AudioPortTests.BassBoosts | staging/external_content/device_settings_test/src/test_l2_dsAudio.c:711-743 | the bass sweep is every boost 0 to 100 |
| AudioPortTests.VirtualizerGrid | staging/external_content/device_settings_test/src/test_l2_dsAudio.c:945-983 | the virtualizer sweep is every mode 0 to 2 with boosts 0 to 96 in steps of 16 |
| AudioPortTests.FaderSteps | staging/external_content/device_settings_test/src/test_l2_dsAudio.c:2093-2132 | the fader sweep goes from -32 to 32 in steps of 8 |
| AudioPortTests.EnableScenario | staging/external_content/device_settings_test/src/test_l2_dsAudio.c:114-155 | every port reads back enabled, then disabled |
| AudioPortTests.CompressionScenario | staging/external_content/device_settings_test/src/test_l2_dsAudio.c:328-362 | every port with compressions reads back each of them; the rest are skipped |
| AudioPortTests.DialogEnhancementScenario | staging/external_content/device_settings_test/src/test_l2_dsAudio.c:401-433 | every port with the dialogue-enhancer capability reads back each level |
| AudioPortTests.DolbyVolumeScenario | staging/external_content/device_settings_test/src/test_l2_dsAudio.c:473-517 | every port with the Dolby volume capability reads back on, then off |
| AudioPortTests.LevellerScenario | staging/external_content/device_settings_test/src/test_l2_dsAudio.c:632-670 | every port with the leveller capability reads back the whole grid |
| AudioPortTests.BassScenario | staging/external_content/device_settings_test/src/test_l2_dsAudio.c:711-743 | every port with the bass-enhancer capability reads back every boost |
| AudioPortTests.VirtualizerScenario | staging/external_content/device_settings_test/src/test_l2_dsAudio.c:945-983 | every port with the virtualizer capability reads back the whole grid |
| AudioPortTests.MuteScenario | staging/external_content/device_settings_test/src/test_l2_dsAudio.c:1799-1832 | every port reads back muted, then unmuted |
| AudioPortTests.DelayScenario | staging/external_content/device_settings_test/src/test_l2_dsAudio.c:1871-1898 | SPDIF, HDMI ARC and HDMI ports read back a delay of 100 ms; other types are skipped |
| AudioPortTests.MixingScenario | staging/external_content/device_settings_test/src/test_l2_dsAudio.c:2047-2066 | the first port reads back audio mixing on, then off |
| AudioPortTests.FaderScenario | staging/external_content/device_settings_test/src/test_l2_dsAudio.c:2093-2132 | the first port reads back each fader step |
| AudioPortTests.LanguageScenario | staging/external_content/device_settings_test/src/test_l2_dsAudio.c:2150-2242 | the first port reads back "eng" as primary and as secondary language |
| ProfileCommon.EnumName | staging/external_content/device_settings_test/host/tests/dsClasses/dsAudio.py:40-47 | looking up an enum member by value succeeds exactly for a listed value, with that member's name; any other value raises ValueError |
| ProfileCommon.DeviceType | staging/external_content/device_settings_test/host/tests/dsClasses/dsAudio.py:825-831 | the device type is 0 or 1, and only when the profile's Type field is the matching name; anything else is None |
| ProfileCommon.DeviceTypeRoundTrip | 1.4.4.0/external_content/device_settings_test/host/tests/dsClasses/dsVideoPort.py:1422-1438 | reading back the name of a device type gives that type |
| AudioProfile.PortTypeName | staging/external_content/device_settings_test/host/tests/dsClasses/dsAudio.py:40-47 | a port type has a name exactly when it is one of the six audio port types; otherwise ValueError |
| AudioProfile.PortTypeNameInjective | staging/external_content/device_settings_test/host/tests/dsClasses/dsAudio.py:40-47 | distinct port types have distinct names |
| AudioProfile.StereoModeName | staging/external_content/device_settings_test/host/tests/dsClasses/dsAudio.py:49-56 | stereo modes 1 to 6 have their enum names; anything else raises ValueError |
| AudioProfile.FeatureFlag | staging/external_content/device_settings_test/host/tests/dsClasses/dsAudio.py:58-70 | every MS12 feature flag is a single bit 0x01 to 0x400; an unknown feature name raises KeyError |
| AudioProfile.FeatureFlagsAgreeWithTests | staging/external_content/device_settings_test/host/tests/dsClasses/dsAudio.py:58-70 | the flags of DolbyVolume, DialogueEnhancer, Volumeleveller, BassEnhancer and SurroundVirtualizer are the capability bits the level-2 tests gate on |
| AudioProfile.BoolToString | staging/external_content/device_settings_test/host/tests/dsClasses/dsAudio.py:775-788 | True gives "1" and False "2", and the menu reads each back as the value it came from |
| AudioProfile.BoolToStringInjective | staging/external_content/device_settings_test/host/tests/dsClasses/dsAudio.py:775-788 | the two answers differ |
| AudioProfile.SupportedPorts | staging/external_content/device_settings_test/host/tests/dsClasses/dsAudio.py:790-810 | the profile's ports in order as (type name, index) pairs; an invalid type raises ValueError |
| AudioProfile.NameMatches | staging/external_content/device_settings_test/host/tests/dsClasses/dsAudio.py:849-850 | deciding whether an entry is the port asked for succeeds exactly when its type is valid; otherwise ValueError |
| AudioProfile.AnyMatchIsExists | staging/external_content/device_settings_test/host/tests/dsClasses/dsAudio.py:845-854 | over entries with valid types the search answers True exactly when some entry is the port asked for and passes the test |
| AudioProfile.NoMatchIsFalse | staging/external_content/device_settings_test/host/tests/dsClasses/dsAudio.py:845-854 | when no entry is the port asked for the search answers False |
| AudioProfile.SearchPorts | staging/external_content/device_settings_test/host/tests/dsClasses/dsAudio.py:845-854 | the loop over the entries computes the search |
| AudioProfile.MS12DAPFeatureSupport | staging/external_content/device_settings_test/host/tests/dsClasses/dsAudio.py:833-854 | getMS12DAPFeatureSupport is the search with the feature's capability bit as test |
| AudioProfile.AudioCompressionSupport | staging/external_content/device_settings_test/host/tests/dsClasses/dsAudio.py:856-876 | getAudioCompressionSupport is the search with a positive compression count as test |
| AudioProfile.FeatureSupportMeaning | staging/external_content/device_settings_test/host/tests/dsClasses/dsAudio.py:845-854 | a port supports a feature exactly when some entry is that port and its MS12 capabilities have the feature's bit |
| AudioProfile.CompressionSupportMeaning | staging/external_content/device_settings_test/host/tests/dsClasses/dsAudio.py:867-876 | a port supports compression exactly when some entry is that port and lists at least one compression |
| AudioProfile.ModeNames | staging/external_content/device_settings_test/host/tests/dsClasses/dsAudio.py:896-897 | a list of stereo modes has names exactly when every mode is 1 to 6, the names in order; otherwise ValueError |
| AudioProfile.OutputModes | staging/external_content/device_settings_test/host/tests/dsClasses/dsAudio.py:889-898 | an error from the mode listing is always ValueError |
| AudioProfile.EntryModeNames | staging/external_content/device_settings_test/host/tests/dsClasses/dsAudio.py:896-897 | the inner loop gives exactly the entry's mode names, or ValueError at the first mode outside the enum |
| AudioProfile.SupportedOutputModes | staging/external_content/device_settings_test/host/tests/dsClasses/dsAudio.py:878-898 | the loop over the entries computes the output-mode listing |
| AudioProfile.OutputModesOfOneEntry | staging/external_content/device_settings_test/host/tests/dsClasses/dsAudio.py:889-898 | when exactly one entry is the port asked for, the listing is the names of its stereo modes |
| AudioProfile.NoMatchNoModes | staging/external_content/device_settings_test/host/tests/dsClasses/dsAudio.py:889-898 | when no entry is the port asked for, the listing is empty |
| AudioProfile.FirstMatch | staging/external_content/device_settings_test/host/tests/dsClasses/dsAudio.py:914-918 | the entry found is the first that is the port asked for; none found means no entry is; an error means some entry has an invalid type |
| AudioProfile.FindEntry | staging/external_content/device_settings_test/host/tests/dsClasses/dsAudio.py:914-918 | the loop over the entries finds the first match |
| AudioProfile.SupportedMS12Profiles | staging/external_content/device_settings_test/host/tests/dsClasses/dsAudio.py:900-918 | the MS12 profiles of the first matching entry, or empty when none matches |
| AudioProfile.DialogueEnhance | staging/external_content/device_settings_test/host/tests/dsClasses/dsAudio.py:920-942 | the dialogue levels of the first matching entry, or empty when none matches |
| AudioProfile.FirstMatchFindsEntry | staging/external_content/device_settings_test/host/tests/dsClasses/dsAudio.py:914-918 | in a table without repeats, asking for entry k by its name and index finds entry k |
| AudioProfile.ContainsAt | staging/external_content/device_settings_test/host/tests/dsClasses/dsAudio.py:768-772 | a substring found at a position is contained, the Python in operator |
| AudioProfile.EarcContainsArc | staging/external_content/device_settings_test/host/tests/dsClasses/dsAudio.py:768-772 | any text containing "eARC" contains "ARC" |
| AudioProfile.ClassifyArcAsWritten | staging/external_content/device_settings_test/host/tests/dsClasses/dsAudio.py:764-773 | a missing match fails; text containing "eARC" is eARC; the result is NONE exactly when the text lacks "ARC" |
| AudioProfile.CapturedTypeContainsArc | staging/external_content/device_settings_test/host/tests/dsClasses/dsAudio.py:765-766 | every type the pattern captures starts with dsAUDIOARCSUPPORT_ and so contains "ARC" |
| AudioProfile.AsWrittenNoneReadsAsArc | staging/external_content/device_settings_test/host/tests/dsClasses/dsAudio.py:768-773 | the classification as written never answers NONE for a captured type, and dsAUDIOARCSUPPORT_NONE reads as ARC |
| AudioProfile.ArcSuffixOfCaptured | staging/external_content/device_settings_test/host/tests/dsClasses/dsAudio.py:765 | stripping the prefix of a captured type gives the enum member's own name |
| AudioProfile.ClassifyArc | staging/external_content/device_settings_test/host/tests/dsClasses/dsAudio.py:751-773 | the corrected classification applies the same tests to the member name after the prefix |
| AudioProfile.ArcTypesClassify | staging/external_content/device_settings_test/host/tests/dsClasses/dsAudio.py:759-762 | NONE, ARC and eARC are classified as NONE, ARC and eARC |
| AudioProfile.Item | staging/external_content/device_settings_test/host/tests/dsClasses/dsAudio.py:471-476 | indexing a list gives its element; indexing a bool or an int raises TypeError |
| AudioProfile.PairAnswers | staging/external_content/device_settings_test/host/tests/dsClasses/dsAudio.py:467-506 | a two-value feature gives exactly two answers, the first two elements as text |
| AudioProfile.MS12FeatureRequest | staging/external_content/device_settings_test/host/tests/dsClasses/dsAudio.py:425-429 | no dictionary, or one without exactly two entries, is refused without a menu call; a missing "name" or "value" key raises KeyError |
| AudioProfile.MenuOnlyForWellFormed | staging/external_content/device_settings_test/host/tests/dsClasses/dsAudio.py:425-528 | a menu request is made only for a two-key dict with "name" and "value" naming a known feature |
| AudioProfile.SwitchAnswerReadsBack | staging/external_content/device_settings_test/host/tests/dsClasses/dsAudio.py:449-524 | for an on/off feature the single answer reads back as the truth of the value given |
| AudioProfile.PairAnswersInOrder | staging/external_content/device_settings_test/host/tests/dsClasses/dsAudio.py:467-506 | for a two-value feature the answers are the mode then the level; a plain int raises TypeError |
| VideoPortProfile.EnumsMatchHeader | 1.4.4.0/external_content/device_settings_test/host/tests/dsClasses/dsVideoPort.py:56-71 | the Python HDR and colour-depth enums carry the header's values, each standard and depth a single bit |
| VideoPortProfile.SupportedPorts | 1.4.4.0/external_content/device_settings_test/host/tests/dsClasses/dsVideoPort.py:1198-1214 | the loop over the port entries computes the port listing |
| VideoPortProfile.PortsFromMeaning | 1.4.4.0/external_content/device_settings_test/host/tests/dsClasses/dsVideoPort.py:1208-1214 | for entries keyed 1..n with valid types, the listing is each entry's (type name, index) in key order |
| VideoPortProfile.HDCPVersion | 1.4.4.0/external_content/device_settings_test/host/tests/dsClasses/dsVideoPort.py:1216-1232 | the loop over the entries computes the HDCP version |
| VideoPortProfile.HdcpVersionIsLast | 1.4.4.0/external_content/device_settings_test/host/tests/dsClasses/dsVideoPort.py:1226-1232 | the version reported is the name of the last entry's version, or unset with no entries |
| VideoPortProfile.NamesInOrderAgrees | 1.4.4.0/external_content/device_settings_test/host/tests/dsClasses/dsVideoPort.py:1256-1265 | converting the five fields one after another, stopping at the first ValueError, gives the same result as the model's check: the five member names when every field is a valid enum value, ValueError otherwise |
| VideoPortProfile.EntryResolutions | 1.4.4.0/external_content/device_settings_test/host/tests/dsClasses/dsVideoPort.py:1250-1273 | the inner loop over one entry's resolutions computes its listing |
| VideoPortProfile.Resolutions | 1.4.4.0/external_content/device_settings_test/host/tests/dsClasses/dsVideoPort.py:1234-1275 | the loop over the entries computes the resolution listing |
| VideoPortProfile.EntryResolutionsStep | 1.4.4.0/external_content/device_settings_test/host/tests/dsClasses/dsVideoPort.py:1253-1273 | a present resolution with valid fields contributes its names before the rest of the entry's listing |
| VideoPortProfile.MissingResolutionsSkipped | 1.4.4.0/external_content/device_settings_test/host/tests/dsClasses/dsVideoPort.py:1253-1254 | resolution numbers missing from an entry contribute nothing |
| VideoPortProfile.PresentResolutionsListed | 1.4.4.0/external_content/device_settings_test/host/tests/dsClasses/dsVideoPort.py:1252-1273 | when every resolution of an entry is present and valid, its listing is their names in order |
| VideoPortProfile.EntryField | 1.4.4.0/external_content/device_settings_test/host/tests/dsClasses/dsVideoPort.py:1292-1300 | the inner loop over one entry's resolutions computes its single-field listing |
| VideoPortProfile.FieldList | 1.4.4.0/external_content/device_settings_test/host/tests/dsClasses/dsVideoPort.py:1277-1383 | the loops of getAspectRatio, getStereoScopicMode, getFrameRates and getScanModes compute their listings |
| VideoPortProfile.FieldNameAgrees | 1.4.4.0/external_content/device_settings_test/host/tests/dsClasses/dsVideoPort.py:1298-1299 | a resolution getResolutions converts gives each single-field getter the same name for that field |
| VideoPortProfile.EntryFieldAgrees | 1.4.4.0/external_content/device_settings_test/host/tests/dsClasses/dsVideoPort.py:1294-1300 | where getResolutions succeeds on a port, the single-field listing of that port is that field of its records |
| VideoPortProfile.FieldListsAgree | 1.4.4.0/external_content/device_settings_test/host/tests/dsClasses/dsVideoPort.py:1277-1383 | where getResolutions succeeds, each single-field getter lists that field of its records, in the same order |
| VideoPortProfile.ListMembers | 1.4.4.0/external_content/device_settings_test/host/tests/dsClasses/dsVideoPort.py:1401-1403 | the loop over the enum members computes the members set in a capability word |
| VideoPortProfile.HDRCapabilities | 1.4.4.0/external_content/device_settings_test/host/tests/dsClasses/dsVideoPort.py:1385-1405 | the loop over the entries computes the HDR listing |
| VideoPortProfile.MembersSetHas | 1.4.4.0/external_content/device_settings_test/host/tests/dsClasses/dsVideoPort.py:1401-1403 | with distinct member names, a member is listed exactly when its value shares a bit with the word |
| VideoPortProfile.NotListedAfter | 1.4.4.0/external_content/device_settings_test/host/tests/dsClasses/dsVideoPort.py:1401-1403 | a name that is not a later member's is never listed |
| VideoPortProfile.HdrMemberNamesDistinct | 1.4.4.0/external_content/device_settings_test/host/tests/dsClasses/dsVideoPort.py:56-64 | the HDR member names are distinct |
| VideoPortProfile.HdrFormatsMeaning | 1.4.4.0/external_content/device_settings_test/host/tests/dsClasses/dsVideoPort.py:1400-1403 | NONE is never listed, and an HDR standard is listed exactly when its bit is set in the capabilities |
| VideoPortProfile.ColorDepthName | 1.4.4.0/external_content/device_settings_test/host/tests/dsClasses/dsVideoPort.py:1417-1420 | a depth has a name exactly when it is present and one of UNKNOWN, 8, 10, 12 bit or AUTO, and the name is that member's; otherwise ValueError |

## Left out

- Interactive menus, remote-shell navigation, console input and the level-3 driver programs other than the RMF capture helpers: they move text between a person and the device and hold no logic of their own. `getAudioCaptureType` is modelled only as the choice it returns (`CaptureTypeChoice`).
- Regex scraping of shell output (`searchPattern`, the capture in `getConnectedARCType`): the model takes the captured text as input, as `Option<string>` with `None` for no match.
- The jitter-monitor thread, `usleep`, clocks, the atomic cookie's memory ordering, and asynchronous callback and event delivery: there is no concurrency in the model. Callbacks are called directly as methods.
- File I/O in the WAV writer: `fopen` success is a parameter and the file is returned as a byte sequence. `fwrite` errors and `free` are not modelled. The header's integer fields are written with `fwrite` in host byte order; the model writes them little-endian, as RIFF requires, which assumes a little-endian host.
- Floating point: the ±10 % tolerance is the integer cross-multiplication `9 * expected < 10 * received < 11 * expected`, which is what the double-precision test computes for these integer inputs. A zero expected count gives NaN or infinity there, and `Tolerance` models those cases explicitly. Audio gain and level, speaker gain and mixer levels are floats and are not modelled.
- The UT framework's assertions and the KVP profile lookups: profile values are inputs to the model (`Profile`, `VideoProfile`, `AudioPortConfig`, the Python port maps).
- Platform effects (sound, picture, LED light) and the vendor code behind the HAL: only the stated error and state contract is modelled. Of the headers, only the audio init rule of dsAudio.h is modelled (a device without audio ports refuses init); the rest of the contract follows the tests. Ranges the level-2 tests take from dsAudio.h (bass boost 0–100, fader −32–32, dialogue levels from the profile) are written as the tests use them.
- The first `getColorDepth` in dsVideoPort.py is redefined by the later one, so only the later one exists at run time and only it is modelled (`ColorDepthName`).
- Level-2 audio tests other than the listed round trips (headphone connection, MS12 decode support checks, Atmos, gain, level, stereo auto, surround decoder, DRC, MI steering, graphic equaliser, LE configuration, stereo mode, MS12 profile set/get): each is again a set-then-get that `AudioPortTable.ReadApply` covers, or a read of a platform value the model takes as input.
- AudioPortTable.AudioPortHal.Init: the level-2 tests do not consult the extended-enums flag, so the audio table reports ALREADY_INITIALIZED and NOT_INITIALIZED without a legacy variant.
- AudioPortTable.ValueCode: which refusal a bad value gets (INVALID_PARAM for a value out of range, OPERATION_NOT_SUPPORTED for a feature the port lacks) is the model's assumption; the level-2 tests assert only NONE, and dsAudio.h lists these codes without tying them to conditions.
- VideoPortTests.IsEnabledScenario: the enable state a port starts in is a platform setting, taken as the model input `PortConfig.enabled`; the test asserts only that the two reads agree. Likewise, that every port is enabled at the end of `VideoPortTests.EnableScenario` follows from the contract of `EnableVideoPort`; the test does not read it back.
- AudioPortTable.AudioPortHal.GetAudioPort: the tests do not say whether an invalid type is checked before or after the NULL pointer. The model checks both before the table lookup, with the same code.
- Python values that are not what the profile promises: a port table given as `None` or an empty dict is the empty table, and dictionary fields are typed integers, so `.get` returning `None` is not modelled. The exception is the `color_depth` field, which is an `Option`.
- VideoPortProfile.EntryResolutionsFrom: a resolution entry always carries its five numbers, so the Python case of a present but empty (falsy) entry, which the loop skips, cannot arise in the model.
- VideoPortProfile.HdrFrom: `hdr_capabilities` is a natural number; negative Python integers, which `&` would treat in two's complement, are not modelled.
- FrontPanel.FrontPanelDisplay.SetFPTime: the header also refuses the 7-segment operations while the front panel state is OFF. The tests call them without switching an indicator on, so the model follows the tests and gates them only on the display mode. The header gives no hour ranges; the model takes 0–23 for 24-hour and 1–12 for 12-hour time, which matches every time the tests accept or refuse.
- FrontPanel.FrontPanelDisplay.GetFPState: an indicator the platform lacks gives OPERATION_NOT_SUPPORTED here while SetFPState gives INVALID_PARAM, following the two tests rather than a single header rule.
- VideoPort.VideoPortHal.EnableHDCP: `keySize` is a natural number; a negative C `int` size is not modelled.
- Video-port level-1 tests not modelled: IsDisplayConnected (test_l1_dsVideoPort.c:557), IsDisplaySurround (:683), GetSurroundMode (:806), IsVideoPortActive (:933), Set/GetResolution (:1442, :1577), the video-format and HDCP-status callback registrations (:1710, :1813), GetHDCPStatus, GetHDCPProtocol, GetHDCPReceiverProtocol and GetHDCPCurrentProtocol (:1936-2369), GetTVHDRCapabilities (:2433), SupportedTvResolutions (:2555), Set/GetForceDisable4KSupport (:2676, :2793), GetVideoEOTF (:2920), GetMatrixCoefficients (:3046), GetColorDepth (:3168), GetColorSpace (:3290), GetQuantizationRange (:3411), GetCurrentOutputSettings (:3533), IsOutputHDR (:3705), ResetOutputToSDR (:3830), GetIgnoreEDIDStatus (:4169), SetForceHDRMode (:4419) and ColorDepthCapabilities (:4540). Their negative halves repeat the handle and NULL-pointer checks that `VideoPort.VideoPortHal.HandleCode` states, and their positive halves compare a value read from the device with a platform profile value or an enum range, which the model would take as input unchanged.
- FrontPanelTests.GetStateScenario: that both reads give OFF follows from the model's initial state, in which init puts every indicator OFF (`InitialLeds`); the test asserts only that the two reads succeed and agree, and the header does not fix the state after init.
- AudioCaptureL1.DummySettingsStartable: `delayCompensation_ms` is a `uint32_t`, so adding 2000 wraps for a default above 0xFFFFF82F; the model's `delayCompensationMs` is a natural number and the wrap is not modelled.
- AudioCaptureL3.CaptureContext.CountingCallback: the cookie is a plain field, not an atomic one; the byte count wraps at 32 bits as `uint32_t` does.

## Findings

| source | as written | input that shows it | evidently intended | confidence | as-written member | corrected member |
|---|---|---|---|---|---|---|
| staging/external_content/rmf_audio_capture_test/src/test_l3_rmfAudioCapture.c:283 | the room check adds `bytes_received + size` in 32-bit unsigned arithmetic before comparing it with the buffer size | 1 byte received, a chunk of 0xFFFFFFFF bytes, a 10-byte buffer: the sum wraps to 0 and the whole chunk is copied | clamp the copy to the remaining space whatever the chunk size | low; not executed, chunks that large are unlikely from a real capture | AudioCaptureL3.WrittenCopyOverruns | AudioCaptureL3.CopyLengthFits |
| staging/external_content/device_settings_test/src/test_l1_dsFPD.c:2905 | the supported LED states word is read into a `uint8_t` and then tested bit by bit | a platform that supports SOFTWARE_DOWNLOAD_ERROR (bit 8): an 8-bit read never shows it, so that state is never set or checked | read the 32-bit word as the test at line 2809 does | medium; not executed | FrontPanel.Uint8ReadMissesLastState | FrontPanel.LedMaskHas |
| staging/external_content/device_settings_test/src/test_l1_dsFPD.c:1074 | the inner loop of step 05 of the negative dsGetFPState test builds the profile key from the outer index `i`, the indicator being decided, not from the entry index `j`, so indicator `i` counts as present only when entry `i` names it | two indicators, entry 1 RECORD and entry 2 POWER: both are probed and OPERATION_NOT_SUPPORTED is demanded, while the positive test (:990-997) demands NONE from the same reads | use `j` in the key, as the set-state test does at :419, so that only the indicators the profile lacks are probed | high; not executed | FrontPanelTests.ProbedAsWrittenContradicts | FrontPanelTests.ReadUnlisted |
| staging/external_content/device_settings_test/host/tests/dsClasses/dsAudio.py:768-773 | the classification tests whether "ARC" occurs in the captured enum name | dsAUDIOARCSUPPORT_NONE contains "ARC", so no connection is reported as "ARC" and "NONE" is never returned | test the member name after the dsAUDIOARCSUPPORT_ prefix | high; not executed | AudioProfile.AsWrittenNoneReadsAsArc | AudioProfile.ArcTypesClassify |

A related behaviour is not claimed as a finding: an entered capture duration of 256 seconds is truncated to 0 by the `uint8_t` field, so the buffer is empty and an empty capture passes validation (`AudioCaptureL3.Duration256IsEmptyCapture`).
