/**
 * The level-3 audio-capture helpers: decoding settings into PCM
 * parameters, the expected byte count and the delivery tolerance, the
 * counting and tracking buffer-ready callbacks over a capture context, the
 * buffer sizing done before a tracking capture, and the RIFF/WAVE output.
 */
module AudioCaptureL3 {
  import opened HalCommon
  import opened RmfAudioCapture
  import AudioCaptureL1

  /** Default capture duration in seconds when the entered one is not positive. */
  const MeasurementWindowSeconds := 10
  /** Bytes per second assumed when the settings do not decode. */
  const DataRate := 192000

  datatype PcmParams = PcmParams(channels: nat, rate: nat, bits: nat)

  /** Bits per sample and channel count of a capture format. */
  function FormatShape(format: int): Option<(nat, nat)>
  {
    if format == Format16BitStereo then Some((16, 2))
    else if format == Format24BitStereo then Some((24, 2))
    else if format == Format16BitMonoLeft || format == Format16BitMonoRight || format == Format16BitMono then Some((16, 1))
    else if format == Format24Bit5_1 then Some((24, 6))
    else None
  }

  /** Samples per second of a sampling-frequency enumerator. */
  function FrequencyRate(freq: int): Option<nat>
  {
    if freq == Freq16000 then Some(16000)
    else if freq == Freq22050 then Some(22050)
    else if freq == Freq24000 then Some(24000)
    else if freq == Freq32000 then Some(32000)
    else if freq == Freq44100 then Some(44100)
    else if freq == Freq48000 then Some(48000)
    else None
  }

  /** PCM parameters that some settings decode to. */
  predicate Decoded(p: PcmParams)
  {
    (p.bits == 16 || p.bits == 24) && (p.channels == 1 || p.channels == 2 || p.channels == 6)
    && p.rate in {16000, 22050, 24000, 32000, 44100, 48000}
  }

  /** getValuesFromSettings: the format is decoded first, then the frequency. */
  function GetValuesFromSettings(s: Settings): (r: Result<PcmParams, RmfError>)
    ensures r.Err? ==> r.error == Error
    ensures r.Ok? ==> Decoded(r.value)
    ensures r.Ok? <==> AudioCaptureL1.ValidateSettings(s) == Success
  {
    match FormatShape(s.format)
    case None => Err(Error)
    case Some((bits, channels)) =>
      match FrequencyRate(s.samplingFreq)
      case None => Err(Error)
      case Some(rate) => Ok(PcmParams(channels, rate, bits))
  }

  /** The decoding table, enumerator by enumerator. */
  lemma DecodingTable(s: Settings)
    requires GetValuesFromSettings(s).Ok?
    ensures var p := GetValuesFromSettings(s).value;
      && (s.format == Format16BitStereo ==> p.bits == 16 && p.channels == 2)
      && (s.format == Format24BitStereo ==> p.bits == 24 && p.channels == 2)
      && (s.format in {Format16BitMonoLeft, Format16BitMonoRight, Format16BitMono} ==> p.bits == 16 && p.channels == 1)
      && (s.format == Format24Bit5_1 ==> p.bits == 24 && p.channels == 6)
      && p.rate == [16000, 22050, 24000, 32000, 44100, 48000][s.samplingFreq]
  {
  }

  /** Bytes per second of decoded PCM data. */
  function ByteRate(p: PcmParams): nat
  {
    p.rate * p.channels * p.bits / 8
  }

  /** Bytes per sample frame (all channels). */
  function BlockAlign(p: PcmParams): nat
  {
    p.channels * p.bits / 8
  }

  /** Frames are whole bytes, so the byte rate is the frame size times the rate. */
  lemma ByteRateIsFrames(p: PcmParams)
    requires Decoded(p)
    ensures ByteRate(p) == BlockAlign(p) * p.rate
    ensures 2 <= BlockAlign(p) <= 18
    ensures ByteRate(p) <= 48000 * 18
  {
    var bytes := p.bits / 8;
    assert p.bits == 8 * bytes;
    assert p.channels * p.bits == 8 * (p.channels * bytes);
    assert p.rate * p.channels * p.bits == 8 * (p.rate * (p.channels * bytes));
    assert BlockAlign(p) == p.channels * bytes;
  }

  /**
   * `t * channels * rate * bits / 8` as the C code computes it: the
   * product is formed in 32-bit unsigned arithmetic before the division.
   */
  function ExpectedBytes(t: nat, p: PcmParams): (r: nat)
    ensures r < U32 / 8
  {
    WrapU32(t * p.channels * p.rate * p.bits) / 8
  }

  lemma MulMonotone(a: nat, b: nat, k: nat)
    requires a <= b
    ensures a * k <= b * k
  {
    assert b * k == a * k + (b - a) * k;
  }

  /** A duration below 256 times a per-second byte count below 18 * 48000 * 8 stays below 2^32. */
  lemma {:induction false} NoWrapBelow256(t: nat, c: nat)
    requires t < U8 && c % 8 == 0 && c <= 48000 * 18 * 8
    ensures WrapU32(t * c) / 8 == t * (c / 8)
  {
    var k := c / 8;
    assert c == 8 * k;
    assert t * c == 8 * (t * k);
    MulMonotone(t, 255, k);
    MulMonotone(k, 48000 * 18, 255);
    assert t * c < U32;
  }

  /** For any duration a uint8_t can hold, the 32-bit product does not wrap. */
  lemma {:induction false} ExpectedBytesExact(t: nat, p: PcmParams)
    requires t < U8 && Decoded(p)
    ensures ExpectedBytes(t, p) == t * ByteRate(p)
  {
    var c := p.rate * p.channels * p.bits;
    ProductReordered(t, p.channels, p.rate, p.bits);
    ByteRateWhole(p);
    NoWrapBelow256(t, c);
  }

  lemma ProductReordered(t: nat, a: nat, b: nat, d: nat)
    ensures t * a * b * d == t * (b * a * d)
  {
    assert t * a * b == t * (b * a);
  }

  /** The bit rate is eight times the byte rate, so dividing by 8 loses nothing. */
  lemma ByteRateWhole(p: PcmParams)
    requires Decoded(p)
    ensures p.rate * p.channels * p.bits == 8 * ByteRate(p)
    ensures p.rate * p.channels * p.bits <= 48000 * 18 * 8
  {
    var bytes := p.bits / 8;
    var rc := p.rate * p.channels;
    assert p.bits == 8 * bytes;
    assert rc * p.bits == 8 * (rc * bytes);
    assert rc <= 48000 * 6 by {
      MulMonotone(p.channels, 6, p.rate);
      MulMonotone(p.rate, 48000, 6);
    }
    MulMonotone(rc, 48000 * 6, p.bits);
    MulMonotone(p.bits, 24, 48000 * 6);
  }

  /**
   * validateBytesReceived's tolerance test, stated without floating point:
   * the double `received / expected * 100` must lie strictly between 90
   * and 110. With nothing expected, nothing received gives NaN, which both
   * comparisons reject as a failure, so it passes; anything received gives
   * infinity, which fails.
   */
  function Tolerance(received: nat, expected: nat): (r: RmfError)
    ensures r == Success || r == Error
    ensures expected > 0 ==> (r == Success <==> 9 * expected < 10 * received && 10 * received < 11 * expected)
  {
    if expected == 0 then (if received == 0 then Success else Error)
    else if 10 * received <= 9 * expected || 10 * received >= 11 * expected then Error
    else Success
  }

  /** Delivering exactly the expected amount always passes; delivering none fails unless none was expected. */
  lemma ToleranceBounds(expected: nat)
    ensures Tolerance(expected, expected) == Success
    ensures Tolerance(0, expected) == Success <==> expected == 0
    ensures Tolerance(2 * expected, expected) == Success <==> expected == 0
  {
  }

  /** Passing the tolerance test is monotone between its bounds. */
  lemma ToleranceInterval(lo: nat, mid: nat, hi: nat, expected: nat)
    requires expected > 0 && lo <= mid <= hi
    requires Tolerance(lo, expected) == Success && Tolerance(hi, expected) == Success
    ensures Tolerance(mid, expected) == Success
  {
  }

  /** validateBytesReceived: the settings must decode and the delivery must be within tolerance. */
  function ValidateBytesReceived(s: Settings, received: nat, testedTime: nat): (r: RmfError)
    ensures r == Success || r == Error
    ensures GetValuesFromSettings(s).Err? ==> r == Error
    ensures GetValuesFromSettings(s).Ok? ==>
      r == Tolerance(received, ExpectedBytes(testedTime, GetValuesFromSettings(s).value))
  {
    match GetValuesFromSettings(s)
    case Err(_) => Error
    case Ok(p) => Tolerance(received, ExpectedBytes(testedTime, p))
  }

  /**
   * The duration stored by prepare_for_data_tracking: the entered int32
   * is truncated to uint8_t, and a non-positive entry selects the default.
   */
  function EffectiveDuration(choice: int): (d: nat)
    ensures d < U8
    ensures choice <= 0 ==> d == MeasurementWindowSeconds
    ensures 0 < choice < U8 ==> d == choice
    ensures choice > 0 ==> d == choice % U8
  {
    if choice <= 0 then MeasurementWindowSeconds else choice % U8
  }

  /**
   * Buffer size for a tracking capture of `duration` seconds, falling back
   * to the default data rate when the settings do not decode.
   */
  function BufferSizeFor(s: Settings, duration: nat): (n: nat)
    requires duration < U8
    ensures n < 0x8000_0000
    ensures GetValuesFromSettings(s).Err? ==> n == duration * DataRate
    ensures GetValuesFromSettings(s).Ok? ==> n == duration * ByteRate(GetValuesFromSettings(s).value)
  {
    match GetValuesFromSettings(s)
    case Err(_) => duration * DataRate
    case Ok(p) => ExpectedBytesExact(duration, p); ExpectedBytes(duration, p)
  }

  /** A completely filled tracking buffer passes validation for the same duration. */
  lemma FullBufferValidates(s: Settings, duration: nat)
    requires duration < U8 && GetValuesFromSettings(s).Ok?
    ensures ValidateBytesReceived(s, BufferSizeFor(s, duration), duration) == Success
  {
    ExpectedBytesExact(duration, GetValuesFromSettings(s).value);
  }

  /**
   * An entered duration of 256 seconds is stored as 0: the buffer is empty,
   * and an empty delivery is then accepted by the validation.
   */
  lemma Duration256IsEmptyCapture(s: Settings)
    requires GetValuesFromSettings(s).Ok?
    ensures EffectiveDuration(256) == 0
    ensures BufferSizeFor(s, EffectiveDuration(256)) == 0
    ensures ValidateBytesReceived(s, 0, EffectiveDuration(256)) == Success
  {
  }

  /**
   * How many bytes the tracking callback copies, or None when it refuses
   * the chunk because the buffer is already full, with the overflow test
   * done on unbounded integers.
   */
  function CopyLength(received: nat, size: nat, bufferSize: nat): Option<nat>
  {
    if received + size > bufferSize then
      (if bufferSize <= received then None else Some(bufferSize - received))
    else Some(size)
  }

  /** The tracking callback never writes past the buffer, and refuses only a full buffer. */
  lemma CopyLengthFits(received: nat, size: nat, bufferSize: nat)
    requires received <= bufferSize && size > 0
    ensures CopyLength(received, size, bufferSize).None? <==> received == bufferSize
    ensures CopyLength(received, size, bufferSize).Some? ==>
      var n := CopyLength(received, size, bufferSize).value;
      0 < n <= size && received + n <= bufferSize && (n == size || received + n == bufferSize)
  {
  }

  /**
   * The overflow test as written: `bytes_received + size` is formed in
   * 32-bit unsigned arithmetic before it is compared with the buffer size.
   */
  function WrittenCopyLength(received: nat, size: nat, bufferSize: nat): Option<nat>
    requires received < U32 && size < U32
  {
    if WrapU32(received + size) > bufferSize then
      (if bufferSize <= received then None else Some(bufferSize - received))
    else Some(size)
  }

  /**
   * With one byte already received, a chunk of 0xFFFFFFFF bytes wraps the
   * 32-bit sum to 0, so the written test lets the whole chunk through and
   * it is copied far past the end of a 10-byte buffer.
   */
  lemma WrittenCopyOverruns()
    ensures WrittenCopyLength(1, U32 - 1, 10) == Some(U32 - 1)
    ensures 1 + (U32 - 1) > 10
    ensures CopyLength(1, U32 - 1, 10) == Some(9)
  {
  }

  /** Without wrap-around the written test and the unbounded one agree. */
  lemma WrittenCopyAgrees(received: nat, size: nat, bufferSize: nat)
    requires received < U32 && size < U32 && received + size < U32
    ensures WrittenCopyLength(received, size, bufferSize) == CopyLength(received, size, bufferSize)
  {
  }

  /** The RIFF/WAVE header for `n` data bytes. */
  function WavHeader(p: PcmParams, n: nat): (h: seq<Byte>)
    requires Decoded(p) && n < U32
    ensures |h| == 44
  {
    ByteRateIsFrames(p);
    Tag("RIFF") + Le32(WrapU32(36 + n)) + Tag("WAVE")
    + Tag("fmt ") + Le32(16) + Le16(1) + Le16(p.channels) + Le32(p.rate)
    + Le32(ByteRate(p)) + Le16(BlockAlign(p)) + Le16(p.bits)
    + Tag("data") + Le32(n)
  }

  /** The file written by write_wav_file: header, then exactly the captured bytes. */
  function WavImage(p: PcmParams, data: seq<Byte>): (w: seq<Byte>)
    requires Decoded(p) && |data| < U32
    ensures |w| == 44 + |data|
    ensures w[44..] == data
  {
    WavHeader(p, |data|) + data
  }

  /** The fields of a RIFF/WAVE PCM header. */
  datatype WavFields = WavFields(riffSize: nat, fmtSize: nat, audioFormat: nat, channels: nat,
                                 rate: nat, byteRate: nat, blockAlign: nat, bits: nat, dataSize: nat)

  function Field(h: seq<Byte>, at: nat, width: nat): nat
    requires at + width <= |h|
  {
    DecodeLe(h[at..at + width])
  }

  /** Reads the fields of a 44-byte PCM header, checking its four chunk tags. */
  function ParseHeader(h: seq<Byte>): Option<WavFields>
    requires |h| == 44
  {
    if h[0..4] != Tag("RIFF") || h[8..12] != Tag("WAVE") || h[12..16] != Tag("fmt ") || h[36..40] != Tag("data") then None
    else Some(WavFields(Field(h, 4, 4), Field(h, 16, 4), Field(h, 20, 2), Field(h, 22, 2), Field(h, 24, 4),
                        Field(h, 28, 4), Field(h, 32, 2), Field(h, 34, 2), Field(h, 40, 4)))
  }

  /** Splits a WAVE file into its header fields and its data bytes. */
  function ParseWav(w: seq<Byte>): (r: Option<(WavFields, seq<Byte>)>)
    ensures r.Some? ==> |r.value.1| == |w| - 44
  {
    if |w| < 44 then None
    else match ParseHeader(w[..44])
      case None => None
      case Some(f) => Some((f, w[44..]))
  }

  /** The header's fields, in order, at their offsets. */
  lemma {:induction false} WavHeaderLayout(p: PcmParams, n: nat)
    requires Decoded(p) && n < U32
    ensures var h := WavHeader(p, n);
      && h[0..4] == Tag("RIFF") && h[4..8] == Le32(WrapU32(36 + n)) && h[8..12] == Tag("WAVE")
      && h[12..16] == Tag("fmt ") && h[16..20] == Le32(16) && h[20..22] == Le16(1)
      && h[22..24] == Le16(p.channels) && h[24..28] == Le32(p.rate) && h[28..32] == Le32(ByteRate(p))
      && h[32..34] == Le16(BlockAlign(p)) && h[34..36] == Le16(p.bits)
      && h[36..40] == Tag("data") && h[40..44] == Le32(n)
  {
    var h := WavHeader(p, n);
    var c1 := Tag("RIFF");
    var c2 := c1 + Le32(WrapU32(36 + n));
    var c3 := c2 + Tag("WAVE");
    var c4 := c3 + Tag("fmt ");
    var c5 := c4 + Le32(16);
    var c6 := c5 + Le16(1);
    var c7 := c6 + Le16(p.channels);
    var c8 := c7 + Le32(p.rate);
    var c9 := c8 + Le32(ByteRate(p));
    var c10 := c9 + Le16(BlockAlign(p));
    var c11 := c10 + Le16(p.bits);
    var c12 := c11 + Tag("data");
    assert h == c12 + Le32(n);
    assert h[..|h|] == h;
    PartAt(h, c12, Le32(n));
    PartAt(h, c11, Tag("data"));
    PartAt(h, c10, Le16(p.bits));
    PartAt(h, c9, Le16(BlockAlign(p)));
    PartAt(h, c8, Le32(ByteRate(p)));
    PartAt(h, c7, Le32(p.rate));
    PartAt(h, c6, Le16(p.channels));
    PartAt(h, c5, Le16(1));
    PartAt(h, c4, Le32(16));
    PartAt(h, c3, Tag("fmt "));
    PartAt(h, c2, Tag("WAVE"));
    PartAt(h, c1, Le32(WrapU32(36 + n)));
    PartAt(h, [], c1);
  }

  /** When `h` begins with `q + x`, it begins with `q` and holds `x` right after it. */
  lemma PartAt(h: seq<Byte>, q: seq<Byte>, x: seq<Byte>)
    requires |q| + |x| <= |h| && h[..|q| + |x|] == q + x
    ensures h[..|q|] == q && h[|q|..|q| + |x|] == x
  {
    assert forall k :: 0 <= k < |q| ==> h[k] == (q + x)[k];
    assert forall k :: |q| <= k < |q| + |x| ==> h[k] == (q + x)[k];
  }

  /** Reading the header back gives the fields it was written from. */
  lemma {:induction false} HeaderRoundTrip(p: PcmParams, n: nat)
    requires Decoded(p) && n < U32
    ensures ParseHeader(WavHeader(p, n)) ==
      Some(WavFields(WrapU32(36 + n), 16, 1, p.channels, p.rate, ByteRate(p), BlockAlign(p), p.bits, n))
  {
    ByteRateIsFrames(p);
    WavHeaderLayout(p, n);
    Le32RoundTrip(WrapU32(36 + n));
    Le32RoundTrip(16);
    Le16RoundTrip(1);
    Le16RoundTrip(p.channels);
    Le32RoundTrip(p.rate);
    Le32RoundTrip(ByteRate(p));
    Le16RoundTrip(BlockAlign(p));
    Le16RoundTrip(p.bits);
    Le32RoundTrip(n);
  }

  /** Parsing the written file gives back the PCM parameters and the captured bytes. */
  lemma {:induction false} WavRoundTrip(p: PcmParams, data: seq<Byte>)
    requires Decoded(p) && |data| < U32
    ensures ParseWav(WavImage(p, data)) ==
      Some((WavFields(WrapU32(36 + |data|), 16, 1, p.channels, p.rate, ByteRate(p), BlockAlign(p), p.bits, |data|), data))
  {
    var w := WavImage(p, data);
    assert w[..44] == WavHeader(p, |data|);
    HeaderRoundTrip(p, |data|);
  }

  /**
   * The global capture record of the level-3 tests: the settings handed to
   * Start, the capture buffer and how much of it is filled, the cookie the
   * callbacks raise, and the capture duration.
   */
  class CaptureContext {
    var settings: Settings
    var bufferSize: nat
    /** uint32_t */
    var bytesReceived: nat
    var cookie: int
    /** uint8_t */
    var duration: nat
    var dataBuffer: array<Byte>

    ghost predicate Valid()
      reads this
    {
      bytesReceived < U32 && duration < U8 && bufferSize < 0x8000_0000
    }

    /** The tracking state: a buffer of `bufferSize` bytes, filled up to `bytesReceived`. */
    ghost predicate Tracking()
      reads this
    {
      Valid() && bufferSize == dataBuffer.Length && bytesReceived <= bufferSize
    }

    /** The bytes captured so far. */
    ghost function Captured(): seq<Byte>
      reads this, dataBuffer
      requires Tracking()
    {
      dataBuffer[..bytesReceived]
    }

    constructor (s: Settings)
      ensures Tracking() && settings == s && bufferSize == 0 && bytesReceived == 0
      ensures cookie == 0 && duration == 0 && Captured() == []
    {
      settings := s;
      bufferSize := 0;
      bytesReceived := 0;
      cookie := 0;
      duration := 0;
      dataBuffer := new Byte[0];
    }

    /** prepare_start_settings_for_data_counting. */
    method PrepareForDataCounting()
      requires Valid()
      modifies this`settings, this`bufferSize, this`bytesReceived
      ensures Valid()
      ensures settings == old(settings).(cbBufferReady := CountingDataCb, hasStatusChange := false)
      ensures bufferSize == 0 && bytesReceived == 0
    {
      settings := settings.(cbBufferReady := CountingDataCb, hasStatusChange := false);
      bufferSize := 0;
      bytesReceived := 0;
    }

    /**
     * counting_data_cb: adds the chunk size to the uint32_t byte counter
     * and raises the cookie. A NULL or empty chunk fails the callback's
     * assertion, so callers must not pass one.
     */
    method CountingCallback(size: nat) returns (r: RmfError)
      requires Valid() && 0 < size < U32
      modifies this`bytesReceived, this`cookie
      ensures Valid()
      ensures r == Success && cookie == 1
      ensures bytesReceived == WrapU32(old(bytesReceived) + size)
      ensures old(bytesReceived) + size < U32 ==> bytesReceived == old(bytesReceived) + size
    {
      bytesReceived := WrapU32(bytesReceived + size);
      cookie := 1;
      r := Success;
    }

    /**
     * prepare_start_settings_for_data_tracking: installs the tracking
     * callback, stores the duration entered by the operator and allocates
     * a buffer sized for that duration.
     */
    method PrepareForDataTracking(choice: int)
      requires Valid()
      modifies this
      ensures Tracking() && fresh(dataBuffer)
      ensures settings == old(settings).(cbBufferReady := TrackingDataCb, hasStatusChange := false)
      ensures duration == EffectiveDuration(choice)
      ensures bufferSize == BufferSizeFor(settings, duration)
      ensures bytesReceived == 0 && Captured() == [] && cookie == old(cookie)
    {
      settings := settings.(cbBufferReady := TrackingDataCb, hasStatusChange := false);
      duration := EffectiveDuration(choice);
      bufferSize := BufferSizeFor(settings, duration);
      dataBuffer := new Byte[bufferSize];
      bytesReceived := 0;
    }

    /**
     * tracking_data_cb: copies as much of the chunk as fits after the bytes
     * already received, and fails only when the buffer is already full.
     */
    method TrackingCallback(chunk: seq<Byte>) returns (r: RmfError)
      requires Tracking() && 0 < |chunk| < U32
      modifies this`bytesReceived, this`cookie, dataBuffer
      ensures Tracking() && cookie == 1
      ensures var n := CopyLength(old(bytesReceived), |chunk|, bufferSize);
        if n.None? then
          r == Error && bytesReceived == old(bytesReceived) && dataBuffer[..] == old(dataBuffer[..])
        else
          r == Success && bytesReceived == old(bytesReceived) + n.value
          && Captured() == old(Captured()) + chunk[..n.value]
          && dataBuffer[bytesReceived..] == old(dataBuffer[..])[bytesReceived..]
    {
      cookie := 1;
      var n := CopyLength(bytesReceived, |chunk|, bufferSize);
      CopyLengthFits(bytesReceived, |chunk|, bufferSize);
      if n.None? {
        return Error;
      }
      var start := bytesReceived;
      var i := 0;
      while i < n.value
        invariant 0 <= i <= n.value
        invariant cookie == 1 && bytesReceived == start
        invariant forall k :: 0 <= k < start ==> dataBuffer[k] == old(dataBuffer[k])
        invariant forall k :: 0 <= k < i ==> dataBuffer[start + k] == chunk[k]
        invariant forall k :: start + i <= k < dataBuffer.Length ==> dataBuffer[k] == old(dataBuffer[k])
      {
        dataBuffer[start + i] := chunk[i];
        i := i + 1;
      }
      bytesReceived := start + n.value;
      assert Captured() == old(Captured()) + chunk[..n.value];
      r := Success;
    }

    /**
     * write_wav_file: validates the delivery and, when it passes and the
     * output file can be opened, produces the header and the captured
     * bytes. `canOpen` stands for fopen succeeding.
     */
    method WriteWavFile(canOpen: bool) returns (r: RmfError, file: seq<Byte>)
      requires Valid() && bytesReceived <= dataBuffer.Length
      ensures var ok := ValidateBytesReceived(settings, bytesReceived, duration) == Success && canOpen;
        (r == Success <==> ok) && (r != Success ==> r == Error && file == [])
      ensures r == Success ==>
        var p := GetValuesFromSettings(settings).value;
        file == WavImage(p, dataBuffer[..bytesReceived])
    {
      file := [];
      if ValidateBytesReceived(settings, bytesReceived, duration) != Success {
        return Error, file;
      }
      var values := GetValuesFromSettings(settings);
      if values.Err? {
        return Error, file;
      }
      if !canOpen {
        return Error, file;
      }
      var header := WriteHeader(values.value, bytesReceived);
      file := header + dataBuffer[..bytesReceived];
      r := Success;
    }
  }

  /** The header writes of write_wav_file, field by field. */
  method WriteHeader(p: PcmParams, n: nat) returns (h: seq<Byte>)
    requires Decoded(p) && n < U32
    ensures h == WavHeader(p, n)
  {
    ByteRateIsFrames(p);
    h := Tag("RIFF");
    h := h + Le32(WrapU32(36 + n));
    h := h + Tag("WAVE");
    h := h + Tag("fmt ");
    h := h + Le32(16);
    h := h + Le16(1);
    h := h + Le16(p.channels);
    h := h + Le32(p.rate);
    h := h + Le32(ByteRate(p));
    h := h + Le16(BlockAlign(p));
    h := h + Le16(p.bits);
    h := h + Tag("data");
    h := h + Le32(n);
  }

  /** Capture type chosen by getAudioCaptureType: 1 (primary) unless 2 (auxiliary) was entered. */
  function CaptureTypeChoice(entered: Option<int>): (c: int)
    ensures c == 1 || c == 2
    ensures c == 2 <==> entered == Some(2)
  {
    var choice := if entered.Some? then entered.value else 1;
    if choice < 1 || choice > 2 then 1 else choice
  }

  /** A full tracking capture: the buffer fills, one more chunk is refused, and the file holds exactly what arrived. */
  method TrackingCaptureScenario(s: Settings, choice: int, first: seq<Byte>)
    returns (r1: RmfError, r2: RmfError, w: RmfError, file: seq<Byte>)
    requires GetValuesFromSettings(s).Ok? && 0 < choice < U8
    requires |first| == choice * ByteRate(GetValuesFromSettings(s).value)
    ensures r1 == Success && r2 == Error && w == Success
    ensures file == WavImage(GetValuesFromSettings(s).value, first)
  {
    var ctx := new CaptureContext(s);
    ctx.PrepareForDataTracking(choice);
    assert ctx.bufferSize == |first|;
    r1 := ctx.TrackingCallback(first);
    r2 := ctx.TrackingCallback([0]);
    FullBufferValidates(ctx.settings, ctx.duration);
    w, file := ctx.WriteWavFile(true);
  }
}
