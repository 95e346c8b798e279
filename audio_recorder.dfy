/**
 * The audio recorder: settings validation, the chunk loop that copies the
 * input stream into the WAV file until the duration is reached or a signal
 * clears the recording flag, the timestamped output name, and the
 * `audio_recorder` entry point.
 *
 * The input stream is a sequence of chunks; a read past its end is the stream
 * raising. A signal is delivered between two iterations: `signalBefore ==
 * Some(k)` runs the handler just before the flag test of iteration `k`.
 */
module AudioRecorder {
  import opened Wrappers
  import PyPath
  import opened Outputs

  /** PortAudio's sample-format flags, as `pyaudio` exposes them. */
  const PaInt32 := 2
  const PaInt24 := 4
  const PaInt16 := 8

  datatype Settings = Settings(
    channels: int,
    chunk: int,
    format: int,
    rate: int,
    recordSeconds: int,
    inputFolder: string)

  /** The settings used when the environment sets none of them. */
  const DefaultSettings := Settings(1, 1024, PaInt16, 44100, 10, "recordings")

  datatype SettingsError = InvalidFormat | InvalidChannels | InvalidRate

  predicate FormatOk(s: Settings) { s.format == PaInt16 || s.format == PaInt24 || s.format == PaInt32 }
  predicate ChannelsOk(s: Settings) { 1 <= s.channels <= 2 }
  predicate RateOk(s: Settings) { 8000 <= s.rate <= 48000 }

  /** `Config.validate_audio_settings`: the checks run in order and the first that fails raises. */
  function ValidateAudioSettings(s: Settings): (r: Outcome<SettingsError>)
    ensures r.Pass? <==> FormatOk(s) && ChannelsOk(s) && RateOk(s)
    ensures r == Fail(InvalidFormat) <==> !FormatOk(s)
    ensures r == Fail(InvalidChannels) <==> FormatOk(s) && !ChannelsOk(s)
    ensures r == Fail(InvalidRate) <==> FormatOk(s) && ChannelsOk(s) && !RateOk(s)
  {
    if s.format !in [PaInt16, PaInt24, PaInt32] then Fail(InvalidFormat)
    else if !(1 <= s.channels <= 2) then Fail(InvalidChannels)
    else if !(8000 <= s.rate <= 48000) then Fail(InvalidRate)
    else Pass
  }

  /** CHUNK and RECORD_SECONDS play no part in validation, so a zero CHUNK passes it. */
  lemma ChunkAndDurationUnchecked(s: Settings, chunk: int, seconds: int)
    ensures ValidateAudioSettings(s.(chunk := chunk, recordSeconds := seconds)) == ValidateAudioSettings(s)
    ensures ValidateAudioSettings(DefaultSettings.(chunk := 0)).Pass?
  {
  }

  /** Bytes per sample of each accepted format (`get_sample_size`). */
  function SampleSize(format: int): nat {
    if format == PaInt16 then 2 else if format == PaInt24 then 3 else 4
  }

  function Abs(x: int): (m: nat)
    ensures m == x || m == -x
  {
    if x < 0 then -x else x
  }

  /**
   * `int(a / b)` for integers: the exact quotient truncated toward zero, so
   * the quotient of the magnitudes carrying the sign of the exact quotient,
   * and `q * b` is the multiple of `b` nearest `a` on the side of zero.
   */
  function TruncDiv(a: int, b: int): (q: int)
    requires b != 0
    ensures a >= 0 && b > 0 ==> q == a / b
    ensures (a >= 0) == (b > 0) ==> q >= 0
    ensures (a < 0) == (b < 0) ==> q == Abs(a) / Abs(b)
    ensures (a < 0) != (b < 0) ==> q == -(Abs(a) / Abs(b))
  {
    if a >= 0 && b > 0 then a / b
    else if a < 0 && b < 0 then (-a) / (-b)
    else if a < 0 then -((-a) / b)
    else -(a / (-b))
  }

  /**
   * Truncation toward zero, stated without division: `q * b` is the
   * multiple of `b` nearest `a` between zero and `a`.
   */
  lemma TruncDivBounds(a: int, b: int)
    requires b != 0
    ensures var q := TruncDiv(a, b);
      && Abs(q * b) <= Abs(a) < Abs(q * b) + Abs(b)
      && (q * b == 0 || (q * b < 0 <==> a < 0))
  {
    var q := TruncDiv(a, b);
    var n := Abs(a) / Abs(b);
    assert n * Abs(b) <= Abs(a) < n * Abs(b) + Abs(b);
    assert q == n || q == -n;
    MagnitudeOfProduct(q, b);
    assert Abs(q * b) == n * Abs(b);
    if n != 0 {
      assert (a < 0) == (b < 0) ==> q == n;
      assert (a < 0) != (b < 0) ==> q == -n;
      assert n > 0 && Abs(b) > 0;
      SignOfProduct(q, b);
    }
  }

  lemma MagnitudeOfProduct(x: int, y: int)
    ensures Abs(x * y) == Abs(x) * Abs(y)
  {
    if x < 0 && y < 0 { assert x * y == (-x) * (-y); }
    else if x < 0 { assert x * y == -((-x) * y); }
    else if y < 0 { assert x * y == -(x * (-y)); }
  }

  lemma SignOfProduct(x: int, y: int)
    requires x != 0 && y != 0
    ensures x * y > 0 <==> (x < 0) == (y < 0)
    ensures x * y != 0
  {
    MagnitudeOfProduct(x, y);
    if x < 0 && y < 0 { assert x * y == (-x) * (-y); }
    else if x < 0 { assert x * y == -((-x) * y); }
    else if y < 0 { assert x * y == -(x * (-y)); }
  }

  /**
   * How many times `for _ in range(int(RATE / CHUNK * RECORD_SECONDS))`
   * iterates (a negative count is no iteration); the quotient is taken exactly.
   */
  function Iterations(s: Settings): nat
    requires s.chunk != 0
  {
    var q := TruncDiv(s.rate * s.recordSeconds, s.chunk);
    if q < 0 then 0 else q
  }

  datatype RecordError = ZeroDivision | StreamFailed

  /**
   * The closed form of a recording: how many chunks reach the WAV file, and
   * whether `record_audio` returns or raises. A zero CHUNK raises when the
   * loop bound is computed; otherwise the loop stops at the bound, at the
   * signal, or where the stream runs out, whichever comes first.
   */
  function Recorded(s: Settings, available: nat, signalBefore: Option<nat>): (nat, Outcome<RecordError>) {
    if s.chunk == 0 then (0, Fail(ZeroDivision))
    else
      var n := Iterations(s);
      var stop := if signalBefore.Some? && signalBefore.value < n then signalBefore.value else n;
      if available < stop then (available, Fail(StreamFailed)) else (stop, Pass)
  }

  /** A recording never writes more chunks than the bound, the stream holds, or the signal allows. */
  lemma RecordedBounds(s: Settings, available: nat, signalBefore: Option<nat>)
    ensures var (written, outcome) := Recorded(s, available, signalBefore);
      && written <= available
      && (s.chunk != 0 ==> written <= Iterations(s))
      && (signalBefore.Some? ==> written <= signalBefore.value)
      && (outcome.Pass? ==> s.chunk != 0)
  {
  }

  /** Without a signal, a stream long enough and a non-zero CHUNK, the whole duration is recorded. */
  lemma RecordedFull(s: Settings, available: nat)
    requires s.chunk != 0 && available >= Iterations(s)
    ensures Recorded(s, available, None) == (Iterations(s), Pass)
  {
  }

  /** A date and time as `datetime.now()` gives it, with a four-digit year. */
  datatype DateTime = DateTime(year: int, month: int, day: int, hour: int, minute: int, second: int)

  predicate ValidDateTime(t: DateTime) {
    && 1000 <= t.year <= 9999 && 1 <= t.month <= 12 && 1 <= t.day <= 31
    && 0 <= t.hour < 24 && 0 <= t.minute < 60 && 0 <= t.second < 62
  }

  function Digit(n: int): char
    requires 0 <= n < 10
  {
    ('0' as int + n) as char
  }

  function DigitValue(c: char): int {
    c as int - '0' as int
  }

  function Pad2(n: int): string
    requires 0 <= n < 100
  {
    [Digit(n / 10), Digit(n % 10)]
  }

  function Pad4(n: int): string
    requires 0 <= n < 10000
  {
    Pad2(n / 100) + Pad2(n % 100)
  }

  /** `now.strftime("%Y%m%d_%H%M%S")` */
  function Stamp(t: DateTime): (s: string)
    requires ValidDateTime(t)
    ensures |s| == 15 && s[8] == '_' && '/' !in s
  {
    Pad4(t.year) + Pad2(t.month) + Pad2(t.day) + "_" + Pad2(t.hour) + Pad2(t.minute) + Pad2(t.second)
  }

  function Value2(s: string): int
    requires |s| == 2
  {
    DigitValue(s[0]) * 10 + DigitValue(s[1])
  }

  /** Reads a stamp back into the date and time it was made from. */
  function ParseStamp(s: string): DateTime
    requires |s| == 15
  {
    DateTime(Value2(s[0..2]) * 100 + Value2(s[2..4]), Value2(s[4..6]), Value2(s[6..8]),
             Value2(s[9..11]), Value2(s[11..13]), Value2(s[13..15]))
  }

  lemma Pad2RoundTrip(n: int)
    requires 0 <= n < 100
    ensures Value2(Pad2(n)) == n
  {
  }

  /** A stamp determines its date and time, so recordings made in different seconds get different names. */
  lemma StampRoundTrip(t: DateTime)
    requires ValidDateTime(t)
    ensures ParseStamp(Stamp(t)) == t
  {
    var s := Stamp(t);
    Pad2RoundTrip(t.year / 100);
    Pad2RoundTrip(t.year % 100);
    Pad2RoundTrip(t.month);
    Pad2RoundTrip(t.day);
    Pad2RoundTrip(t.hour);
    Pad2RoundTrip(t.minute);
    Pad2RoundTrip(t.second);
    assert s[0..2] == Pad2(t.year / 100);
    assert s[2..4] == Pad2(t.year % 100);
    assert s[4..6] == Pad2(t.month);
    assert s[6..8] == Pad2(t.day);
    assert s[9..11] == Pad2(t.hour);
    assert s[11..13] == Pad2(t.minute);
    assert s[13..15] == Pad2(t.second);
  }

  /** `generate_output_file`: `INPUT_FOLDER` joined with `recording_<stamp>.wav`. */
  function OutputFile(folder: string, now: DateTime): string
    requires ValidDateTime(now)
  {
    PyPath.Join(folder, "recording_" + Stamp(now) + ".wav")
  }

  /** The output lies in the input folder, is named after the stamp, and differs for different times. */
  lemma OutputFileNaming(folder: string, t1: DateTime, t2: DateTime)
    requires ValidDateTime(t1) && ValidDateTime(t2)
    ensures PyPath.Basename(OutputFile(folder, t1)) == "recording_" + Stamp(t1) + ".wav"
    ensures t1 != t2 ==> OutputFile(folder, t1) != OutputFile(folder, t2)
  {
    var n1, n2 := "recording_" + Stamp(t1) + ".wav", "recording_" + Stamp(t2) + ".wav";
    assert '/' !in n1 by { assert n1 == "recording_" + Stamp(t1) + ".wav"; }
    assert '/' !in n2 by { assert n2 == "recording_" + Stamp(t2) + ".wav"; }
    PyPath.BasenameOfJoin(folder, n1);
    PyPath.BasenameOfJoin(folder, n2);
    if OutputFile(folder, t1) == OutputFile(folder, t2) {
      assert n1 == n2;
      assert Stamp(t1) == n1[10..25] == n2[10..25] == Stamp(t2);
      StampRoundTrip(t1);
      StampRoundTrip(t2);
    }
  }

  /** The bytes of a sequence of chunks, one after another. */
  function Concat(chunks: seq<seq<bv8>>): seq<bv8> {
    if chunks == [] then [] else Concat(chunks[..|chunks| - 1]) + chunks[|chunks| - 1]
  }

  /** Bytes one `stream.read(CHUNK)` returns: CHUNK frames of every channel's sample. */
  function ChunkBytes(s: Settings): int {
    s.chunk * s.channels * SampleSize(s.format)
  }

  /** Chunks of one size `size` concatenate to `size` bytes per chunk. */
  lemma {:induction false} ConcatLength(chunks: seq<seq<bv8>>, size: nat)
    requires forall k :: 0 <= k < |chunks| ==> |chunks[k]| == size
    ensures |Concat(chunks)| == |chunks| * size
  {
    if chunks != [] {
      ConcatLength(chunks[..|chunks| - 1], size);
    }
  }

  /**
   * When every read returns CHUNK frames, the WAV data holds exactly one
   * chunk's bytes per chunk written.
   */
  lemma WavDataLength(s: Settings, input: seq<seq<bv8>>, signalBefore: Option<nat>)
    requires ChunkBytes(s) >= 0
    requires forall k :: 0 <= k < |input| ==> |input[k]| == ChunkBytes(s)
    ensures var written := Recorded(s, |input|, signalBefore).0;
      written <= |input| && |Concat(input[..written])| == written * ChunkBytes(s)
  {
    var written := Recorded(s, |input|, signalBefore).0;
    RecordedBounds(s, |input|, signalBefore);
    ConcatLength(input[..written], ChunkBytes(s));
  }

  datatype StreamState = Unopened | Open | Closed

  /** `AudioRecorder`: the recording flag, the output path, the stream and the WAV file's frames. */
  class Recorder {
    const settings: Settings
    var isRecording: bool
    var outputFilePath: Option<string>
    var stream: StreamState
    /** The chunks `writeframes` has appended to the WAV file, in order. */
    var frames: seq<seq<bv8>>
    /** Whether `self.audio.terminate()` has run. */
    var terminated: bool

    constructor(settings: Settings)
      ensures this.settings == settings
      ensures !isRecording && outputFilePath == None
      ensures stream == Unopened && frames == [] && !terminated
    {
      this.settings := settings;
      isRecording := false;
      outputFilePath := None;
      stream := Unopened;
      frames := [];
      terminated := false;
    }

    /** `signal_handler`: clears the recording flag and touches nothing else. */
    method SignalHandler()
      modifies this`isRecording
      ensures !isRecording
    {
      isRecording := false;
    }

    /**
     * `record_audio`: sets the flag and the output path, then copies chunks
     * while the flag holds; the `finally` block closes the stream,
     * terminates the audio system and clears the flag on every path.
     */
    method RecordAudio(now: DateTime, input: seq<seq<bv8>>, signalBefore: Option<nat>)
      returns (outcome: Outcome<RecordError>)
      requires ValidDateTime(now) && stream == Unopened
      modifies this
      ensures outputFilePath == Some(OutputFile(settings.inputFolder, now))
      ensures !isRecording && stream == Closed && terminated
      ensures var (written, result) := Recorded(settings, |input|, signalBefore);
        frames == input[..written] && outcome == result
    {
      isRecording := true;
      outputFilePath := Some(OutputFile(settings.inputFolder, now));
      stream := Open;
      frames := [];
      outcome := Pass;
      if settings.chunk == 0 {
        outcome := Fail(ZeroDivision);
      } else {
        var n := Iterations(settings);
        var i := 0;
        while i < n
          invariant 0 <= i <= n && i <= |input|
          invariant isRecording && outcome == Pass
          invariant frames == input[..i]
          invariant signalBefore.Some? ==> signalBefore.value >= i
          invariant outputFilePath == Some(OutputFile(settings.inputFolder, now))
        {
          if signalBefore == Some(i) {
            SignalHandler();
          }
          if !isRecording {
            break;
          }
          if i == |input| {
            outcome := Fail(StreamFailed);
            break;
          }
          frames := frames + [input[i]];
          i := i + 1;
        }
      }
      stream := Closed;
      terminated := true;
      isRecording := false;
    }
  }

  /**
   * `audio_recorder`: `Config` first makes INPUT_FOLDER when it does not
   * exist (`dirs` are the folders that do), which raises for "", then
   * validates the settings; the recorder records, and the call returns the
   * output path, or `None` when anything raised. `made` is the folder
   * creation.
   */
  method RunAudioRecorder(settings: Settings, dirs: set<string>, now: DateTime, input: seq<seq<bv8>>,
                          signalBefore: Option<nat>)
    returns (made: seq<Output>, path: Option<string>)
    requires ValidDateTime(now)
    ensures made == (if settings.inputFolder == "" || settings.inputFolder in dirs then [] else [MakeDirs(settings.inputFolder)])
    ensures path.Some? <==>
      settings.inputFolder != "" && ValidateAudioSettings(settings).Pass? && Recorded(settings, |input|, signalBefore).1.Pass?
    ensures path.Some? ==> path.value == OutputFile(settings.inputFolder, now)
  {
    var folder := MakeFolder(settings.inputFolder, dirs);
    if folder.None? {
      return [], None;
    }
    made := folder.value;
    if ValidateAudioSettings(settings).Fail? {
      return made, None;
    }
    var recorder := new Recorder(settings);
    var outcome := recorder.RecordAudio(now, input, signalBefore);
    if outcome.Fail? {
      return made, None;
    }
    path := recorder.outputFilePath;
  }
}
