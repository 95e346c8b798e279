/**
 * `text_to_speech`: check the four arguments, read the configuration, ask
 * the Azure speech synthesiser for the audio of the text, and save that
 * audio as `<name><extension>` in the records folder.
 */
module TextToSpeech {
  import opened Wrappers
  import opened PyStr
  import PyPath
  import opened Env
  import opened Outputs

  /** A Python argument: a `str`, or any value of another type (`None` included). */
  datatype Arg = Str(s: string) | NotStr

  /** `not x or not isinstance(x, str)` fails exactly for these. */
  predicate NonEmptyString(a: Arg) {
    a.Str? && a.s != []
  }

  const TextError := "Text must be a non-empty string."
  const NameError := "Name must be a non-empty string."
  const LanguageError := "Language must be a non-empty string."
  const VoiceError := "Voice name must be a non-empty string."

  /** The `ValueError` checks of `text_to_speech`: text, name, language, voice name, in that order. */
  function CheckArguments(text: Arg, name: Arg, language: Arg, voiceName: Arg): (r: Outcome<string>)
    ensures r.Pass? <==>
      NonEmptyString(text) && NonEmptyString(name) && NonEmptyString(language) && NonEmptyString(voiceName)
    ensures r == Fail(TextError) <==> !NonEmptyString(text)
    ensures r == Fail(NameError) <==> NonEmptyString(text) && !NonEmptyString(name)
    ensures r == Fail(LanguageError) <==> NonEmptyString(text) && NonEmptyString(name) && !NonEmptyString(language)
    ensures r == Fail(VoiceError) <==>
      NonEmptyString(text) && NonEmptyString(name) && NonEmptyString(language) && !NonEmptyString(voiceName)
  {
    assert TextError[0] == 'T' && NameError[0] == 'N' && LanguageError[0] == 'L' && VoiceError[0] == 'V';
    if !NonEmptyString(text) then Fail(TextError)
    else if !NonEmptyString(name) then Fail(NameError)
    else if !NonEmptyString(language) then Fail(LanguageError)
    else if !NonEmptyString(voiceName) then Fail(VoiceError)
    else Pass
  }

  datatype SpeechConfig = SpeechConfig(
    apiKey: Option<string>,
    region: Option<string>,
    outputFolder: Option<string>,
    audioExtension: Option<string>)

  /** AUDIO_EXTENSION falls back to "wav", so the extension is never `None`. */
  function ConfigFromEnv(env: Environment): (c: SpeechConfig)
    ensures c.audioExtension == Some(if "AUDIO_EXTENSION" in env then env["AUDIO_EXTENSION"] else "wav")
  {
    SpeechConfig(
      GetEnv(env, "AZURE_AUDIO_TEXT_KEY"),
      GetEnv(env, "REGION"),
      GetEnv(env, "RECORDS_FOLDER"),
      Some(GetEnvOr(env, "AUDIO_EXTENSION", "wav")))
  }

  /** The names `Config.validate` reports, in declared order. */
  const FieldNames: seq<string> := ["api_key", "region", "OUTPUT_FOLDER", "audio_extension"]

  function Fields(c: SpeechConfig): (values: seq<Option<string>>)
    ensures |values| == |FieldNames|
  {
    [c.apiKey, c.region, c.outputFolder, c.audioExtension]
  }

  /** `[name for name, var in zip(names, values) if var is None]` */
  function NamesOfNone(names: seq<string>, values: seq<Option<string>>): (missing: seq<string>)
    requires |names| == |values|
    ensures |missing| <= |names|
    ensures forall n :: n in missing ==> exists i :: 0 <= i < |names| && names[i] == n && values[i].None?
    ensures forall i :: 0 <= i < |names| && values[i].None? ==> names[i] in missing
  {
    if names == [] then []
    else
      var rest := NamesOfNone(names[1..], values[1..]);
      assert forall i :: 1 <= i < |names| ==> names[1..][i - 1] == names[i] && values[1..][i - 1] == values[i];
      (if values[0].None? then [names[0]] else []) + rest
  }

  /** A pair in order after the first name is in order in the whole list. */
  lemma BeforeTail(names: seq<string>, a: string, b: string)
    requires names != [] && Before(names[1..], a, b)
    ensures Before(names, a, b)
  {
    var p, q :| 0 <= p < q < |names[1..]| && names[1..][p] == a && names[1..][q] == b;
    assert names[p + 1] == a && names[q + 1] == b;
  }

  /** Putting the first name in front of names found after it keeps the order. */
  lemma InOrderCons(names: seq<string>, rest: seq<string>)
    requires names != [] && InOrder(rest, names[1..])
    requires forall n :: n in rest ==> n in names[1..]
    ensures InOrder([names[0]] + rest, names)
  {
    var missing := [names[0]] + rest;
    forall i, j | 0 <= i < j < |missing| ensures Before(names, missing[i], missing[j]) {
      if i == 0 {
        assert missing[j] == rest[j - 1] && rest[j - 1] in names[1..];
        var q :| 0 <= q < |names[1..]| && names[1..][q] == rest[j - 1];
        assert names[0] == missing[i] && names[q + 1] == missing[j];
      } else {
        assert missing[i] == rest[i - 1] && missing[j] == rest[j - 1];
        BeforeTail(names, rest[i - 1], rest[j - 1]);
      }
    }
  }

  /** Names in order after the first name are in order in the whole list. */
  lemma InOrderTail(names: seq<string>, rest: seq<string>)
    requires names != [] && InOrder(rest, names[1..])
    ensures InOrder(rest, names)
  {
    forall i, j | 0 <= i < j < |rest| ensures Before(names, rest[i], rest[j]) {
      BeforeTail(names, rest[i], rest[j]);
    }
  }

  /** The reported names keep the declared order. */
  lemma {:induction false} NamesOfNoneInOrder(names: seq<string>, values: seq<Option<string>>)
    requires |names| == |values|
    ensures InOrder(NamesOfNone(names, values), names)
  {
    if names != [] {
      NamesOfNoneInOrder(names[1..], values[1..]);
      var rest := NamesOfNone(names[1..], values[1..]);
      if values[0].None? {
        assert NamesOfNone(names, values) == [names[0]] + rest;
        forall n | n in rest ensures n in names[1..] {
          var i :| 0 <= i < |names[1..]| && names[1..][i] == n && values[1..][i].None?;
        }
        InOrderCons(names, rest);
      } else {
        assert NamesOfNone(names, values) == [] + rest;
        InOrderTail(names, rest);
      }
    }
  }

  function MissingNames(c: SpeechConfig): seq<string> {
    NamesOfNone(FieldNames, Fields(c))
  }

  /** `Config.validate`: `EnvironmentError`, after logging the missing names, iff some field is `None`. */
  function Validate(c: SpeechConfig): (r: Outcome<seq<string>>)
    ensures r.Pass? <==> c.apiKey.Some? && c.region.Some? && c.outputFolder.Some? && c.audioExtension.Some?
    ensures r.Fail? ==> r.error == MissingNames(c) && r.error != []
  {
    MissingIffNone(c);
    var missing := MissingNames(c);
    if missing == [] then Pass else Fail(missing)
  }

  lemma MissingIffNone(c: SpeechConfig)
    ensures MissingNames(c) == [] <==> c.apiKey.Some? && c.region.Some? && c.outputFolder.Some? && c.audioExtension.Some?
  {
    var missing := MissingNames(c);
    var values := Fields(c);
    assert values[0] == c.apiKey && values[1] == c.region && values[2] == c.outputFolder && values[3] == c.audioExtension;
    if missing != [] {
      assert missing[0] in missing;
      var i :| 0 <= i < |FieldNames| && FieldNames[i] == missing[0] && values[i].None?;
      assert i == 0 || i == 1 || i == 2 || i == 3;
    }
    if values[0].None? { assert FieldNames[0] in missing; }
    if values[1].None? { assert FieldNames[1] in missing; }
    if values[2].None? { assert FieldNames[2] in missing; }
    if values[3].None? { assert FieldNames[3] in missing; }
  }

  /** Read from the environment, the configuration never reports the extension missing. */
  /** The configuration is complete exactly when the key, the region and the records folder are set. */
  lemma ValidateFromEnv(env: Environment)
    ensures Validate(ConfigFromEnv(env)).Fail? <==>
      !("AZURE_AUDIO_TEXT_KEY" in env && "REGION" in env && "RECORDS_FOLDER" in env)
  {
  }

  lemma ExtensionNeverMissing(env: Environment)
    ensures "audio_extension" !in MissingNames(ConfigFromEnv(env))
  {
    var c := ConfigFromEnv(env);
    forall i | 0 <= i < |FieldNames| && Fields(c)[i].None? ensures FieldNames[i] != "audio_extension" {
      assert i != 3;
      assert FieldNames[i][0] != 'a' || FieldNames[i][1] != 'u';
    }
  }

  /** `speechsdk.ResultReason`, as far as `synthesize_text` tells the reasons apart. */
  datatype Reason = SynthesizingAudioCompleted | OtherReason(name: string)

  /** What `speak_text_async(text).get()` returns. */
  datatype SynthesisResult = SynthesisResult(reason: Reason, audioData: seq<bv8>, errorDetails: Option<string>)

  /** `synthesize_text`: the audio data when synthesis completed, `None` otherwise. */
  function SynthesizeText(result: SynthesisResult): (audio: Option<seq<bv8>>)
    ensures audio.Some? <==> result.reason == SynthesizingAudioCompleted
    ensures audio.Some? ==> audio.value == result.audioData
  {
    if result.reason == SynthesizingAudioCompleted then Some(result.audioData) else None
  }

  /**
   * The reason logged for a failed synthesis: the error details when there
   * are any. It feeds only the log message; it decides no output.
   */
  function FailureReason(result: SynthesisResult): (reason: string)
    ensures Truthy(result.errorDetails) ==> reason == result.errorDetails.value
    ensures !Truthy(result.errorDetails) ==> reason == "Unknown error."
  {
    if Truthy(result.errorDetails) then result.errorDetails.value else "Unknown error."
  }

  /** How a call of `text_to_speech` ends: an exception with its message, or a return with what it wrote. */
  datatype Ending = Raised(message: string) | Returned(outputs: seq<Output>)

  /** Where the audio goes: `Path(OUTPUT_FOLDER) / f"{name}{audio_extension}"`, no dot added. */
  function AudioPath(folder: string, name: string, extension: string): string {
    PyPath.Join(folder, name + extension)
  }

  /** The defaults of `text_to_speech`'s `language` and `voice_name` parameters. */
  const DefaultLanguage := "en-GB"
  const DefaultVoiceName := "en-GB-RyanNeural"

  /** What `Config()` raises when a setting is `None`, re-raised by `text_to_speech`. */
  const MissingSettingsError := "Missing required environment variables."

  /** What `os.makedirs("")` raises, logged and re-raised by `text_to_speech`. */
  const EmptyFolderError := "[Errno 2] No such file or directory: ''"

  /**
   * `text_to_speech(text, name, language, voice_name)` with the environment
   * `env`, the folders `dirs` that exist, and `synthesize` standing for the
   * synthesiser's answer to a text in a language and a voice. A caller
   * that omits `language` or `voice_name` passes `DefaultLanguage` or
   * `DefaultVoiceName`.
   */
  function TextToSpeechCall(env: Environment, dirs: set<string>, text: Arg, name: Arg, language: Arg, voiceName: Arg,
                            synthesize: (string, string, string) -> SynthesisResult): (e: Ending)
    ensures CheckArguments(text, name, language, voiceName).Fail? ==>
      e == Raised(CheckArguments(text, name, language, voiceName).error)
    ensures CheckArguments(text, name, language, voiceName).Pass? && Validate(ConfigFromEnv(env)).Fail? ==>
      e == Raised(MissingSettingsError)
  {
    match CheckArguments(text, name, language, voiceName)
    case Fail(message) => Raised(message)
    case Pass =>
      var c := ConfigFromEnv(env);
      if Validate(c).Fail? then Raised(MissingSettingsError)
      else
        var audio := SynthesizeText(synthesize(text.s, language.s, voiceName.s));
        if audio.Some? && audio.value != [] then
          var folder := c.outputFolder.value;
          match MakeFolder(folder, dirs)
          case None => Raised(EmptyFolderError)
          case Some(made) => Returned(made + [BinaryFile(AudioPath(folder, name.s, c.audioExtension.value), audio.value)])
        else Returned([])
  }

  /**
   * With valid arguments and settings, the call writes one file exactly
   * when synthesis completed with some audio and the output folder is not
   * "", and that file holds the audio under the name `<name><extension>` in
   * the output folder. With audio and a folder of "", `makedirs` raises and
   * nothing is written.
   */
  lemma AudioWrittenIffSynthesised(env: Environment, dirs: set<string>, text: string, name: string, language: string,
                                   voiceName: string, synthesize: (string, string, string) -> SynthesisResult)
    requires text != [] && name != [] && '/' !in name && language != [] && voiceName != []
    requires Validate(ConfigFromEnv(env)).Pass? && '/' !in ConfigFromEnv(env).audioExtension.value
    ensures var e := TextToSpeechCall(env, dirs, Str(text), Str(name), Str(language), Str(voiceName), synthesize);
      var result := synthesize(text, language, voiceName);
      var c := ConfigFromEnv(env);
      var synthesised := result.reason == SynthesizingAudioCompleted && result.audioData != [];
      && (e.Raised? <==> synthesised && c.outputFolder.value == "")
      && (e.Raised? ==> e.message == EmptyFolderError)
      && (e.Returned? ==> (e.outputs != [] <==> synthesised))
      && (e.Returned? && e.outputs != [] ==>
            var file := e.outputs[|e.outputs| - 1];
            && file.BinaryFile? && file.bytes == result.audioData
            && PyPath.Basename(file.path) == name + c.audioExtension.value)
  {
    var c := ConfigFromEnv(env);
    var e := TextToSpeechCall(env, dirs, Str(text), Str(name), Str(language), Str(voiceName), synthesize);
    var result := synthesize(text, language, voiceName);
    var audio := SynthesizeText(result);
    assert CheckArguments(Str(text), Str(name), Str(language), Str(voiceName)).Pass?;
    if audio.Some? && audio.value != [] {
      var folder := c.outputFolder.value;
      if folder != "" {
        var made := MakeFolder(folder, dirs).value;
        var path := AudioPath(folder, name, c.audioExtension.value);
        assert e.outputs == made + [BinaryFile(path, audio.value)];
        PyPath.BasenameOfJoin(folder, name + c.audioExtension.value);
      }
    } else {
      assert e == Returned([]);
    }
  }
}
