/**
 * The speech-to-text module: every file of the samples folder with the
 * configured extension is transcribed, and files with at least one phrase
 * get a transcript, a JSON list and database rows, committed one by one.
 */
module AzureSpeechToText {
  import opened Wrappers
  import opened PyStr
  import PyPath
  import opened Env
  import opened Outputs
  import opened SpeechRecognition
  import opened Transcripts

  /** The table `write_to_sqlite` fills. */
  const TableName: string := "transcriptions"

  /** `Config` together with the module-level `AUDIO_EXTENSION`. */
  datatype SpeechConfig = SpeechConfig(
    apiKey: Option<string>,
    region: Option<string>,
    samplesFolder: Option<string>,
    transcriptsFolder: Option<string>,
    audioExtension: Option<string>)

  function ConfigFromEnv(env: Environment): SpeechConfig {
    SpeechConfig(
      GetEnv(env, "API_KEY"),
      GetEnv(env, "REGION"),
      GetEnv(env, "SAMPLES_FOLDER"),
      GetEnv(env, "TRANSCRIPTS_FOLDER"),
      GetEnv(env, "AUDIO_EXTENSION"))
  }

  predicate Complete(c: SpeechConfig) {
    c.apiKey.Some? && c.region.Some? && c.samplesFolder.Some? && c.transcriptsFolder.Some? && c.audioExtension.Some?
  }

  /** `Config.validate`: `EnvironmentError` when any of the five settings is `None`. An empty value passes. */
  function Validate(c: SpeechConfig): (r: Outcome<string>)
    ensures r.Pass? <==> Complete(c)
  {
    var settings := [c.apiKey, c.region, c.samplesFolder, c.transcriptsFolder, c.audioExtension];
    assert Complete(c) <==> forall k :: 0 <= k < |settings| ==> settings[k].Some? by {
      assert settings[0] == c.apiKey && settings[1] == c.region && settings[2] == c.samplesFolder;
      assert settings[3] == c.transcriptsFolder && settings[4] == c.audioExtension;
    }
    RequireAll(settings)
  }

  /** The check fails exactly when one of the five variables is unset. */
  lemma ValidateFromEnv(env: Environment)
    ensures Validate(ConfigFromEnv(env)).Pass? <==>
      "API_KEY" in env && "REGION" in env && "SAMPLES_FOLDER" in env && "TRANSCRIPTS_FOLDER" in env && "AUDIO_EXTENSION" in env
  {
  }

  /**
   * What `process_file(filename)` writes once recognition has produced
   * `results`: nothing for no phrase, otherwise `<stem>.txt`, `<stem>.json`
   * and the shared database in the transcripts folder, the stem being the
   * listed name without its last extension, with a commit after every row.
   */
  function FileOutputs(c: SpeechConfig, filename: string, results: seq<string>): seq<Output>
    requires Complete(c)
  {
    if results == [] then []
    else TranscriptOutputs(c.transcriptsFolder.value, PyPath.Root(filename), TableName, filename, results, true)
  }

  /** The recogniser reads the listed file inside the samples folder. */
  function InputPath(c: SpeechConfig, filename: string): string
    requires Complete(c)
  {
    PyPath.Join(c.samplesFolder.value, filename)
  }

  /** Each committed prefix of the rows is one row longer than the last, and the connection's exit commits all of them. */
  lemma CommitsAfterEachInsert(c: SpeechConfig, filename: string, results: seq<string>)
    requires Complete(c) && results != []
    ensures var db := FileOutputs(c, filename, results)[2];
      && |db.commits| == |results| + 1
      && (forall k :: 0 <= k < |results| ==> db.commits[k] == k + 1)
      && db.commits[|results|] == |db.rows|
  {
  }

  /** The writes of `process_file` over `names` in turn, with `recognise` giving each input path's events. */
  function OutputsFor(c: SpeechConfig, names: seq<string>, recognise: string -> seq<Event>): seq<Output>
    requires Complete(c)
  {
    if names == [] then []
    else OutputsFor(c, names[..|names| - 1], recognise)
           + FileOutputs(c, names[|names| - 1], Texts(UntilDone(recognise(InputPath(c, names[|names| - 1])))))
  }

  lemma OutputsForAppend(c: SpeechConfig, names: seq<string>, name: string, recognise: string -> seq<Event>)
    requires Complete(c)
    ensures OutputsFor(c, names + [name], recognise)
         == OutputsFor(c, names, recognise) + FileOutputs(c, name, Texts(UntilDone(recognise(InputPath(c, name)))))
  {
    assert (names + [name])[..|names|] == names;
  }

  /** `process_file(filename)`, with the recogniser's events for the input path as input. */
  method ProcessFile(c: SpeechConfig, filename: string, events: seq<Event>) returns (outputs: seq<Output>)
    requires Complete(c)
    ensures outputs == FileOutputs(c, filename, Texts(UntilDone(events)))
  {
    var results := CollectResults(events);
    if results != [] {
      outputs := WriteTranscript(c.transcriptsFolder.value, PyPath.Root(filename), TableName, filename, results, true);
    } else {
      outputs := [];
    }
  }

  /** One turn of the loop of `process_audio_files`, over the k-th listed name. */
  method ProcessListed(c: SpeechConfig, listing: seq<string>, k: nat, recognise: string -> seq<Event>,
                       processed: seq<string>, outputs: seq<Output>)
    returns (processed': seq<string>, outputs': seq<Output>)
    requires Complete(c) && k < |listing|
    requires processed == WithSuffix(listing[..k], c.audioExtension.value)
    requires outputs == OutputsFor(c, processed, recognise)
    ensures processed' == WithSuffix(listing[..k + 1], c.audioExtension.value)
    ensures outputs' == OutputsFor(c, processed', recognise)
  {
    var extension := c.audioExtension.value;
    var filename := listing[k];
    WithSuffixStep(listing, k, extension);
    if EndsWith(filename, extension) {
      var written := ProcessFile(c, filename, recognise(InputPath(c, filename)));
      OutputsForAppend(c, processed, filename, recognise);
      processed' := processed + [filename];
      outputs' := outputs + written;
    } else {
      processed', outputs' := processed, outputs;
    }
  }

  /**
   * `SpeechToText.process_audio_files`: the listed names ending in the
   * extension are processed in listing order, and no others.
   */
  method ProcessAudioFiles(c: SpeechConfig, listing: seq<string>, recognise: string -> seq<Event>)
    returns (processed: seq<string>, outputs: seq<Output>)
    requires Complete(c)
    ensures processed == WithSuffix(listing, c.audioExtension.value)
    ensures outputs == OutputsFor(c, processed, recognise)
  {
    processed, outputs := [], [];
    for k := 0 to |listing|
      invariant processed == WithSuffix(listing[..k], c.audioExtension.value)
      invariant outputs == OutputsFor(c, processed, recognise)
    {
      processed, outputs := ProcessListed(c, listing, k, recognise, processed, outputs);
    }
    assert listing[..|listing|] == listing;
  }

  /**
   * `azure_speech_to_text()`: validate, create the transcripts folder when
   * it does not exist, then process the samples folder. Every exception is
   * logged and swallowed, so an incomplete configuration, or a transcripts
   * folder of "" (for which `makedirs` raises), leaves no effect.
   */
  method RunAzureSpeechToText(env: Environment, existing: set<string>, listing: seq<string>,
                              recognise: string -> seq<Event>)
    returns (processed: seq<string>, outputs: seq<Output>)
    ensures var c := ConfigFromEnv(env);
      && (!Complete(c) || c.transcriptsFolder.value == "" ==> processed == [] && outputs == [])
      && (Complete(c) && c.transcriptsFolder.value != "" ==> processed == WithSuffix(listing, c.audioExtension.value))
      && (Complete(c) && c.transcriptsFolder.value != "" ==>
            outputs == (if c.transcriptsFolder.value in existing then [] else [MakeDirs(c.transcriptsFolder.value)])
                       + OutputsFor(c, processed, recognise))
  {
    var c := ConfigFromEnv(env);
    if Validate(c).Fail? {
      return [], [];
    }
    var made := MakeFolder(c.transcriptsFolder.value, existing);
    if made.None? {
      return [], [];
    }
    var written;
    processed, written := ProcessAudioFiles(c, listing, recognise);
    outputs := made.value + written;
  }
}
