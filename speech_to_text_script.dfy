/**
 * The stand-alone speech-to-text script: it checks its variables for being
 * unset or empty, and writes a transcript, a JSON list and database rows
 * for every audio file of the input folder, even when nothing was
 * recognised.
 */
module SpeechToTextScript {
  import opened Wrappers
  import opened PyStr
  import PyPath
  import opened Env
  import opened Outputs
  import opened SpeechRecognition
  import opened Transcripts
  import AzureSpeechToText

  /** The names `validate_environment_vars` checks, in its order. */
  const RequiredVars: seq<string> := ["API_KEY", "AUDIO_EXTENSION", "REGION", "INPUT_FOLDER", "OUTPUT_FOLDER"]

  /** `[var for var in names if not os.getenv(var)]` */
  function MissingVars(env: Environment, names: seq<string>): (missing: seq<string>)
    ensures |missing| <= |names|
    ensures forall n :: n in missing <==> n in names && !Truthy(GetEnv(env, n))
  {
    if names == [] then []
    else
      var init := names[..|names| - 1];
      var last := names[|names| - 1];
      assert forall n :: n in names <==> n in init || n == last by {
        assert names == init + [last];
      }
      MissingVars(env, init) + (if Truthy(GetEnv(env, last)) then [] else [last])
  }

  /** The missing names keep the order of the checked list. */
  lemma {:induction false} MissingVarsInOrder(env: Environment, names: seq<string>)
    ensures InOrder(MissingVars(env, names), names)
  {
    if names != [] {
      var init := names[..|names| - 1];
      var last := names[|names| - 1];
      MissingVarsInOrder(env, init);
      var before := MissingVars(env, init);
      var missing := MissingVars(env, names);
      assert missing == before + (if Truthy(GetEnv(env, last)) then [] else [last]);
      forall i, j | 0 <= i < j < |missing|
        ensures Before(names, missing[i], missing[j])
      {
        if j < |before| {
          assert missing[i] == before[i] && missing[j] == before[j];
          var p, q :| 0 <= p < q < |init| && init[p] == before[i] && init[q] == before[j];
          assert names[p] == missing[i] && names[q] == missing[j];
        } else {
          assert missing[j] == last && missing[i] == before[i];
          assert before[i] in init;
          var p :| 0 <= p < |init| && init[p] == before[i];
          assert names[p] == missing[i] && names[|names| - 1] == missing[j];
        }
      }
      assert InOrder(missing, names);
    } else {
      assert MissingVars(env, names) == [];
    }
  }

  /** `validate_environment_vars`: raises, after logging the missing names, iff some name is unset or empty. */
  function ValidateEnvironmentVars(env: Environment): (r: Outcome<seq<string>>)
    ensures r.Pass? <==> forall k :: 0 <= k < |RequiredVars| ==> Truthy(GetEnv(env, RequiredVars[k]))
    ensures r.Fail? ==> r.error != [] && forall n :: n in r.error <==> n in RequiredVars && !Truthy(GetEnv(env, n))
  {
    var missing := MissingVars(env, RequiredVars);
    assert missing == [] <==> forall k :: 0 <= k < |RequiredVars| ==> Truthy(GetEnv(env, RequiredVars[k])) by {
      if missing != [] {
        assert missing[0] in missing;
      }
    }
    if missing != [] then Fail(missing) else Pass
  }

  /** The writes for one listed file: always three, whatever was recognised, and committed once. */
  function FileOutputs(outputsFolder: string, filename: string, results: seq<string>): seq<Output> {
    TranscriptOutputs(outputsFolder, PyPath.Root(filename), "transcriptions", filename, results, false)
  }

  /** Unlike the module variants, an audio file with no recognised phrase still gets an empty transcript, an empty list and no rows. */
  lemma EmptyResultsStillWritten(outputsFolder: string, filename: string)
    ensures var out := FileOutputs(outputsFolder, filename, []);
      && |out| == 3
      && out[0] == TextFile(PyPath.Join(outputsFolder, PyPath.Root(filename) + ".txt"), "")
      && out[1] == JsonFile(PyPath.Join(outputsFolder, PyPath.Root(filename) + ".json"), JArray([]))
      && out[2].rows == [] && out[2].commits == [0]
  {
    assert StringArray([]).items == [];
  }

  /** The writes of the loop of `process_audio_files` over `names`, each file read from `samplesFolder`. */
  function OutputsFor(samplesFolder: string, outputsFolder: string, names: seq<string>,
                      recognise: string -> seq<Event>): seq<Output>
  {
    if names == [] then []
    else
      var name := names[|names| - 1];
      OutputsFor(samplesFolder, outputsFolder, names[..|names| - 1], recognise)
        + FileOutputs(outputsFolder, name, Texts(UntilDone(recognise(PyPath.Join(samplesFolder, name)))))
  }

  /** Every processed file contributes exactly three writes. */
  lemma {:induction false} OutputsForLength(samplesFolder: string, outputsFolder: string, names: seq<string>,
                                            recognise: string -> seq<Event>)
    ensures |OutputsFor(samplesFolder, outputsFolder, names, recognise)| == 3 * |names|
  {
    if names != [] {
      OutputsForLength(samplesFolder, outputsFolder, names[..|names| - 1], recognise);
    }
  }

  /** `write_to_text_file`, `write_to_json_file` and `write_to_sqlite` for one file. */
  method ProcessFile(samplesFolder: string, outputsFolder: string, filename: string, events: seq<Event>)
    returns (outputs: seq<Output>)
    ensures outputs == FileOutputs(outputsFolder, filename, Texts(UntilDone(events)))
  {
    var results := CollectResults(events);
    outputs := WriteTranscript(outputsFolder, PyPath.Root(filename), "transcriptions", filename, results, false);
  }

  /** `process_audio_files`: the listed names ending in the extension, in listing order, and no others. */
  method ProcessAudioFiles(samplesFolder: string, outputsFolder: string, extension: string, listing: seq<string>,
                           recognise: string -> seq<Event>)
    returns (processed: seq<string>, outputs: seq<Output>)
    ensures processed == WithSuffix(listing, extension)
    ensures outputs == OutputsFor(samplesFolder, outputsFolder, processed, recognise)
  {
    processed, outputs := [], [];
    for k := 0 to |listing|
      invariant processed == WithSuffix(listing[..k], extension)
      invariant outputs == OutputsFor(samplesFolder, outputsFolder, processed, recognise)
    {
      var filename := listing[k];
      assert listing[..k + 1] == listing[..k] + [filename];
      WithSuffixAppend(listing[..k], [filename], extension);
      if EndsWith(filename, extension) {
        assert WithSuffix([filename], extension) == [filename];
        var written := ProcessFile(samplesFolder, outputsFolder, filename,
                                   recognise(PyPath.Join(samplesFolder, filename)));
        assert (processed + [filename])[..|processed|] == processed;
        processed := processed + [filename];
        outputs := outputs + written;
      } else {
        assert WithSuffix([filename], extension) == [];
        assert processed + [] == processed;
      }
    }
    assert listing[..|listing|] == listing;
  }

  /**
   * The script's `__main__` block: validate, create the output folder when
   * it does not exist, then process the input folder. A failed check is
   * logged and swallowed and leaves no effect.
   */
  method RunScript(env: Environment, existing: set<string>, listing: seq<string>, recognise: string -> seq<Event>)
    returns (processed: seq<string>, outputs: seq<Output>)
    ensures ValidateEnvironmentVars(env).Fail? ==> processed == [] && outputs == []
    ensures ValidateEnvironmentVars(env).Pass? ==>
      && "AUDIO_EXTENSION" in env && "INPUT_FOLDER" in env && "OUTPUT_FOLDER" in env
      && var samples, out := env["INPUT_FOLDER"], env["OUTPUT_FOLDER"];
      && processed == WithSuffix(listing, env["AUDIO_EXTENSION"])
      && outputs == (if out in existing then [] else [MakeDirs(out)]) + OutputsFor(samples, out, processed, recognise)
  {
    if ValidateEnvironmentVars(env).Fail? {
      return [], [];
    }
    assert RequiredVars[1] == "AUDIO_EXTENSION" && RequiredVars[3] == "INPUT_FOLDER" && RequiredVars[4] == "OUTPUT_FOLDER";
    var samples, out := env["INPUT_FOLDER"], env["OUTPUT_FOLDER"];
    var made := if out in existing then [] else [MakeDirs(out)];
    var written;
    processed, written := ProcessAudioFiles(samples, out, env["AUDIO_EXTENSION"], listing, recognise);
    outputs := made + written;
  }

  /**
   * The script and the module differ on empty values: with every variable
   * set but `API_KEY` empty, the module's `is None` check passes while the
   * script's `not os.getenv(...)` check fails and names `API_KEY`.
   */
  lemma EmptyValueSeparatesChecks(env: Environment)
    requires "API_KEY" in env && "REGION" in env && "AUDIO_EXTENSION" in env
    requires "SAMPLES_FOLDER" in env && "TRANSCRIPTS_FOLDER" in env
    requires env["API_KEY"] == ""
    ensures AzureSpeechToText.Validate(AzureSpeechToText.ConfigFromEnv(env)).Pass?
    ensures ValidateEnvironmentVars(env).Fail?
    ensures "API_KEY" in ValidateEnvironmentVars(env).error
  {
    AzureSpeechToText.ValidateFromEnv(env);
    assert RequiredVars[0] == "API_KEY";
    assert !Truthy(GetEnv(env, RequiredVars[0]));
  }
}
