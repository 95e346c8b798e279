/**
 * `transcribe_audio_files`: transcribe one given audio file, or every file
 * of the input folder with the configured extension, writing a transcript
 * for each file that yields at least one phrase.
 */
module TranscribeAudioFiles {
  import opened Wrappers
  import opened PyStr
  import PyPath
  import opened Env
  import opened Outputs
  import opened SpeechRecognition
  import opened Transcripts

  /** `Config` together with the module-level `AUDIO_EXTENSION`. */
  datatype TranscribeConfig = TranscribeConfig(
    apiKey: Option<string>,
    region: Option<string>,
    inputFolder: Option<string>,
    transcriptsFolder: Option<string>,
    tableName: Option<string>,
    audioExtension: Option<string>)

  function ConfigFromEnv(env: Environment): TranscribeConfig {
    TranscribeConfig(
      GetEnv(env, "AZURE_AUDIO_TEXT_KEY"),
      GetEnv(env, "REGION"),
      GetEnv(env, "INPUT_FOLDER"),
      GetEnv(env, "TRANSCRIPTS_FOLDER"),
      GetEnv(env, "TRANSCRIPTS_DB_TABLE_NAME"),
      GetEnv(env, "AUDIO_EXTENSION"))
  }

  /** The six settings `Config.validate` requires, in its order. */
  function Settings(c: TranscribeConfig): seq<Option<string>> {
    [c.apiKey, c.region, c.inputFolder, c.transcriptsFolder, c.tableName, c.audioExtension]
  }

  predicate Complete(c: TranscribeConfig) {
    c.apiKey.Some? && c.region.Some? && c.inputFolder.Some? && c.transcriptsFolder.Some?
      && c.tableName.Some? && c.audioExtension.Some?
  }

  /** `Config.validate`: `EnvironmentError` when any setting is `None`. An empty value passes. */
  function Validate(c: TranscribeConfig): (r: Outcome<string>)
    ensures r.Pass? <==> Complete(c)
  {
    var settings := Settings(c);
    assert Complete(c) <==> forall k :: 0 <= k < |settings| ==> settings[k].Some? by {
      assert settings[0] == c.apiKey && settings[1] == c.region && settings[2] == c.inputFolder;
      assert settings[3] == c.transcriptsFolder && settings[4] == c.tableName && settings[5] == c.audioExtension;
    }
    RequireAll(settings)
  }

  /** The check fails exactly when one of the six variables is unset. */
  lemma ValidateFromEnv(env: Environment)
    ensures Validate(ConfigFromEnv(env)).Pass? <==>
      && "AZURE_AUDIO_TEXT_KEY" in env && "REGION" in env && "INPUT_FOLDER" in env
      && "TRANSCRIPTS_FOLDER" in env && "TRANSCRIPTS_DB_TABLE_NAME" in env && "AUDIO_EXTENSION" in env
  {
  }

  /** `os.path.splitext(os.path.basename(file_path))[0]` */
  function OutputStem(filePath: string): string {
    PyPath.Root(PyPath.Basename(filePath))
  }

  /** What `process_file` writes for `filePath` once recognition has produced `results`: nothing for no phrase. */
  function FileOutputs(c: TranscribeConfig, filePath: string, results: seq<string>): seq<Output>
    requires Complete(c)
  {
    if results == [] then []
    else TranscriptOutputs(c.transcriptsFolder.value, OutputStem(filePath), c.tableName.value,
                           PyPath.Basename(filePath), results, false)
  }

  /** An audio file with no recognised phrase leaves no trace; otherwise three files are written. */
  lemma FileOutputsWritten(c: TranscribeConfig, filePath: string, results: seq<string>)
    requires Complete(c)
    ensures FileOutputs(c, filePath, results) == [] <==> results == []
    ensures results != [] ==> |FileOutputs(c, filePath, results)| == 3
  {
  }

  /** For an audio file in a folder, the outputs are named after the bare file name. */
  lemma OutputsOfJoin(c: TranscribeConfig, folder: string, name: string, results: seq<string>)
    requires Complete(c) && results != []
    requires name != [] && '/' !in name
    ensures FileOutputs(c, PyPath.Join(folder, name), results)
      == TranscriptOutputs(c.transcriptsFolder.value, PyPath.Root(name), c.tableName.value, name, results, false)
  {
    PyPath.BasenameOfJoin(folder, name);
  }

  /**
   * For an audio file named without '/', the outputs are `<stem>.txt`,
   * `<stem>.json` and `transcriptions.db` in the transcripts folder, the
   * stem being the name without its last extension.
   */
  lemma OutputPaths(c: TranscribeConfig, folder: string, name: string, results: seq<string>)
    requires Complete(c) && results != []
    requires name != [] && '/' !in name
    ensures var out := FileOutputs(c, PyPath.Join(folder, name), results);
      && out[0].path == PyPath.Join(c.transcriptsFolder.value, PyPath.Root(name) + ".txt")
      && out[1].path == PyPath.Join(c.transcriptsFolder.value, PyPath.Root(name) + ".json")
      && out[2].path == PyPath.Join(c.transcriptsFolder.value, "transcriptions.db")
  {
    OutputsOfJoin(c, folder, name, results);
  }

  /** Every database row names the audio file by its bare name, followed by one phrase. */
  lemma RowsNameAudioFile(c: TranscribeConfig, folder: string, name: string, results: seq<string>)
    requires Complete(c) && results != []
    requires name != [] && '/' !in name
    ensures var out := FileOutputs(c, PyPath.Join(folder, name), results);
      forall k :: 0 <= k < |results| ==> out[2].rows[k].cells == [Text(name), Text(results[k])]
  {
    OutputsOfJoin(c, folder, name, results);
  }

  /**
   * Whether `open` can create the outputs: the transcripts folder exists,
   * or it is "" and the outputs go to the working directory. Nothing in the
   * module creates that folder.
   */
  predicate FolderWritable(c: TranscribeConfig, existing: set<string>)
    requires Complete(c)
  {
    c.transcriptsFolder.value == "" || c.transcriptsFolder.value in existing
  }

  /**
   * `process_file(file_path)` once recognition has produced `results`:
   * nothing for no phrase; otherwise the three writes, or, when the
   * transcripts folder is missing, the first `open` raising before any.
   */
  function FileSaved(c: TranscribeConfig, existing: set<string>, filePath: string, results: seq<string>): Saved
    requires Complete(c)
  {
    if results != [] && !FolderWritable(c, existing) then Saved([], true)
    else Saved(FileOutputs(c, filePath, results), false)
  }

  /** `process_file(file_path)`, with the recogniser's events for that file as input. */
  method ProcessFile(c: TranscribeConfig, existing: set<string>, filePath: string, events: seq<Event>)
    returns (saved: Saved)
    requires Complete(c)
    ensures var results := Texts(UntilDone(events));
      && saved == FileSaved(c, existing, filePath, results)
      && (saved.raised <==> results != [] && !FolderWritable(c, existing))
      && (saved.raised ==> saved.outputs == [])
      && (!saved.raised ==> saved.outputs == FileOutputs(c, filePath, results))
  {
    var results := CollectResults(events);
    if results == [] {
      saved := Saved([], false);
    } else if !FolderWritable(c, existing) {
      saved := Saved([], true);
    } else {
      var written := WriteTranscript(c.transcriptsFolder.value, OutputStem(filePath), c.tableName.value,
                                     PyPath.Basename(filePath), results, false);
      saved := Saved(written, false);
    }
  }

  /** The paths `process_audio_files` hands to `process_file` when it scans the folder. */
  function ScannedPaths(folder: string, names: seq<string>, existing: set<string>): seq<string> {
    if names == [] then []
    else
      var path := PyPath.Join(folder, names[|names| - 1]);
      ScannedPaths(folder, names[..|names| - 1], existing) + (if path in existing then [path] else [])
  }

  /** A scanned path is an existing path built from a listed name with the extension. */
  lemma {:induction false} ScannedPathsMembers(folder: string, listing: seq<string>, extension: string,
                                               existing: set<string>, path: string)
    ensures path in ScannedPaths(folder, WithSuffix(listing, extension), existing) <==>
      path in existing && exists k :: 0 <= k < |listing| && EndsWith(listing[k], extension) && path == PyPath.Join(folder, listing[k])
  {
    var names := WithSuffix(listing, extension);
    ScannedPathsFrom(folder, names, existing, path);
    if path in ScannedPaths(folder, names, existing) {
      var j :| 0 <= j < |names| && path == PyPath.Join(folder, names[j]);
      assert names[j] in names;
      WithSuffixMembers(listing, extension, names[j]);
      var k :| 0 <= k < |listing| && listing[k] == names[j];
      assert EndsWith(listing[k], extension);
    }
    if path in existing && exists k :: 0 <= k < |listing| && EndsWith(listing[k], extension) && path == PyPath.Join(folder, listing[k]) {
      var k :| 0 <= k < |listing| && EndsWith(listing[k], extension) && path == PyPath.Join(folder, listing[k]);
      assert listing[k] in listing;
      WithSuffixMembers(listing, extension, listing[k]);
      assert listing[k] in names;
      var j :| 0 <= j < |names| && names[j] == listing[k];
    }
  }

  lemma {:induction false} ScannedPathsFrom(folder: string, names: seq<string>, existing: set<string>, path: string)
    ensures path in ScannedPaths(folder, names, existing) <==>
      path in existing && exists j :: 0 <= j < |names| && path == PyPath.Join(folder, names[j])
  {
    if names != [] {
      var init := names[..|names| - 1];
      ScannedPathsFrom(folder, init, existing, path);
      if exists j :: 0 <= j < |names| && path == PyPath.Join(folder, names[j]) {
        var j :| 0 <= j < |names| && path == PyPath.Join(folder, names[j]);
        if j < |init| {
          assert init[j] == names[j];
        }
      }
      if exists j :: 0 <= j < |init| && path == PyPath.Join(folder, init[j]) {
        var j :| 0 <= j < |init| && path == PyPath.Join(folder, init[j]);
        assert names[j] == init[j];
      }
    }
  }

  /** The writes of `process_file` over `paths` in turn, with `recognise` giving each path's events. */
  function OutputsFor(c: TranscribeConfig, paths: seq<string>, recognise: string -> seq<Event>): seq<Output>
    requires Complete(c)
  {
    if paths == [] then []
    else OutputsFor(c, paths[..|paths| - 1], recognise)
           + FileOutputs(c, paths[|paths| - 1], Texts(UntilDone(recognise(paths[|paths| - 1]))))
  }

  lemma OutputsForAppend(c: TranscribeConfig, paths: seq<string>, path: string, recognise: string -> seq<Event>)
    requires Complete(c)
    ensures OutputsFor(c, paths + [path], recognise)
         == OutputsFor(c, paths, recognise) + FileOutputs(c, path, Texts(UntilDone(recognise(path))))
  {
    assert (paths + [path])[..|paths|] == paths;
  }

  lemma ScannedPathsAppend(folder: string, names: seq<string>, name: string, existing: set<string>)
    ensures ScannedPaths(folder, names + [name], existing)
         == ScannedPaths(folder, names, existing) + (if PyPath.Join(folder, name) in existing then [PyPath.Join(folder, name)] else [])
  {
    assert (names + [name])[..|names|] == names;
  }

  /** The turn of the scan for the listed name `name`: `process_file` on its path when that exists, a logged error otherwise. */
  function NameSaved(c: TranscribeConfig, existing: set<string>, name: string, recognise: string -> seq<Event>): Saved
    requires Complete(c)
  {
    var path := PyPath.Join(c.inputFolder.value, name);
    if path in existing then FileSaved(c, existing, path, Texts(UntilDone(recognise(path)))) else Saved([], false)
  }

  /** The turns of the scan over the names `names`, in order. */
  function NamesSaved(c: TranscribeConfig, existing: set<string>, names: seq<string>, recognise: string -> seq<Event>)
    : (saves: seq<Saved>)
    requires Complete(c)
    ensures |saves| == |names|
  {
    seq(|names|, i requires 0 <= i < |names| => NameSaved(c, existing, names[i], recognise))
  }

  /** Whether the scan's turn for `name` raises: its file exists, yields a phrase, and the transcripts folder is missing. */
  predicate NameFails(c: TranscribeConfig, existing: set<string>, name: string, recognise: string -> seq<Event>)
    requires Complete(c)
  {
    var path := PyPath.Join(c.inputFolder.value, name);
    path in existing && Texts(UntilDone(recognise(path))) != [] && !FolderWritable(c, existing)
  }

  /**
   * The scan is ended by an exception exactly when the transcripts folder
   * is missing and some scanned file yields a phrase.
   */
  lemma StopsIffSomeFails(c: TranscribeConfig, existing: set<string>, names: seq<string>, recognise: string -> seq<Event>)
    requires Complete(c)
    ensures Run(NamesSaved(c, existing, names, recognise)).stopped <==>
      exists i :: 0 <= i < |names| && NameFails(c, existing, names[i], recognise)
  {
    var saves := NamesSaved(c, existing, names, recognise);
    StopsIffSomeRaises(saves);
    forall i | 0 <= i < |names| ensures saves[i].raised <==> NameFails(c, existing, names[i], recognise) {
      assert saves[i] == NameSaved(c, existing, names[i], recognise);
    }
  }

  /**
   * With the transcripts folder in place nothing raises, and the scan
   * writes the outputs of every scanned path, in order.
   */
  lemma {:induction false} WritableScanWritesAll(c: TranscribeConfig, existing: set<string>, names: seq<string>,
                                                 recognise: string -> seq<Event>)
    requires Complete(c) && FolderWritable(c, existing)
    ensures Run(NamesSaved(c, existing, names, recognise))
         == Progress(OutputsFor(c, ScannedPaths(c.inputFolder.value, names, existing), recognise), false)
  {
    if names != [] {
      var n := |names| - 1;
      var init, name := names[..n], names[n];
      var saves := NamesSaved(c, existing, names, recognise);
      assert saves[..n] == NamesSaved(c, existing, init, recognise);
      WritableScanWritesAll(c, existing, init, recognise);
      RunStep(saves, n);
      assert saves[..n + 1] == saves;
      assert names == init + [name];
      ScannedPathsAppend(c.inputFolder.value, init, name, existing);
      var path := PyPath.Join(c.inputFolder.value, name);
      if path in existing {
        OutputsForAppend(c, ScannedPaths(c.inputFolder.value, init, existing), path, recognise);
      } else {
        assert ScannedPaths(c.inputFolder.value, init, existing) + [] == ScannedPaths(c.inputFolder.value, init, existing);
      }
    }
  }

  /**
   * `SpeechToText.process_audio_files(file_path)`: a truthy `file_path` is
   * processed alone, whatever its extension, when it exists; otherwise the
   * listed names ending in the extension are joined to the input folder and
   * the existing ones processed in listing order, until one raises.
   */
  method ProcessAudioFiles(c: TranscribeConfig, filePath: Option<string>, listing: seq<string>,
                           existing: set<string>, recognise: string -> seq<Event>)
    returns (outputs: seq<Output>, stopped: bool)
    requires Complete(c)
    ensures Truthy(filePath) && filePath.value in existing ==>
      var saved := FileSaved(c, existing, filePath.value, Texts(UntilDone(recognise(filePath.value))));
      outputs == saved.outputs && stopped == saved.raised
    ensures Truthy(filePath) && filePath.value !in existing ==> outputs == [] && !stopped
    ensures !Truthy(filePath) ==>
      Progress(outputs, stopped) == Run(NamesSaved(c, existing, WithSuffix(listing, c.audioExtension.value), recognise))
  {
    if !Truthy(filePath) {
      outputs, stopped := ScanFolder(c, listing, existing, recognise);
    } else if filePath.value in existing {
      var saved := ProcessFile(c, existing, filePath.value, recognise(filePath.value));
      outputs, stopped := saved.outputs, saved.raised;
    } else {
      outputs, stopped := [], false;
    }
  }

  /** One turn of the scan, for the k-th name of `names`, the earlier ones having gone through. */
  method ScanNext(c: TranscribeConfig, names: seq<string>, k: nat, existing: set<string>,
                  recognise: string -> seq<Event>, ghost saves: seq<Saved>, before: seq<Output>)
    returns (after: seq<Output>, raised: bool)
    requires Complete(c) && k < |names| == |saves|
    requires saves[k] == NameSaved(c, existing, names[k], recognise)
    requires Run(saves[..k]) == Progress(before, false)
    ensures Run(saves[..k + 1]) == Progress(after, raised)
  {
    var fullPath := PyPath.Join(c.inputFolder.value, names[k]);
    RunStep(saves, k);
    if fullPath in existing {
      var saved := ProcessFile(c, existing, fullPath, recognise(fullPath));
      after, raised := before + saved.outputs, saved.raised;
    } else {
      after, raised := before, false;
      assert before + saves[k].outputs == before;
    }
  }

  /** The `else` branch of `process_audio_files`: the scan of the input folder. */
  method ScanFolder(c: TranscribeConfig, listing: seq<string>, existing: set<string>, recognise: string -> seq<Event>)
    returns (outputs: seq<Output>, stopped: bool)
    requires Complete(c)
    ensures Progress(outputs, stopped) == Run(NamesSaved(c, existing, WithSuffix(listing, c.audioExtension.value), recognise))
  {
    var names := WithSuffix(listing, c.audioExtension.value);
    ghost var saves := NamesSaved(c, existing, names, recognise);
    outputs, stopped := [], false;
    var k := 0;
    while k < |names| && !stopped
      invariant k <= |names|
      invariant Run(saves[..k]) == Progress(outputs, stopped)
      decreases |names| - k
    {
      outputs, stopped := ScanNext(c, names, k, existing, recognise, saves, outputs);
      k := k + 1;
    }
    if stopped {
      StoppedStays(saves, k);
    } else {
      assert saves[..k] == saves;
    }
  }

  /**
   * `transcribe_audio_files(file_path)`: every exception is logged and
   * swallowed, so an incomplete configuration ends the call with nothing
   * written, and a missing transcripts folder ends it at the first file
   * that yields a phrase.
   */
  method RunTranscribeAudioFiles(env: Environment, filePath: Option<string>, listing: seq<string>,
                                 existing: set<string>, recognise: string -> seq<Event>)
    returns (outputs: seq<Output>)
    ensures var c := ConfigFromEnv(env);
      && (!Complete(c) ==> outputs == [])
      && (Complete(c) && Truthy(filePath) ==>
            outputs == (if filePath.value in existing
                        then FileSaved(c, existing, filePath.value, Texts(UntilDone(recognise(filePath.value)))).outputs
                        else []))
      && (Complete(c) && !Truthy(filePath) ==>
            outputs == Run(NamesSaved(c, existing, WithSuffix(listing, c.audioExtension.value), recognise)).outputs)
  {
    var c := ConfigFromEnv(env);
    if Validate(c).Fail? {
      return [];
    }
    var stopped;
    outputs, stopped := ProcessAudioFiles(c, filePath, listing, existing, recognise);
  }
}
