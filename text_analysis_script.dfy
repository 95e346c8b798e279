/**
 * The top-level `azure_text_analysis.py` script: with one client for the
 * whole run, analyse every `.txt` transcript of OUTPUT_FOLDER and save its
 * summary, its JSON report and a database row in the fixed `Analysis`
 * folder. As in the package's variant, a result list the client returned
 * empty raises and ends the run.
 */
module TextAnalysisScript {
  import opened Wrappers
  import opened PyStr
  import PyPath
  import opened Env
  import opened Outputs
  import opened TextAnalytics

  const TableName := "text_analysis"

  /** Where `save_results` writes, whatever ANALYSIS_FOLDER says. */
  const AnalysisFolder := "Analysis"

  datatype ScriptConfig = ScriptConfig(
    endpoint: Option<string>,
    key: Option<string>,
    inputFolder: Option<string>,
    outputFolder: Option<string>)

  function ConfigFromEnv(env: Environment): ScriptConfig {
    ScriptConfig(
      GetEnv(env, "AZURE_LANGUAGE_ENDPOINT"),
      GetEnv(env, "AZURE_LANGUAGE_KEY"),
      GetEnv(env, "OUTPUT_FOLDER"),
      GetEnv(env, "ANALYSIS_FOLDER"))
  }

  /** `Config.validate`: `EnvironmentError` when the endpoint, the key or the input folder is `None`. */
  function Validate(c: ScriptConfig): (r: Outcome<string>)
    ensures r.Pass? <==> c.endpoint.Some? && c.key.Some? && c.inputFolder.Some?
  {
    var required := [c.endpoint, c.key, c.inputFolder, Some(TableName)];
    assert (c.endpoint.Some? && c.key.Some? && c.inputFolder.Some?) <==>
      forall k :: 0 <= k < |required| ==> required[k].Some? by {
      assert required[0] == c.endpoint && required[1] == c.key && required[2] == c.inputFolder;
      assert required[3].Some?;
    }
    RequireAll(required)
  }

  /** The output folder takes no part in validation. */
  lemma ValidateIgnoresOutputFolder(c: ScriptConfig, folder: Option<string>)
    ensures Validate(c.(outputFolder := folder)) == Validate(c)
  {
    var d := c.(outputFolder := folder);
    if Validate(c).Pass? {
      assert Validate(d).Pass?;
    }
  }

  // The summary lines of this script: each is a bullet indented by three
  // spaces and ends a line, the line on personal information included.

  const Bullet := "   • "
  // The label both PII verdict lines share.
  const PiiLabel := "Personally identifiable " + "information (PII): "
  const ScriptPiiYes := Bullet + PiiLabel + "Yes.\n"
  const ScriptPiiNo := Bullet + PiiLabel + "No.\n"

  function ScriptSentimentLines(d: SentimentDoc): seq<string> {
    [Bullet + "Overall Sentiment: " + d.sentiment + ".\n",
     Bullet + "Sentiment Scores - Positive: " + d.scores.positive.fixed2 + ", Neutral: " + d.scores.neutral.fixed2
       + ", Negative: " + d.scores.negative.fixed2 + "\n"]
  }

  function ScriptPiiLine(d: PiiDoc): string {
    if d.entities != [] then ScriptPiiYes else ScriptPiiNo
  }

  /** The writes for the k-th result key, from the first document of its list. */
  function SectionWrites(r: Responses, k: nat): seq<string>
    requires k < |ResultKeys| && !Missing(r, k)
  {
    if k == 0 then ScriptSentimentLines(r.sentiment[0])
    else if k == 1 then
      (if r.entities[0].entities == [] then []
       else [Bullet + "Key Entities Identified: " + KeyEntities(r.entities[0].entities) + ".\n"])
    else if k == 2 then
      (if r.keyPhrases[0].keyPhrases == [] then []
       else [Bullet + "Notable Topics: " + Join(", ", Take(r.keyPhrases[0].keyPhrases, 5)) + ".\n"])
    else if k == 3 then
      [Bullet + "Detected Language: " + r.language[0].primaryLanguage.name
         + " (" + r.language[0].primaryLanguage.iso6391Name + ").\n"]
    else [ScriptPiiLine(r.pii[0])]
  }

  /** The writes for the k-th key when the summary gets that far, before the first missing list. */
  function SectionIfReached(r: Responses, k: nat): seq<string>
    requires k < |ResultKeys|
  {
    if k < FirstMissing(r) then SectionWrites(r, k) else []
  }

  /** The `file.write` calls of `save_results` on the summary: the header, then the sections up to the first missing list. */
  function SummaryWrites(file: string, time: string, r: Responses): seq<string> {
    Header(file, time) + SectionIfReached(r, 0) + SectionIfReached(r, 1) + SectionIfReached(r, 2)
      + SectionIfReached(r, 3) + SectionIfReached(r, 4)
  }

  predicate IsBullet(w: string) {
    StartsWith(w, Bullet) && |w| > |Bullet| && w[|w| - 1] == '\n'
  }

  /** Every write after the header is a bullet that ends a line. */
  lemma SectionsAreBullets(r: Responses, k: nat)
    requires k < |ResultKeys|
    ensures forall i :: 0 <= i < |SectionIfReached(r, k)| ==> IsBullet(SectionIfReached(r, k)[i])
  {
  }

  /**
   * The summary's last write is the line on personal information exactly
   * when no list is missing, and that line says whether the first PII
   * result has entities.
   */
  lemma SummaryEnding(file: string, time: string, r: Responses)
    ensures var writes := SummaryWrites(file, time, r);
      FirstMissing(r) == |ResultKeys| ==>
        && writes[|writes| - 1] == ScriptPiiLine(r.pii[0])
        && EndsWith(Concat(writes), ScriptPiiYes) == (r.pii[0].entities != [])
  {
    var writes := SummaryWrites(file, time, r);
    if FirstMissing(r) == |ResultKeys| {
      var before := writes[..|writes| - 1];
      var line := ScriptPiiLine(r.pii[0]);
      assert writes == before + [line];
      ConcatAppend(before, [line]);
      assert Concat([line]) == Concat([]) + line;
      var text := Concat(writes);
      assert text[|text| - |line|..] == line;
      if r.pii[0].entities == [] {
        assert text[|text| - 3] == 'o';
      }
    }
  }

  predicate NoPiiLine(writes: seq<string>) {
    forall i :: 0 <= i < |writes| ==> writes[i] != ScriptPiiYes && writes[i] != ScriptPiiNo
  }

  lemma NoPiiLineAppend(a: seq<string>, b: seq<string>)
    requires NoPiiLine(a) && NoPiiLine(b)
    ensures NoPiiLine(a + b)
  {
  }

  lemma PiiLinesShape()
    ensures |Bullet| == 5 && ScriptPiiYes[5] == 'P' && ScriptPiiNo[5] == 'P'
  {
    assert |Bullet| == 5;
  }

  /** No write of the header or of the first four sections is the line on personal information. */
  lemma SectionHasNoPiiLine(r: Responses, k: nat)
    requires k < 4
    ensures NoPiiLine(SectionIfReached(r, k))
  {
    var ws := SectionIfReached(r, k);
    forall i | 0 <= i < |ws| ensures ws[i] != ScriptPiiYes && ws[i] != ScriptPiiNo {
      PiiLinesShape();
      if k == 0 {
        assert ws[i][5] == 'O' || ws[i][5] == 'S';
      } else if k == 1 {
        assert ws[i][5] == 'K';
      } else if k == 2 {
        assert ws[i][5] == 'N';
      } else {
        assert ws[i][5] == 'D';
      }
    }
  }

  /** A summary cut short by a missing list holds no line on personal information. */
  lemma SummaryCutShort(file: string, time: string, r: Responses)
    requires FirstMissing(r) < |ResultKeys|
    ensures NoPiiLine(SummaryWrites(file, time, r))
  {
    var h := Header(file, time);
    assert NoPiiLine(h) by {
      forall i | 0 <= i < |h| ensures h[i] != ScriptPiiYes && h[i] != ScriptPiiNo {
        assert h[i][0] != ScriptPiiYes[0];
      }
    }
    SectionHasNoPiiLine(r, 0);
    SectionHasNoPiiLine(r, 1);
    SectionHasNoPiiLine(r, 2);
    SectionHasNoPiiLine(r, 3);
    NoPiiLineAppend(h, SectionIfReached(r, 0));
    NoPiiLineAppend(h + SectionIfReached(r, 0), SectionIfReached(r, 1));
    NoPiiLineAppend(h + SectionIfReached(r, 0) + SectionIfReached(r, 1), SectionIfReached(r, 2));
    NoPiiLineAppend(h + SectionIfReached(r, 0) + SectionIfReached(r, 1) + SectionIfReached(r, 2), SectionIfReached(r, 3));
    assert SectionIfReached(r, 4) == [];
    assert SummaryWrites(file, time, r) == h + SectionIfReached(r, 0) + SectionIfReached(r, 1) + SectionIfReached(r, 2)
      + SectionIfReached(r, 3) + [];
  }

  /** The summary and the JSON report of a transcript: `<stem>_analysis.txt` and `<stem>_analysis.json` in `Analysis`. */
  function ScriptTxtPath(filename: string): string {
    ReportPath(AnalysisFolder, filename, "_analysis.txt")
  }

  function ScriptJsonPath(filename: string): string {
    ReportPath(AnalysisFolder, filename, "_analysis.json")
  }

  /** The writes `save_results(filename, results)` makes at `time` before its report: `Analysis` if missing, then the summary. */
  function SaveHead(dirs: set<string>, filename: string, r: Responses, time: string): seq<Output> {
    var made := if AnalysisFolder in dirs then [] else [MakeDirs(AnalysisFolder)];
    made + [TextFile(ScriptTxtPath(filename), Concat(SummaryWrites(filename, time, r)))]
  }

  /** The report `report` in the JSON file, and one row holding the bare file name and that report. */
  function ReportWrites(filename: string, report: Json): seq<Output> {
    [JsonFile(ScriptJsonPath(filename), report),
     Sqlite(PyPath.Join(AnalysisFolder, AnalysisDatabase), [Row(TableName, [Text(filename), JsonText(report)])], [1, 1])]
  }

  /**
   * `save_results(filename, results)` at `time`, with `dirs` the folders
   * that exist and `report` the JSON it writes: the head, then, if the
   * summary did not raise, the report writes.
   */
  function SaveWith(dirs: set<string>, filename: string, r: Responses, time: string, report: Json): (s: Saved)
    ensures s.raised <==> FirstMissing(r) < |ResultKeys|
  {
    var head := SaveHead(dirs, filename, r, time);
    if FirstMissing(r) < |ResultKeys| then Saved(head, true)
    else Saved(head + ReportWrites(filename, report), false)
  }

  /** `save_results` as written: the report is `convert_to_serializable(results)`, the string form of the dict. */
  function SaveResults(dirs: set<string>, filename: string, r: Responses, time: string): Saved {
    SaveWith(dirs, filename, r, time, AsWrittenReport(r))
  }

  /** `save_results` as intended: the report is the results dict converted key by key. */
  function IntendedSaveResults(dirs: set<string>, filename: string, r: Responses, time: string): Saved {
    SaveWith(dirs, filename, r, time, CorrectedReport(r))
  }

  /**
   * As written, a complete save stores one string, the `str()` of the
   * results dict, in the JSON file and the row; the intended save makes
   * the same writes except that both hold the converted dict.
   */
  lemma SaveResultsReport(dirs: set<string>, filename: string, r: Responses, time: string)
    ensures var s := SaveResults(dirs, filename, r, time);
      var i := IntendedSaveResults(dirs, filename, r, time);
      && i.raised == s.raised
      && (s.raised ==> i.outputs == s.outputs)
      && (!s.raised ==>
            var n := |s.outputs|;
            && n >= 2 && |i.outputs| == n && i.outputs[..n - 2] == s.outputs[..n - 2]
            && s.outputs[n - 2].JsonFile? && s.outputs[n - 2].value.JStr?
            && StartsWith(s.outputs[n - 2].value.s, "{'" + ResultKeys[0] + "': ")
            && s.outputs[n - 1].rows == [Row(TableName, [Text(filename), JsonText(s.outputs[n - 2].value)])]
            && i.outputs[n - 2..] == ReportWrites(filename, CorrectedReport(r)))
  {
    var head := SaveHead(dirs, filename, r, time);
    if FirstMissing(r) == |ResultKeys| {
      var s := SaveResults(dirs, filename, r, time);
      var i := IntendedSaveResults(dirs, filename, r, time);
      var written, intended := ReportWrites(filename, AsWrittenReport(r)), ReportWrites(filename, CorrectedReport(r));
      assert s.outputs == head + written;
      assert i.outputs == head + intended;
      assert s.outputs[..|head|] == head && s.outputs[|head|..] == written;
      assert i.outputs[..|head|] == head && i.outputs[|head|..] == intended;
    }
  }

  /**
   * The intended save, when it completes, writes a JSON object mapping
   * each of the five keys, in order, to a non-empty array, and stores the
   * same object in the row.
   */
  lemma IntendedSaveReport(dirs: set<string>, filename: string, r: Responses, time: string)
    ensures var i := IntendedSaveResults(dirs, filename, r, time);
      !i.raised ==>
        var n := |i.outputs|;
        && n >= 2 && i.outputs[n - 2].JsonFile? && i.outputs[n - 2].path == ScriptJsonPath(filename)
        && var j := i.outputs[n - 2].value;
        && j.JObject? && |j.members| == |ResultKeys|
        && (forall k :: 0 <= k < |ResultKeys| ==>
              j.members[k].key == ResultKeys[k] && j.members[k].value.JArray? && j.members[k].value.items != [])
        && i.outputs[n - 1].rows == [Row(TableName, [Text(filename), JsonText(j)])]
  {
    if FirstMissing(r) == |ResultKeys| {
      var i := IntendedSaveResults(dirs, filename, r, time);
      var head := SaveHead(dirs, filename, r, time);
      var intended := ReportWrites(filename, CorrectedReport(r));
      assert i.outputs == head + intended;
      assert i.outputs[|i.outputs| - 2] == intended[0];
      assert i.outputs[|i.outputs| - 1] == intended[1];
      CompleteReportHasNoNull(r);
    }
  }

  /** The folders that exist when the k-th transcript is saved: the first save has made `Analysis`. */
  function DirsAt(dirs: set<string>, k: nat): (d: set<string>)
    ensures dirs <= d && (k > 0 ==> AnalysisFolder in d)
  {
    if k == 0 then dirs else dirs + {AnalysisFolder}
  }

  /** Only the first save may make `Analysis`; every save writes the summary of its transcript. */
  lemma SavesMakeAnalysisOnce(dirs: set<string>, filename: string, r: Responses, time: string, k: nat)
    ensures var s := SaveResults(DirsAt(dirs, k), filename, r, time);
      && (s.outputs[0] == MakeDirs(AnalysisFolder) <==> k == 0 && AnalysisFolder !in dirs)
      && (exists i :: 0 <= i < |s.outputs| && s.outputs[i] == TextFile(ScriptTxtPath(filename), Concat(SummaryWrites(filename, time, r))))
  {
    var s := SaveResults(DirsAt(dirs, k), filename, r, time);
    if AnalysisFolder in DirsAt(dirs, k) {
      assert s.outputs[0] == TextFile(ScriptTxtPath(filename), Concat(SummaryWrites(filename, time, r)));
    } else {
      assert s.outputs[1] == TextFile(ScriptTxtPath(filename), Concat(SummaryWrites(filename, time, r)));
    }
  }

  /** Whether saving the transcript `name` of the input folder raises. */
  predicate Fails(input: string, name: string, read: string -> string, analyze: string -> Responses) {
    FirstMissing(analyze(read(PyPath.Join(input, name)))) < |ResultKeys|
  }

  /** The loop's k-th turn: read `name` from the input folder, analyse it and save it under its bare name. */
  function FileSaved(input: string, dirs: set<string>, name: string, k: nat, read: string -> string,
                     analyze: string -> Responses, clock: nat -> string): (s: Saved)
    ensures s.raised <==> Fails(input, name, read, analyze)
  {
    SaveResults(DirsAt(dirs, k), name, analyze(read(PyPath.Join(input, name))), clock(k))
  }

  function FilesSaved(input: string, dirs: set<string>, names: seq<string>, read: string -> string,
                      analyze: string -> Responses, clock: nat -> string): (saves: seq<Saved>)
    ensures |saves| == |names|
  {
    seq(|names|, i requires 0 <= i < |names| => FileSaved(input, dirs, names[i], i, read, analyze, clock))
  }

  /** The loop is ended by an exception exactly when some transcript it picks has an empty result list. */
  lemma StopsIffSomeFails(input: string, dirs: set<string>, names: seq<string>,
                          read: string -> string, analyze: string -> Responses, clock: nat -> string)
    ensures Run(FilesSaved(input, dirs, names, read, analyze, clock)).stopped <==>
      exists i :: 0 <= i < |names| && Fails(input, names[i], read, analyze)
  {
    var saves := FilesSaved(input, dirs, names, read, analyze, clock);
    StopsIffSomeRaises(saves);
    forall i | 0 <= i < |names| ensures saves[i].raised <==> Fails(input, names[i], read, analyze) {
      assert saves[i] == FileSaved(input, dirs, names[i], i, read, analyze, clock);
    }
  }

  /** One turn of `process_text_files`, for the k-th transcript, the earlier ones having saved without raising. */
  method ProcessNext(input: string, dirs: set<string>, names: seq<string>, k: nat, read: string -> string,
                     analyze: string -> Responses, clock: nat -> string, ghost saves: seq<Saved>, before: seq<Output>)
    returns (after: seq<Output>, raised: bool)
    requires k < |names| == |saves|
    requires saves[k] == FileSaved(input, dirs, names[k], k, read, analyze, clock)
    requires Run(saves[..k]) == Progress(before, false)
    ensures Run(saves[..k + 1]) == Progress(after, raised)
  {
    var text := read(PyPath.Join(input, names[k]));
    var results := analyze(text);
    var saved := SaveResults(DirsAt(dirs, k), names[k], results, clock(k));
    RunStep(saves, k);
    after := before + saved.outputs;
    raised := saved.raised;
  }

  /** `process_text_files(client, input_folder)` over the folder's listing. */
  method ProcessTextFiles(input: string, dirs: set<string>, listing: seq<string>, read: string -> string,
                          analyze: string -> Responses, clock: nat -> string)
    returns (outputs: seq<Output>, stopped: bool)
    ensures Progress(outputs, stopped) == Run(FilesSaved(input, dirs, WithSuffix(listing, TranscriptSuffix), read, analyze, clock))
  {
    var names := WithSuffix(listing, TranscriptSuffix);
    ghost var saves := FilesSaved(input, dirs, names, read, analyze, clock);
    outputs, stopped := [], false;
    var k := 0;
    while k < |names| && !stopped
      invariant k <= |names|
      invariant Run(saves[..k]) == Progress(outputs, stopped)
      decreases |names| - k
    {
      outputs, stopped := ProcessNext(input, dirs, names, k, read, analyze, clock, saves, outputs);
      k := k + 1;
    }
    if stopped {
      StoppedStays(saves, k);
    } else {
      assert saves[..k] == saves;
    }
  }

  /**
   * `run_text_analysis_process()`: with the configuration valid, an unset
   * ANALYSIS_FOLDER makes `os.path.exists(None)` raise, and an empty one
   * makes `os.makedirs("")` raise, before anything is written; otherwise
   * make that folder if needed and process the input folder. Any
   * exception is logged and swallowed.
   */
  method RunTextAnalysisProcess(env: Environment, dirs: set<string>, listing: seq<string>, read: string -> string,
                                analyze: string -> Responses, clock: nat -> string)
    returns (outputs: seq<Output>)
    ensures var c := ConfigFromEnv(env);
      && (Validate(c).Fail? || c.outputFolder.None? || c.outputFolder == Some("") ==> outputs == [])
      && (Validate(c).Pass? && c.outputFolder.Some? && c.outputFolder.value != "" ==>
            var out := c.outputFolder.value;
            outputs == (if out in dirs then [] else [MakeDirs(out)])
                       + Run(FilesSaved(c.inputFolder.value, dirs + {out}, WithSuffix(listing, TranscriptSuffix), read, analyze, clock)).outputs)
  {
    var c := ConfigFromEnv(env);
    if Validate(c).Fail? || c.outputFolder.None? {
      return [];
    }
    var out := c.outputFolder.value;
    var made := MakeFolder(out, dirs);
    if made.None? {
      return [];
    }
    var saved, _ := ProcessTextFiles(c.inputFolder.value, dirs + {out}, listing, read, analyze, clock);
    outputs := made.value + saved;
  }
}
