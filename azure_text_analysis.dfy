/**
 * The package's `azure_text_analysis`: run the five text analyses on every
 * `.txt` transcript and save, for each, a plain-text summary, the whole
 * result lists as JSON, and a row of the `text_analysis.db` database, all in
 * the reports folder. The summary reads the first document of every list,
 * so a list the client returned empty raises and ends the whole run.
 */
module AzureTextAnalysis {
  import opened Wrappers
  import opened PyStr
  import PyPath
  import opened Env
  import opened Outputs
  import opened TextAnalytics

  /** The table name is the constant `DB_TABLE_NAME`, not a setting. */
  const TableName := "text_analysis"

  datatype TextAnalysisConfig = TextAnalysisConfig(
    endpoint: Option<string>,
    key: Option<string>,
    transcripts: Option<string>,
    reports: Option<string>)

  function ConfigFromEnv(env: Environment): TextAnalysisConfig {
    TextAnalysisConfig(
      GetEnv(env, "AZURE_LANGUAGE_ENDPOINT"),
      GetEnv(env, "AZURE_LANGUAGE_KEY"),
      GetEnv(env, "TRANSCRIPTS_FOLDER"),
      GetEnv(env, "REPORTS_FOLDER"))
  }

  predicate Complete(c: TextAnalysisConfig) {
    c.endpoint.Some? && c.key.Some? && c.transcripts.Some? && c.reports.Some?
  }

  /** `Config.validate`: `EnvironmentError` when any of the four settings is `None`; the table name never is. */
  function Validate(c: TextAnalysisConfig): (r: Outcome<string>)
    ensures r.Pass? <==> Complete(c)
  {
    var required := [c.endpoint, c.key, c.transcripts, c.reports, Some(TableName)];
    assert Complete(c) <==> forall k :: 0 <= k < |required| ==> required[k].Some? by {
      assert required[0] == c.endpoint && required[1] == c.key && required[2] == c.transcripts;
      assert required[3] == c.reports && required[4].Some?;
    }
    RequireAll(required)
  }

  lemma ValidateFromEnv(env: Environment)
    ensures Validate(ConfigFromEnv(env)).Pass? <==>
      "AZURE_LANGUAGE_ENDPOINT" in env && "AZURE_LANGUAGE_KEY" in env && "TRANSCRIPTS_FOLDER" in env && "REPORTS_FOLDER" in env
  {
  }

  /** The writes for the k-th result key, from the first document of its list. */
  function SectionWrites(r: Responses, k: nat): seq<string>
    requires k < |ResultKeys| && !Missing(r, k)
  {
    if k == 0 then SentimentLines(r.sentiment[0])
    else if k == 1 then
      (if r.entities[0].entities == [] then [] else [EntitiesLabel + KeyEntities(r.entities[0].entities) + ".\n"])
    else if k == 2 then
      (if r.keyPhrases[0].keyPhrases == [] then [] else [TopicsLine(r.keyPhrases[0].keyPhrases)])
    else if k == 3 then [LanguageLine(r.language[0])]
    else [PiiLine(r.pii[0])]
  }

  /** The writes for the k-th key when the summary gets that far, before the first missing list. */
  function SectionIfReached(r: Responses, k: nat): seq<string>
    requires k < |ResultKeys|
  {
    if k < FirstMissing(r) then SectionWrites(r, k) else []
  }

  /**
   * The `file.write` calls `save_results` makes on the summary: the header,
   * then the sections up to the first missing list, where it raises.
   */
  function SummaryWrites(file: string, time: string, r: Responses): seq<string> {
    Header(file, time) + SectionIfReached(r, 0) + SectionIfReached(r, 1) + SectionIfReached(r, 2)
      + SectionIfReached(r, 3) + SectionIfReached(r, 4)
  }

  /** The summary before its last section: the header and the first four sections. */
  function WritesBeforePii(file: string, time: string, r: Responses): seq<string> {
    Header(file, time) + SectionIfReached(r, 0) + SectionIfReached(r, 1) + SectionIfReached(r, 2)
      + SectionIfReached(r, 3)
  }

  /** Every write before the line on personal information ends in a newline. */
  lemma BeforePiiEndsInNewline(file: string, time: string, r: Responses)
    ensures var before := WritesBeforePii(file, time, r);
      before != [] && AllEndInNewline(before) && SummaryWrites(file, time, r) == before + SectionIfReached(r, 4)
  {
    assert AllEndInNewline(SectionIfReached(r, 0));
    assert AllEndInNewline(SectionIfReached(r, 1));
    assert AllEndInNewline(SectionIfReached(r, 2));
    assert AllEndInNewline(SectionIfReached(r, 3));
    assert AllEndInNewline(Header(file, time));
  }

  /**
   * The summary ends with the line on personal information exactly when
   * no list is missing, and then that line tells whether the first PII
   * result has entities; a summary cut short carries no verdict.
   */
  lemma PiiVerdictReadBack(file: string, time: string, r: Responses)
    ensures ReadPiiVerdict(Concat(SummaryWrites(file, time, r))) ==
      (if FirstMissing(r) < |ResultKeys| then None else Some(r.pii[0].entities != []))
  {
    var before := WritesBeforePii(file, time, r);
    BeforePiiEndsInNewline(file, time, r);
    ConcatAppend(before, SectionIfReached(r, 4));
    ConcatLast(before);
    assert EndsInNewline(before[|before| - 1]);
    assert EndsInBlank(Concat(before));
    var pii := if FirstMissing(r) < |ResultKeys| then None else Some(r.pii[0]);
    if pii.Some? {
      assert Concat(SectionIfReached(r, 4)) == Concat([]) + PiiLine(r.pii[0]);
    } else {
      assert SectionIfReached(r, 4) == [];
    }
    VerdictOfEnding(Concat(before), pii);
  }

  /**
   * The writes `save_results(input_file, results)` makes at `time` before
   * its report, with `dirs` the folders that exist: the reports folder if
   * missing, then the summary; nothing when the folder is "".
   */
  function SaveHead(c: TextAnalysisConfig, dirs: set<string>, inputFile: string, r: Responses, time: string): seq<Output>
    requires Complete(c)
  {
    match MakeFolder(c.reports.value, dirs)
    case None => []
    case Some(made) => made + [TextFile(TxtPath(c.reports.value, inputFile), Concat(SummaryWrites(inputFile, time, r)))]
  }

  /** The report `report` in the JSON file, and one row holding the file name and that report, committed twice. */
  function ReportWrites(c: TextAnalysisConfig, inputFile: string, report: Json): seq<Output>
    requires Complete(c)
  {
    [JsonFile(JsonPath(c.reports.value, inputFile), report),
     Sqlite(PyPath.Join(c.reports.value, AnalysisDatabase), [Row(TableName, [Text(inputFile), JsonText(report)])], [1, 1])]
  }

  /**
   * `save_results` with `report` the JSON it writes: the head, then, if
   * neither the folder nor the summary raised, the report writes.
   */
  function SaveWith(c: TextAnalysisConfig, dirs: set<string>, inputFile: string, r: Responses, time: string,
                    report: Json): (s: Saved)
    requires Complete(c)
    ensures s.raised <==> c.reports.value == "" || SomeEmpty(r)
  {
    var head := SaveHead(c, dirs, inputFile, r, time);
    if c.reports.value == "" || FirstMissing(r) < |ResultKeys| then Saved(head, true)
    else Saved(head + ReportWrites(c, inputFile, report), false)
  }

  /** `save_results` as written: the report is `convert_to_serializable(results)`, the string form of the dict. */
  function SaveResults(c: TextAnalysisConfig, dirs: set<string>, inputFile: string, r: Responses, time: string): Saved
    requires Complete(c)
  {
    SaveWith(c, dirs, inputFile, r, time, AsWrittenReport(r))
  }

  /** `save_results` as intended: the report is the results dict converted key by key. */
  function IntendedSaveResults(c: TextAnalysisConfig, dirs: set<string>, inputFile: string, r: Responses, time: string): Saved
    requires Complete(c)
  {
    SaveWith(c, dirs, inputFile, r, time, CorrectedReport(r))
  }

  /** Whether some result list the client returned is empty. */
  predicate SomeEmpty(r: Responses) {
    r.sentiment == [] || r.entities == [] || r.keyPhrases == [] || r.language == [] || r.pii == []
  }

  /** What every variant of the save writes, whatever its report. */
  lemma SaveWithShape(c: TextAnalysisConfig, dirs: set<string>, inputFile: string, r: Responses, time: string,
                      report: Json)
    requires Complete(c)
    ensures var s := SaveWith(c, dirs, inputFile, r, time, report);
      var reports := c.reports.value;
      var m := if reports in dirs then 0 else 1;
      && (s.raised <==> reports == "" || SomeEmpty(r))
      && (reports == "" ==> s.outputs == [])
      && (reports != "" ==>
            && |s.outputs| == (if SomeEmpty(r) then m + 1 else m + 3)
            && (m == 1 ==> s.outputs[0] == MakeDirs(reports))
            && s.outputs[m] == TextFile(TxtPath(reports, inputFile), Concat(SummaryWrites(inputFile, time, r))))
      && (!s.raised ==>
            && s.outputs[m + 1] == JsonFile(JsonPath(reports, inputFile), report)
            && s.outputs[m + 2] == Sqlite(PyPath.Join(reports, AnalysisDatabase),
                                          [Row(TableName, [Text(inputFile), JsonText(report)])], [1, 1]))
  {
    assert FirstMissing(r) < |ResultKeys| <==> SomeEmpty(r);
  }

  /**
   * Saving raises exactly when the reports folder is "" or a result list
   * is empty; an empty folder leaves nothing, an empty list only the
   * folder and the partial summary; otherwise the JSON file holds one
   * string, the `str()` of the results dict, and the row holds the file
   * name and that same string.
   */
  lemma SaveResultsOutcome(c: TextAnalysisConfig, dirs: set<string>, inputFile: string, r: Responses, time: string)
    requires Complete(c)
    ensures var s := SaveResults(c, dirs, inputFile, r, time);
      var reports := c.reports.value;
      var m := if reports in dirs then 0 else 1;
      && (s.raised <==> reports == "" || SomeEmpty(r))
      && (reports == "" ==> s.outputs == [])
      && (reports != "" ==> m < |s.outputs| && (m == 1 ==> s.outputs[0] == MakeDirs(reports)) && s.outputs[m].TextFile?)
      && (reports != "" && SomeEmpty(r) ==> |s.outputs| == m + 1)
      && (!s.raised ==>
            && |s.outputs| == m + 3 && s.outputs[m + 1].JsonFile? && s.outputs[m + 2].Sqlite?
            && s.outputs[m + 1].value.JStr? && StartsWith(s.outputs[m + 1].value.s, "{'" + ResultKeys[0] + "': ")
            && s.outputs[m + 2].rows == [Row(TableName, [Text(inputFile), JsonText(s.outputs[m + 1].value)])])
  {
    SaveWithShape(c, dirs, inputFile, r, time, AsWrittenReport(r));
  }

  /**
   * The intended save differs from the written one only in its report:
   * the same verdict and the same files, and where the lists are all
   * there the report is an object mapping every key to its whole list.
   */
  lemma IntendedSaveOutcome(c: TextAnalysisConfig, dirs: set<string>, inputFile: string, r: Responses, time: string)
    requires Complete(c)
    ensures var s := SaveResults(c, dirs, inputFile, r, time);
      var i := IntendedSaveResults(c, dirs, inputFile, r, time);
      && i.raised == s.raised
      && (s.raised ==> i.outputs == s.outputs)
      && (!s.raised ==>
            var n := |s.outputs|;
            && n >= 2 && |i.outputs| == n && i.outputs[..n - 2] == s.outputs[..n - 2]
            && s.outputs[n - 2..] == ReportWrites(c, inputFile, AsWrittenReport(r))
            && i.outputs[n - 2..] == ReportWrites(c, inputFile, CorrectedReport(r))
            && forall k :: 0 <= k < |ResultKeys| ==>
                 CorrectedReport(r).members[k].value.JArray? && CorrectedReport(r).members[k].value.items != [])
  {
    var head := SaveHead(c, dirs, inputFile, r, time);
    if c.reports.value != "" && !SomeEmpty(r) {
      var s := SaveResults(c, dirs, inputFile, r, time);
      var i := IntendedSaveResults(c, dirs, inputFile, r, time);
      var written, intended := ReportWrites(c, inputFile, AsWrittenReport(r)), ReportWrites(c, inputFile, CorrectedReport(r));
      assert FirstMissing(r) == |ResultKeys|;
      assert s.outputs == head + written;
      assert i.outputs == head + intended;
      assert s.outputs[..|head|] == head && s.outputs[|head|..] == written;
      assert i.outputs[..|head|] == head && i.outputs[|head|..] == intended;
      CompleteReportHasNoNull(r);
    }
  }

  /** Whether saving the transcript `name` of the transcripts folder raises: the reports folder cannot be made, or a list is empty. */
  predicate Fails(c: TextAnalysisConfig, name: string, read: string -> string, analyze: string -> Responses)
    requires Complete(c)
  {
    c.reports.value == "" || FirstMissing(analyze(read(PyPath.Join(c.transcripts.value, name)))) < |ResultKeys|
  }

  /** `process_text_file(client, input_file)` for the transcript `name`, the k-th the loop picks, saved at `clock(k)`. */
  function FileSaved(c: TextAnalysisConfig, dirs: set<string>, name: string, k: nat, read: string -> string,
                     analyze: string -> Responses, clock: nat -> string): (s: Saved)
    requires Complete(c)
    ensures s.raised <==> Fails(c, name, read, analyze)
  {
    var input := PyPath.Join(c.transcripts.value, name);
    SaveResults(c, dirs, input, analyze(read(input)), clock(k))
  }

  /** The saves of the transcripts `names`, in the order the loop picks them. */
  function FilesSaved(c: TextAnalysisConfig, dirs: set<string>, names: seq<string>, read: string -> string,
                      analyze: string -> Responses, clock: nat -> string): (saves: seq<Saved>)
    requires Complete(c)
    ensures |saves| == |names|
  {
    seq(|names|, i requires 0 <= i < |names| => FileSaved(c, dirs, names[i], i, read, analyze, clock))
  }

  /** The loop is ended by an exception exactly when some transcript it picks has an empty result list. */
  lemma StopsIffSomeFails(c: TextAnalysisConfig, dirs: set<string>, names: seq<string>,
                          read: string -> string, analyze: string -> Responses, clock: nat -> string)
    requires Complete(c)
    ensures Run(FilesSaved(c, dirs, names, read, analyze, clock)).stopped <==>
      exists i :: 0 <= i < |names| && Fails(c, names[i], read, analyze)
  {
    var saves := FilesSaved(c, dirs, names, read, analyze, clock);
    StopsIffSomeRaises(saves);
    forall i | 0 <= i < |names| ensures saves[i].raised <==> Fails(c, names[i], read, analyze) {
      assert saves[i] == FileSaved(c, dirs, names[i], i, read, analyze, clock);
    }
  }

  /** `process_text_file` on the transcript at `inputFile`, saved at `time`. */
  method ProcessTextFile(c: TextAnalysisConfig, present: set<string>, inputFile: string, read: string -> string,
                         analyze: string -> Responses, time: string)
    returns (saved: Saved)
    requires Complete(c)
    ensures saved == SaveResults(c, present, inputFile, analyze(read(inputFile)), time)
  {
    var text := read(inputFile);
    var results := analyze(text);
    saved := SaveResults(c, present, inputFile, results, time);
  }

  /** One turn of the loop, for the k-th transcript of `names`, the earlier ones having saved without raising. */
  method AnalyzeNext(c: TextAnalysisConfig, present: set<string>, names: seq<string>, k: nat, read: string -> string,
                     analyze: string -> Responses, clock: nat -> string, ghost saves: seq<Saved>, before: seq<Output>)
    returns (after: seq<Output>, raised: bool)
    requires Complete(c) && k < |names| == |saves|
    requires saves[k] == FileSaved(c, present, names[k], k, read, analyze, clock)
    requires Run(saves[..k]) == Progress(before, false)
    ensures Run(saves[..k + 1]) == Progress(after, raised)
  {
    var saved := ProcessTextFile(c, present, PyPath.Join(c.transcripts.value, names[k]), read, analyze, clock(k));
    RunStep(saves, k);
    after := before + saved.outputs;
    raised := saved.raised;
  }

  /** The loop of `azure_text_analysis` over the listing, once the reports folder exists. */
  method AnalyzeListed(c: TextAnalysisConfig, present: set<string>, listing: seq<string>, read: string -> string,
                       analyze: string -> Responses, clock: nat -> string)
    returns (outputs: seq<Output>, stopped: bool)
    requires Complete(c)
    ensures Progress(outputs, stopped) == Run(FilesSaved(c, present, WithSuffix(listing, TranscriptSuffix), read, analyze, clock))
  {
    var names := WithSuffix(listing, TranscriptSuffix);
    ghost var saves := FilesSaved(c, present, names, read, analyze, clock);
    outputs, stopped := [], false;
    var k := 0;
    while k < |names| && !stopped
      invariant k <= |names|
      invariant Run(saves[..k]) == Progress(outputs, stopped)
      decreases |names| - k
    {
      outputs, stopped := AnalyzeNext(c, present, names, k, read, analyze, clock, saves, outputs);
      k := k + 1;
    }
    if stopped {
      StoppedStays(saves, k);
    } else {
      assert saves[..k] == saves;
    }
  }

  /**
   * `azure_text_analysis()`: with the configuration complete, make the
   * reports folder if needed, then analyse and save the listed `.txt`
   * transcripts in listing order, each with a client of its own, until one
   * raises. A reports folder of "" makes `makedirs` raise before any
   * transcript. Any exception is logged and swallowed.
   */
  method RunAzureTextAnalysis(env: Environment, dirs: set<string>, listing: seq<string>, read: string -> string,
                              analyze: string -> Responses, clock: nat -> string)
    returns (outputs: seq<Output>)
    ensures var c := ConfigFromEnv(env);
      && (!Complete(c) || c.reports.value == "" ==> outputs == [])
      && (Complete(c) && c.reports.value != "" ==>
            outputs == (if c.reports.value in dirs then [] else [MakeDirs(c.reports.value)])
                       + Run(FilesSaved(c, dirs + {c.reports.value}, WithSuffix(listing, TranscriptSuffix), read, analyze, clock)).outputs)
  {
    var c := ConfigFromEnv(env);
    if Validate(c).Fail? {
      return [];
    }
    var reports := c.reports.value;
    var made := MakeFolder(reports, dirs);
    if made.None? {
      return [];
    }
    var saved, _ := AnalyzeListed(c, dirs + {reports}, listing, read, analyze, clock);
    outputs := made.value + saved;
  }
}
