/**
 * `analyze_text_files`: run the five text analyses on every `.txt`
 * transcript and save, for each, a plain-text summary, the results as JSON,
 * and a row of the `text_analysis.db` database, all in the reports folder.
 */
module AnalyzeTextFiles {
  import opened Wrappers
  import opened PyStr
  import PyPath
  import opened Env
  import opened Outputs
  import opened Serializable
  import opened TextAnalytics

  datatype AnalysisConfig = AnalysisConfig(
    endpoint: Option<string>,
    key: Option<string>,
    transcripts: Option<string>,
    reports: Option<string>,
    tableName: Option<string>)

  function ConfigFromEnv(env: Environment): AnalysisConfig {
    AnalysisConfig(
      GetEnv(env, "AZURE_LANGUAGE_ENDPOINT"),
      GetEnv(env, "AZURE_LANGUAGE_KEY"),
      GetEnv(env, "TRANSCRIPTS_FOLDER"),
      GetEnv(env, "REPORTS_FOLDER"),
      GetEnv(env, "ANALYSIS_DB_TABLE_NAME"))
  }

  predicate Complete(c: AnalysisConfig) {
    c.endpoint.Some? && c.key.Some? && c.transcripts.Some? && c.reports.Some? && c.tableName.Some?
  }

  /** `Config.validate`: `EnvironmentError` when any of the five settings is `None`. */
  function Validate(c: AnalysisConfig): (r: Outcome<string>)
    ensures r.Pass? <==> Complete(c)
  {
    var settings := [c.endpoint, c.key, c.transcripts, c.reports, c.tableName];
    assert Complete(c) <==> forall k :: 0 <= k < |settings| ==> settings[k].Some? by {
      assert settings[0] == c.endpoint && settings[1] == c.key && settings[2] == c.transcripts;
      assert settings[3] == c.reports && settings[4] == c.tableName;
    }
    RequireAll(settings)
  }

  lemma ValidateFromEnv(env: Environment)
    ensures Validate(ConfigFromEnv(env)).Pass? <==>
      && "AZURE_LANGUAGE_ENDPOINT" in env && "AZURE_LANGUAGE_KEY" in env && "TRANSCRIPTS_FOLDER" in env
      && "REPORTS_FOLDER" in env && "ANALYSIS_DB_TABLE_NAME" in env
  {
  }

  /** The indentation inside the triple-quoted entities message. */
  const Indent := "                    "

  function SentimentWrites(s: Option<SentimentDoc>): seq<string> {
    if s.None? then [] else SentimentLines(s.value)
  }

  /** At most the first five entities, by their text. */
  function EntityWrites(e: Option<EntitiesDoc>): seq<string> {
    if e.None? || e.value.entities == [] then []
    else ["\n" + Indent + EntitiesLabel + KeyEntities(e.value.entities) + ".\n\n" + Indent]
  }

  function TopicWrites(k: Option<KeyPhrasesDoc>): seq<string> {
    if k.None? || k.value.keyPhrases == [] then []
    else [TopicsLine(k.value.keyPhrases)]
  }

  function LanguageWrites(l: Option<LanguageDoc>): seq<string> {
    if l.None? then []
    else [LanguageLine(l.value)]
  }

  function PiiWrites(p: Option<PiiDoc>): seq<string> {
    if p.None? then [] else [PiiLine(p.value)]
  }

  /** The parts of the summary after its header, in the order `save_results` writes them. */
  datatype Section = SentimentSection | EntitySection | TopicSection | LanguageSection | PiiSection

  const Sections: seq<Section> := [SentimentSection, EntitySection, TopicSection, LanguageSection, PiiSection]

  function SectionWrites(s: Section, f: FirstResults): seq<string> {
    match s
    case SentimentSection => SentimentWrites(f.sentiment)
    case EntitySection => EntityWrites(f.entities)
    case TopicSection => TopicWrites(f.keyPhrases)
    case LanguageSection => LanguageWrites(f.language)
    case PiiSection => PiiWrites(f.pii)
  }

  function SectionsWrites(sections: seq<Section>, f: FirstResults): seq<string> {
    if sections == [] then [] else SectionWrites(sections[0], f) + SectionsWrites(sections[1..], f)
  }

  /** The `file.write` calls of `save_results` for the summary, in order. */
  function SummaryWrites(file: string, time: string, f: FirstResults): seq<string> {
    Header(file, time) + SectionsWrites(Sections, f)
  }

  lemma {:induction false} SectionsWritesAppend(sections: seq<Section>, last: Section, f: FirstResults)
    ensures SectionsWrites(sections + [last], f) == SectionsWrites(sections, f) + SectionWrites(last, f)
  {
    if sections != [] {
      assert (sections + [last])[1..] == sections[1..] + [last];
      SectionsWritesAppend(sections[1..], last, f);
    }
  }

  /** Every write of the sections before the PII line ends in a newline, or, for the indented entities message, in a blank. */
  lemma {:induction false} SectionsEndInBlank(sections: seq<Section>, f: FirstResults)
    requires PiiSection !in sections
    ensures AllEndInBlank(SectionsWrites(sections, f))
  {
    if sections != [] {
      SectionsEndInBlank(sections[1..], f);
      var first := SectionWrites(sections[0], f);
      assert AllEndInBlank(first) by {
        match sections[0]
        case SentimentSection =>
        case EntitySection =>
        case TopicSection =>
        case LanguageSection =>
      }
    }
  }

  /** The summary is its header and first four sections, every write ending in a newline or a blank, then the PII line if any. */
  lemma SummaryBeforePii(file: string, time: string, f: FirstResults)
    ensures var before := Header(file, time) + SectionsWrites(Sections[..4], f);
      && before != [] && AllEndInBlank(before)
      && SummaryWrites(file, time, f) == before + PiiWrites(f.pii)
  {
    var first := Sections[..4];
    assert Sections == first + [PiiSection];
    SectionsWritesAppend(first, PiiSection, f);
    SectionsEndInBlank(first, f);
    assert AllEndInBlank(Header(file, time));
  }

  /**
   * The summary's closing line tells whether the PII analysis found
   * personal information, and the summary has no such line when there was
   * no PII result.
   */
  lemma PiiVerdictReadBack(file: string, time: string, f: FirstResults)
    ensures ReadPiiVerdict(Concat(SummaryWrites(file, time, f))) ==
      (if f.pii.None? then None else Some(f.pii.value.entities != []))
  {
    var before := Header(file, time) + SectionsWrites(Sections[..4], f);
    SummaryBeforePii(file, time, f);
    ConcatAppend(before, PiiWrites(f.pii));
    ConcatLast(before);
    if f.pii.Some? {
      assert Concat(PiiWrites(f.pii)) == Concat([]) + PiiLine(f.pii.value);
    }
    VerdictOfEnding(Concat(before), f.pii);
  }

  /**
   * `save_results(filename, results)` at `time`, with `dirs` the folders
   * that exist: the summary, then the JSON dump of the results, then one
   * row holding the file name and the same dump, committed once inside the
   * connection's `with` block and once on leaving it. A dump that fails
   * leaves only the summary; a reports folder of "" makes `makedirs` raise
   * before anything is written.
   */
  function SaveResults(c: AnalysisConfig, dirs: set<string>, filename: string, f: FirstResults, time: string): seq<Output>
    requires Complete(c)
  {
    var reports := c.reports.value;
    match MakeFolder(reports, dirs)
    case None => []
    case Some(made) =>
      var summary := TextFile(TxtPath(reports, filename), Concat(SummaryWrites(filename, time, f)));
      match DumpDefault(PDict(FirstEntries(f)))
      case Err(_) => made + [summary]
      case Ok(j) =>
        made + [summary, JsonFile(JsonPath(reports, filename), j),
                Sqlite(PyPath.Join(reports, AnalysisDatabase), [Row(c.tableName.value, [Text(filename), JsonText(j)])], [1, 1])]
  }

  /**
   * Saving into an existing reports folder always completes: the JSON file
   * holds the results with each record as its attributes, and the database
   * row holds the transcript's path and that same JSON. A folder of ""
   * writes nothing.
   */
  lemma SaveResultsComplete(c: AnalysisConfig, dirs: set<string>, filename: string, f: FirstResults, time: string)
    requires Complete(c) && c.reports.value in dirs
    ensures c.reports.value == "" ==> SaveResults(c, dirs, filename, f, time) == []
    ensures c.reports.value != "" ==>
      var out := SaveResults(c, dirs, filename, f, time); var j := ConvertCorrected(PDict(FirstEntries(f)));
      && |out| == 3
      && out[0] == TextFile(TxtPath(c.reports.value, filename), Concat(SummaryWrites(filename, time, f)))
      && out[1] == JsonFile(JsonPath(c.reports.value, filename), j)
      && out[2].Sqlite? && out[2].rows == [Row(c.tableName.value, [Text(filename), JsonText(j)])]
  {
    FirstDumpSucceeds(f);
  }

  /** What the main loop writes for the transcript `name`, the k-th it picks, saved at `clock(k)`. */
  function FileOutputs(c: AnalysisConfig, dirs: set<string>, name: string, k: nat, read: string -> string,
                       analyze: string -> Responses, clock: nat -> string): seq<Output>
    requires Complete(c)
  {
    var input := PyPath.Join(c.transcripts.value, name);
    SaveResults(c, dirs, input, AnalyzeFirst(analyze(read(input))), clock(k))
  }

  /** What the main loop writes for the transcripts `names`, in order. */
  function FilesOutputs(c: AnalysisConfig, dirs: set<string>, names: seq<string>, read: string -> string,
                        analyze: string -> Responses, clock: nat -> string): seq<Output>
    requires Complete(c)
  {
    if names == [] then []
    else
      var n := |names| - 1;
      FilesOutputs(c, dirs, names[..n], read, analyze, clock) + FileOutputs(c, dirs, names[n], n, read, analyze, clock)
  }

  /** The main loop's outputs are those of its turns, one after another. */
  lemma {:induction false} FilesOutputsSteps(c: AnalysisConfig, dirs: set<string>, names: seq<string>,
                                             steps: seq<seq<Output>>, read: string -> string,
                                             analyze: string -> Responses, clock: nat -> string)
    requires Complete(c) && |steps| == |names|
    requires forall i :: 0 <= i < |names| ==> steps[i] == FileOutputs(c, dirs, names[i], i, read, analyze, clock)
    ensures FilesOutputs(c, dirs, names, read, analyze, clock) == Sequenced(steps)
    decreases |names|
  {
    if names != [] {
      var n := |names| - 1;
      FilesOutputsSteps(c, dirs, names[..n], steps[..n], read, analyze, clock);
    }
  }

  /**
   * `process_text(client, text, filename)`: the results dict of `text`,
   * saved at `time` only when a file name is given.
   */
  method ProcessText(c: AnalysisConfig, present: set<string>, text: string, filename: Option<string>,
                     analyze: string -> Responses, time: string)
    returns (results: FirstResults, saved: seq<Output>)
    requires Complete(c)
    ensures results == AnalyzeFirst(analyze(text))
    ensures Truthy(filename) ==> saved == SaveResults(c, present, filename.value, results, time)
    ensures !Truthy(filename) ==> saved == []
  {
    results := AnalyzeFirst(analyze(text));
    saved := [];
    if Truthy(filename) {
      saved := SaveResults(c, present, filename.value, results, time);
    }
  }

  /** One turn of the loop: the k-th transcript of `names` follows the `steps` already taken. */
  method AnalyzeNext(c: AnalysisConfig, present: set<string>, names: seq<string>, k: nat, read: string -> string,
                     analyze: string -> Responses, clock: nat -> string, ghost steps: seq<seq<Output>>, before: seq<Output>)
    returns (ghost steps': seq<seq<Output>>, after: seq<Output>)
    requires Complete(c) && k == |steps| < |names| && names[k] != [] && before == Sequenced(steps)
    requires forall i :: 0 <= i < k ==> steps[i] == FileOutputs(c, present, names[i], i, read, analyze, clock)
    ensures |steps'| == k + 1 && after == Sequenced(steps')
    ensures forall i :: 0 <= i < k + 1 ==> steps'[i] == FileOutputs(c, present, names[i], i, read, analyze, clock)
  {
    var input := PyPath.Join(c.transcripts.value, names[k]);
    var _, saved := ProcessText(c, present, read(input), Some(input), analyze, clock(k));
    assert saved == FileOutputs(c, present, names[k], k, read, analyze, clock);
    SequencedAppend(steps, saved);
    steps' := steps + [saved];
    after := before + saved;
    forall i | 0 <= i < k + 1 ensures steps'[i] == FileOutputs(c, present, names[i], i, read, analyze, clock) {
      if i < k {
        assert steps'[i] == steps[i];
      }
    }
  }

  /** The loop of `analyze_text_files` over the listing, once the reports folder exists. */
  method AnalyzeListed(c: AnalysisConfig, present: set<string>, listing: seq<string>, read: string -> string,
                       analyze: string -> Responses, clock: nat -> string)
    returns (outputs: seq<Output>)
    requires Complete(c)
    ensures outputs == FilesOutputs(c, present, WithSuffix(listing, TranscriptSuffix), read, analyze, clock)
  {
    var names := WithSuffix(listing, TranscriptSuffix);
    outputs := [];
    ghost var steps: seq<seq<Output>> := [];
    for k := 0 to |names|
      invariant |steps| == k && outputs == Sequenced(steps)
      invariant forall i :: 0 <= i < k ==> steps[i] == FileOutputs(c, present, names[i], i, read, analyze, clock)
    {
      WithSuffixMembers(listing, TranscriptSuffix, names[k]);
      steps, outputs := AnalyzeNext(c, present, names, k, read, analyze, clock, steps, outputs);
    }
    FilesOutputsSteps(c, present, names, steps, read, analyze, clock);
  }

  /**
   * `analyze_text_files(file_path)`: with the configuration complete, make
   * the reports folder if needed, then analyse and save every listed name
   * ending in `.txt`, in listing order; `file_path` is not used. A reports
   * folder of "" makes `makedirs` raise before any transcript. Any
   * exception is logged and swallowed.
   */
  method RunAnalyzeTextFiles(env: Environment, dirs: set<string>, listing: seq<string>, read: string -> string,
                             analyze: string -> Responses, clock: nat -> string)
    returns (outputs: seq<Output>)
    ensures var c := ConfigFromEnv(env);
      && (!Complete(c) || c.reports.value == "" ==> outputs == [])
      && (Complete(c) && c.reports.value != "" ==>
            outputs == (if c.reports.value in dirs then [] else [MakeDirs(c.reports.value)])
                       + FilesOutputs(c, dirs + {c.reports.value}, WithSuffix(listing, TranscriptSuffix), read, analyze, clock))
  {
    var c := ConfigFromEnv(env);
    if Validate(c).Fail? {
      return [];
    }
    var reports := c.reports.value;
    var made := MakeFolder(reports, dirs);
    if made.None? {
      return [];
    }
    var saved := AnalyzeListed(c, dirs + {reports}, listing, read, analyze, clock);
    outputs := made.value + saved;
  }
}
