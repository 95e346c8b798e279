/**
 * What the three text-analysis modules share: the records the Azure Text
 * Analytics client returns for one document, the results dict
 * `analyze_text` builds from them, the report names, and the JSON written
 * for the results.
 */
module TextAnalytics {
  import opened Wrappers
  import opened PyStr
  import PyPath
  import opened Outputs
  import opened Serializable

  /** A float confidence score: its `repr`, and its text under the format `.2f`. */
  datatype Score = Score(repr: string, fixed2: string)

  datatype ConfidenceScores = ConfidenceScores(positive: Score, neutral: Score, negative: Score)

  datatype SentenceSentiment = SentenceSentiment(text: string, sentiment: string, scores: ConfidenceScores)

  /** `AnalyzeSentimentResult` */
  datatype SentimentDoc = SentimentDoc(sentiment: string, scores: ConfidenceScores, sentences: seq<SentenceSentiment>)

  /** `CategorizedEntity` or `PiiEntity` */
  datatype Entity = Entity(text: string, category: string, confidence: Score)

  /** `RecognizeEntitiesResult` */
  datatype EntitiesDoc = EntitiesDoc(entities: seq<Entity>)

  /** `ExtractKeyPhrasesResult` */
  datatype KeyPhrasesDoc = KeyPhrasesDoc(keyPhrases: seq<string>)

  datatype DetectedLanguage = DetectedLanguage(name: string, iso6391Name: string, confidence: Score)

  /** `DetectLanguageResult` */
  datatype LanguageDoc = LanguageDoc(primaryLanguage: DetectedLanguage)

  /** `RecognizePiiEntitiesResult` */
  datatype PiiDoc = PiiDoc(entities: seq<Entity>, redactedText: string)

  /**
   * The lists the five client calls return for the one-document batch
   * `[text]`: `analyze_sentiment`, `recognize_entities`,
   * `extract_key_phrases`, `detect_language` and `recognize_pii_entities`.
   */
  datatype Responses = Responses(
    sentiment: seq<SentimentDoc>,
    entities: seq<EntitiesDoc>,
    keyPhrases: seq<KeyPhrasesDoc>,
    language: seq<LanguageDoc>,
    pii: seq<PiiDoc>)

  /** The keys of the results dict, in insertion order. */
  const ResultKeys: seq<string> := ["sentiment", "entities", "key_phrases", "language", "pii"]

  /** The results dict of `analyze_text` in `analyze_text_files`: the first document of each list, `None` for an empty list. */
  datatype FirstResults = FirstResults(
    sentiment: Option<SentimentDoc>,
    entities: Option<EntitiesDoc>,
    keyPhrases: Option<KeyPhrasesDoc>,
    language: Option<LanguageDoc>,
    pii: Option<PiiDoc>)

  function Head<T>(docs: seq<T>): (first: Option<T>)
    ensures first.Some? <==> docs != []
    ensures first.Some? ==> first.value == docs[0]
  {
    if docs != [] then Some(docs[0]) else None
  }

  function AnalyzeFirst(r: Responses): FirstResults {
    FirstResults(Head(r.sentiment), Head(r.entities), Head(r.keyPhrases), Head(r.language), Head(r.pii))
  }

  // The records as Python objects: each `__dict__` holds the attributes
  // the model keeps, and `sentences` and `entities` are also what `hasattr`
  // finds.

  function ScoreValue(s: Score): PyValue {
    PFloat(s.repr)
  }

  function ScoresValue(c: ConfidenceScores): PyValue {
    PObj("SentimentConfidenceScores",
         [Entry("positive", ScoreValue(c.positive)), Entry("neutral", ScoreValue(c.neutral)),
          Entry("negative", ScoreValue(c.negative))],
         Absent, Absent)
  }

  function SentenceValue(s: SentenceSentiment): PyValue {
    PObj("SentenceSentiment",
         [Entry("text", PStr(s.text)), Entry("sentiment", PStr(s.sentiment)),
          Entry("confidence_scores", ScoresValue(s.scores))],
         Absent, Absent)
  }

  function SentenceValues(ss: seq<SentenceSentiment>): seq<PyValue> {
    seq(|ss|, k requires 0 <= k < |ss| => SentenceValue(ss[k]))
  }

  function SentimentValue(d: SentimentDoc): PyValue {
    var sentences := SentenceValues(d.sentences);
    PObj("AnalyzeSentimentResult",
         [Entry("sentiment", PStr(d.sentiment)), Entry("confidence_scores", ScoresValue(d.scores)),
          Entry("sentences", PList(sentences))],
         Present(sentences), Absent)
  }

  function EntityValue(cls: string, e: Entity): PyValue {
    PObj(cls,
         [Entry("text", PStr(e.text)), Entry("category", PStr(e.category)),
          Entry("confidence_score", ScoreValue(e.confidence))],
         Absent, Absent)
  }

  function EntityValues(cls: string, es: seq<Entity>): seq<PyValue> {
    seq(|es|, k requires 0 <= k < |es| => EntityValue(cls, es[k]))
  }

  function EntitiesValue(d: EntitiesDoc): PyValue {
    var entities := EntityValues("CategorizedEntity", d.entities);
    PObj("RecognizeEntitiesResult", [Entry("entities", PList(entities))], Absent, Present(entities))
  }

  function KeyPhrasesValue(d: KeyPhrasesDoc): PyValue {
    var phrases := seq(|d.keyPhrases|, k requires 0 <= k < |d.keyPhrases| => PStr(d.keyPhrases[k]));
    PObj("ExtractKeyPhrasesResult", [Entry("key_phrases", PList(phrases))], Absent, Absent)
  }

  function LanguageValue(d: LanguageDoc): PyValue {
    var l := d.primaryLanguage;
    PObj("DetectLanguageResult",
         [Entry("primary_language",
                PObj("DetectedLanguage",
                     [Entry("name", PStr(l.name)), Entry("iso6391_name", PStr(l.iso6391Name)),
                      Entry("confidence_score", ScoreValue(l.confidence))],
                     Absent, Absent))],
         Absent, Absent)
  }

  function PiiValue(d: PiiDoc): PyValue {
    var entities := EntityValues("PiiEntity", d.entities);
    PObj("RecognizePiiEntitiesResult",
         [Entry("entities", PList(entities)), Entry("redacted_text", PStr(d.redactedText))],
         Absent, Present(entities))
  }

  /** A results dict: the five result keys in order, each with its value. */
  function ResultsDict(values: seq<PyValue>): seq<Entry>
    requires |values| == |ResultKeys|
  {
    seq(|ResultKeys|, k requires 0 <= k < |ResultKeys| => Entry(ResultKeys[k], values[k]))
  }

  /** The value `analyze_text` in `analyze_text_files` stores under `ResultKeys[k]`: the first document, or `None`. */
  function FirstValue(f: FirstResults, k: nat): PyValue
    requires k < |ResultKeys|
  {
    if k == 0 then (if f.sentiment.Some? then SentimentValue(f.sentiment.value) else PNone)
    else if k == 1 then (if f.entities.Some? then EntitiesValue(f.entities.value) else PNone)
    else if k == 2 then (if f.keyPhrases.Some? then KeyPhrasesValue(f.keyPhrases.value) else PNone)
    else if k == 3 then (if f.language.Some? then LanguageValue(f.language.value) else PNone)
    else (if f.pii.Some? then PiiValue(f.pii.value) else PNone)
  }

  function FirstValues(f: FirstResults): (values: seq<PyValue>)
    ensures |values| == |ResultKeys|
  {
    seq(|ResultKeys|, k requires 0 <= k < |ResultKeys| => FirstValue(f, k))
  }

  /** The results dict of `analyze_text_files`. */
  function FirstEntries(f: FirstResults): seq<Entry> {
    ResultsDict(FirstValues(f))
  }

  /** `x if x else None` for a whole converted list. */
  function ListOrNone(items: seq<PyValue>): PyValue {
    if items == [] then PNone else PList(items)
  }

  // The whole lists of the other two modules, `None` for an empty one.

  function SentimentList(ds: seq<SentimentDoc>): PyValue {
    ListOrNone(seq(|ds|, k requires 0 <= k < |ds| => SentimentValue(ds[k])))
  }

  function EntitiesList(ds: seq<EntitiesDoc>): PyValue {
    ListOrNone(seq(|ds|, k requires 0 <= k < |ds| => EntitiesValue(ds[k])))
  }

  function KeyPhrasesList(ds: seq<KeyPhrasesDoc>): PyValue {
    ListOrNone(seq(|ds|, k requires 0 <= k < |ds| => KeyPhrasesValue(ds[k])))
  }

  function LanguageList(ds: seq<LanguageDoc>): PyValue {
    ListOrNone(seq(|ds|, k requires 0 <= k < |ds| => LanguageValue(ds[k])))
  }

  function PiiList(ds: seq<PiiDoc>): PyValue {
    ListOrNone(seq(|ds|, k requires 0 <= k < |ds| => PiiValue(ds[k])))
  }

  /** The values the other two modules store. */
  function WholeValues(r: Responses): (values: seq<PyValue>)
    ensures |values| == |ResultKeys|
  {
    [SentimentList(r.sentiment), EntitiesList(r.entities), KeyPhrasesList(r.keyPhrases),
     LanguageList(r.language), PiiList(r.pii)]
  }

  /** The results dict of the other two modules. */
  function WholeEntries(r: Responses): seq<Entry> {
    ResultsDict(WholeValues(r))
  }

  /**
   * The two results dicts hold the same information: each value of the
   * first-document dict is `None` where the whole-list dict has `None`, and
   * otherwise the first item of its list.
   */
  lemma FirstIsHeadOfWhole(r: Responses)
    ensures var first, whole := FirstValues(AnalyzeFirst(r)), WholeValues(r);
      forall k :: 0 <= k < |ResultKeys| ==>
        && (whole[k].PNone? ==> first[k].PNone?)
        && (whole[k].PList? ==> whole[k].items != [] && first[k] == whole[k].items[0])
  {
    var first, whole := FirstValues(AnalyzeFirst(r)), WholeValues(r);
    forall k | 0 <= k < |ResultKeys|
      ensures whole[k].PNone? ==> first[k].PNone?
      ensures whole[k].PList? ==> whole[k].items != [] && first[k] == whole[k].items[0]
    {
      assert first[k] == FirstValue(AnalyzeFirst(r), k);
      if k == 0 {
        assert whole[k] == SentimentList(r.sentiment);
      } else if k == 1 {
        assert whole[k] == EntitiesList(r.entities);
      } else if k == 2 {
        assert whole[k] == KeyPhrasesList(r.keyPhrases);
      } else if k == 3 {
        assert whole[k] == LanguageList(r.language);
      } else {
        assert whole[k] == PiiList(r.pii);
      }
    }
  }

  /** The keys of a results dict are the result keys, each once. */
  lemma ResultsDictKeys(values: seq<PyValue>)
    requires |values| == |ResultKeys|
    ensures var entries := ResultsDict(values);
      && |entries| == |ResultKeys|
      && UniqueKeys(entries)
      && forall k :: 0 <= k < |ResultKeys| ==> entries[k] == Entry(ResultKeys[k], values[k])
  {
  }

  predicate Clean(v: PyValue) {
    Consistent(v) && !HasOther(v)
  }

  lemma ScoresClean(c: ConfidenceScores)
    ensures Clean(ScoresValue(c))
  {
    var attrs := ScoresValue(c).attrs;
    assert forall k :: 0 <= k < |attrs| ==> attrs[k].value.PFloat?;
  }

  lemma SentenceClean(s: SentenceSentiment)
    ensures Clean(SentenceValue(s))
  {
    ScoresClean(s.scores);
    var attrs := SentenceValue(s).attrs;
    assert forall k :: 0 <= k < |attrs| ==> Clean(attrs[k].value);
  }

  lemma SentenceValuesClean(ss: seq<SentenceSentiment>)
    ensures Clean(PList(SentenceValues(ss)))
  {
    var items := SentenceValues(ss);
    forall k | 0 <= k < |items| ensures Clean(items[k]) {
      SentenceClean(ss[k]);
    }
  }

  lemma SentimentClean(d: SentimentDoc)
    ensures Clean(SentimentValue(d))
  {
    ScoresClean(d.scores);
    SentenceValuesClean(d.sentences);
    var attrs := SentimentValue(d).attrs;
    var sentences := attrs[2].value;
    assert forall k :: 0 <= k < |attrs| ==> Clean(attrs[k].value);
    assert Attribute(attrs[2..], "sentences") == Some(sentences);
    assert Attribute(attrs[1..], "sentences") == Some(sentences) by {
      assert attrs[1..][1..] == attrs[2..];
    }
  }

  lemma EntityValuesClean(cls: string, es: seq<Entity>)
    ensures Clean(PList(EntityValues(cls, es)))
  {
    var items := EntityValues(cls, es);
    forall k | 0 <= k < |items| ensures Clean(items[k]) {
      var attrs := items[k].attrs;
      assert forall j :: 0 <= j < |attrs| ==> attrs[j].value.PStr? || attrs[j].value.PFloat?;
    }
  }

  lemma EntitiesClean(d: EntitiesDoc)
    ensures Clean(EntitiesValue(d))
  {
    EntityValuesClean("CategorizedEntity", d.entities);
  }

  lemma KeyPhrasesClean(d: KeyPhrasesDoc)
    ensures Clean(KeyPhrasesValue(d))
  {
    var v := KeyPhrasesValue(d);
    var phrases := v.attrs[0].value;
    assert forall k :: 0 <= k < |phrases.items| ==> phrases.items[k].PStr? && Clean(phrases.items[k]);
    assert Clean(phrases);
    assert forall k :: 0 <= k < |v.attrs| ==> Clean(v.attrs[k].value);
  }

  lemma LanguageClean(d: LanguageDoc)
    ensures Clean(LanguageValue(d))
  {
    var v := LanguageValue(d);
    var primary := v.attrs[0].value;
    assert forall k :: 0 <= k < |primary.attrs| ==> Clean(primary.attrs[k].value);
    assert Clean(primary);
    assert forall k :: 0 <= k < |v.attrs| ==> Clean(v.attrs[k].value);
  }

  lemma PiiClean(d: PiiDoc)
    ensures Clean(PiiValue(d))
  {
    EntityValuesClean("PiiEntity", d.entities);
    var attrs := PiiValue(d).attrs;
    assert forall k :: 0 <= k < |attrs| ==> Clean(attrs[k].value);
  }

  lemma ListOrNoneClean(items: seq<PyValue>)
    requires forall k :: 0 <= k < |items| ==> Clean(items[k])
    ensures Clean(ListOrNone(items))
  {
  }

  lemma SentimentListClean(ds: seq<SentimentDoc>)
    ensures Clean(SentimentList(ds))
  {
    forall d | d in ds ensures Clean(SentimentValue(d)) { SentimentClean(d); }
    ListOrNoneClean(seq(|ds|, k requires 0 <= k < |ds| => SentimentValue(ds[k])));
  }

  lemma EntitiesListClean(ds: seq<EntitiesDoc>)
    ensures Clean(EntitiesList(ds))
  {
    forall d | d in ds ensures Clean(EntitiesValue(d)) { EntitiesClean(d); }
    ListOrNoneClean(seq(|ds|, k requires 0 <= k < |ds| => EntitiesValue(ds[k])));
  }

  lemma KeyPhrasesListClean(ds: seq<KeyPhrasesDoc>)
    ensures Clean(KeyPhrasesList(ds))
  {
    forall d | d in ds ensures Clean(KeyPhrasesValue(d)) { KeyPhrasesClean(d); }
    ListOrNoneClean(seq(|ds|, k requires 0 <= k < |ds| => KeyPhrasesValue(ds[k])));
  }

  lemma LanguageListClean(ds: seq<LanguageDoc>)
    ensures Clean(LanguageList(ds))
  {
    forall d | d in ds ensures Clean(LanguageValue(d)) { LanguageClean(d); }
    ListOrNoneClean(seq(|ds|, k requires 0 <= k < |ds| => LanguageValue(ds[k])));
  }

  lemma PiiListClean(ds: seq<PiiDoc>)
    ensures Clean(PiiList(ds))
  {
    forall d | d in ds ensures Clean(PiiValue(d)) { PiiClean(d); }
    ListOrNoneClean(seq(|ds|, k requires 0 <= k < |ds| => PiiValue(ds[k])));
  }

  /** Every value a whole-list results dict can hold is consistent and can be dumped. */
  lemma WholeValuesClean(r: Responses)
    ensures forall k :: 0 <= k < |ResultKeys| ==> Clean(WholeValues(r)[k])
  {
    SentimentListClean(r.sentiment);
    EntitiesListClean(r.entities);
    KeyPhrasesListClean(r.keyPhrases);
    LanguageListClean(r.language);
    PiiListClean(r.pii);
  }

  /** Every value a first-document results dict can hold is consistent and can be dumped. */
  lemma FirstValuesClean(f: FirstResults)
    ensures forall k :: 0 <= k < |ResultKeys| ==> Clean(FirstValues(f)[k])
  {
    forall k | 0 <= k < |ResultKeys| ensures Clean(FirstValue(f, k)) {
      if k == 0 {
        if f.sentiment.Some? { SentimentClean(f.sentiment.value); }
      } else if k == 1 {
        if f.entities.Some? { EntitiesClean(f.entities.value); }
      } else if k == 2 {
        if f.keyPhrases.Some? { KeyPhrasesClean(f.keyPhrases.value); }
      } else if k == 3 {
        if f.language.Some? { LanguageClean(f.language.value); }
      } else {
        if f.pii.Some? { PiiClean(f.pii.value); }
      }
    }
  }

  /** A results dict of clean values dumps to what the corrected converter writes. */
  lemma DictDumpAgrees(values: seq<PyValue>)
    requires |values| == |ResultKeys|
    requires forall k :: 0 <= k < |ResultKeys| ==> Clean(values[k])
    ensures DumpDefault(PDict(ResultsDict(values))) == Ok(ConvertCorrected(PDict(ResultsDict(values))))
  {
    var entries := ResultsDict(values);
    assert forall k :: 0 <= k < |entries| ==> entries[k].value == values[k];
    DumpAgreesWithCorrected(PDict(entries));
  }

  /**
   * `json.dumps(results, default=lambda x: x.__dict__)` in
   * `analyze_text_files` never fails on the client's records, and writes
   * what the corrected `convert_to_serializable` writes.
   */
  lemma FirstDumpSucceeds(f: FirstResults)
    ensures DumpDefault(PDict(FirstEntries(f))) == Ok(ConvertCorrected(PDict(FirstEntries(f))))
  {
    FirstValuesClean(f);
    DictDumpAgrees(FirstValues(f));
  }

  /**
   * As written, `convert_to_serializable(results)` turns the whole results
   * dict into one string, its `str()` text, instead of a JSON object.
   */
  function AsWrittenReport(r: Responses): (j: Json)
    ensures j.JStr? && StartsWith(j.s, "{'" + ResultKeys[0] + "': ")
  {
    ResultsDictKeys(WholeValues(r));
    DictReprStart(WholeEntries(r));
    ConvertAsWritten(PDict(WholeEntries(r)))
  }

  /**
   * The converted results dict: a JSON object with the five result keys in
   * order, `null` for `None`, and an array with one converted item per item
   * for a list.
   */
  function CorrectedDict(values: seq<PyValue>): (j: Json)
    requires |values| == |ResultKeys|
    ensures j.JObject? && |j.members| == |ResultKeys|
    ensures forall k :: 0 <= k < |ResultKeys| ==> j.members[k].key == ResultKeys[k]
    ensures forall k :: 0 <= k < |ResultKeys| ==> (j.members[k].value == JNull <==> values[k].PNone?)
    ensures forall k :: 0 <= k < |ResultKeys| && values[k].PList? ==>
      j.members[k].value.JArray? && |j.members[k].value.items| == |values[k].items|
  {
    var entries := ResultsDict(values);
    ResultsDictKeys(values);
    ConvertEntriesAt(entries, true);
    ConvertCorrected(PDict(entries))
  }

  /** The intended report of the whole-list results: `null` for an empty list, else one object per document. */
  function CorrectedReport(r: Responses): (j: Json)
    ensures j.JObject? && |j.members| == |ResultKeys|
    ensures forall k :: 0 <= k < |ResultKeys| ==> j.members[k].key == ResultKeys[k]
    ensures j.members[0].value == JNull <==> r.sentiment == []
    ensures j.members[1].value == JNull <==> r.entities == []
    ensures j.members[2].value == JNull <==> r.keyPhrases == []
    ensures j.members[3].value == JNull <==> r.language == []
    ensures j.members[4].value == JNull <==> r.pii == []
    ensures r.sentiment != [] ==> j.members[0].value.JArray? && |j.members[0].value.items| == |r.sentiment|
    ensures r.entities != [] ==> j.members[1].value.JArray? && |j.members[1].value.items| == |r.entities|
    ensures r.keyPhrases != [] ==> j.members[2].value.JArray? && |j.members[2].value.items| == |r.keyPhrases|
    ensures r.language != [] ==> j.members[3].value.JArray? && |j.members[3].value.items| == |r.language|
    ensures r.pii != [] ==> j.members[4].value.JArray? && |j.members[4].value.items| == |r.pii|
  {
    CorrectedDict(WholeValues(r))
  }

  /** The corrected report is what `json.dumps(..., default=lambda x: x.__dict__)` writes for the same dict. */
  lemma CorrectedReportMatchesDump(r: Responses)
    ensures DumpDefault(PDict(WholeEntries(r))) == Ok(CorrectedReport(r))
  {
    WholeValuesClean(r);
    DictDumpAgrees(WholeValues(r));
  }

  /** The text of a file written by a sequence of `file.write` calls. */
  function Concat(writes: seq<string>): string {
    if writes == [] then "" else Concat(writes[..|writes| - 1]) + writes[|writes| - 1]
  }

  lemma ConcatAppend(writes: seq<string>, more: seq<string>)
    ensures Concat(writes + more) == Concat(writes) + Concat(more)
    decreases |more|
  {
    if more != [] {
      assert (writes + more)[..|writes + more| - 1] == writes + more[..|more| - 1];
      var init, last := more[..|more| - 1], more[|more| - 1];
      assert (writes + more)[|writes + more| - 1] == last;
      ConcatAppend(writes, init);
      calc {
        Concat(writes + more);
        Concat(writes + init) + last;
        (Concat(writes) + Concat(init)) + last;
        Concat(writes) + (Concat(init) + last);
        Concat(writes) + Concat(more);
      }
    } else {
      assert writes + more == writes;
    }
  }

  /** The four writes every summary opens with. */
  function Header(file: string, time: string): seq<string> {
    ["Transcription analysis\n\n", "File: " + file + "\n", "Time: " + time + "\n\n", "Summary:\n"]
  }

  // The summary lines `analyze_text_files` and the package's
  // `azure_text_analysis` write alike.

  const OverallLabel := "• Overall Sentiment: "
  const ScoresLabel := "• Sentiment Scores - Positive:"
  const NeutralLabel := ",Neutral: "
  const NegativeLabel := ",Negative: "
  const EntitiesLabel := "• Key Entities Identified: "
  const TopicsLabel := "   • Notable Topics: "
  const LanguageLabel := "• Detected Language: "
  const PiiYes := "• Personally identifiable information (PII): Yes."
  const PiiNo := "• Personally identifiable information (PII): No."

  /** The overall sentiment, then the three scores to two decimals. */
  function SentimentLines(d: SentimentDoc): seq<string> {
    [OverallLabel + d.sentiment + ".\n",
     ScoresLabel + d.scores.positive.fixed2 + NeutralLabel + d.scores.neutral.fixed2
       + NegativeLabel + d.scores.negative.fixed2 + "\n"]
  }

  /** At most the first five key phrases. */
  function TopicsLine(phrases: seq<string>): string {
    TopicsLabel + Join(", ", Take(phrases, 5)) + ".\n"
  }

  function LanguageLine(d: LanguageDoc): string {
    LanguageLabel + d.primaryLanguage.name + "(" + d.primaryLanguage.iso6391Name + ").\n"
  }

  /** Whether any personal information was found; the line ends the file without a line break. */
  function PiiLine(d: PiiDoc): string {
    if d.entities != [] then PiiYes else PiiNo
  }

  /** What a reader of a summary concludes from its last line about personal information. */
  function ReadPiiVerdict(text: string): Option<bool> {
    if EndsWith(text, PiiYes) then Some(true)
    else if EndsWith(text, PiiNo) then Some(false)
    else None
  }

  /** Whether a write ends in a newline. */
  predicate EndsInNewline(w: string) {
    |w| > 0 && w[|w| - 1] == '\n'
  }

  /** Whether a write ends in a newline or in a blank, as an indented multi-line message does. */
  predicate EndsInBlank(w: string) {
    EndsInNewline(w) || (|w| > 0 && w[|w| - 1] == ' ')
  }

  predicate AllEndInNewline(writes: seq<string>) {
    forall k :: 0 <= k < |writes| ==> EndsInNewline(writes[k])
  }

  predicate AllEndInBlank(writes: seq<string>) {
    forall k :: 0 <= k < |writes| ==> EndsInBlank(writes[k])
  }

  lemma ConcatLast(writes: seq<string>)
    requires writes != [] && writes[|writes| - 1] != []
    ensures var text := Concat(writes); var last := writes[|writes| - 1];
      text != [] && text[|text| - 1] == last[|last| - 1]
  {
  }

  /**
   * A text ending in a newline or a blank carries no verdict; one ending in the PII
   * line carries the verdict of that line.
   */
  lemma VerdictOfEnding(before: string, d: Option<PiiDoc>)
    requires EndsInBlank(before)
    ensures ReadPiiVerdict(before + (if d.Some? then PiiLine(d.value) else "")) ==
      (if d.None? then None else Some(d.value.entities != []))
  {
    var yes, no := PiiYes, PiiNo;
    assert yes[|yes| - 1] == '.' && no[|no| - 1] == '.';
    if d.None? {
      assert before + "" == before;
      EndsAt(before, yes, 0);
      EndsAt(before, no, 0);
    } else if d.value.entities != [] {
      EndsWithAppend(before, yes);
    } else {
      assert yes[|yes| - 2] == 's' && no[|no| - 2] == 'o';
      EndsWithAppend(before, no);
      EndsAt(before + no, yes, 1);
    }
  }

  lemma EndsWithAppend(a: string, b: string)
    ensures EndsWith(a + b, b)
  {
    assert (a + b)[|a|..] == b;
  }

  /** A text that differs from `suffix` at the `i`-th character from the end does not end with it. */
  lemma EndsAt(text: string, suffix: string, i: nat)
    requires i < |text| && i < |suffix|
    requires text[|text| - 1 - i] != suffix[|suffix| - 1 - i]
    ensures !EndsWith(text, suffix)
  {
    if |suffix| <= |text| {
      var tail := text[|text| - |suffix|..];
      assert tail[|suffix| - 1 - i] == text[|text| - 1 - i];
    }
  }

  /** `[entity.text for entity in entities]` */
  function EntityTexts(entities: seq<Entity>): (texts: seq<string>)
    ensures |texts| == |entities|
    ensures forall i :: 0 <= i < |entities| ==> texts[i] == entities[i].text
  {
    if entities == [] then [] else [entities[0].text] + EntityTexts(entities[1..])
  }

  /** The texts of at most the first five entities, joined by ", ". */
  function KeyEntities(entities: seq<Entity>): string {
    Join(", ", EntityTexts(Take(entities, 5)))
  }

  /** `os.path.splitext(base)[0] + suffix` in the reports folder. */
  function ReportPath(folder: string, base: string, suffix: string): string {
    PyPath.Join(folder, PyPath.Root(base) + suffix)
  }

  /** The summary and the JSON report of the transcript at `filename`, named after its base name. */
  function TxtPath(reports: string, filename: string): string {
    ReportPath(reports, PyPath.Basename(filename), "_analysis.txt")
  }

  function JsonPath(reports: string, filename: string): string {
    ReportPath(reports, PyPath.Basename(filename), "_analysis.json")
  }

  /** For a transcript named without '/', the reports are `<stem>_analysis.txt` and `<stem>_analysis.json`. */
  lemma ReportNames(reports: string, folder: string, name: string)
    requires name != [] && '/' !in name
    ensures TxtPath(reports, PyPath.Join(folder, name)) == PyPath.Join(reports, PyPath.Root(name) + "_analysis.txt")
    ensures JsonPath(reports, PyPath.Join(folder, name)) == PyPath.Join(reports, PyPath.Root(name) + "_analysis.json")
  {
    PyPath.BasenameOfJoin(folder, name);
  }

  // The two variants that keep whole result lists read `results[key][0]`
  // for every key in turn; a list the client returned empty is `None` in
  // the results, and indexing it raises `TypeError`.

  /** Whether the k-th result list, in `ResultKeys` order, is empty. */
  predicate Missing(r: Responses, k: nat)
    requires k < |ResultKeys|
  {
    if k == 0 then r.sentiment == []
    else if k == 1 then r.entities == []
    else if k == 2 then r.keyPhrases == []
    else if k == 3 then r.language == []
    else r.pii == []
  }

  /** The key whose `results[key][0]` raises first, or `|ResultKeys|` when none does. */
  function FirstMissing(r: Responses): (m: nat)
    ensures m <= |ResultKeys|
    ensures forall k :: 0 <= k < m ==> !Missing(r, k)
    ensures m < |ResultKeys| ==> Missing(r, m)
  {
    if r.sentiment == [] then 0
    else if r.entities == [] then 1
    else if r.keyPhrases == [] then 2
    else if r.language == [] then 3
    else if r.pii == [] then 4
    else 5
  }

  /** A list is missing exactly when its entry in the results dict is `None`. */
  lemma MissingIsNone(r: Responses)
    ensures forall k :: 0 <= k < |ResultKeys| ==> (Missing(r, k) <==> WholeValues(r)[k].PNone?)
  {
    var values := WholeValues(r);
    forall k | 0 <= k < |ResultKeys| ensures Missing(r, k) <==> values[k].PNone? {
      if k == 0 {
        assert values[0] == SentimentList(r.sentiment);
      } else if k == 1 {
        assert values[1] == EntitiesList(r.entities);
      } else if k == 2 {
        assert values[2] == KeyPhrasesList(r.keyPhrases);
      } else if k == 3 {
        assert values[3] == LanguageList(r.language);
      } else {
        assert values[4] == PiiList(r.pii);
      }
    }
  }

  /** When no list is missing, every member of the report is an array with one item per document. */
  lemma CompleteReportHasNoNull(r: Responses)
    requires FirstMissing(r) == |ResultKeys|
    ensures var j := CorrectedReport(r);
      forall k :: 0 <= k < |ResultKeys| ==> j.members[k].value.JArray? && j.members[k].value.items != []
  {
    var j := CorrectedReport(r);
    assert !Missing(r, 0) && !Missing(r, 1) && !Missing(r, 2) && !Missing(r, 3) && !Missing(r, 4);
  }

  const AnalysisDatabase := "text_analysis.db"

  /** The transcripts the analysis loops pick from a listing. */
  const TranscriptSuffix := ".txt"
}
