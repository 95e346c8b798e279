/**
 * Translation post-processing: reading the target languages from the
 * environment and validating them, grouping a Translator response by target
 * language, the per-language output files, and the `azure_translator` loop
 * over transcripts. The HTTP request is a function parameter: an empty
 * response stands for a failed request as well as for an empty reply.
 */
module Translator {
  import opened Wrappers
  import opened PyStr
  import PyPath
  import opened Env
  import opened Outputs

  /** The list `Config.__init__` assigns first and then always replaces. */
  const DefaultTargetLanguages: seq<string> := ["fr", "es", "de"]

  /** `languages.split(",") if languages else []` */
  function ParseLanguages(languages: Option<string>): (codes: seq<string>)
    ensures codes == [] <==> !Truthy(languages)
    ensures codes != [] ==> Join(",", codes) == languages.value
    ensures forall k :: 0 <= k < |codes| ==> ',' !in codes[k]
  {
    if Truthy(languages) then
      JoinSplit(languages.value, ',');
      Split(languages.value, ',')
    else []
  }

  /** The parsed codes are exactly `split(",")` of the variable: no other comma-free cut joins back to it. */
  lemma ParsedCodesAreSplit(languages: Option<string>, codes: seq<string>)
    requires Truthy(languages) && codes != [] && Join(",", codes) == languages.value
    requires forall k :: 0 <= k < |codes| ==> ',' !in codes[k]
    ensures ParseLanguages(languages) == codes
  {
    SplitOfJoin(codes, ',');
  }

  datatype TranslatorConfig = TranslatorConfig(
    key: Option<string>,
    endpoint: Option<string>,
    location: Option<string>,
    transcriptsFolder: string,
    translationsFolder: string,
    tableName: string,
    targetLanguages: seq<string>)

  /** The fields `Config.__init__` reads from the environment. */
  function ConfigFromEnv(env: Environment): TranslatorConfig {
    TranslatorConfig(
      GetEnv(env, "AZURE_TRANSLATOR_KEY"),
      GetEnv(env, "AZURE_TRANSLATOR_ENDPOINT"),
      GetEnv(env, "REGION"),
      GetEnvOr(env, "TRANSCRIPTS_FOLDER", "."),
      GetEnvOr(env, "TRANSLATIONS_FOLDER", "."),
      "translations",
      ParseLanguages(GetEnv(env, "TRANSLATIONS_LANGUAGES")))
  }

  /** The text "fr,es,de" splits into the default list. */
  lemma DefaultSpelledOut()
    ensures Split("fr,es,de", ',') == DefaultTargetLanguages
  {
    SplitAfterPiece("fr", ',', "es,de");
    SplitAfterPiece("es", ',', "de");
    SplitNoSep("de", ',');
    assert "fr,es,de" == "fr" + [','] + "es,de";
    assert "es,de" == "es" + [','] + "de";
  }

  /**
   * The `['fr', 'es', 'de']` default never survives: the configured list is
   * that list only when the variable spells it out.
   */
  lemma DefaultLanguagesOverwritten(env: Environment)
    ensures ConfigFromEnv(env).targetLanguages == DefaultTargetLanguages
        <==> GetEnv(env, "TRANSLATIONS_LANGUAGES") == Some("fr,es,de")
  {
    var languages := GetEnv(env, "TRANSLATIONS_LANGUAGES");
    assert ConfigFromEnv(env).targetLanguages == ParseLanguages(languages);
    if languages == Some("fr,es,de") {
      DefaultSpelledOut();
    }
    if ParseLanguages(languages) == DefaultTargetLanguages {
      DefaultJoined();
    }
  }

  lemma DefaultJoined()
    ensures Join(",", DefaultTargetLanguages) == "fr,es,de"
  {
    var codes := DefaultTargetLanguages;
    assert Join(",", codes[2..]) == "de";
    assert Join(",", codes[1..]) == "es" + "," + "de";
  }

  datatype ConfigError =
    | MissingAzureConfiguration
    | InvalidTranscriptsFolder
    | InvalidTranslationsFolder
    | InvalidLanguageCodes

  /** Every target language is a non-empty run of letters. */
  predicate CodesValid(codes: seq<string>) {
    forall k :: 0 <= k < |codes| ==> IsAlpha(codes[k])
  }

  /**
   * `Config.validate_config`, with the folders that exist as directories
   * given by `dirs`: the checks run in order and the first failure raises.
   */
  function ValidateConfig(c: TranslatorConfig, dirs: set<string>): (r: Outcome<ConfigError>)
    ensures r.Pass? <==>
      && Truthy(c.key) && Truthy(c.endpoint) && Truthy(c.location)
      && c.transcriptsFolder in dirs && c.translationsFolder in dirs
      && CodesValid(c.targetLanguages)
    ensures r == Fail(MissingAzureConfiguration) <==> !(Truthy(c.key) && Truthy(c.endpoint) && Truthy(c.location))
    ensures r == Fail(InvalidLanguageCodes) ==> !CodesValid(c.targetLanguages)
  {
    if !(Truthy(c.key) && Truthy(c.endpoint) && Truthy(c.location)) then Fail(MissingAzureConfiguration)
    else if c.transcriptsFolder !in dirs then Fail(InvalidTranscriptsFolder)
    else if c.translationsFolder !in dirs then Fail(InvalidTranslationsFolder)
    else if !CodesValid(c.targetLanguages) then Fail(InvalidLanguageCodes)
    else Pass
  }

  /** A space after a comma leaves a code that is not alphabetic. */
  lemma SpacedCodesRejected()
    ensures !CodesValid(ParseLanguages(Some("fr, es")))
  {
    SplitAfterPiece("fr", ',', " es");
    SplitNoSep(" es", ',');
    assert "fr, es" == "fr" + [','] + " es";
    assert ParseLanguages(Some("fr, es"))[1] == " es";
    assert !IsLetter(" es"[0]);
  }

  /** Two commas in a row leave an empty code, which is not alphabetic. */
  lemma EmptyCodesRejected()
    ensures !CodesValid(ParseLanguages(Some("fr,,de")))
  {
    SplitAfterPiece("fr", ',', ",de");
    SplitAfterPiece("", ',', "de");
    assert "fr,,de" == "fr" + [','] + ",de";
    assert ",de" == "" + [','] + "de";
    assert ParseLanguages(Some("fr,,de"))[1] == "";
  }

  /** A plain comma-separated list of letter codes is accepted. */
  lemma PlainCodesAccepted()
    ensures CodesValid(ParseLanguages(Some("fr,es,de")))
  {
    var text := "fr,es,de";
    DefaultSpelledOut();
    assert ParseLanguages(Some(text)) == Split(text, ',');
    DefaultCodesValid();
  }

  lemma DefaultCodesValid()
    ensures CodesValid(DefaultTargetLanguages)
  {
    var codes := DefaultTargetLanguages;
    assert IsAlpha(codes[0]) && IsAlpha(codes[1]) && IsAlpha(codes[2]);
  }

  /** One entry of a response item's `translations` list. */
  datatype Translation = Translation(to: string, text: string)

  /** One element of the Translator's JSON reply. */
  datatype ResponseItem = ResponseItem(translations: seq<Translation>)

  /** Every translation of a response, item after item. */
  function Flatten(response: seq<ResponseItem>): seq<Translation> {
    if response == [] then []
    else Flatten(response[..|response| - 1]) + response[|response| - 1].translations
  }

  /** The texts translated into `lang`, in the order they occur. */
  function TextsTo(ts: seq<Translation>, lang: string): seq<string> {
    if ts == [] then []
    else TextsTo(ts[..|ts| - 1], lang) + (if ts[|ts| - 1].to == lang then [ts[|ts| - 1].text] else [])
  }

  /** The target languages of `ts`, each once, in order of first occurrence. */
  function Languages(ts: seq<Translation>): seq<string> {
    if ts == [] then []
    else
      var init := Languages(ts[..|ts| - 1]);
      if ts[|ts| - 1].to in init then init else init + [ts[|ts| - 1].to]
  }

  /** Whether some translation of `ts` is into `lang`. */
  predicate Occurs(ts: seq<Translation>, lang: string) {
    exists k :: 0 <= k < |ts| && ts[k].to == lang
  }

  lemma {:induction false} OccursAppend(ts: seq<Translation>, t: Translation, lang: string)
    ensures Occurs(ts + [t], lang) <==> Occurs(ts, lang) || t.to == lang
  {
    if Occurs(ts, lang) {
      var k :| 0 <= k < |ts| && ts[k].to == lang;
      assert (ts + [t])[k].to == lang;
    }
    if Occurs(ts + [t], lang) && !Occurs(ts, lang) {
      var k :| 0 <= k < |ts + [t]| && (ts + [t])[k].to == lang;
      assert k == |ts|;
    }
    if t.to == lang {
      assert (ts + [t])[|ts|].to == lang;
    }
  }

  /** `Languages` lists exactly the languages that occur, each once. */
  lemma {:induction false} LanguagesExact(ts: seq<Translation>)
    ensures forall lang :: lang in Languages(ts) <==> Occurs(ts, lang)
    ensures forall i, j :: 0 <= i < j < |Languages(ts)| ==> Languages(ts)[i] != Languages(ts)[j]
  {
    if ts != [] {
      var init := ts[..|ts| - 1];
      var t := ts[|ts| - 1];
      LanguagesExact(init);
      assert ts == init + [t];
      forall lang
        ensures lang in Languages(ts) <==> Occurs(ts, lang)
      {
        OccursAppend(init, t, lang);
      }
    }
  }

  /** A language that never occurs collects no texts. */
  lemma {:induction false} TextsToAbsent(ts: seq<Translation>, lang: string)
    requires !Occurs(ts, lang)
    ensures TextsTo(ts, lang) == []
  {
    if ts != [] {
      var init := ts[..|ts| - 1];
      assert forall k :: 0 <= k < |init| ==> init[k] == ts[k];
      TextsToAbsent(init, lang);
      assert ts[|ts| - 1].to != lang;
    }
  }

  lemma StepTranslations(ts: seq<Translation>, t: Translation)
    ensures (ts + [t])[..|ts|] == ts
    ensures forall lang :: TextsTo(ts + [t], lang) == TextsTo(ts, lang) + (if t.to == lang then [t.text] else [])
    ensures Languages(ts + [t]) == if t.to in Languages(ts) then Languages(ts) else Languages(ts) + [t.to]
  {
    assert (ts + [t])[..|ts|] == ts;
  }

  lemma FlattenStep(response: seq<ResponseItem>, i: nat)
    requires i < |response|
    ensures Flatten(response[..i + 1]) == Flatten(response[..i]) + response[i].translations
  {
    assert response[..i + 1][..i] == response[..i];
  }

  /** `order` and `groups` are the grouping of the translations `ts`. */
  ghost predicate Grouped(order: seq<string>, groups: map<string, seq<string>>, ts: seq<Translation>) {
    && order == Languages(ts)
    && (forall lang :: lang in groups <==> lang in order)
    && (forall lang :: lang in groups ==> groups[lang] == TextsTo(ts, lang))
  }

  /** One `translations.setdefault(lang, []).append(text)` step. */
  method AddTranslation(order: seq<string>, groups: map<string, seq<string>>, ghost done: seq<Translation>, t: Translation)
    returns (order': seq<string>, groups': map<string, seq<string>>)
    requires Grouped(order, groups, done)
    ensures Grouped(order', groups', done + [t])
  {
    StepTranslations(done, t);
    if t.to in groups {
      groups' := groups[t.to := groups[t.to] + [t.text]];
      order' := order;
    } else {
      LanguagesExact(done);
      TextsToAbsent(done, t.to);
      groups' := groups[t.to := [t.text]];
      order' := order + [t.to];
    }
  }

  /** The inner loop of the grouping: every translation of one response item, in order. */
  method AddItem(order: seq<string>, groups: map<string, seq<string>>, ghost before: seq<Translation>,
                 translations: seq<Translation>)
    returns (order': seq<string>, groups': map<string, seq<string>>)
    requires Grouped(order, groups, before)
    ensures Grouped(order', groups', before + translations)
  {
    order', groups' := order, groups;
    assert before + translations[..0] == before;
    for j := 0 to |translations|
      invariant Grouped(order', groups', before + translations[..j])
    {
      assert before + translations[..j + 1] == before + translations[..j] + [translations[j]];
      order', groups' := AddTranslation(order', groups', before + translations[..j], translations[j]);
    }
    assert translations[..|translations|] == translations;
  }

  /**
   * The grouping loop of `save_translation`: the dict built with
   * `translations.setdefault(lang, []).append(text)` over every item and
   * every translation, as a map plus its insertion order. Each language
   * gets exactly its texts, in encounter order, and the keys are exactly
   * the languages that occur, in order of first occurrence.
   */
  method GroupTranslations(response: seq<ResponseItem>) returns (order: seq<string>, groups: map<string, seq<string>>)
    ensures order == Languages(Flatten(response))
    ensures forall lang :: lang in groups <==> Occurs(Flatten(response), lang)
    ensures forall lang :: lang in groups ==> groups[lang] == TextsTo(Flatten(response), lang)
  {
    order, groups := [], map[];
    for i := 0 to |response|
      invariant Grouped(order, groups, Flatten(response[..i]))
    {
      FlattenStep(response, i);
      order, groups := AddItem(order, groups, Flatten(response[..i]), response[i].translations);
    }
    assert response[..|response|] == response;
    LanguagesExact(Flatten(response));
  }

  /** The total number of texts over the given languages. */
  function CountOver(langs: seq<string>, ts: seq<Translation>): nat {
    if langs == [] then 0 else |TextsTo(ts, langs[0])| + CountOver(langs[1..], ts)
  }

  lemma {:induction false} CountOverAppend(langs: seq<string>, lang: string, ts: seq<Translation>)
    ensures CountOver(langs + [lang], ts) == CountOver(langs, ts) + |TextsTo(ts, lang)|
  {
    if langs != [] {
      CountOverAppend(langs[1..], lang, ts);
      assert (langs + [lang])[1..] == langs[1..] + [lang];
    }
  }

  lemma {:induction false} CountOverStep(langs: seq<string>, ts: seq<Translation>, t: Translation)
    requires forall i, j :: 0 <= i < j < |langs| ==> langs[i] != langs[j]
    ensures CountOver(langs, ts + [t]) == CountOver(langs, ts) + (if t.to in langs then 1 else 0)
  {
    StepTranslations(ts, t);
    if langs != [] {
      CountOverStep(langs[1..], ts, t);
      assert t.to in langs <==> t.to == langs[0] || t.to in langs[1..] by {
        assert langs == [langs[0]] + langs[1..];
      }
      if t.to == langs[0] {
        assert t.to !in langs[1..] by {
          forall k | 0 <= k < |langs[1..]| ensures langs[1..][k] != t.to {
            assert langs[1..][k] == langs[k + 1];
          }
        }
      }
    }
  }

  /** Grouping loses and duplicates nothing: the lists hold as many texts as the response has translations. */
  lemma {:induction false} GroupingPreservesCount(ts: seq<Translation>)
    ensures CountOver(Languages(ts), ts) == |ts|
  {
    if ts != [] {
      var init := ts[..|ts| - 1];
      var t := ts[|ts| - 1];
      assert ts == init + [t];
      GroupingPreservesCount(init);
      LanguagesExact(init);
      StepTranslations(init, t);
      CountOverStep(Languages(init), init, t);
      if t.to !in Languages(init) {
        CountOverAppend(Languages(init), t.to, ts);
        TextsToAbsent(init, t.to);
      }
    }
  }

  /** `<stem>-<lang><ext>` inside the translations folder, as `save_translation` names each file. */
  function TranslationFile(folder: string, fileName: string, lang: string, ext: string): string {
    PyPath.Join(folder, PyPath.PathStem(fileName) + "-" + lang + ext)
  }

  lemma JoinInjective(dir: string, a: string, b: string)
    requires !StartsWith(a, "/") && !StartsWith(b, "/")
    requires PyPath.Join(dir, a) == PyPath.Join(dir, b)
    ensures a == b
  {
    var pre := if dir == [] || EndsWith(dir, "/") then dir else dir + "/";
    assert PyPath.Join(dir, a) == pre + a && PyPath.Join(dir, b) == pre + b;
    assert a == (pre + a)[|pre|..] && b == (pre + b)[|pre|..];
  }

  lemma MiddleEqual(p: string, a: string, b: string, q: string)
    requires p + a + q == p + b + q
    ensures a == b
  {
    assert |a| == |b|;
    assert a == (p + a + q)[|p|..|p| + |a|];
    assert b == (p + b + q)[|p|..|p| + |b|];
  }

  /**
   * Two target languages never share an output file: for a transcript name
   * without '/', distinct languages give distinct paths for each extension.
   */
  lemma TranslationFilesDistinct(folder: string, fileName: string, lang1: string, lang2: string, ext: string)
    requires '/' !in fileName
    requires lang1 != lang2
    ensures TranslationFile(folder, fileName, lang1, ext) != TranslationFile(folder, fileName, lang2, ext)
  {
    var stem := PyPath.PathStem(fileName);
    assert '/' !in stem by {
      assert forall k :: 0 <= k < |stem| ==> stem[k] == fileName[k];
    }
    var n1 := stem + "-" + lang1 + ext;
    var n2 := stem + "-" + lang2 + ext;
    assert n1[|stem|] == '-' && n2[|stem|] == '-';
    assert !StartsWith(n1, "/") by { if |stem| > 0 { assert n1[0] == stem[0]; } }
    assert !StartsWith(n2, "/") by { if |stem| > 0 { assert n2[0] == stem[0]; } }
    if TranslationFile(folder, fileName, lang1, ext) == TranslationFile(folder, fileName, lang2, ext) {
      JoinInjective(folder, n1, n2);
      MiddleEqual(stem + "-", lang1, lang2, ext);
    }
  }

  /** What `save_translation` writes for one language, in order: the JSON list, the SQLite rows, the text file. */
  function LanguageOutputs(c: TranslatorConfig, fileName: string, lang: string, texts: seq<string>): seq<Output> {
    [ JsonFile(TranslationFile(c.translationsFolder, fileName, lang, ".json"), StringArray(texts)),
      Sqlite(TranslationFile(c.translationsFolder, fileName, lang, ".db"),
             Rows(c.tableName, [Text(fileName), Text(lang)], texts), [|texts|]),
      TextFile(TranslationFile(c.translationsFolder, fileName, lang, ".txt"), Lines(texts)) ]
  }

  /** The writes for the languages `langs` in turn, each with its texts from `ts`. */
  function SavedOutputs(c: TranslatorConfig, fileName: string, langs: seq<string>, ts: seq<Translation>): seq<Output> {
    if langs == [] then []
    else
      SavedOutputs(c, fileName, langs[..|langs| - 1], ts)
        + LanguageOutputs(c, fileName, langs[|langs| - 1], TextsTo(ts, langs[|langs| - 1]))
  }

  lemma SliceOfAppend<T>(a: seq<T>, b: seq<T>, i: nat, j: nat)
    requires i <= j <= |a|
    ensures (a + b)[i..j] == a[i..j]
  {
  }

  /** The writes come in threes, one group per language, each holding exactly that language's texts. */
  lemma {:induction false} SavedOutputsShape(c: TranslatorConfig, fileName: string, langs: seq<string>, ts: seq<Translation>)
    ensures |SavedOutputs(c, fileName, langs, ts)| == 3 * |langs|
    ensures forall k :: 0 <= k < |langs| ==>
      SavedOutputs(c, fileName, langs, ts)[3 * k..3 * k + 3] == LanguageOutputs(c, fileName, langs[k], TextsTo(ts, langs[k]))
  {
    if langs != [] {
      var init := langs[..|langs| - 1];
      SavedOutputsShape(c, fileName, init, ts);
      var prev := SavedOutputs(c, fileName, init, ts);
      var last := LanguageOutputs(c, fileName, langs[|langs| - 1], TextsTo(ts, langs[|langs| - 1]));
      forall k | 0 <= k < |langs|
        ensures (prev + last)[3 * k..3 * k + 3] == LanguageOutputs(c, fileName, langs[k], TextsTo(ts, langs[k]))
      {
        if k < |init| {
          SliceOfAppend(prev, last, 3 * k, 3 * k + 3);
          assert langs[k] == init[k];
        } else {
          assert (prev + last)[3 * k..3 * k + 3] == last;
        }
      }
    }
  }

  /** The number of rows the SQLite writes among `outputs` insert. */
  function RowCount(outputs: seq<Output>): nat {
    if outputs == [] then 0
    else RowCount(outputs[..|outputs| - 1]) + (if outputs[|outputs| - 1].Sqlite? then |outputs[|outputs| - 1].rows| else 0)
  }

  lemma {:induction false} RowCountAppend(a: seq<Output>, b: seq<Output>)
    ensures RowCount(a + b) == RowCount(a) + RowCount(b)
  {
    if b != [] {
      RowCountAppend(a, b[..|b| - 1]);
      assert (a + b)[..|a + b| - 1] == a + b[..|b| - 1];
    } else {
      assert a + b == a;
    }
  }

  lemma {:induction false} SavedRowCount(c: TranslatorConfig, fileName: string, langs: seq<string>, ts: seq<Translation>)
    ensures RowCount(SavedOutputs(c, fileName, langs, ts)) == CountOver(langs, ts)
  {
    if langs != [] {
      var init := langs[..|langs| - 1];
      var last := langs[|langs| - 1];
      SavedRowCount(c, fileName, init, ts);
      var group := LanguageOutputs(c, fileName, last, TextsTo(ts, last));
      RowCountAppend(SavedOutputs(c, fileName, init, ts), group);
      assert group[..1][..0] == [];
      assert RowCount(group[..1]) == 0;
      assert group[..2][..1] == group[..1];
      assert RowCount(group[..2]) == |TextsTo(ts, last)|;
      assert group[..3] == group;
      assert RowCount(group) == |TextsTo(ts, last)|;
      CountOverAppend(init, last, ts);
      assert init + [last] == langs;
    }
  }

  /** Every translation of the response becomes exactly one database row, in one of the language databases. */
  lemma SavedRowsMatchResponse(c: TranslatorConfig, fileName: string, response: seq<ResponseItem>)
    ensures RowCount(SavedOutputs(c, fileName, Languages(Flatten(response)), Flatten(response))) == |Flatten(response)|
  {
    SavedRowCount(c, fileName, Languages(Flatten(response)), Flatten(response));
    GroupingPreservesCount(Flatten(response));
  }

  /** One pass of the per-language loop of `save_translation`: `write_to_json`, `write_to_sqlite`, `write_to_file`. */
  method WriteLanguage(c: TranslatorConfig, fileName: string, lang: string, texts: seq<string>) returns (written: seq<Output>)
    ensures written == LanguageOutputs(c, fileName, lang, texts)
  {
    var rows, commits := InsertRows(c.tableName, [Text(fileName), Text(lang)], texts, false);
    var content := WriteLines(texts);
    assert commits == [|texts|];
    written := [
      JsonFile(TranslationFile(c.translationsFolder, fileName, lang, ".json"), StringArray(texts)),
      Sqlite(TranslationFile(c.translationsFolder, fileName, lang, ".db"), rows, commits),
      TextFile(TranslationFile(c.translationsFolder, fileName, lang, ".txt"), content)];
  }

  /** One pass of the per-language loop, for the k-th language of `order`. */
  method WriteNextLanguage(c: TranslatorConfig, fileName: string, order: seq<string>, k: nat,
                           groups: map<string, seq<string>>, ghost ts: seq<Translation>, before: seq<Output>)
    returns (after: seq<Output>)
    requires k < |order| && order[k] in groups && groups[order[k]] == TextsTo(ts, order[k])
    requires before == SavedOutputs(c, fileName, order[..k], ts)
    ensures after == SavedOutputs(c, fileName, order[..k + 1], ts)
  {
    var written := WriteLanguage(c, fileName, order[k], groups[order[k]]);
    assert order[..k + 1][..k] == order[..k];
    after := before + written;
  }

  /**
   * `save_translation(file_path, translated_text, config)` for a transcript
   * named `fileName`: group the response, then write each language's three
   * files in the order the languages first occur.
   */
  method SaveTranslation(c: TranslatorConfig, fileName: string, response: seq<ResponseItem>) returns (outputs: seq<Output>)
    ensures outputs == SavedOutputs(c, fileName, Languages(Flatten(response)), Flatten(response))
  {
    var order, groups := GroupTranslations(response);
    ghost var ts := Flatten(response);
    LanguagesExact(ts);
    outputs := [];
    for k := 0 to |order|
      invariant outputs == SavedOutputs(c, fileName, order[..k], ts)
    {
      assert order[k] in Languages(ts);
      outputs := WriteNextLanguage(c, fileName, order, k, groups, ts, outputs);
    }
    assert order[..|order|] == order;
  }

  /** `Transcript.load_transcript`: the file's text, or "" when reading it raises `IOError`. */
  function ReadOrEmpty(contents: Option<string>): string {
    if contents.Some? then contents.value else ""
  }

  /** `list(args) if args else config.target_languages` */
  function TargetLanguages(args: seq<string>, c: TranslatorConfig): seq<string> {
    if args != [] then args else c.targetLanguages
  }

  /**
   * The writes of `azure_translator` once the configuration is valid: each
   * `*.txt` name of the transcripts folder in listing order, read (an
   * unreadable file reads as ""), translated, and saved when the response
   * is not empty.
   */
  function TranslateAll(c: TranslatorConfig, langs: seq<string>, names: seq<string>,
                        read: string -> Option<string>,
                        translate: (string, seq<string>) -> seq<ResponseItem>): seq<Output>
  {
    if names == [] then []
    else TranslateAll(c, langs, names[..|names| - 1], read, translate) + TranscriptWrites(c, langs, names[|names| - 1], read, translate)
  }

  /** What one transcript adds: its saved translations, or nothing when the response is empty. */
  function TranscriptWrites(c: TranslatorConfig, langs: seq<string>, name: string,
                            read: string -> Option<string>,
                            translate: (string, seq<string>) -> seq<ResponseItem>): seq<Output>
  {
    var text := ReadOrEmpty(read(PyPath.Join(c.transcriptsFolder, name)));
    var response := translate(text, langs);
    if response == [] then [] else SavedOutputs(c, name, Languages(Flatten(response)), Flatten(response))
  }

  /** What one transcript adds to the writes of those before it: nothing for an empty response, its saved translations otherwise. */
  lemma TranslateNext(c: TranslatorConfig, langs: seq<string>, names: seq<string>, name: string,
                      read: string -> Option<string>,
                      translate: (string, seq<string>) -> seq<ResponseItem>)
    ensures var response := translate(ReadOrEmpty(read(PyPath.Join(c.transcriptsFolder, name))), langs);
      && (response == [] ==> TranslateAll(c, langs, names + [name], read, translate) == TranslateAll(c, langs, names, read, translate))
      && (response != [] ==>
            TranslateAll(c, langs, names + [name], read, translate)
            == TranslateAll(c, langs, names, read, translate) + SavedOutputs(c, name, Languages(Flatten(response)), Flatten(response)))
  {
    assert (names + [name])[..|names|] == names;
  }

  /** The writes for a listing are the writes for its first part followed by those for the rest. */
  lemma {:induction false} TranslateAllAppend(c: TranslatorConfig, langs: seq<string>, first: seq<string>, rest: seq<string>,
                                              read: string -> Option<string>,
                                              translate: (string, seq<string>) -> seq<ResponseItem>)
    ensures TranslateAll(c, langs, first + rest, read, translate)
            == TranslateAll(c, langs, first, read, translate) + TranslateAll(c, langs, rest, read, translate)
  {
    if rest == [] {
      assert first + rest == first;
    } else {
      var init, last := rest[..|rest| - 1], rest[|rest| - 1];
      assert (first + rest)[..|first + rest| - 1] == first + init;
      assert (first + rest)[|first + rest| - 1] == last;
      var w := TranscriptWrites(c, langs, last, read, translate);
      calc {
        TranslateAll(c, langs, first + rest, read, translate);
        TranslateAll(c, langs, first + init, read, translate) + w;
        { TranslateAllAppend(c, langs, first, init, read, translate); }
        TranslateAll(c, langs, first, read, translate) + TranslateAll(c, langs, init, read, translate) + w;
        TranslateAll(c, langs, first, read, translate) + TranslateAll(c, langs, rest, read, translate);
      }
    }
  }

  /**
   * A transcript whose response is empty can be dropped from anywhere in
   * the listing without changing what is written.
   */
  lemma EmptyResponseDropped(c: TranslatorConfig, langs: seq<string>, before: seq<string>, name: string, after: seq<string>,
                             read: string -> Option<string>,
                             translate: (string, seq<string>) -> seq<ResponseItem>)
    requires translate(ReadOrEmpty(read(PyPath.Join(c.transcriptsFolder, name))), langs) == []
    ensures TranslateAll(c, langs, before + [name] + after, read, translate)
            == TranslateAll(c, langs, before + after, read, translate)
  {
    TranslateAllAppend(c, langs, before + [name], after, read, translate);
    TranslateAllAppend(c, langs, before, after, read, translate);
    TranslateNext(c, langs, before, name, read, translate);
  }

  /** Transcripts whose request fails or comes back empty produce no file at all. */
  lemma {:induction false} EmptyResponsesWriteNothing(c: TranslatorConfig, langs: seq<string>, names: seq<string>,
                                                      read: string -> Option<string>,
                                                      translate: (string, seq<string>) -> seq<ResponseItem>)
    requires forall text :: translate(text, langs) == []
    ensures TranslateAll(c, langs, names, read, translate) == []
  {
    if names != [] {
      EmptyResponsesWriteNothing(c, langs, names[..|names| - 1], read, translate);
    }
  }

  /**
   * `azure_translator(*args)`: build and validate the configuration (a
   * failed check ends the call with its error), choose the languages, and
   * translate every transcript the folder listing holds.
   */
  method RunTranslator(args: seq<string>, env: Environment, dirs: set<string>, listing: seq<string>,
                       read: string -> Option<string>,
                       translate: (string, seq<string>) -> seq<ResponseItem>)
    returns (r: Result<seq<Output>, ConfigError>)
    ensures var c := ConfigFromEnv(env);
      && (r.Err? <==> ValidateConfig(c, dirs).Fail?)
      && (r.Err? ==> ValidateConfig(c, dirs) == Fail(r.error))
      && (r.Ok? ==> r.value == TranslateAll(c, TargetLanguages(args, c), WithSuffix(listing, ".txt"), read, translate))
  {
    var c := ConfigFromEnv(env);
    var check := ValidateConfig(c, dirs);
    if check.Fail? {
      return Err(check.error);
    }
    var langs := TargetLanguages(args, c);
    var names := WithSuffix(listing, ".txt");
    var outputs := [];
    for k := 0 to |names|
      invariant outputs == TranslateAll(c, langs, names[..k], read, translate)
    {
      var text := ReadOrEmpty(read(PyPath.Join(c.transcriptsFolder, names[k])));
      var response := translate(text, langs);
      assert names[..k + 1][..k] == names[..k];
      if response != [] {
        var saved := SaveTranslation(c, names[k], response);
        outputs := outputs + saved;
      }
    }
    assert names[..|names|] == names;
    return Ok(outputs);
  }
}
