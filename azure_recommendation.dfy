/**
 * The package's `azure_recommendation`: for every `.txt` transcript, ask a
 * text-completion service for an executive summary and save the first
 * choice, stripped, as `azure_recommendation-<name>` in the recommendations
 * folder. A response without choices raises, which ends the run; the
 * entry point logs and swallows every exception.
 */
module AzureRecommendation {
  import opened Wrappers
  import opened PyStr
  import PyPath
  import opened Env
  import opened Outputs

  datatype RecConfig = RecConfig(
    apiKey: Option<string>,
    transcripts: Option<string>,
    recommendations: Option<string>)

  function ConfigFromEnv(env: Environment): RecConfig {
    RecConfig(
      GetEnv(env, "GPT3_API_KEY"),
      GetEnv(env, "TRANSCRIPTS_FOLDER"),
      GetEnv(env, "RECOMMENDATIONS_FOLDER"))
  }

  predicate Complete(c: RecConfig) {
    c.apiKey.Some? && c.transcripts.Some? && c.recommendations.Some?
  }

  /** `Config.validate`: `EnvironmentError` when any of the three settings is `None`. An empty value passes. */
  function Validate(c: RecConfig): (r: Outcome<string>)
    ensures r.Pass? <==> Complete(c)
  {
    var required := [c.apiKey, c.transcripts, c.recommendations];
    assert Complete(c) <==> forall k :: 0 <= k < |required| ==> required[k].Some? by {
      assert required[0] == c.apiKey && required[1] == c.transcripts && required[2] == c.recommendations;
    }
    RequireAll(required)
  }

  /** The check fails exactly when one of the three variables is unset. */
  lemma ValidateFromEnv(env: Environment)
    ensures Validate(ConfigFromEnv(env)).Pass? <==>
      "GPT3_API_KEY" in env && "TRANSCRIPTS_FOLDER" in env && "RECOMMENDATIONS_FOLDER" in env
  {
  }

  /** The fixed instructions placed between the conversation id and the transcript. */
  const PromptTemplate: string :=
    "\nSummarize key insights from the provided transcripts in a concise executive\n"
    + "summary (10-15% of original length), suitable for senior banking and finance\n"
    + "leaders. The summary should be formatted for ease of comprehension, neutral,\n"
    + "objective, and fact-based. Avoid subjective language or tone.\n"
    + "\n"
    + "- Briefly mention the source (e.g., customer calls, market research) and\n"
    + "objectives of the discussion/research.\n"
    + "- Organize the summary with clear section headings such as 'Key Findings',\n"
    + "'Trends', and 'Strategic Recommendations'.\n"
    + "- Include 3-5 bullet points for crucial findings, 2-3 sentences for trends,\n"
    + "etc.\n"
    + "- Prioritize the most crucial, actionable findings in short, focused bullet\n"
    + "points.\n"
    + "- Highlight important trends in 1-2 brief summary sentences.\n"
    + "- Provide forward-looking strategic recommendations focused on improving\n"
    + "customer satisfaction.\n"
    + "- Separate each main insight/finding/recommendation with line breaks.\n"
    + "- Use clear, industry-specific business language appropriate for senior\n"
    + "executives in banking and finance.\n"

  /** The prompt sent for one transcript: the conversation id, a line break, the instructions, the transcript, a line break. */
  function Prompt(conversationId: string, transcript: string): string {
    conversationId + "\n" + PromptTemplate + transcript + "\n"
  }

  /** A text framed as `head + "\n" + middle + body + "\n"` gives back each part at offsets fixed by the lengths of `head` and `middle`. */
  lemma FramedParts(head: string, middle: string, body: string)
    ensures var p, start := head + "\n" + middle + body + "\n", |head| + 1 + |middle|;
      && |p| == start + |body| + 1
      && p[..|head|] == head
      && p[|head|] == '\n'
      && p[|head| + 1..start] == middle
      && p[start..|p| - 1] == body
      && p[|p| - 1] == '\n'
  {
    var p := head + "\n" + middle + body + "\n";
    var start := |head| + 1 + |middle|;
    assert p == (head + "\n" + middle) + body + "\n";
    assert p[..start] == head + "\n" + middle;
    assert p[..start][..|head|] == p[..|head|];
    assert p[..start][|head| + 1..] == p[|head| + 1..start];
  }

  /**
   * The prompt is the id, a line break, the instructions, the transcript and
   * a final line break, each at a position fixed by the id's length, so the
   * id and the transcript can be read back from it.
   */
  lemma PromptParts(conversationId: string, transcript: string)
    ensures var p, start := Prompt(conversationId, transcript), |conversationId| + 1 + |PromptTemplate|;
      && |p| == start + |transcript| + 1
      && p[..|conversationId|] == conversationId
      && p[|conversationId|] == '\n'
      && p[|conversationId| + 1..start] == PromptTemplate
      && p[start..|p| - 1] == transcript
      && p[|p| - 1] == '\n'
  {
    FramedParts(conversationId, PromptTemplate, transcript);
  }

  /** Two prompts with ids of one length (a `uuid4` string always has 36 characters) are equal only for the same id and transcript. */
  lemma PromptInjective(id1: string, t1: string, id2: string, t2: string)
    requires |id1| == |id2| && Prompt(id1, t1) == Prompt(id2, t2)
    ensures id1 == id2 && t1 == t2
  {
    FramedInjective(id1, t1, id2, t2, PromptTemplate);
  }

  lemma FramedInjective(head1: string, body1: string, head2: string, body2: string, middle: string)
    requires |head1| == |head2| && head1 + "\n" + middle + body1 + "\n" == head2 + "\n" + middle + body2 + "\n"
    ensures head1 == head2 && body1 == body2
  {
    FramedParts(head1, middle, body1);
    FramedParts(head2, middle, body2);
  }

  /** The model the request names, and its fixed limits. */
  const Engine := "gpt-3.5-turbo-instruct"
  const MaxTokens: nat := 1024
  const ChoiceCount: nat := 1

  /** A completion request; the sampling temperature is not modelled. */
  datatype Request = Request(engine: string, prompt: string, maxTokens: nat, n: nat)

  function RequestFor(prompt: string): Request {
    Request(Engine, prompt, MaxTokens, ChoiceCount)
  }

  /** `response.choices[0].text.strip()`: `None` stands for the `IndexError` of an empty choice list. */
  function Recommendation(choices: seq<string>): (r: Option<string>)
    ensures r.Some? <==> choices != []
  {
    if choices == [] then None else Some(Strip(choices[0]))
  }

  /**
   * A recommendation is the first choice with only surrounding whitespace
   * cut: it neither starts nor ends with whitespace, it is the slice of the
   * first choice after its leading whitespace, and stripping it again
   * changes nothing.
   */
  lemma RecommendationTrimmed(choices: seq<string>)
    requires choices != []
    ensures var text, i := Recommendation(choices).value, |choices[0]| - |StripStart(choices[0])|;
      && (text == [] || (!IsSpace(text[0]) && !IsSpace(text[|text| - 1])))
      && Strip(text) == text
      && i + |text| <= |choices[0]| && choices[0][i..i + |text|] == text
  {
    var first := choices[0];
    assert Recommendation(choices).value == Strip(first);
    StripTrimmed(first);
    StripIdempotent(first);
    StripCutsOnlySpace(first);
  }

  /** `generate_recommendation(input_text)`, the conversation id supplied by the caller. */
  method GenerateRecommendation(c: RecConfig, inputText: string, conversationId: string,
                                complete: (string, Request) -> seq<string>)
    returns (r: Option<string>)
    requires Complete(c)
    ensures r == Recommendation(complete(c.apiKey.value, RequestFor(Prompt(conversationId, inputText))))
  {
    var prompt := Prompt(conversationId, inputText);
    var choices := complete(c.apiKey.value, RequestFor(prompt));
    r := Recommendation(choices);
  }

  const OutputPrefix := "azure_recommendation-"

  /** The recommendation for the transcript `filename`: the prefixed name inside the recommendations folder. */
  function OutputPath(folder: string, filename: string): string {
    PyPath.Join(folder, OutputPrefix + filename)
  }

  /** The prefixed name never starts with '/', so the join always lands inside the folder. */
  lemma OutputPathShape(folder: string, filename: string)
    ensures var pre := if folder == [] || EndsWith(folder, "/") then folder else folder + "/";
      OutputPath(folder, filename) == pre + OutputPrefix + filename
    ensures '/' !in filename ==> PyPath.Basename(OutputPath(folder, filename)) == OutputPrefix + filename
  {
    assert (OutputPrefix + filename)[0] == 'a';
    if '/' !in filename {
      assert '/' !in OutputPrefix + filename by {
        assert forall i :: 0 <= i < |OutputPrefix| ==> OutputPrefix[i] != '/';
      }
      PyPath.BasenameOfJoin(folder, OutputPrefix + filename);
    }
  }

  /** Different transcripts get different recommendation files. */
  lemma OutputPathsDistinct(folder: string, a: string, b: string)
    requires a != b
    ensures OutputPath(folder, a) != OutputPath(folder, b)
  {
    OutputPathShape(folder, a);
    OutputPathShape(folder, b);
    var pre := if folder == [] || EndsWith(folder, "/") then folder else folder + "/";
    var n := |pre| + |OutputPrefix|;
    assert (pre + OutputPrefix + a)[n..] == a;
    assert (pre + OutputPrefix + b)[n..] == b;
  }

  /** The only transcripts the loop picks. */
  const TranscriptSuffix := ".txt"

  /** The choices returned for the transcript `name`, the k-th the loop picks, asked with the k-th conversation id. */
  function ChoicesFor(c: RecConfig, name: string, k: nat, read: string -> string, ids: nat -> string,
                      complete: (string, Request) -> seq<string>): seq<string>
    requires Complete(c)
  {
    complete(c.apiKey.value, RequestFor(Prompt(ids(k), read(PyPath.Join(c.transcripts.value, name)))))
  }

  /** One turn of `generate_recommendations`: the recommendation file, or an `IndexError` on an empty choice list. */
  function FileSaved(c: RecConfig, name: string, k: nat, read: string -> string, ids: nat -> string,
                     complete: (string, Request) -> seq<string>): (s: Saved)
    requires Complete(c)
    ensures s.raised <==> ChoicesFor(c, name, k, read, ids, complete) == []
    ensures |s.outputs| <= 1
    ensures forall o :: o in s.outputs ==> o.TextFile? && o.path == OutputPath(c.recommendations.value, name)
  {
    match Recommendation(ChoicesFor(c, name, k, read, ids, complete))
    case None => Saved([], true)
    case Some(text) => Saved([TextFile(OutputPath(c.recommendations.value, name), text)], false)
  }

  /** The turns for the transcripts `names`, in the order the loop picks them. */
  function FilesSaved(c: RecConfig, names: seq<string>, read: string -> string, ids: nat -> string,
                      complete: (string, Request) -> seq<string>): (saves: seq<Saved>)
    requires Complete(c)
    ensures |saves| == |names|
  {
    seq(|names|, i requires 0 <= i < |names| => FileSaved(c, names[i], i, read, ids, complete))
  }

  /** The loop is ended by an exception exactly when some transcript gets no choices back. */
  lemma StopsIffSomeEmpty(c: RecConfig, names: seq<string>, read: string -> string, ids: nat -> string,
                          complete: (string, Request) -> seq<string>)
    requires Complete(c)
    ensures Run(FilesSaved(c, names, read, ids, complete)).stopped <==>
      exists i :: 0 <= i < |names| && ChoicesFor(c, names[i], i, read, ids, complete) == []
  {
    var saves := FilesSaved(c, names, read, ids, complete);
    StopsIffSomeRaises(saves);
    forall i | 0 <= i < |names| ensures saves[i].raised <==> ChoicesFor(c, names[i], i, read, ids, complete) == [] {
      assert saves[i] == FileSaved(c, names[i], i, read, ids, complete);
    }
  }

  /** A transcript that gets choices back leaves its recommendation file and does not raise. */
  lemma FileSavedWrites(c: RecConfig, name: string, k: nat, read: string -> string, ids: nat -> string,
                        complete: (string, Request) -> seq<string>)
    requires Complete(c) && ChoicesFor(c, name, k, read, ids, complete) != []
    ensures FileSaved(c, name, k, read, ids, complete) ==
      Saved([TextFile(OutputPath(c.recommendations.value, name), Strip(ChoicesFor(c, name, k, read, ids, complete)[0]))], false)
  {
  }

  /**
   * When every transcript gets a choice back, the loop writes exactly one
   * file per transcript, in order: the prefixed name in the recommendations
   * folder, holding the stripped first choice.
   */
  lemma WritesOnePerFile(c: RecConfig, names: seq<string>, read: string -> string, ids: nat -> string,
                         complete: (string, Request) -> seq<string>)
    requires Complete(c)
    requires forall i :: 0 <= i < |names| ==> ChoicesFor(c, names[i], i, read, ids, complete) != []
    ensures var p := Run(FilesSaved(c, names, read, ids, complete));
      && !p.stopped
      && |p.outputs| == |names|
      && forall i :: 0 <= i < |names| ==>
           p.outputs[i] == TextFile(OutputPath(c.recommendations.value, names[i]),
                                    Strip(ChoicesFor(c, names[i], i, read, ids, complete)[0]))
  {
    var saves := FilesSaved(c, names, read, ids, complete);
    forall i | 0 <= i < |names|
      ensures saves[i] == Saved([TextFile(OutputPath(c.recommendations.value, names[i]),
                                          Strip(ChoicesFor(c, names[i], i, read, ids, complete)[0]))], false)
    {
      FileSavedWrites(c, names[i], i, read, ids, complete);
    }
    RunOneEach(saves, |names|);
    assert saves[..|names|] == saves;
  }

  /** Every file the loop writes is the recommendation file of a listed name ending in `.txt`. */
  lemma OnlyTranscriptsAnswered(c: RecConfig, listing: seq<string>, read: string -> string, ids: nat -> string,
                                complete: (string, Request) -> seq<string>)
    requires Complete(c)
    ensures forall o :: o in Run(FilesSaved(c, WithSuffix(listing, TranscriptSuffix), read, ids, complete)).outputs ==>
      o.TextFile? && exists n :: n in listing && EndsWith(n, TranscriptSuffix) && o.path == OutputPath(c.recommendations.value, n)
  {
    var names := WithSuffix(listing, TranscriptSuffix);
    var saves := FilesSaved(c, names, read, ids, complete);
    RunOutputsFrom(saves);
    forall o | o in Run(saves).outputs
      ensures o.TextFile? && exists n :: n in listing && EndsWith(n, TranscriptSuffix) && o.path == OutputPath(c.recommendations.value, n)
    {
      var i :| 0 <= i < |saves| && o in saves[i].outputs;
      assert saves[i] == FileSaved(c, names[i], i, read, ids, complete);
      WithSuffixMembers(listing, TranscriptSuffix, names[i]);
      assert names[i] in listing && EndsWith(names[i], TranscriptSuffix);
    }
  }

  /** One turn of the loop, for the k-th transcript of `names`, the earlier ones having gone through. */
  method GenerateNext(c: RecConfig, names: seq<string>, k: nat, read: string -> string, ids: nat -> string,
                      complete: (string, Request) -> seq<string>, ghost saves: seq<Saved>, before: seq<Output>)
    returns (after: seq<Output>, raised: bool)
    requires Complete(c) && k < |names| == |saves|
    requires saves[k] == FileSaved(c, names[k], k, read, ids, complete)
    requires Run(saves[..k]) == Progress(before, false)
    ensures Run(saves[..k + 1]) == Progress(after, raised)
  {
    var transcript := read(PyPath.Join(c.transcripts.value, names[k]));
    var recommendation := GenerateRecommendation(c, transcript, ids(k), complete);
    RunStep(saves, k);
    if recommendation.None? {
      after, raised := before, true;
      assert saves[k].outputs == [];
    } else {
      after := before + [TextFile(OutputPath(c.recommendations.value, names[k]), recommendation.value)];
      raised := false;
    }
  }

  /**
   * `generate_recommendations`: make the recommendations folder (an
   * existing one is fine, "" raises before anything is written), then
   * answer the listed `.txt` transcripts in listing order until one raises.
   */
  method GenerateRecommendations(c: RecConfig, listing: seq<string>, read: string -> string, ids: nat -> string,
                                 complete: (string, Request) -> seq<string>)
    returns (outputs: seq<Output>, stopped: bool)
    requires Complete(c)
    ensures c.recommendations.value == "" ==> outputs == [] && stopped
    ensures var p := Run(FilesSaved(c, WithSuffix(listing, TranscriptSuffix), read, ids, complete));
      c.recommendations.value != "" ==> outputs == [MakeDirs(c.recommendations.value)] + p.outputs && stopped == p.stopped
  {
    var made := MakeFolderExistOk(c.recommendations.value);
    if made.None? {
      return [], true;
    }
    var names := WithSuffix(listing, TranscriptSuffix);
    ghost var saves := FilesSaved(c, names, read, ids, complete);
    var written: seq<Output> := [];
    stopped := false;
    var k := 0;
    while k < |names| && !stopped
      invariant k <= |names|
      invariant Run(saves[..k]) == Progress(written, stopped)
      decreases |names| - k
    {
      written, stopped := GenerateNext(c, names, k, read, ids, complete, saves, written);
      k := k + 1;
    }
    if stopped {
      StoppedStays(saves, k);
    } else {
      assert saves[..k] == saves;
    }
    outputs := made.value + written;
  }

  /**
   * `azure_recommendation()`: with the configuration complete, generate the
   * recommendations; a missing setting, or a recommendations folder of "",
   * writes nothing. Any exception is logged and swallowed, so the call
   * always returns.
   */
  method RunAzureRecommendation(env: Environment, listing: seq<string>, read: string -> string, ids: nat -> string,
                                complete: (string, Request) -> seq<string>)
    returns (outputs: seq<Output>)
    ensures var c := ConfigFromEnv(env);
      && (!Complete(c) || c.recommendations.value == "" ==> outputs == [])
      && (Complete(c) && c.recommendations.value != "" ==>
            outputs == [MakeDirs(c.recommendations.value)]
                       + Run(FilesSaved(c, WithSuffix(listing, TranscriptSuffix), read, ids, complete)).outputs)
  {
    var c := ConfigFromEnv(env);
    if Validate(c).Fail? {
      return [];
    }
    var stopped;
    outputs, stopped := GenerateRecommendations(c, listing, read, ids, complete);
  }
}
