/**
 * What the modules leave behind: folders made, text, binary and JSON files
 * written, and rows inserted into SQLite databases, with the serialisers the
 * transcript and translation writers share.
 */
module Outputs {
  import opened Wrappers
  import opened PyStr

  /** A JSON document as `json.dump` writes it. */
  datatype Json =
    | JNull
    | JBool(b: bool)
    | JInt(i: int)
    | JFloat(repr: string)
    | JStr(s: string)
    | JArray(items: seq<Json>)
    | JObject(members: seq<Member>)

  datatype Member = Member(key: string, value: Json)

  /** A SQLite cell: a text value, or the `json.dumps` text of a JSON document. */
  datatype Cell = Text(s: string) | JsonText(value: Json)

  datatype Row = Row(table: string, cells: seq<Cell>)

  /**
   * One effect on the file system. `commits` lists, for every `commit` of the
   * connection, how many of `rows` had been inserted when it ran.
   */
  datatype Output =
    | MakeDirs(dir: string)
    | TextFile(path: string, content: string)
    | BinaryFile(path: string, bytes: seq<bv8>)
    | JsonFile(path: string, value: Json)
    | Sqlite(path: string, rows: seq<Row>, commits: seq<nat>)

  /**
   * `if not os.path.exists(folder): os.makedirs(folder)`, with `dirs` the
   * folders that exist: `None` when `makedirs` raises, as it does for the
   * empty path (`os.path.exists("")` is false and "" names no folder to
   * make); otherwise the folder made, or nothing when it exists.
   */
  function MakeFolder(folder: string, dirs: set<string>): (made: Option<seq<Output>>)
    ensures made.None? <==> folder == ""
    ensures made.Some? ==> (made.value == [] <==> folder in dirs)
    ensures made.Some? ==> forall o :: o in made.value ==> o == MakeDirs(folder)
  {
    if folder == "" then None
    else if folder in dirs then Some([])
    else Some([MakeDirs(folder)])
  }

  /** `os.makedirs(folder, exist_ok=True)`: raises only for the empty path. */
  function MakeFolderExistOk(folder: string): (made: Option<seq<Output>>)
    ensures made.None? <==> folder == ""
  {
    if folder == "" then None else Some([MakeDirs(folder)])
  }

  /** The text of a file written by `for t in texts: file.write(t + "\n")`. */
  function Lines(texts: seq<string>): string {
    if texts == [] then "" else texts[0] + "\n" + Lines(texts[1..])
  }

  lemma {:induction false} LinesAppend(a: seq<string>, b: seq<string>)
    ensures Lines(a + b) == Lines(a) + Lines(b)
  {
    if a == [] {
      assert a + b == b;
    } else {
      LinesAppend(a[1..], b);
      assert (a + b)[1..] == a[1..] + b;
    }
  }

  /** Writes one line per text, in order, as the transcript and translation writers do. */
  method WriteLines(texts: seq<string>) returns (content: string)
    ensures content == Lines(texts)
  {
    content := "";
    for i := 0 to |texts|
      invariant content == Lines(texts[..i])
    {
      LinesAppend(texts[..i], [texts[i]]);
      assert texts[..i + 1] == texts[..i] + [texts[i]];
      content := content + texts[i] + "\n";
    }
    assert texts[..|texts|] == texts;
  }

  /**
   * Reading the file back: splitting its text at newlines gives the texts
   * again, followed by the empty piece after the last newline.
   */
  lemma {:induction false} LinesReadBack(texts: seq<string>)
    requires forall k :: 0 <= k < |texts| ==> '\n' !in texts[k]
    ensures Split(Lines(texts), '\n') == texts + [""]
  {
    if texts != [] {
      LinesReadBack(texts[1..]);
      SplitAfterPiece(texts[0], '\n', Lines(texts[1..]));
      assert texts[0] + "\n" + Lines(texts[1..]) == texts[0] + ['\n'] + Lines(texts[1..]);
      assert texts == [texts[0]] + texts[1..];
    }
  }

  /** `json.dump(texts)` for a list of strings. */
  function StringArray(texts: seq<string>): (j: Json)
    ensures j.JArray? && |j.items| == |texts|
    ensures forall k :: 0 <= k < |texts| ==> j.items[k] == JStr(texts[k])
  {
    JArray(seq(|texts|, k requires 0 <= k < |texts| => JStr(texts[k])))
  }

  /** The rows `INSERT ... VALUES (key..., text)` adds for each text, in order. */
  function Rows(table: string, key: seq<Cell>, texts: seq<string>): seq<Row> {
    seq(|texts|, k requires 0 <= k < |texts| => Row(table, key + [Text(texts[k])]))
  }

  /** The text column of rows whose last cell is text. */
  function LastColumn(rows: seq<Row>): seq<string>
    requires forall k :: 0 <= k < |rows| ==> |rows[k].cells| > 0 && rows[k].cells[|rows[k].cells| - 1].Text?
  {
    seq(|rows|, k requires 0 <= k < |rows| => rows[k].cells[|rows[k].cells| - 1].s)
  }

  /** Selecting the text column back out of the table gives the texts, in insertion order. */
  lemma RowsReadBack(table: string, key: seq<Cell>, texts: seq<string>)
    ensures var rows := Rows(table, key, texts);
      && |rows| == |texts|
      && (forall k :: 0 <= k < |rows| ==> rows[k].table == table && rows[k].cells[..|key|] == key)
      && (forall k :: 0 <= k < |rows| ==> |rows[k].cells| > 0 && rows[k].cells[|rows[k].cells| - 1].Text?)
      && LastColumn(rows) == texts
  {
    var rows := Rows(table, key, texts);
    assert forall k :: 0 <= k < |rows| ==> rows[k].cells == key + [Text(texts[k])];
  }

  /** The effects of several steps, each step's after the one before. */
  function Sequenced(steps: seq<seq<Output>>): seq<Output> {
    if steps == [] then [] else Sequenced(steps[..|steps| - 1]) + steps[|steps| - 1]
  }

  lemma SequencedAppend(steps: seq<seq<Output>>, step: seq<Output>)
    ensures Sequenced(steps + [step]) == Sequenced(steps) + step
  {
    assert (steps + [step])[..|steps|] == steps;
  }

  /** `[1, 2, ..., n]` */
  function CountUp(n: nat): (r: seq<nat>)
    ensures |r| == n && forall k :: 0 <= k < n ==> r[k] == k + 1
  {
    if n == 0 then [] else CountUp(n - 1) + [n]
  }

  /**
   * The insert loop of the SQLite writers: one row per text, in order, then
   * one final commit (the closing `with` block or an explicit `commit()`);
   * with `commitEachInsert` every insert is committed as soon as it is made.
   */
  method InsertRows(table: string, key: seq<Cell>, texts: seq<string>, commitEachInsert: bool)
    returns (rows: seq<Row>, commits: seq<nat>)
    ensures rows == Rows(table, key, texts)
    ensures commits == (if commitEachInsert then CountUp(|texts|) else []) + [|texts|]
  {
    rows, commits := [], [];
    for i := 0 to |texts|
      invariant rows == Rows(table, key, texts[..i])
      invariant commits == if commitEachInsert then CountUp(i) else []
    {
      rows := rows + [Row(table, key + [Text(texts[i])])];
      if commitEachInsert {
        commits := commits + [|rows|];
      }
    }
    assert texts[..|texts|] == texts;
    commits := commits + [|rows|];
  }

  // A loop over files that an exception ends: each turn leaves its
  // outputs, and the first turn that raises is the last.

  /** What one turn leaves behind, and whether it raised. */
  datatype Saved = Saved(outputs: seq<Output>, raised: bool)

  /** How far a loop gets: what it wrote, and whether an exception ended it. */
  datatype Progress = Progress(outputs: seq<Output>, stopped: bool)

  /** The turns in order, up to and including the first that raises. */
  function Run(saves: seq<Saved>): Progress {
    if saves == [] then Progress([], false)
    else
      var n := |saves| - 1;
      var prev := Run(saves[..n]);
      if prev.stopped then prev else Progress(prev.outputs + saves[n].outputs, saves[n].raised)
  }

  /** A turn after the earlier ones went through adds its outputs and its verdict. */
  lemma RunStep(saves: seq<Saved>, k: nat)
    requires k < |saves| && !Run(saves[..k]).stopped
    ensures Run(saves[..k + 1]) == Progress(Run(saves[..k]).outputs + saves[k].outputs, saves[k].raised)
  {
    assert saves[..k + 1][..k] == saves[..k];
  }

  /** Once a turn has raised, the later ones add nothing. */
  lemma {:induction false} StoppedStays(saves: seq<Saved>, i: nat)
    requires i <= |saves| && Run(saves[..i]).stopped
    ensures Run(saves) == Run(saves[..i])
    decreases |saves| - i
  {
    if i < |saves| {
      var n := |saves| - 1;
      assert saves[..n][..i] == saves[..i];
      StoppedStays(saves[..n], i);
    } else {
      assert saves[..i] == saves;
    }
  }

  /** A run is ended by an exception exactly when one of its turns raises. */
  lemma {:induction false} StopsIffSomeRaises(saves: seq<Saved>)
    ensures Run(saves).stopped <==> exists i :: 0 <= i < |saves| && saves[i].raised
  {
    if saves != [] {
      var n := |saves| - 1;
      StopsIffSomeRaises(saves[..n]);
      if exists i :: 0 <= i < |saves| && saves[i].raised {
        var i :| 0 <= i < |saves| && saves[i].raised;
        if i < n {
          assert saves[..n][i].raised;
        }
      }
    }
  }

  /** Whatever a run wrote, some turn of it wrote. */
  lemma {:induction false} RunOutputsFrom(saves: seq<Saved>)
    ensures forall o :: o in Run(saves).outputs ==> exists i :: 0 <= i < |saves| && o in saves[i].outputs
  {
    if saves != [] {
      var n := |saves| - 1;
      RunOutputsFrom(saves[..n]);
      forall o | o in Run(saves).outputs ensures exists i :: 0 <= i < |saves| && o in saves[i].outputs {
        if o in Run(saves[..n]).outputs {
          var i :| 0 <= i < |saves[..n]| && o in saves[..n][i].outputs;
          assert saves[i] == saves[..n][i];
        } else {
          assert o in saves[n].outputs;
        }
      }
    }
  }

  /** When every turn writes exactly one output and none raises, the run writes them one after another. */
  lemma {:induction false} RunOneEach(saves: seq<Saved>, k: nat)
    requires k <= |saves|
    requires forall i :: 0 <= i < |saves| ==> |saves[i].outputs| == 1 && !saves[i].raised
    ensures var p := Run(saves[..k]);
      && !p.stopped
      && |p.outputs| == k
      && forall i :: 0 <= i < k ==> p.outputs[i] == saves[i].outputs[0]
  {
    if k == 0 {
      assert saves[..0] == [];
    } else {
      RunOneEach(saves, k - 1);
      RunStep(saves, k - 1);
    }
  }
}
