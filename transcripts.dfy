/**
 * What every speech-to-text variant writes for one audio file: a text file
 * with one line per recognised phrase, a JSON list of the phrases, and one
 * SQLite row `(audio file name, phrase)` per phrase.
 */
module Transcripts {
  import opened PyStr
  import PyPath
  import opened Outputs

  /** The database file every variant shares inside the transcripts folder. */
  const DatabaseName: string := "transcriptions.db"

  /** The writes for one audio file, in the order the variants make them: text file, JSON file, database. */
  function TranscriptOutputs(folder: string, stem: string, table: string, audioName: string,
                             results: seq<string>, commitEachInsert: bool): seq<Output>
  {
    [ TextFile(PyPath.Join(folder, stem + ".txt"), Lines(results)),
      JsonFile(PyPath.Join(folder, stem + ".json"), StringArray(results)),
      Sqlite(PyPath.Join(folder, DatabaseName),
             Rows(table, [Text(audioName)], results),
             (if commitEachInsert then CountUp(|results|) else []) + [|results|]) ]
  }

  /** `write_to_file`, `write_to_json` and `write_to_sqlite` for one audio file, in that order. */
  method WriteTranscript(folder: string, stem: string, table: string, audioName: string,
                         results: seq<string>, commitEachInsert: bool)
    returns (outputs: seq<Output>)
    ensures outputs == TranscriptOutputs(folder, stem, table, audioName, results, commitEachInsert)
  {
    var content := WriteLines(results);
    var rows, commits := InsertRows(table, [Text(audioName)], results, commitEachInsert);
    outputs := [
      TextFile(PyPath.Join(folder, stem + ".txt"), content),
      JsonFile(PyPath.Join(folder, stem + ".json"), StringArray(results)),
      Sqlite(PyPath.Join(folder, DatabaseName), rows, commits)];
  }

  /**
   * Each store gives the phrases back: the text file's lines, the JSON
   * list's strings and the database rows' last column are the phrases in
   * order, and every row names the audio file.
   */
  lemma TranscriptReadBack(folder: string, stem: string, table: string, audioName: string,
                           results: seq<string>, commitEachInsert: bool)
    requires forall k :: 0 <= k < |results| ==> '\n' !in results[k]
    ensures var out := TranscriptOutputs(folder, stem, table, audioName, results, commitEachInsert);
      && Split(out[0].content, '\n') == results + [""]
      && |out[1].value.items| == |results|
      && (forall k :: 0 <= k < |results| ==> out[1].value.items[k] == JStr(results[k]))
      && |out[2].rows| == |results|
      && (forall k :: 0 <= k < |results| ==> out[2].rows[k] == Row(table, [Text(audioName), Text(results[k])]))
  {
    LinesReadBack(results);
  }
}
