# audioanalyser, the deterministic core

A model in Dafny of the parts of audioanalyser that do not depend on a
cloud service, the sound card or the clock. audioanalyser records audio,
transcribes it with Azure Speech, translates and analyses the transcripts,
and asks a completion service for a recommendation. What the program
decides by itself is modelled here:

- the audio recorder's settings check, its recording flag and its chunk loop;
- the translator's language list, its configuration check, and the
  grouping of a translator response by language, with the files and rows
  written for each language;
- the three speech-to-text variants (two package modules and a stand-alone
  script): which files they pick, the paths they derive, and the lines,
  JSON lists and database rows they write;
- the three text-analysis variants: the results dict, the summary text,
  the report names, and the conversion of result objects to JSON;
- the text-to-speech argument and configuration checks and its output path;
- the recommendation prompt, the stripping of its answer, and the files
  written for it.

Every service answer, directory listing, file read, existence check, clock
reading and `uuid` is a parameter. Every effect (a file written, a folder
made, rows inserted and committed) is an `Output` value, and each operation
returns the sequence of outputs it makes, in order. A loop that an
exception can end is modelled as a sequence of turns (`Saved`: outputs
plus whether the turn raised), run by `Outputs.Run` up to the first turn
that raises. A folder of "" is one that `os.makedirs` refuses, so every
operation that makes its output folder writes nothing for it.

The text-analysis saves write their report as the code does: the results
dict goes through the converter's `str()` fallback and is stored as one
string. The report the code evidently means, the dict converted key by
key, is modelled beside it as the intended save (see Findings).

Modules, one per source file plus shared ones:

| module | models |
|---|---|
| `Wrappers`, `Env`, `PyStr`, `PyPath` | `Option`/`Result`, `os.getenv`, the `str` and `os.path` operations the code uses |
| `Outputs` | effects, `write_to_file` lines, `json.dump` of a string list, insert loops with commits, runs of turns |
| `Serializable` | Python values, `repr`, `convert_to_serializable`, `json.dumps(..., default=lambda x: x.__dict__)` |
| `SpeechRecognition`, `Transcripts` | the callbacks of `speech_to_text_long`, and the three transcript writers |
| `AudioRecorder` | audioanalyser/modules/audio_recorder.py |
| `Translator` | audioanalyser/modules/azure_translator.py |
| `TranscribeAudioFiles` | audioanalyser/modules/transcribe_audio_files.py |
| `AzureSpeechToText` | audioanalyser/modules/azure_speech_to_text.py |
| `SpeechToTextScript` | azure_speech_to_text.py |
| `TextAnalytics` | what the three text-analysis variants share |
| `AnalyzeTextFiles` | audioanalyser/modules/analyze_text_files.py |
| `AzureTextAnalysis` | audioanalyser/modules/azure_text_analysis.py |
| `TextAnalysisScript` | azure_text_analysis.py |
| `TextToSpeech` | audioanalyser/modules/text_to_speech.py |
| `AzureRecommendation` | audioanalyser/modules/azure_recommendation.py |

## Model

| member | source | states |
|---|---|---|
| AudioRecorder.ValidateAudioSettings | audioanalyser/modules/audio_recorder.py:88-101 | passes iff FORMAT is paInt16, paInt24 or paInt32, CHANNELS is 1 or 2 and RATE is in 8000..48000; each error is returned exactly when its check is the first to fail |
| AudioRecorder.ChunkAndDurationUnchecked | audioanalyser/modules/audio_recorder.py:88-101 | CHUNK and RECORD_SECONDS never change the verdict, so the defaults with CHUNK 0 pass |
| AudioRecorder.TruncDiv | audioanalyser/modules/audio_recorder.py:152-156 | `int(a / b)`: the quotient of the magnitudes, negated iff exactly one operand is negative |
| AudioRecorder.TruncDivBounds | audioanalyser/modules/audio_recorder.py:152-156 | truncation toward zero without division: `|q·b| <= |a| < |q·b| + |b|`, and `q·b` is zero or has the sign of `a` |
| AudioRecorder.RecordedBounds | audioanalyser/modules/audio_recorder.py:151-164 | the chunks written never exceed the loop bound, the chunks the stream holds, or the iteration at which the signal arrives; a completed recording has a non-zero CHUNK |
| AudioRecorder.RecordedFull | audioanalyser/modules/audio_recorder.py:151-164 | with no signal, a non-zero CHUNK and a long enough stream, every iteration of the bound writes its chunk and the recording completes |
| AudioRecorder.WavDataLength | audioanalyser/modules/audio_recorder.py:160-163 | when every read returns CHUNK frames, the WAV data holds one chunk's bytes per chunk written |
| AudioRecorder.StampRoundTrip | audioanalyser/modules/audio_recorder.py:179 | the `%Y%m%d_%H%M%S` stamp reads back as the date and time it was made from |
| AudioRecorder.OutputFileNaming | audioanalyser/modules/audio_recorder.py:172-183 | the output is `recording_<stamp>.wav` inside INPUT_FOLDER, and different times give different paths |
| AudioRecorder.Recorder.constructor | audioanalyser/modules/audio_recorder.py:110-119 | a new recorder is not recording and has no output path |
| AudioRecorder.Recorder.SignalHandler | audioanalyser/modules/audio_recorder.py:197-206 | clears the recording flag and changes no other field |
| AudioRecorder.Recorder.RecordAudio | audioanalyser/modules/audio_recorder.py:121-170 | the WAV frames are the first chunks of the stream, as many as the loop bound, the signal and the stream allow; afterwards the flag is clear, the stream closed and the audio system terminated, on the raising paths too |
| AudioRecorder.RunAudioRecorder | audioanalyser/modules/audio_recorder.py:209-223 | INPUT_FOLDER is made when missing, before validation; returns the output path iff that folder is not "" (for which `makedirs` raises), validation passes and recording does not raise, and `None` otherwise |
| Translator.ParseLanguages | audioanalyser/modules/azure_translator.py:31-32 | no codes iff the variable is unset or empty; otherwise comma-free codes that joined by "," give the variable back |
| Translator.ParsedCodesAreSplit | audioanalyser/modules/azure_translator.py:31-32 | those two facts determine the codes: any comma-free cut joining back to the variable is the parsed list |
| PyStr.SplitOfJoin | audioanalyser/modules/azure_translator.py:31-32 | `split` of separator-free pieces joined by the separator gives the pieces back |
| Translator.DefaultLanguagesOverwritten | audioanalyser/modules/azure_translator.py:30-32 | the configured list equals the `['fr', 'es', 'de']` default only when the variable spells it out |
| Translator.ValidateConfig | audioanalyser/modules/azure_translator.py:35-55 | passes iff key, endpoint and location are truthy, both folders exist and every code is alphabetic; the missing-configuration error comes first |
| Translator.SpacedCodesRejected | audioanalyser/modules/azure_translator.py:51-55 | "fr, es" is rejected |
| Translator.EmptyCodesRejected | audioanalyser/modules/azure_translator.py:51-55 | "fr,,de" is rejected |
| Translator.PlainCodesAccepted | audioanalyser/modules/azure_translator.py:51-55 | "fr,es,de" is accepted |
| Translator.LanguagesExact | audioanalyser/modules/azure_translator.py:109-115 | the grouped languages are exactly those some translation targets, each once |
| Translator.AddTranslation | audioanalyser/modules/azure_translator.py:115 | one `setdefault(lang, []).append(text)` keeps the dict equal to the grouping of the translations seen so far |
| Translator.AddItem | audioanalyser/modules/azure_translator.py:112-115 | the inner loop over one item's translations keeps the dict equal to the grouping of every translation seen so far |
| Translator.GroupTranslations | audioanalyser/modules/azure_translator.py:109-115 | the dict's keys are exactly the target languages, in order of first occurrence, and each list holds that language's texts in encounter order |
| Translator.GroupingPreservesCount | audioanalyser/modules/azure_translator.py:109-115 | the grouped lists together hold as many texts as there are translations |
| Translator.TranslationFilesDistinct | audioanalyser/modules/azure_translator.py:117-140 | two languages never share an output file |
| Translator.SavedOutputsShape | audioanalyser/modules/azure_translator.py:117-140 | three writes per language, in order JSON list, database rows, text file, each holding exactly that language's texts |
| Translator.SavedRowCount | audioanalyser/modules/azure_translator.py:159-181 | the rows inserted are one per text of the written languages |
| Translator.SavedRowsMatchResponse | audioanalyser/modules/azure_translator.py:106-140 | every translation of the response becomes exactly one row |
| Translator.WriteLanguage | audioanalyser/modules/azure_translator.py:131-140 | one language's JSON list, rows and text file |
| Translator.SaveTranslation | audioanalyser/modules/azure_translator.py:106-140 | group the response, then write each language's three files in order of first occurrence |
| Translator.TranslateNext | audioanalyser/modules/azure_translator.py:192-198 | one more transcript adds nothing when its response is empty, and exactly its saved translations otherwise |
| Translator.TranslateAllAppend | audioanalyser/modules/azure_translator.py:192-198 | the writes for a listing are those for its first part followed by those for the rest |
| Translator.EmptyResponseDropped | audioanalyser/modules/azure_translator.py:197-198 | a transcript whose response is empty can be removed from any place in the listing without changing the writes |
| Translator.EmptyResponsesWriteNothing | audioanalyser/modules/azure_translator.py:197-198 | when every response is empty, nothing is written |
| Translator.RunTranslator | audioanalyser/modules/azure_translator.py:184-198 | fails with the validation error iff validation fails; otherwise explicit arguments override the configured languages and each listed `.txt` transcript is translated and saved in listing order |
| Outputs.WriteLines | audioanalyser/modules/transcribe_audio_files.py:239-241 | the file text is each text followed by a newline, in order |
| Outputs.LinesReadBack | audioanalyser/modules/transcribe_audio_files.py:239-241 | splitting the file at newlines gives the texts back, then an empty piece |
| Outputs.StringArray | audioanalyser/modules/transcribe_audio_files.py:251-252 | the JSON list has one string per text, in order |
| Outputs.InsertRows | audioanalyser/modules/azure_speech_to_text.py:167-178 | one row per text, in order; with a commit after each insert the committed prefixes grow by one row, and the connection's exit commits all rows |
| Outputs.RowsReadBack | audioanalyser/modules/transcribe_audio_files.py:271-278 | the rows' text column is the texts, in insertion order, each row carrying the same key |
| Outputs.StoppedStays | audioanalyser/modules/azure_text_analysis.py:241-248 | after a turn raises, later turns add nothing |
| Outputs.StopsIffSomeRaises | audioanalyser/modules/azure_text_analysis.py:241-248 | a run ends in an exception iff some turn raises |
| Outputs.RunOutputsFrom | audioanalyser/modules/azure_text_analysis.py:241-248 | every output of a run was made by one of its turns |
| SpeechRecognition.UntilDone | audioanalyser/modules/transcribe_audio_files.py:183-217 | the delivered events are the longest prefix before the first cancellation or session stop |
| SpeechRecognition.TextsAreRecognized | audioanalyser/modules/transcribe_audio_files.py:179-181 | no final result gives no text, and there are never more texts than events |
| SpeechRecognition.CollectResults | audioanalyser/modules/transcribe_audio_files.py:176-229 | `all_results` is the texts of the final results before `done` is set, in order |
| Transcripts.WriteTranscript | audioanalyser/modules/transcribe_audio_files.py:231-278 | the text file, the JSON file and the database rows for one audio file, in that order |
| Transcripts.TranscriptReadBack | audioanalyser/modules/transcribe_audio_files.py:231-278 | each of the three stores gives the phrases back in order, and every row names the audio file |
| TranscribeAudioFiles.Validate | audioanalyser/modules/transcribe_audio_files.py:46-71 | raises iff one of the six settings is `None`; an empty value passes |
| TranscribeAudioFiles.ValidateFromEnv | audioanalyser/modules/transcribe_audio_files.py:36-44 | fails iff one of the six environment variables is unset |
| TranscribeAudioFiles.FileOutputsWritten | audioanalyser/modules/transcribe_audio_files.py:146-151 | no phrase, no output; otherwise exactly three |
| TranscribeAudioFiles.OutputPaths | audioanalyser/modules/transcribe_audio_files.py:130-141 | the outputs are `<stem>.txt`, `<stem>.json` and `transcriptions.db` in TRANSCRIPTS_FOLDER, the stem being the base name without its last extension |
| TranscribeAudioFiles.RowsNameAudioFile | audioanalyser/modules/transcribe_audio_files.py:149-151 | every row is the audio file's base name and one phrase |
| TranscribeAudioFiles.ProcessFile | audioanalyser/modules/transcribe_audio_files.py:122-151 | no phrase writes nothing; otherwise raises, writing nothing, iff TRANSCRIPTS_FOLDER is missing (nothing creates it), and writes the outputs of the phrases when it exists |
| TranscribeAudioFiles.ScannedPathsMembers | audioanalyser/modules/transcribe_audio_files.py:112-120 | a scanned path is an existing path of a listed name with the extension, and every such path is scanned |
| TranscribeAudioFiles.ProcessAudioFiles | audioanalyser/modules/transcribe_audio_files.py:97-120 | a truthy `file_path` is processed alone when it exists, whatever its extension; otherwise the existing listed names with the extension are processed in listing order until one raises |
| TranscribeAudioFiles.StopsIffSomeFails | audioanalyser/modules/transcribe_audio_files.py:112-120 | the scan ends in an exception iff TRANSCRIPTS_FOLDER is missing and some scanned file yields a phrase |
| TranscribeAudioFiles.WritableScanWritesAll | audioanalyser/modules/transcribe_audio_files.py:112-151 | with TRANSCRIPTS_FOLDER in place nothing raises, and the scan writes the outputs of every scanned path in order |
| TranscribeAudioFiles.RunTranscribeAudioFiles | audioanalyser/modules/transcribe_audio_files.py:281-298 | an incomplete configuration writes nothing; otherwise the writes of `ProcessAudioFiles` up to the exception that ends it, which is swallowed |
| AzureSpeechToText.Validate | audioanalyser/modules/azure_speech_to_text.py:47-63 | raises iff one of the five settings is `None` |
| AzureSpeechToText.ValidateFromEnv | audioanalyser/modules/azure_speech_to_text.py:40-45 | fails iff one of the five environment variables is unset |
| AzureSpeechToText.CommitsAfterEachInsert | audioanalyser/modules/azure_speech_to_text.py:172-178 | a commit follows each insert, each committing one more row |
| AzureSpeechToText.ProcessFile | audioanalyser/modules/azure_speech_to_text.py:75-97 | reads SAMPLES_FOLDER/name and writes `<stem>.txt`, `<stem>.json` and rows in TRANSCRIPTS_FOLDER only for a non-empty result |
| AzureSpeechToText.ProcessAudioFiles | audioanalyser/modules/azure_speech_to_text.py:70-73 | exactly the listed names ending in the extension are processed, in listing order |
| AzureSpeechToText.RunAzureSpeechToText | audioanalyser/modules/azure_speech_to_text.py:181-190 | an incomplete configuration or a transcripts folder of "" (for which `makedirs` raises) leaves no effect; otherwise the folder is made when missing, before any processing |
| SpeechToTextScript.MissingVars | azure_speech_to_text.py:18 | the missing names are exactly the listed names that are unset or empty |
| SpeechToTextScript.MissingVarsInOrder | azure_speech_to_text.py:18 | the missing names keep the order of the list |
| SpeechToTextScript.ValidateEnvironmentVars | azure_speech_to_text.py:16-21 | raises iff some required variable is unset or empty, naming exactly those |
| SpeechToTextScript.EmptyResultsStillWritten | azure_speech_to_text.py:93-97 | no phrase still writes an empty text file, an empty JSON list and no rows |
| SpeechToTextScript.OutputsForLength | azure_speech_to_text.py:82-97 | three writes per processed file |
| SpeechToTextScript.ProcessFile | azure_speech_to_text.py:84-97 | the three writes of one file, from the recognised phrases |
| SpeechToTextScript.ProcessAudioFiles | azure_speech_to_text.py:81-97 | exactly the listed names ending in AUDIO_EXTENSION are processed, in listing order |
| SpeechToTextScript.RunScript | azure_speech_to_text.py:99-112 | a failed check leaves no effect; otherwise the output folder is made when missing, then the input folder is processed |
| SpeechToTextScript.EmptyValueSeparatesChecks | azure_speech_to_text.py:16-21 | with API_KEY set to "", the package module's check passes and the script's fails naming API_KEY |
| TextAnalytics.Head | audioanalyser/modules/analyze_text_files.py:119-130 | the first element of a result list, or `None` iff the list is empty |
| TextAnalytics.FirstIsHeadOfWhole | audioanalyser/modules/azure_text_analysis.py:109-116 | each value of the first-element dict is `None` where the whole-list dict has `None`, and otherwise the first item of its list |
| TextAnalytics.ResultsDictKeys | audioanalyser/modules/azure_text_analysis.py:109-116 | the results dict has the five keys in order, each once |
| TextAnalytics.EntityTexts | audioanalyser/modules/azure_text_analysis.py:169-171 | one text per entity, in order |
| TextAnalytics.ReportNames | audioanalyser/modules/azure_text_analysis.py:135-140 | the reports are `<stem>_analysis.txt` and `<stem>_analysis.json` in the reports folder |
| TextAnalytics.AsWrittenReport | audioanalyser/modules/azure_text_analysis.py:68-97 | as written, the results dict becomes one string, its `str()`, opening with `{'sentiment': `, not a JSON object |
| TextAnalytics.CorrectedReport | audioanalyser/modules/azure_text_analysis.py:109-116 | the intended report: the five keys in order, `null` iff the list is empty, otherwise an array with one item per document |
| TextAnalytics.CorrectedReportMatchesDump | audioanalyser/modules/analyze_text_files.py:257-263 | the intended report is what `json.dump(..., default=lambda x: x.__dict__)` writes for the same dict |
| TextAnalytics.FirstDumpSucceeds | audioanalyser/modules/analyze_text_files.py:257-263 | the dump of a first-element results dict never fails |
| TextAnalytics.FirstMissing | audioanalyser/modules/azure_text_analysis.py:152-193 | the key whose `[0]` raises first, or none; every earlier list is non-empty |
| TextAnalytics.MissingIsNone | audioanalyser/modules/azure_text_analysis.py:109-116 | a list is empty iff its value in the results dict is `None` |
| TextAnalytics.VerdictOfEnding | audioanalyser/modules/analyze_text_files.py:239-249 | a summary ending in a line break has no verdict; one ending in the PII line has that line's verdict |
| Serializable.ConvertAsWritten | audioanalyser/modules/azure_text_analysis.py:94-97 | as written, a plain dict and any other value become their string form |
| Serializable.ConvertCorrected | audioanalyser/modules/azure_text_analysis.py:75-79 | a dict becomes a JSON object with the same distinct keys, each holding its converted value |
| Serializable.ConvertItems | audioanalyser/modules/azure_text_analysis.py:73-74 | a list keeps its length |
| Serializable.ConvertItemsAt | audioanalyser/modules/azure_text_analysis.py:73-74 | each item is converted in place, order kept |
| Serializable.ConvertEntriesKeys | audioanalyser/modules/azure_text_analysis.py:76-79 | distinct attribute keys stay distinct, and each key holds its converted value |
| Serializable.ConvertObject | audioanalyser/modules/azure_text_analysis.py:75-93 | an object becomes a dict with exactly its attribute keys plus `sentences` and `entities` when present; those two hold the converted lists and every other attribute its own converted value |
| Serializable.PlainRoundTrip | audioanalyser/modules/azure_text_analysis.py:94-95 | strings, numbers, booleans, `None` and lists of them come back unchanged from their JSON |
| Serializable.CorrectionOnlyAffectsDicts | audioanalyser/modules/azure_text_analysis.py:68-97 | on values holding no plain dict the corrected and the as-written converters agree |
| Serializable.DumpFailsIffOther | audioanalyser/modules/analyze_text_files.py:257-263 | the dump with the `__dict__` default fails iff some value has no `__dict__` |
| Serializable.DumpAgreesWithCorrected | audioanalyser/modules/analyze_text_files.py:257-263 | where the dump succeeds on consistent objects it equals the corrected converter |
| AnalyzeTextFiles.Validate | audioanalyser/modules/analyze_text_files.py:59-83 | raises iff one of the five settings is `None` |
| AnalyzeTextFiles.ValidateFromEnv | audioanalyser/modules/analyze_text_files.py:50-57 | fails iff one of the five environment variables is unset |
| AnalyzeTextFiles.SectionsWritesAppend | audioanalyser/modules/analyze_text_files.py:189-249 | the sections are written one after another, in fixed order |
| AnalyzeTextFiles.SummaryBeforePii | audioanalyser/modules/analyze_text_files.py:184-249 | the summary is the header, then the first four sections, every write ending in a newline or (the indented entities message) a blank, then the PII line if any |
| AnalyzeTextFiles.PiiVerdictReadBack | audioanalyser/modules/analyze_text_files.py:239-249 | the summary ends "Yes." iff the PII result has entities, "No." iff it has none, and carries no verdict when there is no PII result |
| AnalyzeTextFiles.SaveResultsComplete | audioanalyser/modules/analyze_text_files.py:159-283 | saving into an existing folder writes the summary, the JSON report of the results and one row holding the file and that same JSON; a folder of "" writes nothing |
| AnalyzeTextFiles.FilesOutputsSteps | audioanalyser/modules/analyze_text_files.py:302-313 | the loop's outputs are those of its turns, in order |
| AnalyzeTextFiles.ProcessText | audioanalyser/modules/analyze_text_files.py:133-156 | returns the first-element results dict and saves it only when a file name is given |
| AnalyzeTextFiles.AnalyzeListed | audioanalyser/modules/analyze_text_files.py:302-313 | every listed `.txt` name is analysed and saved, in listing order |
| AnalyzeTextFiles.RunAnalyzeTextFiles | audioanalyser/modules/analyze_text_files.py:286-318 | an incomplete configuration or a reports folder of "" leaves no effect; otherwise the reports folder is made when missing and the listed `.txt` transcripts are processed; `file_path` plays no part |
| AzureTextAnalysis.Validate | audioanalyser/modules/azure_text_analysis.py:47-60 | raises iff one of the four settings is `None`; the table name is a constant |
| AzureTextAnalysis.ValidateFromEnv | audioanalyser/modules/azure_text_analysis.py:40-45 | fails iff one of the four environment variables is unset |
| AzureTextAnalysis.BeforePiiEndsInNewline | audioanalyser/modules/azure_text_analysis.py:146-190 | every write before the PII line ends in a newline |
| AzureTextAnalysis.PiiVerdictReadBack | audioanalyser/modules/azure_text_analysis.py:192-197 | the summary ends with the PII verdict exactly when no list is empty, "Yes." iff the first PII result has entities |
| AzureTextAnalysis.SaveWithShape | audioanalyser/modules/azure_text_analysis.py:128-229 | whatever the report: raises iff the reports folder is "" or a list is empty; "" writes nothing; otherwise the folder if missing and the summary, then, unless raised, the JSON file and one row holding the file and the same report |
| AzureTextAnalysis.SaveResultsOutcome | audioanalyser/modules/azure_text_analysis.py:128-229 | as written: raises iff the reports folder is "" or a list is empty; otherwise the JSON file holds one string, the `str()` of the results dict, and the row holds the file and that same string |
| AzureTextAnalysis.IntendedSaveOutcome | audioanalyser/modules/azure_text_analysis.py:205-226 | the intended save raises alike and makes the same writes except the last two, which hold the dict converted key by key, every key mapped to a non-empty array |
| AzureTextAnalysis.FileSaved | audioanalyser/modules/azure_text_analysis.py:119-125 | a transcript's turn raises iff the reports folder is "" or one of its result lists is empty |
| AzureTextAnalysis.StopsIffSomeFails | audioanalyser/modules/azure_text_analysis.py:241-248 | the loop ends in an exception iff the save of some picked transcript fails |
| AzureTextAnalysis.ProcessTextFile | audioanalyser/modules/azure_text_analysis.py:118-125 | reads, analyses and saves one transcript, the report as written (the `str()` of the results) |
| AzureTextAnalysis.AnalyzeListed | audioanalyser/modules/azure_text_analysis.py:241-248 | the listed `.txt` transcripts are processed in listing order, each saved as written, until one raises |
| AzureTextAnalysis.RunAzureTextAnalysis | audioanalyser/modules/azure_text_analysis.py:232-253 | an incomplete configuration or a reports folder of "" leaves no effect; otherwise the reports folder is made when missing, then the transcripts are processed and saved as written |
| TextAnalysisScript.Validate | azure_text_analysis.py:32-44 | raises iff endpoint, key or input folder is `None` |
| TextAnalysisScript.ValidateIgnoresOutputFolder | azure_text_analysis.py:32-44 | the output folder never affects the check |
| TextAnalysisScript.SectionsAreBullets | azure_text_analysis.py:133-172 | every write after the header is a `"   • "` bullet ending in a newline |
| TextAnalysisScript.SummaryEnding | azure_text_analysis.py:167-172 | with no list empty, the last write is the PII line, which says "Yes." iff the first PII result has entities |
| TextAnalysisScript.SummaryCutShort | azure_text_analysis.py:133-172 | a summary cut short by an empty list holds no PII line |
| TextAnalysisScript.SaveResultsReport | azure_text_analysis.py:114-194 | as written, a complete save stores one string, the `str()` of the results dict, in the JSON file and the row; the intended save raises alike and differs only in those two writes, which hold the converted dict |
| TextAnalysisScript.IntendedSaveReport | azure_text_analysis.py:52-79 | the intended save, when it completes, writes an object mapping the five keys in order to non-empty arrays, and the row holds the same object |
| TextAnalysisScript.SavesMakeAnalysisOnce | azure_text_analysis.py:114-125 | only the first save may make `Analysis`, and every save writes its summary there |
| TextAnalysisScript.StopsIffSomeFails | azure_text_analysis.py:101-111 | the loop ends in an exception iff some picked transcript has an empty result list |
| TextAnalysisScript.ProcessTextFiles | azure_text_analysis.py:101-111 | the listed `.txt` names are processed in listing order, each saved as written, until one raises |
| TextAnalysisScript.RunTextAnalysisProcess | azure_text_analysis.py:200-215 | a failed check or an unset or empty ANALYSIS_FOLDER leaves no effect; otherwise that folder is made when missing and the input folder is processed |
| TextToSpeech.CheckArguments | audioanalyser/modules/text_to_speech.py:132-139 | passes iff all four arguments are non-empty strings; each error is returned iff its check is the first to fail |
| TextToSpeech.ConfigFromEnv | audioanalyser/modules/text_to_speech.py:36-41 | the audio extension defaults to "wav" |
| TextToSpeech.NamesOfNoneInOrder | audioanalyser/modules/text_to_speech.py:53-65 | the missing names keep the declared order |
| TextToSpeech.Validate | audioanalyser/modules/text_to_speech.py:43-67 | raises iff some field is `None`, reporting exactly the names of those fields |
| TextToSpeech.ValidateFromEnv | audioanalyser/modules/text_to_speech.py:35-66 | the configuration check fails iff AZURE_AUDIO_TEXT_KEY, REGION or RECORDS_FOLDER is unset |
| TextToSpeech.ExtensionNeverMissing | audioanalyser/modules/text_to_speech.py:40 | read from the environment, the extension is never reported missing |
| TextToSpeech.SynthesizeText | audioanalyser/modules/text_to_speech.py:97-116 | the audio data iff synthesis completed, `None` otherwise |
| TextToSpeech.FailureReason | audioanalyser/modules/text_to_speech.py:105-108 | the reason in the log message: the error details when there are any, else "Unknown error." |
| TextToSpeech.TextToSpeechCall | audioanalyser/modules/text_to_speech.py:122-159 | an invalid argument raises its own error before the configuration is read; valid arguments with an incomplete configuration re-raise `EnvironmentError("Missing required environment variables.")` |
| TextToSpeech.AudioWrittenIffSynthesised | audioanalyser/modules/text_to_speech.py:146-159 | with valid arguments and settings: the call raises iff synthesis gave audio and the output folder is ""; otherwise one file is written iff synthesis completed with some audio, holding that audio under `<name><extension>` |
| AzureRecommendation.Validate | audioanalyser/modules/azure_recommendation.py:62-79 | raises iff one of the three settings is `None` |
| AzureRecommendation.ValidateFromEnv | audioanalyser/modules/azure_recommendation.py:56-60 | fails iff one of the three environment variables is unset |
| AzureRecommendation.PromptParts | audioanalyser/modules/azure_recommendation.py:136-163 | the prompt is the id, a newline, the instructions, the transcript and a newline, each at a fixed offset |
| AzureRecommendation.PromptInjective | audioanalyser/modules/azure_recommendation.py:158-163 | for ids of one length, equal prompts mean equal ids and transcripts |
| AzureRecommendation.Recommendation | audioanalyser/modules/azure_recommendation.py:170 | a recommendation exists iff the response has choices |
| AzureRecommendation.RecommendationTrimmed | audioanalyser/modules/azure_recommendation.py:170 | the first choice with surrounding whitespace cut: no whitespace at either end, a slice of the choice, and stripping again changes nothing |
| AzureRecommendation.GenerateRecommendation | audioanalyser/modules/azure_recommendation.py:125-171 | sends the prompt for the transcript and returns the stripped first choice |
| AzureRecommendation.OutputPathShape | audioanalyser/modules/azure_recommendation.py:114 | the output is `azure_recommendation-<filename>` inside the recommendations folder |
| AzureRecommendation.OutputPathsDistinct | audioanalyser/modules/azure_recommendation.py:114 | different transcripts get different files |
| AzureRecommendation.StopsIffSomeEmpty | audioanalyser/modules/azure_recommendation.py:99-123 | the loop ends in an exception iff some transcript gets no choices |
| AzureRecommendation.WritesOnePerFile | audioanalyser/modules/azure_recommendation.py:99-123 | when every transcript gets a choice, exactly one file per transcript is written, in order, holding its recommendation |
| AzureRecommendation.OnlyTranscriptsAnswered | audioanalyser/modules/azure_recommendation.py:99-100 | every file written answers a listed `.txt` name |
| AzureRecommendation.GenerateRecommendations | audioanalyser/modules/azure_recommendation.py:90-123 | a folder of "" raises before any write; otherwise makes the folder, then answers the listed `.txt` transcripts in listing order until one raises |
| AzureRecommendation.RunAzureRecommendation | audioanalyser/modules/azure_recommendation.py:174-185 | an incomplete configuration or a recommendations folder of "" writes nothing, and every exception is swallowed |

## Left out

- The CherryPy servers, the command-line entry point and the build scripts: HTTP routing, threads and argument parsing.
- The cloud calls (Azure Speech, Text Analytics, Translator, OpenAI, speech synthesis): their answers are parameters; SDK objects carry only the attributes the code reads.
- PyAudio and `wave`: the stream is a sequence of chunks, a read past its end stands for the stream raising; WAV headers, sample width and `tqdm` are not modelled.
- Signals: delivery is a call of `signal_handler` just before a chosen iteration; a signal during a read is not modelled.
- AudioRecorder.TruncDiv: the loop bound is the exact quotient truncated toward zero, not the float expression `RATE / CHUNK * RECORD_SECONDS`, which can round differently.
- The `.2f` formatting of sentiment scores and the `repr` of floats are opaque strings.
- Serializable.Repr: SDK result objects get a stand-in `Class(key=value, ...)` form, not the SDK's own `repr`, which differs in quoting and truncates long values, and strings are quoted without escaping; so the `str()` report is exact only in its opening `{'sentiment': `, which is all the contracts about it rely on.
- Logging and `print`: they have no effect on the outputs.
- `os.listdir` order, `os.path.exists`, file reads, `datetime.now()` and `uuid4` are parameters; `os.listdir` raising for a missing folder is not modelled.
- `pathlib` paths are modelled as `os.path.join`; path normalisation is left out.
- The glob in the translator lists names ending in `.txt`; its treatment of directories and hidden files is left out.
- A file read that fails in the recommendation and analysis loops is not modelled; reads are total.
- The `missing` lists of the `Config.validate` methods that iterate their own locals: only the raise condition is modelled.
- `str.isalpha` is modelled on ASCII letters only.
- The text-analysis script reuses one client after `async with` has closed it; the model treats every call as answered.
- Document errors in Text Analytics results are not modelled.
- The sampling temperature and other request parameters of the completion call.
- A JSON file left partly written when the dump raises: the model records no file.
- The second `Config()` that `save_results` and `write_to_sqlite` build is taken to read the same environment as the first.
- TextToSpeech.AudioWrittenIffSynthesised: requires a name and an extension without '/', because a '/' in either moves the file into a sub-folder of the output folder, whose `open` raises when that sub-folder is missing; the model does not track sub-folders.

## Findings

| source | as written | input that shows it | evidently intended | confidence | as-written member | corrected member |
|---|---|---|---|---|---|---|
| audioanalyser/modules/azure_text_analysis.py:68-97 | `convert_to_serializable` sends a plain dict to `str()`, because a dict has no `__dict__`; the results dict passed to it is therefore written to the JSON report and the database as one string | any results dict, e.g. the one built from five non-empty result lists | the dict converted key by key into a JSON object | not executed | AzureTextAnalysis.SaveResultsOutcome | AzureTextAnalysis.IntendedSaveOutcome |
| azure_text_analysis.py:52-79 | the same converter in the stand-alone script turns the results dict into its `str()` before `json.dump` and `json.dumps` | any results dict with five non-empty result lists | the dict converted key by key into a JSON object | not executed | TextAnalysisScript.SaveResultsReport | TextAnalysisScript.IntendedSaveReport |
