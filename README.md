# Oracle session pipeline, in Dafny

This project models the core of Oracle, a Streamlit application that turns the
audio recording of a tabletop role-playing session into a transcript and a
structured analysis. The analysis holds a narrative summary, a TL;DR, NPCs,
items, locations, key events and a title. The model covers these parts:

- the application settings: the upload limit and chunk size in bytes, the
  defaults, and the accepted formats;
- the session record: its status vocabulary, its defaults, and `to_dict`;
- the compression helper's arithmetic and tables: the size estimate, the split
  count, the recommendations, the ffmpeg command ladder, and the splitting
  instructions;
- the transcription service: the ordered checks of `validate_audio_file`, the
  processing-time bands, the request timeout, and how an API reply or error
  becomes a result or a message;
- the analysis service: the transcript length check, the prompt, the
  required/default field rule of `RPGSessionAnalysis`, the result dictionary
  and its error messages, and the title clean-up;
- `process_session`: the status state machine that commits at each stage;
- `upload_page`: the size cap, when conversion or compression is needed, when
  ffmpeg is required, the adoption of processed files up to 25 MB, validation,
  and the creation of the record.

Files and modules:

| file | module | contents |
|---|---|---|
| `wrappers.dfy` | `Wrappers` | `Option` and `Result` |
| `client.dfy` | `Client` | the three ways an OpenAI call fails |
| `text.dfy` | `Text` | Python's string and path operations that the core relies on |
| `config.dfy` | `Config` | settings |
| `models.dfy` | `Models` | the session record, as a class whose fields are updated in place |
| `audio_compression.dfy` | `AudioCompression` | the compression helper |
| `transcription.dfy` | `Transcription` | the transcription service |
| `ai_analysis.dfy` | `AIAnalysis` | the analysis service |
| `store.dfy` | `Store` | the session table, the two services and the compression helpers |
| `app.dfy` | `App` | `process_session` |
| `upload.dfy` | `Upload` | `upload_page` |

Everything outside the program is an unconstrained `const` of the object that
stands for it. That covers the replies of the two OpenAI APIs, ffmpeg and the
compression helpers whose code is not part of the model, the file system as
they leave it, and whether the best-effort "error" write reaches the database.
Each call that reaches outside appends an event to a shared ghost `Journal`.
`process_session` and `upload_page` are methods that are proved to produce
exactly the journal and the final row described by pure functions
(`App.ProcessRun`, `Upload.UploadPlan`). The properties of a run are lemmas
about those functions.

Four behaviours of the code that the model keeps as written:

- `process_session` on a completed session runs again. Line 120 of app.py
  commits "transcribing" once more, and both services are called again.
- A failure does not always leave the session in "error". The comment at
  app.py:158 says the status is set to error, but the write at app.py:159-166
  swallows its own exceptions, so the row can keep its last committed status.
- Processing takes one of three branches, chosen by what the upload needs
  (app.py:242, 352, 383). The AAC-only branch adopts any produced conversion
  without checking its size. When compression fails in the combined branch,
  the code goes on to validate the original file (app.py:257 has no else).
- An upload over the configured maximum is refused by app.py:209-211 before
  any record exists. No session is created for it.

## Model

| member | source | states |
|---|---|---|
| Config.Defaults | src/config.py:15-34 | without overrides, the maximum is 500 MB, chunks are 25 MB, and the formats are mp3, wav, m4a, flac, ogg |
| Config.MaxFileSizeBytes | src/config.py:47-49 | the byte limit is a whole number of 1048576-byte megabytes; dividing it back gives `max_file_size_mb` exactly, in integers and in reals |
| Config.ChunkSizeBytes | src/config.py:52-54 | the chunk size is a whole number of megabytes, and dividing it back gives `chunk_size_mb` |
| Config.ByteAndMegabyteLimitsAgree | app.py:209 | the page's test in megabytes and the validator's test in bytes refuse the same sizes |
| Config.DefaultByteLimits | src/config.py:23-33 | the default limits are 524288000 and 26214400 bytes |
| Config.AacIsNotSupported | src/config.py:30 | the default format list has five entries, and "aac" is not one of them |
| Models.StatusName | src/database/models.py:49 | every status is stored under one of the five names |
| Models.ParseStatus | src/database/models.py:49 | a stored name is read as a status exactly when it is one of the five |
| Models.StatusNamesRoundTrip | src/database/models.py:49 | writing a status and reading it back gives the same status |
| Models.StatusParseRoundTrip | src/database/models.py:49 | reading a valid name and writing it back gives the same name |
| Models.IdText | src/database/models.py:61 | the text of an identifier is a non-empty string of digits |
| Models.ParseId | app.py:114 | a text names an identifier exactly when it is a non-empty string of digits |
| Models.ParseIdInvertsIdText | app.py:114 | the text form of an identifier names that identifier again |
| Models.IdTextInjective | src/database/models.py:21 | two identifiers with the same text are the same |
| Models.OrEmpty | src/database/models.py:71-74 | a missing list shows as `[]`, and a stored list shows as itself |
| Models.IsoOrNone | src/database/models.py:64 | a timestamp shows as its ISO text exactly when it is set |
| Models.Session.constructor | src/database/models.py:15-53 | a new row has the given metadata, status "uploaded", empty lists, no transcript or analysis, and both timestamps equal to now |
| Models.Session.ToDict | src/database/models.py:58-79 | the dictionary's `id` is non-empty and its `processing_status` is one of the five names; title, session number and transcript are the record's own |
| Models.ToDictIdentifiesRecord | src/database/models.py:61-76 | the dictionary's `id` and `processing_status` read back as the record's own identifier and status |
| Models.ToDictCopiesFields | src/database/models.py:65-75 | `audio_file_path`, `audio_file_name`, `audio_file_size`, `narrative_summary`, `tldr_summary` and `comments` are copied as stored |
| Models.ToDictListsAreNeverMissing | src/database/models.py:71-74 | in `to_dict` each of the four lists becomes `[]` when missing and is copied unchanged when stored |
| Models.ToDictTimestamps | src/database/models.py:64-78 | `date`, `created_at` and `updated_at` are None exactly when unset, and are otherwise the value's ISO text |
| Models.MissingAndEmptyListsLookAlike | src/database/models.py:71-74 | `x or []` makes a missing list and a stored empty list look alike |
| Text.Lower | src/services/transcription.py:117 | lower-casing keeps the length and lower-cases each character |
| Text.LowerIdempotent | src/utils/audio_compression.py:146 | lower-casing twice is lower-casing once |
| Text.LStrip | src/services/transcription.py:117 | `lstrip` removes exactly the longest prefix of stripped characters |
| Text.RStrip | src/services/ai_analysis.py:183 | `rstrip` removes exactly the longest suffix of stripped characters |
| Text.Strip | src/services/ai_analysis.py:183 | `strip` is `rstrip` after `lstrip`; what is left is a slice of the text that neither starts nor ends with a stripped character |
| Text.StripRemovesOnlyPadding | src/services/ai_analysis.py:183 | everything `strip` removes, before and after the kept slice, is a stripped character |
| Text.StripKeepsUnpaddedText | src/services/ai_analysis.py:199 | a text whose two end characters are not stripped is left unchanged by `strip` |
| Text.Contains | src/services/transcription.py:75 | `sub in s` holds exactly when `sub` occurs at some position of `s` |
| Text.NatToString | src/database/models.py:61 | `str(n)` is a non-empty string of digits |
| Text.DigitsValueOfNatToString | src/database/models.py:61 | reading back the decimal text of a number gives the number |
| Text.NatToStringInjective | src/utils/audio_compression.py:203 | different numbers have different decimal texts |
| Text.FileNameIsLastComponent | app.py:267 | the file name is the tail of the path after its last slash, and holds no slash |
| Text.NameSuffixShape | app.py:91 | a suffix is a tail of the name: one dot followed by at least one non-dot character, with something before the dot |
| Text.NameStem | app.py:267 | the stem followed by the suffix is the file name |
| Text.Extension | src/services/transcription.py:117 | the extension holds no dot and is lower-case |
| Text.ExtensionIsPathSuffix | src/services/transcription.py:117 | the one-pass extension equals `path.suffix.lower().lstrip('.')`, with `name` and `suffix` as pathlib defines them |
| AudioCompression.CompressionRatio | src/utils/audio_compression.py:139-146 | the ratio lies between 0.1 and 0.7, and a pair not in the table uses 0.5 |
| AudioCompression.EstimateCompressedSize | src/utils/audio_compression.py:149-152 | the estimate is at least 1 MB and at least the scaled size, and it is one of the two |
| AudioCompression.EstimateMonotoneInBitrate | src/utils/audio_compression.py:149-152 | for a size of at least 0, a higher bitrate never gives a smaller estimate |
| AudioCompression.EstimateMonotoneInSize | src/utils/audio_compression.py:149-152 | for a bitrate of at least 0, a larger file never gives a smaller estimate |
| AudioCompression.RatioIgnoresCase | src/utils/audio_compression.py:146 | formats are compared after lower-casing |
| AudioCompression.EstimateExamples | src/utils/audio_compression.py:139-152 | the four table ratios and the 0.5 default hold; 52 MB of m4a at 128, 64 and 16 kbps gives 31.2, 15.6 and 3.9 MB; the 1 MB floor applies |
| AudioCompression.Trunc | src/utils/audio_compression.py:169 | `int(x)` truncates toward zero |
| AudioCompression.ShouldSplitFile | src/utils/audio_compression.py:166-170 | (False, 1) within one segment; otherwise (True, n) with n >= 2 and (n-1)*max <= size < n*max; a ZeroDivisionError exactly when max is 0 and the size is over it |
| AudioCompression.SplitIffOverMaximum | src/utils/audio_compression.py:166-170 | with a positive maximum, the file is split exactly when it is over the maximum |
| AudioCompression.FormatMethods | src/utils/audio_compression.py:34-64 | each format family gets exactly three suggestions |
| AudioCompression.GetCompressionRecommendations | src/utils/audio_compression.py:25-75 | the target is "< 25 MB", there are 3 methods and 5 tools, and the current size is the rendered size plus " MB" |
| AudioCompression.ReductionTexts | src/utils/audio_compression.py:40-64 | the four reduction texts are "80-90%", "60-80%", "40-60%" and "30-50%" |
| AudioCompression.ReductionTable | src/utils/audio_compression.py:34-64 | the reduction is chosen by the lower-cased format: wav, flac, m4a, or anything else |
| AudioCompression.RecommendationIgnoresCase | src/utils/audio_compression.py:34-50 | the recommendation depends on the format only through its lower-case name |
| AudioCompression.AdvertisedReductionCoversEstimate | src/utils/audio_compression.py:34-64 | the reduction predicted by the estimate's ratio at 128 kbps lies in the advertised range |
| AudioCompression.FfmpegCommand | src/utils/audio_compression.py:93-107 | each command starts with `ffmpeg -i "<input>"` and ends with `"<output>"` |
| AudioCompression.GetFfmpegCommands | src/utils/audio_compression.py:78-109 | there are exactly five commands, each starting on the input and ending on the output |
| AudioCompression.FfmpegCommandLadder | src/utils/audio_compression.py:90-109 | the commands come in the order 128k, 96k, 64k, mono 128k, 22050 Hz 128k, and the target size has no effect |
| AudioCompression.SplitHeader | src/utils/audio_compression.py:186-197 | the instructions open with ten fixed lines |
| AudioCompression.SegmentCommand | src/utils/audio_compression.py:202-204 | a segment line cuts from `input.wav` and ends by writing its own segment file |
| AudioCompression.SegmentCommands | src/utils/audio_compression.py:199-204 | there is one line per segment |
| AudioCompression.SegmentCommandsEndings | src/utils/audio_compression.py:200-204 | the i-th line writes `segment_{i+1}.wav` |
| AudioCompression.SegmentFileInjective | src/utils/audio_compression.py:203 | different segments are written to different files |
| AudioCompression.SegmentLineNamesItsSegment | src/utils/audio_compression.py:203 | the i-th line names segment i+1 and no other segment |
| AudioCompression.GetSplittingInstructions | src/utils/audio_compression.py:173-206 | the ten header lines, then the segment lines; a ZeroDivisionError exactly when the count is 0 |
| AudioCompression.CollectSegmentCommands | src/utils/audio_compression.py:199-205 | the loop builds exactly the segment lines, in order |
| Transcription.CheckAudioFile | src/services/transcription.py:111-141 | one if-and-only-if per result: no rejection exactly for an acceptable file; missing exactly when absent; unsupported (naming the extension) exactly when present with an unlisted extension; too large, empty, over 25 MB each exactly when every earlier check passed and its own fails |
| Transcription.ValidateAudioFile | src/services/transcription.py:99-143 | (True, "File is valid") exactly for a file that exists, has a listed extension, and has 0 < size <= both limits; otherwise False with the message of the first failed check |
| Transcription.WhisperLimitInBytes | src/services/transcription.py:137-141 | the 25 MB test in megabytes is the test against 26214400 bytes |
| Transcription.RejectionMessage | src/services/transcription.py:111-141 | each rejection has its own opening words; the missing-file and empty-file messages end with the path |
| Transcription.WithinConfiguredLimit | src/services/transcription.py:127-130 | a file within the configured size is never refused as too large |
| Transcription.MissingFileIsReportedFirst | src/services/transcription.py:111-114 | a missing file gets exactly the "does not exist" message, whatever its name or size |
| Transcription.WhisperBoundary | src/services/transcription.py:138-141 | with the defaults, 26214400 bytes passes and 26214401 bytes gets the 25 MB warning |
| Transcription.UpperCaseExtensionIsFolded | src/services/transcription.py:117 | "x.MP3" has the extension "mp3" |
| Transcription.ProcessingBand | src/services/transcription.py:165-172 | the sizes fall into four bands |
| Transcription.EstimateProcessingTime | src/services/transcription.py:154-172 | the estimate is the label of the size's band |
| Transcription.EstimateIsMonotone | src/services/transcription.py:165-172 | a larger file never gets a lower band |
| Transcription.AcceptedFilesAreQuick | src/services/transcription.py:165-172 | a file the validator accepts is estimated at "5-10 minutes" at most, and exactly 25 MB falls in that band |
| Transcription.RequestTimeout | src/services/transcription.py:54 | the timeout is 600 s exactly above 100 MB, and 300 s otherwise |
| Transcription.TimeoutIsMonotone | src/services/transcription.py:54 | the timeout never shrinks as the file grows |
| Transcription.FailureMessage | src/services/transcription.py:69-80 | a timeout gives the timed-out message; an API error that mentions "file size" or "too large" in any case gives the 25 MB message; any other error gives "Transcription failed: " plus its text |
| Transcription.TranscribeAudio | src/services/transcription.py:25-80 | a missing file fails before any reply; otherwise the result succeeds exactly when the reply does, with the reply's text and duration, its language or "unknown", its segments or `[]`, the size in MB and status "completed" |
| Transcription.MissingAttributesTakeDefaults | src/services/transcription.py:57-64 | attributes the reply lacks become "unknown", None and `[]` |
| Transcription.FailureMessagesAreRecognisable | src/services/transcription.py:69-80 | every failure message starts with "Transcription" or is the 25 MB advice |
| Transcription.SizeErrorsAreRecognisedInAnyCase | src/services/transcription.py:75-76 | "TOO LARGE" in capitals is still treated as a size error |
| AIAnalysis.ValidateTranscriptLength | src/services/ai_analysis.py:189-202 | a transcript passes exactly when it exists and has at least 100 characters once stripped |
| AIAnalysis.HundredUnpaddedCharactersPass | src/services/ai_analysis.py:199-202 | exactly 100 characters with no white space at either end passes |
| AIAnalysis.BlankTranscriptsFail | src/services/ai_analysis.py:199 | a transcript of only white space fails, however long it is |
| AIAnalysis.AnalysisPrompt | src/services/ai_analysis.py:38-71 | the prompt is the fixed head, then the transcript verbatim, then the fixed tail |
| AIAnalysis.PromptDeterminesTranscript | src/services/ai_analysis.py:48-71 | two transcripts never share a prompt |
| AIAnalysis.TranscriptFollowsItsLabel | src/services/ai_analysis.py:51-52 | the transcript comes right after "TRANSCRIPTION:" and a newline |
| AIAnalysis.RequiredText | src/services/ai_analysis.py:21-22 | a required field is accepted exactly when it is present and a string |
| AIAnalysis.TextList | src/services/ai_analysis.py:23-26 | an absent list field is `[]`; a present one must be a list of strings |
| AIAnalysis.ValidateAnalysis | src/services/ai_analysis.py:18-27 | a reply is accepted exactly when it is an object whose three required texts are strings and whose four lists are absent or lists of strings; the accepted result holds those fields unchanged with status "completed"; a non-object, and a bad narrative summary, give their own error |
| AIAnalysis.ValidateInvertsToJson | src/services/ai_analysis.py:18-27 | validating the JSON form of a result gives the result back |
| AIAnalysis.AbsentListsDefaultToEmpty | src/services/ai_analysis.py:23-26 | a reply with only the three texts gives four empty lists |
| AIAnalysis.ExtraKeysAreIgnored | src/services/ai_analysis.py:18-27 | keys outside the schema do not change the outcome |
| AIAnalysis.AnalyzeTranscript | src/services/ai_analysis.py:73-137 | success exactly for a decoded reply that validates, giving the validated fields and "completed"; undecodable JSON gives exactly "AI analysis failed: Invalid JSON response"; every failure starts with "AI analysis failed: " |
| AIAnalysis.MissingRequiredFieldFails | src/services/ai_analysis.py:21-27 | a reply without one of the three required texts fails |
| AIAnalysis.TitleRequest | src/services/ai_analysis.py:176 | the title request is the fixed head, then a prefix of the transcript of length min(length, 1000), then "..." |
| AIAnalysis.GenerateSessionTitle | src/services/ai_analysis.py:156-187 | the title is the reply stripped of white space and then of double quotes; any failure gives "Session sans titre" |
| AIAnalysis.TitleHasNoEndQuotes | src/services/ai_analysis.py:183 | a title never starts or ends with a double quote |
| AIAnalysis.QuotedTitleIsUnwrapped | src/services/ai_analysis.py:183 | a title sent back in double quotes comes out bare |
| Store.Database.Find | app.py:114 | the query finds a row exactly when the text parses as a stored identifier, and then it finds that row |
| Store.Database.Commit | app.py:121 | a commit records the row's dictionary |
| Store.Database.Insert | app.py:539-552 | the new row takes the next identifier and commits its `uploaded` dictionary; the other rows are unchanged |
| Store.NewRow | app.py:540-548 | a fresh row has status "uploaded", no transcript, and empty lists |
| Store.TranscriptionCalls | src/services/transcription.py:42-55 | one API request exactly when the file exists |
| Store.Services.constructor | app.py:125-138 | the services are `transcribe_audio` and `analyze_transcript` applied to the APIs' replies |
| Store.Services.Transcribe | app.py:125 | returns the service's result and records a request only for a file that exists |
| Store.Services.Analyze | app.py:136-138 | returns the service's result and records one request for that transcript |
| Store.Tools.Stat | src/services/transcription.py:111-124 | the snapshot of a path describes that path |
| Store.Tools.CompressAudioFile | app.py:248-255 | returns the helper's outcome and records the request |
| Store.Tools.ExtremeCompressAudioFile | app.py:299 | returns the helper's outcome and records the request |
| App.ErrorWrite | app.py:159-166 | when the write gets through, one commit of the row with status "error"; otherwise nothing changes |
| App.AnalysisRun | app.py:134-166 | the analysis stage commits the transcribed row, then asks for the analysis; success ends "completed", failure ends "error" or keeps the status if the error write fails; identifier and transcript are kept |
| App.ProcessRun | app.py:109-166 | a run first commits the row as "transcribing"; it keeps the identifier, stores the transcript it gets, and ends "completed" exactly when both services succeed |
| App.ServiceRun | app.py:125-138 | with the services' own results, the run ends "completed" exactly when the transcription and then the analysis of its transcript succeed |
| App.MarkFailed | app.py:159-166 | the except branch leaves the row and journal as the error write describes |
| App.StoreTranscript | app.py:128-129 | the transcript is stored and the status becomes "analyzing"; nothing else changes |
| App.StoreAnalysis | app.py:141-148 | the six analysis fields and the title are stored and the status becomes "completed"; nothing else changes |
| App.RunAnalysisStage | app.py:128-149 | commit, one analysis request, then commit of the analysis or the error write, as `AnalysisRun` describes |
| App.ProcessSession | app.py:109-166 | an unknown identifier changes nothing; otherwise the journal and the row follow `ProcessRun` with the services' results |
| App.HeadTrail | app.py:120-125 | the first stage commits "transcribing" and asks for a transcript exactly when the file exists |
| App.AnalysisRunTrail | app.py:128-149 | the second stage commits "analyzing", sends one analysis request, then commits "completed" or the error |
| App.StatusPaths | app.py:120-164 | the committed statuses follow one of five paths: transcribing, then error, or then analyzing and then error or completed; the error commit is missing when its write fails |
| App.FailedTranscriptionTrail | app.py:120-164 | a failed transcription commits "transcribing", then "error" if that write gets through |
| App.TranscribedTrail | app.py:120-164 | a transcription that succeeds commits "transcribing" and "analyzing", then "completed" or "error" |
| App.EachServiceAtMostOnce | app.py:125-138 | each service is asked at most once: transcription exactly when the file exists, analysis exactly when a transcript came back |
| App.CommitComesBeforeEachRequest | app.py:120-138 | "transcribing" is committed first, and the analysis request comes right after the commit of "analyzing" and asks about the transcript stored there |
| App.TranscriptSurvivesAnalysisFailure | app.py:128-166 | a transcript that was obtained stays stored whatever the analysis does |
| App.OutcomeOfARun | app.py:141-166 | the run ends "completed" exactly when both services succeed, and the row then carries the analysis; otherwise it ends "error", or stays at the stage's status when the error write fails |
| App.RunKeepsMetadata | app.py:120-148 | a run changes only the status, the transcript, the analysis fields and the title |
| App.CompletedRowIsProcessedAgain | app.py:120 | a completed row is processed again, starting with a new "transcribing" commit |
| App.MissingAudioReachesNoApi | app.py:123-125 | a missing audio file reaches neither API, and the run goes straight to the error write |
| Upload.NeedsOf | app.py:213-215 | conversion is needed exactly for extension "aac", and compression exactly above 5 MB |
| Upload.UploadGate | app.py:209-228 | a file over the maximum is refused first; a file that needs processing is refused when ffmpeg is missing; otherwise the page proceeds with the upload's needs |
| Upload.FfmpegOnlyMattersWhenNeeded | app.py:218-228 | ffmpeg's presence only matters for an upload that needs processing |
| Upload.GateAgreesWithValidator | app.py:209-211 | an upload that passes the gate is never refused as too large by the validator |
| Upload.ValidatePlan | app.py:529-536 | the final file is accepted exactly when the validator accepts it |
| Upload.ProcessingPlan | app.py:238-497 | an upload that needs nothing is validated as saved under its own name; any other first asks for a compression of the saved upload |
| Upload.UploadPlan | app.py:169-536 | a helper request or an accepted file only follows a submitted, saved upload that passed the size and ffmpeg gate |
| Upload.ExtremePlan | app.py:295-332 | extreme compression is asked for exactly when the flag is set, and without it the page stops; the output is adopted as "<stem>_extreme.mp3" exactly when it was produced and fits 25 MB; otherwise the page stops with the helper's message or as still too large |
| Upload.OversizedUploadsAreRefusedFirst | app.py:209-211 | an oversized upload is refused before any helper is called |
| Upload.ProcessingRequests | app.py:242-497 | a processing branch makes at most two requests: the first on the saved upload, and the second, when there is one, an extreme compression asked for by the flag |
| Upload.HelpersOnlyWhenNeeded | app.py:209-497 | a helper is called only for a submitted, saved upload within the limit that needs processing, with ffmpeg present; at most two calls |
| Upload.ProcessingAcceptance | app.py:242-497 | a file a branch accepts has passed validation, or else is the output of the extreme compression asked for by the flag and is at most 25 MB |
| Upload.AcceptedFilesFitTheApi | app.py:257-552 | every file accepted for a record is at most 25 MB; it is validated on the main path, and otherwise it is the extreme compression's output |
| Upload.AacConversionIsAdoptedUnchecked | app.py:366-374 | the AAC-only branch adopts any produced conversion without a size check of its own |
| Upload.FailedCombinedCompressionIsRefused | app.py:257 | a failed combined compression falls through to validating the saved ".aac" file, so the upload is refused; when the file is there, the refusal is "Unsupported audio format: aac. Supported: mp3, wav, m4a, flac, ogg" |
| Upload.CombinedBranch | app.py:242-348 | the combined branch makes the requests and ends where `ProcessingPlan` says |
| Upload.ConversionBranch | app.py:352-381 | the AAC-only branch makes the requests and ends where `ProcessingPlan` says |
| Upload.CompressionBranch | app.py:383-497 | the compression-only branch makes the requests and ends where `ProcessingPlan` says |
| Upload.TryExtreme | app.py:295-341 | the extreme attempt makes the requests and ends where `ExtremePlan` says |
| Upload.PrepareUpload | app.py:200-536 | the page up to the record makes exactly the requests of `UploadPlan` and ends where it says |
| Upload.UploadPage | app.py:169-556 | a stopped plan stores nothing; an accepted file gets a new row titled "Session n" with status "uploaded" and the file's size, which `process_session` then runs on; only that row is added |
| Upload.CreateAndProcess | app.py:538-556 | the record is inserted under the next identifier, then processed; the journal holds its commit followed by the run |

## Left out

- Streamlit rendering is not modelled: pages, widgets, spinners, messages, `st.rerun`, and the debug-log display (app.py:499-526). The page's inputs are a `Form` value.
- The uploader's `type=` filter (app.py:196) is not modelled; an upload may have any name.
- The OpenAI client itself, its async wrappers and the thread pool are not modelled. The APIs' replies are unconstrained functions of the request.
- JSON text decoding is not modelled; the analysis reply arrives already decoded, or marked as not decodable.
- The SQLAlchemy engine, `get_db_session`, rollback, and the `Campaign` table are not modelled. The session table is an in-memory map of rows.
- `get_optimal_compression_settings`, `compress_audio_file`, `extreme_compress_audio_file`, `is_ffmpeg_available` and `save_uploaded_file` have code outside this model. They are unconstrained constants of `Store.Tools`.
- Upload.FailedCombinedCompressionIsRefused: `save_uploaded_file` keeps the upload's suffix in the saved name (app.py:91-92), but `Store.Tools.savedUpload` is not tied to the upload's name, so the lemma takes the saved file's ".aac" extension as a requirement.
- `install_ffmpeg.py`, `test_setup.py`, `test_compression.py` and `test_compression_aggressive.py` are not part of this model.
- Float-to-string formatting (`:.2f`, `:.1f`, `:.0f`) is a `render` parameter whose text is opaque.
- Sizes are exact reals, not IEEE floats.
- File saving, unique naming and `unlink` are file-system effects and are not modelled.
- `get_audacity_instructions` is the constant `AudioCompression.AudacityInstructions`, with no contract.
- `ensure_directories`, the `upload_path` property, and loading settings from the environment are not modelled. A `Settings` value is what loading produced.
- `get_supported_formats` is not modelled; it returns a copy of the format list.
- Models.ParseId: identifiers come from a counter and are written in decimal, not as UUIDs. Only the round trip between the text and the identifier is kept.
- Models.Session.constructor: `updated_at`'s `onupdate` refresh on each commit is not modelled; the timestamp keeps its insert value.
- Text.Lower: only ASCII letters are lower-cased, while Python's `str.lower` covers all of Unicode.
- Text.Strip: only ASCII white space is stripped.
- Text.FileName: a path ending in '/' has an empty name here; pathlib drops trailing slashes first.
- AIAnalysis.ValidateAnalysis: pydantic's type coercion is not modelled, and its error texts are paraphrased in `SchemaErrorText`.
- Transcription.ValidateAudioFile: the catch-all handler at src/services/transcription.py:145-148, which returns "Error validating audio file ..." when reading the file raises, is not modelled. Here the file's presence and size are values, so nothing raises.
- Store.Services.Analyze: the request is recorded by its transcript. `AIAnalysis.PromptDeterminesTranscript` shows that this determines the prompt.
- App.ProcessSession: only service failures lead to the except branch. A failing commit, and the "Session not found" message, are not modelled.
- Upload.UploadPage: the outer exception handler and its clean-up (app.py:558-566) are not modelled.
- Upload.ExtremePlan: the saved upload is deleted at app.py:271 and 411 before extreme compression reads it at 299 and 439. The helper is unconstrained, so the model does not capture that this call works on a file that is gone.
- Upload.ExtremePlan: in the source the extreme flag is only set in a rerun, after the page's button was clicked. The model takes the flag as part of the same submission. The flag starts as False (app.py:652-653), is set only by the button at app.py:290-292 and 430-432, and is cleared at 302 and 442 when the attempt runs. The flag is read inside the branch of the process button (app.py:231), which is not pressed again on the rerun the extreme button starts, so by reading the code the extreme path may never be reached; the model keeps it reachable and does not capture the session state across reruns.
