/**
 * What app.py talks to: the session table, the two services and the
 * compression helpers. Everything outside the program (the database engine,
 * the OpenAI replies, ffmpeg, the file system) is an unconstrained `const`
 * of the object that stands for it; each call that reaches outside is
 * written to a shared journal, in order, so that the order of commits and
 * requests can be stated.
 */
module Store {

  import opened Wrappers
  import opened Config
  import opened Models
  import Transcription
  import AIAnalysis
  import opened Client

  /** Something the application did to the outside world. */
  datatype Event =
    | Committed(row: SessionDict)
    | TranscriptionRequested(path: string, timeout: int)
    | AnalysisRequested(transcript: string)
    | CompressionRequested(path: string, targetFormat: string)
    | ExtremeCompressionRequested(path: string)

  /** The record of everything the application did outside, in order. */
  class Journal {
    ghost var events: seq<Event>

    constructor()
      ensures events == []
    {
      events := [];
    }
  }

  // ---------------------------------------------------------------- database

  /** The `sessions` table: rows by identifier, and the next identifier to issue. */
  class Database {
    var sessions: map<SessionId, Session>
    var nextId: SessionId
    const journal: Journal
    /** Whether the best-effort write of the "error" status reaches the store. */
    const errorWriteSucceeds: bool

    ghost predicate Valid()
      reads this
    {
      forall id :: id in sessions ==> id < nextId && sessions[id].id == id
    }

    constructor(journal: Journal, errorWriteSucceeds: bool)
      ensures Valid() && sessions == map[] && nextId == 0
      ensures this.journal == journal && this.errorWriteSucceeds == errorWriteSucceeds
    {
      sessions := map[];
      nextId := 0;
      this.journal := journal;
      this.errorWriteSucceeds := errorWriteSucceeds;
    }

    /** `db.query(Session).filter(Session.id == uuid.UUID(text)).first()`, where a malformed text finds nothing. */
    function Find(sessionId: string): (found: Option<Session>)
      reads this
      ensures found.Some? <==> ParseId(sessionId).Some? && ParseId(sessionId).value in sessions
      ensures found.Some? ==> found.value == sessions[ParseId(sessionId).value]
    {
      var id := ParseId(sessionId);
      if id.Some? && id.value in sessions then Some(sessions[id.value]) else None
    }

    /** The row a text names, as the set of objects that processing it may change. */
    function Footprint(sessionId: string): set<object>
      reads this
    {
      if Find(sessionId).Some? then {Find(sessionId).value} else {}
    }

    /** `db.commit()` after a change to one row. */
    method Commit(s: Session)
      modifies journal
      ensures journal.events == old(journal.events) + [Committed(s.ToDict())]
    {
      journal.events := journal.events + [Committed(s.ToDict())];
    }

    /** `db.add(new_session); db.commit()`: a new row under the next identifier. */
    method Insert(title: string, sessionNumber: int, date: DateTime, path: string, fileName: string,
                  size: int, now: DateTime) returns (s: Session)
      requires Valid()
      modifies this, journal
      ensures Valid() && fresh(s)
      ensures s.id == old(nextId) && nextId == old(nextId) + 1
      ensures sessions == old(sessions)[s.id := s]
      ensures s.ToDict() == NewRow(s.id, title, sessionNumber, date, path, fileName, size, now)
      ensures journal.events == old(journal.events) + [Committed(s.ToDict())]
    {
      s := new Session(nextId, title, sessionNumber, date, path, fileName, size, now);
      sessions := sessions[nextId := s];
      nextId := nextId + 1;
      Commit(s);
    }
  }

  /** The dictionary of a freshly inserted row. */
  function NewRow(id: SessionId, title: string, sessionNumber: int, date: DateTime, path: string,
                  fileName: string, size: int, now: DateTime): (row: SessionDict)
    ensures row.processingStatus == "uploaded" && row.transcript == None
    ensures row.npcs == [] && row.items == [] && row.locations == [] && row.keyEvents == []
  {
    SessionDict(
      id := IdText(id),
      title := title,
      sessionNumber := sessionNumber,
      date := Some(date.iso),
      audioFilePath := path,
      audioFileName := fileName,
      audioFileSize := Some(size),
      transcript := None,
      narrativeSummary := None,
      tldrSummary := None,
      npcs := [],
      items := [],
      locations := [],
      keyEvents := [],
      comments := None,
      processingStatus := "uploaded",
      createdAt := Some(now.iso),
      updatedAt := Some(now.iso))
  }

  // ---------------------------------------------------------------- services

  /** The requests `transcribe_audio` sends for a file: none when the file is missing. */
  function TranscriptionCalls(f: Transcription.AudioFile): (calls: seq<Event>)
    ensures |calls| <= 1
    ensures calls != [] <==> f.present
  {
    if f.present then [TranscriptionRequested(f.path, Transcription.RequestTimeout(SizeMb(f.sizeBytes)))] else []
  }

  /**
   * The two services. `transcribe` and `analyze` are what the service
   * functions give for the replies `whisper` and `chat` of the APIs; `Valid`
   * records that link, so that a proof that does not need it never unfolds
   * the services.
   */
  class Services {
    const whisper: (string, int) -> Result<Transcription.WhisperResponse, ClientError>
    /** The chat API's reply to the analysis prompt built from a transcript. */
    const chat: string -> Result<AIAnalysis.Decoded, ClientError>
    const transcribe: Transcription.AudioFile -> Result<Transcription.TranscriptionResult, string>
    const analyze: string -> Result<AIAnalysis.AnalysisResult, string>
    const journal: Journal

    ghost predicate Valid() {
      && (forall f :: transcribe(f) == Transcription.TranscribeAudio(f, whisper(f.path, Transcription.RequestTimeout(SizeMb(f.sizeBytes)))))
      && (forall t :: analyze(t) == AIAnalysis.AnalyzeTranscript(chat(t)))
    }

    constructor(whisper: (string, int) -> Result<Transcription.WhisperResponse, ClientError>,
                chat: string -> Result<AIAnalysis.Decoded, ClientError>, journal: Journal)
      ensures Valid()
      ensures this.whisper == whisper && this.chat == chat && this.journal == journal
    {
      this.whisper := whisper;
      this.chat := chat;
      this.transcribe := (f: Transcription.AudioFile) =>
        Transcription.TranscribeAudio(f, whisper(f.path, Transcription.RequestTimeout(SizeMb(f.sizeBytes))));
      this.analyze := (t: string) => AIAnalysis.AnalyzeTranscript(chat(t));
      this.journal := journal;
    }

    /** `transcription_service.transcribe_audio`: a request only for a file that is there. */
    method Transcribe(f: Transcription.AudioFile) returns (r: Result<Transcription.TranscriptionResult, string>)
      modifies journal
      ensures r == transcribe(f)
      ensures journal.events == old(journal.events) + TranscriptionCalls(f)
    {
      journal.events := journal.events + TranscriptionCalls(f);
      r := transcribe(f);
    }

    /**
     * `ai_analysis_service.analyze_transcript`: one request, whose prompt is
     * `AIAnalysis.AnalysisPrompt(transcript)`; the prompt names the
     * transcript uniquely (`AIAnalysis.PromptDeterminesTranscript`), so the
     * request is recorded by its transcript.
     */
    method Analyze(transcript: string) returns (r: Result<AIAnalysis.AnalysisResult, string>)
      modifies journal
      ensures r == analyze(transcript)
      ensures journal.events == old(journal.events) + [AnalysisRequested(transcript)]
    {
      journal.events := journal.events + [AnalysisRequested(transcript)];
      r := analyze(transcript);
    }
  }

  // ---------------------------------------------------------------- compression helpers

  /** What `get_optimal_compression_settings` returns; its values are not modelled. */
  datatype CompressionSettings = CompressionSettings(targetBitrate: string, targetFormat: string, mono: bool, sampleRate: int)

  /** `(success, message, path)` as the compression helpers return it. */
  datatype CompressionOutcome = CompressionOutcome(success: bool, message: string, path: Option<string>)

  /**
   * The helpers app.py calls but whose code is not part of this model, and
   * the file system as they leave it. Their results are unconstrained.
   */
  class Tools {
    const ffmpegAvailable: bool
    /** Where `save_uploaded_file` put the upload, or None when saving failed. */
    const savedUpload: Option<string>
    const optimalSettings: (real, string) -> CompressionSettings
    const compress: (string, CompressionSettings, string) -> CompressionOutcome
    const extremeCompress: string -> CompressionOutcome
    const fileExists: string -> bool
    const fileSize: string -> nat
    const journal: Journal

    constructor(ffmpegAvailable: bool, savedUpload: Option<string>,
                optimalSettings: (real, string) -> CompressionSettings,
                compress: (string, CompressionSettings, string) -> CompressionOutcome,
                extremeCompress: string -> CompressionOutcome,
                fileExists: string -> bool, fileSize: string -> nat, journal: Journal)
      ensures this.ffmpegAvailable == ffmpegAvailable && this.savedUpload == savedUpload
      ensures this.optimalSettings == optimalSettings && this.compress == compress
      ensures this.extremeCompress == extremeCompress
      ensures this.fileExists == fileExists && this.fileSize == fileSize && this.journal == journal
    {
      this.ffmpegAvailable := ffmpegAvailable;
      this.savedUpload := savedUpload;
      this.optimalSettings := optimalSettings;
      this.compress := compress;
      this.extremeCompress := extremeCompress;
      this.fileExists := fileExists;
      this.fileSize := fileSize;
      this.journal := journal;
    }

    /** A file as `validate_audio_file` and `transcribe_audio` find it. */
    function Stat(path: string): (f: Transcription.AudioFile)
      ensures f.path == path
    {
      Transcription.AudioFile(path, fileExists(path), fileSize(path))
    }

    /** `audio_helper.compress_audio_file`. */
    method CompressAudioFile(path: string, settings: CompressionSettings, targetFormat: string)
      returns (r: CompressionOutcome)
      modifies journal
      ensures r == compress(path, settings, targetFormat)
      ensures journal.events == old(journal.events) + [CompressionRequested(path, targetFormat)]
    {
      journal.events := journal.events + [CompressionRequested(path, targetFormat)];
      r := compress(path, settings, targetFormat);
    }

    /** `audio_helper.extreme_compress_audio_file`. */
    method ExtremeCompressAudioFile(path: string) returns (r: CompressionOutcome)
      modifies journal
      ensures r == extremeCompress(path)
      ensures journal.events == old(journal.events) + [ExtremeCompressionRequested(path)]
    {
      journal.events := journal.events + [ExtremeCompressionRequested(path)];
      r := extremeCompress(path);
    }
  }
}
