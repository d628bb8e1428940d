/**
 * The application logic of app.py: `process_session`, which takes a stored
 * session through transcription and analysis with a commit after each
 * stage, and the decisions `upload_page` makes about an uploaded file
 * (size cap, conversion and compression, adoption of the processed file,
 * validation, creation of the record).
 *
 * Each operation is a method over the objects of `Store`, proved against a
 * pure description of the run (`ProcessRun`, `UploadPlan`) that lists, in
 * order, what the method does to the outside world. The properties of the
 * runs are lemmas about those descriptions.
 */
module App {

  import opened Wrappers
  import opened Text
  import opened Config
  import opened Models
  import opened Store
  import Transcription
  import AIAnalysis

  // ================================================================ process_session

  /** One run of `process_session` on a found row: what it sends outside and the row it leaves. */
  datatype Run = Run(events: seq<Event>, final: SessionDict)

  /** The best-effort write of status "error", which may not reach the store. */
  function ErrorWrite(row: SessionDict, errorWrite: bool): (run: Run)
    ensures errorWrite ==> run.final == row.(processingStatus := StatusName(Error)) && run.events == [Committed(run.final)]
    ensures !errorWrite ==> run == Run([], row)
  {
    if errorWrite then
      var failed := row.(processingStatus := StatusName(Error));
      Run([Committed(failed)], failed)
    else Run([], row)
  }

  /** The row once the analysis is stored: summaries, lists, the generated title and status "completed". */
  function WithAnalysis(row: SessionDict, a: AIAnalysis.AnalysisResult): SessionDict {
    row.(narrativeSummary := Some(a.narrativeSummary),
         tldrSummary := Some(a.tldrSummary),
         npcs := a.npcs,
         items := a.items,
         locations := a.locations,
         keyEvents := a.keyEvents,
         title := a.sessionTitle,
         processingStatus := StatusName(Completed))
  }

  /** The row as committed once the transcript is in: the transcript and status "analyzing". */
  function Transcribed(row: SessionDict, transcript: string): SessionDict {
    row.(transcript := Some(transcript), processingStatus := StatusName(Analyzing))
  }

  /**
   * The second stage of `process_session`, given the analysis service's
   * result for the transcript: commit the transcribed row, request the
   * analysis, then commit the analysis with "completed" or end in the error
   * write.
   */
  function AnalysisRun(analyzing: SessionDict, transcript: string,
                       analysis: Result<AIAnalysis.AnalysisResult, string>, errorWrite: bool): (run: Run)
    ensures 2 <= |run.events| && run.events[0] == Committed(analyzing) && run.events[1] == AnalysisRequested(transcript)
    ensures run.final.id == analyzing.id && run.final.transcript == analyzing.transcript
    ensures analysis.Success? ==> run.final.processingStatus == StatusName(Completed)
    ensures analysis.Failure? ==>
      run.final.processingStatus == (if errorWrite then StatusName(Error) else analyzing.processingStatus)
  {
    var calls := [Committed(analyzing), AnalysisRequested(transcript)];
    match analysis
    case Failure(_) =>
      var e := ErrorWrite(analyzing, errorWrite);
      Run(calls + e.events, e.final)
    case Success(a) =>
      var completed := WithAnalysis(analyzing, a);
      Run(calls + [Committed(completed)], completed)
  }

  /**
   * What `process_session` does to a found row, given the file it is told to
   * transcribe and the services' results (`analysis` is the result for the
   * transcript, and only matters when the transcription succeeds): commit
   * "transcribing", transcribe, then go on with the analysis stage; a failed
   * transcription ends in the error write.
   */
  function ProcessRun(row: SessionDict, audio: Transcription.AudioFile,
                      transcription: Result<Transcription.TranscriptionResult, string>,
                      analysis: Result<AIAnalysis.AnalysisResult, string>, errorWrite: bool): (run: Run)
    ensures run.events != [] && run.events[0] == Committed(row.(processingStatus := StatusName(Transcribing)))
    ensures run.final.id == row.id
    ensures transcription.Success? ==> run.final.transcript == Some(transcription.value.transcript)
    ensures run.final.processingStatus == StatusName(Completed) <==> transcription.Success? && analysis.Success?
  {
    var transcribing := row.(processingStatus := StatusName(Transcribing));
    var head := [Committed(transcribing)] + TranscriptionCalls(audio);
    match transcription
    case Failure(_) =>
      var e := ErrorWrite(transcribing, errorWrite);
      Run(head + e.events, e.final)
    case Success(t) =>
      var rest := AnalysisRun(Transcribed(transcribing, t.transcript), t.transcript, analysis, errorWrite);
      Run(head + rest.events, rest.final)
  }

  /** The run of `process_session` with the results the services give. */
  function ServiceRun(row: SessionDict, audio: Transcription.AudioFile, svc: Services, errorWrite: bool): (run: Run)
    ensures run.events != [] && run.events[0] == Committed(row.(processingStatus := StatusName(Transcribing)))
    ensures run.final.processingStatus == StatusName(Completed) <==>
      svc.transcribe(audio).Success? && svc.analyze(svc.transcribe(audio).value.transcript).Success?
  {
    var transcription := svc.transcribe(audio);
    var analysis := if transcription.Success? then svc.analyze(transcription.value.transcript) else Failure("");
    ProcessRun(row, audio, transcription, analysis, errorWrite)
  }

  // ---------------------------------------------------------------- the method

  /** The except branch: find the row again and mark it "error", if that write gets through. */
  method MarkFailed(db: Database, sessionId: string)
    requires db.Find(sessionId).Some?
    modifies db.journal, db.Footprint(sessionId)
    ensures var s := db.Find(sessionId).value;
      var e := ErrorWrite(old(s.ToDict()), db.errorWriteSucceeds);
      s.ToDict() == e.final && db.journal.events == old(db.journal.events) + e.events
  {
    var session := db.Find(sessionId).value;
    if db.errorWriteSucceeds {
      session.processingStatus := Error;
      db.Commit(session);
    }
  }

  /** Lines 128-129: the transcript goes in and the status becomes "analyzing". */
  method StoreTranscript(session: Session, transcript: string)
    modifies session
    ensures session.ToDict() == Transcribed(old(session.ToDict()), transcript)
  {
    session.transcript := Some(transcript);
    session.processingStatus := Analyzing;
  }

  /** Lines 141-148: the analysis fields go in, the title is replaced and the status becomes "completed". */
  method StoreAnalysis(session: Session, a: AIAnalysis.AnalysisResult)
    modifies session
    ensures session.ToDict() == WithAnalysis(old(session.ToDict()), a)
  {
    session.narrativeSummary, session.tldrSummary, session.npcs, session.items,
      session.locations, session.keyEvents, session.title, session.processingStatus :=
      Some(a.narrativeSummary), Some(a.tldrSummary), Some(a.npcs), Some(a.items),
      Some(a.locations), Some(a.keyEvents), a.sessionTitle, Completed;
  }

  /** Lines 128-149: store the transcript, commit, analyze, store the analysis, commit. */
  method RunAnalysisStage(db: Database, svc: Services, sessionId: string, transcript: string)
    requires svc.journal == db.journal && db.Find(sessionId).Some?
    modifies db.journal, db.Footprint(sessionId)
    ensures var s := db.Find(sessionId).value;
      var run := AnalysisRun(Transcribed(old(s.ToDict()), transcript), transcript, svc.analyze(transcript), db.errorWriteSucceeds);
      db.journal.events == old(db.journal.events) + run.events && s.ToDict() == run.final
  {
    var session := db.Find(sessionId).value;
    ghost var start := db.journal.events;
    StoreTranscript(session, transcript);
    ghost var analyzing := session.ToDict();
    db.Commit(session);
    var analysis := svc.Analyze(transcript);
    ghost var calls := [Committed(analyzing), AnalysisRequested(transcript)];
    assert db.journal.events == start + calls;
    ghost var run := AnalysisRun(analyzing, transcript, analysis, db.errorWriteSucceeds);
    if analysis.Failure? {
      ghost var e := ErrorWrite(analyzing, db.errorWriteSucceeds);
      assert run == Run(calls + e.events, e.final);
      MarkFailed(db, sessionId);
      AppendAssociates(start, calls, e.events);
      return;
    }
    StoreAnalysis(session, analysis.value);
    ghost var completed := WithAnalysis(analyzing, analysis.value);
    assert run == Run(calls + [Committed(completed)], completed);
    db.Commit(session);
    AppendAssociates(start, calls, [Committed(completed)]);
  }

  /**
   * `process_session(session_id, audio_file_path)`: nothing happens when no
   * row has that identifier; otherwise the row goes through `ProcessRun`.
   */
  method ProcessSession(db: Database, svc: Services, sessionId: string, audio: Transcription.AudioFile)
    requires svc.journal == db.journal
    modifies db.journal, db.Footprint(sessionId)
    ensures db.Find(sessionId) == old(db.Find(sessionId))
    ensures old(db.Find(sessionId)).None? ==> db.journal.events == old(db.journal.events)
    ensures old(db.Find(sessionId)).Some? ==>
      var run := ServiceRun(old(db.Find(sessionId).value.ToDict()), audio, svc, db.errorWriteSucceeds);
      db.journal.events == old(db.journal.events) + run.events && db.Find(sessionId).value.ToDict() == run.final
  {
    var found := db.Find(sessionId);
    if found.None? {
      return;
    }
    var session := found.value;
    ghost var start := db.journal.events;
    ghost var run := ServiceRun(session.ToDict(), audio, svc, db.errorWriteSucceeds);
    ghost var transcribing := session.ToDict().(processingStatus := StatusName(Transcribing));
    session.processingStatus := Transcribing;
    assert session.ToDict() == transcribing;
    db.Commit(session);
    var transcription := svc.Transcribe(audio);
    ghost var head := [Committed(transcribing)] + TranscriptionCalls(audio);
    assert db.journal.events == start + head;
    if transcription.Failure? {
      ghost var e := ErrorWrite(transcribing, db.errorWriteSucceeds);
      assert run == Run(head + e.events, e.final);
      MarkFailed(db, sessionId);
      AppendAssociates(start, head, e.events);
      return;
    }
    var transcript := transcription.value.transcript;
    ghost var rest := AnalysisRun(Transcribed(transcribing, transcript), transcript, svc.analyze(transcript), db.errorWriteSucceeds);
    assert run == Run(head + rest.events, rest.final);
    RunAnalysisStage(db, svc, sessionId, transcript);
    AppendAssociates(start, head, rest.events);
  }

  lemma AppendAssociates(a: seq<Event>, b: seq<Event>, c: seq<Event>)
    ensures (a + b) + c == a + (b + c)
  {
  }

  // ---------------------------------------------------------------- properties of a run

  /** The statuses a sequence of events commits, in order. */
  function CommittedStatuses(events: seq<Event>): (statuses: seq<string>)
    ensures |statuses| <= |events|
  {
    if events == [] then []
    else
      var last := events[|events| - 1];
      CommittedStatuses(events[..|events| - 1]) + (if last.Committed? then [last.row.processingStatus] else [])
  }

  lemma {:induction false} CommittedStatusesAppend(a: seq<Event>, b: seq<Event>)
    ensures CommittedStatuses(a + b) == CommittedStatuses(a) + CommittedStatuses(b)
    decreases |b|
  {
    if b == [] {
      assert a + b == a;
    } else {
      var last := b[|b| - 1];
      assert (a + b)[..|a + b| - 1] == a + b[..|b| - 1];
      CommittedStatusesAppend(a, b[..|b| - 1]);
    }
  }

  /** The kinds of request a run can send. */
  datatype Request = ToWhisper | ToChat

  predicate IsRequest(e: Event, kind: Request) {
    match kind
    case ToWhisper => e.TranscriptionRequested?
    case ToChat => e.AnalysisRequested?
  }

  /** How many requests of a kind a sequence of events holds. */
  function Requests(events: seq<Event>, kind: Request): (n: nat)
    ensures n <= |events|
  {
    if events == [] then 0
    else Requests(events[..|events| - 1], kind) + (if IsRequest(events[|events| - 1], kind) then 1 else 0)
  }

  lemma {:induction false} RequestsAppend(a: seq<Event>, b: seq<Event>, kind: Request)
    ensures Requests(a + b, kind) == Requests(a, kind) + Requests(b, kind)
    decreases |b|
  {
    if b == [] {
      assert a + b == a;
    } else {
      assert (a + b)[..|a + b| - 1] == a + b[..|b| - 1];
      RequestsAppend(a, b[..|b| - 1], kind);
    }
  }

  lemma StatusesOfOne(e: Event)
    ensures CommittedStatuses([e]) == if e.Committed? then [e.row.processingStatus] else []
  {
    assert [e][..0] == [];
  }

  lemma RequestsOfOne(e: Event, kind: Request)
    ensures Requests([e], kind) == if IsRequest(e, kind) then 1 else 0
  {
    assert [e][..0] == [];
  }

  /** The statuses the best-effort error write commits. */
  lemma ErrorWriteStatuses(row: SessionDict, errorWrite: bool)
    ensures CommittedStatuses(ErrorWrite(row, errorWrite).events) == if errorWrite then ["error"] else []
    ensures forall kind :: Requests(ErrorWrite(row, errorWrite).events, kind) == 0
  {
    if errorWrite {
      StatusesOfOne(ErrorWrite(row, errorWrite).events[0]);
      forall kind: Request ensures Requests(ErrorWrite(row, errorWrite).events, kind) == 0 {
        RequestsOfOne(ErrorWrite(row, errorWrite).events[0], kind);
      }
    }
  }

  /** The analysis stage commits "analyzing", sends one analysis request, then commits "completed" or the error. */
  lemma AnalysisRunTrail(analyzing: SessionDict, transcript: string,
                         analysis: Result<AIAnalysis.AnalysisResult, string>, errorWrite: bool)
    requires analyzing.processingStatus == "analyzing"
    ensures var events := AnalysisRun(analyzing, transcript, analysis, errorWrite).events;
      && CommittedStatuses(events) ==
           ["analyzing"] + (if analysis.Success? then ["completed"] else if errorWrite then ["error"] else [])
      && Requests(events, ToChat) == 1 && Requests(events, ToWhisper) == 0
  {
    var first: seq<Event> := [Committed(analyzing)];
    var ask: seq<Event> := [AnalysisRequested(transcript)];
    StatusesOfOne(first[0]);
    StatusesOfOne(ask[0]);
    CommittedStatusesAppend(first, ask);
    RequestsOfOne(first[0], ToChat);
    RequestsOfOne(ask[0], ToChat);
    RequestsOfOne(first[0], ToWhisper);
    RequestsOfOne(ask[0], ToWhisper);
    RequestsAppend(first, ask, ToChat);
    RequestsAppend(first, ask, ToWhisper);
    assert first + ask == [Committed(analyzing), AnalysisRequested(transcript)];
    var run := AnalysisRun(analyzing, transcript, analysis, errorWrite);
    var tail := run.events[2..];
    assert run.events == (first + ask) + tail;
    CommittedStatusesAppend(first + ask, tail);
    RequestsAppend(first + ask, tail, ToChat);
    RequestsAppend(first + ask, tail, ToWhisper);
    match analysis
    case Failure(_) =>
      ErrorWriteStatuses(analyzing, errorWrite);
    case Success(a) =>
      StatusesOfOne(tail[0]);
      RequestsOfOne(tail[0], ToChat);
      RequestsOfOne(tail[0], ToWhisper);
  }

  /** The transcription stage commits "transcribing" and asks for a transcript exactly when the file is there. */
  lemma HeadTrail(row: SessionDict, audio: Transcription.AudioFile)
    ensures var head := [Committed(row.(processingStatus := StatusName(Transcribing)))] + TranscriptionCalls(audio);
      && CommittedStatuses(head) == ["transcribing"]
      && Requests(head, ToWhisper) == (if audio.present then 1 else 0)
      && Requests(head, ToChat) == 0
  {
    var first: seq<Event> := [Committed(row.(processingStatus := StatusName(Transcribing)))];
    var calls := TranscriptionCalls(audio);
    StatusesOfOne(first[0]);
    CommittedStatusesAppend(first, calls);
    RequestsOfOne(first[0], ToChat);
    RequestsOfOne(first[0], ToWhisper);
    RequestsAppend(first, calls, ToChat);
    RequestsAppend(first, calls, ToWhisper);
    if audio.present {
      StatusesOfOne(calls[0]);
      RequestsOfOne(calls[0], ToChat);
      RequestsOfOne(calls[0], ToWhisper);
    }
  }

  /**
   * The committed statuses follow one of five paths: transcribing, then
   * error, or analyzing, then error or completed; the error commit is
   * missing when the error write does not get through.
   */
  lemma StatusPaths(row: SessionDict, audio: Transcription.AudioFile,
                    transcription: Result<Transcription.TranscriptionResult, string>,
                    analysis: Result<AIAnalysis.AnalysisResult, string>, errorWrite: bool)
    ensures var trail := CommittedStatuses(ProcessRun(row, audio, transcription, analysis, errorWrite).events);
      || trail == ["transcribing"]
      || trail == ["transcribing", "error"]
      || trail == ["transcribing", "analyzing"]
      || trail == ["transcribing", "analyzing", "error"]
      || trail == ["transcribing", "analyzing", "completed"]
  {
    if transcription.Failure? {
      FailedTranscriptionTrail(row, audio, transcription, analysis, errorWrite);
    } else {
      TranscribedTrail(row, audio, transcription, analysis, errorWrite);
    }
  }

  lemma FailedTranscriptionTrail(row: SessionDict, audio: Transcription.AudioFile,
                    transcription: Result<Transcription.TranscriptionResult, string>,
                    analysis: Result<AIAnalysis.AnalysisResult, string>, errorWrite: bool)
    requires transcription.Failure?
    ensures CommittedStatuses(ProcessRun(row, audio, transcription, analysis, errorWrite).events)
      == ["transcribing"] + (if errorWrite then ["error"] else [])
  {
    var transcribing := row.(processingStatus := StatusName(Transcribing));
    var head := [Committed(transcribing)] + TranscriptionCalls(audio);
    HeadTrail(row, audio);
    ErrorWriteStatuses(transcribing, errorWrite);
    CommittedStatusesAppend(head, ErrorWrite(transcribing, errorWrite).events);
  }

  lemma TranscribedTrail(row: SessionDict, audio: Transcription.AudioFile,
                    transcription: Result<Transcription.TranscriptionResult, string>,
                    analysis: Result<AIAnalysis.AnalysisResult, string>, errorWrite: bool)
    requires transcription.Success?
    ensures CommittedStatuses(ProcessRun(row, audio, transcription, analysis, errorWrite).events)
      == ["transcribing"] + (["analyzing"] + (if analysis.Success? then ["completed"] else if errorWrite then ["error"] else []))
  {
    var transcribing := row.(processingStatus := StatusName(Transcribing));
    var head := [Committed(transcribing)] + TranscriptionCalls(audio);
    HeadTrail(row, audio);
    var t := transcription.value;
    var rest := AnalysisRun(Transcribed(transcribing, t.transcript), t.transcript, analysis, errorWrite);
    AnalysisRunTrail(Transcribed(transcribing, t.transcript), t.transcript, analysis, errorWrite);
    CommittedStatusesAppend(head, rest.events);
  }

  /** Each service is asked at most once: the transcription exactly when the file is there, the analysis exactly when a transcript came back. */
  lemma EachServiceAtMostOnce(row: SessionDict, audio: Transcription.AudioFile,
                    transcription: Result<Transcription.TranscriptionResult, string>,
                    analysis: Result<AIAnalysis.AnalysisResult, string>, errorWrite: bool)
    ensures var events := ProcessRun(row, audio, transcription, analysis, errorWrite).events;
      && Requests(events, ToWhisper) <= 1
      && Requests(events, ToChat) <= 1
      && (Requests(events, ToChat) == 1 <==> transcription.Success?)
      && (Requests(events, ToWhisper) == 1 <==> audio.present)
  {
    var transcribing := row.(processingStatus := StatusName(Transcribing));
    var head := [Committed(transcribing)] + TranscriptionCalls(audio);
    HeadTrail(row, audio);
    match transcription
    case Failure(_) =>
      ErrorWriteStatuses(transcribing, errorWrite);
      RequestsAppend(head, ErrorWrite(transcribing, errorWrite).events, ToChat);
      RequestsAppend(head, ErrorWrite(transcribing, errorWrite).events, ToWhisper);
    case Success(t) =>
      var rest := AnalysisRun(Transcribed(transcribing, t.transcript), t.transcript, analysis, errorWrite);
      AnalysisRunTrail(Transcribed(transcribing, t.transcript), t.transcript, analysis, errorWrite);
      RequestsAppend(head, rest.events, ToChat);
      RequestsAppend(head, rest.events, ToWhisper);
  }

  /**
   * The first thing a run does is commit "transcribing"; the analysis
   * request comes right after the commit of "analyzing" and asks about
   * exactly the transcript that commit stored.
   */
  lemma CommitComesBeforeEachRequest(row: SessionDict, audio: Transcription.AudioFile,
                    transcription: Result<Transcription.TranscriptionResult, string>,
                    analysis: Result<AIAnalysis.AnalysisResult, string>, errorWrite: bool, i: nat)
    requires i < |ProcessRun(row, audio, transcription, analysis, errorWrite).events|
    ensures var events := ProcessRun(row, audio, transcription, analysis, errorWrite).events;
      && events[0] == Committed(row.(processingStatus := "transcribing"))
      && (events[i].AnalysisRequested? ==>
            && i >= 1
            && events[i - 1].Committed?
            && events[i - 1].row.processingStatus == "analyzing"
            && events[i - 1].row.transcript.Some?
            && events[i].transcript == events[i - 1].row.transcript.value)
  {
    var run := ProcessRun(row, audio, transcription, analysis, errorWrite);
    var head := [Committed(row.(processingStatus := StatusName(Transcribing)))] + TranscriptionCalls(audio);
    assert run.events[..|head|] == head;
    if run.events[i].AnalysisRequested? {
      assert transcription.Success?;
      assert i == |head| + 1;
    }
  }

  /** A transcript that was obtained stays stored, whatever happens to the analysis. */
  lemma TranscriptSurvivesAnalysisFailure(row: SessionDict, audio: Transcription.AudioFile,
                    transcription: Result<Transcription.TranscriptionResult, string>,
                    analysis: Result<AIAnalysis.AnalysisResult, string>, errorWrite: bool)
    requires transcription.Success?
    ensures ProcessRun(row, audio, transcription, analysis, errorWrite).final.transcript == Some(transcription.value.transcript)
  {
  }

  /**
   * The run ends "completed" exactly when both services succeed, and then
   * the stored row carries the analysis; a failure ends in "error" when the
   * error write gets through and leaves the stage's status otherwise.
   */
  lemma OutcomeOfARun(row: SessionDict, audio: Transcription.AudioFile,
                    transcription: Result<Transcription.TranscriptionResult, string>,
                    analysis: Result<AIAnalysis.AnalysisResult, string>, errorWrite: bool)
    ensures var final := ProcessRun(row, audio, transcription, analysis, errorWrite).final;
      var t := transcription;
      && (final.processingStatus == "completed" <==> t.Success? && analysis.Success?)
      && (final.processingStatus == "completed" ==>
            final == WithAnalysis(row.(transcript := Some(t.value.transcript)), analysis.value))
      && (final.processingStatus != "completed" ==>
            if errorWrite then final.processingStatus == "error"
            else final.processingStatus == (if t.Success? then "analyzing" else "transcribing"))
  {
  }

  /** A run changes only the status, the transcript, the analysis fields and the title. */
  lemma RunKeepsMetadata(row: SessionDict, audio: Transcription.AudioFile,
                    transcription: Result<Transcription.TranscriptionResult, string>,
                    analysis: Result<AIAnalysis.AnalysisResult, string>, errorWrite: bool)
    ensures var final := ProcessRun(row, audio, transcription, analysis, errorWrite).final;
      && final.id == row.id && final.sessionNumber == row.sessionNumber && final.date == row.date
      && final.audioFilePath == row.audioFilePath && final.audioFileName == row.audioFileName
      && final.audioFileSize == row.audioFileSize && final.comments == row.comments
      && final.createdAt == row.createdAt && final.updatedAt == row.updatedAt
  {
  }

  /** Running again on a completed row is not a no-op: it starts over by committing "transcribing". */
  lemma CompletedRowIsProcessedAgain(row: SessionDict, audio: Transcription.AudioFile,
                    transcription: Result<Transcription.TranscriptionResult, string>,
                    analysis: Result<AIAnalysis.AnalysisResult, string>, errorWrite: bool)
    requires row.processingStatus == "completed"
    ensures var events := ProcessRun(row, audio, transcription, analysis, errorWrite).events;
      events[0].Committed? && events[0].row != row && events[0].row.processingStatus == "transcribing"
  {
  }

  /**
   * With the services as modelled, a missing audio file never reaches
   * either API: the run commits "transcribing" and goes straight to the
   * error write.
   */
  lemma MissingAudioReachesNoApi(row: SessionDict, audio: Transcription.AudioFile, svc: Services, errorWrite: bool)
    requires svc.Valid() && !audio.present
    ensures var run := ServiceRun(row, audio, svc, errorWrite);
      var transcribing := row.(processingStatus := "transcribing");
      && run.events == [Committed(transcribing)] + ErrorWrite(transcribing, errorWrite).events
      && run.final == ErrorWrite(transcribing, errorWrite).final
  {
    assert svc.transcribe(audio).Failure?;
  }
}
