/**
 * The decisions of the upload page (app.py, `upload_page`): the size cap,
 * whether the file needs an AAC conversion or compression, the need for
 * ffmpeg, which processed file is adopted, validation, and the record that
 * is then created and processed.
 *
 * `UploadPlan` describes, for an upload and the helpers' results, the
 * helper requests made and where the page ends: refused for a reason, or
 * with a file accepted for a new record. `UploadPage` is proved to follow
 * it and then to create the record and run `App.ProcessSession` on it.
 */
module Upload {

  import opened Wrappers
  import opened Text
  import opened Config
  import opened Models
  import opened Store
  import Transcription
  import App

  /** The file the user picked: its name and size in bytes. */
  datatype UploadedFile = UploadedFile(name: string, sizeBytes: nat)

  /**
   * The rest of the page: the session number and date (the date at
   * midnight), whether "Traiter la session" was clicked, and whether the
   * extreme-compression flag of the page state is set.
   */
  datatype Form = Form(sessionNumber: int, date: DateTime, processClicked: bool, extremeRequested: bool)

  /** The largest processed file the page adopts, in megabytes. */
  const AdoptLimitMb: real := 25.0

  // ---------------------------------------------------------------- gating

  /** What the upload needs before transcription. */
  datatype Needs = Needs(aacConversion: bool, compression: bool)

  /** An AAC file needs converting; a file over 5 MB needs compressing. */
  function NeedsOf(u: UploadedFile): (n: Needs)
    ensures n.aacConversion <==> Extension(u.name) == "aac"
    ensures n.compression <==> u.sizeBytes > 5 * MiB
  {
    Needs(Extension(u.name) == "aac", SizeMb(u.sizeBytes) > 5.0)
  }

  predicate NeedsProcessing(n: Needs) {
    n.aacConversion || n.compression
  }

  /** Where the checks before the button leave the upload. */
  datatype Gate = RejectTooLarge | RequireFfmpeg | Proceed(needs: Needs)

  /**
   * Lines 209-228: an upload over the configured maximum is refused first;
   * one that needs processing is refused when ffmpeg is missing.
   */
  function UploadGate(u: UploadedFile, s: Settings, ffmpegAvailable: bool): (g: Gate)
    ensures g == RejectTooLarge <==> u.sizeBytes > MaxFileSizeBytes(s)
    ensures g == RequireFfmpeg <==>
      u.sizeBytes <= MaxFileSizeBytes(s) && NeedsProcessing(NeedsOf(u)) && !ffmpegAvailable
    ensures g.Proceed? ==> g.needs == NeedsOf(u)
  {
    ByteAndMegabyteLimitsAgree(s, u.sizeBytes);
    if SizeMb(u.sizeBytes) > s.maxFileSizeMb as real then RejectTooLarge
    else
      var needs := Needs(Extension(u.name) == "aac", SizeMb(u.sizeBytes) > 5.0);
      if NeedsProcessing(needs) && !ffmpegAvailable then RequireFfmpeg else Proceed(needs)
  }

  /** Whether ffmpeg is installed only matters for an upload that needs processing. */
  lemma FfmpegOnlyMattersWhenNeeded(u: UploadedFile, s: Settings)
    requires !NeedsProcessing(NeedsOf(u))
    ensures UploadGate(u, s, false) == UploadGate(u, s, true)
  {
  }

  /** An upload let through the gate never trips the validator's own size limit. */
  lemma GateAgreesWithValidator(u: UploadedFile, s: Settings, ffmpegAvailable: bool, path: string)
    requires UploadGate(u, s, ffmpegAvailable).Proceed?
    ensures Transcription.CheckAudioFile(Transcription.AudioFile(path, true, u.sizeBytes), s) != Some(Transcription.TooLarge)
  {
    Transcription.WithinConfiguredLimit(path, s, u.sizeBytes);
  }

  // ---------------------------------------------------------------- the plan

  /** Why the page stops without creating a record. */
  datatype Stop =
    | FileTooLarge
    | FfmpegRequired
    | NotSubmitted
    | SaveFailed
    | ProcessingFailed(message: string)
    | StillTooLarge
    | ExtremeFailed(message: string)
    | ExtremeStillTooLarge
    | ValidationFailed(message: string)

  /** Where the page ends: stopped, or with a file for the new record (`validated` is false on the extreme path). */
  datatype Ending = Stopped(why: Stop) | Accepted(path: string, fileName: string, validated: bool)

  /** The helper requests made, in order, and the ending. */
  datatype Plan = Plan(calls: seq<Event>, ending: Ending)

  /** Whether a processed file is small enough to adopt. */
  predicate Fits(t: Tools, path: string) {
    SizeMb(t.fileSize(path)) <= AdoptLimitMb
  }

  /** A succeeded helper call that produced a file. */
  predicate Produced(out: CompressionOutcome) {
    out.success && out.path.Some?
  }

  /** Lines 529-536: the final file is validated before anything is stored. */
  function ValidatePlan(t: Tools, s: Settings, render: (real, nat) -> string,
                        path: string, fileName: string, calls: seq<Event>): (p: Plan)
    ensures p.calls == calls
    ensures p.ending.Accepted? <==> Transcription.Acceptable(t.Stat(path), s)
    ensures p.ending.Accepted? ==> p.ending == Accepted(path, fileName, true)
  {
    var verdict := Transcription.ValidateAudioFile(t.Stat(path), s, render);
    if verdict.0 then Plan(calls, Accepted(path, fileName, true))
    else Plan(calls, Stopped(ValidationFailed(verdict.1)))
  }

  /**
   * Lines 295-332: with the extreme flag set, the saved upload goes through
   * extreme compression, and a produced file of at most 25 MB is taken for
   * the record without validation.
   */
  function ExtremePlan(t: Tools, saved: string, stem: string, requested: bool, calls: seq<Event>): (p: Plan)
    ensures requested <==> p.calls == calls + [ExtremeCompressionRequested(saved)]
    ensures !requested ==> p == Plan(calls, Stopped(StillTooLarge))
    ensures requested ==>
      (p.ending.Accepted? <==> Produced(t.extremeCompress(saved)) && Fits(t, t.extremeCompress(saved).path.value))
    ensures requested && !Produced(t.extremeCompress(saved)) ==>
      p.ending == Stopped(ExtremeFailed(t.extremeCompress(saved).message))
    ensures requested && Produced(t.extremeCompress(saved)) && !Fits(t, t.extremeCompress(saved).path.value) ==>
      p.ending == Stopped(ExtremeStillTooLarge)
    ensures p.ending.Accepted? ==>
      p.ending == Accepted(t.extremeCompress(saved).path.value, stem + "_extreme.mp3", false)
  {
    if !requested then Plan(calls, Stopped(StillTooLarge))
    else
      var out := t.extremeCompress(saved);
      var sent := calls + [ExtremeCompressionRequested(saved)];
      if !Produced(out) then Plan(sent, Stopped(ExtremeFailed(out.message)))
      else if Fits(t, out.path.value) then Plan(sent, Accepted(out.path.value, stem + "_extreme.mp3", false))
      else Plan(sent, Stopped(ExtremeStillTooLarge))
  }

  /**
   * Lines 240-497: the processing branch chosen by what the upload needs;
   * `extension` is the upload's extension as line 207 computes it.
   */
  function ProcessingPlan(u: UploadedFile, form: Form, s: Settings, t: Tools, render: (real, nat) -> string,
                          saved: string, needs: Needs, extension: string): (p: Plan)
    ensures !NeedsProcessing(needs) ==> p == ValidatePlan(t, s, render, saved, u.name, [])
    ensures NeedsProcessing(needs) ==> p.calls != [] && p.calls[0].CompressionRequested? && p.calls[0].path == saved
  {
    var stem := NameStem(FileName(u.name));
    var sizeMb := SizeMb(u.sizeBytes);
    if needs.aacConversion && needs.compression then
      var out := t.compress(saved, t.optimalSettings(sizeMb, "aac"), "mp3");
      var calls := [CompressionRequested(saved, "mp3")];
      if !Produced(out) then ValidatePlan(t, s, render, saved, u.name, calls)
      else if Fits(t, out.path.value) then ValidatePlan(t, s, render, out.path.value, stem + "_processed.mp3", calls)
      else ExtremePlan(t, saved, stem, form.extremeRequested, calls)
    else if needs.aacConversion then
      var out := t.compress(saved, t.optimalSettings(sizeMb, "aac"), "mp3");
      var calls := [CompressionRequested(saved, "mp3")];
      if !Produced(out) then Plan(calls, Stopped(ProcessingFailed(out.message)))
      else ValidatePlan(t, s, render, out.path.value, stem + "_compressed.mp3", calls)
    else if needs.compression then
      var settings := t.optimalSettings(sizeMb, extension);
      var out := t.compress(saved, settings, settings.targetFormat);
      var calls := [CompressionRequested(saved, settings.targetFormat)];
      if !Produced(out) then Plan(calls, Stopped(ProcessingFailed(out.message)))
      else if Fits(t, out.path.value) then
        ValidatePlan(t, s, render, out.path.value, stem + "_compressed." + settings.targetFormat, calls)
      else ExtremePlan(t, saved, stem, form.extremeRequested, calls)
    else ValidatePlan(t, s, render, saved, u.name, [])
  }

  /** What the page does with an upload, up to the creation of the record. */
  function UploadPlan(u: UploadedFile, form: Form, s: Settings, t: Tools, render: (real, nat) -> string): (p: Plan)
    ensures p.calls != [] || p.ending.Accepted? ==>
      UploadGate(u, s, t.ffmpegAvailable).Proceed? && form.processClicked && t.savedUpload.Some?
  {
    match UploadGate(u, s, t.ffmpegAvailable)
    case RejectTooLarge => Plan([], Stopped(FileTooLarge))
    case RequireFfmpeg => Plan([], Stopped(FfmpegRequired))
    case Proceed(needs) =>
      if !form.processClicked then Plan([], Stopped(NotSubmitted))
      else if t.savedUpload.None? then Plan([], Stopped(SaveFailed))
      else ProcessingPlan(u, form, s, t, render, t.savedUpload.value, needs, Extension(u.name))
  }

  // ---------------------------------------------------------------- properties of the plan

  /** An upload over the configured maximum is refused before any helper is asked anything. */
  lemma OversizedUploadsAreRefusedFirst(u: UploadedFile, form: Form, s: Settings, t: Tools, render: (real, nat) -> string)
    requires u.sizeBytes > MaxFileSizeBytes(s)
    ensures UploadPlan(u, form, s, t, render) == Plan([], Stopped(FileTooLarge))
  {
  }

  /** The helper requests of a processing branch: at most two, the first on the saved upload, the second an extreme compression. */
  lemma ProcessingRequests(u: UploadedFile, form: Form, s: Settings, t: Tools, render: (real, nat) -> string,
                           saved: string, needs: Needs, extension: string)
    ensures var p := ProcessingPlan(u, form, s, t, render, saved, needs, extension);
      && |p.calls| <= 2
      && (p.calls != [] ==> NeedsProcessing(needs) && p.calls[0].CompressionRequested? && p.calls[0].path == saved)
      && (|p.calls| == 2 ==> form.extremeRequested && p.calls[1] == ExtremeCompressionRequested(saved))
  {
  }

  /**
   * A helper is asked something only for a submitted, saved upload within
   * the limit that needs processing, with ffmpeg present; at most two
   * requests are made, and extreme compression only comes second.
   */
  lemma HelpersOnlyWhenNeeded(u: UploadedFile, form: Form, s: Settings, t: Tools, render: (real, nat) -> string)
    ensures var plan := UploadPlan(u, form, s, t, render);
      && |plan.calls| <= 2
      && (plan.calls != [] ==>
            && u.sizeBytes <= MaxFileSizeBytes(s) && NeedsProcessing(NeedsOf(u)) && t.ffmpegAvailable
            && form.processClicked && t.savedUpload.Some?
            && plan.calls[0].CompressionRequested? && plan.calls[0].path == t.savedUpload.value)
      && (|plan.calls| == 2 ==> form.extremeRequested && plan.calls[1] == ExtremeCompressionRequested(t.savedUpload.value))
  {
    var gate := UploadGate(u, s, t.ffmpegAvailable);
    if gate.Proceed? && form.processClicked && t.savedUpload.Some? {
      ProcessingRequests(u, form, s, t, render, t.savedUpload.value, gate.needs, Extension(u.name));
    }
  }

  /** A file a processing branch accepts is at most 25 MB, validated or else the output of extreme compression. */
  lemma ProcessingAcceptance(u: UploadedFile, form: Form, s: Settings, t: Tools, render: (real, nat) -> string,
                             saved: string, needs: Needs, extension: string)
    ensures var p := ProcessingPlan(u, form, s, t, render, saved, needs, extension);
      p.ending.Accepted? ==>
        && (p.ending.validated ==> Transcription.Acceptable(t.Stat(p.ending.path), s))
        && (!p.ending.validated ==>
              && Fits(t, p.ending.path)
              && form.extremeRequested
              && |p.calls| == 2
              && t.extremeCompress(saved).path == Some(p.ending.path))
  {
  }

  /**
   * Every file accepted for a record is at most 25 MB. On the main path it
   * has passed validation; otherwise it is the output of extreme
   * compression, asked for by the flag.
   */
  lemma AcceptedFilesFitTheApi(u: UploadedFile, form: Form, s: Settings, t: Tools, render: (real, nat) -> string)
    ensures var plan := UploadPlan(u, form, s, t, render);
      plan.ending.Accepted? ==>
        && Fits(t, plan.ending.path)
        && (plan.ending.validated ==> Transcription.Acceptable(t.Stat(plan.ending.path), s))
        && (!plan.ending.validated ==>
              && form.extremeRequested
              && |plan.calls| == 2
              && t.extremeCompress(t.savedUpload.value).path == Some(plan.ending.path))
  {
    var gate := UploadGate(u, s, t.ffmpegAvailable);
    if gate.Proceed? && form.processClicked && t.savedUpload.Some? {
      var plan := ProcessingPlan(u, form, s, t, render, t.savedUpload.value, gate.needs, Extension(u.name));
      ProcessingAcceptance(u, form, s, t, render, t.savedUpload.value, gate.needs, Extension(u.name));
      if plan.ending.Accepted? && plan.ending.validated {
        Transcription.WhisperLimitInBytes(t.fileSize(plan.ending.path));
      }
    }
  }

  /**
   * The AAC-only branch adopts any produced conversion without a size check
   * of its own (lines 366-374): whether a record follows is left to the
   * validator.
   */
  lemma AacConversionIsAdoptedUnchecked(u: UploadedFile, form: Form, s: Settings, t: Tools, render: (real, nat) -> string)
    requires UploadGate(u, s, t.ffmpegAvailable) == Proceed(Needs(true, false))
    requires form.processClicked && t.savedUpload.Some?
    requires Produced(t.compress(t.savedUpload.value, t.optimalSettings(SizeMb(u.sizeBytes), "aac"), "mp3"))
    ensures var converted := t.compress(t.savedUpload.value, t.optimalSettings(SizeMb(u.sizeBytes), "aac"), "mp3").path.value;
      UploadPlan(u, form, s, t, render)
        == ValidatePlan(t, s, render, converted, NameStem(FileName(u.name)) + "_compressed.mp3",
                        [CompressionRequested(t.savedUpload.value, "mp3")])
  {
  }

  /**
   * In the combined AAC and compression branch a failed compression falls
   * through to validating the saved upload itself (line 257 has no else);
   * saved under its own ".aac" suffix, that file is always refused, and
   * when it is there the refusal is the unsupported-format message.
   */
  lemma FailedCombinedCompressionIsRefused(u: UploadedFile, form: Form, s: Settings, t: Tools, render: (real, nat) -> string)
    requires s.supportedAudioFormats == SupportedAudioFormats
    requires UploadGate(u, s, t.ffmpegAvailable) == Proceed(Needs(true, true))
    requires form.processClicked && t.savedUpload.Some? && Extension(t.savedUpload.value) == "aac"
    requires !Produced(t.compress(t.savedUpload.value, t.optimalSettings(SizeMb(u.sizeBytes), "aac"), "mp3"))
    ensures var plan := UploadPlan(u, form, s, t, render);
      && plan.calls == [CompressionRequested(t.savedUpload.value, "mp3")]
      && plan.ending.Stopped? && plan.ending.why.ValidationFailed?
      && (t.fileExists(t.savedUpload.value) ==>
            plan.ending.why.message == "Unsupported audio format: aac. Supported: " + Join(SupportedAudioFormats, ", "))
  {
    AacIsNotSupported();
    assert !Transcription.Acceptable(t.Stat(t.savedUpload.value), s);
  }

  // ---------------------------------------------------------------- the page

  /** What the page leaves behind: a stop reason, or the identifier of the processed record. */
  datatype UploadResult = Refused(why: Stop) | Processed(id: SessionId)

  /** `f"Session {session_number}"`, the title until the analysis supplies one. */
  function PlaceholderTitle(sessionNumber: int): string {
    "Session " + IntToString(sessionNumber)
  }

  /** The branch that needs both conversion and compression (lines 242-348). */
  method CombinedBranch(u: UploadedFile, form: Form, s: Settings, t: Tools, render: (real, nat) -> string,
                  saved: string, extension: string)
    returns (ending: Ending)
    modifies t.journal
    ensures var p := ProcessingPlan(u, form, s, t, render, saved, Needs(true, true), extension);
      ending == p.ending && t.journal.events == old(t.journal.events) + p.calls
  {
    var stem := NameStem(FileName(u.name));
    var out := t.CompressAudioFile(saved, t.optimalSettings(SizeMb(u.sizeBytes), "aac"), "mp3");
    if !Produced(out) {
      ending := ValidatePlan(t, s, render, saved, u.name, []).ending;
    } else if Fits(t, out.path.value) {
      ending := ValidatePlan(t, s, render, out.path.value, stem + "_processed.mp3", []).ending;
    } else {
      ending := TryExtreme(t, saved, stem, form.extremeRequested, [CompressionRequested(saved, "mp3")]);
    }
  }

  /** The branch that only converts an AAC file (lines 350-381). */
  method ConversionBranch(u: UploadedFile, form: Form, s: Settings, t: Tools, render: (real, nat) -> string,
                  saved: string, extension: string)
    returns (ending: Ending)
    modifies t.journal
    ensures var p := ProcessingPlan(u, form, s, t, render, saved, Needs(true, false), extension);
      ending == p.ending && t.journal.events == old(t.journal.events) + p.calls
  {
    var stem := NameStem(FileName(u.name));
    var out := t.CompressAudioFile(saved, t.optimalSettings(SizeMb(u.sizeBytes), "aac"), "mp3");
    if !Produced(out) {
      ending := Stopped(ProcessingFailed(out.message));
    } else {
      ending := ValidatePlan(t, s, render, out.path.value, stem + "_compressed.mp3", []).ending;
    }
  }

  /** The branch that only compresses (lines 383-497). */
  method CompressionBranch(u: UploadedFile, form: Form, s: Settings, t: Tools, render: (real, nat) -> string,
                  saved: string, extension: string)
    returns (ending: Ending)
    modifies t.journal
    ensures var p := ProcessingPlan(u, form, s, t, render, saved, Needs(false, true), extension);
      ending == p.ending && t.journal.events == old(t.journal.events) + p.calls
  {
    var stem := NameStem(FileName(u.name));
    var settings := t.optimalSettings(SizeMb(u.sizeBytes), extension);
    var out := t.CompressAudioFile(saved, settings, settings.targetFormat);
    if !Produced(out) {
      ending := Stopped(ProcessingFailed(out.message));
    } else if Fits(t, out.path.value) {
      ending := ValidatePlan(t, s, render, out.path.value, stem + "_compressed." + settings.targetFormat, []).ending;
    } else {
      ending := TryExtreme(t, saved, stem, form.extremeRequested, [CompressionRequested(saved, settings.targetFormat)]);
    }
  }

  /** The extreme-compression attempt; returns where `ExtremePlan` ends. */
  method TryExtreme(t: Tools, saved: string, stem: string, requested: bool, ghost calls: seq<Event>) returns (ending: Ending)
    modifies t.journal
    ensures var p := ExtremePlan(t, saved, stem, requested, calls);
      ending == p.ending && t.journal.events == old(t.journal.events) + p.calls[|calls|..]
  {
    if !requested {
      return Stopped(StillTooLarge);
    }
    var out := t.ExtremeCompressAudioFile(saved);
    if !Produced(out) {
      ending := Stopped(ExtremeFailed(out.message));
    } else if Fits(t, out.path.value) {
      ending := Accepted(out.path.value, stem + "_extreme.mp3", false);
    } else {
      ending := Stopped(ExtremeStillTooLarge);
    }
  }

  /** The page up to the creation of the record: gate, save, processing branch, validation. */
  method PrepareUpload(u: UploadedFile, form: Form, s: Settings, t: Tools, render: (real, nat) -> string)
    returns (ending: Ending)
    modifies t.journal
    ensures var p := UploadPlan(u, form, s, t, render);
      ending == p.ending && t.journal.events == old(t.journal.events) + p.calls
  {
    var gate := UploadGate(u, s, t.ffmpegAvailable);
    if gate == RejectTooLarge {
      return Stopped(FileTooLarge);
    } else if gate == RequireFfmpeg {
      return Stopped(FfmpegRequired);
    }
    if !form.processClicked {
      return Stopped(NotSubmitted);
    }
    if t.savedUpload.None? {
      return Stopped(SaveFailed);
    }
    var saved := t.savedUpload.value;
    var needs := gate.needs;
    var extension := Extension(u.name);
    if needs.aacConversion && needs.compression {
      ending := CombinedBranch(u, form, s, t, render, saved, extension);
    } else if needs.aacConversion {
      ending := ConversionBranch(u, form, s, t, render, saved, extension);
    } else if needs.compression {
      ending := CompressionBranch(u, form, s, t, render, saved, extension);
    } else {
      ending := ValidatePlan(t, s, render, saved, u.name, []).ending;
    }
  }

  /**
   * `upload_page` after the file is picked: when the plan accepts a file, a
   * record titled "Session <n>" is inserted with status "uploaded" and that
   * file's size, and `process_session` runs on it; otherwise nothing is
   * stored.
   */
  method UploadPage(db: Database, svc: Services, t: Tools, u: UploadedFile, form: Form, s: Settings,
                    render: (real, nat) -> string, now: DateTime) returns (result: UploadResult)
    requires db.Valid() && svc.journal == db.journal && t.journal == db.journal
    modifies db, db.journal
    ensures db.Valid()
    ensures var plan := UploadPlan(u, form, s, t, render);
      plan.ending.Stopped? ==>
        && result == Refused(plan.ending.why)
        && db.sessions == old(db.sessions) && db.nextId == old(db.nextId)
        && db.journal.events == old(db.journal.events) + plan.calls
    ensures var plan := UploadPlan(u, form, s, t, render);
      plan.ending.Accepted? ==>
        var id := old(db.nextId);
        var path := plan.ending.path;
        var row := NewRow(id, PlaceholderTitle(form.sessionNumber), form.sessionNumber, form.date,
                          path, plan.ending.fileName, t.fileSize(path), now);
        var run := App.ServiceRun(row, t.Stat(path), svc, db.errorWriteSucceeds);
        && result == Processed(id)
        && db.nextId == id + 1 && id in db.sessions
        && db.sessions == old(db.sessions)[id := db.sessions[id]]
        && db.sessions[id].ToDict() == run.final
        && db.journal.events == old(db.journal.events) + plan.calls + [Committed(row)] + run.events
  {
    var ending := PrepareUpload(u, form, s, t, render);
    if ending.Stopped? {
      return Refused(ending.why);
    }
    var id := CreateAndProcess(db, svc, t, ending.path, ending.fileName, form, now);
    result := Processed(id);
  }

  /** Lines 539-556 and 109-166: the record for an accepted file is inserted, then processed. */
  method CreateAndProcess(db: Database, svc: Services, t: Tools, path: string, fileName: string,
                          form: Form, now: DateTime) returns (id: SessionId)
    requires db.Valid() && svc.journal == db.journal
    modifies db, db.journal
    ensures db.Valid()
    ensures id == old(db.nextId) && db.nextId == id + 1 && id in db.sessions
    ensures db.sessions == old(db.sessions)[id := db.sessions[id]]
    ensures var row := NewRow(id, PlaceholderTitle(form.sessionNumber), form.sessionNumber, form.date,
                              path, fileName, t.fileSize(path), now);
      var run := App.ServiceRun(row, t.Stat(path), svc, db.errorWriteSucceeds);
      && db.sessions[id].ToDict() == run.final
      && db.journal.events == old(db.journal.events) + [Committed(row)] + run.events
  {
    var session := db.Insert(PlaceholderTitle(form.sessionNumber), form.sessionNumber, form.date,
                             path, fileName, t.fileSize(path), now);
    id := session.id;
    var sessionId := IdText(id);
    ParseIdInvertsIdText(id);
    assert db.Footprint(sessionId) == {session};
    App.ProcessSession(db, svc, sessionId, t.Stat(path));
  }
}
