/**
 * The transcription service (src/services/transcription.py): the checks an
 * audio file must pass before upload, the rough processing-time estimate,
 * the request timeout, and how a reply of the speech-to-text API, or its
 * failure, becomes the service's result or error message.
 *
 * The file system is a snapshot (`AudioFile`), the API reply is a parameter
 * and float formatting is a caller-supplied `render(value, decimals)`.
 */
module Transcription {

  import opened Wrappers
  import opened Text
  import opened Config
  import opened Client

  /** What the service can learn about a path: whether it exists and its size in bytes. */
  datatype AudioFile = AudioFile(path: string, present: bool, sizeBytes: nat)

  /** The largest upload the speech-to-text API takes, in megabytes. */
  const WhisperLimitMb: real := 25.0

  // ---------------------------------------------------------------- validation

  /** The reasons `validate_audio_file` gives for refusing a file, in the order it checks them. */
  datatype Rejection = Missing | UnsupportedFormat(extension: string) | TooLarge | Empty | OverWhisperLimit

  /** The first check a file fails, or None when it passes them all. */
  function CheckAudioFile(f: AudioFile, s: Settings): (r: Option<Rejection>)
    ensures r == None <==> Acceptable(f, s)
    ensures r == Some(Missing) <==> !f.present
    ensures r.Some? && r.value.UnsupportedFormat? <==> f.present && Extension(f.path) !in s.supportedAudioFormats
    ensures r.Some? && r.value.UnsupportedFormat? ==> r.value.extension == Extension(f.path)
    ensures r == Some(TooLarge) <==>
              f.present && Extension(f.path) in s.supportedAudioFormats && f.sizeBytes > MaxFileSizeBytes(s)
    ensures r == Some(Empty) <==>
              && f.present && Extension(f.path) in s.supportedAudioFormats
              && f.sizeBytes <= MaxFileSizeBytes(s) && f.sizeBytes == 0
    ensures r == Some(OverWhisperLimit) <==>
              && f.present && Extension(f.path) in s.supportedAudioFormats
              && 0 < f.sizeBytes <= MaxFileSizeBytes(s) && f.sizeBytes > 25 * MiB
  {
    WhisperLimitInBytes(f.sizeBytes);
    if !f.present then Some(Missing)
    else if Extension(f.path) !in s.supportedAudioFormats then Some(UnsupportedFormat(Extension(f.path)))
    else if f.sizeBytes > MaxFileSizeBytes(s) then Some(TooLarge)
    else if f.sizeBytes == 0 then Some(Empty)
    else if SizeMb(f.sizeBytes) > WhisperLimitMb then Some(OverWhisperLimit)
    else None
  }

  /** An independent statement of what is accepted: present, listed format, non-empty, within both limits. */
  predicate Acceptable(f: AudioFile, s: Settings) {
    && f.present
    && Extension(f.path) in s.supportedAudioFormats
    && 0 < f.sizeBytes
    && f.sizeBytes <= MaxFileSizeBytes(s)
    && f.sizeBytes <= 25 * MiB
  }

  /** The megabyte test against the 25 MB limit is the byte test against 25 * 1024 * 1024. */
  lemma WhisperLimitInBytes(bytes: nat)
    ensures SizeMb(bytes) > WhisperLimitMb <==> bytes > 25 * MiB
  {
  }

  /** A present file within the configured size is never refused as too large, whatever its name. */
  lemma WithinConfiguredLimit(path: string, s: Settings, sizeBytes: nat)
    requires sizeBytes <= MaxFileSizeBytes(s)
    ensures CheckAudioFile(AudioFile(path, true, sizeBytes), s) != Some(TooLarge)
  {
  }

  /**
   * The message that goes with each rejection: each reason has its own
   * opening words, and the two that concern the file itself end with its path.
   */
  function RejectionMessage(f: AudioFile, s: Settings, why: Rejection, render: (real, nat) -> string): (m: string)
    ensures why.Missing? ==> StartsWith(m, "Audio file does not exist: ") && EndsWith(m, f.path)
    ensures why.UnsupportedFormat? ==> StartsWith(m, "Unsupported audio format: " + why.extension + ". Supported: ")
    ensures why.TooLarge? ==> StartsWith(m, "File too large: ")
    ensures why.Empty? ==> StartsWith(m, "File is empty: ") && EndsWith(m, f.path)
    ensures why.OverWhisperLimit? ==> StartsWith(m, "⚠️ File is ")
  {
    match why
    case Missing => "Audio file does not exist: " + f.path
    case UnsupportedFormat(ext) =>
      "Unsupported audio format: " + ext + ". Supported: " + Join(s.supportedAudioFormats, ", ")
    case TooLarge =>
      "File too large: " + render(SizeMb(f.sizeBytes), 2) + " MB. Maximum allowed: "
        + IntToString(s.maxFileSizeMb) + " MB"
    case Empty => "File is empty: " + f.path
    case OverWhisperLimit =>
      "⚠️ File is " + render(SizeMb(f.sizeBytes), 2)
        + " MB. OpenAI Whisper API has a 25MB limit. You may need to compress the file."
  }

  /**
   * `validate_audio_file`: (True, "File is valid") exactly for an acceptable
   * file, otherwise False with the message of the first failed check.
   */
  function ValidateAudioFile(f: AudioFile, s: Settings, render: (real, nat) -> string): (r: (bool, string))
    ensures r.0 <==> Acceptable(f, s)
    ensures r.0 ==> r.1 == "File is valid"
    ensures !r.0 ==> r.1 == RejectionMessage(f, s, CheckAudioFile(f, s).value, render)
  {
    WhisperLimitInBytes(f.sizeBytes);
    match CheckAudioFile(f, s)
    case None => (true, "File is valid")
    case Some(why) => (false, RejectionMessage(f, s, why, render))
  }

  /** A missing file is reported as missing, whatever its name or recorded size. */
  lemma MissingFileIsReportedFirst(f: AudioFile, s: Settings, render: (real, nat) -> string)
    requires !f.present
    ensures ValidateAudioFile(f, s, render) == (false, "Audio file does not exist: " + f.path)
  {
  }

  /** Under the default settings the 25 MB API limit, not the 500 MB setting, decides: 25 MiB passes, one byte more does not. */
  lemma WhisperBoundary(path: string, key: string, render: (real, nat) -> string)
    requires Extension(path) in SupportedAudioFormats
    ensures ValidateAudioFile(AudioFile(path, true, 26214400), Defaults(key), render).0
    ensures CheckAudioFile(AudioFile(path, true, 26214401), Defaults(key)) == Some(OverWhisperLimit)
  {
    WhisperLimitInBytes(26214400);
    WhisperLimitInBytes(26214401);
  }

  /** The extension is the lower-cased suffix without its dot: "x.MP3" has extension "mp3". */
  lemma UpperCaseExtensionIsFolded()
    ensures Extension("x.MP3") == "mp3"
  {
    assert "x.MP3"[..4] == "x.MP" && "x.MP"[..3] == "x.M" && "x.M"[..2] == "x.";
    assert ExtensionScan("x.MP3", "") == ExtensionScan("x.MP", "3");
    assert ExtensionScan("x.MP", "3") == ExtensionScan("x.M", "P3");
    assert ExtensionScan("x.M", "P3") == ExtensionScan("x.", "MP3");
    assert Lower("MP3") == "mp3";
  }

  // ---------------------------------------------------------------- estimates

  /** The four processing-time bands, by file size in megabytes. */
  function ProcessingBand(fileSizeMb: real): (band: nat)
    ensures band <= 3
  {
    if fileSizeMb < 10.0 then 0
    else if fileSizeMb < 25.0 then 1
    else if fileSizeMb < 50.0 then 2
    else 3
  }

  const ProcessingTimes: seq<string> := ["1-2 minutes", "2-5 minutes", "5-10 minutes", "10+ minutes"]

  /** `estimate_processing_time`: the label of the size's band. */
  function EstimateProcessingTime(fileSizeMb: real): (r: string)
    ensures r == ProcessingTimes[ProcessingBand(fileSizeMb)]
  {
    if fileSizeMb < 10.0 then "1-2 minutes"
    else if fileSizeMb < 25.0 then "2-5 minutes"
    else if fileSizeMb < 50.0 then "5-10 minutes"
    else "10+ minutes"
  }

  /** A larger file never gets a shorter estimate. */
  lemma EstimateIsMonotone(s1: real, s2: real)
    requires s1 <= s2
    ensures ProcessingBand(s1) <= ProcessingBand(s2)
  {
  }

  /** A file the validator accepts is estimated at 10 minutes at most: exactly 25 MB falls in the 5-10 band. */
  lemma AcceptedFilesAreQuick(f: AudioFile, s: Settings)
    requires Acceptable(f, s)
    ensures ProcessingBand(SizeMb(f.sizeBytes)) <= 2
    ensures f.sizeBytes == 25 * MiB ==> EstimateProcessingTime(SizeMb(f.sizeBytes)) == "5-10 minutes"
  {
    WhisperLimitInBytes(f.sizeBytes);
  }

  /** The API timeout in seconds: ten minutes above 100 MB, five otherwise. */
  function RequestTimeout(fileSizeMb: real): (seconds: int)
    ensures seconds == 600 || seconds == 300
    ensures seconds == 600 <==> fileSizeMb > 100.0
  {
    if fileSizeMb > 100.0 then 600 else 300
  }

  /** The timeout never shrinks as the file grows. */
  lemma TimeoutIsMonotone(s1: real, s2: real)
    requires s1 <= s2
    ensures RequestTimeout(s1) <= RequestTimeout(s2)
  {
  }

  // ---------------------------------------------------------------- transcription

  /** One timed piece of the transcript. */
  datatype Segment = Segment(start: real, end: real, text: string)

  /** The verbose reply of the API; an attribute the reply lacks is None. */
  datatype WhisperResponse = WhisperResponse(
    text: string,
    language: Option<string>,
    duration: Option<real>,
    segments: Option<seq<Segment>>)

  /** The dictionary `transcribe_audio` returns. */
  datatype TranscriptionResult = TranscriptionResult(
    transcript: string,
    language: string,
    duration: Option<real>,
    segments: seq<Segment>,
    fileSizeMb: real,
    status: string)

  const TimeoutMessage: string :=
    "Transcription" + " timed out. Large files may take longer. Please try again or split the file into smaller segments."
  const FileTooLargeMessage: string :=
    "File too large for Whisper API. Maximum size is 25MB. Please compress or split your file."

  /** Whether an API error's text names the size limit. */
  predicate MentionsSizeLimit(detail: string) {
    Contains(Lower(detail), "file size") || Contains(Lower(detail), "too large")
  }

  /** The message the service raises for a failed call. */
  function FailureMessage(e: ClientError): (m: string)
    ensures e.ApiTimeout? ==> m == TimeoutMessage
    ensures e.ApiFailure? && MentionsSizeLimit(e.detail) ==> m == FileTooLargeMessage
    ensures e.Unexpected? || (e.ApiFailure? && !MentionsSizeLimit(e.detail)) ==>
      m == "Transcription failed: " + e.detail
  {
    match e
    case ApiTimeout(_) => TimeoutMessage
    case ApiFailure(detail) =>
      if MentionsSizeLimit(detail) then FileTooLargeMessage else "Transcription failed: " + detail
    case Unexpected(detail) => "Transcription failed: " + detail
  }

  /** The error text of opening a path that is not there. */
  function MissingFileError(path: string): string {
    "[Errno 2] No such file or directory: '" + path + "'"
  }

  /**
   * `transcribe_audio`, given the API's reply for the file: a missing file
   * fails before any request, a reply becomes the result dictionary with its
   * defaults, and a failure becomes the corresponding message.
   */
  function TranscribeAudio(f: AudioFile, reply: Result<WhisperResponse, ClientError>): (r: Result<TranscriptionResult, string>)
    ensures !f.present ==> r == Failure(FailureMessage(Unexpected(MissingFileError(f.path))))
    ensures f.present ==> (r.Success? <==> reply.Success?)
    ensures f.present && reply.Failure? ==> r.error == FailureMessage(reply.error)
    ensures r.Success? ==>
      && r.value.transcript == reply.value.text
      && r.value.status == "completed"
      && r.value.fileSizeMb == SizeMb(f.sizeBytes)
      && r.value.duration == reply.value.duration
      && r.value.language == (if reply.value.language.Some? then reply.value.language.value else "unknown")
      && r.value.segments == (if reply.value.segments.Some? then reply.value.segments.value else [])
  {
    if !f.present then Failure(FailureMessage(Unexpected(MissingFileError(f.path))))
    else
      match reply
      case Failure(e) => Failure(FailureMessage(e))
      case Success(response) =>
        Success(TranscriptionResult(
          transcript := response.text,
          language := if response.language.Some? then response.language.value else "unknown",
          duration := response.duration,
          segments := if response.segments.Some? then response.segments.value else [],
          fileSizeMb := SizeMb(f.sizeBytes),
          status := "completed"))
  }

  /** Attributes the reply lacks take the defaults "unknown", no duration and no segments. */
  lemma MissingAttributesTakeDefaults(f: AudioFile, text: string)
    requires f.present
    ensures var r := TranscribeAudio(f, Success(WhisperResponse(text, None, None, None)));
      r.Success? && r.value.language == "unknown" && r.value.duration == None && r.value.segments == []
  {
  }

  /** Every failure message either starts with "Transcription" or is the size-limit advice. */
  lemma FailureMessagesAreRecognisable(f: AudioFile, reply: Result<WhisperResponse, ClientError>)
    ensures var r := TranscribeAudio(f, reply);
      r.Failure? ==> StartsWith(r.error, "Transcription") || r.error == FileTooLargeMessage
  {
    var prefix := "Transcription";
    var failed := "Transcription failed: ";
    assert failed == prefix + " failed: ";
    forall detail: string ensures StartsWith(failed + detail, prefix) {
      assert (failed + detail)[..|prefix|] == prefix;
    }
  }

  /** An API error saying "TOO LARGE" in capitals is still reported as the size-limit advice. */
  lemma SizeErrorsAreRecognisedInAnyCase()
    ensures FailureMessage(ApiFailure("TOO LARGE")) == FileTooLargeMessage
  {
    LowerTooLarge();
    assert StartsWith("too large", "too large");
    assert MentionsSizeLimit("TOO LARGE");
  }

  lemma LowerTooLarge()
    ensures Lower("TOO LARGE") == "too large"
  {
    var r := Lower("TOO LARGE");
    forall i | 0 <= i < |r| ensures r[i] == "too large"[i] {
      assert r[i] == LowerChar("TOO LARGE"[i]);
    }
  }
}
