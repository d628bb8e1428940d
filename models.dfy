/**
 * The session record (src/database/models.py): its processing-status
 * vocabulary, the record as an object whose fields the application updates
 * in place, and `to_dict`, which renders the record as a dictionary with
 * missing lists shown as empty and missing timestamps as None.
 *
 * Identifiers are issued by a counter in this model; the text form of an
 * identifier is its decimal rendering.
 */
module Models {

  import opened Wrappers
  import opened Text

  // ---------------------------------------------------------------- status

  /** The values `processing_status` takes. */
  datatype Status = Uploaded | Transcribing | Analyzing | Completed | Error

  const StatusNames: seq<string> := ["uploaded", "transcribing", "analyzing", "completed", "error"]

  function StatusName(s: Status): (name: string)
    ensures name in StatusNames
  {
    match s
    case Uploaded => "uploaded"
    case Transcribing => "transcribing"
    case Analyzing => "analyzing"
    case Completed => "completed"
    case Error => "error"
  }

  /** The status a stored name stands for, if it is one of the five. */
  function ParseStatus(name: string): (r: Option<Status>)
    ensures r.Some? <==> name in StatusNames
  {
    if name == "uploaded" then Some(Uploaded)
    else if name == "transcribing" then Some(Transcribing)
    else if name == "analyzing" then Some(Analyzing)
    else if name == "completed" then Some(Completed)
    else if name == "error" then Some(Error)
    else None
  }

  /** Every status is stored under its own name and read back as itself. */
  lemma StatusNamesRoundTrip(s: Status)
    ensures ParseStatus(StatusName(s)) == Some(s)
  {
  }

  /** Reading a stored name and writing it back gives the same name. */
  lemma StatusParseRoundTrip(name: string)
    requires ParseStatus(name).Some?
    ensures StatusName(ParseStatus(name).value) == name
  {
  }

  // ---------------------------------------------------------------- identifiers

  type SessionId = nat

  /** `str(session.id)`. */
  function IdText(id: SessionId): (r: string)
    ensures r != [] && forall i :: 0 <= i < |r| ==> IsDigit(r[i])
  {
    NatToString(id)
  }

  /** `uuid.UUID(text)`: the identifier a text names, or None when it is not one. */
  function ParseId(text: string): (r: Option<SessionId>)
    ensures r.Some? <==> text != [] && forall i :: 0 <= i < |text| ==> IsDigit(text[i])
  {
    if text != [] && forall i :: 0 <= i < |text| ==> IsDigit(text[i]) then Some(DigitsValue(text)) else None
  }

  /** The text form of an identifier names that identifier again. */
  lemma ParseIdInvertsIdText(id: SessionId)
    ensures ParseId(IdText(id)) == Some(id)
  {
    DigitsValueOfNatToString(id);
  }

  /** Two identifiers with the same text form are the same. */
  lemma IdTextInjective(a: SessionId, b: SessionId)
    requires IdText(a) == IdText(b)
    ensures a == b
  {
    ParseIdInvertsIdText(a);
    ParseIdInvertsIdText(b);
  }

  // ---------------------------------------------------------------- record

  /** A point in time, kept as its ISO 8601 rendering. */
  datatype DateTime = DateTime(iso: string)

  /** `to_dict()`; timestamps are their ISO text. */
  datatype SessionDict = SessionDict(
    id: string,
    title: string,
    sessionNumber: int,
    date: Option<string>,
    audioFilePath: string,
    audioFileName: string,
    audioFileSize: Option<int>,
    transcript: Option<string>,
    narrativeSummary: Option<string>,
    tldrSummary: Option<string>,
    npcs: seq<string>,
    items: seq<string>,
    locations: seq<string>,
    keyEvents: seq<string>,
    comments: Option<string>,
    processingStatus: string,
    createdAt: Option<string>,
    updatedAt: Option<string>)

  /** `value or []`: a missing list, like an empty one, shows as the empty list. */
  function OrEmpty(value: Option<seq<string>>): (r: seq<string>)
    ensures value.Some? ==> r == value.value
    ensures value.None? ==> r == []
  {
    if value.Some? then value.value else []
  }

  /** `dt.isoformat() if dt else None`. */
  function IsoOrNone(value: Option<DateTime>): (r: Option<string>)
    ensures r.Some? <==> value.Some?
    ensures value.Some? ==> r.value == value.value.iso
  {
    if value.Some? then Some(value.value.iso) else None
  }

  /** A row of the `sessions` table, updated in place as processing goes on. */
  class Session {
    const id: SessionId
    var title: string
    var sessionNumber: int
    var date: Option<DateTime>
    var audioFilePath: string
    var audioFileName: string
    var audioFileSize: Option<int>
    var transcript: Option<string>
    var narrativeSummary: Option<string>
    var tldrSummary: Option<string>
    var npcs: Option<seq<string>>
    var items: Option<seq<string>>
    var locations: Option<seq<string>>
    var keyEvents: Option<seq<string>>
    var comments: Option<string>
    var processingStatus: Status
    var createdAt: Option<DateTime>
    var updatedAt: Option<DateTime>

    /**
     * A new row as inserted: the given metadata, status "uploaded", empty
     * lists, nothing transcribed or analysed, both timestamps `now`.
     */
    constructor(id: SessionId, title: string, sessionNumber: int, date: DateTime,
                audioFilePath: string, audioFileName: string, audioFileSize: int, now: DateTime)
      ensures this.id == id && this.title == title && this.sessionNumber == sessionNumber
      ensures this.date == Some(date)
      ensures this.audioFilePath == audioFilePath && this.audioFileName == audioFileName
      ensures this.audioFileSize == Some(audioFileSize)
      ensures transcript == None && narrativeSummary == None && tldrSummary == None && comments == None
      ensures npcs == Some([]) && items == Some([]) && locations == Some([]) && keyEvents == Some([])
      ensures processingStatus == Uploaded
      ensures createdAt == Some(now) && updatedAt == Some(now)
    {
      this.id := id;
      this.title := title;
      this.sessionNumber := sessionNumber;
      this.date := Some(date);
      this.audioFilePath := audioFilePath;
      this.audioFileName := audioFileName;
      this.audioFileSize := Some(audioFileSize);
      transcript := None;
      narrativeSummary := None;
      tldrSummary := None;
      npcs := Some([]);
      items := Some([]);
      locations := Some([]);
      keyEvents := Some([]);
      comments := None;
      processingStatus := Uploaded;
      createdAt := Some(now);
      updatedAt := Some(now);
    }

    /**
     * `to_dict`: the identifier as text, the status by name, lists never
     * missing, timestamps as ISO text or None, everything else as stored.
     */
    function ToDict(): (d: SessionDict)
      reads this
      ensures d.id != [] && d.processingStatus in StatusNames
      ensures d.title == title && d.sessionNumber == sessionNumber && d.transcript == transcript
    {
      SessionDict(
        id := IdText(id),
        title := title,
        sessionNumber := sessionNumber,
        date := IsoOrNone(date),
        audioFilePath := audioFilePath,
        audioFileName := audioFileName,
        audioFileSize := audioFileSize,
        transcript := transcript,
        narrativeSummary := narrativeSummary,
        tldrSummary := tldrSummary,
        npcs := OrEmpty(npcs),
        items := OrEmpty(items),
        locations := OrEmpty(locations),
        keyEvents := OrEmpty(keyEvents),
        comments := comments,
        processingStatus := StatusName(processingStatus),
        createdAt := IsoOrNone(createdAt),
        updatedAt := IsoOrNone(updatedAt))
    }
  }

  /**
   * The dictionary names the record: its identifier and its status read
   * back from their text as the record's own.
   */
  lemma ToDictIdentifiesRecord(s: Session)
    ensures ParseId(s.ToDict().id) == Some(s.id)
    ensures ParseStatus(s.ToDict().processingStatus) == Some(s.processingStatus)
  {
    ParseIdInvertsIdText(s.id);
    StatusNamesRoundTrip(s.processingStatus);
  }

  /** The remaining scalar columns are copied into the dictionary as stored. */
  lemma ToDictCopiesFields(s: Session)
    ensures s.ToDict().audioFilePath == s.audioFilePath && s.ToDict().audioFileName == s.audioFileName
    ensures s.ToDict().audioFileSize == s.audioFileSize
    ensures s.ToDict().narrativeSummary == s.narrativeSummary && s.ToDict().tldrSummary == s.tldrSummary
    ensures s.ToDict().comments == s.comments
  {
  }

  /** The dictionary never shows a missing list: a list that is not stored shows as empty, a stored one as itself. */
  lemma ToDictListsAreNeverMissing(s: Session)
    ensures s.npcs.None? ==> s.ToDict().npcs == []
    ensures s.npcs.Some? ==> s.ToDict().npcs == s.npcs.value
    ensures s.items.None? ==> s.ToDict().items == []
    ensures s.items.Some? ==> s.ToDict().items == s.items.value
    ensures s.locations.None? ==> s.ToDict().locations == []
    ensures s.locations.Some? ==> s.ToDict().locations == s.locations.value
    ensures s.keyEvents.None? ==> s.ToDict().keyEvents == []
    ensures s.keyEvents.Some? ==> s.ToDict().keyEvents == s.keyEvents.value
  {
  }

  /** A date or timestamp shows as its ISO text exactly when it is set, and as None otherwise. */
  lemma ToDictTimestamps(s: Session)
    ensures s.ToDict().date.Some? <==> s.date.Some?
    ensures s.date.Some? ==> s.ToDict().date.value == s.date.value.iso
    ensures s.ToDict().createdAt.Some? <==> s.createdAt.Some?
    ensures s.createdAt.Some? ==> s.ToDict().createdAt.value == s.createdAt.value.iso
    ensures s.ToDict().updatedAt.Some? <==> s.updatedAt.Some?
    ensures s.updatedAt.Some? ==> s.ToDict().updatedAt.value == s.updatedAt.value.iso
  {
  }

  /** Python's `x or []` also turns a stored empty list into the empty list: missing and empty look alike. */
  lemma MissingAndEmptyListsLookAlike()
    ensures OrEmpty(None) == OrEmpty(Some([]))
  {
  }
}
