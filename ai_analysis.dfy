/**
 * The analysis service (src/services/ai_analysis.py): the transcript length
 * check, the prompt built around the transcript, the schema the model's
 * JSON reply must satisfy (three required texts, four lists that default to
 * empty), the result dictionary and its error messages, and the clean-up of
 * a generated session title.
 *
 * The chat API is not called here: its reply is a parameter, already decoded
 * from JSON text (or marked as not decodable).
 */
module AIAnalysis {

  import opened Wrappers
  import opened Text
  import opened Client

  // ---------------------------------------------------------------- transcript length

  /** Transcripts shorter than this, once stripped, are not worth analysing. */
  const MinTranscriptLength: nat := 100

  /** `validate_transcript_length`: no transcript, or under 100 characters once stripped, is refused. */
  function ValidateTranscriptLength(transcript: Option<string>): (ok: bool)
    ensures ok <==> transcript.Some? && |Strip(transcript.value, IsSpace)| >= MinTranscriptLength
    ensures ok ==> |transcript.value| >= MinTranscriptLength
  {
    transcript.Some? && |Strip(transcript.value, IsSpace)| >= MinTranscriptLength
  }

  /** A transcript of exactly 100 characters passes when neither end is white space. */
  lemma HundredUnpaddedCharactersPass(t: string)
    requires |t| == MinTranscriptLength && !IsSpace(t[0]) && !IsSpace(t[|t| - 1])
    ensures ValidateTranscriptLength(Some(t))
  {
    StripKeepsUnpaddedText(t, IsSpace);
  }

  /** Padding does not count: a transcript made only of white space is refused, whatever its length. */
  lemma BlankTranscriptsFail(t: string)
    requires forall i :: 0 <= i < |t| ==> IsSpace(t[i])
    ensures !ValidateTranscriptLength(Some(t))
  {
  }

  // ---------------------------------------------------------------- prompt

  const TranscriptMarker: string := "TRANSCRIPTION:\n"

  const PromptHead: string :=
    "\nAnalyse cette transcription d'une session de jeu de rôle et extrais les informations suivantes :\n\n"
    + TranscriptMarker

  const PromptTail: string :=
    "\n\nFournis une analyse structurée au format JSON avec les champs suivants :\n\n"
    + "1. \"narrative_summary\": Un résumé narratif de 2-5 paragraphes décrivant ce qui s'est passé pendant la session, écrit comme une histoire engageante.\n\n"
    + "2. \"tldr_summary\": Un résumé très court (1-2 phrases) type \"TL;DR\" qui peut être lu au début de la prochaine session pour rappeler où on en était.\n\n"
    + "3. \"npcs\": Une liste des PNJ (Personnages Non-Joueurs) rencontrés ou mentionnés pendant la session.\n\n"
    + "4. \"items\": Une liste des objets trouvés, achetés, utilisés ou mentionnés pendant la session.\n\n"
    + "5. \"locations\": Une liste des lieux visités ou mentionnés pendant la session.\n\n"
    + "6. \"key_events\": Une liste des événements clés qui se sont produits (combats, découvertes importantes, décisions majeures, etc.).\n\n"
    + "7. \"session_title\": Un titre accrocheur pour cette session qui capture l'essence de ce qui s'est passé.\n\n"
    + "Réponds uniquement avec du JSON valide, sans texte supplémentaire.\n"

  const AnalysisSystemMessage: string :=
    "Tu es un assistant spécialisé dans l'analyse de sessions de jeu de rôle. Tu extrais des informations structurées des transcriptions de sessions."

  /** `_create_analysis_prompt`: the transcript, verbatim, between the fixed instructions. */
  function AnalysisPrompt(transcript: string): (prompt: string)
    ensures |prompt| == |PromptHead| + |transcript| + |PromptTail|
    ensures StartsWith(prompt, PromptHead)
    ensures prompt[|PromptHead|..|PromptHead| + |transcript|] == transcript
    ensures EndsWith(prompt, PromptTail)
  {
    var prompt := PromptHead + transcript + PromptTail;
    assert prompt[..|PromptHead|] == PromptHead;
    assert prompt[|PromptHead|..|PromptHead| + |transcript|] == transcript;
    assert prompt[|prompt| - |PromptTail|..] == PromptTail;
    prompt
  }

  /** The transcript can be read back from the prompt, so two transcripts never share a prompt. */
  lemma PromptDeterminesTranscript(t1: string, t2: string)
    requires AnalysisPrompt(t1) == AnalysisPrompt(t2)
    ensures t1 == t2
  {
    var p := AnalysisPrompt(t1);
    assert |t1| == |p| - |PromptHead| - |PromptTail| == |t2|;
  }

  /** The transcript sits right after the line "TRANSCRIPTION:". */
  lemma TranscriptFollowsItsLabel(transcript: string)
    ensures EndsWith(AnalysisPrompt(transcript)[..|PromptHead|], TranscriptMarker)
    ensures Contains(AnalysisPrompt(transcript), transcript)
  {
    var p := AnalysisPrompt(transcript);
    assert p[..|PromptHead|] == PromptHead;
    assert PromptHead[|PromptHead| - |TranscriptMarker|..] == TranscriptMarker;
    assert p[|PromptHead|..][..|transcript|] == transcript;
  }

  // ---------------------------------------------------------------- reply schema

  /** A decoded JSON value. */
  datatype Json =
    | JNull
    | JBool(b: bool)
    | JNumber(n: real)
    | JString(s: string)
    | JArray(items: seq<Json>)
    | JObject(fields: map<string, Json>)

  /** What decoding the reply text gave: a value, or a decode error. */
  datatype Decoded = Malformed | Decoded(json: Json)

  /** Why a decoded reply does not fit `RPGSessionAnalysis`. */
  datatype SchemaError = NotAnObject | MissingField(name: string) | NotAString(name: string) | NotAListOfStrings(name: string)

  /** The validated fields together with the status, as `analyze_transcript` returns them. */
  datatype AnalysisResult = AnalysisResult(
    narrativeSummary: string,
    tldrSummary: string,
    npcs: seq<string>,
    items: seq<string>,
    locations: seq<string>,
    keyEvents: seq<string>,
    sessionTitle: string,
    status: string)

  /** A required text field: present and a string. */
  function RequiredText(fields: map<string, Json>, name: string): (r: Result<string, SchemaError>)
    ensures r.Success? <==> name in fields && fields[name].JString?
    ensures r.Success? ==> r.value == fields[name].s
  {
    if name !in fields then Failure(MissingField(name))
    else if !fields[name].JString? then Failure(NotAString(name))
    else Success(fields[name].s)
  }

  predicate AllStrings(items: seq<Json>) {
    forall i :: 0 <= i < |items| ==> items[i].JString?
  }

  function Texts(items: seq<Json>): (r: seq<string>)
    requires AllStrings(items)
    ensures |r| == |items| && forall i :: 0 <= i < |items| ==> r[i] == items[i].s
  {
    seq(|items|, i requires 0 <= i < |items| => items[i].s)
  }

  /** A list field: absent means the empty list, present must be a list of strings. */
  function TextList(fields: map<string, Json>, name: string): (r: Result<seq<string>, SchemaError>)
    ensures name !in fields ==> r == Success([])
    ensures name in fields ==>
      (r.Success? <==> fields[name].JArray? && AllStrings(fields[name].items))
  {
    if name !in fields then Success([])
    else if fields[name].JArray? && AllStrings(fields[name].items) then Success(Texts(fields[name].items))
    else Failure(NotAListOfStrings(name))
  }

  /** The keys the schema reads, in declaration order. */
  const SchemaKeys: seq<string> :=
    ["narrative_summary", "tldr_summary", "npcs", "items", "locations", "key_events", "session_title"]

  /** Building `RPGSessionAnalysis(**data)`: the first field that does not fit, or the seven fields. */
  function ValidateAnalysis(data: Json): (r: Result<AnalysisResult, SchemaError>)
    ensures r.Success? ==> data.JObject? && r.value.status == "completed"
    ensures r.Success? ==>
      && RequiredText(data.fields, "narrative_summary") == Success(r.value.narrativeSummary)
      && RequiredText(data.fields, "tldr_summary") == Success(r.value.tldrSummary)
      && RequiredText(data.fields, "session_title") == Success(r.value.sessionTitle)
      && TextList(data.fields, "npcs") == Success(r.value.npcs)
      && TextList(data.fields, "items") == Success(r.value.items)
      && TextList(data.fields, "locations") == Success(r.value.locations)
      && TextList(data.fields, "key_events") == Success(r.value.keyEvents)
    ensures r.Success? <==>
      && data.JObject?
      && RequiredText(data.fields, "narrative_summary").Success?
      && RequiredText(data.fields, "tldr_summary").Success?
      && RequiredText(data.fields, "session_title").Success?
      && TextList(data.fields, "npcs").Success?
      && TextList(data.fields, "items").Success?
      && TextList(data.fields, "locations").Success?
      && TextList(data.fields, "key_events").Success?
    ensures !data.JObject? ==> r == Failure(NotAnObject)
    ensures data.JObject? && RequiredText(data.fields, "narrative_summary").Failure? ==>
      r == Failure(RequiredText(data.fields, "narrative_summary").error)
  {
    if !data.JObject? then Failure(NotAnObject)
    else
      var f := data.fields;
      var narrative := RequiredText(f, "narrative_summary");
      var tldr := RequiredText(f, "tldr_summary");
      var npcs := TextList(f, "npcs");
      var items := TextList(f, "items");
      var locations := TextList(f, "locations");
      var events := TextList(f, "key_events");
      var title := RequiredText(f, "session_title");
      if narrative.Failure? then Failure(narrative.error)
      else if tldr.Failure? then Failure(tldr.error)
      else if npcs.Failure? then Failure(npcs.error)
      else if items.Failure? then Failure(items.error)
      else if locations.Failure? then Failure(locations.error)
      else if events.Failure? then Failure(events.error)
      else if title.Failure? then Failure(title.error)
      else Success(AnalysisResult(
        narrative.value, tldr.value, npcs.value, items.value, locations.value, events.value,
        title.value, "completed"))
  }

  /** A result written out as the JSON object the prompt asks for. */
  function ToJson(a: AnalysisResult): Json {
    JObject(map[
      "narrative_summary" := JString(a.narrativeSummary),
      "tldr_summary" := JString(a.tldrSummary),
      "npcs" := JArray(JStrings(a.npcs)),
      "items" := JArray(JStrings(a.items)),
      "locations" := JArray(JStrings(a.locations)),
      "key_events" := JArray(JStrings(a.keyEvents)),
      "session_title" := JString(a.sessionTitle)])
  }

  /** A list of strings as a JSON array's items. */
  function JStrings(xs: seq<string>): seq<Json> {
    seq(|xs|, i requires 0 <= i < |xs| => JString(xs[i]))
  }

  /** A list of strings survives the trip into JSON and back. */
  lemma TextsOfStrings(xs: seq<string>)
    ensures AllStrings(JStrings(xs)) && Texts(JStrings(xs)) == xs
  {
  }

  /** Validating the JSON form of a completed result gives that result back. */
  lemma ValidateInvertsToJson(a: AnalysisResult)
    requires a.status == "completed"
    ensures ValidateAnalysis(ToJson(a)) == Success(a)
  {
    var f := ToJson(a).fields;
    assert f["narrative_summary"] == JString(a.narrativeSummary);
    assert f["tldr_summary"] == JString(a.tldrSummary);
    assert f["session_title"] == JString(a.sessionTitle);
    assert f["npcs"] == JArray(JStrings(a.npcs));
    assert f["items"] == JArray(JStrings(a.items));
    assert f["locations"] == JArray(JStrings(a.locations));
    assert f["key_events"] == JArray(JStrings(a.keyEvents));
    TextsOfStrings(a.npcs);
    TextsOfStrings(a.items);
    TextsOfStrings(a.locations);
    TextsOfStrings(a.keyEvents);
    assert TextList(f, "npcs") == Success(a.npcs);
    assert TextList(f, "items") == Success(a.items);
    assert TextList(f, "locations") == Success(a.locations);
    assert TextList(f, "key_events") == Success(a.keyEvents);
    assert RequiredText(f, "narrative_summary") == Success(a.narrativeSummary);
    assert RequiredText(f, "tldr_summary") == Success(a.tldrSummary);
    assert RequiredText(f, "session_title") == Success(a.sessionTitle);
  }

  /** Lists the reply leaves out are empty in the result. */
  lemma AbsentListsDefaultToEmpty(narrative: string, tldr: string, title: string)
    ensures var data := JObject(map[
        "narrative_summary" := JString(narrative),
        "tldr_summary" := JString(tldr),
        "session_title" := JString(title)]);
      ValidateAnalysis(data) == Success(AnalysisResult(narrative, tldr, [], [], [], [], title, "completed"))
  {
  }

  /** Keys outside the schema are ignored. */
  lemma ExtraKeysAreIgnored(fields: map<string, Json>, key: string, value: Json)
    requires key !in SchemaKeys
    ensures ValidateAnalysis(JObject(fields[key := value])) == ValidateAnalysis(JObject(fields))
  {
    var g := fields[key := value];
    forall name | name in SchemaKeys
      ensures (name in g <==> name in fields) && (name in fields ==> g[name] == fields[name])
    {
    }
  }

  // ---------------------------------------------------------------- analyze_transcript

  const AnalysisFailed: string := "AI analysis failed: "

  function SchemaErrorText(e: SchemaError): string {
    match e
    case NotAnObject => "argument after ** must be a mapping"
    case MissingField(name) => name + ": field required"
    case NotAString(name) => name + ": input should be a valid string"
    case NotAListOfStrings(name) => name + ": input should be a valid list of strings"
  }

  /**
   * `analyze_transcript`, given the chat reply: the validated fields plus
   * "completed", or an error message that starts with "AI analysis failed".
   */
  function AnalyzeTranscript(reply: Result<Decoded, ClientError>): (r: Result<AnalysisResult, string>)
    ensures r.Success? <==> reply.Success? && reply.value.Decoded? && ValidateAnalysis(reply.value.json).Success?
    ensures r.Success? ==> r.value == ValidateAnalysis(reply.value.json).value && r.value.status == "completed"
    ensures reply == Success(Malformed) ==> r == Failure(AnalysisFailed + "Invalid JSON response")
    ensures r.Failure? ==> StartsWith(r.error, AnalysisFailed)
  {
    var prefix := AnalysisFailed;
    match reply
    case Failure(e) => Failure(Prefixed(prefix, e.detail))
    case Success(Malformed) => Failure(Prefixed(prefix, "Invalid JSON response"))
    case Success(Decoded(data)) =>
      match ValidateAnalysis(data)
      case Success(a) => Success(a)
      case Failure(e) => Failure(Prefixed(prefix, SchemaErrorText(e)))
  }

  function Prefixed(prefix: string, text: string): (r: string)
    ensures StartsWith(r, prefix)
  {
    var r := prefix + text;
    assert r[..|prefix|] == prefix;
    r
  }

  /** A reply missing a required text fails, whatever else it holds. */
  lemma MissingRequiredFieldFails(fields: map<string, Json>, name: string)
    requires name in ["narrative_summary", "tldr_summary", "session_title"]
    requires name !in fields
    ensures AnalyzeTranscript(Success(Decoded(JObject(fields)))).Failure?
  {
  }

  // ---------------------------------------------------------------- session title

  const TitleSystemMessage: string :=
    "Tu génères des titres accrocheurs pour des sessions de jeu de rôle basés sur leur contenu."

  const TitleRequestHead: string := "Génère un titre court et accrocheur pour cette session de JDR :\n\n"

  /** The user message of `generate_session_title`: at most the first 1000 characters of the transcript. */
  function TitleRequest(transcript: string): (request: string)
    ensures |TitleRequestHead| + 3 <= |request| <= |TitleRequestHead| + 1000 + 3
    ensures request[..|TitleRequestHead|] == TitleRequestHead && request[|request| - 3..] == "..."
    ensures var body := request[|TitleRequestHead|..|request| - 3];
      && |body| == (if |transcript| < 1000 then |transcript| else 1000)
      && body == transcript[..|body|]
  {
    var n := if |transcript| < 1000 then |transcript| else 1000;
    var request := TitleRequestHead + transcript[..n] + "...";
    assert request[|TitleRequestHead|..|request| - 3] == transcript[..n];
    request
  }

  const UntitledSession: string := "Session sans titre"

  /**
   * `generate_session_title`, given the chat reply's content (None when the
   * reply has none): white space stripped, then double quotes; any failure
   * gives "Session sans titre".
   */
  function GenerateSessionTitle(reply: Result<Option<string>, ClientError>): (title: string)
    ensures reply.Failure? || reply.value.None? ==> title == UntitledSession
    ensures reply.Success? && reply.value.Some? ==>
      title == Strip(Strip(reply.value.value, IsSpace), IsQuote)
  {
    match reply
    case Success(Some(content)) => Strip(Strip(content, IsSpace), IsQuote)
    case _ => UntitledSession
  }

  /** A generated title neither starts nor ends with a double quote. */
  lemma TitleHasNoEndQuotes(reply: Result<Option<string>, ClientError>)
    ensures var title := GenerateSessionTitle(reply);
      title != [] ==> title[0] != '"' && title[|title| - 1] != '"'
  {
    var title := GenerateSessionTitle(reply);
    if reply.Failure? || reply.value.None? {
      assert title[0] == 'S' && title[|title| - 1] == 'e';
    }
  }

  /** A reply holding a title in double quotes gives the bare title. */
  lemma QuotedTitleIsUnwrapped(t: string)
    requires t != [] && !IsQuote(t[0]) && !IsQuote(t[|t| - 1])
    ensures GenerateSessionTitle(Success(Some("\"" + t + "\""))) == t
  {
    var quoted := "\"" + t + "\"";
    StripKeepsUnpaddedText(quoted, IsSpace);
    OpeningQuoteIsStripped(t);
    ClosingQuoteIsStripped(t);
    assert Strip(quoted, IsQuote) == RStrip(LStrip(quoted, IsQuote), IsQuote);
  }

  lemma OpeningQuoteIsStripped(t: string)
    requires t != [] && !IsQuote(t[0])
    ensures LStrip("\"" + t + "\"", IsQuote) == t + "\""
  {
    assert ("\"" + t + "\"")[1..] == t + "\"";
  }

  lemma ClosingQuoteIsStripped(t: string)
    requires t != [] && !IsQuote(t[|t| - 1])
    ensures RStrip(t + "\"", IsQuote) == t
  {
    assert (t + "\"")[..|t|] == t;
  }
}
