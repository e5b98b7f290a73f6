/** The blob-trigger ingestion of src/functions/bp_ingestion.py: a blob
    uploaded to the ingestion container is skipped when it is too large or
    not text, and otherwise handed to the embeddings orchestrator as
    `{"projectId", "name", "text"}`. Nothing escapes the handler: every
    exception is logged. The durable client is a parameter describing how
    its `start_new` behaves. */
module Ingestion {
  import opened Wrappers
  import opened Json
  import opened Responses
  import Strings

  const DefaultContainer := "snippet-input"
  const DefaultMaxBlobMb := 2
  const DefaultProjectId := "default-project"
  const BytesPerMb := 1024 * 1024
  const Orchestrator := "embeddings_orchestrator"

  /** The settings read from the environment, each with its default. */
  datatype Settings = Settings(container: string, maxBlobMb: int, projectId: string)

  function SettingsFrom(container: Option<string>, maxBlobMb: Option<int>, projectId: Option<string>): (s: Settings)
    ensures container.None? ==> s.container == DefaultContainer
    ensures maxBlobMb.None? ==> s.maxBlobMb == DefaultMaxBlobMb
    ensures projectId.None? ==> s.projectId == DefaultProjectId
    ensures container.Some? ==> s.container == container.value
    ensures maxBlobMb.Some? ==> s.maxBlobMb == maxBlobMb.value
    ensures projectId.Some? ==> s.projectId == projectId.value
  {
    Settings(if container.Some? then container.value else DefaultContainer,
             if maxBlobMb.Some? then maxBlobMb.value else DefaultMaxBlobMb,
             if projectId.Some? then projectId.value else DefaultProjectId)
  }

  /** The uploaded blob: its length (None when unknown), its content type
      (None when it has none) and its text decoded from UTF-8. */
  datatype Blob = Blob(length: Option<nat>, contentType: Option<string>, text: string)

  /** `blob.length / (1024 * 1024) > MAX_BLOB_MB`, in exact arithmetic. */
  predicate TooLarge(length: nat, maxBlobMb: int) {
    (length as real) / (BytesPerMb as real) > maxBlobMb as real
  }

  /** The size test is the integer comparison "more bytes than the limit in
      mebibytes": a blob of exactly the limit is accepted. */
  lemma TooLargeIsByteComparison(length: nat, maxBlobMb: int)
    ensures TooLarge(length, maxBlobMb) <==> length > maxBlobMb * BytesPerMb
  {
    var m := BytesPerMb as real;
    var size := (length as real) / m;
    assert size * m == length as real;
    if size > maxBlobMb as real {
      assert size * m > (maxBlobMb as real) * m;
    } else {
      assert size * m <= (maxBlobMb as real) * m;
    }
    assert (maxBlobMb as real) * m == (maxBlobMb * BytesPerMb) as real;
  }

  /** `getattr(blob, "content_type", "text/plain") or "text/plain"`. */
  function ContentType(blob: Blob): string {
    if blob.contentType.None? || blob.contentType.value == "" then "text/plain" else blob.contentType.value
  }

  /** A text blob: a "text/" content type, or a name ending in ".md" or
      ".txt" in any letter case. */
  predicate IsText(contentType: string, name: string) {
    Strings.StartsWith(contentType, "text/")
    || Strings.EndsWith(Strings.Lower(name), ".md") || Strings.EndsWith(Strings.Lower(name), ".txt")
  }

  /** The orchestration input built for an admitted blob. */
  function Payload(projectId: string, name: string, text: string): (p: Json)
    ensures p.JObj? && Keys(p.fields) == ["projectId", "name", "text"]
    ensures Lookup(p.fields, "projectId") == Some(JStr(projectId))
    ensures Lookup(p.fields, "name") == Some(JStr(name))
    ensures Lookup(p.fields, "text") == Some(JStr(text))
  {
    var fields := [("projectId", JStr(projectId)), ("name", JStr(name)), ("text", JStr(text))];
    assert Keys(fields) == ["projectId", "name", "text"];
    JObj(fields)
  }

  /** How the durable client's `start_new` behaves: a coroutine that starts
      the orchestration when awaited, a coroutine whose await raises, or a
      plain call that starts the orchestration and returns its id. */
  datatype Client = AsyncStart | AsyncFails(fault: Fault) | SyncStart

  /** What the handler logs at the end. */
  datatype Report = SkippedTooLarge | SkippedNotText | ReportedStarted | ReportedFailure(fault: Fault)

  /** The effect of one trigger: the orchestration input prepared (if the
      blob was admitted), how many orchestrations were started, and the
      report logged. */
  datatype Ingested = Ingested(payload: Option<Json>, starts: nat, report: Report)

  /** The admission decision, before any orchestration is started. */
  function Admit(settings: Settings, blob: Blob, name: string): (r: Result<Option<Report>, Fault>)
    ensures blob.length.None? ==> r == Failure(TypeError)
    ensures r == Success(None) <==>
      blob.length.Some? && !TooLarge(blob.length.value, settings.maxBlobMb) && IsText(ContentType(blob), name)
  {
    if blob.length.None? then Failure(TypeError)  // None / (1024 * 1024)
    else if TooLarge(blob.length.value, settings.maxBlobMb) then Success(Some(SkippedTooLarge))
    else if !IsText(ContentType(blob), name) then Success(Some(SkippedNotText))
    else Success(None)
  }

  /** ingest_blob as written: `await client.start_new(...)`, and on
      TypeError a second call of `start_new` that is not awaited. */
  function IngestBlobAsWritten(settings: Settings, blob: Blob, name: string, client: Client): (r: Ingested)
    ensures r.payload.Some? <==> Admit(settings, blob, name) == Success(None)
    ensures r.payload.None? ==> r.starts == 0
    ensures r.starts <= 2
  {
    match Admit(settings, blob, name)
    case Failure(e) => Ingested(None, 0, ReportedFailure(e))
    case Success(Some(skip)) => Ingested(None, 0, skip)
    case Success(None) =>
      var payload := Payload(settings.projectId, name, blob.text);
      match client
      case AsyncStart => Ingested(Some(payload), 1, ReportedStarted)
      // the awaited call raised TypeError; the fallback makes a coroutine nobody awaits
      case AsyncFails(TypeError) => Ingested(Some(payload), 0, ReportedStarted)
      case AsyncFails(e) => Ingested(Some(payload), 0, ReportedFailure(e))
      // the call starts the orchestration; awaiting its plain result raises
      // TypeError, and the fallback starts it again
      case SyncStart => Ingested(Some(payload), 2, ReportedStarted)
  }

  /** A client whose `start_new` is a plain call gets two orchestrations for
      one upload. */
  lemma SyncClientStartsTwice()
    ensures IngestBlobAsWritten(SettingsFrom(None, None, None), Blob(Some(10), Some("text/plain"), "x"), "a.md", SyncStart).starts == 2
  {
    assert Strings.StartsWith("text/plain", "text/");
  }

  /** An async client whose start raises TypeError gets no orchestration,
      yet the upload is reported as started. */
  lemma FailedStartReportedAsStarted()
    ensures var r := IngestBlobAsWritten(SettingsFrom(None, None, None), Blob(Some(10), Some("text/plain"), "x"), "a.md", AsyncFails(TypeError));
      r.starts == 0 && r.report == ReportedStarted
  {
    assert Strings.StartsWith("text/plain", "text/");
  }

  /** ingest_blob as intended: one call of `start_new`, awaited only when it
      returns something awaitable. */
  function IngestBlob(settings: Settings, blob: Blob, name: string, client: Client): (r: Ingested)
    ensures r.payload.Some? <==> Admit(settings, blob, name) == Success(None)
    ensures r.payload.Some? ==> r.payload.value == Payload(settings.projectId, name, blob.text)
    ensures r.starts <= 1
    ensures r.starts == 1 <==> r.report == ReportedStarted
    ensures r.starts == 1 <==> r.payload.Some? && !client.AsyncFails?
  {
    match Admit(settings, blob, name)
    case Failure(e) => Ingested(None, 0, ReportedFailure(e))
    case Success(Some(skip)) => Ingested(None, 0, skip)
    case Success(None) =>
      var payload := Payload(settings.projectId, name, blob.text);
      match client
      case AsyncStart => Ingested(Some(payload), 1, ReportedStarted)
      case AsyncFails(e) => Ingested(Some(payload), 0, ReportedFailure(e))
      case SyncStart => Ingested(Some(payload), 1, ReportedStarted)
  }

  /** Where the code as written does start exactly one orchestration, the
      intended handler does the same. */
  lemma IntendedAgreesOnAsyncClient(settings: Settings, blob: Blob, name: string)
    ensures IngestBlob(settings, blob, name, AsyncStart) == IngestBlobAsWritten(settings, blob, name, AsyncStart)
  {
  }

  /** The limit is inclusive: a blob of exactly MAX_BLOB_MB mebibytes is
      admitted by size, one byte more is skipped. */
  lemma SizeLimitBoundary(maxBlobMb: nat)
    ensures !TooLarge(maxBlobMb * BytesPerMb, maxBlobMb)
    ensures TooLarge(maxBlobMb * BytesPerMb + 1, maxBlobMb)
  {
    TooLargeIsByteComparison(maxBlobMb * BytesPerMb, maxBlobMb);
    TooLargeIsByteComparison(maxBlobMb * BytesPerMb + 1, maxBlobMb);
  }

  /** A Markdown or text file name admits a blob whatever its content
      type and the letter case of its extension. */
  lemma TextByName(contentType: string, stem: string)
    ensures IsText(contentType, stem + ".MD") && IsText(contentType, stem + ".Txt")
  {
    var a := Strings.Lower(stem + ".MD");
    assert a[|a| - 3..] == ".md";
    var b := Strings.Lower(stem + ".Txt");
    assert b[|b| - 4..] == ".txt";
  }
}
