/** `get_recording_file`: the webhook that answers Event Grid's subscription
    handshake and, when a recording file is ready, transfers the recording
    and then its metadata. The request body arrives already parsed. */
module Webhook {
  import opened Common
  import opened FileTransfer

  const SubscriptionValidationEventType := "Microsoft.EventGrid.SubscriptionValidationEvent"
  const RecordingFileStatusUpdatedEventType := "Microsoft.Communication.RecordingFileStatusUpdated"

  const ContentFormat := "mp4"
  const MetadataFormat := "json"

  const FailedText := "Get recording file action failed"
  const SucceededText := "Get recording file operation succeeded"

  /** The first entry of `recordingStorageInfo.recordingChunks`. */
  datatype ChunkInfo = ChunkInfo(documentId: string, contentLocation: string, metadataLocation: string)

  /** The event's data as the handler reads it: the lookup of
      `validationCode`, and the lookups down to the first chunk's three
      fields (None when one of them raises). */
  datatype EventData = EventData(validationCode: Attempt<string>, firstChunk: Option<ChunkInfo>)

  /** The request body: empty, or the first event of the posted list. */
  datatype Body = EmptyBody | Posted(eventType: string, data: EventData)

  /** The handler's response, the working directory after it, and the
      locations it asked the platform to download, in order. */
  datatype FileStep = FileStep(response: Response, files: Files, downloads: seq<string>)

  /** `str({"validationResponse": code})` for a string code. */
  function ValidationBody(code: string): string {
    "{'validationResponse': '" + code + "'}"
  }

  /** A validation event the handler answers itself: its code is truthy, or
      looking it up raised. */
  predicate AnswersValidation(body: Body) {
    body.Posted? && body.eventType == SubscriptionValidationEventType &&
    (body.data.validationCode.Raised? || body.data.validationCode.value != "")
  }

  function RecordingFile(files: Files, body: Body, contentEnv: TransferEnv, metadataEnv: TransferEnv): (r: FileStep)
    ensures r.response.status in {OkStatus, ServerError}
    ensures body == EmptyBody ==> r == FileStep(Response(FailedText, ServerError), files, [])
    // the subscription handshake
    ensures AnswersValidation(body) && body.data.validationCode.Ok? ==>
              r == FileStep(Response(ValidationBody(body.data.validationCode.value), OkStatus), files, [])
    ensures AnswersValidation(body) && body.data.validationCode.Raised? ==>
              r == FileStep(Response(body.data.validationCode.message, ServerError), files, [])
    // an empty validation code and any event type not handled are vacuous successes
    ensures body.Posted? && !AnswersValidation(body) && body.eventType != RecordingFileStatusUpdatedEventType ==>
              r == FileStep(Response(SucceededText, OkStatus), files, [])
    ensures body.Posted? && body.eventType == RecordingFileStatusUpdatedEventType && body.data.firstChunk.None? ==>
              r == FileStep(Response(FailedText, ServerError), files, [])
    // the recording is transferred first; the metadata only after the recording returned exactly True
    ensures body.Posted? && body.eventType == RecordingFileStatusUpdatedEventType && body.data.firstChunk.Some? ==>
              var chunk := body.data.firstChunk.value;
              var content := Transfer(files, chunk.documentId, ContentFormat, contentEnv);
              1 <= |r.downloads| <= 2 && r.downloads[0] == chunk.contentLocation &&
              (|r.downloads| == 2 <==> content.outcome == Returned(PyTrue)) &&
              (|r.downloads| == 2 ==> r.downloads[1] == chunk.metadataLocation) &&
              // the working directory is the one the last transfer left behind
              (|r.downloads| == 1 ==> r.files == content.files) &&
              (|r.downloads| == 2 ==>
                 r.files == Transfer(content.files, chunk.documentId, MetadataFormat, metadataEnv).files) &&
              (r.response.status == OkStatus <==>
                 content.outcome == Returned(PyTrue) &&
                 Transfer(content.files, chunk.documentId, MetadataFormat, metadataEnv).outcome == Returned(PyTrue))
    // only the two temporary files of the chunk's document can change
    ensures body.Posted? && body.eventType == RecordingFileStatusUpdatedEventType && body.data.firstChunk.Some? ==>
              var d := body.data.firstChunk.value.documentId;
              var temporary := {TempFileName(d, ContentFormat), TempFileName(d, MetadataFormat)};
              r.files - temporary == files - temporary
    ensures r.response.status == ServerError && !AnswersValidation(body) ==> r.response.text == FailedText
    ensures r.response.status == OkStatus && !AnswersValidation(body) ==> r.response.text == SucceededText
  {
    match body
    case EmptyBody => FileStep(Response(FailedText, ServerError), files, [])
    case Posted(eventType, data) =>
      if AnswersValidation(body) then
        match data.validationCode
        case Ok(code) => FileStep(Response(ValidationBody(code), OkStatus), files, [])
        case Raised(message) => FileStep(Response(message, ServerError), files, [])
      else if eventType != RecordingFileStatusUpdatedEventType then
        FileStep(Response(SucceededText, OkStatus), files, [])
      else
        match data.firstChunk
        case None => FileStep(Response(FailedText, ServerError), files, [])
        case Some(chunk) =>
          var content := Transfer(files, chunk.documentId, ContentFormat, contentEnv);
          if content.outcome != Returned(PyTrue) then
            FileStep(Response(FailedText, ServerError), content.files, [chunk.contentLocation])
          else
            var metadata := Transfer(content.files, chunk.documentId, MetadataFormat, metadataEnv);
            var response := if metadata.outcome == Returned(PyTrue) then Response(SucceededText, OkStatus)
                            else Response(FailedText, ServerError);
            FileStep(response, metadata.files, [chunk.contentLocation, chunk.metadataLocation])
  }

  /** The handshake of a validation event with code "abc123". */
  lemma ValidationHandshakeExample(files: Files, contentEnv: TransferEnv, metadataEnv: TransferEnv)
    ensures RecordingFile(files, Posted(SubscriptionValidationEventType, EventData(Ok("abc123"), None)), contentEnv, metadataEnv).response
            == Response("{'validationResponse': 'abc123'}", OkStatus)
  {
  }

  /** A recording transfer that fails keeps the metadata from being
      downloaded at all. */
  lemma ContentFailureSkipsMetadata(files: Files, chunk: ChunkInfo, contentEnv: TransferEnv, metadataEnv: TransferEnv)
    requires contentEnv.download == Returns(None)
    ensures RecordingFile(files, Posted(RecordingFileStatusUpdatedEventType, EventData(Raised("'validationCode'"), Some(chunk))),
                          contentEnv, metadataEnv)
            == FileStep(Response(FailedText, ServerError), files, [chunk.contentLocation])
  {
  }
}
