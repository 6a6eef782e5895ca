/** The recording lifecycle handlers (start, pause, resume, stop, state) as
    functions of the session registry, the query parameters and the calling
    platform's reply. Each returns the response, the new registry and the
    platform call it made, if any. */
module Lifecycle {
  import opened Common
  import opened PyStrings
  import opened ErrorCodes

  /** The module-level `recording_data`: server call id to recording id. */
  type Registry = map<string, string>

  datatype Control = Pause | Resume | Stop

  /** A request sent to the calling platform for one server call. */
  datatype PlatformCall =
    | StartCall(serverCallId: string)
    | ControlCall(op: Control, serverCallId: string, recordingId: string)
    | StateCall(serverCallId: string, recordingId: string)

  /** What a registry-touching handler does: its response, the registry it
      leaves behind and the platform call it made. */
  datatype Step = Step(response: Response, registry: Registry, call: Option<PlatformCall>)

  /** What the state handler does; it has no registry. */
  datatype Query = Query(response: Response, call: Option<PlatformCall>)

  const InvalidServerCallId := "serverCallId is invalid"
  const InvalidRecordingId := "recordingId is invalid"

  /** Pause answers "OK", resume and stop answer "Ok". */
  function SuccessText(op: Control): string {
    match op
    case Pause => "OK"
    case Resume => "Ok"
    case Stop => "Ok"
  }

  /** A pause, resume or stop request reaches the platform: the call id is
      non-empty and a recording id was supplied or is stored non-empty. */
  predicate Forwards(registry: Registry, serverCallId: string, recordingId: string) {
    serverCallId != "" && (recordingId != "" || (serverCallId in registry && registry[serverCallId] != ""))
  }

  /** The recording id such a request is forwarded with: the supplied one,
      else the stored one. */
  function Resolved(registry: Registry, serverCallId: string, recordingId: string): string
    requires Forwards(registry, serverCallId, recordingId)
  {
    if recordingId != "" then recordingId else registry[serverCallId]
  }

  /** `start_recording`. A missing `serverCallId` parameter raises KeyError
      inside the try block. */
  function StartStep(registry: Registry, serverCallId: Option<string>, reply: Attempt<string>): (s: Step)
    ensures s.response.status in {OkStatus, BadRequest, ServerError}
    ensures serverCallId.None? ==> s.response.status == ServerError && s.registry == registry && s.call == None
    ensures serverCallId == Some("") ==> s == Step(Response(InvalidServerCallId, BadRequest), registry, None)
    ensures s.call == if serverCallId.Some? && serverCallId.value != "" then Some(StartCall(serverCallId.value)) else None
    ensures s.response.status == OkStatus <==> s.call.Some? && reply.Ok?
    ensures s.response.status == OkStatus ==>
              s.response.text == reply.value && s.registry == registry[serverCallId.value := reply.value]
    ensures s.response.status != OkStatus ==> s.registry == registry
    ensures s.call.Some? && reply.Raised? ==>
              s.response.text == reply.message &&
              (s.response.status == BadRequest <==> IsStartClientError(reply.message))
  {
    match serverCallId
    case None =>
      NoErrorCode(KeyErrorMessage("serverCallId"));
      Step(StartFailure(KeyErrorMessage("serverCallId")), registry, None)
    case Some(id) =>
      if id == "" then Step(Response(InvalidServerCallId, BadRequest), registry, None)
      else
        match reply
        case Ok(recordingId) => Step(Response(recordingId, OkStatus), registry[id := recordingId], Some(StartCall(id)))
        case Raised(message) => Step(StartFailure(message), registry, Some(StartCall(id)))
  }

  /** `pause_recording`, `resume_recording` and `stop_recording`, which differ
      only in the platform operation and the success text. */
  function ControlStep(op: Control, registry: Registry, serverCallId: Option<string>, recordingId: Option<string>,
                       reply: Attempt<()>): (s: Step)
    ensures s.response.status in {OkStatus, BadRequest, ServerError}
    ensures serverCallId.None? || recordingId.None? ==>
              s.response.status == ServerError && s.registry == registry && s.call == None
    ensures serverCallId == Some("") && recordingId.Some? ==>
              s == Step(Response(InvalidServerCallId, BadRequest), registry, None)
    // no recording id supplied and an empty one stored
    ensures serverCallId.Some? && serverCallId.value != "" && recordingId == Some("") &&
            serverCallId.value in registry && registry[serverCallId.value] == "" ==>
              s == Step(Response(InvalidRecordingId, BadRequest), registry, None)
    ensures s.call.Some? <==>
              serverCallId.Some? && recordingId.Some? && Forwards(registry, serverCallId.value, recordingId.value)
    ensures s.call.Some? ==>
              s.call.value == ControlCall(op, serverCallId.value, Resolved(registry, serverCallId.value, recordingId.value))
    // a supplied id is registered only for an unknown call, whatever the platform answers
    ensures s.registry ==
              if serverCallId.Some? && recordingId.Some? && serverCallId.value != "" && recordingId.value != ""
                 && serverCallId.value !in registry
              then registry[serverCallId.value := recordingId.value]
              else registry
    ensures s.response.status == OkStatus <==> s.call.Some? && reply.Ok?
    ensures s.response.status == OkStatus ==> s.response.text == SuccessText(op)
    ensures s.call.Some? && reply.Raised? ==>
              s.response.text == reply.message &&
              (s.response.status == BadRequest <==> IsNotFoundError(reply.message))
  {
    match (serverCallId, recordingId)
    case (None, _) =>
      NoErrorCode(KeyErrorMessage("serverCallId"));
      Step(ControlFailure(KeyErrorMessage("serverCallId")), registry, None)
    case (Some(_), None) =>
      NoErrorCode(KeyErrorMessage("recordingId"));
      Step(ControlFailure(KeyErrorMessage("recordingId")), registry, None)
    case (Some(id), Some(supplied)) =>
      if id == "" then Step(Response(InvalidServerCallId, BadRequest), registry, None)
      else if supplied == "" then
        if id !in registry then Step(ControlFailure(KeyErrorMessage(id)), registry, None)
        else if registry[id] == "" then Step(Response(InvalidRecordingId, BadRequest), registry, None)
        else Forward(op, registry, id, registry[id], reply)
      else Forward(op, if id in registry then registry else registry[id := supplied], id, supplied, reply)
  }

  /** The platform call of a pause, resume or stop and its classification. */
  function Forward(op: Control, registry: Registry, serverCallId: string, recordingId: string,
                   reply: Attempt<()>): Step
  {
    var response := match reply
      case Ok(_) => Response(SuccessText(op), OkStatus)
      case Raised(message) => ControlFailure(message);
    Step(response, registry, Some(ControlCall(op, serverCallId, recordingId)))
  }

  /** `get_recording_state`: both ids must be supplied and non-empty; the
      registry is neither read nor written. */
  function StateStep(serverCallId: Option<string>, recordingId: Option<string>, reply: Attempt<string>): (q: Query)
    ensures q.response.status in {OkStatus, BadRequest, ServerError}
    ensures serverCallId.None? || recordingId.None? ==> q.response.status == ServerError && q.call == None
    ensures serverCallId == Some("") && recordingId.Some? ==> q == Query(Response(InvalidServerCallId, BadRequest), None)
    ensures serverCallId.Some? && serverCallId.value != "" && recordingId == Some("") ==>
              q == Query(Response(InvalidRecordingId, BadRequest), None)
    ensures q.call.Some? <==>
              serverCallId.Some? && recordingId.Some? && serverCallId.value != "" && recordingId.value != ""
    ensures q.call.Some? ==> q.call.value == StateCall(serverCallId.value, recordingId.value)
    ensures q.response.status == OkStatus <==> q.call.Some? && reply.Ok?
    ensures q.response.status == OkStatus ==> q.response.text == reply.value
    ensures q.call.Some? && reply.Raised? ==>
              q.response.text == reply.message &&
              (q.response.status == BadRequest <==> IsNotFoundError(reply.message))
  {
    match (serverCallId, recordingId)
    case (None, _) =>
      NoErrorCode(KeyErrorMessage("serverCallId"));
      Query(ControlFailure(KeyErrorMessage("serverCallId")), None)
    case (Some(_), None) =>
      NoErrorCode(KeyErrorMessage("recordingId"));
      Query(ControlFailure(KeyErrorMessage("recordingId")), None)
    case (Some(id), Some(rid)) =>
      if id == "" then Query(Response(InvalidServerCallId, BadRequest), None)
      else if rid == "" then Query(Response(InvalidRecordingId, BadRequest), None)
      else
        var response := match reply
          case Ok(state) => Response(state, OkStatus)
          case Raised(message) => ControlFailure(message);
        Query(response, Some(StateCall(id, rid)))
  }

  /** A pause, resume or stop without a recording id for a call the registry
      does not know makes no platform call: the lookup raises KeyError and the
      except clause answers with its text, 400 only if the call id itself
      contains the not-found code. */
  lemma MissingEntryClassification(op: Control, registry: Registry, serverCallId: string, reply: Attempt<()>)
    requires serverCallId != "" && serverCallId !in registry
    ensures ControlStep(op, registry, Some(serverCallId), Some(""), reply) ==
            Step(Response(KeyErrorMessage(serverCallId),
                          if Contains(serverCallId, CallRecordingNotFoundErrorCode) then BadRequest else ServerError),
                 registry, None)
  {
    KeyErrorContains(serverCallId, CallRecordingNotFoundErrorCode);
  }

  /** After a successful start with a non-empty recording id, a pause, resume
      or stop without a recording id is forwarded with the started one. */
  lemma StartThenControlUsesStoredId(op: Control, registry: Registry, serverCallId: string, recordingId: string,
                                     reply: Attempt<()>)
    requires serverCallId != "" && recordingId != ""
    ensures var started := StartStep(registry, Some(serverCallId), Ok(recordingId));
            var s := ControlStep(op, started.registry, Some(serverCallId), Some(""), reply);
            started.response == Response(recordingId, OkStatus) &&
            s.call == Some(ControlCall(op, serverCallId, recordingId)) && s.registry == started.registry
  {
  }

  /** A supplied recording id never replaces a stored one, yet the request is
      forwarded with the supplied id. */
  lemma SuppliedIdNeverOverwrites(op: Control, registry: Registry, serverCallId: string, recordingId: string,
                                  reply: Attempt<()>)
    requires serverCallId in registry && serverCallId != "" && recordingId != ""
    ensures var s := ControlStep(op, registry, Some(serverCallId), Some(recordingId), reply);
            s.registry == registry && s.call == Some(ControlCall(op, serverCallId, recordingId))
  {
  }

  /** The start classification on two sample texts: code 8553 is the caller's
      fault, code 9999 the server's. */
  lemma StartErrorExamples(registry: Registry)
    ensures StartStep(registry, Some("call1"), Raised("Error 8553: recording already active")).response.status == BadRequest
    ensures StartStep(registry, Some("call1"), Raised("Error 9999: internal failure")).response.status == ServerError
  {
    ContainsSplice("Error ", CallRecordingActiveErrorCode, ": recording already active");
    assert "Error " + CallRecordingActiveErrorCode + ": recording already active" == "Error 8553: recording already active";
    NoErrorCode("Error 9999: internal failure");
  }

  /** A state query the platform answers with a not-found error is a 400. */
  lemma StateNotFoundExample()
    ensures StateStep(Some("call1"), Some("rec1"), Raised("Error 8522: recording not found")).response.status == BadRequest
  {
    ContainsSplice("Error ", CallRecordingNotFoundErrorCode, ": recording not found");
    assert "Error " + CallRecordingNotFoundErrorCode + ": recording not found" == "Error 8522: recording not found";
  }
}
