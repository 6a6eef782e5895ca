/** `CallRecordingController` with the process state its static handlers
    share: the module-level `recording_data` dictionary and the working
    directory that holds the temporary files. Every handler is proved to do
    what the matching function of Lifecycle, FileTransfer or Webhook says. */
module Controller {
  import opened Common
  import opened ErrorCodes
  import opened PyStrings
  import opened Lifecycle
  import opened FileTransfer
  import opened Webhook

  datatype OperationStatus = Fail | Success

  class CallRecordingController {
    var recordingData: Registry
    var files: Files

    /** The registry starts empty when the module is imported. */
    constructor (workingDirectory: Files)
      ensures recordingData == map[] && files == workingDirectory
    {
      recordingData := map[];
      files := workingDirectory;
    }

    method StartRecording(serverCallId: Option<string>, reply: Attempt<string>)
      returns (response: Response, call: Option<PlatformCall>)
      modifies this`recordingData
      ensures Step(response, recordingData, call) == StartStep(old(recordingData), serverCallId, reply)
    {
      call := None;
      if serverCallId.None? {
        return StartFailure(KeyErrorMessage("serverCallId")), call;
      }
      var id := serverCallId.value;
      if id == "" {
        return Response(InvalidServerCallId, BadRequest), call;
      }
      call := Some(StartCall(id));
      match reply {
        case Raised(message) =>
          response := StartFailure(message);
        case Ok(recordingId) =>
          if id !in recordingData {
            recordingData := recordingData[id := ""];
          }
          recordingData := recordingData[id := recordingId];
          response := Response(recordingId, OkStatus);
      }
    }

    /** The body shared by the pause, resume and stop handlers. */
    method ControlRecording(op: Control, serverCallId: Option<string>, recordingId: Option<string>, reply: Attempt<()>)
      returns (response: Response, call: Option<PlatformCall>)
      modifies this`recordingData
      ensures Step(response, recordingData, call) == ControlStep(op, old(recordingData), serverCallId, recordingId, reply)
    {
      call := None;
      if serverCallId.None? {
        return ControlFailure(KeyErrorMessage("serverCallId")), call;
      }
      if recordingId.None? {
        return ControlFailure(KeyErrorMessage("recordingId")), call;
      }
      var id := serverCallId.value;
      var rid := recordingId.value;
      if id == "" {
        return Response(InvalidServerCallId, BadRequest), call;
      }
      if rid == "" {
        if id !in recordingData {
          // `recording_data[server_call_id]` raises KeyError
          return ControlFailure(KeyErrorMessage(id)), call;
        }
        rid := recordingData[id];
        if rid == "" {
          return Response(InvalidRecordingId, BadRequest), call;
        }
      } else if id !in recordingData {
        recordingData := recordingData[id := rid];
      }
      call := Some(ControlCall(op, id, rid));
      match reply {
        case Ok(_) => response := Response(SuccessText(op), OkStatus);
        case Raised(message) => response := ControlFailure(message);
      }
    }

    method PauseRecording(serverCallId: Option<string>, recordingId: Option<string>, reply: Attempt<()>)
      returns (response: Response, call: Option<PlatformCall>)
      modifies this`recordingData
      ensures Step(response, recordingData, call) == ControlStep(Pause, old(recordingData), serverCallId, recordingId, reply)
    {
      response, call := ControlRecording(Pause, serverCallId, recordingId, reply);
    }

    method ResumeRecording(serverCallId: Option<string>, recordingId: Option<string>, reply: Attempt<()>)
      returns (response: Response, call: Option<PlatformCall>)
      modifies this`recordingData
      ensures Step(response, recordingData, call) == ControlStep(Resume, old(recordingData), serverCallId, recordingId, reply)
    {
      response, call := ControlRecording(Resume, serverCallId, recordingId, reply);
    }

    method StopRecording(serverCallId: Option<string>, recordingId: Option<string>, reply: Attempt<()>)
      returns (response: Response, call: Option<PlatformCall>)
      modifies this`recordingData
      ensures Step(response, recordingData, call) == ControlStep(Stop, old(recordingData), serverCallId, recordingId, reply)
    {
      response, call := ControlRecording(Stop, serverCallId, recordingId, reply);
    }

    /** Changes nothing: no `modifies` clause. */
    method GetRecordingState(serverCallId: Option<string>, recordingId: Option<string>, reply: Attempt<string>)
      returns (response: Response, call: Option<PlatformCall>)
      ensures Query(response, call) == StateStep(serverCallId, recordingId, reply)
    {
      call := None;
      if serverCallId.None? {
        return ControlFailure(KeyErrorMessage("serverCallId")), call;
      }
      if recordingId.None? {
        return ControlFailure(KeyErrorMessage("recordingId")), call;
      }
      if serverCallId.value == "" {
        return Response(InvalidServerCallId, BadRequest), call;
      }
      if recordingId.value == "" {
        return Response(InvalidRecordingId, BadRequest), call;
      }
      call := Some(StateCall(serverCallId.value, recordingId.value));
      match reply {
        case Ok(state) => response := Response(state, OkStatus);
        case Raised(message) => response := ControlFailure(message);
      }
    }

    method GetRecordingFile(body: Body, contentEnv: TransferEnv, metadataEnv: TransferEnv)
      returns (response: Response, downloads: seq<string>)
      modifies this`files
      ensures FileStep(response, files, downloads) == RecordingFile(old(files), body, contentEnv, metadataEnv)
    {
      downloads := [];
      var status := Success;
      if body.Posted? {
        var data := body.data;
        if body.eventType == SubscriptionValidationEventType {
          match data.validationCode {
            case Raised(message) =>
              return Response(message, ServerError), downloads;
            case Ok(code) =>
              if code != "" {
                return Response(ValidationBody(code), OkStatus), downloads;
              }
          }
        }
        if body.eventType == RecordingFileStatusUpdatedEventType {
          match data.firstChunk {
            case None =>
              status := Fail;
            case Some(chunk) =>
              downloads := downloads + [chunk.contentLocation];
              var content, contentBlob := ProcessFile(chunk.documentId, ContentFormat, contentEnv);
              // an AttributeError escaping process_file lands in the outer except clause: Fail as well
              if content == Returned(PyTrue) {
                downloads := downloads + [chunk.metadataLocation];
                var metadata, metadataBlob := ProcessFile(chunk.documentId, MetadataFormat, metadataEnv);
                if metadata != Returned(PyTrue) {
                  status := Fail;
                }
              } else {
                status := Fail;
              }
          }
        }
      } else {
        status := Fail;
      }
      if status == Fail {
        response := Response(FailedText, ServerError);
      } else {
        response := Response(SucceededText, OkStatus);
      }
    }

    /** `process_file`: the platform's answer for the download location, the
        upload and the signed-URL request are given by `env`. */
    method ProcessFile(documentId: string, fileFormat: string, env: TransferEnv)
      returns (outcome: Outcome, upload: Option<Blob>)
      modifies this`files
      ensures TransferStep(outcome, files, upload) == Transfer(old(files), documentId, fileFormat, env)
    {
      upload := None;
      var raised: Option<PyException> := None;
      match env.download {
        case Raises(ex) =>
          raised := Some(ex);
        case Returns(None) =>
          return Returned(PyFalse), upload;
        case Returns(Some(stream)) =>
          var name := TempFileName(documentId, fileFormat);
          files := files[name := []];
          var i := 0;
          while i < |stream|
            invariant 0 <= i <= |stream|
            invariant files == old(files)[name := Concat(stream[..i])]
          {
            assert stream[..i + 1][..i] == stream[..i];
            files := files[name := files[name] + stream[i]];
            i := i + 1;
          }
          assert stream[..|stream|] == stream;
          upload := Some(Blob(name, files[name]));
          match env.upload {
            case Raises(ex) =>
              raised := Some(ex);
            case Returns(value) =>
              if name in files {
                files := files - {name};
              }
              if value == PyTrue {
                match env.sasUri {
                  case Raises(ex) =>
                    raised := Some(ex);
                  case Returns(url) =>
                    if !url.PyStr? {
                      raised := Some(ConcatTypeError);
                    }
                }
              } else if value.PyStr? {
                return Returned(PyFalse), upload;
              } else {
                // "Failed to upload ->" + upload_response raises TypeError
                raised := Some(ConcatTypeError);
              }
          }
      }
      if raised.Some? {
        outcome := Handle(raised.value);
      } else {
        outcome := Returned(PyTrue);
      }
    }
  }
}
