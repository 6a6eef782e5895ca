# Call recording controller — Dafny model

A model of `CallRecordingController`, the web service of the server-side call
recording quickstart. It starts, pauses, resumes and stops recordings of a call
on the calling platform, reports a recording's state, and receives the Event
Grid webhook that announces a recording file: it answers the subscription
handshake, downloads the recording (`mp4`) and then its metadata (`json`) into a
temporary file, uploads each to blob storage, removes the temporary file and
asks for a signed URL. It also formats the shared-access-signature URL of a
blob.

Layout:

- `common.dfy` (`Common`): `Option`, `Attempt` (a call that returns or raises
  with a message) and `Response` (body text and HTTP status).
- `py_strings.dfy` (`PyStrings`): Python's `sub in s` as `Contains`, and the
  text of a `KeyError`.
- `error_codes.dfy` (`ErrorCodes`): the platform error codes 8553, 8527, 8501
  and 8522 and the 400/500 classification of an exception's text.
- `lifecycle.dfy` (`Lifecycle`): the session registry (`recording_data`) and
  the start / pause / resume / stop / state handlers as functions of the
  registry, the query parameters and the platform's reply. Each says which
  platform call it makes.
- `transfer.dfy` (`FileTransfer`): `process_file` as a function of the
  working directory and the outcomes of the download, upload and signed-URL
  calls, including how its except clause treats exceptions.
- `webhook.dfy` (`Webhook`): `get_recording_file` on an already parsed event.
- `sas_uri.dfy` (`SasUri`): the signed URL template, a parser for it and the
  round trip.
- `controller.dfy` (`Controller`): the class `CallRecordingController` with the
  process state the handlers share (`recordingData`, the module-level dict, and
  `files`, the working directory). Its methods update that state step by step as
  the Python does, including the chunk-draining loop. Each method is proved equal
  to the matching function above.

External collaborators are inputs. The calling platform's answer to a call is
an `Attempt`. The download is `None` or the list of chunks its iterator yields
before it stops. Any exception that ends the iteration counts as the end of the
stream, as in the source. The upload and the signed-URL request each return a
Python value or raise. An exception is described by its text and by how the
test `ex and ex.response and ex.response.request` treats it.

## Model

| member | source | states |
|---|---|---|
| `Lifecycle.StartStep` | ServerRecording/Controller/CallRecordingController.py:60-90 | A missing `serverCallId` parameter gives 500, and an empty one gives 400 "serverCallId is invalid". In both cases there is no platform call and the registry is unchanged. Otherwise the platform is asked to start a recording for that call. On success the response is 200 with the returned recording id, and only that call's registry entry is set, to that id, overwriting any earlier one. On failure the registry is unchanged and the response carries the error text: 400 exactly when it contains 8553, 8527 or 8501, else 500. |
| `Lifecycle.ControlStep` | ServerRecording/Controller/CallRecordingController.py:92-122 | Pause, resume and stop. A missing parameter gives 500 and an empty call id gives 400 "serverCallId is invalid". Without a recording id, a call whose stored id is empty gets 400 "recordingId is invalid", with no platform call and no registry change. The platform is called exactly when the call id is non-empty and a recording id was supplied or is stored non-empty. It is called with the supplied id if there is one, else the stored one. The registry gains the supplied id only when the call is unknown. That insertion does not depend on the platform's answer, and no entry is ever overwritten. The response is 200 exactly when the platform was called and did not raise, with "OK" for pause and "Ok" for resume and stop. A platform error is 400 exactly when its text contains 8522. |
| `Lifecycle.StateStep` | ServerRecording/Controller/CallRecordingController.py:188-212 | Takes no registry. Missing parameters give 500. An empty call id gives 400 "serverCallId is invalid", and then an empty recording id gives 400 "recordingId is invalid". Otherwise the platform is asked for the state of exactly the supplied ids. The response is 200 with the reported state, or the error text with 400 exactly when it contains 8522, else 500. |
| `Lifecycle.MissingEntryClassification` | ServerRecording/Controller/CallRecordingController.py:104-122 | With no recording id and a call the registry does not know, the lookup raises KeyError. No platform call is made and the registry is unchanged. The response is the KeyError text, with 400 only when the call id itself contains 8522, otherwise 500 (for call ids that `repr` leaves unescaped). |
| `Lifecycle.StartThenControlUsesStoredId` | ServerRecording/Controller/CallRecordingController.py:77-107 | After a start that returned a non-empty recording id, a pause, resume or stop without a recording id is forwarded with that id and leaves the registry as the start left it. |
| `Lifecycle.SuppliedIdNeverOverwrites` | ServerRecording/Controller/CallRecordingController.py:108-111 | For a call that is already registered, a supplied recording id leaves the registry unchanged, and the platform is still called with the supplied id. |
| `Lifecycle.StartErrorExamples` | ServerRecording/Controller/CallRecordingController.py:82-90 | A start error whose text contains 8553 is a 400, and one with code 9999 is a 500. |
| `Lifecycle.StateNotFoundExample` | ServerRecording/Controller/CallRecordingController.py:207-212 | A state query answered with an 8522 error is a 400. |
| `PyStrings.KeyErrorContains` | ServerRecording/Controller/CallRecordingController.py:117-122 | The model's KeyError text (the key between single quotes) contains a quote-free string exactly when the key does. So, for keys that `repr` leaves unescaped, the 8522 test on a KeyError is a test on the key. |
| `FileTransfer.Transfer` | ServerRecording/Controller/CallRecordingController.py:299-357 | Only the temporary file `{documentId}.{format}` can change. A `None` download returns `False`, with no upload and no change to the files. An upload happens exactly when the download yields a stream, and it uploads that file holding the concatenated chunks. The temporary file is gone when the upload returned and left in place, holding the chunks, when the upload raised. An upload result other than `True` never gives `True`. The result is `True` exactly after a complete transfer with a string URL, or when an exception with a falsy `response` or `response.request` is swallowed. |
| `FileTransfer.NoDownloadNoUpload` | ServerRecording/Controller/CallRecordingController.py:311-347 | A `None` download gives `False`, no upload and an unchanged working directory. |
| `FileTransfer.SwallowedUploadFailureLeavesFile` | ServerRecording/Controller/CallRecordingController.py:322-357 | An upload that raises an exception with a falsy `response` still gives `True` and leaves the temporary file on disk. |
| `Webhook.RecordingFile` | ServerRecording/Controller/CallRecordingController.py:214-297 | An empty body gives 500 "Get recording file action failed". A validation event with a non-empty code gets the handshake `{'validationResponse': code}` with 200. If the code lookup raises, the response is 500 with the error text. An empty code, or any other event type, gives 200 "Get recording file operation succeeded" and touches nothing. For a file-status event, a failed chunk lookup gives 500. Otherwise the recording location is downloaded first. The metadata location is downloaded exactly when the recording transfer returned exactly `True`. The response is 200 exactly when both transfers returned `True`. The working directory is the one the last transfer left, and only `{documentId}.mp4` and `{documentId}.json` can change. |
| `Webhook.ValidationHandshakeExample` | ServerRecording/Controller/CallRecordingController.py:231-239 | A validation event with code "abc123" is answered with 200 and `{'validationResponse': 'abc123'}`. |
| `Webhook.ContentFailureSkipsMetadata` | ServerRecording/Controller/CallRecordingController.py:258-284 | When the recording download is `None`, only the recording location is requested, the files are unchanged and the response is 500. |
| `SasUri.BlobSasUriResponse` | ServerRecording/Controller/CallRecordingController.py:362-379 | A missing `blob_name` parameter or a raising `get_blob_sas_token` call raises out of the handler, which then returns no response. Otherwise the status is always 200. A falsy token gives "Error occoured in getting blob sas uri", which does not parse as a signed URL. A truthy token gives a URL from which the account, container, blob and token can be read back, provided the account has no dot, the container no slash and the token no question mark. |
| `SasUri.ParseRoundTrip` | ServerRecording/Controller/CallRecordingController.py:370-377 | Parsing a URL filled in from the template `https://{account}.blob.core.windows.net/{container}/{blob}?{token}` returns the same four parts, for any blob name. |
| `Controller.CallRecordingController.constructor` | ServerRecording/Controller/CallRecordingController.py:31 | The registry starts empty. |
| `Controller.CallRecordingController.StartRecording` | ServerRecording/Controller/CallRecordingController.py:60-90 | Updates `recordingData` in place and produces exactly the response, new registry and platform call of `StartStep`. |
| `Controller.CallRecordingController.ControlRecording` | ServerRecording/Controller/CallRecordingController.py:92-186 | The shared body of pause, resume and stop. It updates `recordingData` in place exactly as `ControlStep` says. |
| `Controller.CallRecordingController.PauseRecording` | ServerRecording/Controller/CallRecordingController.py:92-122 | Behaves as `ControlStep` with the pause operation. |
| `Controller.CallRecordingController.ResumeRecording` | ServerRecording/Controller/CallRecordingController.py:124-154 | Behaves as `ControlStep` with the resume operation. |
| `Controller.CallRecordingController.StopRecording` | ServerRecording/Controller/CallRecordingController.py:156-186 | Behaves as `ControlStep` with the stop operation. |
| `Controller.CallRecordingController.GetRecordingState` | ServerRecording/Controller/CallRecordingController.py:188-212 | Changes no state and returns the response and platform call of `StateStep`. |
| `Controller.CallRecordingController.GetRecordingFile` | ServerRecording/Controller/CallRecordingController.py:214-297 | Keeps a local `status` across the branches, calls `ProcessFile` for the recording and then, only after an exact `True`, for the metadata. Its response, downloads and working directory are those of `RecordingFile`. |
| `Controller.CallRecordingController.ProcessFile` | ServerRecording/Controller/CallRecordingController.py:299-357 | Truncates the temporary file and drains the stream into it chunk by chunk. The loop invariant is that the file holds the chunks read so far. It then uploads, removes the file and requests the URL. Its outcome, upload and working directory are those of `Transfer`. |

## Left out

- Route registration, `web.run_app` and the `startup` handler: HTTP plumbing.
- Configuration loading and client construction at import time. The storage account and container are parameters of `SasUri.BlobSasUriResponse`; the connection strings and callback URI do not affect any outcome.
- The calling platform client and the blob storage helper. Only their results are modelled, as inputs.
- Parsing the webhook body (`ast.literal_eval`, `json.dumps`, `EventGridEvent.from_dict`). It runs outside any try block, so a malformed body makes the handler raise; the model starts from an already parsed first event.
- Logging. It has no effect on outcomes except where a log concatenation raises `TypeError`. Inside `process_file` that case is modelled; in the start handler it is not (see the `Lifecycle.StartStep` line below).
- Real file I/O. A failing `open` or `write` is not modelled, and neither are encodings. Files are a map from name to bytes.
- Concurrency. The handlers run as unsynchronised coroutines over the shared dict; the model treats each request as one atomic step.
- `PyStrings.KeyErrorMessage` and `Webhook.ValidationBody`: none of the escaping Python's `repr` applies is modelled. That covers the choice of quotes, backslashes, and non-printable characters written as `\xNN`. For a key like `"\b522"`, `repr` yields text containing "8522" although the key does not contain it. The source then answers 400 where the model answers 500.
- `Lifecycle.MissingEntryClassification`: the 400 / 500 split follows the model's unescaped KeyError text. For call ids that `repr` escapes it can differ from the source, as described in the previous line.
- `SasUri.BlobSasUriResponse`: when the handler raises, the model returns no response. The 500 the web framework then sends is not modelled.
- `Lifecycle.StartStep`: a platform reply whose `recording_id` is not a string is not modelled. Such a reply would make the log concatenation raise.
- `Controller.CallRecordingController.ProcessFile`: the download location and the download kind are only passed to the platform or logged. They are not parameters; `env` stands for the platform's answer for that location.
- `Webhook.RecordingFile`: event data that is not a dictionary is not distinguished from a failing key lookup. The validation code is modelled as a string.
- The temporary file stays on disk when the upload raises; it is removed only after the upload returns (`FileTransfer.SwallowedUploadFailureLeavesFile`).
- An unknown call with no recording id fails with the lookup's `KeyError`, classified like any other exception, not with a dedicated error (`Lifecycle.MissingEntryClassification`).
