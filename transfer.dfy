/** `process_file`: download one recording file from the calling platform into
    a temporary file, upload it to blob storage, remove the temporary file and
    ask for a signed URL, all inside one try block. */
module FileTransfer {
  import opened Common

  newtype byte = x: int | 0 <= x < 256
  type Bytes = seq<byte>

  /** The files of the working directory, by name. */
  type Files = map<string, Bytes>

  /** How the except clause's test `ex and ex.response and ex.response.request`
      fares on an exception: one of the two attributes does not exist (the test
      itself raises AttributeError), `response` is falsy, `response.request` is
      falsy, or both are there. A `headers` attribute missing from
      `ex.response.request` or `ex.response`, which the logging in the except
      clause reads, also counts as `MissingAttribute`: that raises
      AttributeError the same way. */
  datatype ResponseShape = MissingAttribute | FalsyResponse | FalsyRequest | WithRequest

  datatype PyException = PyException(message: string, response: ResponseShape)

  /** The Python values the blob storage helper and `process_file` return. */
  datatype PyValue = PyTrue | PyFalse | PyNone | PyStr(s: string)

  /** A call that returns a value or raises. Unlike `Attempt`, whose handlers
      only use an exception's text, the except clause of `process_file` also
      inspects the exception's `response` attribute, so the exception carries
      its `ResponseShape`. */
  datatype Call<T> = Returns(value: T) | Raises(ex: PyException)

  /** What the three external calls of one transfer do: the platform's
      `start_download` (None, or the chunks its iterator yields before it
      stops or fails), the blob upload and the signed-URL request. */
  datatype TransferEnv = TransferEnv(download: Call<Option<seq<Bytes>>>, upload: Call<PyValue>, sasUri: Call<PyValue>)

  /** `process_file` returns a value, or an AttributeError raised by its own
      except clause escapes it. */
  datatype Outcome = Returned(value: PyValue) | Escaped

  /** A file handed to the blob upload: its blob name and its content. */
  datatype Blob = Blob(name: string, content: Bytes)

  datatype TransferStep = TransferStep(outcome: Outcome, files: Files, upload: Option<Blob>)

  /** Concatenating a non-string to a string raises TypeError, which has no
      `response` attribute. */
  const ConcatTypeError := PyException("can only concatenate str to str", MissingAttribute)

  /** `"{0}.{1}".format(document_id, file_format)`. */
  function TempFileName(documentId: string, fileFormat: string): string {
    documentId + "." + fileFormat
  }

  /** The bytes written by draining the chunks in order. */
  function Concat(chunks: seq<Bytes>): Bytes {
    if chunks == [] then [] else Concat(chunks[..|chunks| - 1]) + chunks[|chunks| - 1]
  }

  /** What the except clause of `process_file` makes of an exception. */
  function Handle(ex: PyException): Outcome {
    match ex.response
    case MissingAttribute => Escaped
    case FalsyResponse => Returned(PyTrue)
    case FalsyRequest => Returned(PyTrue)
    case WithRequest => Returned(PyStr(ex.message))
  }

  /** The call raised an exception that the except clause turns into `True`. */
  predicate Swallowed<T>(c: Call<T>) {
    c.Raises? && c.ex.response in {FalsyResponse, FalsyRequest}
  }

  /** `process_file(document_id, download_location, file_format, ...)` on the
      working directory `files`. */
  function Transfer(files: Files, documentId: string, fileFormat: string, env: TransferEnv): (t: TransferStep)
    // only the temporary file can change
    ensures t.files - {TempFileName(documentId, fileFormat)} == files - {TempFileName(documentId, fileFormat)}
    ensures env.download == Returns(None) ==> t == TransferStep(Returned(PyFalse), files, None)
    // an upload happens exactly when the download yields a stream, and uploads what the stream held
    ensures t.upload.Some? <==> env.download.Returns? && env.download.value.Some?
    ensures t.upload.Some? ==> t.upload.value == Blob(TempFileName(documentId, fileFormat), Concat(env.download.value.value))
    ensures t.upload.None? ==> t.files == files
    // the temporary file is removed when the upload returns and left behind when it raises
    ensures t.upload.Some? && env.upload.Returns? ==> TempFileName(documentId, fileFormat) !in t.files
    ensures t.upload.Some? && env.upload.Raises? ==>
              t.files == files[TempFileName(documentId, fileFormat) := Concat(env.download.value.value)]
    ensures t.upload.Some? && env.upload.Returns? && env.upload.value != PyTrue ==> t.outcome != Returned(PyTrue)
    // `True` comes from a complete transfer or from an exception the except clause swallows
    ensures t.outcome == Returned(PyTrue) <==>
              Swallowed(env.download) ||
              (t.upload.Some? &&
               (Swallowed(env.upload) ||
                (env.upload == Returns(PyTrue) &&
                 (Swallowed(env.sasUri) || (env.sasUri.Returns? && env.sasUri.value.PyStr?)))))
  {
    var name := TempFileName(documentId, fileFormat);
    match env.download
    case Raises(ex) => TransferStep(Handle(ex), files, None)
    case Returns(None) => TransferStep(Returned(PyFalse), files, None)
    case Returns(Some(chunks)) =>
      var written := files[name := Concat(chunks)];
      var blob := Some(Blob(name, Concat(chunks)));
      match env.upload
      case Raises(ex) => TransferStep(Handle(ex), written, blob)
      case Returns(value) =>
        var removed := written - {name};
        if value == PyTrue then
          match env.sasUri
          case Raises(ex) => TransferStep(Handle(ex), removed, blob)
          case Returns(url) =>
            if url.PyStr? then TransferStep(Returned(PyTrue), removed, blob)
            else TransferStep(Handle(ConcatTypeError), removed, blob)
        else if value.PyStr? then TransferStep(Returned(PyFalse), removed, blob)
        else TransferStep(Handle(ConcatTypeError), removed, blob)
  }

  /** A download that is not there ends the transfer with `False`: no upload,
      no temporary file. */
  lemma NoDownloadNoUpload(files: Files, documentId: string, fileFormat: string, env: TransferEnv)
    requires env.download == Returns(None)
    ensures var t := Transfer(files, documentId, fileFormat, env);
            t.outcome == Returned(PyFalse) && t.upload == None && t.files == files
  {
  }

  /** An upload that raises an exception with a falsy `response` leaves the
      temporary file behind and still reports `True`. */
  lemma SwallowedUploadFailureLeavesFile(files: Files, documentId: string, fileFormat: string, env: TransferEnv)
    requires env.download.Returns? && env.download.value.Some?
    requires env.upload.Raises? && env.upload.ex.response == FalsyResponse
    ensures var t := Transfer(files, documentId, fileFormat, env);
            t.outcome == Returned(PyTrue) && TempFileName(documentId, fileFormat) in t.files
  {
  }
}
