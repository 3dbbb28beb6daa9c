/**
 * The boundary with the HTTP transport (`service._http.request` of
 * httplib2): the requests the Drive client issues and the replies it reads.
 * The transport itself is not modelled; each operation receives it as a
 * function from request to reply.
 */
module Http {
  import opened Common

  /** The JSON body of the initiation request: `{'name': ..., 'parents': [...]}`. */
  datatype Metadata = Metadata(name: string, parents: seq<string>)

  datatype Request =
      /** POST that opens a resumable upload session. */
    | Post(url: string, contentType: string, metadata: Metadata)
      /** PUT of one chunk (or of nothing, to ask for the progress). */
    | Put(url: string, contentLength: string, contentRange: string, body: seq<byte>)
      /** GET of a byte range of a file's content. */
    | Get(url: string, range: string)

  /**
   * A reply: the status code, the headers (httplib2 lower-cases their names)
   * and the body.
   */
  datatype Response = Response(status: nat, headers: map<string, string>, body: seq<byte>)

  /** The exceptions the core raises, one variant per cause. */
  datatype Error =
      /** `raise Exception(status)` on an unexpected upload status. */
    | StatusError(status: nat)
      /** `raise HttpError(resp, content)` on a download reply other than 206. */
    | HttpError(status: nat)
      /** `KeyError` on a header the reply lacks. */
    | MissingHeader(name: string)
      /** `ValueError` from `int(...)` on a header that is not a number. */
    | NotANumber(text: string)
      /** "Checksum mismatch. Need to repeat upload." */
    | ChecksumMismatch
      /** `FileNotFoundError(name)`. */
    | FileNotFound(name: string)
      /** "Two or more files {name}" from `child`. */
    | Ambiguous(name: string)
      /** "Could not access {name}" from `child_from_path`. */
    | CouldNotAccess(name: string)
      /** "Failed to create {name}" from `create_path`. */
    | FailedToCreate(name: string)
      /** `AttributeError`: a path continues below a file. */
    | NotAFolder(name: string)
      /** `json.loads` rejects the finished upload's reply. */
    | BadReply
      /** `KeyError` on a field the finished upload's reply lacks. */
    | MissingField(key: string)
      /** The progress handler raised. */
    | Aborted
}
