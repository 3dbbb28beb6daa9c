/**
 * `DriveFile`: the chunked download loop (range requests appended to the
 * local file) and the upload loop that drives a `ResumableUploadRequest`
 * until the server returns the finished file.
 */
module Files {
  import opened Common
  import opened Decimal
  import opened Http
  import opened Upload

  const DOWNLOAD_URL_PREFIX: string := "https://www.googleapis.com/drive/v3/files/"

  /** `str(file_id)`: a file that has no id yet formats as `None`. */
  function IdText(id: Option<string>): string {
    if id.Some? then id.value else "None"
  }

  function DownloadUrl(id: Option<string>): string {
    DOWNLOAD_URL_PREFIX + IdText(id) + "?alt=media"
  }

  /** `bytes={offset}-{offset + chunksize - 1}`. */
  function RangeHeader(offset: nat, chunkSize: int): string {
    "bytes=" + NatToString(offset) + "-" + IntToString(offset + chunkSize - 1)
  }

  function RangeRequest(url: string, offset: nat, chunkSize: int): Request {
    Get(url, RangeHeader(offset, chunkSize))
  }

  /** The `content-length` of a 206 reply, when it is a number. */
  function DeclaredLength(resp: Response): Option<nat> {
    if resp.status == 206 && "content-length" in resp.headers then ParseNat(resp.headers["content-length"])
    else None
  }

  /** The server never answers a range request with an empty 206 (otherwise the loop never ends). */
  ghost predicate Advances(http: Request -> Response, url: string, chunkSize: int) {
    forall offset: nat :: DeclaredLength(http(RangeRequest(url, offset, chunkSize))) != Some(0)
  }

  /** What the download loop appended, where its offset stopped, and how it ended. */
  datatype Transfer = Transfer(written: seq<byte>, offset: nat, outcome: Outcome<Error>)

  /**
   * The download loop from `offset` on. The body of a 206 reply is written
   * before its `content-length` is read, so it stays in the file even when
   * that header is missing or not a number; `halt` is the progress handler
   * raising on the new offset.
   */
  function Fetch(url: string, offset: nat, remoteSize: nat, chunkSize: int,
                 http: Request -> Response, halt: nat -> bool): (t: Transfer)
    requires Advances(http, url, chunkSize)
    ensures t.offset >= offset
    ensures t.outcome.Pass? ==> t.offset >= remoteSize
    ensures offset >= remoteSize ==> t == Transfer([], offset, Pass)
    decreases remoteSize - offset
  {
    if offset >= remoteSize then Transfer([], offset, Pass)
    else
      var resp := http(RangeRequest(url, offset, chunkSize));
      if resp.status != 206 then Transfer([], offset, Fail(HttpError(resp.status)))
      else if "content-length" !in resp.headers then Transfer(resp.body, offset, Fail(MissingHeader("content-length")))
      else match ParseNat(resp.headers["content-length"])
        case None => Transfer(resp.body, offset, Fail(NotANumber(resp.headers["content-length"])))
        case Some(len) =>
          assert DeclaredLength(resp) == Some(len);
          var next := offset + len;
          if halt(next) then Transfer(resp.body, next, Fail(Aborted))
          else
            var rest := Fetch(url, next, remoteSize, chunkSize, http, halt);
            Transfer(resp.body + rest.written, rest.offset, rest.outcome)
  }

  /**
   * One turn of the download loop: a reply other than 206 raises with
   * nothing written; a 206 writes its body, and with a readable
   * `content-length` moves the offset by exactly that much before the
   * handler sees it and the loop goes on.
   */
  lemma FetchTurn(url: string, offset: nat, remoteSize: nat, chunkSize: int,
      http: Request -> Response, halt: nat -> bool)
    requires Advances(http, url, chunkSize) && offset < remoteSize
    ensures var resp := http(RangeRequest(url, offset, chunkSize));
      var t := Fetch(url, offset, remoteSize, chunkSize, http, halt);
      && (resp.status != 206 ==> t == Transfer([], offset, Fail(HttpError(resp.status))))
      && (resp.status == 206 && DeclaredLength(resp).None? ==>
            t.written == resp.body && t.offset == offset && t.outcome.Fail? && !t.outcome.error.Aborted?)
      && (DeclaredLength(resp).Some? ==>
            var next := offset + DeclaredLength(resp).value;
            && next > offset
            && (halt(next) ==> t == Transfer(resp.body, next, Fail(Aborted)))
            && (!halt(next) ==>
                  var rest := Fetch(url, next, remoteSize, chunkSize, http, halt);
                  t == Transfer(resp.body + rest.written, rest.offset, rest.outcome)))
  {
  }

  /** A server that answers the range request at `offset` with the next bytes of `remote`. */
  ghost predicate ServesChunk(resp: Response, remote: seq<byte>, offset: nat, chunkSize: int)
    requires offset < |remote| && chunkSize > 0
  {
    var n := Min(chunkSize, |remote| - offset);
    && resp.status == 206
    && "content-length" in resp.headers && resp.headers["content-length"] == NatToString(n)
    && resp.body == remote[offset..offset + n]
  }

  ghost predicate Serves(http: Request -> Response, url: string, remote: seq<byte>, chunkSize: int)
    requires chunkSize > 0
  {
    forall offset: nat :: offset < |remote| ==> ServesChunk(http(RangeRequest(url, offset, chunkSize)), remote, offset, chunkSize)
  }

  /** Against a server that serves `remote`, the loop appends exactly the rest of `remote`. */
  lemma {:induction false} FetchServedRemainder(url: string, remote: seq<byte>, offset: nat, chunkSize: int,
      http: Request -> Response, halt: nat -> bool)
    requires chunkSize > 0 && offset <= |remote|
    requires Advances(http, url, chunkSize) && Serves(http, url, remote, chunkSize)
    requires forall k :: !halt(k)
    ensures Fetch(url, offset, |remote|, chunkSize, http, halt) == Transfer(remote[offset..], |remote|, Pass)
    decreases |remote| - offset
  {
    if offset < |remote| {
      var resp := http(RangeRequest(url, offset, chunkSize));
      assert ServesChunk(resp, remote, offset, chunkSize);
      var n := Min(chunkSize, |remote| - offset);
      ParseNatToString(n);
      assert DeclaredLength(resp) == Some(n);
      assert !halt(offset + n);
      FetchServedRemainder(url, remote, offset + n, chunkSize, http, halt);
      assert Fetch(url, offset, |remote|, chunkSize, http, halt)
          == Transfer(resp.body + remote[offset + n..], |remote|, Pass);
      SplitBetween(remote, offset, offset + n);
    }
  }

  /**
   * A local file that holds the first bytes of the remote file is completed
   * to exactly the remote file.
   */
  lemma DownloadCompletesPrefix(local: seq<byte>, remote: seq<byte>, url: string, chunkSize: int,
      http: Request -> Response, halt: nat -> bool)
    requires chunkSize > 0 && |local| <= |remote| && local == remote[..|local|]
    requires Advances(http, url, chunkSize) && Serves(http, url, remote, chunkSize)
    requires forall k :: !halt(k)
    ensures var t := Fetch(url, |local|, |remote|, chunkSize, http, halt);
      t.outcome.Pass? && local + t.written == remote
  {
    FetchServedRemainder(url, remote, |local|, chunkSize, http, halt);
    var t := Fetch(url, |local|, |remote|, chunkSize, http, halt);
    assert t.written == remote[|local|..];
    SplitAt(remote, |local|);
  }

  // ---------------------------------------------------------------------
  // The upload loop

  /**
   * The server does not answer the zero-length chunk sent once everything
   * is uploaded with 308 or with an empty 200 (otherwise the loop never ends).
   */
  ghost predicate FinishesFinalChunk(http: Request -> Response) {
    forall uri: string, size: nat ::
      var resp := http(ChunkRequest(uri, size, 0, size, []));
      resp.status == 200 || resp.status == 308 ==> resp.body != []
  }

  /** Decreases with every chunk after which the loop goes on. */
  function Remaining(progress: Option<nat>, size: nat): nat {
    match progress
    case None => size + 3
    case Some(p) => if p < size then size - p + 2 else if p > size then 2 else 1
  }

  /** Once everything is uploaded, the next chunk is answered with the finished file or fails. */
  lemma FinalChunkFinishes(s: Session, m: Media, metadata: Metadata, md5: seq<byte> -> string,
      http: Request -> Response)
    requires WellFormed(s) && FinishesFinalChunk(http)
    ensures var r := ChunkStep(s, m, metadata, md5, http);
      s.progress == Some(|m.data|) && r.out.Success? ==> r.out.value.body != []
  {
    var size := |m.data|;
    var u := UriStep(s, metadata, http);
    if s.progress == Some(size) && u.out.Success? {
      assert NextRequest(u.next, m) == ChunkRequest(u.next.resumableUri.value, size, 0, size, []);
    }
  }

  lemma ChunkStepProgresses(s: Session, m: Media, metadata: Metadata, md5: seq<byte> -> string,
      http: Request -> Response)
    requires WellFormed(s) && m.chunkSize > 0 && FinishesFinalChunk(http)
    requires var r := ChunkStep(s, m, metadata, md5, http); r.out.Success? && r.out.value.body == []
    ensures Remaining(ChunkStep(s, m, metadata, md5, http).next.progress, |m.data|) < Remaining(s.progress, |m.data|)
  {
    FinalChunkFinishes(s, m, metadata, md5, http);
  }

  /**
   * What the upload loop leaves behind: the request's session, the file's
   * `resumable_uri`, the snapshots handed to the progress handler, and the
   * body of the finishing reply or the exception.
   */
  datatype UploadRun = UploadRun(session: Session, fileUri: Option<string>, reports: seq<UploadProgress>,
                                 outcome: Result<seq<byte>, Error>)

  /**
   * `while not response`: one `next_chunk`, then the URI copied back to the
   * file, then the progress handler (`halt` when it raises); the loop ends on
   * the first non-empty reply body.
   */
  function Drive(s: Session, fileUri: Option<string>, m: Media, metadata: Metadata, md5: seq<byte> -> string,
                 http: Request -> Response, halt: UploadProgress -> bool): UploadRun
    requires WellFormed(s) && m.chunkSize > 0 && FinishesFinalChunk(http)
    decreases Remaining(s.progress, |m.data|)
  {
    var step := ChunkStep(s, m, metadata, md5, http);
    match step.out
    case Failure(e) => UploadRun(step.next, fileUri, [], Failure(e))
    case Success(reply) =>
      var uri := Some(reply.status.resumableUri);
      if halt(reply.status) then UploadRun(step.next, uri, [reply.status], Failure(Aborted))
      else if reply.body != [] then UploadRun(step.next, uri, [reply.status], Success(reply.body))
      else
        ChunkStepProgresses(s, m, metadata, md5, http);
        var rest := Drive(step.next, uri, m, metadata, md5, http, halt);
        rest.(reports := [reply.status] + rest.reports)
  }

  /** One turn of the upload loop. */
  lemma DriveTurn(s: Session, fileUri: Option<string>, m: Media, metadata: Metadata,
      md5: seq<byte> -> string, http: Request -> Response, halt: UploadProgress -> bool)
    requires WellFormed(s) && m.chunkSize > 0 && FinishesFinalChunk(http)
    ensures var step := ChunkStep(s, m, metadata, md5, http);
      var r := Drive(s, fileUri, m, metadata, md5, http, halt);
      && (step.out.Failure? ==> r == UploadRun(step.next, fileUri, [], Failure(step.out.error)))
      && (step.out.Success? ==>
            var status := step.out.value.status;
            var uri := Some(status.resumableUri);
            if halt(status) then r == UploadRun(step.next, uri, [status], Failure(Aborted))
            else if step.out.value.body != [] then r == UploadRun(step.next, uri, [status], Success(step.out.value.body))
            else
              && Remaining(step.next.progress, |m.data|) < Remaining(s.progress, |m.data|)
              && var rest := Drive(step.next, uri, m, metadata, md5, http, halt);
                 r == rest.(reports := [status] + rest.reports))
  {
    var step := ChunkStep(s, m, metadata, md5, http);
    if step.out.Success? && !halt(step.out.value.status) && step.out.value.body == [] {
      ChunkStepProgresses(s, m, metadata, md5, http);
    }
  }

  /**
   * The upload loop returns the body of the finishing reply only when it is
   * not empty, and only after at least one report.
   */
  lemma {:induction false} DriveSucceedsWithBody(s: Session, fileUri: Option<string>, m: Media, metadata: Metadata,
      md5: seq<byte> -> string, http: Request -> Response, halt: UploadProgress -> bool)
    requires WellFormed(s) && m.chunkSize > 0 && FinishesFinalChunk(http)
    ensures var r := Drive(s, fileUri, m, metadata, md5, http, halt);
      r.outcome.Success? ==> r.outcome.value != [] && r.reports != []
    decreases Remaining(s.progress, |m.data|)
  {
    DriveTurn(s, fileUri, m, metadata, md5, http, halt);
    var step := ChunkStep(s, m, metadata, md5, http);
    if step.out.Success? && !halt(step.out.value.status) && step.out.value.body == [] {
      DriveSucceedsWithBody(step.next, Some(step.out.value.status.resumableUri), m, metadata, md5, http, halt);
    }
  }

  /**
   * The server answers a 308 to a chunk that carries bytes (or claims a
   * negative length) with an empty body. `next_chunk` returns the body of a
   * 308 as it is, and the upload loop stops on any non-empty body.
   */
  ghost predicate AcksCarryNoBody(http: Request -> Response) {
    forall uri: string, p: nat, n: int, size: nat, content: seq<byte> ::
      n != 0 && http(ChunkRequest(uri, p, n, size, content)).status == 308 ==>
        http(ChunkRequest(uri, p, n, size, content)).body == []
  }

  /** Under `AcksCarryNoBody`, a chunk whose reply has a body leaves the whole file uploaded. */
  lemma FinishingChunkAtSize(s: Session, m: Media, metadata: Metadata, md5: seq<byte> -> string,
      http: Request -> Response)
    requires WellFormed(s) && m.chunkSize > 0 && AcksCarryNoBody(http)
    ensures var r := ChunkStep(s, m, metadata, md5, http);
      r.out.Success? && r.out.value.body != [] ==> r.out.value.status.resumableProgress == |m.data|
  {
    var pr := ProbeStep(s, m, metadata, http);
    if pr.out.Success? {
      var u := UriStep(pr.next, metadata, http);
      if u.out.Success? {
        var p := u.next.progress.value;
        var n := ChunkLength(|m.data|, p, m.chunkSize);
        assert NextRequest(u.next, m) == ChunkRequest(u.next.resumableUri.value, p, n, |m.data|, GetBytes(m.data, p, n));
      }
    }
  }

  /**
   * Under `AcksCarryNoBody`, an upload loop that succeeds has reported the
   * whole file as uploaded.
   */
  lemma {:induction false} DriveSucceedsAtSize(s: Session, fileUri: Option<string>, m: Media, metadata: Metadata,
      md5: seq<byte> -> string, http: Request -> Response, halt: UploadProgress -> bool)
    requires WellFormed(s) && m.chunkSize > 0 && FinishesFinalChunk(http) && AcksCarryNoBody(http)
    ensures var r := Drive(s, fileUri, m, metadata, md5, http, halt);
      r.outcome.Success? ==> r.reports != [] && r.reports[|r.reports| - 1].resumableProgress == |m.data|
    decreases Remaining(s.progress, |m.data|)
  {
    DriveTurn(s, fileUri, m, metadata, md5, http, halt);
    var step := ChunkStep(s, m, metadata, md5, http);
    if step.out.Success? {
      var status := step.out.value.status;
      if !halt(status) && step.out.value.body == [] {
        var uri := Some(status.resumableUri);
        DriveSucceedsAtSize(step.next, uri, m, metadata, md5, http, halt);
        var rest := Drive(step.next, uri, m, metadata, md5, http, halt);
        if rest.reports != [] {
          LastOfPrepend(status, rest.reports);
        }
      } else if !halt(status) {
        FinishingChunkAtSize(s, m, metadata, md5, http);
      }
    }
  }

  /** An abort is the progress handler rejecting the last report. */
  lemma {:induction false} DriveAbortsOnHandler(s: Session, fileUri: Option<string>, m: Media, metadata: Metadata,
      md5: seq<byte> -> string, http: Request -> Response, halt: UploadProgress -> bool)
    requires WellFormed(s) && m.chunkSize > 0 && FinishesFinalChunk(http)
    ensures var r := Drive(s, fileUri, m, metadata, md5, http, halt);
      r.outcome == Failure(Aborted) ==> r.reports != [] && halt(r.reports[|r.reports| - 1])
    decreases Remaining(s.progress, |m.data|)
  {
    var step := ChunkStep(s, m, metadata, md5, http);
    if step.out.Success? {
      var reply := step.out.value;
      var uri := Some(reply.status.resumableUri);
      if !halt(reply.status) && reply.body == [] {
        ChunkStepProgresses(s, m, metadata, md5, http);
        DriveAbortsOnHandler(step.next, uri, m, metadata, md5, http, halt);
        AbortsOnHandlerPrepend(reply.status, Drive(step.next, uri, m, metadata, md5, http, halt), halt);
      } else if halt(reply.status) {
        assert Drive(s, fileUri, m, metadata, md5, http, halt).reports == [reply.status];
      }
    }
  }

  ghost predicate AbortsOnHandler(r: UploadRun, halt: UploadProgress -> bool) {
    r.outcome == Failure(Aborted) ==> r.reports != [] && halt(r.reports[|r.reports| - 1])
  }

  lemma AbortsOnHandlerPrepend(status: UploadProgress, rest: UploadRun, halt: UploadProgress -> bool)
    requires AbortsOnHandler(rest, halt)
    ensures AbortsOnHandler(rest.(reports := [status] + rest.reports), halt)
  {
    if rest.reports != [] {
      LastOfPrepend(status, rest.reports);
    }
  }

  /**
   * The file keeps the URI of the last report, and its own URI when the loop
   * raised before the first report (which is then a failure).
   */
  lemma {:induction false} DriveKeepsLastUri(s: Session, fileUri: Option<string>, m: Media, metadata: Metadata,
      md5: seq<byte> -> string, http: Request -> Response, halt: UploadProgress -> bool)
    requires WellFormed(s) && m.chunkSize > 0 && FinishesFinalChunk(http)
    ensures KeepsLastUri(Drive(s, fileUri, m, metadata, md5, http, halt), fileUri)
    decreases Remaining(s.progress, |m.data|)
  {
    var step := ChunkStep(s, m, metadata, md5, http);
    if step.out.Success? {
      var reply := step.out.value;
      var uri := Some(reply.status.resumableUri);
      if !halt(reply.status) && reply.body == [] {
        ChunkStepProgresses(s, m, metadata, md5, http);
        DriveKeepsLastUri(step.next, uri, m, metadata, md5, http, halt);
        KeepsLastUriPrepend(reply.status, Drive(step.next, uri, m, metadata, md5, http, halt), fileUri);
      } else {
        var r := Drive(s, fileUri, m, metadata, md5, http, halt);
        assert r.reports == [reply.status] && r.fileUri == uri;
      }
    } else {
      assert Drive(s, fileUri, m, metadata, md5, http, halt) == UploadRun(step.next, fileUri, [], Failure(step.out.error));
    }
  }

  ghost predicate KeepsLastUri(r: UploadRun, fileUri: Option<string>) {
    && (r.reports == [] ==> r.fileUri == fileUri && r.outcome.Failure?)
    && (r.reports != [] ==> r.fileUri == Some(r.reports[|r.reports| - 1].resumableUri))
  }

  lemma KeepsLastUriPrepend(status: UploadProgress, rest: UploadRun, fileUri: Option<string>)
    requires KeepsLastUri(rest, Some(status.resumableUri))
    ensures KeepsLastUri(rest.(reports := [status] + rest.reports), fileUri)
  {
    if rest.reports != [] {
      LastOfPrepend(status, rest.reports);
    }
  }

  ghost predicate CarrySize(reports: seq<UploadProgress>, size: nat) {
    forall i :: 0 <= i < |reports| ==> reports[i].totalSize == size
  }

  lemma CarrySizePrepend(x: UploadProgress, reports: seq<UploadProgress>, size: nat)
    requires x.totalSize == size && CarrySize(reports, size)
    ensures CarrySize([x] + reports, size)
  {
    forall i | 0 <= i < |[x] + reports|
      ensures ([x] + reports)[i].totalSize == size
    {
      if i > 0 {
        assert ([x] + reports)[i] == reports[i - 1];
      }
    }
  }

  /** Every snapshot handed to the progress handler carries the size of the whole file. */
  lemma {:induction false} DriveReportsTotalSize(s: Session, fileUri: Option<string>, m: Media, metadata: Metadata,
      md5: seq<byte> -> string, http: Request -> Response, halt: UploadProgress -> bool)
    requires WellFormed(s) && m.chunkSize > 0 && FinishesFinalChunk(http)
    ensures CarrySize(Drive(s, fileUri, m, metadata, md5, http, halt).reports, |m.data|)
    decreases Remaining(s.progress, |m.data|)
  {
    DriveTurn(s, fileUri, m, metadata, md5, http, halt);
    var step := ChunkStep(s, m, metadata, md5, http);
    if step.out.Success? && !halt(step.out.value.status) && step.out.value.body == [] {
      var uri := Some(step.out.value.status.resumableUri);
      DriveReportsTotalSize(step.next, uri, m, metadata, md5, http, halt);
      CarrySizePrepend(step.out.value.status, Drive(step.next, uri, m, metadata, md5, http, halt).reports, |m.data|);
    }
  }

  /**
   * Uploading two equal chunks with a handler that aborts on the first
   * report: the run stops after one chunk, the reported progress is the
   * chunk size, and the file keeps the session URI to resume from.
   */
  lemma AbortAfterFirstOfTwoChunks(data: seq<byte>, c: nat, metadata: Metadata, md5: seq<byte> -> string,
      http: Request -> Response, uri: string, halt: UploadProgress -> bool)
    requires c > 0 && |data| == 2 * c && FinishesFinalChunk(http)
    requires http(InitiationRequest(metadata)) == Response(200, map["location" := uri], [])
    requires http(ProbeRequest(uri, 2 * c)).status == 308 && "range" !in http(ProbeRequest(uri, 2 * c)).headers
    requires Acknowledges(http(ChunkRequest(uri, 0, c, 2 * c, data[..c])), md5(data[..c]))
    requires forall p :: halt(p)
    ensures var r := Drive(Initial(None), None, Media(data, c), metadata, md5, http, halt);
      r.reports == [UploadProgress(c, 2 * c, uri)] && r.outcome == Failure(Aborted) && r.fileUri == Some(uri)
  {
    FirstOfTwoEqualChunks(data, c, metadata, md5, http, uri);
  }

  /** How `upload` ends for the file: the exception, or the `id` and `name` it takes over. */
  datatype Settled = Settled(outcome: Outcome<Error>, id: Option<string>, name: string)

  /** The finished upload's reply read as JSON: its `id` and `name` fields, where present. */
  datatype FileReply = FileReply(id: Option<string>, name: Option<string>)

  /**
   * After the loop: `self.id = result['id']` and then
   * `self.name = result['name']`, each raising `KeyError` when its field is
   * missing, so a reply with an `id` and no `name` still sets the id.
   */
  function Settle(result: Result<seq<byte>, Error>, decode: seq<byte> -> Option<FileReply>,
                  id: Option<string>, name: string): (r: Settled)
    ensures result.Failure? ==> r == Settled(Fail(result.error), id, name)
    ensures result.Success? ==>
      var reply := decode(result.value);
      && (r.outcome.Pass? <==> reply.Some? && reply.value.id.Some? && reply.value.name.Some?)
      && (reply.None? ==> r == Settled(Fail(BadReply), id, name))
      && (reply.Some? && reply.value.id.Some? ==> r.id == reply.value.id)
      && (reply.Some? && reply.value.id.None? ==> r == Settled(Fail(MissingField("id")), id, name))
      && (reply.Some? && reply.value.id.Some? && reply.value.name.None? ==> r.outcome == Fail(MissingField("name")) && r.name == name)
      && (r.outcome.Pass? ==> r.name == reply.value.name.value)
  {
    match result
    case Failure(e) => Settled(Fail(e), id, name)
    case Success(body) =>
      match decode(body)
      case None => Settled(Fail(BadReply), id, name)
      case Some(reply) =>
        if reply.id.None? then Settled(Fail(MissingField("id")), id, name)
        else if reply.name.None? then Settled(Fail(MissingField("name")), reply.id, name)
        else Settled(Pass, reply.id, reply.name.value)
  }

  class DriveFile {
    var id: Option<string>
    var name: string
    var parentIds: seq<string>
    var resumableUri: Option<string>

    constructor (parentIds: seq<string>, name: string, id: Option<string>, resumableUri: Option<string>)
      ensures this.parentIds == parentIds && this.name == name && this.id == id
      ensures this.resumableUri == resumableUri
    {
      this.parentIds := parentIds;
      this.name := name;
      this.id := id;
      this.resumableUri := resumableUri;
    }

    /**
     * `download`: `local` is the local file (empty when it does not exist),
     * `remoteSize` the size the Drive metadata reports. Returns the local
     * file afterwards, which keeps what was appended even when the loop raises.
     */
    method Download(local: seq<byte>, remoteSize: nat, chunkSize: int,
                    http: Request -> Response, halt: nat -> bool) returns (sink: seq<byte>, outcome: Outcome<Error>)
      requires Advances(http, DownloadUrl(id), chunkSize)
      ensures var t := Fetch(DownloadUrl(id), |local|, remoteSize, chunkSize, http, halt);
        sink == local + t.written && outcome == t.outcome
    {
      var url := DownloadUrl(id);
      ghost var whole := Fetch(url, |local|, remoteSize, chunkSize, http, halt);
      var offset := |local|;
      sink := local;
      while offset < remoteSize
        invariant offset >= |local|
        invariant var rest := Fetch(url, offset, remoteSize, chunkSize, http, halt);
          sink + rest.written == local + whole.written && rest.outcome == whole.outcome
        decreases remoteSize - offset
      {
        ghost var here := Fetch(url, offset, remoteSize, chunkSize, http, halt);
        ghost var before := sink;
        var resp := http(RangeRequest(url, offset, chunkSize));
        if resp.status != 206 {
          assert here == Transfer([], offset, Fail(HttpError(resp.status)));
          assert sink + here.written == sink;
          return sink, Fail(HttpError(resp.status));
        }
        if "content-length" !in resp.headers {
          assert here == Transfer(resp.body, offset, Fail(MissingHeader("content-length")));
          return sink + resp.body, Fail(MissingHeader("content-length"));
        }
        var len := ParseNat(resp.headers["content-length"]);
        if len.None? {
          assert here == Transfer(resp.body, offset, Fail(NotANumber(resp.headers["content-length"])));
          return sink + resp.body, Fail(NotANumber(resp.headers["content-length"]));
        }
        sink := sink + resp.body;
        assert DeclaredLength(resp) == len;
        offset := offset + len.value;
        if halt(offset) {
          assert here == Transfer(resp.body, offset, Fail(Aborted));
          return sink, Fail(Aborted);
        }
        ghost var rest := Fetch(url, offset, remoteSize, chunkSize, http, halt);
        assert here == Transfer(resp.body + rest.written, rest.offset, rest.outcome);
        Regroup(before, resp.body, rest.written);
      }
      outcome := Pass;
    }

    /**
     * `upload`: `data` is the local file, `decode` stands for `json.loads`
     * of the finished reply (`None` when it is not JSON). Returns the snapshots handed to
     * the progress handler.
     */
    method Upload(data: seq<byte>, chunkSize: nat, givenUri: Option<string>, md5: seq<byte> -> string,
                  http: Request -> Response, halt: UploadProgress -> bool,
                  decode: seq<byte> -> Option<FileReply>)
      returns (reports: seq<UploadProgress>, outcome: Outcome<Error>)
      requires chunkSize > 0 && FinishesFinalChunk(http)
      modifies this
      ensures var start := if Truthy(givenUri) then givenUri else old(resumableUri);
        var run := Drive(Session(None, start, None, None), start, Media(data, chunkSize),
                         Metadata(old(name), old(parentIds)), md5, http, halt);
        && reports == run.reports && resumableUri == run.fileUri
        && Settled(outcome, id, name) == Settle(run.outcome, decode, old(id), old(name))
      ensures parentIds == old(parentIds)
    {
      var media := Media(data, chunkSize);
      var metadata := Metadata(name, parentIds);
      var request := new ResumableUploadRequest(media, metadata, md5, None);
      if Truthy(givenUri) {
        resumableUri := givenUri;
      }
      request.SetResumableUri(resumableUri);
      ghost var start := resumableUri;
      ghost var whole := Drive(request.State(), start, media, metadata, md5, http, halt);
      reports := [];
      var body: seq<byte> := [];
      while body == []
        invariant request.Valid() && request.media == media && request.metadata == metadata && request.md5 == md5
        invariant name == old(name) && id == old(id) && parentIds == old(parentIds)
        invariant body == [] ==>
          var rest := Drive(request.State(), resumableUri, media, metadata, md5, http, halt);
          whole == rest.(reports := reports + rest.reports)
        invariant body != [] ==>
          whole == UploadRun(request.State(), resumableUri, reports, Success(body))
        decreases if body == [] then 1 else 0, Remaining(request.progress, |data|)
      {
        ghost var before := request.State();
        ghost var uri := resumableUri;
        var r := request.NextChunk(http);
        DriveTurn(before, uri, media, metadata, md5, http, halt);
        if r.Failure? {
          outcome := Fail(r.error);
          return;
        }
        var status := r.value.status;
        resumableUri := Some(status.resumableUri);
        if halt(status) {
          reports := reports + [status];
          outcome := Fail(Aborted);
          return;
        }
        body := r.value.body;
        if body == [] {
          Regroup(reports, [status], Drive(request.State(), resumableUri, media, metadata, md5, http, halt).reports);
        }
        reports := reports + [status];
      }
      outcome := TakeReply(body, decode);
    }

    /** `json.loads` of the finished reply, then `self.id = result['id']` and `self.name = result['name']`. */
    method TakeReply(body: seq<byte>, decode: seq<byte> -> Option<FileReply>) returns (outcome: Outcome<Error>)
      modifies this
      ensures Settled(outcome, id, name) == Settle(Success(body), decode, old(id), old(name))
      ensures parentIds == old(parentIds) && resumableUri == old(resumableUri)
    {
      var decoded := decode(body);
      if decoded.None? {
        return Fail(BadReply);
      }
      if decoded.value.id.None? {
        return Fail(MissingField("id"));
      }
      id := decoded.value.id;
      if decoded.value.name.None? {
        return Fail(MissingField("name"));
      }
      name := decoded.value.name.value;
      outcome := Pass;
    }
  }
}
