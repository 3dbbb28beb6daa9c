/**
 * The resumable upload session of `ResumableUploadRequest`: a lazily opened
 * session URI, a lazily probed progress, and a running MD5 that every chunk
 * the server acknowledges with status 308 must match.
 *
 * Each operation is first given as a step function on a `Session` value (the
 * four fields the object updates), and the class `ResumableUploadRequest`
 * below performs the same steps in place.
 */
module Upload {
  import opened Common
  import opened Decimal
  import opened Http

  const INITIATE_URL: string := "https://www.googleapis.com/upload/drive/v3/files?uploadType=resumable"
  const JSON_CONTENT_TYPE: string := "application/json; charset=UTF-8"
  const RANGE_PREFIX: string := "bytes=0-"

  /** The session URI that an upload id stands for. */
  function UploadIdUri(id: string): string {
    INITIATE_URL + "&upload_id=" + id
  }

  /** The local file behind `MediaFileUpload`: `size()` is `|data|`. */
  datatype Media = Media(data: seq<byte>, chunkSize: nat)

  /**
   * The fields of the object: `_upload_id`, `_resumable_uri`,
   * `_resumable_progress`, and the bytes fed so far to `_range_md5`
   * (`None` before the MD5 object exists).
   */
  datatype Session = Session(
    uploadId: Option<string>,
    resumableUri: Option<string>,
    progress: Option<nat>,
    fed: Option<seq<byte>>)

  /** The session after one operation, and what the operation returned or raised. */
  datatype Step<+T> = Step(next: Session, out: Result<T, Error>)

  /** `ResumableMediaUploadProgress`: the snapshot handed to the progress handler. */
  datatype UploadProgress = UploadProgress(resumableProgress: nat, totalSize: nat, resumableUri: string)

  /** What `next_chunk` returns: the snapshot and the reply body. */
  datatype ChunkReply = ChunkReply(status: UploadProgress, body: seq<byte>)

  /** Python truthiness of an optional string. */
  predicate Truthy(id: Option<string>) {
    id.Some? && id.value != ""
  }

  /** The MD5 object is created only after the progress is known. */
  predicate WellFormed(s: Session) {
    s.fed.Some? ==> s.progress.Some?
  }

  /** The running digest covers exactly the bytes below the progress. */
  ghost predicate Synced(s: Session, data: seq<byte>) {
    s.fed.Some? ==> s.progress.Some? && s.fed.value == data[..Min(s.progress.value, |data|)]
  }

  // ---------------------------------------------------------------------
  // Construction and the two setters

  /** The `upload_id` setter: a truthy id also fixes the session URI. */
  function WithUploadId(s: Session, id: Option<string>): Session {
    if Truthy(id) then s.(uploadId := id, resumableUri := Some(UploadIdUri(id.value)))
    else s.(uploadId := id)
  }

  /** The object as `__init__` is evidently meant to leave it. */
  function Initial(id: Option<string>): Session {
    WithUploadId(Session(None, None, None, None), id)
  }

  /**
   * The object as `__init__` leaves it: the setter runs first, and the
   * following `self._resumable_uri = None` discards the URI it derived.
   */
  function InitialAsWritten(id: Option<string>): Session {
    WithUploadId(Session(None, None, None, None), id).(resumableUri := None)
  }

  // ---------------------------------------------------------------------
  // The `resumable_uri` getter

  function InitiationRequest(metadata: Metadata): Request {
    Post(INITIATE_URL, JSON_CONTENT_TYPE, metadata)
  }

  /** Returns the cached URI, or opens a session with a POST and caches its `location`. */
  function UriStep(s: Session, metadata: Metadata, http: Request -> Response): (r: Step<string>)
    ensures s.resumableUri.Some? ==> r == Step(s, Success(s.resumableUri.value))
    ensures r.out.Success? ==> r.next == s.(resumableUri := Some(r.out.value))
    ensures r.out.Failure? ==> r.next == s && !r.out.error.Aborted?
    ensures s.resumableUri.None? ==>
      var resp := http(InitiationRequest(metadata));
      && (r.out.Success? <==> resp.status == 200 && "location" in resp.headers)
      && (r.out.Success? ==> r.out.value == resp.headers["location"])
      && (resp.status != 200 ==> r.out == Failure(StatusError(resp.status)))
      && (resp.status == 200 && "location" !in resp.headers ==> r.out == Failure(MissingHeader("location")))
  {
    if s.resumableUri.Some? then Step(s, Success(s.resumableUri.value))
    else
      var resp := http(InitiationRequest(metadata));
      if resp.status != 200 then Step(s, Failure(StatusError(resp.status)))
      else if "location" !in resp.headers then Step(s, Failure(MissingHeader("location")))
      else Step(s.(resumableUri := Some(resp.headers["location"])), Success(resp.headers["location"]))
  }

  // ---------------------------------------------------------------------
  // The `resumable_progress` getter

  /** `str.replace(pat, '', 1)`: drop the first occurrence of `pat`, if any. */
  function RemoveFirst(s: string, pat: string): string
    decreases |s|
  {
    if |s| < |pat| then s
    else if s[..|pat|] == pat then s[|pat|..]
    else [s[0]] + RemoveFirst(s[1..], pat)
  }

  /** `int(range.replace('bytes=0-', '', 1)) + 1`. */
  function ProgressFromRange(range: string): Result<nat, Error> {
    var text := RemoveFirst(range, RANGE_PREFIX);
    match ParseNat(text)
    case Some(last) => Success(last + 1)
    case None => Failure(NotANumber(text))
  }

  /** The zero-length PUT asking how much the server holds. */
  function ProbeRequest(uri: string, size: nat): Request {
    Put(uri, "0", "bytes */" + NatToString(size), [])
  }

  /** Interprets the reply to the probe. */
  function HandleProbeReply(s: Session, size: nat, resp: Response): (r: Step<nat>)
    ensures r.out.Success? ==> r.next == s.(progress := Some(r.out.value))
    ensures r.out.Failure? ==> r.next == s && !r.out.error.Aborted?
  {
    if resp.status != 200 && resp.status != 308 then Step(s, Failure(StatusError(resp.status)))
    else if resp.status == 200 then Step(s.(progress := Some(size)), Success(size))
    else if "range" in resp.headers then
      match ProgressFromRange(resp.headers["range"])
      case Success(p) => Step(s.(progress := Some(p)), Success(p))
      case Failure(e) => Step(s, Failure(e))
    else Step(s.(progress := Some(0)), Success(0))
  }

  /** Returns the cached progress, or obtains the URI and probes the server. */
  function ProbeStep(s: Session, m: Media, metadata: Metadata, http: Request -> Response): (r: Step<nat>)
    ensures s.progress.Some? ==> r == Step(s, Success(s.progress.value))
    ensures r.out.Success? ==> r.next.progress == Some(r.out.value)
    ensures r.next.fed == s.fed && r.next.uploadId == s.uploadId
    ensures r.out.Failure? ==> r.next.progress == s.progress && !r.out.error.Aborted?
  {
    if s.progress.Some? then Step(s, Success(s.progress.value))
    else
      var u := UriStep(s, metadata, http);
      if u.out.Failure? then Step(u.next, Failure(u.out.error))
      else HandleProbeReply(u.next, |m.data|, http(ProbeRequest(u.out.value, |m.data|)))
  }

  // ---------------------------------------------------------------------
  // `next_chunk`

  /** `min(size - progress, chunksize)`: the bytes the next chunk carries. */
  function ChunkLength(size: nat, progress: nat, chunkSize: nat): (n: int)
    ensures n <= chunkSize && n <= size - progress
    ensures n == chunkSize || n == size - progress
    ensures progress <= size ==> 0 <= n && progress + n <= size
    ensures progress + n >= 0
    ensures chunkSize > 0 && progress < size ==> n > 0
  {
    Min(size - progress, chunkSize)
  }

  /**
   * `media_body.getbytes(begin, length)`: seek to `begin` and read `length`
   * bytes, or everything up to the end when `length` is negative.
   */
  function GetBytes(data: seq<byte>, begin: nat, length: int): seq<byte> {
    var lo := Min(begin, |data|);
    if length < 0 then data[lo..] else data[lo..Min(begin + length, |data|)]
  }

  /** `bytes {first}-{last}/{size}` for a chunk of `n` bytes at `progress`. */
  function ChunkRange(progress: nat, n: int, size: nat): string {
    "bytes " + NatToString(progress) + "-" + IntToString(progress + n - 1) + "/" + NatToString(size)
  }

  function ChunkRequest(uri: string, progress: nat, n: int, size: nat, content: seq<byte>): Request {
    Put(uri, IntToString(n), ChunkRange(progress, n, size), content)
  }

  /** The chunk PUT that a session with known progress and URI sends next. */
  function NextRequest(s: Session, m: Media): Request
    requires s.progress.Some? && s.resumableUri.Some?
  {
    var p := s.progress.value;
    var n := ChunkLength(|m.data|, p, m.chunkSize);
    ChunkRequest(s.resumableUri.value, p, n, |m.data|, GetBytes(m.data, p, n))
  }

  /** The bytes in the MD5 object before this chunk: seeded with `[0, progress)` on first use. */
  function Seeded(s: Session, data: seq<byte>): seq<byte>
    requires s.progress.Some?
  {
    if s.fed.None? then GetBytes(data, 0, s.progress.value) else s.fed.value
  }

  /** Interprets the reply to a chunk PUT. */
  function HandleChunkReply(s: Session, m: Media, md5: seq<byte> -> string, resp: Response): (r: Step<ChunkReply>)
    requires s.progress.Some? && s.resumableUri.Some?
    ensures r.next.uploadId == s.uploadId && r.next.resumableUri == s.resumableUri
    ensures resp.status != 200 && resp.status != 308 ==> r == Step(s, Failure(StatusError(resp.status)))
    ensures r.out.Failure? ==> r.next.progress == s.progress && !r.out.error.Aborted?
    ensures r.out.Success? ==>
      r.next.progress.Some? && r.out.value.status == UploadProgress(r.next.progress.value, |m.data|, s.resumableUri.value)
    ensures r.out.Success? && s.progress.value <= |m.data| ==>
      s.progress.value <= r.next.progress.value <= |m.data|
    ensures r.out.Success? ==> r.out.value.body == resp.body
    ensures resp.status == 308 && "x-range-md5" !in resp.headers ==> r.out == Failure(MissingHeader("x-range-md5"))
  {
    var p := s.progress.value;
    var size := |m.data|;
    var n := ChunkLength(size, p, m.chunkSize);
    if resp.status != 200 && resp.status != 308 then Step(s, Failure(StatusError(resp.status)))
    else if resp.status == 308 then
      var fed := Seeded(s, m.data) + GetBytes(m.data, p, n);
      var s1 := s.(fed := Some(fed));
      if "x-range-md5" !in resp.headers then Step(s1, Failure(MissingHeader("x-range-md5")))
      else if resp.headers["x-range-md5"] != md5(fed) then Step(s1, Failure(ChecksumMismatch))
      else Step(s1.(progress := Some(p + n)),
                Success(ChunkReply(UploadProgress(p + n, size, s.resumableUri.value), resp.body)))
    else
      Step(s.(progress := Some(size)),
           Success(ChunkReply(UploadProgress(size, size, s.resumableUri.value), resp.body)))
  }

  /** `next_chunk`: probe if needed, send the chunk, interpret the reply. */
  function ChunkStep(s: Session, m: Media, metadata: Metadata, md5: seq<byte> -> string,
                     http: Request -> Response): (r: Step<ChunkReply>)
    ensures WellFormed(s) ==> WellFormed(r.next)
    ensures r.next.uploadId == s.uploadId
    ensures r.out.Success? ==> r.next.resumableUri == Some(r.out.value.status.resumableUri)
    ensures r.out.Success? ==> r.next.progress == Some(r.out.value.status.resumableProgress)
    ensures r.out.Success? ==> r.out.value.status.totalSize == |m.data|
    ensures r.out.Failure? ==> !r.out.error.Aborted?
  {
    var pr := ProbeStep(s, m, metadata, http);
    if pr.out.Failure? then Step(pr.next, Failure(pr.out.error))
    else
      var u := UriStep(pr.next, metadata, http);
      if u.out.Failure? then Step(u.next, Failure(u.out.error))
      else HandleChunkReply(u.next, m, md5, http(NextRequest(u.next, m)))
  }

  // ---------------------------------------------------------------------
  // Properties

  lemma RemoveFirstOfPrefixed(t: string)
    ensures RemoveFirst(RANGE_PREFIX + t, RANGE_PREFIX) == t
  {
    assert (RANGE_PREFIX + t)[..|RANGE_PREFIX|] == RANGE_PREFIX;
    assert (RANGE_PREFIX + t)[|RANGE_PREFIX|..] == t;
  }

  /** Different upload ids name different sessions. */
  lemma UploadIdUriInjective(a: string, b: string)
    requires UploadIdUri(a) == UploadIdUri(b)
    ensures a == b
  {
    var n := |INITIATE_URL + "&upload_id="|;
    assert UploadIdUri(a)[n..] == a;
    assert UploadIdUri(b)[n..] == b;
  }

  /** A range header `bytes=0-N` means the server holds `N + 1` bytes. */
  lemma RangeHeaderProgress(last: nat)
    ensures ProgressFromRange(RANGE_PREFIX + NatToString(last)) == Success(last + 1)
  {
    RemoveFirstOfPrefixed(NatToString(last));
    ParseNatToString(last);
  }

  /**
   * The probe, sent once the URI is known: status 200 means the whole file,
   * 308 with `bytes=0-N` means `N + 1`, 308 without a range means 0, and any
   * other status raises and leaves the session as it was.
   */
  lemma ProbeOutcomes(s: Session, m: Media, metadata: Metadata, http: Request -> Response, last: nat)
    requires s.progress.None? && UriStep(s, metadata, http).out.Success?
    ensures var u := UriStep(s, metadata, http);
      var resp := http(ProbeRequest(u.out.value, |m.data|));
      var r := ProbeStep(s, m, metadata, http);
      && (resp.status == 200 ==> r == Step(u.next.(progress := Some(|m.data|)), Success(|m.data|)))
      && (resp.status == 308 && "range" !in resp.headers ==> r == Step(u.next.(progress := Some(0)), Success(0)))
      && (resp.status == 308 && "range" in resp.headers && resp.headers["range"] == RANGE_PREFIX + NatToString(last) ==>
            r == Step(u.next.(progress := Some(last + 1)), Success(last + 1)))
      && (resp.status != 200 && resp.status != 308 ==> r == Step(u.next, Failure(StatusError(resp.status))))
  {
    RangeHeaderProgress(last);
  }

  lemma GetBytesPrefix(data: seq<byte>, k: nat)
    ensures GetBytes(data, 0, k) == data[..Min(k, |data|)]
  {
  }

  /**
   * The running digest after a 308 covers exactly the bytes
   * `[0, progress + n)`, seeded or not; the chunk is accepted exactly when
   * the server's `x-range-md5` is the MD5 of those bytes, and only then does
   * the progress advance, by exactly `n`.
   */
  lemma {:induction false} AcknowledgedChunk(s: Session, m: Media, md5: seq<byte> -> string, resp: Response)
    requires s.progress.Some? && s.resumableUri.Some? && Synced(s, m.data)
    requires resp.status == 308
    ensures var p := s.progress.value;
      var n := ChunkLength(|m.data|, p, m.chunkSize);
      var covered := m.data[..Min(p + n, |m.data|)];
      var r := HandleChunkReply(s, m, md5, resp);
      && r.next.fed == Some(covered)
      && (r.out.Success? <==> "x-range-md5" in resp.headers && resp.headers["x-range-md5"] == md5(covered))
      && (r.out.Success? ==> r.next.progress == Some(p + n) && Synced(r.next, m.data))
      && (r.out.Failure? ==> r.next.progress == Some(p))
      && (r.out.Failure? ==> r.out.error == if "x-range-md5" in resp.headers then ChecksumMismatch else MissingHeader("x-range-md5"))
  {
    var data := m.data;
    var p := s.progress.value;
    var n := ChunkLength(|data|, p, m.chunkSize);
    var seed := Seeded(s, data);
    assert seed == data[..Min(p, |data|)] by {
      if s.fed.None? { GetBytesPrefix(data, p); }
    }
    var content := GetBytes(data, p, n);
    if p <= |data| {
      assert content == data[p..p + n];
      assert seed + content == data[..p + n];
    } else {
      assert content == [];
      assert seed + content == data[..Min(p + n, |data|)];
    }
  }

  /**
   * After a 308 that is rejected, the digest already holds the rejected
   * chunk while the progress stays put: the same object cannot retry it.
   */
  lemma RejectedChunkLeavesDigestAhead(s: Session, m: Media, md5: seq<byte> -> string, resp: Response)
    requires s.progress.Some? && s.resumableUri.Some? && Synced(s, m.data)
    requires m.chunkSize > 0 && s.progress.value < |m.data|
    requires resp.status == 308 && HandleChunkReply(s, m, md5, resp).out.Failure?
    ensures !Synced(HandleChunkReply(s, m, md5, resp).next, m.data)
  {
    AcknowledgedChunk(s, m, md5, resp);
  }

  /** Status 200 completes the upload: progress becomes the file size, the digest is not consulted. */
  lemma CompletedChunk(s: Session, m: Media, md5: seq<byte> -> string, resp: Response)
    requires s.progress.Some? && s.resumableUri.Some?
    requires resp.status == 200
    ensures var r := HandleChunkReply(s, m, md5, resp);
      r.out.Success? && r.next.progress == Some(|m.data|) && r.next.fed == s.fed
  {
  }

  /** The chunk sent at progress `p <= size` is the `n` file bytes from `p` on, and its range declares them. */
  lemma ChunkRequestDeclaresChunk(s: Session, m: Media)
    requires s.progress.Some? && s.resumableUri.Some? && s.progress.value <= |m.data|
    ensures var p := s.progress.value;
      var n := ChunkLength(|m.data|, p, m.chunkSize);
      && 0 <= n && p + n <= |m.data|
      && NextRequest(s, m) == ChunkRequest(s.resumableUri.value, p, n, |m.data|, m.data[p..p + n])
  {
  }

  /** The server acknowledges a chunk with 308 and the MD5 of what it holds. */
  predicate Acknowledges(resp: Response, digest: string) {
    resp.status == 308 && "x-range-md5" in resp.headers && resp.headers["x-range-md5"] == digest
  }

  /**
   * Two equal chunks, uploaded through a fresh session: after the first,
   * the reported progress is the chunk size.
   */
  lemma {:induction false} FirstOfTwoEqualChunks(data: seq<byte>, c: nat, metadata: Metadata,
      md5: seq<byte> -> string, http: Request -> Response, uri: string)
    requires c > 0 && |data| == 2 * c
    requires http(InitiationRequest(metadata)) == Response(200, map["location" := uri], [])
    requires http(ProbeRequest(uri, 2 * c)).status == 308 && "range" !in http(ProbeRequest(uri, 2 * c)).headers
    requires Acknowledges(http(ChunkRequest(uri, 0, c, 2 * c, data[..c])), md5(data[..c]))
    ensures var r := ChunkStep(Initial(None), Media(data, c), metadata, md5, http);
      r.out.Success? && r.out.value.status == UploadProgress(c, 2 * c, uri) && Synced(r.next, data)
  {
    var m := Media(data, c);
    var s0 := Initial(None);
    var s1 := s0.(resumableUri := Some(uri));
    assert UriStep(s0, metadata, http) == Step(s1, Success(uri));
    var s2 := s1.(progress := Some(0));
    assert ProbeStep(s0, m, metadata, http) == Step(s2, Success(0));
    assert NextRequest(s2, m) == ChunkRequest(uri, 0, c, 2 * c, data[..c]);
    AcknowledgedChunk(s2, m, md5, http(NextRequest(s2, m)));
  }

  /**
   * Resuming the same file with a known session URI after the first of two
   * equal chunks: the probe reports `bytes=0-(c-1)`, the one chunk left is
   * the second half of the file, and a 200 reply completes the upload.
   */
  lemma {:induction false} ResumeSecondOfTwoChunks(data: seq<byte>, c: nat, metadata: Metadata,
      md5: seq<byte> -> string, http: Request -> Response, uri: string)
    requires c > 0 && |data| == 2 * c
    requires var probe := http(ProbeRequest(uri, 2 * c));
      probe.status == 308 && "range" in probe.headers && probe.headers["range"] == RANGE_PREFIX + NatToString(c - 1)
    requires http(ChunkRequest(uri, c, c, 2 * c, data[c..])).status == 200
    ensures var r := ChunkStep(Session(None, Some(uri), None, None), Media(data, c), metadata, md5, http);
      r.out.Success? && r.out.value.status == UploadProgress(2 * c, 2 * c, uri)
  {
    var m := Media(data, c);
    var s0 := Session(None, Some(uri), None, None);
    RangeHeaderProgress(c - 1);
    var s1 := s0.(progress := Some(c));
    assert ProbeStep(s0, m, metadata, http) == Step(s1, Success(c));
    assert NextRequest(s1, m) == ChunkRequest(uri, c, c, 2 * c, data[c..]);
  }

  /**
   * The constructor as written loses the URI of a given upload id, so the
   * first use of the URI opens a new session exactly as if no id had been
   * given; the corrected constructor resumes the given session without a
   * request.
   */
  lemma ConstructorDropsUploadId(id: string, metadata: Metadata, http: Request -> Response)
    requires id != ""
    ensures InitialAsWritten(Some(id)).uploadId == Some(id)
    ensures InitialAsWritten(Some(id)).resumableUri == None
    ensures UriStep(InitialAsWritten(Some(id)), metadata, http).out == UriStep(Initial(None), metadata, http).out
    ensures UriStep(Initial(Some(id)), metadata, http) == Step(Initial(Some(id)), Success(UploadIdUri(id)))
  {
  }

  // ---------------------------------------------------------------------
  // The object

  class ResumableUploadRequest {
    const media: Media
    const metadata: Metadata
    /** `hashlib.md5(...).hexdigest()` of all bytes fed. */
    const md5: seq<byte> -> string
    var uploadId: Option<string>
    var resumableUri: Option<string>
    var progress: Option<nat>
    var fed: Option<seq<byte>>

    function State(): Session
      reads this
    {
      Session(uploadId, resumableUri, progress, fed)
    }

    ghost predicate Valid()
      reads this
    {
      media.chunkSize > 0 && WellFormed(State())
    }

    /** `__init__`, keeping the URI of a given upload id. */
    constructor (media: Media, metadata: Metadata, md5: seq<byte> -> string, uploadId: Option<string>)
      requires media.chunkSize > 0
      ensures Valid() && State() == Initial(uploadId)
      ensures this.media == media && this.metadata == metadata && this.md5 == md5
    {
      this.media := media;
      this.metadata := metadata;
      this.md5 := md5;
      this.uploadId := uploadId;
      this.resumableUri := if Truthy(uploadId) then Some(UploadIdUri(uploadId.value)) else None;
      this.progress := None;
      this.fed := None;
    }

    /** The `upload_id` setter. */
    method SetUploadId(id: Option<string>)
      requires Valid()
      modifies this
      ensures Valid() && State() == WithUploadId(old(State()), id)
    {
      uploadId := id;
      if Truthy(id) {
        resumableUri := Some(UploadIdUri(id.value));
      }
    }

    /** The `resumable_uri` setter. */
    method SetResumableUri(uri: Option<string>)
      requires Valid()
      modifies this
      ensures Valid() && State() == old(State()).(resumableUri := uri)
    {
      resumableUri := uri;
    }

    /** The `resumable_uri` getter. */
    method ResumableUri(http: Request -> Response) returns (r: Result<string, Error>)
      requires Valid()
      modifies this
      ensures Valid() && Step(State(), r) == UriStep(old(State()), metadata, http)
    {
      if resumableUri.None? {
        var resp := http(InitiationRequest(metadata));
        if resp.status != 200 {
          return Failure(StatusError(resp.status));
        }
        if "location" !in resp.headers {
          return Failure(MissingHeader("location"));
        }
        resumableUri := Some(resp.headers["location"]);
      }
      r := Success(resumableUri.value);
    }

    /** The `resumable_progress` getter. */
    method ResumableProgress(http: Request -> Response) returns (r: Result<nat, Error>)
      requires Valid()
      modifies this
      ensures Valid() && Step(State(), r) == ProbeStep(old(State()), media, metadata, http)
    {
      if progress.None? {
        var uri := ResumableUri(http);
        if uri.Failure? {
          return Failure(uri.error);
        }
        var resp := http(ProbeRequest(uri.value, |media.data|));
        if resp.status != 200 && resp.status != 308 {
          return Failure(StatusError(resp.status));
        }
        if resp.status == 200 {
          progress := Some(|media.data|);
        } else if "range" in resp.headers {
          var p := ProgressFromRange(resp.headers["range"]);
          if p.Failure? {
            return Failure(p.error);
          }
          progress := Some(p.value);
        } else {
          progress := Some(0);
        }
      }
      r := Success(progress.value);
    }

    /** `next_chunk`. */
    method NextChunk(http: Request -> Response) returns (r: Result<ChunkReply, Error>)
      requires Valid()
      modifies this
      ensures Valid() && Step(State(), r) == ChunkStep(old(State()), media, metadata, md5, http)
    {
      var pr := ResumableProgress(http);
      if pr.Failure? {
        return Failure(pr.error);
      }
      var uri := ResumableUri(http);
      if uri.Failure? {
        return Failure(uri.error);
      }
      r := SendChunk(http);
    }

    /** The part of `next_chunk` after both getters: send the chunk and read the reply. */
    method SendChunk(http: Request -> Response) returns (r: Result<ChunkReply, Error>)
      requires Valid() && progress.Some? && resumableUri.Some?
      modifies this
      ensures Valid()
      ensures Step(State(), r) == HandleChunkReply(old(State()), media, md5, http(NextRequest(old(State()), media)))
    {
      var p := progress.value;
      var size := |media.data|;
      var n := ChunkLength(size, p, media.chunkSize);
      var content := GetBytes(media.data, p, n);
      var resp := http(Put(resumableUri.value, IntToString(n), ChunkRange(p, n, size), content));
      if resp.status != 200 && resp.status != 308 {
        return Failure(StatusError(resp.status));
      }
      if resp.status == 308 {
        if fed.None? {
          fed := Some(GetBytes(media.data, 0, p));
        }
        fed := Some(fed.value + content);
        if "x-range-md5" !in resp.headers {
          return Failure(MissingHeader("x-range-md5"));
        }
        if resp.headers["x-range-md5"] != md5(fed.value) {
          return Failure(ChecksumMismatch);
        }
        progress := Some(p + n);
      } else {
        progress := Some(size);
      }
      r := Success(ChunkReply(UploadProgress(progress.value, size, resumableUri.value), resp.body));
    }
  }
}
