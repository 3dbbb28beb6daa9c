# python-drivelib: resumable transfers, in Dafny

This project models the transfer core of python-drivelib's `drive.py`, a small client for Google Drive. It covers five pieces:

- **`ResumableUploadRequest`** runs a resumable upload session. It opens the session URI on demand with a POST. It probes the server's progress on demand with an empty PUT: status 200 means the whole file, 308 with `Range: bytes=0-N` means `N + 1`, and 308 without a range means 0. It then sends the file in chunks. Every chunk the server acknowledges with 308 must match a running MD5 of all bytes sent so far, and that digest is seeded once with the bytes the server already held.
- **`DriveFile.download`** appends range-request replies to a local file until the file is as large as the remote one.
- **`DriveFile.upload`** calls `next_chunk` until the server returns the finished file. After every chunk it copies the session URI back onto the file and hands the progress snapshot to the handler.
- **`DriveFolder._narrow_query`**, **`child`** and **`children`** build the Drive search queries.
- **`child_from_path`** and **`create_path`** walk a slash-separated path one name at a time.

Modules:

- `Common`: bytes, `Option`, `Result`, and small sequence lemmas.
- `Decimal`: the decimal text that `str(int)` writes and `int(str)` reads.
- `Http`: requests, replies and errors.
- `Upload`: the upload session.
  - The step functions `UriStep`, `ProbeStep` and `ChunkStep` work on a `Session` value, and the lemmas about the session are stated on them.
  - The class `ResumableUploadRequest` performs the same steps in place. Each of its methods is proved equal to the matching step function.
- `Files`: the class `DriveFile`.
  - `Download` is a `while` loop. It is proved equal to the recursive specification `Fetch`.
  - `Upload` is a `while` loop. It is proved equal to the recursive specification `Drive`.
- `Folders`: queries and paths.
  - A query is modelled twice: as the text the API receives, and as the list of clauses that text joins with ` and `.
  - `Selects` says which items a list of clauses matches.

The HTTP transport is a parameter, `http: Request -> Response`: one reply for each request. MD5 is a parameter too, `md5: seq<byte> -> string`, standing for the hex digest of all bytes fed. A progress handler that raises is modelled as a predicate `halt` that is true for the reports it rejects.

## Model

| member | source | states |
|---|---|---|
| Decimal.NatToString | drive.py:330 | `str(n)` is a non-empty string of digits with no leading zero |
| Decimal.ParseNat | drive.py:226 | `int(s)` succeeds exactly on non-empty digit strings |
| Decimal.ParseNatToString | drive.py:319 | reading back a number that `str` wrote gives the same number |
| Decimal.NatToStringInjective | drive.py:330 | different progress values are written as different header text |
| Decimal.IntToString | drive.py:216-217 | the last byte of a download range is written with a `-` exactly when it is negative, and its digits read back as the number |
| Upload.UriStep | drive.py:291-299 | a known session URI is returned with no request; otherwise the call succeeds exactly when the POST answers 200 with a `location`, which is then cached and returned; a status other than 200 raises with that status, a missing `location` raises `KeyError`, and a failure leaves the session unchanged |
| Upload.HandleProbeReply | drive.py:312-321 | a successful probe caches the progress it returns; a failed one leaves the session unchanged |
| Upload.ProbeStep | drive.py:306-322 | a cached progress is returned with no request; the probe never touches the digest or the upload id; a failure leaves the progress unset |
| Upload.ProbeOutcomes | drive.py:306-321 | once the URI getter succeeds (from the cache, or by a POST on a fresh session), the probe to that URI maps status 200 to the file size, 308 with `bytes=0-N` to `N + 1` and 308 without a range to 0, caching the result; any other status raises, leaving the session as the URI getter left it |
| Upload.RangeHeaderProgress | drive.py:317-319 | removing the `bytes=0-` prefix from the range header and adding one gives `N + 1` |
| Upload.RemoveFirst | drive.py:319 | `str.replace(pat, '', 1)`; its meaning on a range header is stated by `Upload.RemoveFirstOfPrefixed` |
| Upload.ProgressFromRange | drive.py:317-319 | `int(range.replace('bytes=0-', '', 1)) + 1`; `Upload.RangeHeaderProgress` proves it gives `N + 1` for every header `bytes=0-N` |
| Upload.RemoveFirstOfPrefixed | drive.py:319 | `replace('bytes=0-', '', 1)` on a prefixed header leaves exactly the number |
| Upload.ChunkLength | drive.py:329 | the chunk length is `min(size - progress, chunksize)`; when `progress <= size`, `progress + n` never passes the size; with bytes left and a positive chunk size, the chunk is not empty |
| Upload.ChunkRequestDeclaresChunk | drive.py:329-332 | the PUT carries the file bytes `[p, p + n)`, and its `Content-Range` declares exactly them |
| Upload.GetBytes | drive.py:331 | `media_body.getbytes(begin, length)`; `Upload.GetBytesPrefix` and `Upload.ChunkRequestDeclaresChunk` state which bytes it returns |
| Upload.GetBytesPrefix | drive.py:338 | `getbytes(0, progress)` is the first `progress` bytes of the file (the seed of the digest) |
| Upload.HandleChunkReply | drive.py:333-347 | a status other than 200 or 308 raises with the session unchanged; a 308 without `x-range-md5` raises `KeyError`; a failure never moves the progress; a success returns the server's reply body; the session URI and upload id are not changed |
| Upload.AcknowledgedChunk | drive.py:335-342 | after a 308 the digest covers exactly `[0, progress + n)`; the chunk is accepted exactly when `x-range-md5` equals that digest; only then does the progress advance, by exactly `n`, with digest and progress in step again; a rejection is a checksum mismatch when the header is present and a `KeyError` when it is absent |
| Upload.RejectedChunkLeavesDigestAhead | drive.py:336-341 | after a rejected 308 the digest already includes the chunk while the progress stays behind, so the session cannot be retried |
| Upload.CompletedChunk | drive.py:343-345 | status 200 sets the progress to the file size and leaves the digest unchecked and unchanged |
| Upload.ChunkStep | drive.py:328-347 | one `next_chunk`: it keeps the digest only once the progress is known; the snapshot it returns carries the new progress, the file size and the session URI; an error is never an abort |
| Upload.FirstOfTwoEqualChunks | tests/test_drive.py:204-211 | on a fresh session for a file of two equal chunks, the first acknowledged chunk reports progress equal to the chunk size, and the digest stays in step |
| Upload.ResumeSecondOfTwoChunks | drive.py:306-347 | resuming after the first of two chunks: the probe's `bytes=0-(c-1)` gives progress `c`, the second half is sent, and a 200 completes the upload |
| Upload.WithUploadId | drive.py:285-289 | the `upload_id` setter on the session; `Upload.ResumableUploadRequest.SetUploadId` performs it in place, and `Upload.UploadIdUriInjective` shows the URI it sets names the id |
| Upload.UploadIdUriInjective | drive.py:288-289 | different upload ids give different session URIs |
| Upload.InitialAsWritten | drive.py:270-277 | `__init__` as written; `Upload.ConstructorDropsUploadId` shows it drops the URI of a given id (see ## Findings) |
| Upload.Initial | drive.py:270-277 | corrected `__init__` (see ## Findings); `Upload.ConstructorDropsUploadId` shows it resumes a given id's session with no request |
| Upload.ConstructorDropsUploadId | drive.py:270-289 | as written, a given upload id leaves no session URI, so the first use opens a new session exactly as if no id had been given; as intended, the id's URI is used with no request |
| Upload.ResumableUploadRequest.constructor | drive.py:270-277 | corrected `__init__` (see ## Findings): the object starts in `Initial(upload_id)`, with no progress, no digest, and the URI derived from a truthy id |
| Upload.ResumableUploadRequest.SetUploadId | drive.py:285-289 | setting a truthy upload id also sets the session URI it names; other fields stay as they were |
| Upload.ResumableUploadRequest.SetResumableUri | drive.py:301-303 | only the session URI changes |
| Upload.ResumableUploadRequest.ResumableUri | drive.py:291-299 | the getter updates the object and returns exactly as `UriStep` does |
| Upload.ResumableUploadRequest.ResumableProgress | drive.py:306-322 | the getter updates the object and returns exactly as `ProbeStep` does |
| Upload.ResumableUploadRequest.NextChunk | drive.py:328-347 | `next_chunk` updates the object and returns exactly as `ChunkStep` does |
| Upload.ResumableUploadRequest.SendChunk | drive.py:330-347 | the second half of `next_chunk`, once progress and URI are known: it sends the next chunk and updates the object and returns exactly as `HandleChunkReply` does with that chunk's reply |
| Files.Fetch | drive.py:214-230 | the download loop never moves the offset backwards; it ends without error only once the offset reaches the remote size; with nothing left it makes no request |
| Files.FetchTurn | drive.py:215-230 | one turn of the download loop: a reply other than 206 raises `HttpError` with nothing written; a 206 writes its body; with a readable `content-length` the offset moves forward by exactly that much, then the handler either aborts or the loop goes on from the new offset |
| Files.FetchServedRemainder | drive.py:214-230 | against a server that serves the remote file, the loop appends exactly the rest of the file from the offset on and ends at the remote size |
| Files.DownloadCompletesPrefix | drive.py:201-230 | a local file that holds the start of the remote file is completed to exactly the remote file |
| Files.DriveFile.constructor | drive.py:197-199 | the file starts with the given parents, name, id and session URI |
| Files.DriveFile.Download | drive.py:201-230 | the loop appends what `Fetch` writes to the local file and ends with `Fetch`'s outcome; bytes appended before an error are kept |
| Files.ChunkStepProgresses | drive.py:246-247 | under `FinishesFinalChunk`, a chunk that neither fails nor finishes moves the upload strictly closer to its end, so the loop terminates |
| Files.FinalChunkFinishes | drive.py:343-347 | under `FinishesFinalChunk`, once the progress equals the file size, a successful `next_chunk` returns a non-empty body |
| Files.Drive | drive.py:245-250 | the upload loop as a recursive definition; `Files.DriveTurn`, `Files.DriveSucceedsWithBody`, `Files.DriveAbortsOnHandler`, `Files.DriveKeepsLastUri` and `Files.DriveReportsTotalSize` state its meaning |
| Files.DriveTurn | drive.py:245-250 | one turn of the upload loop: a failure stops with no report; an abort stops after reporting; a non-empty body finishes; otherwise the report goes first and the loop goes on |
| Files.DriveSucceedsWithBody | drive.py:245-251 | the loop finishes only with a non-empty reply body, and only after at least one report |
| Files.FinishingChunkAtSize | drive.py:336-349 | under `AcksCarryNoBody`, a `next_chunk` whose reply has a non-empty body reports progress equal to the file size: a 200 sets it to the size, and a 308 can carry a body only for the zero-length final chunk |
| Files.DriveSucceedsAtSize | drive.py:245-250 | under `AcksCarryNoBody`, an upload loop that ends in success has reported at least once, and its last report has progress equal to the total size |
| Files.DriveAbortsOnHandler | drive.py:246-250 | an abort is always the handler rejecting the last report |
| Files.DriveKeepsLastUri | drive.py:246-248 | the file keeps the session URI of the last report, or its own URI when the loop raised before any report |
| Files.DriveReportsTotalSize | drive.py:246-250 | every snapshot handed to the handler carries the size of the whole file |
| Files.AbortAfterFirstOfTwoChunks | tests/test_drive.py:204-211 | a handler that aborts at once stops a two-chunk upload after one report of progress `chunksize`; the file keeps the session URI to resume from |
| Files.Settle | drive.py:251-253 | after the loop, the file takes the reply's `id` whenever the reply has one, even when a missing `name` then raises `KeyError`; it takes the `name` only when both are present, which is exactly when it succeeds; a loop error or a reply that is not JSON changes nothing |
| Files.DriveFile.Upload | drive.py:232-253 | the loop's reports, the file's URI and its outcome are those of `Drive`; the file's `id`, `name` and outcome after the loop are those `Settle` gives; the parents never change |
| Files.DriveFile.TakeReply | drive.py:251-253 | the file's new `id` and `name` and the outcome are those `Settle` gives for a finished upload's reply body; the parents and the upload URI do not change |
| Folders.NarrowQuery | drive.py:110-119 | `_narrow_query` on text; `Folders.NarrowQueryText` shows it writes the clauses of `Folders.Narrow` |
| Folders.Narrow | drive.py:110-119 | `_narrow_query` on clauses; `Folders.NarrowClauses` and `Folders.NarrowSelects` state which clauses it adds and what they select |
| Folders.NarrowQueryText | drive.py:110-119 | `_narrow_query` on the text of a query writes exactly the text of the narrowed clauses |
| Folders.NarrowClauses | drive.py:110-119 | narrowing keeps the query, adds exactly one `trashed` clause, last, and adds one `mimeType` clause exactly when only folders or only files are wanted (`=` for folders, `!=` for files) |
| Folders.NarrowSelects | drive.py:110-119 | the narrowed query selects exactly the items the query selects that are of a wanted kind and in the wanted trash state |
| Folders.NarrowNeitherKind | drive.py:121-125 | with neither kind wanted, narrowing would select folders and files alike (why `child` raises there) |
| Folders.ChildQuery | drive.py:121-125 | `child` raises `FileNotFoundError` exactly when neither kind is wanted; otherwise it searches the parent-and-name query narrowed by the flags |
| Folders.ChildrenQuery | drive.py:138-144 | `children` returns nothing exactly when neither kind is wanted; otherwise it lists by the parent query narrowed by the flags |
| Folders.Child | drive.py:121-136 | `child` returns the single match of its query; no match raises `FileNotFoundError`; two or more raise "Two or more files" |
| Folders.StripLeft | drive.py:166 | `lstrip('/')` removes only slashes and leaves no leading slash |
| Folders.StripRight | drive.py:166 | `rstrip('/')` removes only slashes and leaves no trailing slash |
| Folders.Strip | drive.py:166 | `strip('/')` leaves text with no slash at either end, and leaves such text as it is |
| Folders.StripRemovesEndSlashes | drive.py:166 | `strip('/')` returns the path with some slashes removed before and after it and nothing else removed |
| Folders.StripAllSlashes | drive.py:166 | `strip('/')` leaves nothing exactly when the path is all slashes |
| Folders.FirstSlash | drive.py:166 | the position where `split('/', 1)` cuts: a slash with none before it, or none at all |
| Folders.SplitPath | drive.py:166 | the first name has no slash, and the rest, when there is one, is shorter than the path and does not end with a slash |
| Folders.SplitPathRejoins | drive.py:166 | `split('/', 1)` of the stripped path: with no slash, the first name is the whole stripped path; otherwise the first name, `/` and the rest are exactly the stripped path |
| Folders.PathNames | drive.py:165-173 | the names the recursion looks up: at least one, none containing a slash |
| Folders.Walk | drive.py:165-184 | a walk that succeeds ends at an item named like the last name |
| Folders.ChildFromPath | drive.py:165-173 | `child_from_path` as written, recursing on the rest; `Folders.ChildFromPathWalks` states its meaning |
| Folders.CreatePath | drive.py:175-184 | `create_path` as written, recursing on the rest; `Folders.CreatePathWalks` states its meaning |
| Folders.ChildFromPathWalks | drive.py:165-173 | `child_from_path` looks the path's names up one below the other; a wrong name raises "Could not access"; a file cannot be descended into |
| Folders.CreatePathWalks | drive.py:175-184 | `create_path` does the same walk with `mkdir`; a wrong name raises "Failed to create" |
| Folders.FirstNameEmpty | drive.py:166-167 | the first name looked up is empty exactly when the path is all slashes |
| Folders.LaterNamesNonEmpty | drive.py:166-173 | every name after the first is non-empty, because a rest never ends with a slash |
| Folders.PathNamesOfJoin | drive.py:165-173 | joining non-empty, slash-free names with `/`, with or without a leading `/`, and splitting the path again gives back the names |

## Checks the code does not make

`drive.py` does not make these checks, and the model does not either:

- The download loop does not compare a whole-file checksum at the end.
- The final upload chunk (status 200) is not checked against an MD5.
- The download offset advances by the declared `content-length`, not by the number of bytes actually received. A short or long body is appended as it is.
- The download range is not clamped to the remote size.
- A 308 reply that carries a body ends the upload loop as if the file were complete: `next_chunk` returns a 308's body as it is, and the loop stops on any non-empty body. Only a server that sends no body with a 308 to a chunk of bytes (`AcksCarryNoBody`) guarantees that a finished loop has uploaded the whole file (`Files.DriveSucceedsAtSize`).

## Left out

- Authorisation and the service object (`Credentials`, `GoogleDrive`) are not part of this model. They wrap OAuth and the Google client library.
- `move`, `remove`, `refresh`, `mkdir`, `upload_empty`, `item_by_id` and `items_by_query` are not part of this model. They are single calls to the remote API.
  - `mkdir` appears only as the `make` parameter of `CreatePath`.
  - The search `child` runs appears only as the `list` parameter of `Child`.
  - The lookup `child_from_path` performs appears only as the `lookup` parameter.
  - `_reply_to_object` is the `folder` flag of `Item`.
- Folders.CreatePathWalks: the `child.remove()` that `create_path` calls before raising "Failed to create" is not modelled, because it is a remote call with no effect on the result.
- The `upload_id` getter (drive.py:279-283) is not modelled, because it parses a URL with `urlparse` and `parse_qs`.
- The `resumable_progress` setter is not modelled as a method of its own. `next_chunk` assigns the progress field directly.
- JSON is not modelled: `json.dumps` of the metadata is the `Metadata` value, and `json.loads` of the finished reply is the `decode` parameter. It gives the reply's `id` and `name` where present, and a field that is not a string is not modelled.
- File I/O is not modelled: the local file is a byte sequence, and a missing local file is the empty sequence.
- Files.DriveFile.Download: the remote size is a parameter, because it comes from a metadata request.
- Files.DriveFile.Download requires that the server never answers a range request with a 206 declaring `content-length: 0` (`Advances`). Without that, the loop would never end; the source assumes it silently.
- Files.Fetch requires the same `Advances` assumption, because it is the recursive form of the download loop.
- Files.Fetch never moves the offset backwards only because `Decimal.ParseNat` rejects a signed `content-length`. Python's `int('-5')` accepts it, so drive.py:226 would move the offset back by 5; the model raises "not a number" instead.
- Files.DriveFile.Upload requires a positive chunk size. `MediaFileUpload`'s whole-file chunk size of -1 is not modelled.
- Files.DriveFile.Upload requires that the server never answers the empty chunk sent once everything is uploaded with 308 or with an empty 200 (`FinishesFinalChunk`). Without that, the loop would never end.
- Files.Drive requires the same `FinishesFinalChunk` assumption, because it is the recursive form of the upload loop.
- The transport is deterministic: the same request always gets the same reply. Retries, timeouts and concurrent use of a session are not modelled.
- The progress handlers are modelled only by whether they raise (`halt`). What else they do is not modelled.
- A local file that changes between chunks is not modelled, because the file is one fixed byte sequence.
- Decimal.ParseNat accepts only plain digit strings. Python's `int` also accepts surrounding whitespace, a sign and underscores; the model treats those as "not a number".
- Status codes are numbers; the source compares the status header as text.
- A folder id is always a string. The root's `None` id in queries is not modelled.

## Findings

| source | as written | input that shows it | evidently intended | confidence | as-written member | corrected member |
|---|---|---|---|---|---|---|
| drive.py:274-276 | `__init__` runs the `upload_id` setter, which derives `_resumable_uri` from the id, and then sets `_resumable_uri = None` | `ResumableUploadRequest(service, media, body, upload_id="abc")`: the first use of `resumable_uri` POSTs a new session instead of resuming the one with id `abc` | a given upload id resumes its session: `_resumable_uri` is the id's URI and no new session is opened | not executed | Upload.InitialAsWritten (shown by Upload.ConstructorDropsUploadId) | Upload.Initial (used by Upload.ResumableUploadRequest.constructor) |
