# Tubely upload core in Dafny

This project models the asset and upload core of Tubely, a small Go video-hosting
service. Users upload thumbnails and MP4 videos for video records they own.

- **Thumbnails** are cached in an in-memory table. They are also written as
  `<videoID>.png` under the assets root, which the server exposes at
  `http://localhost:<port>/assets/`.
- **Videos** are staged in a temporary file. They are then stored in an S3
  bucket under a random lower-case hex key, and the video record gets the
  object's URL.

The model has three layers.

- **Pure helpers of `assets.go`** are Dafny functions:
  - asset names made of base64url-encoded random bytes plus a media-type extension;
  - object, asset and disk URLs and paths;
  - reading the aspect ratio from decoded `ffprobe` output.
- **The standard-library encodings those helpers rely on** are written out, each
  with its inverse and a round-trip lemma:
  - unpadded base64url (RFC 4648, section 5);
  - lower-case hex (RFC 4648, section 8, lower-case alphabet);
  - the canonical 8-4-4-4-12 UUID string;
  - Go's `strings.Split` on one separator.
- **The two HTTP handlers** are methods on an `ApiConfig` class. Its fields are the
  state the handlers change:
  - the video table;
  - the S3 bucket;
  - the files on disk;
  - the thumbnail cache;
  - a ghost trace of the side-effecting calls.

  Each handler is specified by:
  - a function `StopOf`, which returns the first check on its ladder that fails;
  - a status table `StatusOf`;
  - the new value of every field.

  How the collaborators behave is a parameter (`Steps`):
  - for videos: `mime.ParseMediaType`, `os.CreateTemp`, `io.Copy`, `Seek`,
    `rand.Read`, `PutObject`, `UpdateVideo` and `time.Now`;
  - for thumbnails: `io.ReadAll`, `os.Create`, `io.Copy` and `UpdateVideo`.

  The request itself (`Request`) carries the parsed video ID, the outcome of
  token validation and the uploaded form part.

  Open files and form parts are `Files.Handle` objects, each holding a content and a
  read/write position. With that model, an `io.ReadAll` followed by an `io.Copy` from
  the same reader copies nothing (see Findings).

## Model

| member | source | states |
|---|---|---|
| Assets.MediaTypeToExt | assets.go:46-52 | The result always starts with `.` and has no `/`. It is `.bin` unless the media type has exactly one `/`. Otherwise it is `.` plus the verbatim text after that `/`. |
| Assets.ExtOfTypeAndSubtype | assets.go:46-52 | `type/subtype` with no other `/` gives exactly `.subtype`: no case folding, and parameters are not stripped. |
| Assets.GetAssetPath | assets.go:22-32 | It panics exactly when `rand.Read` fails and never returns an error. On success the name is 43 url-safe characters plus the extension of the media type. Those 43 characters decode back to the 32 random bytes, and the name is a single path segment. |
| Assets.AssetPathInjective | assets.go:22-32 | Distinct random bytes give distinct asset paths for the same media type. |
| Assets.ObjectURL | assets.go:34-36 | The URL is `https://<bucket>.s3.<region>.amazonaws.com/<key>`, and the key can be read back from it. |
| Assets.ObjectKey | assets.go:34-36 | Any key it returns rebuilds the URL when prefixed with the bucket's address. |
| Assets.ObjectURLInjective | assets.go:34-36 | Within one configuration, distinct keys have distinct object URLs. |
| Assets.AssetURL | assets.go:42-44 | The URL is `http://localhost:<port>/assets/<path>`, and the asset path can be read back from it. |
| Assets.AssetOfURL | assets.go:42-44 | Any asset path it returns rebuilds the URL when prefixed with the server's asset address. |
| Assets.AssetURLInjective | assets.go:42-44 | Within one configuration, distinct assets have distinct URLs. |
| Assets.AssetDiskPath | assets.go:38-40 | `filepath.Join(root, name)` without the cleaning step: for a single-segment name under a non-empty root, the model's path has the root's segments followed by the name. |
| Assets.AssetDiskPathClean | assets.go:38-40 | Under a clean root, the joined path is clean too, so Go's cleaning leaves it unchanged and the model's path is the one `filepath.Join` returns. A clean root has only proper names as segments, apart from a leading `/`. |
| Assets.AssetDiskPathInjective | assets.go:38-40 | Under one non-empty root, distinct single-segment names are stored at distinct paths. |
| Assets.GetVideoAspectRatio | assets.go:69-85 | A failed `ffprobe` run or JSON decode is returned as the error. An empty stream list panics on the index. Otherwise the result is the first stream's `display_aspect_ratio`, verbatim. |
| Assets.AspectRatioReadsOnlyFirstDisplay | assets.go:78-84 | Two probe outputs whose first streams share a display aspect ratio give the same answer. |
| GoStrings.Count | assets.go:47-48 | The separator count is at most the length, and it is zero exactly when the separator is absent. |
| GoStrings.Split | assets.go:47-48 | `strings.Split` gives one part more than there are separators. No part contains the separator, and joining the parts gives back the input. |
| GoStrings.SplitNoSeparator | assets.go:47-48 | A string without the separator splits into itself alone. |
| GoStrings.SplitAtSeparator | assets.go:47-48 | Splitting `a + sep + b` gives the parts of `a` followed by the parts of `b`. |
| GoStrings.SplitPair | assets.go:47-48 | Splitting `a + sep + b`, with no separator in `a` or `b`, gives exactly `[a, b]`. |
| Base64Url.Letter | assets.go:28 | Every 6-bit value maps to a character of the URL-safe alphabet. |
| Base64Url.Value | assets.go:28 | A character has a value exactly when it is URL-safe, and the value maps back to the character. |
| Base64Url.ValueOfLetter | assets.go:28 | The value of a value's letter is that value. |
| Base64Url.OctetsOfSextets | assets.go:28 | Reassembling the four 6-bit groups of three bytes gives back the three bytes. |
| Base64Url.Encode | assets.go:28 | Unpadded encoding: `(4n+2)/3` characters for `n` bytes, all URL-safe. |
| Base64Url.DecodeEncode | assets.go:28 | Decoding the encoding of any byte sequence gives back the bytes. |
| Base64Url.EncodeInjective | assets.go:28 | Distinct byte sequences have distinct encodings. |
| Hex.Digit | handler_upload_video.go:114 | Every nibble maps to a lower-case hex digit. |
| Hex.Nibble | handler_upload_video.go:114 | A character has a nibble value exactly when it is a lower-case hex digit, and the value maps back to the character. |
| Hex.Encode | handler_upload_video.go:114 | Two lower-case hex digits per byte. |
| Hex.DecodeEncode | handler_upload_video.go:114 | Decoding the hex of any byte sequence gives back the bytes. |
| Hex.EncodeAppend | handler_upload_video.go:114 | The hex of a concatenation is the concatenation of the hex strings. |
| Hex.EncodeInjective | handler_upload_video.go:114 | Distinct byte sequences have distinct hex strings. |
| Uuids.UuidString | handler_upload_thumbnail.go:73 | `uuid.UUID.String`: 36 characters, each a lower-case hex digit or `-`. |
| Uuids.ParseString | handler_upload_thumbnail.go:73 | Parsing the canonical string of a UUID gives back the UUID. |
| Uuids.StringInjective | handler_upload_thumbnail.go:73 | Distinct UUIDs have distinct strings. |
| Files.Overwrite | handler_upload_thumbnail.go:83 | A write at a position keeps the bytes before it, places the data there, keeps the old bytes past the written range and extends the file if needed. At the end of the file it appends. |
| Files.Handle.Open | handler_upload_video.go:82 | A handle opened on some content starts at position 0. `os.Create` opens an empty file. |
| Files.Handle.Unread | handler_upload_thumbnail.go:50 | The unread bytes are exactly the content past the position. |
| Files.Handle.ReadAll | handler_upload_thumbnail.go:50 | `io.ReadAll` returns every unread byte and leaves the reader at end of stream with its content unchanged. |
| Files.Handle.Write | handler_upload_video.go:91 | A write stores the data at the position and moves the position past it. |
| Files.Handle.Rewind | handler_upload_video.go:98 | `Seek(0, io.SeekStart)` makes the whole content unread again. |
| Files.Copy | handler_upload_video.go:91 | `io.Copy` writes every byte the source has not yet returned at the destination's position, and leaves the source at end of stream. |
| UploadVideo.StagedOnlyForOwnerMp4 | handler_upload_video.go:26-75 | No temp file is created unless all of these hold: the ID parses, the caller's token is valid, the caller owns an existing video, a `video` part is present, and its media type parses to `video/mp4`. |
| UploadVideo.StatusOf | handler_upload_video.go:28-137 | The status code for each stop. 201 is given exactly on success, and 404 exactly for an unknown video. 401 is given exactly for a missing or invalid token or a non-owner. 400 is given exactly for a missing part, an unparsable Content-Type or a type other than `video/mp4`. Every other stop gives 500. |
| UploadVideo.Screen | handler_upload_video.go:25-86 | The checks before anything changes, in the handler's order. They pass exactly when the upload gets staged, and otherwise the answer carries the failing check's status. Once they pass, the form part is open at its start and the media type is `video/mp4`. |
| UploadVideo.WithVideoURL | handler_upload_video.go:128-135 | The record sent to `UpdateVideo` has the object URL and the new update time, with every other field kept. |
| UploadVideo.StorageKey | handler_upload_video.go:109-114 | The key is 32 lower-case hex characters with no extension, and the 16 random bytes can be read back from it. |
| UploadVideo.HandlerUploadVideo | handler_upload_video.go:20-145 | See the notes on this member after the table. |
| UploadVideo.StoreStaged | handler_upload_video.go:91-144 | Once the temp file exists, the bucket gets the upload's whole content exactly when copy, seek, key and `PutObject` succeed. The record is updated, and the answer is 201, only when everything succeeds. |
| UploadVideo.OwnerUploadScenario | handler_upload_video.go:20-145 | An owner's MP4 upload with every step working answers 201. The bucket then holds the uploaded bytes, and the record's URL names the hex key. |
| UploadThumbnail.CachedOnlyForOwner | handler_upload_thumbnail.go:15-64 | Nothing is cached unless all of these hold: the ID parses, the caller's token is valid, a `thumbnail` part with a Content-Type is present, it was read whole, and the caller owns an existing video. |
| UploadThumbnail.StatusOf | handler_upload_thumbnail.go:18-108 | The status code for each stop. 200 is given exactly on success. 401 is given exactly for a missing or invalid token or a non-owner. 400 is given exactly for an unparsable ID, a missing part or an empty Content-Type. Every other stop gives 500. |
| UploadThumbnail.Screen | handler_upload_thumbnail.go:15-64 | The checks before anything changes, in the handler's order. They pass exactly when the image gets cached, and otherwise the answer carries the failing check's status. Once they pass, `io.ReadAll` has returned the whole part and left its reader at end of stream. |
| UploadThumbnail.WithThumbnailURL | handler_upload_thumbnail.go:88-89 | The record sent to `UpdateVideo` has a thumbnail URL that names the thumbnail file under the server's asset address. Every other field is kept, the update time included. |
| UploadThumbnail.ThumbnailFilename | handler_upload_thumbnail.go:73 | The file name is the video ID's 36-character canonical form plus `.png`, whatever the declared media type. It is a single path segment, and the ID can be read back from it. |
| UploadThumbnail.ThumbnailFilenameInjective | handler_upload_thumbnail.go:73-74 | Distinct videos write distinct thumbnail files. |
| UploadThumbnail.HandlerUploadThumbnail | handler_upload_thumbnail.go:14-109 | See the notes on this member after the table. |
| UploadThumbnail.StoreThumbnail | handler_upload_thumbnail.go:66-108 | After the owner check, the image is always cached. The file gets only what the reader has not yet returned. The record points at the served file, and the answer is 200, only when create, copy and update all succeed. |
| UploadThumbnail.WriteThumbnailFile | handler_upload_thumbnail.go:73-86 | `os.Create` truncates the file at the path to empty, and `io.Copy` then fills it with the reader's unread bytes. Nothing else changes. |
| UploadThumbnail.StoreThumbnailRewound | handler_upload_thumbnail.go:66-108 | Corrected store: rewind the reader first. When create and copy succeed, the file on disk receives the whole upload. When the copy fails, the file is left empty. The cache, record, trace and answer are as in `StoreThumbnail`. |
| UploadThumbnail.OwnerUploadAsWritten | handler_upload_thumbnail.go:50-86 | An owner uploads a 2048-byte image and every step works. The answer is 200 and the cache holds 2048 bytes, but the file on disk holds 0. |
| UploadThumbnail.OwnerUploadRewound | handler_upload_thumbnail.go:50-86 | The same upload through the corrected store leaves 2048 bytes on disk. |

Notes on `UploadVideo.HandlerUploadVideo`:

- The status is that of the first failing check:
  - 500 for an unparsable ID;
  - 401 for a missing or invalid token;
  - 404 for an unknown video;
  - 401 for a non-owner;
  - 400 for a missing part, an unparsable Content-Type or a type other than `video/mp4`;
  - 500 for any later failure;
  - 201 on success.
- On success, the record gets the object URL and the update time.
- The bucket holds the upload under the hex key exactly when `PutObject` ran and succeeded.
- The disk and the thumbnail cache are untouched.
- Once the temp file exists, it is removed last on every path.

Notes on `UploadThumbnail.HandlerUploadThumbnail`:

- The status is that of the first failing check:
  - 400 for an unparsable ID, a missing part or an empty Content-Type;
  - 401 for a missing or invalid token or a non-owner;
  - 500 for a read, lookup, create, copy or update failure;
  - 200 with the updated record on success.
- From the owner check on, the cache maps the video to the uploaded bytes and media type.
- Once the file is created, it is empty.
- The bucket is untouched.

## Left out

- HTTP plumbing is not modelled: routing, response bodies and messages, JSON encoding of the answer, and closing of files.
- Authentication is an outcome: no token, an invalid token, or a user ID. `auth.GetBearerToken` and `auth.ValidateJWT` are not part of this model.
- `uuid.Parse` is an outcome. The path value is either a UUID or nothing, so the model does not say which strings parse.
- `mime.ParseMediaType` is a function given in `Steps`. Its own grammar is not modelled.
- The 1 GiB `http.MaxBytesReader` limit and `ParseMultipartForm`'s 10 MB memory bound are not modelled. A failure to obtain the form part is the absent part in `Request`.
- The only database error modelled is a missing ID. `UpdateVideo` failure is a step outcome.
- `rand.Read` is a parameter: its bytes, or failure.
- `time.Now` is the integer `Steps.now`.
- `ensureAssetsDir` is not modelled: it is filesystem I/O and neither handler calls it.
- Running `ffprobe` and decoding its JSON are inputs to `GetVideoAspectRatio`: a run failure, a decode failure, or the decoded streams.
- Assets.AssetDiskPath: does not model the path cleaning `filepath.Join` also does (collapsing `//`, `.` and `..`, dropping a trailing `/`). For a root that is not clean the model's path keeps the root as written and differs from Go's: the root `./assets` gives `./assets/<name>` where Go gives `assets/<name>`. `Assets.AssetDiskPathClean` gives the roots for which the two agree.
- UploadThumbnail.WriteThumbnailFile: does not model a partial write when `io.Copy` fails. The file is then left empty.
- UploadVideo.StoreStaged: does not model a partial copy into the temp file when `io.Copy` fails.
- The temp file's name, the system temp directory, and the ignored error from `os.Remove` are not modelled. The removal is an event in the trace.
- Concurrent access to the global `videoThumbnails` map is not modelled, because the model is sequential.
- Go strings are byte strings. The model uses `seq<char>`, which is exact for the ASCII text that the keys, URLs and paths here consist of.
- The code does not sniff the content type of uploads, does not reduce aspect ratios to named classes, and writes files straight to their final path; the model follows the code. The code also stores the video under a hex key with no extension, though a comment beside it shows `.mp4` keys.

## Findings

| source | as written | input that shows it | evidently intended | confidence | as-written member | corrected member |
|---|---|---|---|---|---|---|
| handler_upload_thumbnail.go:50-86 | `io.ReadAll(file)` consumes the form part, and `io.Copy(f, file)` then copies from the exhausted reader, so the file at `/assets/<videoID>.png` is created empty while the record points at it | the video's owner uploads a 2048-byte image and every step succeeds: status 200, 2048 bytes cached, 0 bytes on disk | the file on disk holds the uploaded image (rewind the reader, or write `data`) | not executed | UploadThumbnail.OwnerUploadAsWritten | UploadThumbnail.StoreThumbnailRewound |
