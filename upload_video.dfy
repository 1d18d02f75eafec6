/** handler_upload_video.go: `handlerUploadVideo`, a fixed ladder of checks,
    then staging the upload in a temp file, `PutObject` under a random hex
    key and `UpdateVideo` with the object's URL. */
module UploadVideo {
  import opened Wrappers
  import opened Bytes
  import opened Uuids
  import opened Assets
  import opened Files
  import opened Api
  import Hex

  /** The only media type the handler accepts. */
  const AcceptedMediaType := "video/mp4"

  /** Random bytes behind a storage key. */
  const KeyBytes := 16

  /** What the request carries: the `videoID` path value as `uuid.Parse`
      read it, the bearer credential, and the `video` form file. */
  datatype Request = Request(videoID: Option<Uuid>, auth: Auth, video: Option<FormFile>)

  /** How the collaborators the handler calls behave on this request:
      `mime.ParseMediaType` (the media type it finds in a Content-Type header),
      creating, filling and rewinding the temp file, `rand.Read` (the 16 bytes,
      or None when it fails), `PutObject`, `UpdateVideo`, and `time.Now`. */
  datatype Steps = Steps(
    parseMediaType: string -> Option<string>,
    tempCreated: bool,
    tempCopied: bool,
    tempRewound: bool,
    random: Option<seq<byte>>,
    putSucceeds: bool,
    updateSucceeds: bool,
    now: int)

  /** Where the handler stops: the first check that fails, or Uploaded. */
  datatype Stop =
    | BadVideoID | MissingToken | RejectedToken | VideoNotFound | NotOwner
    | NoVideoFile | BadContentType | NotMp4
    | TempCreateFailed | TempCopyFailed | TempSeekFailed | KeyFailed
    | PutFailed | UpdateFailed | Uploaded

  /** The checks in the order the handler makes them. */
  function StopOf(req: Request, steps: Steps, db: map<Uuid, Video>): Stop {
    if req.videoID.None? then BadVideoID
    else if req.auth.NoBearerToken? then MissingToken
    else if req.auth.InvalidJWT? then RejectedToken
    else if req.videoID.value !in db then VideoNotFound
    else if db[req.videoID.value].params.userID != req.auth.userID then NotOwner
    else if req.video.None? then NoVideoFile
    else if steps.parseMediaType(req.video.value.contentType).None? then BadContentType
    else if steps.parseMediaType(req.video.value.contentType).value != AcceptedMediaType then NotMp4
    else if !steps.tempCreated then TempCreateFailed
    else if !steps.tempCopied then TempCopyFailed
    else if !steps.tempRewound then TempSeekFailed
    else if steps.random.None? then KeyFailed
    else if !steps.putSucceeds then PutFailed
    else if !steps.updateSucceeds then UpdateFailed
    else Uploaded
  }

  /** Nothing is staged unless the caller is the authenticated owner of an
      existing video and the upload's media type is `video/mp4`. */
  lemma StagedOnlyForOwnerMp4(req: Request, steps: Steps, db: map<Uuid, Video>)
    requires Staged(StopOf(req, steps, db))
    ensures
      && req.videoID.Some? && req.auth.Authenticated?
      && req.videoID.value in db && db[req.videoID.value].params.userID == req.auth.userID
      && req.video.Some? && steps.parseMediaType(req.video.value.contentType) == Some(AcceptedMediaType)
  {
  }

  /** The status each stop answers with. An unparsable video ID is a server
      error here, not a bad request. */
  function StatusOf(stop: Stop): (code: int)
    ensures code == StatusCreated <==> stop == Uploaded
    ensures code == StatusNotFound <==> stop == VideoNotFound
    ensures code == StatusUnauthorized <==> stop in {MissingToken, RejectedToken, NotOwner}
    ensures code == StatusBadRequest <==> stop in {NoVideoFile, BadContentType, NotMp4}
    ensures code in {StatusCreated, StatusBadRequest, StatusUnauthorized, StatusNotFound, StatusInternalServerError}
  {
    match stop
    case BadVideoID => StatusInternalServerError
    case MissingToken | RejectedToken | NotOwner => StatusUnauthorized
    case VideoNotFound => StatusNotFound
    case NoVideoFile | BadContentType | NotMp4 => StatusBadRequest
    case Uploaded => StatusCreated
    case _ => StatusInternalServerError
  }

  /** The stops at which the temp file exists. */
  predicate Staged(stop: Stop) {
    stop in {TempCopyFailed, TempSeekFailed, KeyFailed, PutFailed, UpdateFailed, Uploaded}
  }

  /** The stops at which `PutObject` has stored the upload. */
  predicate Stored(stop: Stop) {
    stop == UpdateFailed || stop == Uploaded
  }

  /** The storage key: lower-case hex of the 16 random bytes, 32 characters,
      no extension, from which the bytes can be read back. */
  function StorageKey(random: seq<byte>): (key: string)
    requires |random| == KeyBytes
    ensures |key| == 2 * KeyBytes
    ensures forall i :: 0 <= i < |key| ==> Hex.IsLowerHex(key[i])
    ensures Hex.Decode(key) == Some(random)
  {
    Hex.DecodeEncode(random);
    Hex.Encode(random)
  }

  /** The record `UpdateVideo` receives: the fetched one with the new URL and
      update time, every other field kept. */
  function WithVideoURL(v: Video, url: string, now: int): (r: Video)
    ensures r.videoURL == Some(url) && r.updatedAt == now
    ensures r.(videoURL := v.videoURL, updatedAt := v.updatedAt) == v
  {
    v.(videoURL := Some(url), updatedAt := now)
  }

  /** Copying into the temp file, rewinding it and drawing the key all worked,
      so `PutObject` is called. */
  predicate PutReached(steps: Steps) {
    steps.tempCopied && steps.tempRewound && steps.random.Some?
  }

  /** Every step after creating the temp file works. */
  predicate AllSucceed(steps: Steps) {
    PutReached(steps) && steps.putSucceeds && steps.updateSucceeds
  }

  /** The calls made once the temp file exists, up to its removal. */
  ghost function StagedEvents(vid: Video, steps: Steps, cfg: Config): seq<Event>
    requires steps.random.Some? ==> |steps.random.value| == KeyBytes
  {
    if !PutReached(steps) then []
    else
      var key := StorageKey(steps.random.value);
      if !steps.putSucceeds then [ObjectPut(key)]
      else [ObjectPut(key), VideoUpdated(WithVideoURL(vid, ObjectURL(cfg, key), steps.now))]
  }

  /** The temp-file, `PutObject` and `UpdateVideo` calls a request makes:
      none before the temp file exists, and its removal last once it does. */
  ghost function EventsOf(req: Request, steps: Steps, db: map<Uuid, Video>, cfg: Config): seq<Event>
    requires steps.random.Some? ==> |steps.random.value| == KeyBytes
  {
    var stop := StopOf(req, steps, db);
    if Staged(stop) then [TempCreated] + StagedEvents(db[req.videoID.value], steps, cfg) + [TempRemoved]
    else []
  }

  /** `handlerUploadVideo`. */
  method HandlerUploadVideo(cfg: ApiConfig, req: Request, steps: Steps) returns (resp: Response)
    requires cfg.Valid()
    requires steps.random.Some? ==> |steps.random.value| == KeyBytes
    modifies cfg
    ensures cfg.Valid()
    ensures resp.Status() == StatusOf(StopOf(req, steps, old(cfg.db)))
    ensures StopOf(req, steps, old(cfg.db)) == Uploaded ==>
      var id, key := req.videoID.value, StorageKey(steps.random.value);
      && resp == VideoCreated(id, ObjectURL(cfg.config, key))
      && cfg.db == old(cfg.db)[id := WithVideoURL(old(cfg.db)[id], ObjectURL(cfg.config, key), steps.now)]
    ensures StopOf(req, steps, old(cfg.db)) != Uploaded ==> cfg.db == old(cfg.db)
    ensures Stored(StopOf(req, steps, old(cfg.db))) ==>
      cfg.bucket == old(cfg.bucket)[StorageKey(steps.random.value) := S3Object(req.video.value.body, AcceptedMediaType)]
    ensures !Stored(StopOf(req, steps, old(cfg.db))) ==> cfg.bucket == old(cfg.bucket)
    ensures cfg.disk == old(cfg.disk) && cfg.videoThumbnails == old(cfg.videoThumbnails)
    ensures cfg.trace == old(cfg.trace) + EventsOf(req, steps, old(cfg.db), cfg.config)
  {
    var passed, refusal, file, mediaType := Screen(cfg.db, req, steps);
    if !passed {
      return refusal;
    }
    StagedOnlyForOwnerMp4(req, steps, cfg.db);
    var vid := cfg.db[req.videoID.value];
    var dst := new Handle.Open([]);
    cfg.trace := cfg.trace + [TempCreated];
    // Every exit from here on runs the deferred close and remove of the temp
    // file: the remaining steps are in StoreStaged and the removal follows.
    resp := StoreStaged(cfg, vid, file, dst, mediaType, steps);
    cfg.trace := cfg.trace + [TempRemoved];
  }

  /** The checks the handler makes before it changes anything, in its order,
      up to creating the temp file: they pass exactly when the upload gets
      staged, and otherwise the answer is the failing check's status. Once
      they pass, the form part is open at its start. */
  method Screen(db: map<Uuid, Video>, req: Request, steps: Steps)
    returns (passed: bool, refusal: Response, file: Handle?, mediaType: string)
    ensures passed <==> Staged(StopOf(req, steps, db))
    ensures !passed ==> refusal.Status() == StatusOf(StopOf(req, steps, db))
    ensures passed ==>
      && file != null && fresh(file) && file.Valid() && file.offset == 0
      && file.content == req.video.value.body && mediaType == AcceptedMediaType
  {
    ghost var stop := StopOf(req, steps, db);
    passed, refusal, file, mediaType := false, ErrorResponse(StatusInternalServerError), null, "";
    if req.videoID.None? {
      assert stop == BadVideoID;
      return;
    }
    var videoID := req.videoID.value;
    if req.auth.NoBearerToken? {
      assert stop == MissingToken;
      refusal := ErrorResponse(StatusUnauthorized);
      return;
    }
    if req.auth.InvalidJWT? {
      assert stop == RejectedToken;
      refusal := ErrorResponse(StatusUnauthorized);
      return;
    }
    var userID := req.auth.userID;
    if videoID !in db {
      assert stop == VideoNotFound;
      refusal := ErrorResponse(StatusNotFound);
      return;
    }
    if db[videoID].params.userID != userID {
      assert stop == NotOwner;
      refusal := ErrorResponse(StatusUnauthorized);
      return;
    }
    if req.video.None? {
      assert stop == NoVideoFile;
      refusal := ErrorResponse(StatusBadRequest);
      return;
    }
    file := new Handle.Open(req.video.value.body);
    var parsed := steps.parseMediaType(req.video.value.contentType);
    if parsed.None? {
      assert stop == BadContentType;
      refusal := ErrorResponse(StatusBadRequest);
      return;
    }
    mediaType := parsed.value;
    if mediaType != AcceptedMediaType {
      assert stop == NotMp4;
      refusal := ErrorResponse(StatusBadRequest);
      return;
    }
    if !steps.tempCreated {
      assert stop == TempCreateFailed;
      return;
    }
    assert Staged(stop);
    passed := true;
  }

  /** The handler once the temp file exists: fill and rewind
      it, derive the key, `PutObject`, `UpdateVideo`, answer. */
  method StoreStaged(cfg: ApiConfig, vid: Video, file: Handle, dst: Handle, mediaType: string, steps: Steps)
    returns (resp: Response)
    requires cfg.Valid() && vid.id in cfg.db && cfg.db[vid.id] == vid
    requires file.Valid() && file.offset == 0 && dst.Valid() && dst.content == [] && file != dst
    requires mediaType == AcceptedMediaType
    requires steps.random.Some? ==> |steps.random.value| == KeyBytes
    modifies cfg, file, dst
    ensures cfg.Valid()
    ensures resp.Status() == (if AllSucceed(steps) then StatusCreated else StatusInternalServerError)
    ensures AllSucceed(steps) ==>
      && resp == VideoCreated(vid.id, ObjectURL(cfg.config, StorageKey(steps.random.value)))
      && cfg.db == old(cfg.db)[vid.id := WithVideoURL(vid, ObjectURL(cfg.config, StorageKey(steps.random.value)), steps.now)]
    ensures !AllSucceed(steps) ==> cfg.db == old(cfg.db)
    ensures PutReached(steps) && steps.putSucceeds ==>
      cfg.bucket == old(cfg.bucket)[StorageKey(steps.random.value) := S3Object(old(file.content), AcceptedMediaType)]
    ensures !(PutReached(steps) && steps.putSucceeds) ==> cfg.bucket == old(cfg.bucket)
    ensures cfg.disk == old(cfg.disk) && cfg.videoThumbnails == old(cfg.videoThumbnails)
    ensures cfg.trace == old(cfg.trace) + StagedEvents(vid, steps, cfg.config)
  {
    resp := ErrorResponse(StatusInternalServerError);
    if !steps.tempCopied {
      return;
    }
    var _ := Copy(dst, file);
    if !steps.tempRewound {
      return;
    }
    dst.Rewind();
    if steps.random.None? {
      return;
    }
    var key := Hex.Encode(steps.random.value);
    cfg.trace := cfg.trace + [ObjectPut(key)];
    if !steps.putSucceeds {
      return;
    }
    // PutObject streams the temp file from its position.
    var body := dst.ReadAll();
    cfg.bucket := cfg.bucket[key := S3Object(body, mediaType)];
    var videoURL := "https://" + cfg.config.s3Bucket + ".s3." + cfg.config.s3Region + ".amazonaws.com/" + key;
    assert videoURL == ObjectURL(cfg.config, key);
    var record := Video(vid.id, vid.createdAt, steps.now, vid.thumbnailURL, Some(videoURL), vid.params);
    assert record == WithVideoURL(vid, videoURL, steps.now);
    cfg.trace := cfg.trace + [VideoUpdated(record)];
    if !steps.updateSucceeds {
      return;
    }
    cfg.db := cfg.db[record.id := record];
    resp := VideoCreated(vid.id, videoURL);
  }

  /** An MP4 uploaded by the video's owner with every step working: the
      answer is 201, the bucket holds the bytes under the hex key, and the
      record's URL names that key. */
  method OwnerUploadScenario() returns (status: int, stored: seq<byte>, url: Option<string>)
    ensures status == StatusCreated
    ensures stored == [1, 2, 3]
    ensures url == Some(ObjectURL(Config("assets", "tubely", "us-east-2", "8091"), StorageKey(seq(16, _ => 7))))
  {
    var id: Uuid := seq(16, _ => 1);
    var owner: Uuid := seq(16, _ => 2);
    var video := Video(id, 0, 0, None, None, CreateVideoParams("title", "description", owner));
    var cfg := new ApiConfig(Config("assets", "tubely", "us-east-2", "8091"), map[id := video]);
    var random := seq(16, _ => 7);
    var steps := Steps(ct => if ct == "video/mp4" then Some("video/mp4") else None,
                       true, true, true, Some(random), true, true, 5);
    var req := Request(Some(id), Authenticated(owner), Some(FormFile("video/mp4", [1, 2, 3])));
    var resp := HandlerUploadVideo(cfg, req, steps);
    status := resp.Status();
    stored := cfg.bucket[StorageKey(random)].body;
    url := cfg.db[id].videoURL;
    assert random == seq(16, _ => 7);
  }
}
