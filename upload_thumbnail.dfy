/** handler_upload_thumbnail.go: `handlerUploadThumbnail`, a ladder of checks,
    then caching the image in `videoThumbnails`, writing `<videoID>.png` under
    the assets root and pointing the record's thumbnail URL at it. */
module UploadThumbnail {
  import opened Wrappers
  import opened Bytes
  import opened Uuids
  import opened Assets
  import opened Files
  import opened Api

  /** What the request carries: the `videoID` path value as `uuid.Parse`
      read it, the bearer credential, and the `thumbnail` form file. */
  datatype Request = Request(videoID: Option<Uuid>, auth: Auth, thumbnail: Option<FormFile>)

  /** How the collaborators the handler calls behave on this request:
      `io.ReadAll`, `os.Create`, `io.Copy` and `UpdateVideo`. */
  datatype Steps = Steps(readSucceeds: bool, createSucceeds: bool, copySucceeds: bool, updateSucceeds: bool)

  /** Where the handler stops: the first check that fails, or Updated. */
  datatype Stop =
    | BadVideoID | MissingToken | RejectedToken | NoThumbnailFile | MissingContentType
    | FileReadFailed | VideoLookupFailed | NotOwner | CreateFailed | CopyFailed | UpdateFailed | Updated

  /** The checks in the order the handler makes them: ownership is checked
      only after the whole file has been read. */
  function StopOf(req: Request, steps: Steps, db: map<Uuid, Video>): Stop {
    if req.videoID.None? then BadVideoID
    else if req.auth.NoBearerToken? then MissingToken
    else if req.auth.InvalidJWT? then RejectedToken
    else if req.thumbnail.None? then NoThumbnailFile
    else if req.thumbnail.value.contentType == "" then MissingContentType
    else if !steps.readSucceeds then FileReadFailed
    else if req.videoID.value !in db then VideoLookupFailed
    else if db[req.videoID.value].params.userID != req.auth.userID then NotOwner
    else if !steps.createSucceeds then CreateFailed
    else if !steps.copySucceeds then CopyFailed
    else if !steps.updateSucceeds then UpdateFailed
    else Updated
  }

  /** Nothing is cached unless the caller is the authenticated owner of an
      existing video, the upload declares a Content-Type and was read whole. */
  lemma CachedOnlyForOwner(req: Request, steps: Steps, db: map<Uuid, Video>)
    requires Cached(StopOf(req, steps, db))
    ensures
      && req.videoID.Some? && req.auth.Authenticated?
      && req.videoID.value in db && db[req.videoID.value].params.userID == req.auth.userID
      && req.thumbnail.Some? && req.thumbnail.value.contentType != "" && steps.readSucceeds
  {
  }

  /** The status each stop answers with. An unparsable video ID is a bad
      request here, and a failed lookup a server error. */
  function StatusOf(stop: Stop): (code: int)
    ensures code == StatusOK <==> stop == Updated
    ensures code == StatusUnauthorized <==> stop in {MissingToken, RejectedToken, NotOwner}
    ensures code == StatusBadRequest <==> stop in {BadVideoID, NoThumbnailFile, MissingContentType}
    ensures code in {StatusOK, StatusBadRequest, StatusUnauthorized, StatusInternalServerError}
  {
    match stop
    case BadVideoID | NoThumbnailFile | MissingContentType => StatusBadRequest
    case MissingToken | RejectedToken | NotOwner => StatusUnauthorized
    case Updated => StatusOK
    case _ => StatusInternalServerError
  }

  /** The stops at which the image is in `videoThumbnails`. */
  predicate Cached(stop: Stop) {
    stop in {CreateFailed, CopyFailed, UpdateFailed, Updated}
  }

  /** The stops at which the file on disk has been created. */
  predicate FileCreated(stop: Stop) {
    stop in {CopyFailed, UpdateFailed, Updated}
  }

  /** The file name on disk: the video ID's canonical form and `.png`,
      whatever the declared media type. It is one path segment, and the
      video ID can be read back from it. */
  function ThumbnailFilename(id: Uuid): (name: string)
    ensures |name| == 40 && name[36..] == ".png"
    ensures IsSegment(name)
    ensures ParseCanonical(name[..36]) == Some(id)
  {
    ParseString(id);
    var name := UuidString(id) + ".png";
    assert name[..36] == UuidString(id);
    name
  }

  /** Distinct videos get distinct thumbnail files. */
  lemma ThumbnailFilenameInjective(a: Uuid, b: Uuid)
    requires ThumbnailFilename(a) == ThumbnailFilename(b)
    ensures a == b
  {
    assert ThumbnailFilename(a)[..36] == ThumbnailFilename(b)[..36];
  }

  /** Where the file of video `id` is written. */
  function ThumbnailDiskPath(cfg: Config, id: Uuid): string {
    AssetDiskPath(cfg, ThumbnailFilename(id))
  }

  /** Creating the file and copying into it both work. */
  predicate WriteSucceeds(steps: Steps) {
    steps.createSucceeds && steps.copySucceeds
  }

  /** The record `UpdateVideo` receives: the fetched one pointing at the
      served file, every other field kept (the update time too). */
  function WithThumbnailURL(cfg: Config, v: Video): (r: Video)
    ensures r.thumbnailURL.Some? && AssetOfURL(cfg, r.thumbnailURL.value) == Some(ThumbnailFilename(v.id))
    ensures r.(thumbnailURL := v.thumbnailURL) == v
  {
    v.(thumbnailURL := Some(AssetURL(cfg, ThumbnailFilename(v.id))))
  }

  /** `handlerUploadThumbnail` as written. The image is read with
      `io.ReadAll` and then copied to disk with `io.Copy` from the same,
      exhausted reader, so the file on disk is always empty. */
  method HandlerUploadThumbnail(cfg: ApiConfig, req: Request, steps: Steps) returns (resp: Response)
    requires cfg.Valid()
    modifies cfg
    ensures cfg.Valid()
    ensures resp.Status() == StatusOf(StopOf(req, steps, old(cfg.db)))
    ensures Cached(StopOf(req, steps, old(cfg.db))) ==>
      cfg.videoThumbnails == old(cfg.videoThumbnails)[req.videoID.value :=
        Thumbnail(req.thumbnail.value.body, req.thumbnail.value.contentType)]
    ensures !Cached(StopOf(req, steps, old(cfg.db))) ==> cfg.videoThumbnails == old(cfg.videoThumbnails)
    ensures FileCreated(StopOf(req, steps, old(cfg.db))) ==>
      cfg.disk == old(cfg.disk)[ThumbnailDiskPath(cfg.config, req.videoID.value) := []]
    ensures !FileCreated(StopOf(req, steps, old(cfg.db))) ==> cfg.disk == old(cfg.disk)
    ensures StopOf(req, steps, old(cfg.db)) == Updated ==>
      var id := req.videoID.value;
      && cfg.db == old(cfg.db)[id := WithThumbnailURL(cfg.config, old(cfg.db)[id])]
      && resp == VideoJSON(cfg.db[id])
    ensures StopOf(req, steps, old(cfg.db)) != Updated ==> cfg.db == old(cfg.db)
    ensures StopOf(req, steps, old(cfg.db)) in {UpdateFailed, Updated} ==>
      cfg.trace == old(cfg.trace) + [VideoUpdated(WithThumbnailURL(cfg.config, old(cfg.db)[req.videoID.value]))]
    ensures StopOf(req, steps, old(cfg.db)) !in {UpdateFailed, Updated} ==> cfg.trace == old(cfg.trace)
    ensures cfg.bucket == old(cfg.bucket)
  {
    var passed, refusal, file, data := Screen(cfg.db, req, steps);
    if !passed {
      return refusal;
    }
    CachedOnlyForOwner(req, steps, cfg.db);
    assert StopOf(req, steps, cfg.db) ==
      if !steps.createSucceeds then CreateFailed
      else if !steps.copySucceeds then CopyFailed
      else if !steps.updateSucceeds then UpdateFailed
      else Updated;
    var video := cfg.db[req.videoID.value];
    resp := StoreThumbnail(cfg, video, file, data, req.thumbnail.value.contentType, steps);
  }

  /** The checks the handler makes before it changes anything, in its order:
      they pass exactly when the image gets cached, and otherwise the answer
      is the failing check's status. Once they pass, `io.ReadAll` has
      returned the whole form part and left its reader at end of stream. */
  method Screen(db: map<Uuid, Video>, req: Request, steps: Steps)
    returns (passed: bool, refusal: Response, file: Handle?, data: seq<byte>)
    ensures passed <==> Cached(StopOf(req, steps, db))
    ensures !passed ==> refusal.Status() == StatusOf(StopOf(req, steps, db))
    ensures passed ==>
      && file != null && fresh(file) && file.Valid()
      && file.content == req.thumbnail.value.body && file.Unread() == []
      && data == req.thumbnail.value.body
  {
    ghost var stop := StopOf(req, steps, db);
    passed, refusal, file, data := false, ErrorResponse(StatusInternalServerError), null, [];
    if req.videoID.None? {
      assert stop == BadVideoID;
      refusal := ErrorResponse(StatusBadRequest);
      return;
    }
    var videoID := req.videoID.value;
    if req.auth.NoBearerToken? {
      assert stop == MissingToken;
      refusal := ErrorResponse(StatusUnauthorized);
      return;
    }
    if req.auth.InvalidJWT? {
      assert stop == RejectedToken;
      refusal := ErrorResponse(StatusUnauthorized);
      return;
    }
    var userID := req.auth.userID;
    // The error of ParseMultipartForm is ignored; a form that did not parse
    // shows up as FormFile failing.
    if req.thumbnail.None? {
      assert stop == NoThumbnailFile;
      refusal := ErrorResponse(StatusBadRequest);
      return;
    }
    file := new Handle.Open(req.thumbnail.value.body);
    if req.thumbnail.value.contentType == "" {
      assert stop == MissingContentType;
      refusal := ErrorResponse(StatusBadRequest);
      return;
    }
    if !steps.readSucceeds {
      assert stop == FileReadFailed;
      return;
    }
    data := file.ReadAll();
    if videoID !in db {
      assert stop == VideoLookupFailed;
      return;
    }
    if db[videoID].params.userID != userID {
      assert stop == NotOwner;
      refusal := ErrorResponse(StatusUnauthorized);
      return;
    }
    assert Cached(stop);
    passed := true;
  }

  /** The handler once the owner is confirmed: cache the image, create the
      file, copy into it what the upload reader has not yet returned, point
      the record at the served file. */
  method StoreThumbnail(cfg: ApiConfig, video: Video, file: Handle, data: seq<byte>, mediaType: string, steps: Steps)
    returns (resp: Response)
    requires cfg.Valid() && video.id in cfg.db && cfg.db[video.id] == video
    requires file.Valid()
    modifies cfg, file
    ensures cfg.Valid()
    ensures resp.Status() == if WriteSucceeds(steps) && steps.updateSucceeds then StatusOK else StatusInternalServerError
    ensures cfg.videoThumbnails == old(cfg.videoThumbnails)[video.id := Thumbnail(data, mediaType)]
    ensures steps.createSucceeds ==>
      cfg.disk == old(cfg.disk)[ThumbnailDiskPath(cfg.config, video.id) :=
        if steps.copySucceeds then old(file.Unread()) else []]
    ensures !steps.createSucceeds ==> cfg.disk == old(cfg.disk)
    ensures WriteSucceeds(steps) && steps.updateSucceeds ==>
      && cfg.db == old(cfg.db)[video.id := WithThumbnailURL(cfg.config, video)]
      && resp == VideoJSON(WithThumbnailURL(cfg.config, video))
    ensures !(WriteSucceeds(steps) && steps.updateSucceeds) ==> cfg.db == old(cfg.db)
    ensures cfg.trace == old(cfg.trace) + if WriteSucceeds(steps) then [VideoUpdated(WithThumbnailURL(cfg.config, video))] else []
    ensures cfg.bucket == old(cfg.bucket)
  {
    cfg.videoThumbnails := cfg.videoThumbnails[video.id := Thumbnail(data, mediaType)];
    var filename := UuidString(video.id) + ".png";
    assert filename == ThumbnailFilename(video.id);
    var diskPath := AssetDiskPath(cfg.config, filename);
    assert diskPath == ThumbnailDiskPath(cfg.config, video.id);
    var written := WriteThumbnailFile(cfg, diskPath, file, steps);
    if !written {
      return ErrorResponse(StatusInternalServerError);
    }
    var url := "http://localhost:" + cfg.config.port + "/assets/" + filename;
    assert url == AssetURL(cfg.config, filename);
    var updated := video.(thumbnailURL := Some(url));
    cfg.trace := cfg.trace + [VideoUpdated(updated)];
    if !steps.updateSucceeds {
      // The table entry and the file stay: their rollback is commented out.
      return ErrorResponse(StatusInternalServerError);
    }
    cfg.db := cfg.db[updated.id := updated];
    return VideoJSON(updated);
  }

  /** Writing the thumbnail file: `os.Create` it (empty, truncating what was there)
      and `io.Copy` into it what the upload reader has not yet returned. */
  method WriteThumbnailFile(cfg: ApiConfig, diskPath: string, file: Handle, steps: Steps) returns (written: bool)
    requires file.Valid()
    modifies cfg, file
    ensures written == WriteSucceeds(steps)
    ensures steps.createSucceeds ==>
      cfg.disk == old(cfg.disk)[diskPath := if steps.copySucceeds then old(file.Unread()) else []]
    ensures !steps.createSucceeds ==> cfg.disk == old(cfg.disk)
    ensures cfg.db == old(cfg.db) && cfg.bucket == old(cfg.bucket)
    ensures cfg.videoThumbnails == old(cfg.videoThumbnails) && cfg.trace == old(cfg.trace)
  {
    if !steps.createSucceeds {
      return false;
    }
    var f := new Handle.Open([]);
    cfg.disk := cfg.disk[diskPath := f.content];
    if !steps.copySucceeds {
      return false;
    }
    var _ := Copy(f, file);
    cfg.disk := cfg.disk[diskPath := f.content];
    return true;
  }

  /** The evidently intended store: rewind the upload reader to its start
      before the steps of StoreThumbnail, so the file on disk receives every
      byte of the image however much of it was read before. */
  method StoreThumbnailRewound(cfg: ApiConfig, video: Video, file: Handle, data: seq<byte>, mediaType: string, steps: Steps)
    returns (resp: Response)
    requires cfg.Valid() && video.id in cfg.db && cfg.db[video.id] == video
    requires file.Valid()
    modifies cfg, file
    ensures cfg.Valid()
    ensures resp.Status() == if WriteSucceeds(steps) && steps.updateSucceeds then StatusOK else StatusInternalServerError
    ensures cfg.videoThumbnails == old(cfg.videoThumbnails)[video.id := Thumbnail(data, mediaType)]
    ensures WriteSucceeds(steps) ==> cfg.disk == old(cfg.disk)[ThumbnailDiskPath(cfg.config, video.id) := old(file.content)]
    ensures steps.createSucceeds && !steps.copySucceeds ==>
      cfg.disk == old(cfg.disk)[ThumbnailDiskPath(cfg.config, video.id) := []]
    ensures !steps.createSucceeds ==> cfg.disk == old(cfg.disk)
    ensures WriteSucceeds(steps) && steps.updateSucceeds ==>
      && cfg.db == old(cfg.db)[video.id := WithThumbnailURL(cfg.config, video)]
      && resp == VideoJSON(WithThumbnailURL(cfg.config, video))
    ensures !(WriteSucceeds(steps) && steps.updateSucceeds) ==> cfg.db == old(cfg.db)
    ensures cfg.trace == old(cfg.trace) + if WriteSucceeds(steps) then [VideoUpdated(WithThumbnailURL(cfg.config, video))] else []
    ensures cfg.bucket == old(cfg.bucket)
  {
    file.Rewind();
    resp := StoreThumbnail(cfg, video, file, data, mediaType, steps);
  }

  /** A 2048-byte PNG uploaded by the video's owner with every step working,
      as the code is written: the answer is 200 and the table holds the 2048
      bytes, but the file the thumbnail URL points at is empty. */
  method OwnerUploadAsWritten() returns (status: int, cached: nat, onDisk: nat)
    ensures status == StatusOK && cached == 2048 && onDisk == 0
  {
    var id: Uuid := seq(16, _ => 1);
    var owner: Uuid := seq(16, _ => 2);
    var video := Video(id, 0, 0, None, None, CreateVideoParams("title", "description", owner));
    var cfg := new ApiConfig(Config("assets", "tubely", "us-east-2", "8091"), map[id := video]);
    var png := seq(2048, _ => 0);
    var req := Request(Some(id), Authenticated(owner), Some(FormFile("image/png", png)));
    var steps := Steps(true, true, true, true);
    assert StopOf(req, steps, cfg.db) == Updated;
    var resp := HandlerUploadThumbnail(cfg, req, steps);
    status := resp.Status();
    cached := |cfg.videoThumbnails[id].data|;
    var diskPath := ThumbnailDiskPath(cfg.config, id);
    assert cfg.disk[diskPath] == [];
    onDisk := |cfg.disk[diskPath]|;
  }

  /** The same upload through the corrected store: after `io.ReadAll` has
      consumed the reader, the file on disk still receives all 2048 bytes. */
  method OwnerUploadRewound() returns (cached: nat, onDisk: nat)
    ensures cached == 2048 && onDisk == 2048
  {
    var id: Uuid := seq(16, _ => 1);
    var owner: Uuid := seq(16, _ => 2);
    var video := Video(id, 0, 0, None, None, CreateVideoParams("title", "description", owner));
    var cfg := new ApiConfig(Config("assets", "tubely", "us-east-2", "8091"), map[id := video]);
    var file := new Handle.Open(seq(2048, _ => 0));
    var data := file.ReadAll();
    var _ := StoreThumbnailRewound(cfg, video, file, data, "image/png", Steps(true, true, true, true));
    cached := |cfg.videoThumbnails[id].data|;
    onDisk := |cfg.disk[ThumbnailDiskPath(cfg.config, id)]|;
  }
}
