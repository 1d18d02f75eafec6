/** The server state the upload handlers read and change: the static
    configuration, the video records behind `cfg.db`, the objects in the S3
    bucket, the files on local disk and the process-wide `videoThumbnails`
    table. */
module Api {
  import opened Wrappers
  import opened Bytes
  import opened Uuids
  import opened Assets

  /** HTTP status codes the handlers answer with. */
  const StatusOK := 200
  const StatusCreated := 201
  const StatusBadRequest := 400
  const StatusUnauthorized := 401
  const StatusNotFound := 404
  const StatusInternalServerError := 500

  /** A video record: `database.Video` with its embedded `CreateVideoParams`.
      Times are abstract instants. */
  datatype CreateVideoParams = CreateVideoParams(title: string, description: string, userID: Uuid)
  datatype Video = Video(
    id: Uuid,
    createdAt: int,
    updatedAt: int,
    thumbnailURL: Option<string>,
    videoURL: Option<string>,
    params: CreateVideoParams)

  /** An entry of `videoThumbnails`. */
  datatype Thumbnail = Thumbnail(data: seq<byte>, mediaType: string)

  /** An object stored by `PutObject`. */
  datatype S3Object = S3Object(body: seq<byte>, contentType: string)

  /** What `auth.GetBearerToken` and `auth.ValidateJWT` made of the request. */
  datatype Auth = NoBearerToken | InvalidJWT | Authenticated(userID: Uuid)

  /** A file field of the multipart form: its part's Content-Type header and
      its bytes. */
  datatype FormFile = FormFile(contentType: string, body: seq<byte>)

  /** What a handler answers: an error with its status, the video upload's
      `{id, videoURL}` body, or a video record as JSON. */
  datatype Response = ErrorResponse(code: int) | VideoCreated(id: Uuid, videoURL: string) | VideoJSON(video: Video)
  {
    function Status(): int {
      match this
      case ErrorResponse(code) => code
      case VideoCreated(_, _) => StatusCreated
      case VideoJSON(_) => StatusOK
    }
  }

  /** The calls a handler makes that leave traces outside the response. */
  datatype Event = TempCreated | TempRemoved | ObjectPut(key: string) | VideoUpdated(video: Video)

  /** `apiConfig` together with the outside state its handlers change. */
  class ApiConfig {
    const config: Config
    var db: map<Uuid, Video>
    var bucket: map<string, S3Object>
    var disk: map<string, seq<byte>>
    var videoThumbnails: map<Uuid, Thumbnail>
    /** Temp-file, `PutObject` and `UpdateVideo` calls, oldest first. */
    ghost var trace: seq<Event>

    /** Every record is stored under its own ID. */
    ghost predicate Valid()
      reads this
    {
      forall id :: id in db ==> db[id].id == id
    }

    constructor (config: Config, db: map<Uuid, Video>)
      requires forall id :: id in db ==> db[id].id == id
      ensures Valid() && this.config == config && this.db == db
      ensures bucket == map[] && disk == map[] && videoThumbnails == map[] && trace == []
    {
      this.config := config;
      this.db := db;
      bucket, disk, videoThumbnails := map[], map[], map[];
      trace := [];
    }
  }
}
