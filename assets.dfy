/** assets.go: naming stored assets and turning names into URLs and paths. */
module Assets {
  import opened Wrappers
  import opened Bytes
  import opened GoStrings
  import Base64Url

  /** The static part of `apiConfig` these functions read. */
  datatype Config = Config(assetsRoot: string, s3Bucket: string, s3Region: string, port: string)

  /** A single path segment: non-empty, without `/`, and neither `.` nor `..`. */
  predicate IsSegment(s: string) {
    s != "" && '/' !in s && s != "." && s != ".."
  }

  /** Random bytes behind an asset name, and the length of their encoding. */
  const AssetIdBytes := 32
  const AssetIdLength := 43

  /** `mediaTypeToExt`: `.` and the subtype when the media type has exactly one
      `/`, and `.bin` otherwise. */
  function MediaTypeToExt(mediaType: string): (ext: string)
    ensures |ext| >= 1 && ext[0] == '.' && '/' !in ext
    ensures Count(mediaType, '/') != 1 ==> ext == ".bin"
    ensures Count(mediaType, '/') == 1 ==>
      |ext| <= |mediaType| && mediaType[|mediaType| - |ext|] == '/'
      && mediaType[|mediaType| - |ext| + 1..] == ext[1..]
  {
    var parts := Split(mediaType, '/');
    if |parts| != 2 then ".bin"
    else
      assert Join(parts, '/') == parts[0] + "/" + parts[1] by {
        assert parts[1..] == [parts[1]];
      }
      "." + parts[1]
  }

  /** A well-formed `type/subtype` gives `.subtype`, verbatim: no case
      folding, and a `;param` tail is kept. */
  lemma ExtOfTypeAndSubtype(typ: string, subtype: string)
    requires '/' !in typ && '/' !in subtype
    ensures MediaTypeToExt(typ + "/" + subtype) == "." + subtype
  {
    SplitPair(typ, '/', subtype);
  }

  /** What `rand.Read` did to the 32-byte buffer. */
  datatype RandomRead = Filled(bytes: seq<byte>) | ReadFailed

  /** `getAssetPath`: the unpadded base64url encoding of 32 random bytes,
      followed by the extension of the media type; a failed read panics. */
  function GetAssetPath(random: RandomRead, mediaType: string): (r: Outcome<string>)
    requires random.Filled? ==> |random.bytes| == AssetIdBytes
    ensures r.Panic? <==> random.ReadFailed?
    ensures !r.Err?
    ensures r.Ok? ==>
      && |r.value| == AssetIdLength + |MediaTypeToExt(mediaType)|
      && (forall i :: 0 <= i < AssetIdLength ==> Base64Url.IsUrlSafe(r.value[i]))
      && Base64Url.Decode(r.value[..AssetIdLength]) == Some(random.bytes)
      && r.value[AssetIdLength..] == MediaTypeToExt(mediaType)
      && IsSegment(r.value)
  {
    match random
    case ReadFailed => Panic("failed to generate random bytes")
    case Filled(base) =>
      var id := Base64Url.Encode(base);
      Base64Url.DecodeEncode(base);
      var path := id + MediaTypeToExt(mediaType);
      assert path[..AssetIdLength] == id;
      Ok(path)
  }

  /** Two asset paths are equal only if the random bytes were. */
  lemma AssetPathInjective(a: seq<byte>, b: seq<byte>, mediaType: string)
    requires |a| == AssetIdBytes && |b| == AssetIdBytes
    requires GetAssetPath(Filled(a), mediaType) == GetAssetPath(Filled(b), mediaType)
    ensures a == b
  {
  }

  /** `getObjectURL`: the host-style URL of an object in the S3 bucket. */
  function ObjectURL(cfg: Config, key: string): (url: string)
    ensures ObjectKey(cfg, url) == Some(key)
  {
    var url := "https://" + cfg.s3Bucket + ".s3." + cfg.s3Region + ".amazonaws.com/" + key;
    assert url == ObjectURLPrefix(cfg) + key;
    url
  }

  function ObjectURLPrefix(cfg: Config): string {
    "https://" + cfg.s3Bucket + ".s3." + cfg.s3Region + ".amazonaws.com/"
  }

  /** The key an object URL of this configuration names, if it is one. */
  function ObjectKey(cfg: Config, url: string): (key: Option<string>)
    ensures key.Some? ==> ObjectURLPrefix(cfg) + key.value == url
  {
    var prefix := ObjectURLPrefix(cfg);
    if |prefix| <= |url| && url[..|prefix|] == prefix then Some(url[|prefix|..]) else None
  }

  /** Object URLs of one configuration name distinct keys distinctly. */
  lemma ObjectURLInjective(cfg: Config, k1: string, k2: string)
    requires ObjectURL(cfg, k1) == ObjectURL(cfg, k2)
    ensures k1 == k2
  {
  }

  /** `getAssetURL`: where the local server serves an asset. */
  function AssetURL(cfg: Config, assetPath: string): (url: string)
    ensures AssetOfURL(cfg, url) == Some(assetPath)
  {
    var url := "http://localhost:" + cfg.port + "/assets/" + assetPath;
    assert url == AssetURLPrefix(cfg) + assetPath;
    url
  }

  function AssetURLPrefix(cfg: Config): string {
    "http://localhost:" + cfg.port + "/assets/"
  }

  /** The asset path an asset URL of this configuration names, if it is one. */
  function AssetOfURL(cfg: Config, url: string): (assetPath: Option<string>)
    ensures assetPath.Some? ==> AssetURLPrefix(cfg) + assetPath.value == url
  {
    var prefix := AssetURLPrefix(cfg);
    if |prefix| <= |url| && url[..|prefix|] == prefix then Some(url[|prefix|..]) else None
  }

  /** Asset URLs of one configuration name distinct assets distinctly. */
  lemma AssetURLInjective(cfg: Config, a: string, b: string)
    requires AssetURL(cfg, a) == AssetURL(cfg, b)
    ensures a == b
  {
  }

  /** A path `filepath.Clean` returns unchanged, of the shape the handlers
      join under: non-empty, and every `/`-separated segment a proper name,
      except the empty one before the `/` of an absolute path. (The root `/`
      alone is clean too, but is not of this shape.) */
  predicate IsCleanPath(p: string) {
    var parts := Split(p, '/');
    && p != ""
    && (parts[0] == "" || IsSegment(parts[0]))
    && forall i :: 1 <= i < |parts| ==> IsSegment(parts[i])
  }

  /** `getAssetDiskPath`: `filepath.Join(cfg.assetsRoot, assetPath)`, which
      drops an empty element and otherwise puts one `/` between the two. The
      path's segments are the root's followed by the name. */
  function AssetDiskPath(cfg: Config, assetPath: string): (path: string)
    ensures IsSegment(assetPath) && cfg.assetsRoot != "" ==>
      Split(path, '/') == Split(cfg.assetsRoot, '/') + [assetPath]
  {
    if cfg.assetsRoot == "" then assetPath
    else if assetPath == "" then cfg.assetsRoot
    else
      var path := cfg.assetsRoot + "/" + assetPath;
      assert IsSegment(assetPath) ==>
          Split(path, '/') == Split(cfg.assetsRoot, '/') + [assetPath] by {
        if IsSegment(assetPath) {
          SplitAtSeparator(cfg.assetsRoot, '/', assetPath);
          SplitNoSeparator(assetPath, '/');
        }
      }
      path
  }

  /** Under a clean root the joined path is clean as well, so the cleaning
      Go's `filepath.Join` also does changes nothing: the model's path is the
      one Go returns. */
  lemma AssetDiskPathClean(cfg: Config, assetPath: string)
    requires IsSegment(assetPath) && IsCleanPath(cfg.assetsRoot)
    ensures IsCleanPath(AssetDiskPath(cfg, assetPath))
  {
    var rootParts, parts := Split(cfg.assetsRoot, '/'), Split(AssetDiskPath(cfg, assetPath), '/');
    assert parts == rootParts + [assetPath];
    assert parts[0] == rootParts[0];
    forall i | 1 <= i < |parts|
      ensures IsSegment(parts[i])
    {
      if i < |rootParts| {
        assert parts[i] == rootParts[i];
      }
    }
  }

  /** Under one root, distinct asset names are stored at distinct paths. */
  lemma AssetDiskPathInjective(cfg: Config, a: string, b: string)
    requires cfg.assetsRoot != "" && IsSegment(a) && IsSegment(b)
    requires AssetDiskPath(cfg, a) == AssetDiskPath(cfg, b)
    ensures a == b
  {
    var pa, pb := Split(AssetDiskPath(cfg, a), '/'), Split(AssetDiskPath(cfg, b), '/');
    assert pa[|pa| - 1] == a && pb[|pb| - 1] == b;
  }

  /** The fields of one `ffprobe -show_streams` stream that the JSON carries. */
  datatype SideData = SideData(rotation: int)
  datatype ProbeStream = ProbeStream(
    codecType: string,
    width: int,
    height: int,
    sampleAspectRatio: string,
    displayAspectRatio: string,
    tags: map<string, string>,
    sideDataList: seq<SideData>)
  datatype FfprobeOut = FfprobeOut(streams: seq<ProbeStream>)

  /** How running `ffprobe` and decoding its output went. */
  datatype Probe = RunFailed(error: string) | UnmarshalFailed(error: string) | Parsed(out: FfprobeOut)

  /** `getVideoAspectRatio`: the first stream's display aspect ratio, verbatim;
      a failed run or decode is an error, and no stream at all is an index
      panic. */
  function GetVideoAspectRatio(probe: Probe): (r: Outcome<string>)
    ensures r.Err? <==> probe.RunFailed? || probe.UnmarshalFailed?
    ensures r.Err? ==> r.error == probe.error
    ensures r.Panic? <==> probe.Parsed? && probe.out.streams == []
    ensures r.Ok? ==> r.value == probe.out.streams[0].displayAspectRatio
  {
    match probe
    case RunFailed(e) => Err(e)
    case UnmarshalFailed(e) => Err(e)
    case Parsed(out) =>
      if |out.streams| == 0 then Panic("index out of range [0] with length 0")
      else Ok(out.streams[0].displayAspectRatio)
  }

  /** Only the first stream's display aspect ratio matters: width, height,
      tags, rotation and later streams are ignored. */
  lemma AspectRatioReadsOnlyFirstDisplay(a: FfprobeOut, b: FfprobeOut)
    requires a.streams != [] && b.streams != []
    requires a.streams[0].displayAspectRatio == b.streams[0].displayAspectRatio
    ensures GetVideoAspectRatio(Parsed(a)) == GetVideoAspectRatio(Parsed(b))
  {
  }
}
