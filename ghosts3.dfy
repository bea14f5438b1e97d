/** The S3 storage adapter of a Ghost blog (index.js): which configuration
    allows an upload, which object key an upload gets, which record is sent
    to S3, which public URL comes back, and which key a request path is
    served from.

    The AWS SDK calls and the file read are foreign I/O: their outcomes are
    inputs of `SaveOutcome`. `Date.now()` and the platform's `getTargetDir()`
    are inputs too.
 */
module GhostS3 {
  import opened JsText
  import opened NodePath

  type Bytes = seq<bv8>

  /** The adapter's configuration object. Every field may be absent. */
  datatype Config = Config(
    accessKeyId: Option<JsString>,
    secretAccessKey: Option<JsString>,
    bucket: Option<JsString>,
    region: Option<JsString>,
    assetHost: Option<JsString>,
    pathPrefix: Option<JsString>)

  /** The module's initial `options = {}`. */
  const NoConfig := Config(None, None, None, None, None, None)

  /** The upload the platform hands to `save`: a temporary file, its original
      name and its declared MIME type (`image.type`). */
  datatype Image = Image(path: JsString, name: JsString, mimeType: Option<JsString>)

  /** `validOptions`: both credentials, the bucket and the region are present
      and non-empty. */
  predicate ValidOptions(opts: Config) {
    Truthy(opts.accessKeyId) && Truthy(opts.secretAccessKey) && Truthy(opts.bucket) && Truthy(opts.region)
  }

  // ---------------------------------------------------------------------------
  // Public URL (getAwsPath)
  // ---------------------------------------------------------------------------

  /** The endpoint label of a region: bare "s3" for us-east-1, "s3-<region>"
      for every other value, `undefined` included. */
  function RegionEndpoint(region: Option<JsString>): JsString {
    if region == Some(Lit("us-east-1")) then Lit("s3") else Lit("s3-") + ToJsString(region)
  }

  /** `getAwsPath(bucket)`: the prefix of every public URL. Its argument is
      ignored; the bucket comes from the configuration. */
  function AwsPath(opts: Config, bucket: Option<JsString>): (prefix: JsString)
    ensures Truthy(opts.assetHost) ==> prefix == opts.assetHost.value
    ensures !Truthy(opts.assetHost) ==>
      |prefix| > 8 && prefix[..8] == Lit("https://") && prefix[|prefix| - 1] == Slash
  {
    if Truthy(opts.assetHost) then opts.assetHost.value
    else Lit("https://") + RegionEndpoint(opts.region) + Lit(".amazonaws.com/") + ToJsString(opts.bucket) + Lit("/")
  }

  /** The URL `save` resolves with for an uploaded key. */
  function PublicUrl(opts: Config, key: JsString): (url: JsString)
    ensures |url| >= |key| && url[|url| - |key|..] == key
  {
    AwsPath(opts, opts.bucket) + key
  }

  /** Without an asset host, region us-east-1 gives the bare endpoint. */
  lemma UsEast1Url(opts: Config, bucket: Option<JsString>)
    requires !Truthy(opts.assetHost) && opts.region == Some(Lit("us-east-1"))
    ensures AwsPath(opts, bucket) == Lit("https://s3.amazonaws.com/") + ToJsString(opts.bucket) + Lit("/")
  {
    LitConcat("https://", "s3");
    LitConcat("https://" + "s3", ".amazonaws.com/");
    assert "https://" + "s3" + ".amazonaws.com/" == "https://s3.amazonaws.com/";
  }

  /** Without an asset host, every other region gives the "s3-<region>"
      endpoint; an absent region or bucket is rendered as "undefined". */
  lemma RegionalUrl(opts: Config, bucket: Option<JsString>)
    requires !Truthy(opts.assetHost) && opts.region != Some(Lit("us-east-1"))
    ensures AwsPath(opts, bucket)
         == Lit("https://s3-") + ToJsString(opts.region) + Lit(".amazonaws.com/") + ToJsString(opts.bucket) + Lit("/")
  {
    LitConcat("https://", "s3-");
    assert "https://" + "s3-" == "https://s3-";
  }

  /** Without an asset host and a region, the endpoint is "s3-undefined". */
  lemma UndefinedRegionUrl(opts: Config, bucket: Option<JsString>)
    requires !Truthy(opts.assetHost) && opts.region == None
    ensures AwsPath(opts, bucket) == Lit("https://s3-undefined") + Lit(".amazonaws.com/") + ToJsString(opts.bucket) + Lit("/")
  {
    RegionalUrl(opts, bucket);
    UndefinedEndpointLit();
  }

  /** The literal join of the "s3-undefined" URL prefix. */
  lemma UndefinedEndpointLit()
    ensures Lit("https://s3-") + Lit("undefined") == Lit("https://s3-undefined")
  {
    LitConcat("https://s3-", "undefined");
    assert "https://s3-" + "undefined" == "https://s3-undefined";
  }

  /** A configured asset host is the whole prefix, whatever the region and the
      bucket, and the key follows it with no separator added. */
  lemma AssetHostUrl(opts: Config, key: JsString)
    requires Truthy(opts.assetHost)
    ensures PublicUrl(opts, key) == opts.assetHost.value + key
  {
  }

  /** Different regions never share an endpoint. */
  lemma {:induction false} RegionEndpointInjective(r1: JsString, r2: JsString)
    requires RegionEndpoint(Some(r1)) == RegionEndpoint(Some(r2))
    ensures r1 == r2
  {
    var us := Lit("us-east-1");
    if r1 != us && r2 != us {
      assert r1 == RegionEndpoint(Some(r1))[3..];
    }
  }

  /** A path-style S3 URL taken apart: host, bucket and key. */
  datatype PathStyleUrl = PathStyleUrl(host: JsString, bucket: JsString, key: JsString)

  /** Reads "https://<host>/<bucket>/<key>", splitting at the first two
      separators after the scheme. */
  function ParsePathStyleUrl(url: JsString): Option<PathStyleUrl> {
    var scheme := Lit("https://");
    if |url| < |scheme| || url[..|scheme|] != scheme then None
    else
      var rest := url[|scheme|..];
      var i := IndexOf(rest, Slash);
      if i < 0 then None
      else
        var tail := rest[i + 1..];
        var j := IndexOf(tail, Slash);
        if j < 0 then None
        else Some(PathStyleUrl(rest[..i], tail[..j], tail[j + 1..]))
  }

  /** The first separator of `x + "/" + y` is the one after `x` when `x` has none. */
  lemma FirstSlashAfter(x: JsString, y: JsString)
    requires NoSlash(x)
    ensures IndexOf(x + [Slash] + y, Slash) == |x|
  {
    var s := x + [Slash] + y;
    assert s[|x|] == Slash;
    forall i | 0 <= i < |x| ensures s[i] != Slash {
      assert s[i] == x[i];
    }
  }

  /** A URL built from a host and a bucket without separators reads back as
      that host, that bucket and the key. */
  lemma {:induction false} ParsePathStyleUrlOf(host: JsString, bucket: JsString, key: JsString)
    requires NoSlash(host) && NoSlash(bucket)
    ensures ParsePathStyleUrl(Lit("https://") + (host + [Slash] + (bucket + [Slash] + key)))
         == Some(PathStyleUrl(host, bucket, key))
  {
    var tail := bucket + [Slash] + key;
    var rest := host + [Slash] + tail;
    var url := Lit("https://") + rest;
    assert url[..8] == Lit("https://") && url[8..] == rest;
    FirstSlashAfter(host, tail);
    assert rest[..|host|] == host && rest[|host| + 1..] == tail;
    FirstSlashAfter(bucket, key);
    assert tail[..|bucket|] == bucket && tail[|bucket| + 1..] == key;
  }

  /** The endpoint host of a region without separators has none either. */
  lemma EndpointHostNoSlash(region: JsString)
    requires NoSlash(region)
    ensures NoSlash(RegionEndpoint(Some(region)) + Lit(".amazonaws.com"))
  {
    var suffix := Lit(".amazonaws.com");
    assert NoSlash(suffix) by {
      forall i | 0 <= i < |suffix| ensures suffix[i] != Slash {
        assert ".amazonaws.com"[i] != '/';
      }
    }
    if region != Lit("us-east-1") {
      var endpoint := Lit("s3-") + region;
      assert NoSlash(endpoint) by {
        forall i | 0 <= i < |endpoint| ensures endpoint[i] != Slash {
          if i >= 3 { assert endpoint[i] == region[i - 3]; }
        }
      }
      NoSlashConcat(endpoint, suffix);
    } else {
      NoSlashConcat(Lit("s3"), suffix);
    }
  }

  /** Joining two strings without separators gives none. */
  lemma NoSlashConcat(a: JsString, b: JsString)
    requires NoSlash(a) && NoSlash(b)
    ensures NoSlash(a + b)
  {
    forall i | 0 <= i < |a + b| ensures (a + b)[i] != Slash {
      if i >= |a| { assert (a + b)[i] == b[i - |a|]; }
    }
  }

  /** Without an asset host, the public URL names the region's endpoint, the
      configured bucket and the key, and these can be read back from it
      (when neither the region nor the bucket contains a separator). */
  lemma {:induction false} PublicUrlParts(opts: Config, key: JsString)
    requires !Truthy(opts.assetHost) && opts.bucket.Some? && opts.region.Some?
    requires NoSlash(opts.bucket.value) && NoSlash(opts.region.value)
    ensures ParsePathStyleUrl(PublicUrl(opts, key))
         == Some(PathStyleUrl(RegionEndpoint(opts.region) + Lit(".amazonaws.com"), opts.bucket.value, key))
  {
    var host := RegionEndpoint(opts.region) + Lit(".amazonaws.com");
    var b := opts.bucket.value;
    assert Lit(".amazonaws.com/") == Lit(".amazonaws.com") + [Slash];
    assert Lit("/") == [Slash];
    assert PublicUrl(opts, key) == Lit("https://") + (host + [Slash] + (b + [Slash] + key));
    EndpointHostNoSlash(opts.region.value);
    ParsePathStyleUrlOf(host, b, key);
  }

  // ---------------------------------------------------------------------------
  // Object key (getTargetName and the target directory of save)
  // ---------------------------------------------------------------------------

  /** `options.pathPrefix + this.getTargetDir()` as written: an absent prefix
      is rendered as the text "undefined". */
  function TargetDirAsWritten(opts: Config, platformDir: JsString): (dir: JsString)
    ensures |dir| >= |platformDir| && dir[|dir| - |platformDir|..] == platformDir
    ensures opts.pathPrefix.Some? ==>
      |dir| == |opts.pathPrefix.value| + |platformDir| && dir[..|opts.pathPrefix.value|] == opts.pathPrefix.value
    ensures opts.pathPrefix == None ==> |dir| == 9 + |platformDir|
  {
    ToJsString(opts.pathPrefix) + platformDir
  }

  /** With no path prefix configured, the code as written files every upload
      under a directory that starts with "undefined". */
  lemma AbsentPrefixAsWritten(opts: Config, platformDir: JsString)
    requires opts.pathPrefix == None
    ensures TargetDirAsWritten(opts, platformDir) == Lit("undefined") + platformDir
    ensures TargetDirAsWritten(opts, platformDir) != platformDir
  {
  }

  /** The target directory as intended: the prefix, when configured, directly
      followed by the platform's directory, with no separator; no prefix adds
      nothing. */
  function TargetDir(opts: Config, platformDir: JsString): (dir: JsString)
    ensures |dir| >= |platformDir| && dir[|dir| - |platformDir|..] == platformDir
    ensures opts.pathPrefix.Some? ==>
      |dir| == |opts.pathPrefix.value| + |platformDir| && dir[..|opts.pathPrefix.value|] == opts.pathPrefix.value
    ensures opts.pathPrefix == None ==> dir == platformDir
  {
    match opts.pathPrefix
    case Some(prefix) => prefix + platformDir
    case None => platformDir
  }

  /** `replace(/\W/g, '_')`: every code unit outside `[A-Za-z0-9_]` becomes
      one underscore. */
  function Sanitize(s: JsString): (r: JsString)
    ensures |r| == |s|
    ensures forall i :: 0 <= i < |r| ==> IsWordUnit(r[i])
    ensures forall i :: 0 <= i < |s| && IsWordUnit(s[i]) ==> r[i] == s[i]
    ensures forall i :: 0 <= i < |s| && !IsWordUnit(s[i]) ==> r[i] == Underscore
  {
    seq(|s|, i requires 0 <= i < |s| => if IsWordUnit(s[i]) then s[i] else Underscore)
  }

  /** Sanitizing twice changes nothing more. */
  lemma SanitizeIdempotent(s: JsString)
    ensures Sanitize(Sanitize(s)) == Sanitize(s)
  {
  }

  /** A name is left unchanged exactly when it holds only word units. */
  lemma SanitizeFixedPoints(s: JsString)
    ensures Sanitize(s) == s <==> forall i :: 0 <= i < |s| ==> IsWordUnit(s[i])
  {
    if Sanitize(s) == s {
      forall i | 0 <= i < |s| ensures IsWordUnit(s[i]) {
        assert Sanitize(s)[i] == s[i];
      }
    }
  }

  /** `getTargetName(image, targetDir)`: the directory, a separator, the
      sanitized stem of the original name, a hyphen, the timestamp and the
      original extension. */
  function TargetName(name: JsString, targetDir: JsString, now: nat): JsString {
    targetDir + [Slash] + Sanitize(Stem(name)) + [Hyphen] + Decimal(now) + Extname(name)
  }

  /** "My Photo!!.png" uploaded into "2024/03" is stored as
      "2024/03/My_Photo__-<timestamp>.png". */
  lemma TargetNameExample(now: nat)
    ensures TargetName(Lit("My Photo!!.png"), Lit("2024/03"), now)
         == Lit("2024/03/My_Photo__-") + Decimal(now) + Lit(".png")
  {
    var prefix := Lit("2024/03") + [Slash] + Lit("My_Photo__") + [Hyphen];
    assert Lit("2024/03/My_Photo__-") == prefix by {
      LitConcat("2024/03", "/");
      LitConcat("2024/03/", "My_Photo__");
      LitConcat("2024/03/My_Photo__", "-");
      assert "2024/03" + "/" + "My_Photo__" + "-" == "2024/03/My_Photo__-";
      assert Lit("/") == [Slash] && Lit("-") == [Hyphen];
    }
    ExampleSplit();
    ExampleSanitized();
  }

  /** The example name splits at its last '.'. */
  lemma ExampleSplit()
    ensures Extname(Lit("My Photo!!.png")) == Lit(".png")
    ensures Stem(Lit("My Photo!!.png")) == Lit("My Photo!!")
  {
    var name := Lit("My Photo!!.png");
    assert NoSlash(name) by {
      forall i | 0 <= i < |name| ensures name[i] != Slash {
        assert "My Photo!!.png"[i] != '/';
      }
    }
    assert LastIndexOf(name, Dot) == 10 by {
      assert name[10] == Dot;
      assert name[11] != Dot && name[12] != Dot && name[13] != Dot;
    }
    assert name[10..] == Lit(".png");
    assert name[..10] == Lit("My Photo!!");
  }

  /** The space and the two '!' of the example become underscores. */
  lemma ExampleSanitized()
    ensures Sanitize(Lit("My Photo!!")) == Lit("My_Photo__")
  {
  }

  /** The file part of an object key taken apart. */
  datatype FileParts = FileParts(stem: JsString, timestamp: nat, ext: JsString)

  /** An object key taken apart: its directory and its file part. */
  datatype KeyParts = KeyParts(dir: JsString, file: FileParts)

  /** Reads a file part of the shape `TargetName` builds: the extension as
      `path.extname` finds it, the timestamp after the last hyphen before it. */
  function ParseFileName(file: JsString): Option<FileParts>
    requires NoSlash(file)
  {
    var ext := SegmentExtname(file);
    var base := file[..|file| - |ext|];
    var h := LastIndexOf(base, Hyphen);
    if h < 0 then None
    else
      var digits := base[h + 1..];
      if !IsCanonicalNumeral(digits) then None
      else Some(FileParts(base[..h], NumeralValue(digits), ext))
  }

  /** Reads a key of the shape `TargetName` builds: the directory up to the
      last separator, then the file part. */
  function ParseKey(key: JsString): Option<KeyParts> {
    var s := LastIndexOf(key, Slash);
    if s < 0 then None
    else
      match ParseFileName(key[s + 1..])
      case None => None
      case Some(file) => Some(KeyParts(key[..s], file))
  }

  /** The extension of a generated file part is the original extension: neither
      the sanitized stem nor the hyphen nor the numeral holds a '.'. */
  lemma {:induction false} FilePartExtname(stem: JsString, digits: JsString, ext: JsString)
    requires forall i :: 0 <= i < |stem| ==> IsWordUnit(stem[i])
    requires AllDigits(digits)
    requires NoSlash(ext)
    requires ext == [] || (ext[0] == Dot && forall i :: 1 <= i < |ext| ==> ext[i] != Dot)
    ensures var file := stem + [Hyphen] + digits + ext;
      NoSlash(file) && SegmentExtname(file) == ext
  {
    var file := stem + [Hyphen] + digits + ext;
    var n := |stem| + 1 + |digits|;
    assert forall i :: 0 <= i < n ==> file[i] != Dot && file[i] != Slash by {
      forall i | 0 <= i < n ensures file[i] != Dot && file[i] != Slash {
        if i < |stem| { assert file[i] == stem[i]; }
        else if i > |stem| { assert file[i] == digits[i - |stem| - 1]; }
      }
    }
    assert forall i :: n <= i < |file| ==> file[i] == ext[i - n];
    assert file[|stem|] == Hyphen;
    var r := SegmentExtname(file);
    if ext == [] {
      assert forall i :: 1 <= i < |file| ==> file[i] != Dot;
    } else {
      assert r != [] by { assert file[n] == Dot; }
    }
  }

  /** The last `u` of `x + [u] + y` is the one after `x` when `y` has none. */
  lemma LastUnitBefore(x: JsString, u: CodeUnit, y: JsString)
    requires forall i :: 0 <= i < |y| ==> y[i] != u
    ensures LastIndexOf(x + [u] + y, u) == |x|
  {
    var s := x + [u] + y;
    assert s[|x|] == u;
  }

  /** A file part assembled from a word-only stem, a numeral and an extension
      reads back as those parts. */
  lemma {:induction false} ParseFileNameOf(stem: JsString, digits: JsString, ext: JsString)
    requires forall i :: 0 <= i < |stem| ==> IsWordUnit(stem[i])
    requires IsCanonicalNumeral(digits)
    requires NoSlash(ext)
    requires ext == [] || (ext[0] == Dot && forall i :: 1 <= i < |ext| ==> ext[i] != Dot)
    ensures NoSlash(stem + [Hyphen] + digits + ext)
    ensures ParseFileName(stem + [Hyphen] + digits + ext) == Some(FileParts(stem, NumeralValue(digits), ext))
  {
    var file := stem + [Hyphen] + digits + ext;
    FilePartExtname(stem, digits, ext);
    var base := stem + [Hyphen] + digits;
    assert file[..|file| - |ext|] == base;
    LastUnitBefore(stem, Hyphen, digits);
    assert base[|stem| + 1..] == digits && base[..|stem|] == stem;
  }

  /** A key is its directory, a separator and a file part without separators. */
  lemma ParseKeyOf(dir: JsString, file: JsString)
    requires NoSlash(file)
    ensures ParseKey(dir + [Slash] + file)
         == match ParseFileName(file) case None => None case Some(f) => Some(KeyParts(dir, f))
  {
    var key := dir + [Slash] + file;
    LastUnitBefore(dir, Slash, file);
    assert key[|dir| + 1..] == file && key[..|dir|] == dir;
  }

  /** A generated key reads back as its directory, the sanitized stem, the
      timestamp and the original extension. */
  lemma {:induction false} TargetNameRoundTrip(name: JsString, targetDir: JsString, now: nat)
    ensures ParseKey(TargetName(name, targetDir, now))
         == Some(KeyParts(targetDir, FileParts(Sanitize(Stem(name)), now, Extname(name))))
  {
    var stem := Sanitize(Stem(name));
    var digits := Decimal(now);
    var ext := Extname(name);
    var file := stem + [Hyphen] + digits + ext;
    assert TargetName(name, targetDir, now) == targetDir + [Slash] + file;
    ParseFileNameOf(stem, digits, ext);
    ParseKeyOf(targetDir, file);
    DecimalRoundTrip(now);
  }

  /** Two uploads of the same file into the same directory at different
      milliseconds get different keys. */
  lemma TargetNameDistinct(name: JsString, targetDir: JsString, t1: nat, t2: nat)
    requires t1 != t2
    ensures TargetName(name, targetDir, t1) != TargetName(name, targetDir, t2)
  {
    TargetNameRoundTrip(name, targetDir, t1);
    TargetNameRoundTrip(name, targetDir, t2);
  }

  // ---------------------------------------------------------------------------
  // The upload record (the params of save)
  // ---------------------------------------------------------------------------

  /** The request sent to `putObject`. */
  datatype PutObjectParams = PutObjectParams(
    acl: JsString,
    bucket: Option<JsString>,
    key: JsString,
    body: Bytes,
    contentType: Option<JsString>,
    cacheControl: JsString)

  const SecondsPerDay: nat := 24 * 60 * 60

  /** The max-age the code computes: 1000 * 365 days' worth of seconds. */
  const CacheMaxAge: nat := 1000 * 365 * 24 * 60 * 60

  /** The Cache-Control header of every upload. */
  function CacheControl(): JsString {
    Lit("max-age=") + Decimal(CacheMaxAge)
  }

  /** The header is "max-age=31536000000": max-age counts seconds (section
      5.2.2.1 of RFC 9111), so this is 365000 days, a thousand times the year
      the code's comment announces. */
  lemma CacheControlValue()
    ensures CacheControl() == Lit("max-age=31536000000")
    ensures CacheMaxAge == 1000 * (365 * SecondsPerDay)
  {
    DecimalSteps();
    LitConcat("max-age=", "31536000000");
    assert "max-age=" + "31536000000" == "max-age=31536000000";
  }

  /** The numeral of the max-age, digit by digit. */
  lemma DecimalSteps()
    ensures Decimal(31536000000) == Lit("31536000000")
  {
    assert Decimal(3) == [0x33];
    DecimalDigit(3, 1);
    DecimalDigit(31, 5);
    DecimalDigit(315, 3);
    DecimalDigit(3153, 6);
    DecimalDigit(31536, 0);
    DecimalDigit(315360, 0);
    DecimalDigit(3153600, 0);
    DecimalDigit(31536000, 0);
    DecimalDigit(315360000, 0);
    DecimalDigit(3153600000, 0);
    assert Lit("31536000000") == [0x33, 0x31, 0x35, 0x33, 0x36, 0x30, 0x30, 0x30, 0x30, 0x30, 0x30];
  }

  /** The record `save` uploads for a key and the file's bytes. */
  function UploadParams(opts: Config, key: JsString, body: Bytes, contentType: Option<JsString>): PutObjectParams {
    PutObjectParams(Lit("public-read"), opts.bucket, key, body, contentType, CacheControl())
  }

  // ---------------------------------------------------------------------------
  // The key a request is served from (the handler of serve)
  // ---------------------------------------------------------------------------

  /** The request sent to `getObject`. */
  datatype GetObjectParams = GetObjectParams(bucket: Option<JsString>, key: JsString)

  /** `req.path.replace(/^\//, '').replace(/\/$/, '')`: one leading separator
      and then one trailing separator are removed, when present. */
  function RequestKey(path: JsString): (key: JsString)
    ensures var lead := if path != [] && path[0] == Slash then 1 else 0;
      && lead + |key| <= |path| <= lead + |key| + 1
      && key == path[lead..lead + |key|]
      && (|path| == lead + |key| + 1 <==> |path| > lead && path[|path| - 1] == Slash)
  {
    var p := if path != [] && path[0] == Slash then path[1..] else path;
    if p != [] && p[|p| - 1] == Slash then p[..|p| - 1] else p
  }

  /** The three shapes of request path: a file, the root, doubled separators. */
  lemma RequestKeyExamples()
    ensures RequestKey(Lit("/a/b.png")) == Lit("a/b.png")
    ensures RequestKey(Lit("/")) == []
    ensures RequestKey(Lit("//a//")) == Lit("/a/")
  {
    assert Lit("/a/b.png")[1..] == Lit("a/b.png");
    assert Lit("//a//")[1..] == Lit("/a//");
    assert Lit("/a//")[..3] == Lit("/a/");
  }

  /** The object stored under `key` is served at the path "/" + key, provided
      the key does not end with a separator. */
  lemma RequestKeyRoundTrip(key: JsString)
    requires key == [] || key[|key| - 1] != Slash
    ensures RequestKey(Lit("/") + key) == key
  {
    assert (Lit("/") + key)[1..] == key;
  }

  /** Every key `save` generates is served back from "/" + key. */
  lemma {:induction false} GeneratedKeyIsServed(name: JsString, targetDir: JsString, now: nat)
    ensures RequestKey(Lit("/") + TargetName(name, targetDir, now)) == TargetName(name, targetDir, now)
  {
    var key := TargetName(name, targetDir, now);
    var ext := Extname(name);
    var digits := Decimal(now);
    if ext == [] {
      assert key[|key| - 1] == digits[|digits| - 1];
    } else {
      assert key[|key| - 1] == ext[|ext| - 1];
      assert LastSegment(name)[|LastSegment(name)| - 1] == ext[|ext| - 1];
    }
    RequestKeyRoundTrip(key);
  }

  /** The parameters the serving handler sends for a request path. The bucket
      is read unchecked: `serve` does not validate the configuration. */
  function DownloadParams(opts: Config, requestPath: JsString): GetObjectParams {
    GetObjectParams(opts.bucket, RequestKey(requestPath))
  }

  // ---------------------------------------------------------------------------
  // save, as a function of the I/O outcomes
  // ---------------------------------------------------------------------------

  /** The outcome of one foreign step (reading the file, the S3 request). */
  datatype Result<+T, +E> = Ok(value: T) | Err(error: E)

  /** What `save`'s promise rejects with: the fixed configuration message, or
      the error of the file read or of S3, passed on unchanged. */
  datatype Rejection<+E> = Message(text: JsString) | Raised(error: E)

  const NotConfigured := Lit("ghost-s3 is not configured")

  /** What one call of `save` did: the files it read, the uploads it sent, and
      how its promise settled. */
  datatype SaveTrace<+E> = SaveTrace(fileReads: seq<JsString>, uploads: seq<PutObjectParams>, result: Result<JsString, Rejection<E>>)

  /** The module options as `save` reads them at its three points: the
      synchronous call (the check, the key, the S3 client), the callback that
      builds the upload record once the file is read, and the callback that
      builds the URL once the upload succeeded. A store constructed while a
      save is in flight makes the later two differ from the first. */
  datatype OptionsSeen = OptionsSeen(atCall: Config, atUpload: Config, atResolve: Config)

  /** The options of a save during which no store is constructed. */
  function Steady(opts: Config): OptionsSeen {
    OptionsSeen(opts, opts, opts)
  }

  /** The key `save` computes synchronously: `getTargetName(image, options.pathPrefix + this.getTargetDir())`. */
  function SaveKey(opts: Config, image: Image, platformDir: JsString, now: nat): JsString {
    TargetName(image.name, TargetDirAsWritten(opts, platformDir), now)
  }

  /** The steps of `save` after the configuration check, for a given key. */
  function SaveSteps<E>(seen: OptionsSeen, image: Image, key: JsString,
                        read: Result<Bytes, E>, put: Result<(), E>): SaveTrace<E>
  {
    if !ValidOptions(seen.atCall) then SaveTrace([], [], Err(Message(NotConfigured)))
    else
      match read
      case Err(e) => SaveTrace([image.path], [], Err(Raised(e)))
      case Ok(body) =>
        var params := UploadParams(seen.atUpload, key, body, image.mimeType);
        match put
        case Err(e) => SaveTrace([image.path], [params], Err(Raised(e)))
        case Ok(_) => SaveTrace([image.path], [params], Ok(PublicUrl(seen.atResolve, key)))
  }

  /** `save(image)` as written, given the options it reads, the platform's
      target directory, the clock, and the outcomes of the file read and of
      `putObject`. */
  function SaveOutcome<E>(seen: OptionsSeen, image: Image, platformDir: JsString, now: nat,
                          read: Result<Bytes, E>, put: Result<(), E>): SaveTrace<E>
  {
    SaveSteps(seen, image, SaveKey(seen.atCall, image, platformDir, now), read, put)
  }

  /** `save` with the target directory as intended (`TargetDir`: an absent
      path prefix adds nothing). */
  function SaveOutcomeIntended<E>(seen: OptionsSeen, image: Image, platformDir: JsString, now: nat,
                                  read: Result<Bytes, E>, put: Result<(), E>): SaveTrace<E>
  {
    SaveSteps(seen, image, TargetName(image.name, TargetDir(seen.atCall, platformDir), now), read, put)
  }

  /** `save` touches the file system exactly when the configuration at the call
      is valid; otherwise it rejects with the fixed message and uploads nothing. */
  lemma SaveChecksConfigFirst<E>(seen: OptionsSeen, image: Image, platformDir: JsString, now: nat,
                                 read: Result<Bytes, E>, put: Result<(), E>)
    ensures var trace := SaveOutcome(seen, image, platformDir, now, read, put);
      && (trace.fileReads == [] <==> !ValidOptions(seen.atCall))
      && (!ValidOptions(seen.atCall) <==> trace.result == Err(Message(Lit("ghost-s3 is not configured"))))
      && (!ValidOptions(seen.atCall) ==> trace.uploads == [])
  {
  }

  /** On a valid configuration and a readable file, exactly one upload is sent,
      and it is the fixed public-read record for the generated key, addressed
      to the bucket configured when the file had been read. */
  lemma SaveUploadsOnce<E>(seen: OptionsSeen, image: Image, platformDir: JsString, now: nat,
                           body: Bytes, put: Result<(), E>)
    requires ValidOptions(seen.atCall)
    ensures var key := TargetName(image.name, ToJsString(seen.atCall.pathPrefix) + platformDir, now);
      var trace := SaveOutcome(seen, image, platformDir, now, Ok(body), put);
      && trace.fileReads == [image.path]
      && trace.uploads == [PutObjectParams(Lit("public-read"), seen.atUpload.bucket, key, body, image.mimeType,
                                           Lit("max-age=31536000000"))]
  {
    CacheControlValue();
  }

  /** A failed read or a failed upload rejects with that very error; a failed
      read sends no upload. */
  lemma SavePropagatesErrors<E>(seen: OptionsSeen, image: Image, platformDir: JsString, now: nat,
                                read: Result<Bytes, E>, put: Result<(), E>)
    requires ValidOptions(seen.atCall)
    ensures var trace := SaveOutcome(seen, image, platformDir, now, read, put);
      && (read.Err? ==> trace.result == Err(Raised(read.error)) && trace.uploads == [])
      && (read.Ok? && put.Err? ==> trace.result == Err(Raised(put.error)) && |trace.uploads| == 1)
  {
  }

  /** A successful save resolves with the URL prefix followed by the uploaded
      key: with an asset host, that host and the key; without one, a URL that
      names the configured bucket and the key. The key names the target
      directory as written, the timestamp and the original extension. */
  lemma {:induction false} SaveResolvesToUrl<E>(seen: OptionsSeen, image: Image, platformDir: JsString, now: nat, body: Bytes)
    requires ValidOptions(seen.atCall)
    ensures var trace := SaveOutcome<E>(seen, image, platformDir, now, Ok(body), Ok(()));
      var opts := seen.atResolve;
      && trace.result.Ok? && |trace.uploads| == 1
      && trace.result.value == AwsPath(opts, opts.bucket) + trace.uploads[0].key
      && (Truthy(opts.assetHost) ==> trace.result.value == opts.assetHost.value + trace.uploads[0].key)
      && (!Truthy(opts.assetHost) && opts.bucket.Some? && opts.region.Some? &&
          NoSlash(opts.bucket.value) && NoSlash(opts.region.value) ==>
          ParsePathStyleUrl(trace.result.value)
          == Some(PathStyleUrl(RegionEndpoint(opts.region) + Lit(".amazonaws.com"), opts.bucket.value, trace.uploads[0].key)))
      && ParseKey(trace.uploads[0].key)
         == Some(KeyParts(TargetDirAsWritten(seen.atCall, platformDir), FileParts(Sanitize(Stem(image.name)), now, Extname(image.name))))
  {
    var opts := seen.atResolve;
    var key := SaveKey(seen.atCall, image, platformDir, now);
    if !Truthy(opts.assetHost) && opts.bucket.Some? && opts.region.Some? &&
       NoSlash(opts.bucket.value) && NoSlash(opts.region.value) {
      PublicUrlParts(opts, key);
    }
    TargetNameRoundTrip(image.name, TargetDirAsWritten(seen.atCall, platformDir), now);
  }

  /** Two successful saves of the same file at different milliseconds resolve
      with different URLs. */
  lemma SaveDistinctUrls<E>(seen: OptionsSeen, image: Image, platformDir: JsString, t1: nat, t2: nat,
                            body1: Bytes, body2: Bytes)
    requires ValidOptions(seen.atCall) && t1 != t2
    ensures SaveOutcome<E>(seen, image, platformDir, t1, Ok(body1), Ok(())).result
         != SaveOutcome<E>(seen, image, platformDir, t2, Ok(body2), Ok(())).result
  {
    var dir := TargetDirAsWritten(seen.atCall, platformDir);
    var k1 := TargetName(image.name, dir, t1);
    var k2 := TargetName(image.name, dir, t2);
    TargetNameDistinct(image.name, dir, t1, t2);
    var prefix := AwsPath(seen.atResolve, seen.atResolve.bucket);
    assert (prefix + k1)[|prefix|..] == k1 && (prefix + k2)[|prefix|..] == k2;
  }

  /** As written, a save without a path prefix uploads its file under a
      directory named "undefined" followed by the platform's directory. */
  lemma {:induction false} SaveKeyAsWritten<E>(seen: OptionsSeen, image: Image, platformDir: JsString, now: nat, body: Bytes)
    requires ValidOptions(seen.atCall) && seen.atCall.pathPrefix == None
    ensures var trace := SaveOutcome<E>(seen, image, platformDir, now, Ok(body), Ok(()));
      && |trace.uploads| == 1
      && ParseKey(trace.uploads[0].key).Some?
      && ParseKey(trace.uploads[0].key).value.dir == Lit("undefined") + platformDir
      && ParseKey(trace.uploads[0].key).value.dir != platformDir
  {
    AbsentPrefixAsWritten(seen.atCall, platformDir);
    TargetNameRoundTrip(image.name, TargetDirAsWritten(seen.atCall, platformDir), now);
  }

  /** As intended, the key lands in the platform's directory behind the path
      prefix, and with no prefix directly in the platform's directory. */
  lemma {:induction false} SaveKeyIntended<E>(seen: OptionsSeen, image: Image, platformDir: JsString, now: nat, body: Bytes)
    requires ValidOptions(seen.atCall)
    ensures var trace := SaveOutcomeIntended<E>(seen, image, platformDir, now, Ok(body), Ok(()));
      var prefix := if seen.atCall.pathPrefix.Some? then seen.atCall.pathPrefix.value else [];
      && |trace.uploads| == 1
      && ParseKey(trace.uploads[0].key) == Some(KeyParts(prefix + platformDir, FileParts(Sanitize(Stem(image.name)), now, Extname(image.name))))
  {
    var dir := TargetDir(seen.atCall, platformDir);
    var prefix := if seen.atCall.pathPrefix.Some? then seen.atCall.pathPrefix.value else [];
    assert dir == prefix + platformDir;
    TargetNameRoundTrip(image.name, dir, now);
  }

  // ---------------------------------------------------------------------------
  // The module-level options and the store objects
  // ---------------------------------------------------------------------------

  /** The module scope of index.js: the one `options` variable that every
      store reads. */
  class ModuleScope {
    var options: Config

    constructor ()
      ensures options == NoConfig
    {
      options := NoConfig;
    }
  }

  /** An `S3Store`. It holds no configuration of its own: constructing one
      overwrites the module's `options`, and every store reads them. */
  class S3Store {
    const scope: ModuleScope

    constructor (scope: ModuleScope, config: Config)
      modifies scope
      ensures this.scope == scope && scope.options == config
    {
      this.scope := scope;
      new;
      scope.options := config;
    }

    /** The synchronous part of `save`: the configuration check, then the
        key, against the options current at the call. */
    method BeginSave(image: Image, platformDir: JsString, now: nat) returns (key: Option<JsString>)
      ensures key.None? <==> !ValidOptions(scope.options)
      ensures key.Some? ==> key.value == SaveKey(scope.options, image, platformDir, now)
    {
      if !ValidOptions(scope.options) {
        return None;
      }
      var targetDir := ToJsString(scope.options.pathPrefix) + platformDir;
      key := Some(TargetName(image.name, targetDir, now));
    }

    /** The callback run once the file is read: the upload record, against the
        options current at that time. */
    method UploadRecord(key: JsString, body: Bytes, contentType: Option<JsString>) returns (params: PutObjectParams)
      ensures params == UploadParams(scope.options, key, body, contentType)
    {
      params := PutObjectParams(Lit("public-read"), scope.options.bucket, key, body, contentType, CacheControl());
    }

    /** The callback run once the upload succeeded: the URL, against the
        options current at that time. */
    method ResolvedUrl(key: JsString) returns (url: JsString)
      ensures url == PublicUrl(scope.options, key)
    {
      var awsPath := AwsPath(scope.options, scope.options.bucket);
      url := awsPath + key;
    }

    /** `save`, its steps run one after the other with no store constructed
        in between. */
    method Save<E>(image: Image, platformDir: JsString, now: nat, read: Result<Bytes, E>, put: Result<(), E>)
      returns (trace: SaveTrace<E>)
      ensures trace == SaveOutcome(Steady(scope.options), image, platformDir, now, read, put)
    {
      var key := BeginSave(image, platformDir, now);
      if key.None? {
        return SaveTrace([], [], Err(Message(NotConfigured)));
      }
      match read
      case Err(e) =>
        trace := SaveTrace([image.path], [], Err(Raised(e)));
      case Ok(body) =>
        var params := UploadRecord(key.value, body, image.mimeType);
        match put
        case Err(e) =>
          trace := SaveTrace([image.path], [params], Err(Raised(e)));
        case Ok(_) =>
          var url := ResolvedUrl(key.value);
          trace := SaveTrace([image.path], [params], Ok(url));
    }

    /** The `getObject` parameters the handler returned by `serve` sends for a
        request path. */
    method ServeParams(requestPath: JsString) returns (params: GetObjectParams)
      ensures params == GetObjectParams(scope.options.bucket, RequestKey(requestPath))
    {
      params := DownloadParams(scope.options, requestPath);
    }
  }

  /** Constructing a second store reconfigures the first: both read the one
      module-level `options`. */
  method ConstructSecondStore(first: S3Store, config: Config) returns (second: S3Store)
    modifies first.scope
    ensures second.scope == first.scope && first.scope.options == config
  {
    second := new S3Store(first.scope, config);
  }

  /** A successful save during whose file read a second store is constructed:
      the key comes from the options at the call, but the upload's bucket and
      the URL come from the new store's configuration. */
  method SaveAcrossConstruction<E>(store: S3Store, image: Image, platformDir: JsString, now: nat,
                                   body: Bytes, config: Config)
    returns (trace: SaveTrace<E>, second: S3Store)
    modifies store.scope
    ensures second.scope == store.scope && store.scope.options == config
    ensures trace == SaveOutcome(OptionsSeen(old(store.scope.options), config, config), image, platformDir, now, Ok(body), Ok(()))
  {
    var key := store.BeginSave(image, platformDir, now);
    second := new S3Store(store.scope, config);
    if key.None? {
      return SaveTrace([], [], Err(Message(NotConfigured))), second;
    }
    var params := store.UploadRecord(key.value, body, image.mimeType);
    var url := store.ResolvedUrl(key.value);
    trace := SaveTrace([image.path], [params], Ok(url));
  }
}
