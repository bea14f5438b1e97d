# ghost-s3-compat in Dafny

A verified model of the S3 storage adapter for the Ghost blogging platform
(`index.js`). The adapter turns Ghost's storage calls into S3 requests. This
project models the string rules that decide what gets uploaded and which URL
comes back:

- the configuration check `validOptions`, which `save` runs before anything else;
- the object key: `pathPrefix + getTargetDir()`, then `getTargetName`;
- the public URL from `getAwsPath`, either path-style S3 or a configured asset host;
- the fixed record that `save` sends to `putObject`;
- the key that the `serve` handler derives from a request path;
- how `save` settles, given the outcomes of the file read and the upload.

Files:

- `jstext.dfy` (module `JsText`): JavaScript strings as sequences of UTF-16
  code units. It holds JS truthiness, the `undefined`-to-string conversion that
  `+` performs, the `[A-Za-z0-9_]` class (the complement of `\W`), and the
  decimal rendering of `Date.now()` together with its inverse.
- `nodepath.dfy` (module `NodePath`): Node's POSIX `path.extname(p)` and
  `path.basename(p, path.extname(p))`. This covers trailing separators, dot
  files and `".."`.
- `ghosts3.dfy` (module `GhostS3`): everything in `index.js`.
  - `SaveOutcome` is `save` as written, a function of the options it reads,
    the upload, the platform's target directory, the clock, and the outcomes
    of `fs.readFile` and `putObject`. It returns a `SaveTrace`: which files
    were read, which uploads were sent, and how the promise settled.
  - `save` reads the module options at three points (`OptionsSeen`): at the
    call (the check, the key and the S3 client), in the callback that builds
    the upload record, and in the callback that builds the URL.
  - The module-level `options` variable is the class `ModuleScope`. Every
    `S3Store` refers to the one scope, and the `S3Store` constructor overwrites
    its `options`. So constructing a second store reconfigures all existing
    stores (`ConstructSecondStore`), including a save that is in flight
    (`SaveAcrossConstruction`).

The Cache-Control value is modelled as written: `1000 * 365 * 24 * 60 * 60`
gives `max-age=31536000000`. Section 5.2.2.1 of RFC 9111 counts max-age in
seconds, so this is 365000 days, not the 365 days the code's comment
announces. The model does not correct it (`CacheControlValue`).

## Model

| member | source | states |
|---|---|---|
| `GhostS3.ValidOptions` | index.js:52-57 | Both credentials, the bucket and the region are present and non-empty. |
| `GhostS3.SaveChecksConfigFirst` | index.js:52-62 | `save` reads a file exactly when both credentials, the bucket and the region are present and non-empty. Otherwise it rejects with `'ghost-s3 is not configured'` and uploads nothing. |
| `GhostS3.AwsPath` | index.js:31-35 | A truthy asset host is the whole prefix. Otherwise the prefix is an `https://` URL that ends with `/`. |
| `GhostS3.PublicUrl` | index.js:91-92 | The URL ends with the key. |
| `GhostS3.UsEast1Url` | index.js:31-34 | With no asset host and region `us-east-1`, the URL prefix is `https://s3.amazonaws.com/<options.bucket>/`, with an absent bucket rendered as `undefined`. The function's own argument is ignored. |
| `GhostS3.RegionalUrl` | index.js:31-34 | With no asset host and any other region, absent included, the prefix is `https://s3-<options.region>.amazonaws.com/<options.bucket>/`, with absent fields rendered as `undefined`. |
| `GhostS3.UndefinedRegionUrl` | index.js:31-34 | With no asset host and no region, the endpoint is `s3-undefined`. |
| `GhostS3.AssetHostUrl` | index.js:90-93 | With a non-empty asset host, the URL is exactly `assetHost + key`, whatever the region and bucket, and no separator is inserted. |
| `GhostS3.RegionEndpointInjective` | index.js:32 | Two regions with the same endpoint label are the same region. |
| `GhostS3.PublicUrlParts` | index.js:31-35 | Without an asset host, the public URL reads back as host, configured bucket and key (when the region and bucket hold no `/`). |
| `GhostS3.AbsentPrefixAsWritten` | index.js:64 | As written, an absent `pathPrefix` makes the target directory `"undefined" + getTargetDir()`. |
| `GhostS3.TargetDirAsWritten` | index.js:64 | The directory ends with the platform directory. A present prefix comes first. An absent one is rendered as the 9 units of `undefined`. |
| `GhostS3.TargetDir` | index.js:64 | The prefix is followed directly by the platform directory, with no separator. An absent prefix adds nothing. |
| `GhostS3.Sanitize` | index.js:47 | Same length as the stem. Only `[A-Za-z0-9_]` in the result. Every word unit stays in its position, and every other unit becomes `_`. |
| `GhostS3.SanitizeIdempotent` | index.js:47 | Sanitizing a sanitized stem changes nothing. |
| `GhostS3.SanitizeFixedPoints` | index.js:47 | A stem is unchanged exactly when all its units are word units. |
| `NodePath.LastSegment` | index.js:46-47 | The last segment has no separator, and a name without separators is its own segment. |
| `NodePath.LastSegmentIsTail` | index.js:46-47 | Once trailing separators are stripped, the last segment is everything after the last separator. |
| `NodePath.Extname` | index.js:46 | The extension has no separator. It is empty or starts with its only `.`. |
| `NodePath.SegmentExtname` | index.js:46 | The extension runs from the last `.` to the end. It is empty when there is no `.` after the first unit, or when the name is `".."`. |
| `NodePath.Stem` | index.js:47 | Stem followed by extension is the last path segment. The stem has no separator and is non-empty when the extension is. |
| `NodePath.NameSplit` | index.js:46-47 | A plain file name is exactly stem + extension. The extension is empty or starts with its only `.`. |
| `GhostS3.TargetName` | index.js:45-50 | The key is dir, `/`, sanitized stem, `-`, timestamp, extension. What it means is stated by `TargetNameRoundTrip`. |
| `GhostS3.TargetNameRoundTrip` | index.js:45-50 | The generated key reads back as target dir, sanitized stem, timestamp and original extension. |
| `GhostS3.TargetNameDistinct` | index.js:49 | The same name in the same directory at two different milliseconds gives two different keys. |
| `GhostS3.TargetNameExample` | index.js:45-50 | `My Photo!!.png` into `2024/03` gives `2024/03/My_Photo__-<timestamp>.png`. |
| `JsText.DecimalRoundTrip` | index.js:49 | The timestamp's numeral reads back as the timestamp. |
| `JsText.CanonicalNumeralRoundTrip` | index.js:49 | Every numeral without a leading zero is the rendering of its value. |
| `JsText.DecimalInjective` | index.js:49 | Different timestamps render as different numerals. |
| `GhostS3.CacheControlValue` | index.js:82 | The Cache-Control header is `max-age=31536000000`, 1000 times the seconds of 365 days. |
| `GhostS3.CacheControl` | index.js:82 | The header value. Its value is stated by `CacheControlValue`. |
| `GhostS3.UploadParams` | index.js:76-83 | The `putObject` record: ACL `public-read`, `options.bucket`, the key, the bytes, `image.type` and the Cache-Control header. |
| `GhostS3.DownloadParams` | index.js:110-113 | The `getObject` request: `options.bucket`, unchecked, and the key derived from the request path. |
| `GhostS3.SaveOutcome` | index.js:59-98 | `save` as written. The check and the key use the options at the call, the record uses the options after the read, and the URL uses the options after the upload. Its properties are the `Save*` lemmas. |
| `GhostS3.SaveUploadsOnce` | index.js:64-85 | With a valid config and a readable file, `save` reads `image.path` once. It sends exactly one upload: ACL `public-read`, the bucket configured after the read, the key under `pathPrefix + getTargetDir()` as written, the file bytes, `image.type`, `max-age=31536000000`. |
| `GhostS3.SavePropagatesErrors` | index.js:94-97 | A read error or an upload error rejects with that same error. A read error sends no upload. |
| `GhostS3.SaveResolvesToUrl` | index.js:64-93 | A successful upload resolves with the URL prefix plus the uploaded key, for every valid config. With an asset host the URL is host plus key. Without one it reads back as endpoint, configured bucket and key. The key reads back as the as-written target dir, the sanitized stem, the timestamp and the original extension. |
| `GhostS3.SaveDistinctUrls` | index.js:59-98 | Two successful saves of the same file at different milliseconds resolve with different URLs. |
| `GhostS3.SaveKeyAsWritten` | index.js:64-65 | As written, a save without `pathPrefix` uploads under the directory `"undefined" + getTargetDir()`, never under `getTargetDir()` itself. |
| `GhostS3.SaveOutcomeIntended` | index.js:59-98 | `save` with the corrected `TargetDir` in place of line 64. Its key is stated by `SaveKeyIntended`. |
| `GhostS3.SaveKeyIntended` | index.js:64-65 | With the intended target dir, a save uploads under prefix + `getTargetDir()`, and under `getTargetDir()` itself when no prefix is configured. |
| `GhostS3.RequestKey` | index.js:112 | At most one leading `/` and then at most one trailing `/` are removed, and the middle is kept. A trailing `/` is removed exactly when one is left after the leading one is stripped. |
| `GhostS3.RequestKeyExamples` | index.js:112 | `/a/b.png` gives `a/b.png`, `/` gives the empty key, `//a//` gives `/a/`. |
| `GhostS3.RequestKeyRoundTrip` | index.js:112 | For a key that does not end in `/`, the request path `"/" + key` gives the key back. |
| `GhostS3.GeneratedKeyIsServed` | index.js:109-113 | Every key `save` generates is served back from `"/" + key`. |
| `GhostS3.ModuleScope.constructor` | index.js:9 | The module starts with empty options (`{}`). |
| `GhostS3.S3Store.constructor` | index.js:19-22 | Constructing a store overwrites the shared module options with its config. |
| `GhostS3.ConstructSecondStore` | index.js:19-22 | A second store leaves the first store reading the second store's config. |
| `GhostS3.S3Store.BeginSave` | index.js:60-65 | The synchronous part of `save`. No key when the current options are invalid. Otherwise the key under the as-written target dir. |
| `GhostS3.S3Store.UploadRecord` | index.js:75-83 | The read callback builds the upload record from the options current when it runs. |
| `GhostS3.S3Store.ResolvedUrl` | index.js:90-93 | The upload callback builds the URL from the options current when it runs. |
| `GhostS3.S3Store.Save` | index.js:59-98 | Its steps run back to back, so `save` settles as `SaveOutcome` with the current options at all three points. |
| `GhostS3.SaveAcrossConstruction` | index.js:19-98 | A store constructed during the file read leaves the key as computed at the call, but the upload's bucket and the URL follow the new configuration. |
| `GhostS3.S3Store.ServeParams` | index.js:109-113 | The handler asks for `options.bucket`, unchecked, and the key derived from `req.path`. |

## Findings

| source | as written | input that shows it | evidently intended | confidence | as-written member | corrected member |
|---|---|---|---|---|---|---|
| index.js:64 | `options.pathPrefix + this.getTargetDir()` turns an absent `pathPrefix` into the text `undefined` | a config without `pathPrefix` and target dir `2024/03`: keys land under `undefined2024/03/` | the optional prefix adds nothing when absent: keys land under `2024/03/` | high for the JavaScript semantics of `undefined + string`; not executed | `GhostS3.SaveKeyAsWritten` | `GhostS3.SaveKeyIntended` |

`SaveOutcome`, and the lemmas about it, follow the code as written
(`TargetDirAsWritten`, exhibited by `AbsentPrefixAsWritten`).
`SaveOutcomeIntended` is the same save with the corrected `TargetDir`.

## Left out

- The AWS SDK (`new AWS.S3`, `putObject`, `getObject`) and `fs.readFile` are foreign I/O. Their outcomes are inputs of `SaveOutcome`, and the file bytes are an opaque value.
- The Bluebird promise chain and the logging helpers `logError` and `logInfo` (index.js:37-43, 87-89, 95) are plumbing. Only how the promise settles is modelled.
- The `serve` streaming pipeline is event-driven network I/O and is not modelled: header copying, piping the object body, and `404` plus `next()` on a read error (index.js:115-125). Only the `getObject` parameters are modelled.
- The `BaseStore` require fallback and `util.inherits` (index.js:11-24) are module loading against the host platform. `getTargetDir()` is an input.
- `exists` and `delete` (index.js:131-135) are empty functions with no behaviour.
- `Date.now()` is an input. `Decimal` renders it positionally, as JavaScript does for every integer below 10^21.
- Node's `path` module is modelled with its POSIX rules only. The Windows flavour, with `\` separators, is not modelled.
- Configuration fields are modelled as strings or absent. Numbers, booleans and `null` in the configuration object are not.
- The S3 client that `save` builds from the call-time options (index.js:67-72) is not modelled. Which endpoint and credentials a `putObject` reaches is foreign. Only the record it is given is modelled.
- `GhostS3.SaveAcrossConstruction` shows one interleaving: a store constructed during the file read. Other interleavings are covered only by `SaveOutcome` over arbitrary `OptionsSeen`, for example a construction during the upload, which changes only the URL.
- `GhostS3.PublicUrlParts`: the read-back is stated only for a region and bucket without `/`. The URL itself is stated for all inputs by `UsEast1Url` and `RegionalUrl`.
