# Image handler response shaping, in Dafny

This project models the entry point of a serverless image handler
(`source/image-handler/index.js`): the function that maps a file extension
to a MIME type, the builder of the response header object, and the handler
that runs request setup and image processing and wraps the outcome in a
response envelope: a 200 base64 envelope on success, or an error envelope
carrying the thrown failure's status and JSON text.

Modules, one per component:

- `Wrappers`: `Option`, standing for a JavaScript value that may be `undefined`.
- `MimeResolver`: `GetMimeType` and the fixed extension table `MimeTable`.
- `DecimalText`: the decimal text of a natural number, which is how a
  template literal renders integers below 10^21 such as the default max-age
  `300`, and the `delta-seconds` grammar of
  section 1.2.2 of RFC 9111 (`1*DIGIT`), the argument of a `max-age`
  directive (section 5.2.2.1 of RFC 9111). `ResponseHeaders.MaxAgeOf` is a
  strict reader of a Cache-Control value of the single form
  `public, max-age=<delta-seconds>`.
- `ResponseHeaders`: the configuration record `Config` (the environment
  variables `CORS_ENABLED`, `CORS_ORIGIN`, `MAX_AGE`, each possibly undefined),
  header values (`Text`, the boolean `Flag` of `Access-Control-Allow-Credentials`,
  or `Undefined`), the specification `HeadersFor` of the header object, and
  the method `GetResponseHeaders`, which builds the object step by step as the
  source does.
- `RequestHandler`: failures, collaborator outcomes, the canonical request,
  the envelope, and `Handler`.
- `Scenarios`: concrete calls of `Handler` whose whole envelopes follow from
  its contract.

The environment is an explicit `Config` parameter. The two collaborators
(request setup and image processing) are parameters `setup` and `process`
that return either a value or the failure they throw. Processing receives
the request object by reference (index.js line 27) and may change it, and
index.js line 29 reads `request.fileExtension` only after processing
returns; so `process` also returns the request as processing left it, and
the MIME type is read from that request. The `etag` library is
a parameter `etag`, an arbitrary deterministic function of the payload. A
failure carries its `status` field, which may be undefined, and its JSON
serialization.

Two facts about the code that the model keeps: an undefined `status` on a
thrown failure is passed through as the envelope's status (no fallback such
as 500 is substituted), and MAX_AGE is copied as text, unchecked, into
Cache-Control.

## Model

| member | source | states |
|---|---|---|
| `MimeResolver.GetMimeType` | source/image-handler/index.js:63-92 | an undefined extension, and any extension not in the table (the empty string and case variants such as `JPG` included), gives `image`; a mapped extension gives its table entry (jpeg and jpg to image/jpeg, bmp to image/bmp, gif to image/gif, svg to image/svg+xml, tif and tiff to image/tiff, ico to image/x-icon) |
| `DecimalText.Decimal` | source/image-handler/index.js:115 | the decimal text of a natural number (how a template literal renders integers below 10^21, such as the default 300) is a non-empty digit string, with a leading `0` exactly when the number is zero |
| `DecimalText.DecimalRoundTrip` | source/image-handler/index.js:115 | reading that digit string back as a number gives the original number |
| `ResponseHeaders.CacheControlValue` | source/image-handler/index.js:115 | Cache-Control is `public, max-age=` followed by MAX_AGE verbatim when it is defined (empty included), and is `public, max-age=300` when it is undefined |
| `ResponseHeaders.MaxAgeRoundTrip` | source/image-handler/index.js:113-115 | the strict reader `MaxAgeOf` of a single `public, max-age=<delta-seconds>` value reads 300 s back when MAX_AGE is undefined; when MAX_AGE is defined, it reads MAX_AGE's value exactly when MAX_AGE is a `delta-seconds` string, and nothing otherwise (an empty MAX_AGE included) |
| `ResponseHeaders.GetResponseHeaders` | source/image-handler/index.js:99-127 | the header object always holds Allow-Methods `GET`, Allow-Headers `Content-Type, Authorization` and Allow-Credentials `true`; ETag (equal to the fingerprint) and Cache-Control are present exactly when a fingerprint is given; Allow-Origin is present exactly when CORS_ENABLED is exactly `Yes`, holding CORS_ORIGIN even when undefined; Content-Type is `application/json` on errors and the `mime` argument otherwise; there are no other keys |
| `ResponseHeaders.HeadersForUnique` | source/image-handler/index.js:99-127 | that description fixes the header object completely, so equal inputs give equal headers |
| `RequestHandler.Handler` | source/image-handler/index.js:18-52 | a failure thrown by setup, or by processing of the request setup produced, gives an envelope with the failure's status (possibly undefined), the error headers, the failure's JSON as body and `isBase64Encoded` false; otherwise the envelope has status 200, the payload as body, `isBase64Encoded` true and the headers built from `false`, the MIME type of the extension the request carries after processing, and the payload's fingerprint; the body is base64 exactly on success, exactly when ETag is present and exactly when Cache-Control is present, and error envelopes are always JSON-typed |
| `Scenarios.UnmappedExtension` | source/image-handler/index.js:27-38 | an unmapped `png` request answered with fingerprint `abc123` and no configuration gives exactly the 200 envelope with Content-Type `image`, ETag `abc123` and `public, max-age=300` |
| `Scenarios.ProcessingChangesExtension` | source/image-handler/index.js:25-29 | a request whose extension processing rewrites from `png` to `gif` gets Content-Type `image/gif` |
| `Scenarios.UpperCaseExtension` | source/image-handler/index.js:29 | a `JPG` extension gives Content-Type `image` |
| `Scenarios.CorsJpeg` | source/image-handler/index.js:101-120 | a `jpeg` request with CORS_ENABLED `Yes` and an origin gives exactly the envelope with Content-Type `image/jpeg`, that Allow-Origin and the default max-age |
| `Scenarios.CorsWithoutOrigin` | source/image-handler/index.js:118-120 | CORS on with CORS_ORIGIN undefined gives an Allow-Origin key whose value is undefined |
| `Scenarios.CorsNotExactlyYes` | source/image-handler/index.js:101 | CORS_ENABLED `yes` (lower case) gives no Allow-Origin header |
| `Scenarios.SetupFails` | source/image-handler/index.js:42-50 | setup throwing a 400 gives exactly the envelope with status 400, the JSON error body, `isBase64Encoded` false, Content-Type `application/json` and no ETag or Cache-Control |
| `Scenarios.FailureWithoutStatus` | source/image-handler/index.js:45 | a thrown failure without a status gives an envelope whose status is undefined |
| `Scenarios.ConfiguredMaxAge` | source/image-handler/index.js:115 | MAX_AGE `86400` gives `public, max-age=86400`, which the strict reader reads back as 86400 s |
| `Scenarios.EmptyMaxAge` | source/image-handler/index.js:115 | an empty MAX_AGE gives `public, max-age=`, which the strict reader rejects |

## Left out

- Logging of the event, the request and the caught failure (index.js lines 19, 25 and 43): an output side channel that does not affect the response.
- The asynchronous suspension of the two collaborator calls: they are modelled as one sequential outcome each, and processing sees only a request that setup produced.
- The internals of `ImageRequest` and `ImageHandler` (`image-request.js`, `image-handler.js` are not part of this model): their results and thrown failures are parameters.
- The hashing of the `etag` library: the fingerprint is an arbitrary deterministic function of the payload.
- `JSON.stringify` of the failure: each failure carries its JSON text.
- ResponseHeaders.MaxAgeRoundTrip: it is stated for the strict reader `MaxAgeOf`, not for a cache's full Cache-Control parsing. Extra directives smuggled in through MAX_AGE (`60, private` gives `public, max-age=60, private`, from which a cache reads max-age 60 under section 5.2 of RFC 9111) and the cap of too-large values at 2^31 (section 1.2.2 of RFC 9111) are not modelled.
- Reading `process.env`: the configuration is the explicit `Config` parameter.
- The order of keys in the header object: it is modelled as a map, since the envelope's headers are a key-value mapping whose order carries no meaning.
- RequestHandler.Handler: failures are assumed to be objects whose JSON serialization succeeds and whose `status` is an integer or undefined. A rejection with `undefined` or `null` makes `err.status` throw inside the catch block (index.js line 45), and a `JSON.stringify` that throws (a circular error object, index.js line 47) escapes the same way; in both cases the source handler rejects and returns no envelope, which `Failure` cannot represent. Statuses that are other JavaScript values (strings, `NaN`, non-integer numbers) are not modelled either.
