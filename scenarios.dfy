/**
 * Concrete invocations of the handler, with collaborators fixed to the
 * outcomes named in each scenario; each whole envelope follows from the
 * handler's contract alone.
 */
module Scenarios {
  import opened Wrappers
  import opened DecimalText
  import opened ResponseHeaders
  import opened RequestHandler

  const Payload: string := "cGF5bG9hZA=="

  /** An unmapped extension ("png") with no configuration set. */
  method UnmappedExtension(event: string) returns (response: Envelope)
    ensures response == Envelope(Some(200), map[
      AllowMethods := Text("GET"),
      AllowHeaders := Text("Content-Type, Authorization"),
      AllowCredentials := Flag(true),
      ContentType := Text("image"),
      ETag := Text("abc123"),
      CacheControl := Text("public, max-age=300")
    ], Payload, true)
  {
    response := Handler(event,
      (e: string) => Done(Request(Some("png"), e)),
      (r: Request) => Done(Processed(r, Payload)),
      (p: string) => "abc123",
      Config(None, None, None));
  }

  /** Processing that rewrites the request's extension decides the Content-Type. */
  method ProcessingChangesExtension(event: string) returns (response: Envelope)
    ensures ContentType in response.headers && response.headers[ContentType] == Text("image/gif")
  {
    response := Handler(event,
      (e: string) => Done(Request(Some("png"), e)),
      (r: Request) => Done(Processed(r.(fileExtension := Some("gif")), Payload)),
      (p: string) => "abc123",
      Config(None, None, None));
  }

  /** Extension lookup is case-sensitive: "JPG" falls back to the generic type. */
  method UpperCaseExtension(event: string) returns (response: Envelope)
    ensures ContentType in response.headers && response.headers[ContentType] == Text("image")
  {
    response := Handler(event,
      (e: string) => Done(Request(Some("JPG"), e)),
      (r: Request) => Done(Processed(r, Payload)),
      (p: string) => "abc123",
      Config(None, None, None));
  }

  /** A mapped extension with CORS switched on for one origin. */
  method CorsJpeg(event: string) returns (response: Envelope)
    ensures response == Envelope(Some(200), map[
      AllowMethods := Text("GET"),
      AllowHeaders := Text("Content-Type, Authorization"),
      AllowCredentials := Flag(true),
      ContentType := Text("image/jpeg"),
      ETag := Text("abc123"),
      CacheControl := Text("public, max-age=300"),
      AllowOrigin := Text("https://example.com")
    ], Payload, true)
  {
    response := Handler(event,
      (e: string) => Done(Request(Some("jpeg"), e)),
      (r: Request) => Done(Processed(r, Payload)),
      (p: string) => "abc123",
      Config(Some("Yes"), Some("https://example.com"), None));
  }

  /** CORS on without an origin: the header is present with an undefined value. */
  method CorsWithoutOrigin(event: string) returns (response: Envelope)
    ensures AllowOrigin in response.headers && response.headers[AllowOrigin] == Undefined
  {
    response := Handler(event,
      (e: string) => Done(Request(Some("gif"), e)),
      (r: Request) => Done(Processed(r, Payload)),
      (p: string) => "abc123",
      Config(Some("Yes"), None, None));
  }

  /** CORS_ENABLED set to anything but exactly "Yes" leaves CORS off. */
  method CorsNotExactlyYes(event: string) returns (response: Envelope)
    ensures AllowOrigin !in response.headers
  {
    response := Handler(event,
      (e: string) => Done(Request(Some("jpeg"), e)),
      (r: Request) => Done(Processed(r, Payload)),
      (p: string) => "abc123",
      Config(Some("yes"), Some("https://example.com"), None));
  }

  /** Setup throws a 400: a JSON error body and no caching headers. */
  method SetupFails(event: string) returns (response: Envelope)
    ensures response == Envelope(Some(400), map[
      AllowMethods := Text("GET"),
      AllowHeaders := Text("Content-Type, Authorization"),
      AllowCredentials := Flag(true),
      ContentType := Text("application/json")
    ], "{\"status\":400,\"message\":\"Unsupported format\"}", false)
  {
    response := Handler(event,
      (e: string) => Threw(Failure(Some(400), "{\"status\":400,\"message\":\"Unsupported format\"}")),
      (r: Request) => Done(Processed(r, Payload)),
      (p: string) => "abc123",
      Config(None, None, None));
  }

  /** A failure without a status field gives an envelope whose status is undefined. */
  method FailureWithoutStatus(event: string) returns (response: Envelope)
    ensures response.statusCode == None && !response.isBase64Encoded
  {
    response := Handler(event,
      (e: string) => Done(Request(Some("jpg"), e)),
      (r: Request) => Threw(Failure(None, "{}")),
      (p: string) => "abc123",
      Config(None, None, None));
  }

  /** A configured MAX_AGE reaches Cache-Control, and the strict reader reads that many seconds back. */
  method ConfiguredMaxAge(event: string) returns (response: Envelope)
    ensures CacheControl in response.headers
    ensures response.headers[CacheControl] == Text("public, max-age=86400")
    ensures MaxAgeOf(response.headers[CacheControl].text) == Some(86400)
  {
    response := Handler(event,
      (e: string) => Done(Request(None, e)),
      (r: Request) => Done(Processed(r, Payload)),
      (p: string) => "abc123",
      Config(None, None, Some("86400")));
    MaxAgeRoundTrip(Some("86400"));
    assert DigitsValue("86400") == 86400 by {
      assert "86400"[..4] == "8640" && "8640"[..3] == "864" && "864"[..2] == "86" && "86"[..1] == "8";
    }
  }

  /** An empty MAX_AGE is passed through, and the strict reader then rejects the value. */
  method EmptyMaxAge(event: string) returns (response: Envelope)
    ensures CacheControl in response.headers
    ensures response.headers[CacheControl] == Text("public, max-age=")
    ensures MaxAgeOf(response.headers[CacheControl].text) == None
  {
    response := Handler(event,
      (e: string) => Done(Request(None, e)),
      (r: Request) => Done(Processed(r, Payload)),
      (p: string) => "abc123",
      Config(None, None, Some("")));
    MaxAgeRoundTrip(Some(""));
  }
}
