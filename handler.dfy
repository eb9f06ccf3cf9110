/**
 * The request handler: runs request setup and image processing, and turns
 * the outcome into a response envelope. Both collaborators and the etag
 * library are parameters: `setup` and `process` return either a value or
 * the failure they throw, and `etag` is a deterministic fingerprint of the
 * processed payload. Processing receives the request object and may change
 * it, so `process` also returns the request as it stands afterwards.
 */
module RequestHandler {
  import opened Wrappers
  import opened MimeResolver
  import opened ResponseHeaders

  /**
   * A thrown failure: its `status` field (undefined if the thrower set
   * none) and its JSON serialization.
   */
  datatype Failure = Failure(status: Option<int>, json: string)

  /** The outcome of a collaborator call. */
  datatype Attempt<T> = Done(value: T) | Threw(failure: Failure)

  /**
   * The canonical request built by setup: its file extension, and the rest
   * of the descriptor, which only the processing step reads.
   */
  datatype Request = Request(fileExtension: Option<string>, descriptor: string)

  /**
   * What processing produces: the request as processing left it, and the
   * base64 payload.
   */
  datatype Processed = Processed(request: Request, payload: string)

  /** The response envelope handed back to the platform. */
  datatype Envelope = Envelope(statusCode: Option<int>, headers: HeaderMap, body: string, isBase64Encoded: bool)

  const OkStatus: int := 200

  /** The 200 response carrying the base64 payload of a successful request. */
  predicate IsSuccessResponse(r: Envelope, request: Request, payload: string, fingerprint: string, env: Config) {
    && r.statusCode == Some(OkStatus)
    && HeadersFor(r.headers, false, Some(GetMimeType(request.fileExtension)), Some(fingerprint), env)
    && r.body == payload
    && r.isBase64Encoded
  }

  /** The response for a caught failure: its status, JSON headers and the failure's JSON text. */
  predicate IsErrorResponse(r: Envelope, failure: Failure, env: Config) {
    && r.statusCode == failure.status
    && HeadersFor(r.headers, true, None, None, env)
    && r.body == failure.json
    && !r.isBase64Encoded
  }

  /**
   * Handles one event. Processing runs only on the request that setup
   * produced, and the MIME type is read from the request after processing.
   * A failure of either step is caught and answered with an error envelope,
   * so for every failure `Failure` can represent the handler returns an
   * envelope.
   */
  method Handler<E>(
    event: E,
    setup: E -> Attempt<Request>,
    process: Request -> Attempt<Processed>,
    etag: string -> string,
    env: Config
  ) returns (response: Envelope)
    ensures setup(event).Threw? ==> IsErrorResponse(response, setup(event).failure, env)
    ensures setup(event).Done? && process(setup(event).value).Threw? ==>
      IsErrorResponse(response, process(setup(event).value).failure, env)
    ensures setup(event).Done? && process(setup(event).value).Done? ==>
      var processed := process(setup(event).value).value;
      IsSuccessResponse(response, processed.request, processed.payload, etag(processed.payload), env)
    ensures response.isBase64Encoded <==> setup(event).Done? && process(setup(event).value).Done?
    ensures response.isBase64Encoded <==> ETag in response.headers
    ensures response.isBase64Encoded <==> CacheControl in response.headers
    ensures !response.isBase64Encoded ==> response.headers[ContentType] == Text(JsonType)
  {
    // The try block: it returns from the success path, and leaves the
    // thrown failure in `failure` otherwise.
    var failure: Failure;
    match setup(event) {
      case Threw(f) =>
        failure := f;
      case Done(request) =>
        match process(request) {
          case Threw(f) =>
            failure := f;
          case Done(processed) =>
            var mimeType := GetMimeType(processed.request.fileExtension);
            var etagHeader := etag(processed.payload);
            var headers := GetResponseHeaders(false, Some(mimeType), Some(etagHeader), env);
            return Envelope(Some(OkStatus), headers, processed.payload, true);
        }
    }
    // The catch block.
    var headers := GetResponseHeaders(true, None, None, env);
    response := Envelope(failure.status, headers, failure.json, false);
  }
}
