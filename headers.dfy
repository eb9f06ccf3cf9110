/**
 * The response header builder: the header object of a success or an error
 * response, shaped by the environment configuration and a content fingerprint.
 */
module ResponseHeaders {
  import opened Wrappers
  import opened DecimalText

  /**
   * The environment variables the builder reads, each possibly undefined:
   * CORS_ENABLED, CORS_ORIGIN and MAX_AGE.
   */
  datatype Config = Config(corsEnabled: Option<string>, corsOrigin: Option<string>, maxAge: Option<string>)

  /**
   * A header value as the source stores it: a string, the boolean of
   * Access-Control-Allow-Credentials, or `undefined` (the key is present and
   * its value is undefined).
   */
  datatype HeaderValue = Text(text: string) | Flag(flag: bool) | Undefined

  type HeaderMap = map<string, HeaderValue>

  const AllowMethods: string := "Access-Control-Allow-Methods"
  const AllowHeaders: string := "Access-Control-Allow-Headers"
  const AllowCredentials: string := "Access-Control-Allow-Credentials"
  const ContentType: string := "Content-Type"
  const ETag: string := "ETag"
  const CacheControl: string := "Cache-Control"
  const AllowOrigin: string := "Access-Control-Allow-Origin"

  const JsonType: string := "application/json"
  const CachePrefix: string := "public, max-age="
  /** The max-age, in seconds, used when MAX_AGE is undefined. */
  const DefaultMaxAge: nat := 300

  /** A possibly undefined string stored as a header value. */
  function FromOption(v: Option<string>): (h: HeaderValue) {
    match v
    case Some(s) => Text(s)
    case None => Undefined
  }

  /** CORS is on only when CORS_ENABLED is exactly the string "Yes". */
  predicate CorsEnabled(env: Config) {
    env.corsEnabled == Some("Yes")
  }

  /**
   * The Cache-Control value: MAX_AGE verbatim after the `public, max-age=`
   * prefix when it is defined (even when empty), the decimal text of 300
   * otherwise.
   */
  function CacheControlValue(maxAge: Option<string>): (v: string)
    ensures maxAge.Some? ==> v == CachePrefix + maxAge.value
    ensures maxAge.None? ==> v == "public, max-age=300"
  {
    var age := match maxAge
      case Some(s) => s
      case None => Decimal(DefaultMaxAge);
    assert Decimal(3) == "3" && Decimal(30) == "30";
    CachePrefix + age
  }

  /** The headers that every response carries. */
  const BaseKeys: set<string> := {AllowMethods, AllowHeaders, AllowCredentials, ContentType}

  /**
   * `h` is the header object for a response with error flag `isErr`, MIME
   * argument `mime` and fingerprint `etag` under configuration `env`: exactly
   * these keys, and these values.
   */
  predicate HeadersFor(h: HeaderMap, isErr: bool, mime: Option<string>, etag: Option<string>, env: Config) {
    && h.Keys == BaseKeys
                 + (if etag.Some? then {ETag, CacheControl} else {})
                 + (if CorsEnabled(env) then {AllowOrigin} else {})
    && h[AllowMethods] == Text("GET")
    && h[AllowHeaders] == Text("Content-Type, Authorization")
    && h[AllowCredentials] == Flag(true)
    && h[ContentType] == (if isErr then Text(JsonType) else FromOption(mime))
    && (etag.Some? ==> h[ETag] == Text(etag.value) && h[CacheControl] == Text(CacheControlValue(env.maxAge)))
    && (CorsEnabled(env) ==> h[AllowOrigin] == FromOption(env.corsOrigin))
  }

  /**
   * Builds the header object: the base entries, then ETag and Cache-Control
   * when there is a fingerprint, then the allowed origin when CORS is on,
   * and finally the JSON content type on errors.
   */
  method GetResponseHeaders(isErr: bool, mime: Option<string>, etag: Option<string>, env: Config)
    returns (headers: HeaderMap)
    ensures HeadersFor(headers, isErr, mime, etag, env)
  {
    var corsEnabled := CorsEnabled(env);
    headers := map[
      AllowMethods := Text("GET"),
      AllowHeaders := Text("Content-Type, Authorization"),
      AllowCredentials := Flag(true),
      ContentType := FromOption(mime)
    ];
    if etag.Some? {
      headers := headers[ETag := Text(etag.value)];
      headers := headers[CacheControl := Text(CacheControlValue(env.maxAge))];
    }
    if corsEnabled {
      headers := headers[AllowOrigin := FromOption(env.corsOrigin)];
    }
    if isErr {
      headers := headers[ContentType := Text(JsonType)];
    }
  }

  /**
   * The specification fixes the header object completely, so equal inputs
   * give equal headers.
   */
  lemma HeadersForUnique(h1: HeaderMap, h2: HeaderMap, isErr: bool, mime: Option<string>, etag: Option<string>, env: Config)
    requires HeadersFor(h1, isErr, mime, etag, env)
    requires HeadersFor(h2, isErr, mime, etag, env)
    ensures h1 == h2
  {
  }

  /**
   * A strict reader of a Cache-Control value of the single form
   * `public, max-age=<delta-seconds>`: the number of seconds when the value
   * has exactly that form, nothing otherwise. It does not split a list of
   * directives at commas and does not cap large values at 2^31, as a cache
   * would (sections 5.2 and 1.2.2 of RFC 9111).
   */
  function MaxAgeOf(directive: string): (age: Option<nat>) {
    if |directive| >= |CachePrefix| && directive[..|CachePrefix|] == CachePrefix
       && IsDeltaSeconds(directive[|CachePrefix|..])
    then Some(DigitsValue(directive[|CachePrefix|..]))
    else None
  }

  /**
   * Reading the header back with the strict reader: 300 when MAX_AGE is
   * undefined; when it is defined, its value exactly when MAX_AGE is a
   * `delta-seconds` string, and nothing otherwise.
   */
  lemma {:induction false} MaxAgeRoundTrip(maxAge: Option<string>)
    ensures maxAge.None? ==> MaxAgeOf(CacheControlValue(maxAge)) == Some(DefaultMaxAge)
    ensures maxAge.Some? ==>
      MaxAgeOf(CacheControlValue(maxAge)) ==
        (if IsDeltaSeconds(maxAge.value) then Some(DigitsValue(maxAge.value)) else None)
  {
    var age := match maxAge
      case Some(s) => s
      case None => Decimal(DefaultMaxAge);
    var v := CacheControlValue(maxAge);
    assert v == CachePrefix + age;
    assert v[..|CachePrefix|] == CachePrefix;
    assert v[|CachePrefix|..] == age;
    if maxAge.None? {
      DecimalRoundTrip(DefaultMaxAge);
    }
  }
}
