/**
 * The orchestrator of checkDomain.js (`_checkDomain`): clean the domain,
 * fetch the manifest, classify the response, then decode it as plain JSON
 * (when unencrypted manifests are allowed) or through the signature path,
 * and settle with the decoded record or with an error object whose flags
 * name the stage that failed.
 *
 * The network is an oracle from URL to fetch outcome; the body is the
 * response text exactly as received.
 */
module Check {
  import opened Wrappers
  import opened JsonValue
  import opened Format
  import opened Matcher
  import opened DomainName
  import opened Decode

  /** What the request callback sees: an error without a response, or a response. */
  datatype FetchOutcome =
    | NoResponse(code: string, message: string)
    | Response(status: int, contentType: string, body: string)

  /** A property of the error object: None when it is absent or holds `undefined`. */
  type Flag = Option<bool>

  /** The error object `_checkDomain` rejects with. */
  datatype ErrorFlags = ErrorFlags(
    badDns: Flag,
    httpsFailure: Flag,
    serverError: Flag,
    redirects: Flag,
    badContentType: Flag,
    opensslVerifyFailed: Flag,
    invalidJson: Flag)

  /** The empty error object `{ }`. */
  const NoFlags := ErrorFlags(None, None, None, None, None, None, None)

  /** The error object once a response has passed every check of the classification. */
  const PassedFlags := ErrorFlags(Some(false), Some(false), Some(false), Some(false), Some(false), None, None)

  /** How `_checkDomain` settles. */
  datatype CheckResult = Resolve(decoded: Decoded) | Reject(flags: ErrorFlags)

  /** What the response classification leaves: a rejection, or a body to decode. */
  datatype Classification = Stop(flags: ErrorFlags) | Proceed(body: string)

  const EncryptedMimeType := "application/pkcs7-mime"
  const AltnamesMessage := "Hostname/IP doesn't match certificate's altnames"

  /** `t` occurs in `s` at index `i`. */
  predicate OccursAt(s: string, t: string, i: int)
  {
    0 <= i && i + |t| <= |s| && s[i..i + |t|] == t
  }

  /** `t` occurs in `s` (an unanchored regular-expression test on a literal). */
  predicate Contains(s: string, t: string)
  {
    exists i | 0 <= i <= |s| :: OccursAt(s, t, i)
  }

  predicate IsJsonMimeType(contentType: string)
  {
    contentType == "application/json" || contentType == "text/json"
  }

  /** The content types accepted for a response body. */
  predicate AcceptedContentType(contentType: string, allowUnencrypted: bool)
  {
    contentType == EncryptedMimeType || (allowUnencrypted && IsJsonMimeType(contentType))
  }

  /** The response classification of checkDomain.js:150-198. */
  function Classify(fetched: FetchOutcome, allowUnencrypted: bool): (r: Classification)
    ensures r.Proceed? <==>
      fetched.Response? && fetched.status < 300 && AcceptedContentType(fetched.contentType, allowUnencrypted)
    ensures r.Proceed? ==> r.body == fetched.body
    ensures r.Stop? ==> TrueFlags(r.flags) <= 1
    ensures r.Stop? && TrueFlags(r.flags) == 0 ==> fetched.NoResponse? && r.flags == NoFlags
  {
    match fetched
    case NoResponse(code, message) =>
      if code == "ENOTFOUND" then Stop(NoFlags.(badDns := Some(true)))
      else if code == "ECONNREFUSED" || Contains(message, AltnamesMessage) then
        Stop(NoFlags.(badDns := Some(false), httpsFailure := Some(true)))
      else Stop(NoFlags)
    case Response(status, contentType, body) =>
      var reached := NoFlags.(badDns := Some(false), httpsFailure := Some(false));
      if status >= 400 then Stop(reached.(serverError := Some(true)))
      else if status >= 300 then Stop(reached.(serverError := Some(false), redirects := Some(true)))
      else if !AcceptedContentType(contentType, allowUnencrypted) then
        Stop(reached.(serverError := Some(false), redirects := Some(false), badContentType := Some(true)))
      else Proceed(body)
  }

  /** The signature path's rejection copied onto the error object (checkDomain.js:209-210, 218-219). */
  function SignatureFlags(e: SignatureError): (f: ErrorFlags)
    ensures f.badDns == f.httpsFailure == f.serverError == f.redirects == f.badContentType == Some(false)
    ensures TrueFlags(f) == (if e.opensslVerifyFailed then 1 else 0) + (if e.invalidJson == Some(true) then 1 else 0)
  {
    PassedFlags.(opensslVerifyFailed := Some(e.opensslVerifyFailed), invalidJson := e.invalidJson)
  }

  /** The outcome of decoding an accepted body (checkDomain.js:200-222). */
  function DecodeBody(body: string, bundle: string, team: string, allowUnencrypted: bool,
                      parse: string -> Option<Json>, openssl: string -> SslOutcome): (r: CheckResult)
    requires bundle != "" ==> PlainIdentifier(bundle) && PlainIdentifier(team)
    ensures r.Reject? ==>
      TrueFlags(r.flags) == 1 && r.flags.badContentType == Some(false) &&
      (r.flags.opensslVerifyFailed == Some(true) || r.flags.invalidJson == Some(true))
    ensures r.Resolve? ==>
      (r.decoded.encrypted <==> !(allowUnencrypted && Evaluate(body, bundle, team, false, parse).Resolved?))
    ensures r.Resolve? && !r.decoded.encrypted ==> Evaluate(body, bundle, team, false, parse) == Resolved(r.decoded)
    ensures r.Resolve? && r.decoded.encrypted ==>
      openssl(body).Verified? && Evaluate(openssl(body).stdout, bundle, team, true, parse) == Resolved(r.decoded)
  {
    if allowUnencrypted && Evaluate(body, bundle, team, false, parse).Resolved? then
      Resolve(Evaluate(body, bundle, team, false, parse).decoded)
    else
      match ValidateSigned(body, bundle, team, parse, openssl)
      case Success(d) => Resolve(d)
      case Failure(e) => Reject(SignatureFlags(e))
  }

  /** The whole check as one function of its inputs and of the three oracles. */
  function CheckOutcome(domain: string, bundle: string, team: string, allowUnencrypted: bool,
                        fetch: string -> FetchOutcome, parse: string -> Option<Json>, openssl: string -> SslOutcome)
    : CheckResult
    requires bundle != "" ==> PlainIdentifier(bundle) && PlainIdentifier(team)
  {
    match Classify(fetch(FileUrl(Normalize(domain))), allowUnencrypted)
    case Stop(flags) => Reject(flags)
    case Proceed(body) => DecodeBody(body, bundle, team, allowUnencrypted, parse, openssl)
  }

  /** The error object `_checkDomain` fills in one property at a time. */
  class ErrorRecord {
    var badDns: Flag
    var httpsFailure: Flag
    var serverError: Flag
    var redirects: Flag
    var badContentType: Flag
    var opensslVerifyFailed: Flag
    var invalidJson: Flag

    constructor ()
      ensures Flags() == NoFlags
    {
      badDns, httpsFailure, serverError, redirects := None, None, None, None;
      badContentType, opensslVerifyFailed, invalidJson := None, None, None;
    }

    /** The object's current properties. */
    function Flags(): ErrorFlags
      reads this
    {
      ErrorFlags(badDns, httpsFailure, serverError, redirects, badContentType, opensslVerifyFailed, invalidJson)
    }
  }

  /** `_checkDomain`, with the error object built field by field as the source does. */
  method CheckDomain(domain: string, bundle: string, team: string, allowUnencrypted: bool,
                     fetch: string -> FetchOutcome, parse: string -> Option<Json>, openssl: string -> SslOutcome)
    returns (r: CheckResult)
    requires bundle != "" ==> PlainIdentifier(bundle) && PlainIdentifier(team)
    ensures r == CheckOutcome(domain, bundle, team, allowUnencrypted, fetch, parse, openssl)
  {
    var cleanedDomain := StripScheme(domain);
    cleanedDomain := StripPath(cleanedDomain);
    var fileUrl := FileUrl(cleanedDomain);
    var errorObj := new ErrorRecord();
    var res := fetch(fileUrl);
    match res {
      case NoResponse(code, message) =>
        if code == "ENOTFOUND" {
          errorObj.badDns := Some(true);
        } else if code == "ECONNREFUSED" || Contains(message, AltnamesMessage) {
          errorObj.badDns := Some(false);
          errorObj.httpsFailure := Some(true);
        }
        return Reject(errorObj.Flags());
      case Response(status, contentType, text) =>
        errorObj.badDns := Some(false);
        errorObj.httpsFailure := Some(false);
        var isEncryptedMimeType := contentType == EncryptedMimeType;
        var isJsonMimeType := IsJsonMimeType(contentType);
        var isJsonTypeOk := allowUnencrypted && isJsonMimeType;
        if status >= 400 {
          errorObj.serverError := Some(true);
          return Reject(errorObj.Flags());
        } else if status >= 300 {
          errorObj.serverError := Some(false);
          errorObj.redirects := Some(true);
          return Reject(errorObj.Flags());
        } else if !isEncryptedMimeType && !isJsonTypeOk {
          errorObj.serverError := Some(false);
          errorObj.redirects := Some(false);
          errorObj.badContentType := Some(true);
          return Reject(errorObj.Flags());
        }
        errorObj.serverError := Some(false);
        errorObj.redirects := Some(false);
        errorObj.badContentType := Some(false);
        if allowUnencrypted {
          var plain := EvaluateAasa(text, bundle, team, false, parse);
          if plain.Resolved? {
            return Resolve(plain.decoded);
          }
        }
        var signed := WriteAasaAndValidate(text, bundle, team, parse, openssl);
        match signed {
          case Success(d) =>
            return Resolve(d);
          case Failure(err) =>
            errorObj.opensslVerifyFailed := Some(err.opensslVerifyFailed);
            errorObj.invalidJson := err.invalidJson;
            return Reject(errorObj.Flags());
        }
    }
  }

  /** How many of the error object's flags are true. */
  function TrueFlags(f: ErrorFlags): nat
  {
    (if f.badDns == Some(true) then 1 else 0)
    + (if f.httpsFailure == Some(true) then 1 else 0)
    + (if f.serverError == Some(true) then 1 else 0)
    + (if f.redirects == Some(true) then 1 else 0)
    + (if f.badContentType == Some(true) then 1 else 0)
    + (if f.opensslVerifyFailed == Some(true) then 1 else 0)
    + (if f.invalidJson == Some(true) then 1 else 0)
  }

  /**
   * At most one reason flag is true in any rejection; none is true only for
   * the empty object, which a network error other than the two recognised
   * ones produces.
   */
  lemma AtMostOneReason(domain: string, bundle: string, team: string, allowUnencrypted: bool,
                        fetch: string -> FetchOutcome, parse: string -> Option<Json>, openssl: string -> SslOutcome)
    requires bundle != "" ==> PlainIdentifier(bundle) && PlainIdentifier(team)
    ensures CheckOutcome(domain, bundle, team, allowUnencrypted, fetch, parse, openssl).Reject? ==>
      var f := CheckOutcome(domain, bundle, team, allowUnencrypted, fetch, parse, openssl).flags;
      TrueFlags(f) == 1 || (f == NoFlags && fetch(FileUrl(Normalize(domain))).NoResponse?)
  {
    var c := Classify(fetch(FileUrl(Normalize(domain))), allowUnencrypted);
    if c.Proceed? && !(allowUnencrypted && Evaluate(c.body, bundle, team, false, parse).Resolved?) {
      var v := ValidateSigned(c.body, bundle, team, parse, openssl);
      if v.Failure? {
        assert v.error == SignatureError(true, None) || v.error == SignatureError(false, Some(true));
      }
    }
  }

  /** Without a response: an unresolvable name, then a refused connection or a certificate name mismatch, then anything else. */
  lemma NoResponseClassification(code: string, message: string, allowUnencrypted: bool)
    ensures code == "ENOTFOUND" ==>
      Classify(NoResponse(code, message), allowUnencrypted) == Stop(NoFlags.(badDns := Some(true)))
    ensures code != "ENOTFOUND" && (code == "ECONNREFUSED" || Contains(message, AltnamesMessage)) ==>
      Classify(NoResponse(code, message), allowUnencrypted) == Stop(NoFlags.(badDns := Some(false), httpsFailure := Some(true)))
    ensures code != "ENOTFOUND" && code != "ECONNREFUSED" && !Contains(message, AltnamesMessage) ==>
      Classify(NoResponse(code, message), allowUnencrypted) == Stop(NoFlags)
  {
  }

  /** A status of 400 or more is a server error whatever the content type; 300 to 399 is a redirect. */
  lemma StatusClassification(status: int, contentType: string, body: string, allowUnencrypted: bool)
    ensures status >= 400 ==>
      Classify(Response(status, contentType, body), allowUnencrypted).Stop? &&
      Classify(Response(status, contentType, body), allowUnencrypted).flags.serverError == Some(true) &&
      TrueFlags(Classify(Response(status, contentType, body), allowUnencrypted).flags) == 1
    ensures 300 <= status < 400 ==>
      Classify(Response(status, contentType, body), allowUnencrypted).Stop? &&
      Classify(Response(status, contentType, body), allowUnencrypted).flags.serverError == Some(false) &&
      Classify(Response(status, contentType, body), allowUnencrypted).flags.redirects == Some(true) &&
      TrueFlags(Classify(Response(status, contentType, body), allowUnencrypted).flags) == 1
  {
  }

  /**
   * Below 300, the body is decoded exactly when its content type is the
   * envelope type or, with unencrypted manifests allowed, a JSON type;
   * otherwise the content type alone is blamed.
   */
  lemma ContentTypeGate(status: int, contentType: string, body: string, allowUnencrypted: bool)
    requires status < 300
    ensures Classify(Response(status, contentType, body), allowUnencrypted) == Proceed(body) <==>
      contentType == "application/pkcs7-mime" ||
      (allowUnencrypted && (contentType == "application/json" || contentType == "text/json"))
    ensures !AcceptedContentType(contentType, allowUnencrypted) ==>
      Classify(Response(status, contentType, body), allowUnencrypted) ==
        Stop(ErrorFlags(Some(false), Some(false), Some(false), Some(false), Some(true), None, None))
  {
  }

  /**
   * The signature path's failures: a write or verifier failure blames the
   * verifier; a verified payload that cannot be decoded blames the JSON.
   * The other flags are all false.
   */
  lemma SignaturePathFailures(body: string, bundle: string, team: string, allowUnencrypted: bool,
                              parse: string -> Option<Json>, openssl: string -> SslOutcome)
    requires bundle != "" ==> PlainIdentifier(bundle) && PlainIdentifier(team)
    requires !(allowUnencrypted && Evaluate(body, bundle, team, false, parse).Resolved?)
    ensures !openssl(body).Verified? ==>
      DecodeBody(body, bundle, team, allowUnencrypted, parse, openssl) ==
        Reject(PassedFlags.(opensslVerifyFailed := Some(true)))
    ensures openssl(body).Verified? && Evaluate(openssl(body).stdout, bundle, team, true, parse).Rejected? ==>
      DecodeBody(body, bundle, team, allowUnencrypted, parse, openssl) ==
        Reject(PassedFlags.(opensslVerifyFailed := Some(false), invalidJson := Some(true)))
    ensures openssl(body).Verified? && Evaluate(openssl(body).stdout, bundle, team, true, parse).Resolved? ==>
      DecodeBody(body, bundle, team, allowUnencrypted, parse, openssl) ==
        Resolve(Evaluate(openssl(body).stdout, bundle, team, true, parse).decoded)
  {
  }

  /**
   * With unencrypted manifests allowed, the body is first decoded as plain
   * JSON, whatever its content type, and a success is reported as not
   * encrypted; a failure falls back to exactly the signature path.
   */
  lemma PlainFirstFallback(body: string, bundle: string, team: string,
                           parse: string -> Option<Json>, openssl: string -> SslOutcome)
    requires bundle != "" ==> PlainIdentifier(bundle) && PlainIdentifier(team)
    ensures Evaluate(body, bundle, team, false, parse).Resolved? ==>
      DecodeBody(body, bundle, team, true, parse, openssl) == Resolve(Evaluate(body, bundle, team, false, parse).decoded) &&
      !DecodeBody(body, bundle, team, true, parse, openssl).decoded.encrypted
    ensures Evaluate(body, bundle, team, false, parse).Rejected? ==>
      DecodeBody(body, bundle, team, true, parse, openssl) == DecodeBody(body, bundle, team, false, parse, openssl)
  {
  }

  /** Without unencrypted manifests allowed, plain decoding is never tried and every success is encrypted. */
  lemma EncryptedOnlyWithoutAllow(domain: string, bundle: string, team: string,
                                  fetch: string -> FetchOutcome, parse: string -> Option<Json>, openssl: string -> SslOutcome)
    requires bundle != "" ==> PlainIdentifier(bundle) && PlainIdentifier(team)
    ensures CheckOutcome(domain, bundle, team, false, fetch, parse, openssl).Resolve? ==>
      CheckOutcome(domain, bundle, team, false, fetch, parse, openssl).decoded.encrypted &&
      fetch(FileUrl(Normalize(domain))).Response? &&
      fetch(FileUrl(Normalize(domain))).contentType == "application/pkcs7-mime" &&
      openssl(fetch(FileUrl(Normalize(domain))).body).Verified?
  {
  }

  /** A plain JSON manifest served as JSON with unencrypted manifests allowed resolves, valid and not encrypted. */
  lemma PlainManifestRoundTrip(domain: string, bundle: string, team: string, contentType: string, body: string,
                               fetch: string -> FetchOutcome, parse: string -> Option<Json>, openssl: string -> SslOutcome)
    requires bundle != "" ==> PlainIdentifier(bundle) && PlainIdentifier(team)
    requires fetch(FileUrl(Normalize(domain))) == Response(200, contentType, body)
    requires IsJsonMimeType(contentType)
    requires parse(body).Some? && WellFormedManifest(parse(body).value)
    ensures CheckOutcome(domain, bundle, team, true, fetch, parse, openssl).Resolve?
    ensures CheckOutcome(domain, bundle, team, true, fetch, parse, openssl).decoded ==
      Decoded(false, parse(body).value, true,
              if bundle == "" then None else Some(IdentifierPresent(parse(body).value, bundle, team)))
  {
    ValidIffWellFormed(parse(body).value);
  }

  /** A verified envelope around a well-formed manifest resolves, valid and encrypted, without unencrypted manifests allowed. */
  lemma SignedManifestRoundTrip(domain: string, bundle: string, team: string, body: string, payload: string,
                                fetch: string -> FetchOutcome, parse: string -> Option<Json>, openssl: string -> SslOutcome)
    requires bundle != "" ==> PlainIdentifier(bundle) && PlainIdentifier(team)
    requires fetch(FileUrl(Normalize(domain))) == Response(200, "application/pkcs7-mime", body)
    requires openssl(body) == Verified(payload)
    requires parse(payload).Some? && WellFormedManifest(parse(payload).value)
    ensures CheckOutcome(domain, bundle, team, false, fetch, parse, openssl).Resolve?
    ensures CheckOutcome(domain, bundle, team, false, fetch, parse, openssl).decoded ==
      Decoded(true, parse(payload).value, true,
              if bundle == "" then None else Some(IdentifierPresent(parse(payload).value, bundle, team)))
  {
    ValidIffWellFormed(parse(payload).value);
  }
}
