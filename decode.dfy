/**
 * The manifest decoder (`_evaluateAASA`) and the signature path
 * (`_writeAASAContentsToDiskAndValidate`) of checkDomain.js. JSON.parse and
 * the write-then-`openssl smime -verify` step are oracles passed in as
 * functions; everything they feed is modelled.
 */
module Decode {
  import opened Wrappers
  import opened JsonValue
  import opened Format
  import opened Matcher

  /** The record `_evaluateAASA` resolves with. */
  datatype Decoded = Decoded(encrypted: bool, aasa: Json, jsonValid: bool, bundleIdentifierFound: Option<bool>)

  /** How a decode promise settles; the rejection reason (a SyntaxError or TypeError) is never inspected. */
  datatype Evaluation = Resolved(decoded: Decoded) | Rejected

  /** What writing the body to disk and running the envelope verifier on it gives. */
  datatype SslOutcome = WriteFailed | VerifyFailed | Verified(stdout: string)

  /** The object the signature path rejects with: `invalidJson` is absent after a write or verifier failure. */
  datatype SignatureError = SignatureError(opensslVerifyFailed: bool, invalidJson: Option<bool>)

  /** The result `_evaluateAASA` settles with, for a parser oracle (None is a SyntaxError). */
  function Evaluate(content: string, bundle: string, team: string, encrypted: bool, parse: string -> Option<Json>): (r: Evaluation)
    requires bundle != "" ==> PlainIdentifier(bundle) && PlainIdentifier(team)
    ensures r.Rejected? <==> parse(content).None? || JsonFormat(parse(content).value) == Throws
    ensures r.Resolved? ==> r.decoded.encrypted == encrypted && parse(content) == Some(r.decoded.aasa)
    ensures r.Resolved? ==> (r.decoded.jsonValid <==> WellFormedManifest(r.decoded.aasa))
    ensures r.Resolved? ==> (r.decoded.bundleIdentifierFound.Some? <==> r.decoded.jsonValid && bundle != "")
    ensures r.Resolved? && r.decoded.bundleIdentifierFound.Some? ==>
      JsonFormat(r.decoded.aasa) == Valid &&
      r.decoded.bundleIdentifierFound.value == IdentifierPresent(r.decoded.aasa, bundle, team)
    ensures r.Resolved? && r.decoded.bundleIdentifierFound.Some? && '.' !in team ==>
      r.decoded.bundleIdentifierFound.value == Authorizes(Details(r.decoded.aasa).value, QualifiedIdentifier(bundle, team))
  {
    match parse(content)
    case None => Rejected
    case Some(aasa) =>
      var verdict := JsonFormat(aasa);
      if verdict == Throws then Rejected
      else
        ValidIffWellFormed(aasa);
        var jsonValid := verdict == Valid;
        var found :=
          if jsonValid && bundle != "" then
            IdentifierPresentIffAuthorized(aasa, bundle, team);
            Some(IdentifierPresent(aasa, bundle, team))
          else None;
        Resolved(Decoded(encrypted, aasa, jsonValid, found))
  }

  /** `_evaluateAASA`: parse, validate, and look for the identifier only when the manifest is valid and one was given. */
  method EvaluateAasa(content: string, bundle: string, team: string, encrypted: bool, parse: string -> Option<Json>)
    returns (r: Evaluation)
    requires bundle != "" ==> PlainIdentifier(bundle) && PlainIdentifier(team)
    ensures r == Evaluate(content, bundle, team, encrypted, parse)
  {
    var parsed := parse(content);
    if parsed.None? {
      return Rejected;
    }
    var domainAasaValue := parsed.value;
    var jsonValidationResult := VerifyJsonFormat(domainAasaValue);
    if jsonValidationResult == Throws {
      return Rejected;
    }
    var bundleIdentifierResult: Option<bool> := None;
    if jsonValidationResult == Valid && bundle != "" {
      var found := VerifyBundleIdentifierIsPresent(domainAasaValue, bundle, team);
      bundleIdentifierResult := Some(found);
    }
    return Resolved(Decoded(encrypted, domainAasaValue, jsonValidationResult == Valid, bundleIdentifierResult));
  }

  /** The result the signature path settles with. */
  function ValidateSigned(content: string, bundle: string, team: string, parse: string -> Option<Json>, openssl: string -> SslOutcome)
    : (r: Result<Decoded, SignatureError>)
    requires bundle != "" ==> PlainIdentifier(bundle) && PlainIdentifier(team)
    ensures r.Failure? && r.error.opensslVerifyFailed <==> !openssl(content).Verified?
    ensures r.Failure? && r.error.opensslVerifyFailed ==> r.error.invalidJson.None?
    ensures r.Failure? && !r.error.opensslVerifyFailed ==>
      r.error.invalidJson == Some(true) && Evaluate(openssl(content).stdout, bundle, team, true, parse).Rejected?
    ensures r.Success? ==> r.value.encrypted && openssl(content).Verified?
    ensures r.Success? ==> Evaluate(openssl(content).stdout, bundle, team, true, parse) == Resolved(r.value)
  {
    match openssl(content)
    case WriteFailed => Failure(SignatureError(true, None))
    case VerifyFailed => Failure(SignatureError(true, None))
    case Verified(stdout) =>
      match Evaluate(stdout, bundle, team, true, parse)
      case Resolved(d) => Success(d)
      case Rejected => Failure(SignatureError(false, Some(true)))
  }

  /** `_writeAASAContentsToDiskAndValidate`: on verifier success the inner payload is decoded as encrypted. */
  method WriteAasaAndValidate(content: string, bundle: string, team: string, parse: string -> Option<Json>, openssl: string -> SslOutcome)
    returns (r: Result<Decoded, SignatureError>)
    requires bundle != "" ==> PlainIdentifier(bundle) && PlainIdentifier(team)
    ensures r == ValidateSigned(content, bundle, team, parse, openssl)
  {
    var outcome := openssl(content);
    match outcome {
      case WriteFailed =>
        r := Failure(SignatureError(true, None));
      case VerifyFailed =>
        r := Failure(SignatureError(true, None));
      case Verified(stdOut) =>
        var evaluation := EvaluateAasa(stdOut, bundle, team, true, parse);
        if evaluation.Resolved? {
          r := Success(evaluation.decoded);
        } else {
          r := Failure(SignatureError(false, Some(true)));
        }
    }
  }

  /** A parsed manifest that the validator rejects still resolves, with jsonValid false and no identifier result. */
  lemma InvalidManifestResolves(content: string, bundle: string, team: string, encrypted: bool, parse: string -> Option<Json>)
    requires bundle != "" ==> PlainIdentifier(bundle) && PlainIdentifier(team)
    requires parse(content).Some? && JsonFormat(parse(content).value) == Invalid
    ensures Evaluate(content, bundle, team, encrypted, parse) == Resolved(Decoded(encrypted, parse(content).value, false, None))
  {
  }

  /** The encrypted argument is only echoed: it changes nothing else about how decoding settles. */
  lemma EncryptedIsEchoed(content: string, bundle: string, team: string, encrypted: bool, parse: string -> Option<Json>)
    requires bundle != "" ==> PlainIdentifier(bundle) && PlainIdentifier(team)
    ensures Evaluate(content, bundle, team, encrypted, parse).Resolved? ==>
      Evaluate(content, bundle, team, !encrypted, parse) ==
        Resolved(Evaluate(content, bundle, team, encrypted, parse).decoded.(encrypted := !encrypted))
  {
  }
}
