# Universal-Link-Validator: checkDomain.js in Dafny

This project models `checkDomain.js`, which checks whether a web domain
publishes a valid Apple "apple-app-site-association" manifest. The manifest
authorises an app to handle the domain's links. For a domain, an optional
bundle identifier, an optional team identifier and an `allowUnencrypted` flag,
the check does these steps:

- it cleans the domain and fetches `https://<domain>/apple-app-site-association`;
- it classifies the response as a DNS failure, an HTTPS failure, a server error, a redirect, a bad content type, or a body to decode;
- it decodes the body as plain JSON (only with `allowUnencrypted`) and falls back to the signature path: write the body to disk, run `openssl smime -verify -noverify`, decode the output;
- it checks the manifest's structure;
- it looks for the identifier among the manifest's entries.

It settles with a result record (`encrypted`, `aasa`, `jsonValid`,
`bundleIdentifierFound`) or with an error object of flags.

Modules, leaf first:

- `Wrappers`, `Text`, `JsonValue` (json.dfy). `Option`, `Result`, string helpers, and the decoded JSON value. Numbers are reduced to zero or non-zero. An object is its property list in `for..in` order.
- `Format` (format.dfy). The structural validator, with three outcomes. Valid and Invalid are the function's `true` and `false`. Throws is the TypeError raised when it dereferences a null; the caller turns that into a rejection.
- `Matcher` (matcher.dfy). The identifier matcher. Its regular expression is modelled as a fixed sequence of atoms that must match at the end of the string. The bundle identifier's dots are escaped. The team identifier is used unescaped, so a `.` in it matches any single string element except a line terminator. In the model that element is a Unicode scalar value; in the source it is one UTF-16 code unit (see "## Left out"). `Matcher.TeamDotMatchesAnyCharacter` shows this.
- `DomainName` (domain.dfy). Domain clean-up and the manifest URL. The scheme pattern is not anchored: it removes the first `http://` or `https://` anywhere in the string. The path pattern stops at a line terminator.
- `Decode` (decode.dfy). `_evaluateAASA` and `_writeAASAContentsToDiskAndValidate`. `JSON.parse` and the write-and-verify step are oracles.
- `Check` (check.dfy). The orchestrator. `CheckOutcome` is the whole check as one pure function of the inputs and three oracles: fetch by URL, parse, and verify. `CheckDomain` is the same procedure as a method. It fills an `ErrorRecord` object one property at a time and is proved equal to `CheckOutcome`.

The two scans (`VerifyJsonFormat` and `VerifyBundleIdentifierIsPresent`) are
methods with loop invariants. Each is proved equal to a quantified
specification function. `EvaluateAasa`, `WriteAasaAndValidate` and
`CheckDomain` call these methods. Each is proved equal to its specification
function.

Behaviour of the code that the model keeps, although a reader might expect otherwise:

- The verifier-failure flag is called `opensslVerifyFailed`.
- With `allowUnencrypted`, the plain decode is tried first whatever the content type, including `application/pkcs7-mime`.
- An unrecognised network error rejects with an empty error object, so no reason flag is true.
- Flags that are never reached stay absent (`undefined`) and are not set to false. `Flag = Option<bool>` models this.
- The temporary file is not deleted once the verifier has succeeded, because the callback returns at line 119.

## Model

| member | source | states |
|---|---|---|
| `Format.VerifyJsonFormat` | checkDomain.js:15-45 | the loop's verdict equals `JsonFormat`: a top-level null throws; missing or falsy `applinks`/`details` is Invalid; otherwise the first failing entry decides, Throws if it is null and Invalid if not; no failing entry is Valid |
| `Format.ValidIffWellFormed` | checkDomain.js:15-45 | Valid exactly when `applinks` and `details` are truthy and every array entry has a string `appID` and an array `paths`, or, for any other `details`, every enumerated key's value has an array `paths` |
| `Format.NullFreeNeverThrows` | checkDomain.js:16-38 | a manifest without nulls never makes the validator throw |
| `Format.EmptyDetailsValid` | checkDomain.js:27-44 | an empty array or an empty object as `details` is valid |
| `Format.ArrayShapeValid` | checkDomain.js:26-33 | `[{appID: "TEAMID.com.foo.App", paths: ["*"]}]` is valid |
| `Format.MissingPathsInvalid` | checkDomain.js:28-32 | an array entry without `paths` makes the manifest invalid |
| `Format.KeyedShapeValid` | checkDomain.js:35-41 | `{"TEAMID.com.foo.App": {paths: ["*"]}}` is valid |
| `Format.ScalarDetails` | checkDomain.js:21-44 | `true` or a non-zero number as `details` is valid, because they enumerate no keys; a non-empty string is invalid; `0` is falsy and invalid |
| `Format.FirstFailureDecides` | checkDomain.js:15-45 | enumeration order decides between Invalid and Throws; a top-level null throws |
| `Matcher.IdentifierPattern` | checkDomain.js:48-51 | the pattern is `team.bundle` when a team is given, else `bundle`, with the lengths that follow |
| `Matcher.VerifyBundleIdentifierIsPresent` | checkDomain.js:47-76 | the scan returns true exactly when some array entry's `appID`, or some key, passes the end-anchored pattern test and has an array `paths` |
| `Matcher.PatternIsLiteral` | checkDomain.js:48-51 | with no dot in the team identifier, the pattern is the qualified identifier taken literally |
| `Matcher.RegexTestIsSuffix` | checkDomain.js:48-53 | with no dot in the team identifier, the pattern test is exactly "ends with `team.bundle`" (or "ends with `bundle`" without a team); it is not anchored at the start |
| `Matcher.IdentifierPresentIffAuthorized` | checkDomain.js:55-75 | the matcher finds the identifier exactly when some entry ending with the qualified identifier has an array `paths` |
| `Matcher.QualifiedIdentifierMatches` | checkDomain.js:48-53 | `TEAMID` + `com.foo.App` matches `TEAMID.com.foo.App`, and also `XTEAMID.com.foo.App` |
| `Matcher.OtherTeamDoesNotMatch` | checkDomain.js:48-53 | it does not match `OTHERTEAM.com.foo.App` |
| `Matcher.LongerBundleDoesNotMatch` | checkDomain.js:48-53 | it does not match `com.foo.AppX` or `TEAMID.com.foo.AppX` |
| `Matcher.BundleOnlyMatches` | checkDomain.js:48-49 | without a team, `com.foo.App` matches `TEAMID.com.foo.App` |
| `Matcher.TeamDotMatchesAnyCharacter` | checkDomain.js:50 | a `.` in the team identifier is unescaped: team `A.B` matches `AxB.App`, which does not end with `A.B.App` |
| `DomainName.SchemeLength` | checkDomain.js:135 | a scheme match at the start of a string is 7 or 8 characters long and ends with `/` |
| `DomainName.StripScheme` | checkDomain.js:135 | removing the scheme never lengthens the string or adds characters, and leaves a string without `/` unchanged |
| `DomainName.StripSchemeRemovesFirst` | checkDomain.js:135 | exactly the first occurrence of `http://` or `https://` is removed, wherever it is |
| `DomainName.StripSchemeWithoutScheme` | checkDomain.js:135 | a string without any scheme occurrence is unchanged |
| `DomainName.RestOfLine` | checkDomain.js:136 | the repeated `.` leaves a suffix of its input, and leaves nothing of a line without terminators |
| `DomainName.RestOfLineStopsAtTerminator` | checkDomain.js:136 | for every input, what the repeated `.` leaves is empty or starts with a line terminator, and what it consumed holds none, so it stops exactly at the first one |
| `DomainName.RestOfLineSkipsLine` | checkDomain.js:136 | a terminator-free stretch followed by a line terminator is consumed up to that terminator and no further |
| `DomainName.StripPathKeepsRestOfLine` | checkDomain.js:136 | for every string `pre + "/" + post` with no `/` in `pre`, path removal gives `pre` followed by what remains of `post` from its first line terminator on |
| `DomainName.StripPath` | checkDomain.js:136 | on a line without terminators, the result is the prefix before the first `/` and holds no `/`; a string without `/` is unchanged |
| `DomainName.StripPathAtFirstSlash` | checkDomain.js:136 | path removal on such a line yields exactly the characters before the first `/` |
| `DomainName.Normalize` | checkDomain.js:135-136 | the two replacements in sequence; a cleaned domain holds no `/` and no line terminator, given an input without line terminators |
| `DomainName.NormalizeIdempotent` | checkDomain.js:135-136 | cleaning is idempotent, given an input without line terminators |
| `DomainName.FileUrl` | checkDomain.js:138 | the fetch URL `"https://" + cleaned + "/apple-app-site-association"`; for a cleaned domain without `/`, cleaning the URL again gives that domain back |
| `DomainName.NormalizeHttpsUrl` | checkDomain.js:135-136 | any `https://host/path` with no `/` in the host and no line terminator in the path cleans to the host, as `https://example.com/foo/bar` cleans to `example.com` |
| `DomainName.LineTerminatorStopsPathRemoval` | checkDomain.js:136 | a line terminator stops the path removal: in `host + "/" + line + next` with `next` starting with a terminator, everything from that terminator on survives, any later `/` included |
| `Decode.Evaluate` | checkDomain.js:78-98 | rejects exactly on a parse failure or a validator throw; otherwise resolves, echoing `encrypted` and the parsed value; `jsonValid` holds exactly for a well-formed manifest; `bundleIdentifierFound` is present exactly when `jsonValid` holds and a bundle identifier is given; it is then the matcher's end-anchored pattern test over the entries for every team identifier, and the suffix-authorisation test when the team identifier has no `.` |
| `Decode.EvaluateAasa` | checkDomain.js:78-98 | the method (parse, validator scan, matcher scan) settles as `Evaluate` |
| `Decode.InvalidManifestResolves` | checkDomain.js:84-92 | a parsed but invalid manifest resolves with `jsonValid` false and no identifier result; it does not reject |
| `Decode.EncryptedIsEchoed` | checkDomain.js:92 | the `encrypted` argument changes nothing else in the result |
| `Decode.ValidateSigned` | checkDomain.js:100-131 | write or verifier failure rejects with `opensslVerifyFailed` true and no `invalidJson`; a verified payload that fails to decode rejects with `opensslVerifyFailed` false and `invalidJson` true; success is the decoded payload with `encrypted` true |
| `Decode.WriteAasaAndValidate` | checkDomain.js:104-123 | the method settles as `ValidateSigned` |
| `Check.ErrorRecord.constructor` | checkDomain.js:142 | the error object starts with no properties |
| `Check.CheckDomain` | checkDomain.js:133-227 | the field-by-field procedure settles exactly as `CheckOutcome` |
| `Check.AtMostOneReason` | checkDomain.js:142-221 | every rejection has exactly one true reason flag, except the empty object left by an unrecognised network error |
| `Check.Classify` | checkDomain.js:150-198 | the body goes on to decoding exactly when there is a response with status below 300 and an accepted content type, and it is the response text; every stop carries at most one true flag, and none only for the empty object after an unrecognised network error |
| `Check.NoResponseClassification` | checkDomain.js:150-165 | without a response: `ENOTFOUND` gives `badDns` true; then `ECONNREFUSED` or the altnames message gives `badDns` false and `httpsFailure` true; any other error gives the empty object |
| `Check.StatusClassification` | checkDomain.js:166-186 | status 400 or more gives `serverError` true whatever the content type; 300 to 399 gives `serverError` false and `redirects` true; each has one reason flag |
| `Check.ContentTypeGate` | checkDomain.js:170-194 | below 300, the body is decoded exactly when the content type is `application/pkcs7-mime`, or `application/json` or `text/json` with `allowUnencrypted`; otherwise `badContentType` is true and `serverError` and `redirects` are false |
| `Check.SignaturePathFailures` | checkDomain.js:196-222 | on the signature path, failures become `opensslVerifyFailed` or `invalidJson` on an object whose other five flags are false; a success is the decoded payload |
| `Check.SignatureFlags` | checkDomain.js:209-219 | the signature path's rejection copied onto an error object whose five classification flags are false; the true flags are exactly the rejection's true properties |
| `Check.DecodeBody` | checkDomain.js:200-222 | a rejection has exactly one true flag, `opensslVerifyFailed` or `invalidJson`, with `badContentType` false; a success is unencrypted exactly when unencrypted manifests are allowed and the plain decode resolves, and it is then that decode's record; otherwise it is the record decoded from the verifier's output |
| `Check.PlainFirstFallback` | checkDomain.js:200-212 | with `allowUnencrypted`, a plain decode that resolves wins: the result is exactly its record, not encrypted; one that rejects leaves exactly the signature-path outcome |
| `Check.EncryptedOnlyWithoutAllow` | checkDomain.js:214-222 | without `allowUnencrypted`, every success is encrypted, came from a `application/pkcs7-mime` response and passed the verifier |
| `Check.PlainManifestRoundTrip` | checkDomain.js:200-203 | a well-formed plain manifest served as JSON with `allowUnencrypted` resolves with `encrypted` false and `jsonValid` true |
| `Check.SignedManifestRoundTrip` | checkDomain.js:214-216 | a verified envelope around a well-formed manifest resolves with `encrypted` true and `jsonValid` true |

## Left out

- `_parse` (checkDomain.js:8-13) and the superagent request (checkDomain.js:144-149) are HTTP stream plumbing. The fetch is an oracle from URL to `FetchOutcome`: an error code and message without a response, or a status, content type and body text. An absent `content-type` header is the empty string; both fail every exact comparison the code makes.
- DNS, TLS, connection behaviour, timeouts and retries are outside the model; only the resulting error code and message are inputs.
- `fs.writeFile`, `openssl smime -verify -inform DER -noverify` and `fs.unlink` are one oracle from body to `WriteFailed`, `VerifyFailed` or `Verified(stdout)`. CMS SignedData (RFC 5652) is not parsed. The file deletion and its placement are not modelled.
- The temporary path (checkDomain.js:139) is not modelled. Two concurrent checks of the same domain can share that file; this model has no concurrency.
- `JSON.parse` (JSON per RFC 8259) is an oracle from text to an optional `Json`. It must give objects with distinct keys, listed in `for..in` order (integer-like keys first). Number values keep only whether they are non-zero.
- Promise scheduling, the second `.then(resolve)` that runs after an earlier resolve, `console.log`, and rejection reasons that no caller inspects are not modelled. A settled promise is a `CheckResult`, an `Evaluation` or a `Result`.
- Matcher.VerifyBundleIdentifierIsPresent: requires identifiers whose only regular-expression character is `.`. The general RegExp engine is not modelled, and an identifier such as `a(b` would make `new RegExp` throw.
- Decode.Evaluate: requires the same of the identifiers, but only when a bundle identifier is given, since only then does the source build the pattern (checkDomain.js:88). So do `Decode.EvaluateAasa`, `Decode.ValidateSigned`, `Decode.WriteAasaAndValidate`, `Check.DecodeBody`, `Check.CheckOutcome`, `Check.CheckDomain` and the lemmas about them.
- Matcher.VerifyBundleIdentifierIsPresent: requires a manifest the validator accepts. That is its only call site (checkDomain.js:88). Outside it, the source can throw at `aasa.applinks.details` or match a non-string `appID` after `String()` conversion.
- Matcher.RegexTestIsSuffix: the suffix reading needs a team identifier without `.`. `Matcher.TeamDotMatchesAnyCharacter` shows what a dot does.
- DomainName.Normalize: the no-`/` property is promised only for inputs without line terminators. `DomainName.LineTerminatorStopsPathRemoval` shows the source's behaviour otherwise. The same condition applies to `DomainName.NormalizeIdempotent`.
- The matcher's pattern has no `g` flag, so it keeps no `lastIndex` state between tests. In the model, `RegexTest` and the decode functions are pure, so repeated calls on the same input give the same result.
- Strings are sequences of Unicode scalar values, not of UTF-16 code units. The source's `.` in an unescaped team identifier matches one code unit, so for team `A.B`, bundle `App` and an `appID` of `A`, U+1F600, `B.App` the source's test fails on the low surrogate while `Matcher.RegexTest` accepts. A JSON string holding a lone surrogate cannot be represented. Literal and suffix tests give the same answer in both encodings.
- DomainName.FileUrl: states only that the model's own cleaning recovers the domain from the fetch URL. How the HTTP client parses that URL is not modelled: a cleaned domain holding `#`, `?` or `@` puts a different host or path in the request than the text suggests.
