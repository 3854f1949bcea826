/**
 * The structural validator of checkDomain.js (`_verifyJsonFormat`): does a
 * decoded manifest have `applinks.details`, and does every entry of it carry
 * the fields the platform needs? Because the JavaScript dereferences values
 * without checking them for null, a third outcome, Throws, stands for the
 * TypeError that the caller turns into a rejection.
 */
module Format {
  import opened Wrappers
  import opened JsonValue

  datatype Verdict = Valid | Invalid | Throws

  /** One element of array-shaped details: `null.appID` throws; otherwise it needs a string appID and an array paths. */
  function EntryVerdict(e: Json): Verdict
  {
    if e.JNull? then Throws
    else if HasStringAppId(e) && HasArrayPaths(e) then Valid
    else Invalid
  }

  /** One property value of keyed details: `null.paths` throws; otherwise it needs an array paths. */
  function ValueVerdict(v: Json): Verdict
  {
    if v.JNull? then Throws
    else if HasArrayPaths(v) then Valid
    else Invalid
  }

  /** Scanning array-shaped details: the first element that is not valid decides between Invalid and Throws. */
  function ArrayVerdict(es: seq<Json>): Verdict
  {
    if forall i | 0 <= i < |es| :: EntryVerdict(es[i]) == Valid then Valid
    else if exists i | 0 <= i < |es| :: es[i].JNull? && forall j | 0 <= j < i :: EntryVerdict(es[j]) == Valid then Throws
    else Invalid
  }

  /** Scanning keyed details in enumeration order, with the same first-failure rule. */
  function MembersVerdict(ms: seq<(string, Json)>): Verdict
  {
    if forall i | 0 <= i < |ms| :: ValueVerdict(ms[i].1) == Valid then Valid
    else if exists i | 0 <= i < |ms| :: ms[i].1.JNull? && forall j | 0 <= j < i :: ValueVerdict(ms[j].1) == Valid then Throws
    else Invalid
  }

  /**
   * The verdict on a truthy `details` value. Anything that is not an array
   * goes through for..in: an object enumerates its properties, a string
   * enumerates its indices (whose values are one-character strings, which
   * have no `paths`), and booleans and numbers enumerate nothing.
   */
  function DetailsVerdict(d: Json): Verdict
  {
    match d
    case JArray(es) => ArrayVerdict(es)
    case JObject(ms) => MembersVerdict(ms)
    case JString(s) => if s == "" then Valid else Invalid
    case _ => Valid
  }

  /** `aasa.applinks.details` when both steps of the access reach a truthy value. */
  function Details(aasa: Json): (r: Option<Json>)
    ensures r.Some? ==> Truthy(r.value)
  {
    var applinks := Prop(aasa, "applinks");
    if applinks.None? || !Truthy(applinks.value) then None
    else
      var details := Prop(applinks.value, "details");
      if details.None? || !Truthy(details.value) then None else details
  }

  /** The outcome of `_verifyJsonFormat(aasa)`: a top-level null throws at `aasa.applinks`. */
  function JsonFormat(aasa: Json): Verdict
  {
    if aasa.JNull? then Throws
    else
      match Details(aasa)
      case None => Invalid
      case Some(d) => DetailsVerdict(d)
  }

  /**
   * The manifest shape the validator accepts, stated without reference to
   * evaluation order: `applinks` and `details` are present and truthy; array
   * details hold only entries with a string appID and an array paths; any
   * other details value has an array paths under every key it enumerates.
   */
  predicate WellFormedManifest(aasa: Json)
  {
    match Details(aasa)
    case None => false
    case Some(d) =>
      match d
      case JArray(es) => forall i | 0 <= i < |es| :: HasStringAppId(es[i]) && HasArrayPaths(es[i])
      case JObject(ms) => forall i | 0 <= i < |ms| :: HasArrayPaths(ms[i].1)
      case JString(s) => forall k | 0 <= k < |s| :: HasArrayPaths(JString([s[k]]))
      case _ => true
  }

  /** `_verifyJsonFormat`: the two property accesses, then a scan that stops at the first failing entry. */
  method VerifyJsonFormat(aasa: Json) returns (r: Verdict)
    ensures r == JsonFormat(aasa)
  {
    if aasa.JNull? {
      return Throws;
    }
    var applinks := Prop(aasa, "applinks");
    if applinks.None? || !Truthy(applinks.value) {
      return Invalid;
    }
    var details := Prop(applinks.value, "details");
    if details.None? || !Truthy(details.value) {
      return Invalid;
    }
    match details.value {
      case JArray(es) =>
        var i := 0;
        while i < |es|
          invariant 0 <= i <= |es|
          invariant forall j | 0 <= j < i :: EntryVerdict(es[j]) == Valid
        {
          var domain := es[i];
          if domain.JNull? {
            assert es[i].JNull? && forall j | 0 <= j < i :: EntryVerdict(es[j]) == Valid;
            return Throws;
          }
          if !(HasStringAppId(domain) && HasArrayPaths(domain)) {
            assert EntryVerdict(es[i]) != Valid;
            return Invalid;
          }
          i := i + 1;
        }
      case JObject(ms) =>
        var i := 0;
        while i < |ms|
          invariant 0 <= i <= |ms|
          invariant forall j | 0 <= j < i :: ValueVerdict(ms[j].1) == Valid
        {
          var value := ms[i].1;
          if value.JNull? {
            assert ms[i].1.JNull? && forall j | 0 <= j < i :: ValueVerdict(ms[j].1) == Valid;
            return Throws;
          }
          if !HasArrayPaths(value) {
            assert ValueVerdict(ms[i].1) != Valid;
            return Invalid;
          }
          i := i + 1;
        }
      case JString(s) =>
        // The first enumerated index holds a one-character string, which has no paths.
        if |s| > 0 {
          return Invalid;
        }
      case _ =>
        // Booleans and numbers have no enumerable keys.
    }
    return Valid;
  }

  /** The validator accepts exactly the well-formed manifests. */
  lemma ValidIffWellFormed(aasa: Json)
    ensures JsonFormat(aasa) == Valid <==> WellFormedManifest(aasa)
  {
    if aasa.JNull? {
      assert Details(aasa).None?;
    } else if Details(aasa).Some? {
      var d := Details(aasa).value;
      match d {
        case JArray(es) =>
          assert forall i | 0 <= i < |es| :: EntryVerdict(es[i]) == Valid <==> HasStringAppId(es[i]) && HasArrayPaths(es[i]);
        case JObject(ms) =>
          assert forall i | 0 <= i < |ms| :: ValueVerdict(ms[i].1) == Valid <==> HasArrayPaths(ms[i].1);
        case JString(s) =>
          assert s != "" ==> !HasArrayPaths(JString([s[0]]));
        case _ =>
      }
    }
  }

  /** A value found under some key of a null-free property list is itself null-free. */
  lemma LookupNullFree(ms: seq<(string, Json)>, key: string)
    requires forall i | 0 <= i < |ms| :: NullFree(ms[i].1)
    ensures Lookup(ms, key).Some? ==> NullFree(Lookup(ms, key).value)
  {
    if Lookup(ms, key).Some? {
      var i :| 0 <= i < |ms| && ms[i] == (key, Lookup(ms, key).value);
      assert NullFree(ms[i].1);
    }
  }

  /** The validator only throws on a null it dereferences: a manifest without nulls is never a TypeError. */
  lemma NullFreeNeverThrows(aasa: Json)
    requires NullFree(aasa)
    ensures JsonFormat(aasa) != Throws
  {
    var applinks := Prop(aasa, "applinks");
    if aasa.JObject? {
      LookupNullFree(aasa.members, "applinks");
    }
    if applinks.Some? && applinks.value.JObject? {
      LookupNullFree(applinks.value.members, "details");
    }
    match Details(aasa) {
      case None =>
      case Some(d) =>
        assert NullFree(d);
        match d {
          case JArray(es) =>
            assert forall i | 0 <= i < |es| :: !es[i].JNull? by {
              forall i | 0 <= i < |es| ensures !es[i].JNull? {
                assert NullFree(es[i]);
              }
            }
          case JObject(ms) =>
            assert forall i | 0 <= i < |ms| :: !ms[i].1.JNull? by {
              forall i | 0 <= i < |ms| ensures !ms[i].1.JNull? {
                assert NullFree(ms[i].1);
              }
            }
          case _ =>
        }
    }
  }

  /** Empty details, in either shape, are valid. */
  lemma EmptyDetailsValid(aasa: Json)
    requires Details(aasa) == Some(JArray([])) || Details(aasa) == Some(JObject([]))
    ensures JsonFormat(aasa) == Valid
  {
  }

  /** `{ "applinks": { "details": d } }` */
  function Manifest(d: Json): Json
  {
    JObject([("applinks", JObject([("details", d)]))])
  }

  /** An entry `{ "appID": id, "paths": ["*"] }`. */
  function Entry(id: string): Json
  {
    JObject([("appID", JString(id)), ("paths", JArray([JString("*")]))])
  }

  /** The documented array shape is valid. */
  lemma ArrayShapeValid()
    ensures JsonFormat(Manifest(JArray([Entry("TEAMID.com.foo.App")]))) == Valid
  {
    var e := Entry("TEAMID.com.foo.App");
    assert HasStringAppId(e) && HasArrayPaths(e);
    assert EntryVerdict([e][0]) == Valid;
  }

  /** An array entry without paths makes the manifest invalid. */
  lemma MissingPathsInvalid()
    ensures JsonFormat(Manifest(JArray([JObject([("appID", JString("TEAMID.com.foo.App"))])]))) == Invalid
  {
    var bad := JObject([("appID", JString("TEAMID.com.foo.App"))]);
    assert Prop(bad, "paths").None?;
    var es := [bad];
    assert EntryVerdict(es[0]) != Valid && !es[0].JNull?;
    assert ArrayVerdict(es) == Invalid;
  }

  /** The documented keyed shape is valid. */
  lemma KeyedShapeValid()
    ensures JsonFormat(Manifest(JObject([("TEAMID.com.foo.App", JObject([("paths", JArray([JString("*")]))]))]))) == Valid
  {
    var v := JObject([("paths", JArray([JString("*")]))]);
    assert HasArrayPaths(v);
    var ms := [("TEAMID.com.foo.App", v)];
    assert ValueVerdict(ms[0].1) == Valid;
  }

  /** Truthy scalars as details: true and non-zero numbers enumerate nothing and pass; a non-empty string fails. */
  lemma ScalarDetails()
    ensures JsonFormat(Manifest(JBool(true))) == Valid
    ensures JsonFormat(Manifest(JNumber(true))) == Valid
    ensures JsonFormat(Manifest(JString("x"))) == Invalid
    ensures JsonFormat(Manifest(JNumber(false))) == Invalid
  {
  }

  /** Enumeration order decides between Invalid and Throws when a bad entry and a null are both present. */
  lemma FirstFailureDecides()
    ensures JsonFormat(Manifest(JObject([("a", JObject([])), ("b", JNull)]))) == Invalid
    ensures JsonFormat(Manifest(JObject([("b", JNull), ("a", JObject([]))]))) == Throws
    ensures JsonFormat(JNull) == Throws
  {
    var ms1 := [("a", JObject([])), ("b", JNull)];
    assert ValueVerdict(ms1[0].1) == Invalid;
    var ms2 := [("b", JNull), ("a", JObject([]))];
    assert ms2[0].1.JNull?;
  }
}
