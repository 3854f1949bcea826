/**
 * The identifier matcher of checkDomain.js (`_verifyBundleIdentifierIsPresent`):
 * does a validated manifest authorise the given bundle identifier, optionally
 * qualified by a team identifier?
 *
 * The source builds a regular expression from the identifiers. For
 * identifiers free of regular-expression syntax other than `.`, that
 * expression is a fixed sequence of atoms followed by `$`: each character of
 * the bundle identifier literally (its dots are escaped), and, when a team
 * identifier is given, the team identifier unescaped (so a `.` in it matches
 * any character but a line terminator) and a literal dot.
 */
module Matcher {
  import opened Wrappers
  import opened Text
  import opened JsonValue
  import opened Format

  /** Characters with a meaning in a RegExp source outside a character class. */
  predicate IsRegexSpecial(c: char)
  {
    c in "^$\\.*+?()[]{}|"
  }

  /** An identifier whose only regular-expression syntax is `.`. */
  predicate PlainIdentifier(s: string)
  {
    forall i | 0 <= i < |s| :: s[i] == '.' || !IsRegexSpecial(s[i])
  }

  /** One position of a compiled pattern. */
  datatype Atom = Lit(c: char) | AnyChar

  predicate AtomMatches(a: Atom, c: char)
  {
    match a
    case Lit(x) => x == c
    case AnyChar => !IsLineTerminator(c)
  }

  /** A string with every character taken literally (the bundle identifier after its dots are escaped). */
  function Escaped(s: string): (p: seq<Atom>)
    ensures |p| == |s|
    ensures forall i | 0 <= i < |s| :: p[i] == Lit(s[i])
  {
    seq(|s|, i requires 0 <= i < |s| => Lit(s[i]))
  }

  /** A string used as a RegExp source as it is: `.` matches any character but a line terminator. */
  function Unescaped(s: string): (p: seq<Atom>)
    ensures |p| == |s|
    ensures forall i | 0 <= i < |s| :: p[i] == if s[i] == '.' then AnyChar else Lit(s[i])
  {
    seq(|s|, i requires 0 <= i < |s| => if s[i] == '.' then AnyChar else Lit(s[i]))
  }

  /** The atoms of the pattern built at checkDomain.js:48-51; the trailing `$` is applied by RegexTest. */
  function IdentifierPattern(bundle: string, team: string): (p: seq<Atom>)
    ensures |p| == if team == "" then |bundle| else |team| + 1 + |bundle|
  {
    (if team != "" then Unescaped(team) + [Lit('.')] else []) + Escaped(bundle)
  }

  /** The atoms of `p` match `s` starting at index `i`. */
  predicate MatchesAt(p: seq<Atom>, s: string, i: int)
  {
    0 <= i && i + |p| <= |s| && forall k | 0 <= k < |p| :: AtomMatches(p[k], s[i + k])
  }

  /** `RegExp.prototype.test` for the atoms of `p` followed by `$`: some start position matches up to the end. */
  predicate RegexTest(p: seq<Atom>, s: string)
  {
    exists i | 0 <= i <= |s| :: MatchesAt(p, s, i) && i + |p| == |s|
  }

  /** The identifier an entry must end with: `team.bundle`, or `bundle` when there is no team. */
  function QualifiedIdentifier(bundle: string, team: string): (id: string)
    ensures team == "" ==> id == bundle
    ensures team != "" ==> |id| == |team| + 1 + |bundle| && id[|team|] == '.'
  {
    if team == "" then bundle else team + "." + bundle
  }

  /** The appID string of an array entry. */
  function AppId(e: Json): string
    requires HasStringAppId(e)
  {
    Prop(e, "appID").value.s
  }

  /**
   * The result of `_verifyBundleIdentifierIsPresent`: some array entry's
   * appID, or some key of keyed details, passes the pattern test and has an
   * array paths. Truthy booleans and numbers enumerate no keys.
   */
  function IdentifierPresent(aasa: Json, bundle: string, team: string): bool
    requires JsonFormat(aasa) == Valid
  {
    var p := IdentifierPattern(bundle, team);
    match Details(aasa).value
    case JArray(es) =>
      exists i | 0 <= i < |es| :: HasStringAppId(es[i]) && RegexTest(p, AppId(es[i])) && HasArrayPaths(es[i])
    case JObject(ms) =>
      exists i | 0 <= i < |ms| :: RegexTest(p, ms[i].0) && HasArrayPaths(ms[i].1)
    case _ => false
  }

  /**
   * A reference definition of "the manifest authorises `id`": some entry
   * whose appID (or key) ends with `id` has an array paths.
   */
  predicate Authorizes(d: Json, id: string)
  {
    match d
    case JArray(es) =>
      exists i | 0 <= i < |es| :: HasStringAppId(es[i]) && HasSuffix(AppId(es[i]), id) && HasArrayPaths(es[i])
    case JObject(ms) =>
      exists i | 0 <= i < |ms| :: HasSuffix(ms[i].0, id) && HasArrayPaths(ms[i].1)
    case _ => false
  }

  /** `_verifyBundleIdentifierIsPresent`: build the pattern once, then scan the entries until one matches. */
  method VerifyBundleIdentifierIsPresent(aasa: Json, bundle: string, team: string) returns (found: bool)
    requires JsonFormat(aasa) == Valid
    requires PlainIdentifier(bundle) && PlainIdentifier(team)
    ensures found == IdentifierPresent(aasa, bundle, team)
  {
    var identifierPattern := IdentifierPattern(bundle, team);
    var details := Prop(Prop(aasa, "applinks").value, "details").value;
    assert Details(aasa) == Some(details);
    match details {
      case JArray(es) =>
        var i := 0;
        while i < |es|
          invariant 0 <= i <= |es|
          invariant forall j | 0 <= j < i :: !(HasStringAppId(es[j]) && RegexTest(identifierPattern, AppId(es[j])) && HasArrayPaths(es[j]))
        {
          var domain := es[i];
          assert EntryVerdict(domain) == Valid;
          if RegexTest(identifierPattern, AppId(domain)) && HasArrayPaths(domain) {
            return true;
          }
          i := i + 1;
        }
      case JObject(ms) =>
        var i := 0;
        while i < |ms|
          invariant 0 <= i <= |ms|
          invariant forall j | 0 <= j < i :: !(RegexTest(identifierPattern, ms[j].0) && HasArrayPaths(ms[j].1))
        {
          var domain := ms[i].0;
          if RegexTest(identifierPattern, domain) && HasArrayPaths(ms[i].1) {
            return true;
          }
          i := i + 1;
        }
      case _ =>
    }
    return false;
  }

  /** Literal atoms match exactly the string they were built from. */
  lemma EscapedMatchesAt(t: string, s: string, i: int)
    requires 0 <= i && i + |t| <= |s|
    ensures MatchesAt(Escaped(t), s, i) <==> s[i..i + |t|] == t
  {
    var p := Escaped(t);
    if MatchesAt(p, s, i) {
      forall k | 0 <= k < |t| ensures s[i..i + |t|][k] == t[k] {
        assert AtomMatches(p[k], s[i + k]);
      }
    }
    if s[i..i + |t|] == t {
      forall k | 0 <= k < |t| ensures AtomMatches(p[k], s[i + k]) {
        assert s[i..i + |t|][k] == s[i + k];
      }
    }
  }

  /** Without a dot in the team identifier, the pattern is the qualified identifier taken literally. */
  lemma PatternIsLiteral(bundle: string, team: string)
    requires '.' !in team
    ensures IdentifierPattern(bundle, team) == Escaped(QualifiedIdentifier(bundle, team))
  {
    var p := IdentifierPattern(bundle, team);
    var q := Escaped(QualifiedIdentifier(bundle, team));
    if team != "" {
      var id := QualifiedIdentifier(bundle, team);
      assert |p| == |q|;
      forall k | 0 <= k < |p| ensures p[k] == q[k] {
        if k < |team| {
          assert team[k] != '.';
          assert id[k] == team[k];
        } else if k == |team| {
          assert id[k] == '.';
        } else {
          assert p[k] == Escaped(bundle)[k - |team| - 1];
          assert id[k] == bundle[k - |team| - 1];
        }
      }
    }
  }

  /** The regular-expression test is a suffix test (not anchored at the start) when the team identifier has no dot. */
  lemma {:induction false} RegexTestIsSuffix(bundle: string, team: string, s: string)
    requires '.' !in team
    ensures RegexTest(IdentifierPattern(bundle, team), s) <==> HasSuffix(s, QualifiedIdentifier(bundle, team))
  {
    var id := QualifiedIdentifier(bundle, team);
    PatternIsLiteral(bundle, team);
    var p := Escaped(id);
    if RegexTest(p, s) {
      var i :| 0 <= i <= |s| && MatchesAt(p, s, i) && i + |p| == |s|;
      EscapedMatchesAt(id, s, i);
    }
    if HasSuffix(s, id) {
      var i := |s| - |id|;
      EscapedMatchesAt(id, s, i);
      assert MatchesAt(p, s, i) && i + |p| == |s|;
    }
  }

  /** The matcher finds the identifier exactly when the manifest authorises its qualified form by suffix. */
  lemma IdentifierPresentIffAuthorized(aasa: Json, bundle: string, team: string)
    requires JsonFormat(aasa) == Valid
    ensures '.' !in team ==>
      (IdentifierPresent(aasa, bundle, team) <==> Authorizes(Details(aasa).value, QualifiedIdentifier(bundle, team)))
  {
    if '.' !in team {
      var p := IdentifierPattern(bundle, team);
      var id := QualifiedIdentifier(bundle, team);
      match Details(aasa).value
      case JArray(es) =>
        forall i | 0 <= i < |es| && HasStringAppId(es[i])
          ensures RegexTest(p, AppId(es[i])) <==> HasSuffix(AppId(es[i]), id)
        {
          RegexTestIsSuffix(bundle, team, AppId(es[i]));
        }
      case JObject(ms) =>
        forall i | 0 <= i < |ms| ensures RegexTest(p, ms[i].0) <==> HasSuffix(ms[i].0, id) {
          RegexTestIsSuffix(bundle, team, ms[i].0);
        }
      case _ =>
    }
  }

  /** `TEAMID.com.foo.App` and, as the test is not anchored at the start, `XTEAMID.com.foo.App` match. */
  lemma QualifiedIdentifierMatches()
    ensures RegexTest(IdentifierPattern("com.foo.App", "TEAMID"), "TEAMID.com.foo.App")
    ensures RegexTest(IdentifierPattern("com.foo.App", "TEAMID"), "XTEAMID.com.foo.App")
  {
    var id := QualifiedIdentifier("com.foo.App", "TEAMID");
    assert id == "TEAMID.com.foo.App";
    RegexTestIsSuffix("com.foo.App", "TEAMID", "TEAMID.com.foo.App");
    RegexTestIsSuffix("com.foo.App", "TEAMID", "XTEAMID.com.foo.App");
    assert "XTEAMID.com.foo.App"[1..] == id;
  }

  /** Another team's identifier does not match. */
  lemma OtherTeamDoesNotMatch()
    ensures !RegexTest(IdentifierPattern("com.foo.App", "TEAMID"), "OTHERTEAM.com.foo.App")
  {
    var id := QualifiedIdentifier("com.foo.App", "TEAMID");
    assert id == "TEAMID.com.foo.App";
    RegexTestIsSuffix("com.foo.App", "TEAMID", "OTHERTEAM.com.foo.App");
    assert "OTHERTEAM.com.foo.App"[3..][0] != id[0];
  }

  /** A bundle identifier with extra trailing characters does not match. */
  lemma LongerBundleDoesNotMatch()
    ensures !RegexTest(IdentifierPattern("com.foo.App", "TEAMID"), "TEAMID.com.foo.AppX")
    ensures !RegexTest(IdentifierPattern("com.foo.App", "TEAMID"), "com.foo.AppX")
  {
    var id := QualifiedIdentifier("com.foo.App", "TEAMID");
    assert id == "TEAMID.com.foo.App";
    RegexTestIsSuffix("com.foo.App", "TEAMID", "TEAMID.com.foo.AppX");
    RegexTestIsSuffix("com.foo.App", "TEAMID", "com.foo.AppX");
    assert "TEAMID.com.foo.AppX"[1..][0] != id[0];
  }

  /** Without a team identifier, any appID ending with the bundle identifier matches. */
  lemma BundleOnlyMatches()
    ensures RegexTest(IdentifierPattern("com.foo.App", ""), "TEAMID.com.foo.App")
  {
    RegexTestIsSuffix("com.foo.App", "", "TEAMID.com.foo.App");
    assert "TEAMID.com.foo.App"[7..] == "com.foo.App";
  }

  /** A dot in the team identifier is not escaped, so it matches any character there. */
  lemma TeamDotMatchesAnyCharacter()
    ensures RegexTest(IdentifierPattern("App", "A.B"), "AxB.App")
    ensures !HasSuffix("AxB.App", QualifiedIdentifier("App", "A.B"))
  {
    var p := IdentifierPattern("App", "A.B");
    assert p == [Lit('A'), AnyChar, Lit('B'), Lit('.'), Lit('A'), Lit('p'), Lit('p')];
    assert MatchesAt(p, "AxB.App", 0);
    assert "AxB.App"[1] != "A.B.App"[1];
  }
}
