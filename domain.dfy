/**
 * Domain clean-up and the manifest URL (checkDomain.js:135-138). The two
 * regular-expression replacements are written out: the scheme pattern is
 * not anchored, so it removes the first `http://` or `https://` wherever it
 * occurs, and the path pattern (a slash followed by `.` repeated) removes
 * from the first `/` up to, but not including, the next line terminator,
 * since `.` does not match one.
 */
module DomainName {
  import opened Text

  const HttpScheme: string := "http://"
  const HttpsScheme: string := "https://"
  const ManifestPath: string := "/apple-app-site-association"

  /** Length of the `https?://` match at the start of `s`, or 0 when there is none. */
  function SchemeLength(s: string): (n: nat)
    ensures n == 0 || n == 7 || n == 8
    ensures n > 0 ==> n <= |s| && s[n - 1] == '/'
  {
    if HttpsScheme <= s then |HttpsScheme|
    else if HttpScheme <= s then |HttpScheme|
    else 0
  }

  /** The first replacement at checkDomain.js:135: the first scheme occurrence is removed. */
  function StripScheme(s: string): (r: string)
    ensures |r| <= |s|
    ensures forall c | c in r :: c in s
    ensures '/' !in s ==> r == s
  {
    if SchemeLength(s) > 0 then s[SchemeLength(s)..]
    else if s == [] then []
    else [s[0]] + StripScheme(s[1..])
  }

  /** What the repeated `.` leaves behind: it consumes characters up to the first line terminator. */
  function RestOfLine(s: string): (r: string)
    ensures NoLineTerminator(s) ==> r == []
    ensures |r| <= |s| && r == s[|s| - |r|..]
  {
    if s == [] then []
    else if IsLineTerminator(s[0]) then s
    else RestOfLine(s[1..])
  }

  /** The repeated `.` stops exactly at the first line terminator: what it consumed holds none, and what is left is empty or starts with one. */
  lemma {:induction false} RestOfLineStopsAtTerminator(s: string)
    ensures RestOfLine(s) == [] || IsLineTerminator(RestOfLine(s)[0])
    ensures NoLineTerminator(s[..|s| - |RestOfLine(s)|])
  {
    if s != [] && !IsLineTerminator(s[0]) {
      RestOfLineStopsAtTerminator(s[1..]);
      var k := |s| - |RestOfLine(s)|;
      assert s[..k] == [s[0]] + s[1..][..k - 1];
    }
  }

  /** The second replacement at checkDomain.js:136: the first `/` and the rest of its line are removed. */
  function StripPath(s: string): (r: string)
    ensures '/' !in s ==> r == s
    ensures NoLineTerminator(s) ==> r <= s && '/' !in r && ('/' in s ==> s[|r|] == '/')
  {
    if s == [] then []
    else if s[0] == '/' then RestOfLine(s[1..])
    else [s[0]] + StripPath(s[1..])
  }

  /** The cleaned domain used as the host of the manifest URL. */
  function Normalize(domain: string): (r: string)
    ensures NoLineTerminator(domain) ==> '/' !in r && NoLineTerminator(r)
  {
    StripSchemeKeepsLine(domain);
    StripPath(StripScheme(domain))
  }

  /** The URL fetched for a cleaned domain (checkDomain.js:138). */
  function FileUrl(cleaned: string): (r: string)
    ensures '/' !in cleaned ==> Normalize(r) == cleaned
  {
    assert HttpsScheme + cleaned + ManifestPath == HttpsScheme + (cleaned + ManifestPath);
    StripLeadingHttps(cleaned + ManifestPath);
    StripManifestPath(cleaned);
    HttpsScheme + cleaned + ManifestPath
  }

  /** No scheme occurrence starts before index `i`. */
  predicate NoSchemeBefore(s: string, i: nat)
  {
    forall j | 0 <= j < i && j <= |s| :: SchemeLength(s[j..]) == 0
  }

  /** Prepending one character associates with concatenation. */
  lemma ConsAppend(c: char, a: string, b: string)
    ensures [c] + (a + b) == ([c] + a) + b
  {
  }

  /** Dropping the first character shifts the scheme-free region by one. */
  lemma NoSchemeBeforeTail(s: string, i: nat)
    requires 0 < i <= |s| && NoSchemeBefore(s, i)
    ensures NoSchemeBefore(s[1..], i - 1)
  {
    forall j | 0 <= j < i - 1 && j <= |s| - 1 ensures SchemeLength(s[1..][j..]) == 0 {
      assert s[1..][j..] == s[j + 1..];
    }
  }

  /** Where no scheme starts, removal keeps the first character and continues with the rest. */
  lemma StripSchemeStep(s: string)
    requires s != [] && SchemeLength(s) == 0
    ensures StripScheme(s) == [s[0]] + StripScheme(s[1..])
  {
  }

  /** Cutting a window out of `s[1..]` and putting `s[0]` back is cutting the same window out of `s`. */
  lemma CutShift(s: string, i: nat, n: nat)
    requires 0 < i && i + n <= |s|
    ensures [s[0]] + (s[1..][..i - 1] + s[1..][i - 1 + n..]) == s[..i] + s[i + n..]
  {
    var t := s[1..];
    assert [s[0]] + t[..i - 1] == s[..i];
    assert t[i - 1 + n..] == s[i + n..];
    ConsAppend(s[0], t[..i - 1], t[i - 1 + n..]);
  }

  /** Removing the scheme removes the first occurrence of `http://` or `https://` and nothing else. */
  lemma {:induction false} StripSchemeRemovesFirst(s: string, i: nat)
    requires i < |s| && SchemeLength(s[i..]) > 0 && NoSchemeBefore(s, i)
    ensures StripScheme(s) == s[..i] + s[i + SchemeLength(s[i..])..]
  {
    if i == 0 {
      assert s[0..] == s;
    } else {
      var t := s[1..];
      var n := SchemeLength(s[i..]);
      assert SchemeLength(s) == 0 by { assert s[0..] == s; }
      StripSchemeStep(s);
      NoSchemeBeforeTail(s, i);
      assert t[i - 1..] == s[i..];
      StripSchemeRemovesFirst(t, i - 1);
      CutShift(s, i, n);
    }
  }

  /** Without any occurrence of a scheme, removing it changes nothing. */
  lemma {:induction false} StripSchemeWithoutScheme(s: string)
    requires NoSchemeBefore(s, |s|)
    ensures StripScheme(s) == s
  {
    if s != [] {
      assert s[0..] == s;
      assert NoSchemeBefore(s[1..], |s| - 1) by {
        forall j | 0 <= j < |s| - 1 ensures SchemeLength(s[1..][j..]) == 0 {
          assert s[1..][j..] == s[j + 1..];
        }
      }
      StripSchemeWithoutScheme(s[1..]);
    }
  }

  /** Path removal keeps everything before the first `/` and whatever follows the first line terminator after it. */
  lemma {:induction false} StripPathKeepsRestOfLine(pre: string, post: string)
    requires '/' !in pre
    ensures StripPath(pre + ['/'] + post) == pre + RestOfLine(post)
  {
    if pre == [] {
      assert pre + ['/'] + post == ['/'] + post;
      assert (['/'] + post)[1..] == post;
    } else {
      var s := pre + ['/'] + post;
      var tail := pre[1..] + ['/'] + post;
      assert s == [pre[0]] + tail;
      assert s[0] != '/' by { assert pre[0] in pre; }
      assert s[1..] == tail;
      assert '/' !in pre[1..] by {
        forall c | c in pre[1..] ensures c in pre { }
      }
      StripPathKeepsRestOfLine(pre[1..], post);
      ConsAppend(pre[0], pre[1..], RestOfLine(post));
      assert [pre[0]] + pre[1..] == pre;
    }
  }

  /** Path removal on a line without terminators stops right before the first `/`. */
  lemma StripPathAtFirstSlash(s: string, i: nat)
    requires NoLineTerminator(s)
    requires i < |s| && s[i] == '/' && '/' !in s[..i]
    ensures StripPath(s) == s[..i]
  {
    assert '/' in s;
  }

  /** Removing the scheme adds no line terminator. */
  lemma StripSchemeKeepsLine(domain: string)
    ensures NoLineTerminator(domain) ==> NoLineTerminator(StripScheme(domain))
  {
    var t := StripScheme(domain);
    if NoLineTerminator(domain) {
      forall i | 0 <= i < |t| ensures !IsLineTerminator(t[i]) {
        assert t[i] in t;
      }
    }
  }

  /** Cleaning is idempotent, provided the input holds no line terminator. */
  lemma NormalizeIdempotent(domain: string)
    requires NoLineTerminator(domain)
    ensures Normalize(Normalize(domain)) == Normalize(domain)
  {
    var c := Normalize(domain);
    assert StripScheme(c) == c;
  }

  /** The manifest's file name holds no line terminator, so path removal consumes all of it. */
  lemma ManifestNameOnOneLine()
    ensures RestOfLine(ManifestPath[1..]) == []
  {
    assert NoLineTerminator(ManifestPath[1..]);
  }

  /** A leading `https://` is the scheme occurrence that is removed. */
  lemma StripLeadingHttps(rest: string)
    ensures StripScheme(HttpsScheme + rest) == rest
  {
    var url := HttpsScheme + rest;
    assert HttpsScheme <= url;
    assert url[|HttpsScheme|..] == rest;
  }

  /** Path removal on a slash-free host followed by the manifest path leaves the host. */
  lemma StripManifestPath(host: string)
    ensures '/' !in host ==> StripPath(host + ManifestPath) == host
  {
    if '/' !in host {
      var name := ManifestPath[1..];
      assert host + ManifestPath == host + ['/'] + name;
      StripPathKeepsRestOfLine(host, name);
      ManifestNameOnOneLine();
    }
  }

  /** An `https://` URL whose path stays on one line cleans to its host (`https://example.com/foo/bar` to `example.com`). */
  lemma NormalizeHttpsUrl(host: string, path: string)
    requires '/' !in host && NoLineTerminator(path)
    ensures Normalize(HttpsScheme + (host + ['/'] + path)) == host
  {
    StripLeadingHttps(host + ['/'] + path);
    StripPathKeepsRestOfLine(host, path);
  }

  /** The repeated `.` skips a terminator-free stretch and stops at the line terminator after it. */
  lemma {:induction false} RestOfLineSkipsLine(line: string, next: string)
    requires NoLineTerminator(line)
    requires next != [] && IsLineTerminator(next[0])
    ensures RestOfLine(line + next) == next
  {
    if line == [] {
      assert line + next == next;
    } else {
      assert (line + next)[1..] == line[1..] + next;
      RestOfLineSkipsLine(line[1..], next);
    }
  }

  /** A line terminator stops the path removal: everything from it on, any later `/` included, survives. */
  lemma LineTerminatorStopsPathRemoval(host: string, line: string, next: string)
    requires '/' !in host && NoLineTerminator(line)
    requires next != [] && IsLineTerminator(next[0])
    ensures StripPath(host + ['/'] + line + next) == host + next
  {
    assert host + ['/'] + line + next == host + ['/'] + (line + next);
    StripPathKeepsRestOfLine(host, line + next);
    RestOfLineSkipsLine(line, next);
  }

}
