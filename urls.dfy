// The part of `urllib.parse.urlparse` (CPython 3.12) that the link
// classification reads: the scheme, the network location and the path.

module Urls {
  import opened PyStr

  datatype UrlParts = UrlParts(scheme: string, netloc: string, path: string)

  /** A C0 control character or a space: what `urlsplit` strips from the front of a URL. */
  predicate IsC0OrSpace(c: char)
  {
    c <= ' '
  }

  /** Tab, carriage return and line feed, which `urlsplit` deletes wherever they occur. */
  predicate IsUnsafe(c: char)
  {
    c == '\t' || c == '\r' || c == '\n'
  }

  predicate NoUnsafe(s: string)
  {
    forall i | 0 <= i < |s| :: !IsUnsafe(s[i])
  }

  /** `url.lstrip(_WHATWG_C0_CONTROL_OR_SPACE)`. */
  function LStripC0(s: string): (r: string)
    ensures |r| <= |s| && r == s[|s| - |r|..]
    ensures forall i | 0 <= i < |s| - |r| :: IsC0OrSpace(s[i])
    ensures r == [] || !IsC0OrSpace(r[0])
  {
    if |s| > 0 && IsC0OrSpace(s[0]) then LStripC0(s[1..]) else s
  }

  /** Deletes every tab, carriage return and line feed, keeping the other characters in order. */
  function RemoveUnsafe(s: string): (r: string)
    ensures NoUnsafe(r)
    ensures NoUnsafe(s) ==> r == s
  {
    if s == [] then []
    else (if IsUnsafe(s[0]) then [] else [s[0]]) + RemoveUnsafe(s[1..])
  }

  lemma {:induction false} RemoveUnsafeAppend(a: string, b: string)
    ensures RemoveUnsafe(a + b) == RemoveUnsafe(a) + RemoveUnsafe(b)
  {
    if a == [] {
      assert a + b == b;
    } else {
      assert (a + b)[0] == a[0] && (a + b)[1..] == a[1..] + b;
      RemoveUnsafeAppend(a[1..], b);
    }
  }

  /** What `urlsplit` works on: the URL without leading controls and spaces and without tabs and newlines. */
  function Sanitize(url: string): (r: string)
    ensures NoUnsafe(r)
  {
    RemoveUnsafe(LStripC0(url))
  }

  predicate IsAsciiAlpha(c: char)
  {
    'a' <= c <= 'z' || 'A' <= c <= 'Z'
  }

  /** `scheme_chars`: ASCII letters, digits, '+', '-' and '.'. */
  predicate IsSchemeChar(c: char)
  {
    IsAsciiAlpha(c) || '0' <= c <= '9' || c == '+' || c == '-' || c == '.'
  }

  /** A text `urlsplit` accepts as a scheme: an ASCII letter followed by scheme characters. */
  predicate IsSchemeName(s: string)
  {
    |s| > 0 && IsAsciiAlpha(s[0]) && forall i | 0 <= i < |s| :: IsSchemeChar(s[i])
  }

  /**
   * The scheme step of `urlsplit`: the text before the first ':' is the
   * scheme, lower-cased, when it is a scheme name; otherwise there is none.
   */
  function SplitScheme(url: string): (r: (string, string))
  {
    var i := Find(url, ':');
    if i > 0 && IsSchemeName(url[..i]) then (Lower(url[..i]), url[i + 1..]) else ("", url)
  }

  /** A scheme is found exactly when the text before the first ':' is a scheme name. */
  lemma SchemeFoundIff(url: string)
    ensures SplitScheme(url).0 != "" <==> Find(url, ':') > 0 && IsSchemeName(url[..Find(url, ':')])
  {
    var i := Find(url, ':');
    if i > 0 && IsSchemeName(url[..i]) {
      assert |Lower(url[..i])| == i;
    }
  }

  /**
   * A found scheme is a lower-case scheme name: the text before the URL's
   * first ':', lower-cased, and the rest follows that ':'. Without one the
   * whole URL is the rest.
   */
  lemma SplitSchemeShape(url: string)
    ensures var (scheme, rest) := SplitScheme(url);
      (scheme == "" ==> rest == url) &&
      (scheme != "" ==>
        IsSchemeName(scheme) && Lower(scheme) == scheme &&
        |scheme| < |url| && url[|scheme|] == ':' && ':' !in url[..|scheme|] &&
        IsSchemeName(url[..|scheme|]) && scheme == Lower(url[..|scheme|]) && rest == url[|scheme| + 1..])
  {
    var i := Find(url, ':');
    if i > 0 && IsSchemeName(url[..i]) {
      var scheme := Lower(url[..i]);
      forall j | 0 <= j < i ensures IsSchemeChar(scheme[j]) {
        assert IsSchemeChar(url[..i][j]);
      }
    }
  }

  predicate IsNetlocDelimiter(c: char)
  {
    c == '/' || c == '?' || c == '#'
  }

  /** The first position at or after `start` that holds '/', '?' or '#', or the length. */
  function Delimiter(url: string, start: nat): (d: nat)
    requires start <= |url|
    ensures start <= d <= |url|
    ensures forall i | start <= i < d :: !IsNetlocDelimiter(url[i])
    ensures d < |url| ==> IsNetlocDelimiter(url[d])
    decreases |url| - start
  {
    if start == |url| || IsNetlocDelimiter(url[start]) then start else Delimiter(url, start + 1)
  }

  /** `_splitnetloc(url, 2)`: the authority after "//" and the rest of the URL. */
  function SplitNetloc(url: string): (r: (string, string))
    requires |url| >= 2
    ensures 2 + |r.0| <= |url| && r.0 == url[2..2 + |r.0|] && r.1 == url[2 + |r.0|..]
    ensures forall i | 0 <= i < |r.0| :: !IsNetlocDelimiter(r.0[i])
    ensures r.1 == [] || IsNetlocDelimiter(r.1[0])
  {
    var d := Delimiter(url, 2);
    (url[2..d], url[d..])
  }

  /** The schemes whose paths `urlparse` splits at ';' into path and parameters. */
  const UsesParams: set<string> := {
    "", "ftp", "hdl", "prospero", "http", "imap", "https", "shttp", "rtsp", "rtspu",
    "rtsps", "sip", "sips", "mms", "sftp", "tel"
  }

  /**
   * The path half of `_splitparams(path)`: the path is cut at the first ';'
   * after its last '/', or at its first ';' when it has no '/'.
   */
  function ParamsPath(path: string): (r: string)
    requires ';' in path
    ensures |r| <= |path| && r == path[..|r|]
    ensures r == path || path[|r|] == ';'
  {
    if '/' in path then
      var i := FindFrom(path, ';', RFind(path, '/'));
      if i < 0 then path else path[..i]
    else
      path[..Find(path, ';')]
  }

  /** `url[:2] == '//'`. */
  predicate OpensWithSlashes(url: string)
  {
    |url| >= 2 && url[0] == '/' && url[1] == '/'
  }

  /** The network location, when the rest of the URL opens with "//", and what follows it. */
  function SplitAuthority(rest: string): (r: (string, string))
  {
    if OpensWithSlashes(rest) then SplitNetloc(rest) else ("", rest)
  }

  /**
   * The path: what precedes the fragment ('#') and the query ('?'), cut at
   * the parameters (';') for the schemes that have them.
   */
  function PathOf(scheme: string, rest: string): (path: string)
  {
    var path := Before(Before(rest, '#'), '?');
    if scheme in UsesParams && ';' in path then ParamsPath(path) else path
  }

  /** `urlparse` on a sanitised URL. */
  function ParseSanitized(u: string): (p: UrlParts)
  {
    var (scheme, rest) := SplitScheme(u);
    var (netloc, tail) := SplitAuthority(rest);
    UrlParts(scheme, netloc, PathOf(scheme, tail))
  }

  /** `urlparse(url)`, reduced to its scheme, network location and path. */
  function UrlParse(url: string): (p: UrlParts)
  {
    ParseSanitized(Sanitize(url))
  }

  /** The path holds neither a fragment nor a query. */
  lemma PathOfShape(scheme: string, rest: string)
    ensures '#' !in PathOf(scheme, rest) && '?' !in PathOf(scheme, rest)
  {
    var path := Before(Before(rest, '#'), '?');
    assert '#' !in path;
  }

  /**
   * The parsed scheme is empty or a lower-case scheme name, the network
   * location holds no '/', '?' or '#', and the path no '#' or '?'.
   */
  lemma UrlParseShape(url: string)
    ensures var p := UrlParse(url);
      (p.scheme == "" || (IsSchemeName(p.scheme) && Lower(p.scheme) == p.scheme)) &&
      (forall i | 0 <= i < |p.netloc| :: !IsNetlocDelimiter(p.netloc[i])) &&
      '#' !in p.path && '?' !in p.path
  {
    var u := Sanitize(url);
    SplitSchemeShape(u);
    var (scheme, rest) := SplitScheme(u);
    PathOfShape(scheme, SplitAuthority(rest).1);
  }

  /** `urlsplit` raises ValueError ("Invalid IPv6 URL") when the netloc has one square bracket without the other. */
  predicate Accepted(url: string)
  {
    var netloc := UrlParse(url).netloc;
    ('[' in netloc) == (']' in netloc)
  }

  // How `urlparse` splits the usual shapes of href.

  /** Sanitising keeps a first character that is neither a control character nor a space. */
  lemma SanitizeKeepsFirst(s: string)
    requires s != [] && !IsC0OrSpace(s[0])
    ensures Sanitize(s) == RemoveUnsafe(s) == [s[0]] + RemoveUnsafe(s[1..])
  {
    assert LStripC0(s) == s;
  }

  /** A URL without leading controls, spaces, tabs or newlines is left as it is by sanitising. */
  lemma SanitizeUnchanged(s: string)
    requires s != [] && !IsC0OrSpace(s[0]) && NoUnsafe(s)
    ensures Sanitize(s) == s
  {
    assert LStripC0(s) == s;
  }

  /** Deleting tabs and newlines keeps a string free of any character it was free of. */
  lemma {:induction false} RemoveUnsafeKeeps(s: string, c: char)
    requires c !in s
    ensures c !in RemoveUnsafe(s)
  {
    if s != [] {
      assert c !in s[1..];
      RemoveUnsafeKeeps(s[1..], c);
    }
  }

  /** A URL that does not open with an ASCII letter has no scheme. */
  lemma NoSchemeWithoutLetter(u: string)
    requires u == [] || !IsAsciiAlpha(u[0])
    ensures SplitScheme(u) == ("", u)
  {
  }

  /**
   * Without a leading letter or without any ':' there is no scheme, and
   * without a leading "//" no network location: all of it is path.
   */
  lemma PathOnly(u: string)
    requires u == [] || !IsAsciiAlpha(u[0]) || ':' !in u
    requires !OpensWithSlashes(u)
    ensures ParseSanitized(u) == UrlParts("", "", PathOf("", u))
  {
    assert SplitScheme(u) == ("", u);
    assert SplitAuthority(u) == ("", u);
  }

  /** A fragment or a query at the front leaves the path empty. */
  lemma EmptyPath(scheme: string, rest: string)
    requires rest == [] || rest[0] == '#' || rest[0] == '?'
    ensures PathOf(scheme, rest) == ""
  {
    var b := Before(rest, '#');
    assert b == [] || b[0] == '?';
    assert Before(b, '?') == [];
  }

  /** Any other first character than '#', '?' or ';' starts the path, which is then not empty. */
  lemma NonEmptyPath(scheme: string, rest: string)
    requires rest != [] && rest[0] !in "#?;"
    ensures PathOf(scheme, rest) != ""
  {
    var b := Before(rest, '#');
    assert b != [] && b[0] == rest[0];
    var path := Before(b, '?');
    assert path != [] && path[0] == rest[0];
    if scheme in UsesParams && ';' in path {
      var r := ParamsPath(path);
      assert r != [];
    }
  }

  /** An href that opens with a fragment or a query parses to an empty scheme, network location and path. */
  lemma MarkFirstParsesEmpty(href: string)
    requires href != [] && (href[0] == '#' || href[0] == '?')
    ensures UrlParse(href) == UrlParts("", "", "")
  {
    SanitizeKeepsFirst(href);
    MarkFirstSanitizedParsesEmpty(Sanitize(href));
  }

  lemma MarkFirstSanitizedParsesEmpty(u: string)
    requires u != [] && (u[0] == '#' || u[0] == '?')
    ensures ParseSanitized(u) == UrlParts("", "", "")
  {
    PathOnly(u);
    EmptyPath("", u);
  }

  /** The empty href parses to nothing. */
  lemma EmptyParsesEmpty(href: string)
    requires href == []
    ensures UrlParse(href) == UrlParts("", "", "")
  {
    var u := Sanitize(href);
    assert u == [];
    PathOnly(u);
    EmptyPath("", u);
  }

  /** Leading whitespace and control characters are dropped before a '#', which then opens an empty parse. */
  lemma PaddedFragmentParsesEmpty(lead: string, fragment: string)
    requires forall i | 0 <= i < |lead| :: IsC0OrSpace(lead[i])
    ensures UrlParse(lead + "#" + fragment) == UrlParts("", "", "")
  {
    var href := lead + "#" + fragment;
    var tail := href[|lead|..];
    assert LStripC0(href) == tail by {
      assert |LStripC0(href)| == |tail| by {
        assert href[|lead|] == '#';
      }
    }
    assert LStripC0(tail) == tail;
    MarkFirstParsesEmpty(tail);
  }

  /** A scheme name is free of ':', tabs and newlines. */
  lemma SchemeNamePlain(scheme: string)
    requires IsSchemeName(scheme)
    ensures ':' !in scheme && NoUnsafe(scheme + ":")
  {
    var head := scheme + ":";
    forall i | 0 <= i < |head| ensures !IsUnsafe(head[i]) && (i < |scheme| ==> scheme[i] != ':') {
      if i < |scheme| { assert IsSchemeChar(scheme[i]); }
    }
  }

  lemma SchemeSanitized(scheme: string, rest: string)
    requires IsSchemeName(scheme)
    ensures Sanitize(scheme + ":" + rest) == scheme + ":" + RemoveUnsafe(rest)
  {
    SchemeNamePlain(scheme);
    SanitizeKeepsFirst(scheme + ":" + rest);
    RemoveUnsafeAppend(scheme + ":", rest);
  }

  lemma SchemeSplit(scheme: string, rest: string)
    requires IsSchemeName(scheme)
    ensures SplitScheme(scheme + ":" + rest).0 == Lower(scheme)
  {
    var u := scheme + ":" + rest;
    SchemeNamePlain(scheme);
    assert u[..|scheme|] == scheme;
    assert u[|scheme|] == ':';
    assert Find(u, ':') == |scheme|;
  }

  /** Where the href opens with a scheme name and a ':', that name, lower-cased, is the parsed scheme. */
  lemma SchemeParsed(scheme: string, rest: string)
    requires IsSchemeName(scheme)
    ensures UrlParse(scheme + ":" + rest).scheme == Lower(scheme)
  {
    SchemeSanitized(scheme, rest);
    SchemeSplit(scheme, RemoveUnsafe(rest));
  }

  lemma RootRelativeParse(href: string)
    requires |href| > 0 && href[0] == '/'
    requires |href| == 1 || href[1] != '/'
    requires NoUnsafe(href)
    ensures UrlParse(href) == UrlParts("", "", PathOf("", href))
  {
    SanitizeUnchanged(href);
    PathOnly(href);
  }
}
