// Link classification: every anchor's href is counted as internal, external
// or inaccessible by an ordered chain of tests on the href and its parsed
// scheme, network location and path.

module Links {
  import opened PyStr
  import opened Urls
  import opened JsonValues

  datatype LinkKind = Internal | External | Inaccessible

  /** The `link_info` counters. */
  datatype LinkInfo = LinkInfo(internal: nat, external: nat, inaccessible: nat)
  {
    function Total(): (n: nat)
    {
      internal + external + inaccessible
    }
  }

  /**
   * The if/elif chain applied to an href and its parse: a '#' prefix first,
   * then the all-empty parse, then a scheme other than '' and 'javascript',
   * else internal.
   */
  function Decide(href: string, p: UrlParts): (k: LinkKind)
  {
    if StartsWith(href, '#') then Internal
    else if p.scheme == "" && p.netloc == "" && p.path == "" then Inaccessible
    else if p.scheme !in ["javascript", ""] then External
    else Internal
  }

  /** The kind of link an href counts as. */
  function Classify(href: string): (k: LinkKind)
  {
    Decide(href, UrlParse(href))
  }

  /**
   * An anchor the loop gets through: `link.get('href')` found an href (on a
   * missing one, `None.startswith` raises) and `urlparse` accepted it.
   */
  predicate Linkable(href: Option<string>)
  {
    href.Some? && Accepted(href.value)
  }

  predicate AllLinkable(anchors: seq<Option<string>>)
  {
    forall i | 0 <= i < |anchors| :: Linkable(anchors[i])
  }

  /** One `link_info[kind] += 1`. */
  function Bump(info: LinkInfo, k: LinkKind): (r: LinkInfo)
  {
    match k
    case Internal => info.(internal := info.internal + 1)
    case External => info.(external := info.external + 1)
    case Inaccessible => info.(inaccessible := info.inaccessible + 1)
  }

  /** The kind of every anchor, in document order. */
  function Kinds(anchors: seq<Option<string>>): (ks: seq<LinkKind>)
    requires AllLinkable(anchors)
    ensures |ks| == |anchors|
    ensures forall i | 0 <= i < |anchors| :: ks[i] == Classify(anchors[i].value)
  {
    seq(|anchors|, i requires 0 <= i < |anchors| => Classify(anchors[i].value))
  }

  /** The counters after the loop has bumped them once per kind in `ks`, starting from zero. */
  function Tally(ks: seq<LinkKind>): (info: LinkInfo)
  {
    if ks == [] then LinkInfo(0, 0, 0)
    else Bump(Tally(ks[..|ks| - 1]), ks[|ks| - 1])
  }

  /** The number of occurrences of `k` in `ks`. */
  function Count(ks: seq<LinkKind>, k: LinkKind): (n: nat)
  {
    if ks == [] then 0
    else (if ks[0] == k then 1 else 0) + Count(ks[1..], k)
  }

  lemma {:induction false} CountSnoc(ks: seq<LinkKind>, x: LinkKind, k: LinkKind)
    ensures Count(ks + [x], k) == Count(ks, k) + (if x == k then 1 else 0)
  {
    var s := ks + [x];
    if ks == [] {
      assert s == [x];
      assert s[1..] == [];
    } else {
      assert s[0] == ks[0] && s[1..] == ks[1..] + [x];
      CountSnoc(ks[1..], x, k);
    }
  }

  /** Each counter holds exactly the number of anchors classified as its kind. */
  lemma {:induction false} TallyCounts(ks: seq<LinkKind>)
    ensures Tally(ks) == LinkInfo(Count(ks, Internal), Count(ks, External), Count(ks, Inaccessible))
  {
    if ks != [] {
      var init := ks[..|ks| - 1];
      var last := ks[|ks| - 1];
      TallyCounts(init);
      assert ks == init + [last];
      CountSnoc(init, last, Internal);
      CountSnoc(init, last, External);
      CountSnoc(init, last, Inaccessible);
    }
  }

  /** Every anchor increments exactly one counter: the counters add up to the number of anchors. */
  lemma {:induction false} TallyTotal(ks: seq<LinkKind>)
    ensures Tally(ks).Total() == |ks|
  {
    if ks != [] {
      TallyTotal(ks[..|ks| - 1]);
    }
  }

  /** One pass of the loop body: `urlparse(href)` and the if/elif chain. */
  method ClassifyLink(href: string) returns (k: LinkKind)
    ensures k == Classify(href)
  {
    var p := UrlParse(href);
    if StartsWith(href, '#') {
      k := Internal;
    } else if p.scheme == "" && p.netloc == "" && p.path == "" {
      k := Inaccessible;
    } else if p.scheme !in ["javascript", ""] {
      k := External;
    } else {
      k := Internal;
    }
  }

  /** The `for link in links` loop of the analyser. */
  method CountLinks(anchors: seq<Option<string>>) returns (info: LinkInfo)
    requires AllLinkable(anchors)
    ensures info == Tally(Kinds(anchors))
    ensures info.Total() == |anchors|
  {
    ghost var ks := Kinds(anchors);
    info := LinkInfo(0, 0, 0);
    for i := 0 to |anchors|
      invariant info == Tally(ks[..i])
    {
      assert ks[..i + 1][..i] == ks[..i];
      var k := ClassifyLink(anchors[i].value);
      info := Bump(info, k);
    }
    assert ks[..|anchors|] == ks;
    TallyTotal(ks);
  }

  // Classification of the usual shapes of href.

  /** An href starting with '#' is internal, whatever follows. */
  lemma FragmentIsInternal(href: string)
    requires StartsWith(href, '#')
    ensures Classify(href) == Internal
  {
  }

  /** The empty href is inaccessible. */
  lemma EmptyIsInaccessible()
    ensures Classify("") == Inaccessible
  {
    EmptyParsesEmpty("");
  }

  /** A query-only href such as "?x=1" parses to nothing and is inaccessible. */
  lemma QueryOnlyIsInaccessible(query: string)
    ensures Classify("?" + query) == Inaccessible
  {
    MarkFirstParsesEmpty("?" + query);
  }

  /**
   * Whitespace or a control character before the '#' hides the fragment from
   * the prefix test while `urlparse` strips it: such an href is inaccessible.
   */
  lemma PaddedFragmentIsInaccessible(lead: string, fragment: string)
    requires lead != [] && forall i | 0 <= i < |lead| :: IsC0OrSpace(lead[i])
    ensures Classify(lead + "#" + fragment) == Inaccessible
  {
    var href := lead + "#" + fragment;
    PaddedFragmentParsesEmpty(lead, fragment);
    assert !StartsWith(href, '#') by {
      assert IsC0OrSpace(href[0]);
    }
  }

  /** Past the '#' test, a parsed scheme decides alone: `javascript` is internal, any other external. */
  lemma DecideByScheme(href: string, p: UrlParts)
    requires !StartsWith(href, '#') && p.scheme != ""
    ensures Decide(href, p) == if p.scheme == "javascript" then Internal else External
  {
    if p.scheme == "javascript" {
      assert p.scheme in ["javascript", ""];
    } else {
      assert p.scheme !in ["javascript", ""];
    }
  }

  /**
   * An href that opens with a scheme name and a ':' is external, unless the
   * scheme is `javascript` (in any case), which makes it internal.
   */
  lemma SchemeLinkIsExternal(scheme: string, rest: string)
    requires IsSchemeName(scheme)
    ensures Classify(scheme + ":" + rest) ==
      if Lower(scheme) == "javascript" then Internal else External
  {
    var href := scheme + ":" + rest;
    assert href[0] == scheme[0];
    SchemeParsed(scheme, rest);
    DecideByScheme(href, UrlParse(href));
  }

  /** A relative path that opens with a name (no ':', and no '/', '#', '?' or ';' in front) is internal. */
  lemma RelativePathIsInternal(href: string)
    requires href != [] && !IsC0OrSpace(href[0])
    requires href[0] !in "#?;/"
    requires ':' !in href
    ensures Classify(href) == Internal
  {
    SanitizeKeepsFirst(href);
    RemoveUnsafeKeeps(href, ':');
    var u := Sanitize(href);
    PathOnly(u);
    NonEmptyPath("", u);
  }

  /** A path from the root ("/local/path", but not "//host") is internal. */
  lemma RootRelativeIsInternal(href: string)
    requires |href| > 0 && href[0] == '/'
    requires |href| == 1 || href[1] != '/'
    requires NoUnsafe(href)
    ensures Classify(href) == Internal
  {
    RootRelativeParse(href);
    NonEmptyPath("", href);
  }

  /**
   * A protocol-relative href ("//host/x") has a network location and no
   * scheme, so it counts as internal even when the host is another site.
   */
  lemma ProtocolRelativeIsInternal(host: string, tail: string)
    requires host != [] && NoUnsafe(host)
    requires forall i | 0 <= i < |host| :: !IsNetlocDelimiter(host[i])
    ensures Classify("//" + host + tail) == Internal
  {
    var head := "//" + host;
    var href := head + tail;
    SanitizeKeepsFirst(href);
    RemoveUnsafeAppend(head, tail);
    var u := Sanitize(href);
    assert u == head + RemoveUnsafe(tail);
    NoSchemeWithoutLetter(u);
    assert OpensWithSlashes(u);
    var d := Delimiter(u, 2);
    assert d > 2 by {
      assert u[2] == host[0];
    }
    assert SplitAuthority(u).0 == u[2..d] != "";
  }

  // Three common hrefs: an absolute URL, a root-relative path and a javascript: link.

  lemma AbsoluteExample()
    ensures Classify("https://other.example/x") == External
  {
    assert "https://other.example/x" == "https" + ":" + "//other.example/x";
    SchemeLinkIsExternal("https", "//other.example/x");
  }

  lemma RootRelativeExample()
    ensures Classify("/local/path") == Internal
  {
    RootRelativeIsInternal("/local/path");
  }

  lemma ScriptExample()
    ensures Classify("javascript:void(0)") == Internal
  {
    var scheme := "javascript";
    assert IsSchemeName(scheme);
    assert Lower(scheme) == scheme;
    assert "javascript:void(0)" == scheme + ":" + "void(0)";
    SchemeLinkIsExternal(scheme, "void(0)");
  }
}
