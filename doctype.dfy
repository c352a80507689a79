// HTML version detection: the doctype table of app.py and the lookup of the
// lower-cased, stripped text up to the first '>'.

module Doctype {
  import opened PyStr

  /**
   * The known doctype declarations, lower-cased, with their labels: the HTML5
   * doctype, the three of section 7.2 of the W3C HTML 4.01 Recommendation,
   * the three of section 3.1.1 of XHTML 1.0, and XHTML 1.1.
   */
  const Html5Doctype := "<!doctype html>"
  const Html401StrictDoctype := PublicDoctype("html 4.01", "html4/strict.dtd")
  const Html401TransitionalDoctype := PublicDoctype("html 4.01 transitional", "html4/loose.dtd")
  const Html401FramesetDoctype := PublicDoctype("html 4.01 frameset", "html4/frameset.dtd")
  const Xhtml10StrictDoctype := PublicDoctype("xhtml 1.0 strict", "xhtml1/dtd/xhtml1-strict.dtd")
  const Xhtml10TransitionalDoctype := PublicDoctype("xhtml 1.0 transitional", "xhtml1/dtd/xhtml1-transitional.dtd")
  const Xhtml10FramesetDoctype := PublicDoctype("xhtml 1.0 frameset", "xhtml1/dtd/xhtml1-frameset.dtd")
  const Xhtml11Doctype := PublicDoctype("xhtml 1.1", "xhtml11/dtd/xhtml11.dtd")

  const Versions: map<string, string> := map[
    Html5Doctype := "HTML 5",
    Html401StrictDoctype := "HTML 4.01 Strict",
    Html401TransitionalDoctype := "HTML 4.01 Transitional",
    Html401FramesetDoctype := "HTML 4.01 Frameset",
    Xhtml10StrictDoctype := "XHTML 1.0 Strict",
    Xhtml10TransitionalDoctype := "XHTML 1.0 Transitional",
    Xhtml10FramesetDoctype := "XHTML 1.0 Frameset",
    Xhtml11Doctype := "XHTML 1.1"
  ]

  const Unknown := "unknown"

  /** The nine labels detection can produce. */
  const Labels: set<string> := {
    "HTML 5", "HTML 4.01 Strict", "HTML 4.01 Transitional", "HTML 4.01 Frameset",
    "XHTML 1.0 Strict", "XHTML 1.0 Transitional", "XHTML 1.0 Frameset", "XHTML 1.1", Unknown
  }

  /** `text[:text.find('>') + 1].lower().strip()`. */
  function VersionString(text: string): (r: string)
  {
    Strip(Lower(text[..Find(text, '>') + 1]))
  }

  /** `html_versions.get(v, 'unknown')`: exact lookup in the table. */
  function VersionOf(v: string): (r: string)
    ensures r in Labels
    ensures r != Unknown <==> v in Versions
    ensures v in Versions ==> r == Versions[v]
  {
    if v in Versions then Versions[v] else Unknown
  }

  /** The version the analyser reports for a response body. */
  function DetectVersion(text: string): (r: string)
  {
    VersionOf(VersionString(text))
  }

  /** A body without any '>' yields the empty version string and so "unknown". */
  lemma NoCloseBracketIsUnknown(text: string)
    requires '>' !in text
    ensures VersionString(text) == ""
    ensures DetectVersion(text) == Unknown
  {
    EmptyVersionString(text);
    EmptyIsNoVersion();
  }

  lemma EmptyVersionString(text: string)
    requires '>' !in text
    ensures VersionString(text) == ""
  {
    var prefix := text[..Find(text, '>') + 1];
    assert prefix == [];
    assert Lower(prefix) == [];
    assert LStrip([]) == [];
    assert RStrip([]) == [];
  }

  /** The empty string is not a key of the table. */
  lemma EmptyIsNoVersion()
    ensures "" !in Versions
  {
    if "" in Versions {
      VersionKeyShape("");
    }
  }

  /**
   * A lower-cased W3C public doctype: `<!doctype html public "-//w3c//dtd
   * <name>//en" "http://www.w3.org/tr/<dtd>">`.
   */
  function PublicDoctype(name: string, dtd: string): (d: string)
  {
    "<!doctype html public \"-//w3c//dtd " + name + "//en\" \"http://www.w3.org/tr/" + dtd + "\">"
  }

  /** A single tag: it opens with '<' and its only '>' is its last character. */
  predicate SingleTag(k: string)
  {
    |k| > 1 && k[0] == '<' && k[|k| - 1] == '>' && '>' !in k[..|k| - 1]
  }

  lemma PublicDoctypeShape(name: string, dtd: string)
    requires '>' !in name && '>' !in dtd
    ensures SingleTag(PublicDoctype(name, dtd))
  {
    var k := PublicDoctype(name, dtd);
    assert k[..|k| - 1] == "<!doctype html public \"-//w3c//dtd " + name + "//en\" \"http://www.w3.org/tr/" + dtd + "\"";
  }

  /** The table's keys are the eight declarations. */
  lemma VersionKeys(k: string)
    requires k in Versions
    ensures k == Html5Doctype || k == Html401StrictDoctype || k == Html401TransitionalDoctype ||
            k == Html401FramesetDoctype || k == Xhtml10StrictDoctype || k == Xhtml10TransitionalDoctype ||
            k == Xhtml10FramesetDoctype || k == Xhtml11Doctype
  {
  }

  /** Each of the eight declarations is a single tag. */
  lemma DoctypesAreSingleTags()
    ensures SingleTag(Html5Doctype)
    ensures SingleTag(Html401StrictDoctype) && SingleTag(Html401TransitionalDoctype) && SingleTag(Html401FramesetDoctype)
    ensures SingleTag(Xhtml10StrictDoctype) && SingleTag(Xhtml10TransitionalDoctype) && SingleTag(Xhtml10FramesetDoctype)
    ensures SingleTag(Xhtml11Doctype)
  {
    assert Html5Doctype[..|Html5Doctype| - 1] == "<!doctype html";
    PublicDoctypeShape("html 4.01", "html4/strict.dtd");
    PublicDoctypeShape("html 4.01 transitional", "html4/loose.dtd");
    PublicDoctypeShape("html 4.01 frameset", "html4/frameset.dtd");
    PublicDoctypeShape("xhtml 1.0 strict", "xhtml1/dtd/xhtml1-strict.dtd");
    PublicDoctypeShape("xhtml 1.0 transitional", "xhtml1/dtd/xhtml1-transitional.dtd");
    PublicDoctypeShape("xhtml 1.0 frameset", "xhtml1/dtd/xhtml1-frameset.dtd");
    PublicDoctypeShape("xhtml 1.1", "xhtml11/dtd/xhtml11.dtd");
  }

  /** Every key of the table is a single tag. */
  lemma VersionKeyShape(k: string)
    requires k in Versions
    ensures SingleTag(k)
  {
    VersionKeys(k);
    DoctypesAreSingleTags();
  }

  /** Lower-casing moves no '>' and creates or removes no whitespace. */
  lemma LowerKeepsShape(d: string)
    ensures forall i | 0 <= i < |d| :: (Lower(d)[i] == '>' <==> d[i] == '>')
    ensures forall i | 0 <= i < |d| :: (IsSpace(Lower(d)[i]) <==> IsSpace(d[i]))
  {
  }

  /**
   * A body that starts with any whitespace followed by a known declaration,
   * in any mix of upper and lower case, is detected as that declaration's
   * version, whatever follows it.
   */
  lemma DeclarationDetected(lead: string, decl: string, rest: string)
    requires forall i | 0 <= i < |lead| :: IsSpace(lead[i])
    requires Lower(decl) in Versions
    ensures DetectVersion(lead + decl + rest) == Versions[Lower(decl)]
  {
    var k := Lower(decl);
    var text := lead + decl + rest;
    VersionKeyShape(k);
    LowerKeepsShape(decl);
    var n := |lead| + |decl|;
    assert text[n - 1] == '>';
    assert '>' !in text[..n - 1] by {
      forall i | 0 <= i < n - 1 ensures text[i] != '>' {
        if i >= |lead| {
          assert text[i] == decl[i - |lead|];
        }
      }
    }
    assert Find(text, '>') == n - 1;
    assert text[..n] == lead + decl;
    LowerAppend(lead, decl);
    assert Lower(lead) == lead;
    StripSurrounded(lead, k, "");
    assert lead + k + "" == lead + k;
  }

  /** A detected body has a '>', where the version string ends. */
  lemma DetectedHasBracket(text: string)
    requires VersionString(text) in Versions
    ensures Find(text, '>') >= 0
  {
    if '>' !in text {
      EmptyVersionString(text);
      EmptyIsNoVersion();
    }
  }

  /** Stripping a text that ends with '>' only removes a whitespace prefix. */
  lemma StripBeforeBracket(low: string)
    requires low != [] && low[|low| - 1] == '>'
    ensures |Strip(low)| <= |low| && Strip(low) == low[|low| - |Strip(low)|..]
    ensures forall i | 0 <= i < |low| - |Strip(low)| :: IsSpace(low[i])
  {
    var ls := LStrip(low);
    LStripShape(low);
    RStripShape(ls);
    if ls != [] {
      assert ls[|ls| - 1] == low[|low| - 1];
    }
  }

  /**
   * Conversely, a body whose version is detected opens with whitespace and
   * then a known declaration in some mix of cases: the declaration is the
   * body's first tag, and the version is its label.
   */
  lemma DetectedDeclaration(text: string) returns (lead: string, decl: string, rest: string)
    requires DetectVersion(text) != Unknown
    ensures text == lead + decl + rest
    ensures forall i | 0 <= i < |lead| :: IsSpace(lead[i])
    ensures Lower(decl) in Versions
    ensures DetectVersion(text) == Versions[Lower(decl)]
  {
    var v := VersionString(text);
    DetectedHasBracket(text);
    var n := Find(text, '>') + 1;
    var prefix := text[..n];
    var low := Lower(prefix);
    assert v == Strip(low);
    StripBeforeBracket(low);
    var k := |low| - |v|;
    lead, decl, rest := text[..k], text[k..n], text[n..];
    assert text == lead + decl + rest;
    LowerKeepsShape(prefix);
    forall i | 0 <= i < |lead| ensures IsSpace(lead[i]) {
      assert lead[i] == prefix[i];
    }
    assert Lower(decl) == v by {
      forall j | 0 <= j < |v| ensures Lower(decl)[j] == v[j] {
        assert decl[j] == prefix[k + j];
        assert v[j] == low[k + j];
      }
    }
  }

  /** The HTML5 doctype, in any case and after any whitespace, is "HTML 5". */
  lemma Html5Detected(lead: string, decl: string, rest: string)
    requires forall i | 0 <= i < |lead| :: IsSpace(lead[i])
    requires Lower(decl) == "<!doctype html>"
    ensures DetectVersion(lead + decl + rest) == "HTML 5"
  {
    DeclarationDetected(lead, decl, rest);
  }
}
