// The page analyser: the outcome of fetching a URL becomes either the
// failure dictionary or the success dictionary with the version, the title,
// the heading counts, the link counters and the login-form flag.

module PageAnalysis {
  import opened JsonValues
  import opened Doctype
  import opened Headings
  import opened Links

  /**
   * What the analyser reads from the parsed document: the text of every
   * `<title>` element (None for an empty one), the tag name of every element,
   * the `href` of every anchor (None when it has none) and the number of
   * password inputs inside a form.
   */
  datatype Document = Document(
    titles: seq<Option<string>>,
    tags: seq<string>,
    anchors: seq<Option<string>>,
    passwordInputsInForms: nat)

  /** The fetch either raised, with the exception's message, or produced a body and its parse. */
  datatype FetchOutcome =
    | Unreachable(cause: string)
    | Fetched(text: string, doc: Document)

  /**
   * A document the analyser gets through: it has a `<title>` (indexing the
   * empty list raises otherwise) and every anchor is linkable.
   */
  predicate Analysable(doc: Document)
  {
    |doc.titles| > 0 && AllLinkable(doc.anchors)
  }

  predicate Completes(outcome: FetchOutcome)
  {
    outcome.Fetched? ==> Analysable(outcome.doc)
  }

  const FailurePrefix := "Failed to reach URL. "

  const SuccessKeys: set<string> := {"status", "version", "title", "heading_counts", "link_info", "login_form"}

  /** The failure dictionary. */
  function Failure(cause: string): (r: Json)
  {
    JObject(map["status" := JString("failure"), "error" := JString(FailurePrefix + cause)])
  }

  /** `heading_counts` as JSON. */
  function CountsJson(counts: map<string, nat>): (r: Json)
  {
    JObject(map k | k in counts :: JInt(counts[k]))
  }

  /** `link_info` as JSON. */
  function LinkInfoJson(info: LinkInfo): (r: Json)
  {
    JObject(map["internal" := JInt(info.internal), "external" := JInt(info.external),
                "inaccessible" := JInt(info.inaccessible)])
  }

  /** The success dictionary, from its six values. */
  function Success(version: string, title: Option<string>, counts: map<string, nat>, info: LinkInfo, login: bool): (r: Json)
  {
    JObject(map[
      "status" := JString("success"),
      "version" := JString(version),
      "title" := StringOrNull(title),
      "heading_counts" := CountsJson(counts),
      "link_info" := LinkInfoJson(info),
      "login_form" := JBool(login)
    ])
  }

  /** The result of `get_page_info` for a fetch outcome. */
  function PageInfo(outcome: FetchOutcome): (r: Json)
    requires Completes(outcome)
  {
    match outcome
    case Unreachable(cause) => Failure(cause)
    case Fetched(text, doc) =>
      Success(DetectVersion(text), doc.titles[0], HeadingCounts(doc.tags), Tally(Kinds(doc.anchors)),
              doc.passwordInputsInForms > 0)
  }

  /** `get_page_info` once the fetch is done: no parsing or counting when it failed. */
  method GetPageInfo(outcome: FetchOutcome) returns (r: Json)
    requires Completes(outcome)
    ensures r == PageInfo(outcome)
  {
    match outcome
    case Unreachable(cause) =>
      r := Failure(cause);
    case Fetched(text, doc) =>
      var version := DetectVersion(text);
      var title := doc.titles[0];
      var counts := CountHeadings(doc.tags);
      var info := CountLinks(doc.anchors);
      var login := doc.passwordInputsInForms > 0;
      r := Success(version, title, counts, info, login);
  }

  /** The failure dictionary has exactly the keys `status` ("failure") and `error` (the prefix, then the cause). */
  lemma FailureShape(cause: string)
    ensures Failure(cause).fields.Keys == {"status", "error"}
    ensures Failure(cause).fields["status"] == JString("failure")
    ensures Failure(cause).fields["error"] == JString(FailurePrefix + cause)
  {
  }

  /** The success dictionary has exactly the six success keys, with `status` "success". */
  lemma SuccessShape(version: string, title: Option<string>, counts: map<string, nat>, info: LinkInfo, login: bool)
    ensures Success(version, title, counts, info, login).fields.Keys == SuccessKeys
    ensures Success(version, title, counts, info, login).fields["status"] == JString("success")
  {
    var f := Success(version, title, counts, info, login).fields;
    assert forall k | k in f :: k in SuccessKeys;
    assert forall k | k in SuccessKeys :: k in f;
  }

  /**
   * A failed fetch gives exactly the two keys `status` ("failure") and
   * `error` (the prefix and the cause); any other gives exactly the six
   * success keys, with `status` "success".
   */
  lemma ResultShape(outcome: FetchOutcome)
    requires Completes(outcome)
    ensures PageInfo(outcome).JObject? && "status" in PageInfo(outcome).fields
    ensures PageInfo(outcome).fields["status"] == JString("success") <==> outcome.Fetched?
    ensures outcome.Unreachable? ==>
      PageInfo(outcome).fields.Keys == {"status", "error"} &&
      PageInfo(outcome).fields["error"] == JString(FailurePrefix + outcome.cause)
    ensures outcome.Fetched? ==> PageInfo(outcome).fields.Keys == SuccessKeys
  {
    match outcome
    case Unreachable(cause) =>
      FailureShape(cause);
    case Fetched(text, doc) =>
      SuccessShape(DetectVersion(text), doc.titles[0], HeadingCounts(doc.tags), Tally(Kinds(doc.anchors)),
                   doc.passwordInputsInForms > 0);
  }

  /** The fields of the success dictionary for an analysable document. */
  function SuccessFields(text: string, doc: Document): (f: map<string, Json>)
    requires Analysable(doc)
    ensures f.Keys == SuccessKeys
  {
    ResultShape(Fetched(text, doc));
    PageInfo(Fetched(text, doc)).fields
  }

  /**
   * The reported version is one of the eight labels or "unknown", and it is
   * "unknown" whenever the body has no '>'.
   */
  lemma VersionIsLabel(text: string, doc: Document)
    requires Analysable(doc)
    ensures SuccessFields(text, doc)["version"].JString?
    ensures SuccessFields(text, doc)["version"].s in Labels
    ensures '>' !in text ==> SuccessFields(text, doc)["version"] == JString(Unknown)
  {
    VersionField(text, doc);
    if '>' !in text {
      NoCloseBracketIsUnknown(text);
    }
  }

  /** `version` holds the detected version. */
  lemma VersionField(text: string, doc: Document)
    requires Analysable(doc)
    ensures SuccessFields(text, doc)["version"] == JString(DetectVersion(text))
  {
  }

  /** `heading_counts` has exactly the keys "h1" to "h6", each the number of elements of that level. */
  lemma HeadingCountsReported(text: string, doc: Document)
    requires Analysable(doc)
    ensures SuccessFields(text, doc)["heading_counts"].JObject?
    ensures SuccessFields(text, doc)["heading_counts"].fields.Keys == HeadingKeys
    ensures forall level | 1 <= level <= 6 ::
      SuccessFields(text, doc)["heading_counts"].fields[HeadingKey(level)] ==
      JInt(multiset(doc.tags)[HeadingKey(level)])
  {
    HeadingCountsMeaning(doc.tags);
  }

  /** `link_info` has exactly the three counters, as integers adding up to the total. */
  lemma LinkInfoJsonShape(info: LinkInfo)
    ensures var li := LinkInfoJson(info).fields;
      li.Keys == {"internal", "external", "inaccessible"} &&
      li["internal"].JInt? && li["external"].JInt? && li["inaccessible"].JInt? &&
      li["internal"].n + li["external"].n + li["inaccessible"].n == info.Total()
  {
  }

  /** The JSON `link_info` of any sequence of kinds: the counts per kind, adding up to the length. */
  lemma TallyReported(ks: seq<LinkKind>)
    ensures LinkInfoJson(Tally(ks)) ==
      LinkInfoJson(LinkInfo(Count(ks, Internal), Count(ks, External), Count(ks, Inaccessible)))
    ensures var li := LinkInfoJson(Tally(ks)).fields;
      li.Keys == {"internal", "external", "inaccessible"} &&
      li["internal"].JInt? && li["external"].JInt? && li["inaccessible"].JInt? &&
      li["internal"].n + li["external"].n + li["inaccessible"].n == |ks|
  {
    TallyCounts(ks);
    TallyTotal(ks);
    LinkInfoJsonShape(Tally(ks));
  }

  /**
   * Each `link_info` counter is the number of anchors of its kind, and the
   * three counters add up to the number of anchors.
   */
  lemma LinkInfoReported(text: string, doc: Document)
    requires Analysable(doc)
    ensures var ks := Kinds(doc.anchors);
      SuccessFields(text, doc)["link_info"] ==
      LinkInfoJson(LinkInfo(Count(ks, Internal), Count(ks, External), Count(ks, Inaccessible)))
    ensures var li := SuccessFields(text, doc)["link_info"].fields;
      li.Keys == {"internal", "external", "inaccessible"} &&
      li["internal"].JInt? && li["external"].JInt? && li["inaccessible"].JInt? &&
      li["internal"].n + li["external"].n + li["inaccessible"].n == |doc.anchors|
  {
    TallyReported(Kinds(doc.anchors));
  }
}
