/** The Bing news scraper (`web_sentiment.py`): search results on one
    domain, a link filter asking the sentiment model whether the headline
    is relevant (with a keyword fallback when the model fails), and a fetch
    loop that skips pages it cannot read. */
module WebSentiment {
  import opened Wrappers
  import opened Strings
  import opened Seqs
  import opened Feeds
  import opened SentimentAnalysis

  // ---------------------------------------------------------------------
  // The link filter
  // ---------------------------------------------------------------------

  /** The question put to the model about one headline. */
  function Prompt(query: string, linkText: string): (p: string)
    ensures StartsWith(p, "Is this headline relevant to ")
    ensures |linkText| <= |p| && p[|p| - |linkText|..] == linkText
  {
    "Is this headline relevant to " + query + " stock: " + linkText
  }

  /** The fallback terms: three fixed words and the query, lower-cased. */
  function RelevantTerms(query: string): seq<string> {
    ["stock", "market", "invest", Lower(query)]
  }

  /** `any(term in link_text.lower() for term in relevant_terms)`. */
  function KeywordMatch(query: string, linkText: string): (b: bool)
    ensures b <==> exists k :: 0 <= k < |RelevantTerms(query)| && Contains(Lower(linkText), RelevantTerms(query)[k])
  {
    var text := Lower(linkText);
    var terms := RelevantTerms(query);
    assert terms[0] == "stock" && terms[1] == "market" && terms[2] == "invest" && terms[3] == Lower(query);
    Contains(text, "stock") || Contains(text, "market") || Contains(text, "invest") || Contains(text, Lower(query))
  }

  /** A headline containing the query, in any letter case, passes the
      fallback. */
  lemma QueryInHeadline(query: string, before: string, after: string)
    ensures KeywordMatch(query, before + query + after)
  {
    var text := before + query + after;
    assert Lower(text)[|before|..|before| + |query|] == Lower(query);
    assert OccursAt(Lower(text), Lower(query), |before|);
  }

  /** The empty string occurs in every string, so an empty query makes the
      fallback accept every headline. */
  lemma EmptyQueryAcceptsAll(linkText: string)
    ensures KeywordMatch("", linkText)
  {
    assert OccursAt(Lower(linkText), Lower(""), 0);
  }

  /** The fallback ignores the letter case of the headline. */
  lemma KeywordMatchIgnoresCase(query: string, linkText: string)
    ensures KeywordMatch(query, Lower(linkText)) == KeywordMatch(query, linkText)
  {
    assert Lower(Lower(linkText)) == Lower(linkText);
  }

  /** `article_link_filter`. `llm` gives the label of the model's verdict
      on a prompt, or `None` when the call raises. */
  function LinkFilter(llm: string -> Option<string>, query: string, linkText: string): (b: bool)
    ensures llm(Prompt(query, linkText)).Some? ==> (b <==> llm(Prompt(query, linkText)).value == "POSITIVE")
    ensures llm(Prompt(query, linkText)).None? ==> b == KeywordMatch(query, linkText)
  {
    match llm(Prompt(query, linkText))
    case Some(verdict) => verdict == "POSITIVE"
    case None => KeywordMatch(query, linkText)
  }

  /** A headline that names the query passes the filter when the model
      raises; when the model answers, its verdict decides even for such a
      headline. */
  lemma HeadlineNamingQuery(llm: string -> Option<string>, query: string, before: string, after: string)
    ensures var text := before + query + after;
      && (llm(Prompt(query, text)).None? ==> LinkFilter(llm, query, text))
      && (llm(Prompt(query, text)).Some? ==> (LinkFilter(llm, query, text) <==> llm(Prompt(query, text)).value == "POSITIVE"))
  {
    QueryInHeadline(query, before, after);
  }

  // ---------------------------------------------------------------------
  // The search url
  // ---------------------------------------------------------------------

  /** `https://www.bing.com/search?q={query}:site={domain}&freshness=Day`,
      written in its literal and field parts. */
  const BingTemplate: string := "https://www.bing.com/search?q=" + "{query}" + ":site=" + "{domain}" + "&freshness=Day"

  function BingHead(): string { "https://www.bing.com/search?q=" }
  function BingMiddle(): string { ":site=" }
  function BingTail(): string { "&freshness=Day" }
  function DomainPattern(): string { "{domain}" }

  lemma BingTemplateSplit()
    ensures BingTemplate == BingHead() + (QueryPattern() + (BingMiddle() + (DomainPattern() + BingTail())))
  {
  }

  lemma BingLiterals()
    ensures NoBraces(BingHead()) && NoBraces(BingMiddle()) && NoBraces(BingTail())
  {
  }

  lemma FieldThen(name: string, rest: string, args: map<string, string>)
    requires name in args && name != [] && NoBraces(name)
    ensures Format("{" + name + "}" + rest, args) == Prepend(args[name], Format(rest, args))
  {
    FormatField(name, rest, args);
  }

  lemma BingDomainTail(domain: string, args: map<string, string>)
    requires "domain" in args && args["domain"] == domain
    ensures Format(DomainPattern() + BingTail(), args) == Some(domain + BingTail())
  {
    BingLiterals();
    assert DomainPattern() + BingTail() == "{" + "domain" + "}" + BingTail();
    FieldThen("domain", BingTail(), args);
    FormatLiteral(BingTail(), "", args);
    assert BingTail() + "" == BingTail();
  }

  lemma BingQueryTail(query: string, domain: string, args: map<string, string>)
    requires args == map["query" := query, "domain" := domain]
    ensures Format(QueryPattern() + (BingMiddle() + (DomainPattern() + BingTail())), args) ==
            Some(query + (BingMiddle() + (domain + BingTail())))
  {
    BingLiterals();
    BingDomainTail(domain, args);
    FormatLiteral(BingMiddle(), DomainPattern() + BingTail(), args);
    assert QueryPattern() == "{" + "query" + "}";
    FieldThen("query", BingMiddle() + (DomainPattern() + BingTail()), args);
  }

  function BingUrl(query: string, domain: string): string {
    "https://www.bing.com/search?q=" + query + ":site=" + domain + "&freshness=Day"
  }

  lemma BingUrlParts(query: string, domain: string)
    ensures BingHead() + (query + (BingMiddle() + (domain + BingTail()))) == BingUrl(query, domain)
  {
  }

  /** The search url: the query and the domain put into the Bing template. */
  lemma BingSearchUrl(query: string, domain: string)
    ensures Format(BingTemplate, map["query" := query, "domain" := domain]) == Some(BingUrl(query, domain))
  {
    var args := map["query" := query, "domain" := domain];
    var rest := QueryPattern() + (BingMiddle() + (DomainPattern() + BingTail()));
    BingTemplateSplit();
    BingLiterals();
    BingQueryTail(query, domain, args);
    FormatLiteral(BingHead(), rest, args);
    BingUrlParts(query, domain);
  }

  // ---------------------------------------------------------------------
  // The fetch loop
  // ---------------------------------------------------------------------

  /** A result link worth fetching: absolute, on the domain, and accepted
      by the link filter. */
  predicate IsCandidate(domain: string, llm: string -> Option<string>, query: string, a: Anchor) {
    StartsWith(a.href, "http") && Contains(a.href, domain) && LinkFilter(llm, query, a.text)
  }

  /** The body of the loop over the result links for one link: it is
      fetched when it is a candidate (`fetched`), and its text is
      `found` when the page could be read and has some text. */
  method VisitAnchor(a: Anchor, domain: string, llm: string -> Option<string>, query: string,
                     get: string -> Option<string>, paragraphsOf: string -> seq<string>)
    returns (found: Option<string>, ghost fetched: bool)
    ensures fetched == IsCandidate(domain, llm, query, a)
    ensures found.Some? <==> Accepts(domain, llm, query, get, paragraphsOf)(a)
    ensures found.Some? ==> found.value == TextOf(get, paragraphsOf)(a)
  {
    found, fetched := None, false;
    var href := a.href;
    var linkText := a.text;
    if StartsWith(href, "http") && Contains(href, domain) && LinkFilter(llm, query, linkText) {
      fetched := true;
      var articleResponse := get(href);
      if articleResponse.Some? {
        var articleText := Join(paragraphsOf(articleResponse.value), " ");
        if articleText != "" {
          found := Some(articleText);
        }
      }
    }
  }

  /** The joined paragraphs of the page at `url`, or `None` when fetching it
      raises. */
  function PageText(get: string -> Option<string>, paragraphsOf: string -> seq<string>, url: string): Option<string> {
    match get(url)
    case None => None
    case Some(page) => Some(Join(paragraphsOf(page), " "))
  }

  /** `IsCandidate` as a function value, for `Filter` to take. */
  function CandidateTest(domain: string, llm: string -> Option<string>, query: string): (candidate: Anchor -> bool)
    ensures forall a: Anchor :: candidate(a) <==> IsCandidate(domain, llm, query, a)
  {
    (a: Anchor) => IsCandidate(domain, llm, query, a)
  }

  /** `link.get('href')` as a function value, for `Map` to take. */
  function HrefOf(): (href: Anchor -> string)
    ensures forall a: Anchor :: href(a) == a.href
  {
    (a: Anchor) => a.href
  }

  /** The hrefs of the candidate links, in page order. */
  function CandidateLinks(domain: string, llm: string -> Option<string>, query: string, anchors: seq<Anchor>): seq<string> {
    Map(Filter(anchors, CandidateTest(domain, llm, query)), HrefOf())
  }

  /** The search url that `fetch_data` requests. */
  function SearchUrl(template: string, query: string, domain: string): (url: string)
    requires template == BingTemplate
    ensures url == BingUrl(query, domain)
  {
    BingSearchUrl(query, domain);
    Format(template, map["query" := query, "domain" := domain]).value
  }

  /** A link whose text ends up in the result: a candidate whose page could
      be read and has some text. A function value, for `Filter` to take. */
  function Accepts(domain: string, llm: string -> Option<string>, query: string,
                   get: string -> Option<string>, paragraphsOf: string -> seq<string>): (accept: Anchor -> bool)
    ensures forall a: Anchor :: accept(a) ==> IsCandidate(domain, llm, query, a)
    ensures forall a: Anchor :: accept(a) <==>
      IsCandidate(domain, llm, query, a) && PageText(get, paragraphsOf, a.href).Some? && PageText(get, paragraphsOf, a.href).value != ""
  {
    (a: Anchor) => IsCandidate(domain, llm, query, a) && PageText(get, paragraphsOf, a.href).Some? && PageText(get, paragraphsOf, a.href).value != ""
  }

  /** The page text of a link as a function value, for `Map` to take. */
  function TextOf(get: string -> Option<string>, paragraphsOf: string -> seq<string>): (text: Anchor -> string)
    ensures forall a: Anchor :: PageText(get, paragraphsOf, a.href).Some? ==> text(a) == PageText(get, paragraphsOf, a.href).value
  {
    (a: Anchor) => var t := PageText(get, paragraphsOf, a.href); if t.Some? then t.value else ""
  }

  /** The texts of all accepted links, in page order. */
  function Collected(domain: string, llm: string -> Option<string>, query: string, get: string -> Option<string>,
                     paragraphsOf: string -> seq<string>, anchors: seq<Anchor>): seq<string> {
    Map(Filter(anchors, Accepts(domain, llm, query, get, paragraphsOf)), TextOf(get, paragraphsOf))
  }

  /** Every collected text is a non-empty page text of a candidate link. */
  lemma CollectedSound(domain: string, llm: string -> Option<string>, query: string, get: string -> Option<string>,
                       paragraphsOf: string -> seq<string>, anchors: seq<Anchor>, k: int)
    requires 0 <= k < |Collected(domain, llm, query, get, paragraphsOf, anchors)|
    ensures Collected(domain, llm, query, get, paragraphsOf, anchors)[k] != ""
    ensures exists i :: 0 <= i < |anchors| && IsCandidate(domain, llm, query, anchors[i]) &&
                        PageText(get, paragraphsOf, anchors[i].href) == Some(Collected(domain, llm, query, get, paragraphsOf, anchors)[k])
  {
    var accept := Accepts(domain, llm, query, get, paragraphsOf);
    var kept := Filter(anchors, accept);
    FilterMember(anchors, accept, kept[k]);
    var i :| 0 <= i < |anchors| && anchors[i] == kept[k];
  }

  /** A candidate whose page cannot be fetched, or has no text, adds
      nothing: the loop skips it. */
  lemma SkippedLink(domain: string, llm: string -> Option<string>, query: string, get: string -> Option<string>,
                    paragraphsOf: string -> seq<string>, anchors: seq<Anchor>, a: Anchor)
    requires PageText(get, paragraphsOf, a.href).None? || PageText(get, paragraphsOf, a.href) == Some("")
    ensures Collected(domain, llm, query, get, paragraphsOf, anchors + [a]) == Collected(domain, llm, query, get, paragraphsOf, anchors)
  {
    FilterSnoc(anchors, a, Accepts(domain, llm, query, get, paragraphsOf));
  }

  /** The scraper of `web_sentiment.py`, searching one domain. `llm` is the
      sentiment model as the link filter calls it. */
  class WebScrapingSentiment {
    const domain: string
    const searchUrlTemplate: string
    const llm: string -> Option<string>

    constructor(domain: string, llm: string -> Option<string>)
      ensures this.domain == domain && this.llm == llm && searchUrlTemplate == BingTemplate
    {
      this.domain := domain;
      this.llm := llm;
      searchUrlTemplate := BingTemplate;
    }

    /** `fetch_data(query, count)`: `None` when the search request raises;
        otherwise the texts of the first accepted links, at most
        `Cap(count)` of them. `requested` records the urls fetched after
        the search page. */
    method FetchData(query: string, count: int, get: string -> Option<string>,
                     anchorsOf: string -> seq<Anchor>, paragraphsOf: string -> seq<string>)
      returns (r: Option<seq<string>>, ghost requested: seq<string>)
      requires searchUrlTemplate == BingTemplate
      ensures var url := BingUrl(query, domain);
        && (get(url).None? ==> r.None? && requested == [])
        && (get(url).Some? ==>
             var anchors := anchorsOf(get(url).value);
             && r == Some(Take(Collected(domain, llm, query, get, paragraphsOf, anchors), Cap(count)))
             && requested <= CandidateLinks(domain, llm, query, anchors))
      ensures r.Some? ==> |r.value| <= Cap(count)
    {
      var searchUrl := SearchUrl(searchUrlTemplate, query, domain);
      requested := [];
      var response := get(searchUrl);
      if response.None? {
        return None, requested;
      }
      var texts: seq<string>;
      texts, requested := ScrapeAnchors(anchorsOf(response.value), query, Cap(count), get, paragraphsOf);
      r := Some(texts);
    }

    /** The loop over the result links. `requested` lists the links
        fetched, which are the candidate links up to where the loop
        stopped. */
    method ScrapeAnchors(anchors: seq<Anchor>, query: string, cap: nat, get: string -> Option<string>,
                         paragraphsOf: string -> seq<string>)
      returns (articles: seq<string>, ghost requested: seq<string>)
      requires cap >= 1
      ensures articles == Take(Collected(domain, llm, query, get, paragraphsOf, anchors), cap)
      ensures |articles| <= cap
      ensures requested <= CandidateLinks(domain, llm, query, anchors)
      ensures |articles| < cap ==> requested == CandidateLinks(domain, llm, query, anchors)
    {
      var accept := Accepts(domain, llm, query, get, paragraphsOf);
      var text := TextOf(get, paragraphsOf);
      var candidate := CandidateTest(domain, llm, query);
      articles := [];
      requested := [];
      for i := 0 to |anchors|
        invariant articles == Map(Filter(anchors[..i], accept), text)
        invariant |articles| < cap
        invariant requested == Map(Filter(anchors[..i], candidate), HrefOf())
      {
        var found, fetched := VisitAnchor(anchors[i], domain, llm, query, get, paragraphsOf);
        MapFilterSnoc(anchors, i, accept, text);
        MapFilterSnoc(anchors, i, candidate, HrefOf());
        if fetched {
          requested := requested + [anchors[i].href];
        }
        if found.Some? {
          articles := articles + [found.value];
          if |articles| >= cap {
            MapFilterDone(anchors, i, accept, text, cap);
            MapFilterPrefixAt(anchors, i + 1, candidate, HrefOf());
            return articles, requested;
          }
        }
      }
      SliceAll(anchors);
    }
  }

  /** The kept elements of one more link, mapped. */
  lemma MapFilterSnoc<T, U>(s: seq<T>, i: int, p: T -> bool, f: T -> U)
    requires 0 <= i < |s|
    ensures Map(Filter(s[..i + 1], p), f) ==
            if p(s[i]) then Map(Filter(s[..i], p), f) + [f(s[i])] else Map(Filter(s[..i], p), f)
  {
    assert s[..i + 1] == s[..i] + [s[i]];
    FilterSnoc(s[..i], s[i], p);
    MapAppend(Filter(s[..i], p), [s[i]], f);
  }

  /** Once `n` elements are kept from the first `i + 1`, the first `n` kept
      elements, mapped, are those. */
  lemma MapFilterDone<T, U>(s: seq<T>, i: int, p: T -> bool, f: T -> U, n: nat)
    requires 0 <= i < |s| && |Filter(s[..i + 1], p)| == n
    ensures Take(Map(Filter(s, p), f), n) == Map(Filter(s[..i + 1], p), f)
  {
    TakeFilterDone(s, i, p, n);
    MapTake(Filter(s, p), f, n);
  }
}
