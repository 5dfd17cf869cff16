/** The sentiment-analysis base (`sentiment_analysis.py`): fetching texts
    and pairing each with the model's verdict, and the search-page scrapers
    for three finance sites. */
module SentimentAnalysis {
  import opened Wrappers
  import opened Strings
  import opened Seqs

  // ---------------------------------------------------------------------
  // str.format with keyword arguments
  // ---------------------------------------------------------------------

  /** Position of the first `}` in `s`, provided no `{` comes before it. */
  function FieldEnd(s: string): (r: Option<nat>)
    ensures r.Some? ==> r.value < |s| && s[r.value] == '}'
    ensures r.Some? ==> forall j :: 0 <= j < r.value ==> s[j] != '}' && s[j] != '{'
    ensures r.None? ==> forall j :: 0 <= j < |s| && s[j] == '}' ==> exists k :: 0 <= k < j && s[k] == '{'
  {
    if s == [] || s[0] == '{' then None
    else if s[0] == '}' then Some(0)
    else
      match FieldEnd(s[1..])
      case None => 
        assert forall j :: 1 <= j < |s| ==> s[j] == s[1..][j - 1];
        None
      case Some(n) => Some(n + 1)
  }

  function Prepend(p: string, r: Option<string>): Option<string> {
    if r.Some? then Some(p + r.value) else None
  }

  /** `template.format(**args)` for plain replacement fields: `{name}` is
      replaced by `args[name]`, `{{` and `}}` stand for single braces; an
      unknown or empty name, a lone `}` or an unclosed `{` makes `format`
      raise (`None`). */
  function Format(template: string, args: map<string, string>): Option<string>
    decreases |template|
  {
    if template == [] then Some([])
    else if template[0] == '{' then
      if |template| >= 2 && template[1] == '{' then Prepend("{", Format(template[2..], args))
      else
        match FieldEnd(template[1..])
        case None => None
        case Some(n) =>
          var name := template[1..n + 1];
          if name in args then Prepend(args[name], Format(template[n + 2..], args)) else None
    else if template[0] == '}' then
      if |template| >= 2 && template[1] == '}' then Prepend("}", Format(template[2..], args))
      else None
    else Prepend([template[0]], Format(template[1..], args))
  }

  predicate NoBraces(s: string) {
    forall j :: 0 <= j < |s| ==> s[j] != '{' && s[j] != '}'
  }

  /** Text without braces is copied unchanged. */
  lemma {:induction false} FormatLiteral(s: string, rest: string, args: map<string, string>)
    requires NoBraces(s)
    ensures Format(s + rest, args) == Prepend(s, Format(rest, args))
    decreases |s|
  {
    if s != [] {
      assert (s + rest)[1..] == s[1..] + rest;
      assert (s + rest)[0] == s[0];
      assert NoBraces(s[1..]) by {
        assert forall j :: 0 <= j < |s[1..]| ==> s[1..][j] == s[j + 1];
      }
      FormatLiteral(s[1..], rest, args);
      assert s[0] != '{' && s[0] != '}';
      PrependAssoc([s[0]], s[1..], Format(rest, args));
      assert [s[0]] + s[1..] == s;
    } else {
      assert s + rest == rest;
      if Format(rest, args).Some? {
        assert s + Format(rest, args).value == Format(rest, args).value;
      }
    }
  }

  /** A replacement field is replaced by its argument. */
  lemma FormatField(name: string, rest: string, args: map<string, string>)
    requires name != [] && NoBraces(name) && name in args
    ensures Format("{" + name + "}" + rest, args) == Prepend(args[name], Format(rest, args))
  {
    var t := "{" + name + "}" + rest;
    assert t[1..] == name + "}" + rest;
    FieldEndAfter(name, rest);
    assert t[1..|name| + 1] == name;
    assert t[|name| + 2..] == rest;
  }

  lemma {:induction false} FieldEndAfter(name: string, rest: string)
    requires NoBraces(name)
    ensures FieldEnd(name + "}" + rest) == Some(|name|)
    decreases |name|
  {
    var s := name + "}" + rest;
    if name != [] {
      assert s[1..] == name[1..] + "}" + rest;
      assert NoBraces(name[1..]) by {
        assert forall j :: 0 <= j < |name[1..]| ==> name[1..][j] == name[j + 1];
      }
      FieldEndAfter(name[1..], rest);
      assert s[0] == name[0];
    } else {
      assert s[0] == '}';
    }
  }

  lemma PrependAssoc(a: string, b: string, r: Option<string>)
    ensures Prepend(a, Prepend(b, r)) == Prepend(a + b, r)
  {
    if r.Some? {
      assert a + (b + r.value) == (a + b) + r.value;
    }
  }

  // ---------------------------------------------------------------------
  // The model and fetch_and_analyze
  // ---------------------------------------------------------------------

  /** The model's verdict on a text: `analysis[0]`, the label name and its score. */
  datatype Verdict = Verdict(name: string, score: real)

  /** `fetch_and_analyze`: one (text, verdict) pair per fetched text, in
      order; `data` is what `fetch_data` returned. */
  method FetchAndAnalyze(data: seq<string>, model: string -> Verdict) returns (sentiments: seq<(string, Verdict)>)
    ensures |sentiments| == |data|
    ensures forall i :: 0 <= i < |data| ==> sentiments[i] == (data[i], model(data[i]))
  {
    sentiments := [];
    for i := 0 to |data|
      invariant |sentiments| == i
      invariant forall j :: 0 <= j < i ==> sentiments[j] == (data[j], model(data[j]))
    {
      var analysis := model(data[i]);
      sentiments := sentiments + [(data[i], analysis)];
    }
  }

  // ---------------------------------------------------------------------
  // WebScrapingSentiment and the site scrapers
  // ---------------------------------------------------------------------

  const FoolBase: string := "https://www.fool.com"
  const MsnBase: string := "https://www.msn.com"
  const YahooBase: string := "https://finance.yahoo.com"
  const MsnTemplate: string := "https://www.msn.com/en-us/search?q={query}+site:money.msn.com"

  /** The pattern the Motley Fool scraper formats its template from. */
  function FoolPattern(): string {
    "{base_url}/search/?q={query}"
  }

  function YahooPattern(): string {
    "{base_url}/quote/{query}/news?p={query}"
  }

  /** The arguments both patterns are formatted with: the site's base url,
      and `{query}` itself so that the query stays a field. */
  function TemplateArgs(base: string): map<string, string> {
    map["base_url" := base, "query" := "{query}"]
  }

  function BasePattern(): string {
    "{base_url}"
  }

  function QueryPattern(): string {
    "{query}"
  }

  /** `{base_url}` followed by brace-free text. */
  lemma BaseThen(base: string, lit: string, rest: string)
    requires NoBraces(lit)
    ensures Format(BasePattern() + lit + rest, TemplateArgs(base)) == Prepend(base + lit, Format(rest, TemplateArgs(base)))
  {
    var args := TemplateArgs(base);
    assert BasePattern() + lit + rest == "{" + "base_url" + "}" + (lit + rest);
    FormatField("base_url", lit + rest, args);
    FormatLiteral(lit, rest, args);
    PrependAssoc(base, lit, Format(rest, args));
  }

  /** `{query}`, with `query` bound to the text `{query}`, followed by
      brace-free text. */
  lemma QueryThen(base: string, lit: string, rest: string)
    requires NoBraces(lit)
    ensures Format(QueryPattern() + lit + rest, TemplateArgs(base)) == Prepend(QueryPattern() + lit, Format(rest, TemplateArgs(base)))
  {
    var args := TemplateArgs(base);
    assert QueryPattern() + lit + rest == "{" + "query" + "}" + (lit + rest);
    FormatField("query", lit + rest, args);
    FormatLiteral(lit, rest, args);
    PrependAssoc(QueryPattern(), lit, Format(rest, args));
  }

  lemma QueryLast(base: string)
    ensures Format(QueryPattern(), TemplateArgs(base)) == Some(QueryPattern())
  {
    assert QueryPattern() == "{" + "query" + "}" + "";
    FormatField("query", "", TemplateArgs(base));
    assert QueryPattern() + "" == QueryPattern();
  }

  /** The Motley Fool search template: `{base_url}` filled in and `{query}`
      kept. */
  const FoolTemplate: string := "https://www.fool.com" + "/search/?q=" + "{query}"
  /** The Yahoo Finance search template,
      `https://finance.yahoo.com/quote/{query}/news?p={query}`. */
  const YahooTemplate: string := "https://finance.yahoo.com" + "/quote/" + "{query}" + "/news?p=" + "{query}"

  lemma FoolFormatted()
    ensures Format(FoolPattern(), TemplateArgs(FoolBase)) == Some(FoolBase + "/search/?q=" + QueryPattern())
  {
    assert FoolPattern() == BasePattern() + "/search/?q=" + QueryPattern();
    BaseThen(FoolBase, "/search/?q=", QueryPattern());
    QueryLast(FoolBase);
  }

  /** `{query}`, brace-free text and `{query}` again, with `query` bound to
      the text `{query}`, format to themselves. */
  lemma QueryAroundLiteral(base: string, lit: string)
    requires NoBraces(lit)
    ensures Format(QueryPattern() + lit + QueryPattern(), TemplateArgs(base)) ==
            Some(QueryPattern() + lit + QueryPattern())
  {
    QueryThen(base, lit, QueryPattern());
    QueryLast(base);
  }

  lemma YahooTail(base: string)
    ensures Format(QueryPattern() + "/news?p=" + QueryPattern(), TemplateArgs(base)) ==
            Some(QueryPattern() + "/news?p=" + QueryPattern())
  {
    QueryAroundLiteral(base, "/news?p=");
  }

  lemma YahooFormatted()
    ensures Format(YahooPattern(), TemplateArgs(YahooBase)) ==
            Some(YahooBase + "/quote/" + (QueryPattern() + "/news?p=" + QueryPattern()))
  {
    var tail := QueryPattern() + "/news?p=" + QueryPattern();
    assert YahooPattern() == BasePattern() + "/quote/" + tail;
    BaseThen(YahooBase, "/quote/", tail);
    YahooTail(YahooBase);
  }

  /** Formatting the two patterns yields exactly the two templates. */
  lemma TemplatesFormatted()
    ensures Format(FoolPattern(), TemplateArgs(FoolBase)) == Some(FoolTemplate)
    ensures Format(YahooPattern(), TemplateArgs(YahooBase)) == Some(YahooTemplate)
  {
    FoolFormatted();
    YahooFormatted();
    FoolTemplateText();
    YahooTemplateText();
  }

  lemma FoolTemplateText()
    ensures FoolBase + "/search/?q=" + QueryPattern() == FoolTemplate
  {
  }

  lemma YahooTemplateText()
    ensures YahooBase + "/quote/" + (QueryPattern() + "/news?p=" + QueryPattern()) == YahooTemplate
  {
  }

  /** The Motley Fool search url for a query: the template with `{query}`
      replaced. */
  lemma FoolSearchUrl(query: string)
    ensures Format(FoolTemplate, map["query" := query]) == Some(FoolSearchPrefix() + query)
  {
    var args := map["query" := query];
    FoolTemplateSplit();
    FoolPrefixLiteral();
    FormatLiteral(FoolSearchPrefix(), QueryPattern(), args);
    QueryField(args);
  }

  function FoolSearchPrefix(): string {
    "https://www.fool.com/search/?q="
  }

  lemma FoolTemplateSplit()
    ensures FoolTemplate == FoolSearchPrefix() + QueryPattern()
  {
  }

  lemma FoolPrefixLiteral()
    ensures NoBraces(FoolSearchPrefix())
  {
  }

  lemma QueryField(args: map<string, string>)
    requires "query" in args
    ensures Format(QueryPattern(), args) == Some(args["query"])
  {
    assert QueryPattern() == "{" + "query" + "}" + "";
    FormatField("query", "", args);
    assert args["query"] + "" == args["query"];
  }

  // The three site filters of the subclasses.

  /** `lambda href: sub in href`, the filter of the Motley Fool and MSN
      scrapers, named so that the constructors can store it. */
  function HrefContains(sub: string): (f: string -> bool)
    ensures forall href :: f(href) <==> exists i :: OccursAt(href, sub, i)
  {
    href => Contains(href, sub)
  }

  /** `lambda href: href.startswith('/news/')`, the Yahoo filter. */
  function YahooFilter(): (f: string -> bool)
    ensures forall href :: f(href) <==> StartsWith(href, "/news/")
  {
    href => StartsWith(href, "/news/")
  }

  /** `get_full_article_url`: absolute links are kept, others are resolved
      against the site's base url. */
  function FullArticleUrl(baseUrl: string, href: string): (url: string)
    ensures StartsWith(href, "http") ==> url == href
    ensures !StartsWith(href, "http") ==> url == baseUrl + href && url[|baseUrl|..] == href
  {
    if StartsWith(href, "http") then href else baseUrl + href
  }

  /** With an absolute base url every resolved link is absolute, and
      resolving it again changes nothing. */
  lemma FullArticleUrlAbsolute(baseUrl: string, href: string)
    requires StartsWith(baseUrl, "http")
    ensures StartsWith(FullArticleUrl(baseUrl, href), "http")
    ensures FullArticleUrl(baseUrl, FullArticleUrl(baseUrl, href)) == FullArticleUrl(baseUrl, href)
  {
    if !StartsWith(href, "http") {
      assert (baseUrl + href)[..4] == baseUrl[..4];
    }
  }

  /** Every link the Yahoo filter accepts is relative, so it is fetched from
      the Yahoo news pages. */
  lemma YahooLinksOnSite(href: string)
    requires YahooFilter()(href)
    ensures FullArticleUrl(YahooBase, href) == YahooBase + href
    ensures StartsWith(FullArticleUrl(YahooBase, href), YahooBase + "/news/")
  {
    assert href[..4] == "/new";
    assert (YahooBase + href)[..|YahooBase + "/news/"|] == YahooBase + href[..6];
  }

  /** Fetching the page an article link points to, as a function of the
      link, for the fetch loop to take as a parameter. */
  function Fetcher(get: string -> Option<string>, baseUrl: string): (fetch: string -> Option<string>)
    ensures forall href :: fetch(href) == get(FullArticleUrl(baseUrl, href))
  {
    href => get(FullArticleUrl(baseUrl, href))
  }

  datatype ScrapeError = NotConfigured | BadTemplate | RequestFailed

  /** How many articles the loop collects at most: it breaks once the count
      is reached, which it checks only after an append. */
  function Cap(count: int): (n: nat)
    ensures count >= 1 ==> n == count
    ensures count < 1 ==> n == 1
  {
    if count >= 1 then count else 1
  }

  /** The texts of the pages at `hrefs`, fetched in order; `None` as soon as
      a fetch raises. */
  function FetchTexts(fetch: string -> Option<string>, paragraphsOf: string -> seq<string>, hrefs: seq<string>): Option<seq<string>>
    decreases |hrefs|
  {
    if hrefs == [] then Some([])
    else
      match FetchTexts(fetch, paragraphsOf, hrefs[..|hrefs| - 1])
      case None => None
      case Some(texts) =>
        match fetch(hrefs[|hrefs| - 1])
        case None => None
        case Some(page) => Some(texts + [Join(paragraphsOf(page), " ")])
  }

  /** The fetch loop fails exactly when one of the pages cannot be fetched;
      otherwise there is one text per link, in order. */
  lemma {:induction false} FetchTextsSpec(fetch: string -> Option<string>, paragraphsOf: string -> seq<string>, hrefs: seq<string>)
    ensures FetchTexts(fetch, paragraphsOf, hrefs).None? <==> exists k :: 0 <= k < |hrefs| && fetch(hrefs[k]).None?
    ensures FetchTexts(fetch, paragraphsOf, hrefs).Some? ==>
      var texts := FetchTexts(fetch, paragraphsOf, hrefs).value;
      |texts| == |hrefs| &&
      forall k :: 0 <= k < |hrefs| ==> fetch(hrefs[k]).Some? && texts[k] == Join(paragraphsOf(fetch(hrefs[k]).value), " ")
    decreases |hrefs|
  {
    if hrefs != [] {
      var init := hrefs[..|hrefs| - 1];
      FetchTextsSpec(fetch, paragraphsOf, init);
      assert forall k :: 0 <= k < |init| ==> hrefs[k] == init[k];
      if FetchTexts(fetch, paragraphsOf, init).None? {
        var k :| 0 <= k < |init| && fetch(init[k]).None?;
        assert fetch(hrefs[k]).None?;
      }
    }
  }

  lemma {:induction false} FetchTextsFails(fetch: string -> Option<string>, paragraphsOf: string -> seq<string>, a: seq<string>, b: seq<string>)
    requires FetchTexts(fetch, paragraphsOf, a).None?
    ensures FetchTexts(fetch, paragraphsOf, a + b).None?
    decreases |b|
  {
    if b == [] {
      assert a + b == a;
    } else {
      var init := b[..|b| - 1];
      FetchTextsFails(fetch, paragraphsOf, a, init);
      assert (a + b)[..|a + b| - 1] == a + init;
    }
  }

  /** The loop of `fetch_data` over the links of the results page: each
      accepted link is fetched and its paragraphs joined, until `cap`
      texts are collected; a fetch that raises ends it with an error. */
  method ScrapeLinks(hrefs: seq<string>, accept: string -> bool, cap: nat, fetch: string -> Option<string>,
                     paragraphsOf: string -> seq<string>)
    returns (r: Result<seq<string>, ScrapeError>)
    requires cap >= 1
    ensures var texts := FetchTexts(fetch, paragraphsOf, Take(Filter(hrefs, accept), cap));
            r == if texts.None? then Failure(RequestFailed) else Success(texts.value)
    ensures r.Success? ==> |r.value| <= cap
  {
    var articles: seq<string> := [];
    for i := 0 to |hrefs|
      invariant FetchTexts(fetch, paragraphsOf, Filter(hrefs[..i], accept)) == Some(articles)
      invariant |articles| == |Filter(hrefs[..i], accept)| < cap
    {
      var href := hrefs[i];
      assert hrefs[..i + 1] == hrefs[..i] + [href];
      FilterSnoc(hrefs[..i], href, accept);
      if accept(href) {
        var content := fetch(href);
        if content.None? {
          ScrapeFails(hrefs, i, accept, cap, fetch, paragraphsOf);
          return Failure(RequestFailed);
        }
        var articleText := Join(paragraphsOf(content.value), " ");
        FetchTextsSnoc(fetch, paragraphsOf, Filter(hrefs[..i], accept), href);
        articles := articles + [articleText];
        if |articles| >= cap {
          TakeFilterDone(hrefs, i, accept, cap);
          return Success(articles);
        }
      }
    }
    assert hrefs[..|hrefs|] == hrefs;
    r := Success(articles);
  }

  /** An accepted link whose page cannot be fetched, met before the cap is
      reached, makes the whole fetch fail. */
  lemma ScrapeFails(hrefs: seq<string>, i: int, accept: string -> bool, cap: nat, fetch: string -> Option<string>,
                    paragraphsOf: string -> seq<string>)
    requires 0 <= i < |hrefs| && accept(hrefs[i]) && fetch(hrefs[i]).None?
    requires |Filter(hrefs[..i], accept)| < cap
    ensures FetchTexts(fetch, paragraphsOf, Take(Filter(hrefs, accept), cap)).None?
  {
    var href := hrefs[i];
    assert hrefs[..i + 1] == hrefs[..i] + [href];
    FilterSnoc(hrefs[..i], href, accept);
    var done := Filter(hrefs[..i + 1], accept);
    TakeFilterSplit(hrefs, i, accept, cap);
    FetchTextsSnoc(fetch, paragraphsOf, Filter(hrefs[..i], accept), href);
    FetchTextsFails(fetch, paragraphsOf, done, Take(Filter(hrefs[i + 1..], accept), cap - |done|));
  }

  lemma FetchTextsSnoc(fetch: string -> Option<string>, paragraphsOf: string -> seq<string>, hrefs: seq<string>, href: string)
    ensures FetchTexts(fetch, paragraphsOf, hrefs + [href]) ==
      match FetchTexts(fetch, paragraphsOf, hrefs)
      case None => None
      case Some(texts) =>
        match fetch(href)
        case None => None
        case Some(page) => Some(texts + [Join(paragraphsOf(page), " ")])
  {
    assert (hrefs + [href])[..|hrefs|] == hrefs;
  }

  /** The scraper base class, configured by one of its named constructors
      (the subclasses). */
  class WebScrapingSentiment {
    const baseUrl: Option<string>
    const searchUrlTemplate: Option<string>
    const articleLinkFilter: Option<string -> bool>

    /** The base class itself: nothing set. */
    constructor Unconfigured()
      ensures baseUrl.None? && searchUrlTemplate.None? && articleLinkFilter.None?
    {
      baseUrl := None;
      searchUrlTemplate := None;
      articleLinkFilter := None;
    }

    /** `MotleyFoolSentiment`. */
    constructor MotleyFool()
      ensures baseUrl == Some(FoolBase) && searchUrlTemplate == Some(FoolTemplate)
      ensures articleLinkFilter == Some(HrefContains("/investing/"))
    {
      TemplatesFormatted();
      baseUrl := Some(FoolBase);
      searchUrlTemplate := Format(FoolPattern(), TemplateArgs(FoolBase));
      articleLinkFilter := Some(HrefContains("/investing/"));
    }

    /** `MsnMoneySentiment`. */
    constructor MsnMoney()
      ensures baseUrl == Some(MsnBase) && searchUrlTemplate == Some(MsnTemplate)
      ensures articleLinkFilter == Some(HrefContains("money.msn.com"))
    {
      baseUrl := Some(MsnBase);
      searchUrlTemplate := Some(MsnTemplate);
      articleLinkFilter := Some(HrefContains("money.msn.com"));
    }

    /** `YahooFinanceSentiment`. */
    constructor YahooFinance()
      ensures baseUrl == Some(YahooBase) && searchUrlTemplate == Some(YahooTemplate)
      ensures articleLinkFilter == Some(YahooFilter())
    {
      TemplatesFormatted();
      baseUrl := Some(YahooBase);
      searchUrlTemplate := Format(YahooPattern(), TemplateArgs(YahooBase));
      articleLinkFilter := Some(YahooFilter());
    }

    /** `all([base_url, search_url_template, article_link_filter])`: each
      set, and neither string empty. */
    predicate Configured() {
      && baseUrl.Some? && baseUrl.value != ""
      && searchUrlTemplate.Some? && searchUrlTemplate.value != ""
      && articleLinkFilter.Some?
    }

    /** The links whose pages `fetch_data` reads: the accepted links of the
        results page, up to the cap. */
    function Chosen(hrefs: seq<string>, count: int): seq<string>
      requires Configured()
    {
      Take(Filter(hrefs, articleLinkFilter.value), Cap(count))
    }

    /** `fetch_data(query, count)`. `get` is `requests.get(...).content`
        (`None` when it raises), `linksOf` the `href` of each `<a href>` of
        a page and `paragraphsOf` the texts of its `<p>` elements. */
    method FetchData(query: string, count: int, get: string -> Option<string>,
                     linksOf: string -> seq<string>, paragraphsOf: string -> seq<string>)
      returns (r: Result<seq<string>, ScrapeError>)
      ensures !Configured() ==> r == Failure(NotConfigured)
      ensures Configured() && Format(searchUrlTemplate.value, map["query" := query]).None? ==> r == Failure(BadTemplate)
      ensures Configured() && Format(searchUrlTemplate.value, map["query" := query]).Some? ==>
        var page := get(Format(searchUrlTemplate.value, map["query" := query]).value);
        && (page.None? ==> r == Failure(RequestFailed))
        && (page.Some? ==>
             var texts := FetchTexts(Fetcher(get, baseUrl.value), paragraphsOf, Chosen(linksOf(page.value), count));
             r == if texts.None? then Failure(RequestFailed) else Success(texts.value))
      ensures r.Success? ==> |r.value| <= Cap(count)
    {
      if !Configured() {
        return Failure(NotConfigured);
      }
      var searchUrl := Format(searchUrlTemplate.value, map["query" := query]);
      if searchUrl.None? {
        return Failure(BadTemplate);
      }
      var response := get(searchUrl.value);
      if response.None? {
        return Failure(RequestFailed);
      }
      var fetch := Fetcher(get, baseUrl.value);
      r := ScrapeLinks(linksOf(response.value), articleLinkFilter.value, Cap(count), fetch, paragraphsOf);
    }
  }
}
