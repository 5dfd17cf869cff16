/** The web-search source (`retrieval/web_article_retrieval.py`): the links
    of a site-restricted search page that point into the domain become
    articles when a relevant chunk is found at them. */
module WebRetrieval {
  import opened Wrappers
  import opened Strings
  import opened Seqs
  import opened Articles
  import opened Retrieval
  import opened Feeds

  /** The search request for the company on the domain. */
  function SearchUrl(domain: string, info: EntityInfo): (url: string)
    ensures StartsWith(url, "https://www.google.com/search?q=site:")
    ensures Contains(url, domain)
    ensures var terms := "+" + info.symbol + "+" + info.shortName;
      Contains(url, terms) && |terms| <= |url| && url[|url| - |terms|..] == terms
  {
    var prefix := "https://www.google.com/search?q=site:";
    var terms := "+" + info.symbol + "+" + info.shortName;
    var url := prefix + domain + terms;
    assert url == prefix + domain + "+" + info.symbol + "+" + info.shortName;
    assert OccursAt(url, domain, |prefix|);
    assert url[|url| - |terms|..] == terms;
    assert OccursAt(url, terms, |url| - |terms|);
    assert url[..|prefix|] == prefix;
    url
  }

  /** A link is followed when it is absolute and points into the domain. */
  predicate IsCandidate(domain: string, a: Anchor) {
    StartsWith(a.href, "http") && Contains(a.href, domain)
  }

  /** The article a followed link yields. */
  function AnchorArticle(find: string -> seq<string>, a: Anchor): Article {
    Article(a.text, BeforeQuery(a.href), find(a.href))
  }

  predicate AnchorYields(find: string -> seq<string>, domain: string, a: Anchor) {
    IsCandidate(domain, a) && find(a.href) != []
  }

  /** What the `fetch_data` loop returns for the links of the search page. */
  function AnchorArticles(find: string -> seq<string>, domain: string, anchors: seq<Anchor>): seq<Article> {
    Map(Filter(anchors, a => AnchorYields(find, domain, a)), a => AnchorArticle(find, a))
  }

  lemma AnchorArticlesSnoc(find: string -> seq<string>, domain: string, anchors: seq<Anchor>, a: Anchor)
    ensures AnchorArticles(find, domain, anchors + [a]) ==
            AnchorArticles(find, domain, anchors) +
            (if AnchorYields(find, domain, a) then [AnchorArticle(find, a)] else [])
  {
    var keep := b => AnchorYields(find, domain, b);
    FilterAppend(anchors, [a], keep);
    assert Filter([a], keep) == if keep(a) then [a] else [];
    MapAppend(Filter(anchors, keep), Filter([a], keep), b => AnchorArticle(find, b));
  }

  /** The page requests the loop over `anchors` makes, in order: the href of
      each followed link, with the clock reading `clock(2 * i + 3)` taken
      once the page of the `i`-th link has loaded. */
  function AnchorRequests(domain: string, anchors: seq<Anchor>, clock: nat -> real): seq<(string, real)>
    decreases |anchors|
  {
    if anchors == [] then []
    else
      var i := |anchors| - 1;
      AnchorRequests(domain, anchors[..i], clock) +
      (if IsCandidate(domain, anchors[i]) then [(anchors[i].href, clock(2 * i + 3))] else [])
  }

  lemma AnchorRequestsStep(domain: string, anchors: seq<Anchor>, clock: nat -> real, i: int)
    requires 0 <= i < |anchors|
    ensures AnchorRequests(domain, anchors[..i + 1], clock) ==
            AnchorRequests(domain, anchors[..i], clock) +
            (if IsCandidate(domain, anchors[i]) then [(anchors[i].href, clock(2 * i + 3))] else [])
  {
    assert anchors[..i + 1][..i] == anchors[..i];
  }

  /** Each article comes from a followed link of the page, is titled with the
      link text, keeps the `http` scheme without the query string, and has
      relevant chunks; there are no more articles than links. */
  lemma AnchorArticlesSound(find: string -> seq<string>, domain: string, anchors: seq<Anchor>, k: int)
    requires 0 <= k < |AnchorArticles(find, domain, anchors)|
    ensures |AnchorArticles(find, domain, anchors)| <= |anchors|
    ensures var art := AnchorArticles(find, domain, anchors)[k];
      art.chunks != [] && '?' !in art.url && StartsWith(art.url, "http") &&
      exists i :: 0 <= i < |anchors| && IsCandidate(domain, anchors[i]) &&
        art == AnchorArticle(find, anchors[i]) && art.title == anchors[i].text
  {
    var keep := a => AnchorYields(find, domain, a);
    var kept := Filter(anchors, keep);
    FilterMember(anchors, keep, kept[k]);
    var i :| 0 <= i < |anchors| && anchors[i] == kept[k];
    assert AnchorArticles(find, domain, anchors)[k] == AnchorArticle(find, anchors[i]);
    BeforeQueryKeepsPrefix(anchors[i].href, "http");
  }

  class WebArticleRetrieval {
    const base: ArticleRetrieval
    const domain: string
    /** The `<a>` elements of a page (`soup.find_all('a')`). */
    const anchorsOf: string -> seq<Anchor>

    constructor (base: ArticleRetrieval, domain: string, anchorsOf: string -> seq<Anchor>)
      ensures this.base == base && this.domain == domain && this.anchorsOf == anchorsOf
    {
      this.base := base;
      this.domain := domain;
      this.anchorsOf := anchorsOf;
    }

    /** The body of the `fetch_data` loop for one link. */
    method ProcessLink(link: Anchor, info: EntityInfo, now: real, doneAt: real) returns (found: seq<Article>)
      requires base.Valid()
      modifies base
      ensures base.Valid()
      ensures found == if AnchorYields(base.Finder(info), domain, link) then [AnchorArticle(base.Finder(info), link)] else []
      ensures base.State() == if IsCandidate(domain, link) then base.AfterRequest(old(base.State()), link.href, doneAt)
                              else old(base.State())
    {
      var href := link.href;
      var linkText := link.text;
      found := [];
      if StartsWith(href, "http") && Contains(href, domain) {
        var baseUrl := BeforeQuery(href);
        var chunks := base.GetLinkRelevantChunks(href, info, now, doneAt);
        if chunks != [] {
          found := [Article(linkText, baseUrl, chunks)];
        }
      }
    }

    /** `fetch_data(data)`: `None` when the search page cannot be loaded
        (the source then raises); `clock(0)`, `clock(1)` are the readings
        around the search request and `clock(2 * i + 2)`, `clock(2 * i + 3)`
        those around the request for the `i`-th link. */
    method FetchData(info: EntityInfo, clock: nat -> real) returns (articles: Option<seq<Article>>)
      requires base.Valid()
      modifies base
      ensures base.Valid()
      ensures var page := base.Browse(SearchUrl(domain, info));
        articles == if page.None? then None
                    else Some(AnchorArticles(base.Finder(info), domain, anchorsOf(page.value)))
      ensures var page := base.Browse(SearchUrl(domain, info));
        var searched := base.AfterRequest(old(base.State()), SearchUrl(domain, info), clock(1));
        base.State() == if page.None? then searched
                        else base.AfterRequests(searched, AnchorRequests(domain, anchorsOf(page.value), clock))
    {
      var response, _ := base.RateLimitedRequest(SearchUrl(domain, info), clock(0), clock(1));
      if response.None? {
        return None;
      }
      var links := anchorsOf(response.value);
      var found: seq<Article> := [];
      ghost var start := base.State();
      for i := 0 to |links|
        invariant base.Valid()
        invariant found == AnchorArticles(base.Finder(info), domain, links[..i])
        invariant base.State() == base.AfterRequests(start, AnchorRequests(domain, links[..i], clock))
      {
        var link := links[i];
        SliceSnoc(links, i);
        AnchorArticlesSnoc(base.Finder(info), domain, links[..i], link);
        ghost var prior := AnchorRequests(domain, links[..i], clock);
        AnchorRequestsStep(domain, links, clock, i);
        base.AfterRequestsSnoc(start, prior, (link.href, clock(2 * i + 3)));
        assert !IsCandidate(domain, link) ==> prior + [] == prior;
        var more := ProcessLink(link, info, clock(2 * i + 2), clock(2 * i + 3));
        found := found + more;
      }
      SliceAll(links);
      articles := Some(found);
    }
  }
}
