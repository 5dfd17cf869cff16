/** The records the retrieval sources take as input in place of the
    parsers that produce them, and the article list a feed-reading source
    builds from its entries. */
module Feeds {
  import opened Wrappers
  import opened Strings
  import opened Seqs
  import opened Dates
  import opened Articles

  /** A feedparser entry, read with `entry.get(key, '')`: a missing title,
      link or description is the empty string; `published` is the
      `published_parsed` time tuple, if any. */
  datatype FeedEntry = FeedEntry(title: string, link: string, description: string, published: Option<seq<int>>)

  /** An `<a>` element of a search-result page: `link.get('href', '')` and
      `link.get_text()`. */
  datatype Anchor = Anchor(href: string, text: string)

  /** The date test both RSS readers apply to an entry
      (`is_published_today(entry.get('published_parsed'))`). */
  function PublishedTest(today: Date): FeedEntry -> bool {
    (e: FeedEntry) => PublishedToday(e.published, today)
  }

  /** The article built for an entry: its title, its link without the query
      string, and the chunks `find` locates at the full link
      (`get_link_relevant_chunks`). */
  function EntryArticle(find: string -> seq<string>, e: FeedEntry): Article {
    Article(e.title, BeforeQuery(e.link), find(e.link))
  }

  /** An entry yields an article when it passes the date test, has a link,
      and something relevant is found at that link. */
  predicate Yields(find: string -> seq<string>, published: FeedEntry -> bool, e: FeedEntry) {
    published(e) && e.link != "" && find(e.link) != []
  }

  /** An entry whose link the loop requests: it passes the date test and
      has a link. */
  predicate Fetches(published: FeedEntry -> bool, e: FeedEntry) {
    published(e) && e.link != ""
  }

  /** The page requests the loop over `entries` makes, in order: the link of
      each entry it fetches, with the clock reading `clock(2 * i + 1)` taken
      once the page of the `i`-th entry has loaded. */
  function FeedRequests(published: FeedEntry -> bool, entries: seq<FeedEntry>, clock: nat -> real): seq<(string, real)>
    decreases |entries|
  {
    if entries == [] then []
    else
      var i := |entries| - 1;
      FeedRequests(published, entries[..i], clock) +
      (if Fetches(published, entries[i]) then [(entries[i].link, clock(2 * i + 1))] else [])
  }

  lemma FeedRequestsStep(published: FeedEntry -> bool, entries: seq<FeedEntry>, clock: nat -> real, i: int)
    requires 0 <= i < |entries|
    ensures FeedRequests(published, entries[..i + 1], clock) ==
            FeedRequests(published, entries[..i], clock) +
            (if Fetches(published, entries[i]) then [(entries[i].link, clock(2 * i + 1))] else [])
  {
    assert entries[..i + 1][..i] == entries[..i];
  }

  /** The urls requested are exactly the links of the entries fetched. */
  lemma {:induction false} FeedRequestsLinks(published: FeedEntry -> bool, entries: seq<FeedEntry>, clock: nat -> real, u: string)
    ensures (exists k :: 0 <= k < |FeedRequests(published, entries, clock)| && FeedRequests(published, entries, clock)[k].0 == u) <==>
            (exists i :: 0 <= i < |entries| && Fetches(published, entries[i]) && entries[i].link == u)
    decreases |entries|
  {
    if entries != [] {
      var n := |entries| - 1;
      var init := entries[..n];
      FeedRequestsLinks(published, init, clock, u);
      var rs := FeedRequests(published, entries, clock);
      var rs0 := FeedRequests(published, init, clock);
      assert forall k :: 0 <= k < |rs0| ==> rs[k] == rs0[k];
      assert forall i :: 0 <= i < n ==> init[i] == entries[i];
      if Fetches(published, entries[n]) {
        assert rs[|rs0|] == (entries[n].link, clock(2 * n + 1));
      }
    }
  }

  /** What the `fetch_data` loop of a feed source returns, `published` being
      its `is_published_today` test. */
  function FeedArticles(find: string -> seq<string>, published: FeedEntry -> bool,
                        entries: seq<FeedEntry>): seq<Article>
  {
    Map(Filter(entries, e => Yields(find, published, e)), e => EntryArticle(find, e))
  }

  /** Every article comes from an entry that yields one, so it carries
      relevant chunks and a url without query string; there are no more
      articles than entries. */
  lemma FeedArticlesSound(find: string -> seq<string>, published: FeedEntry -> bool,
                          entries: seq<FeedEntry>, k: int)
    requires 0 <= k < |FeedArticles(find, published, entries)|
    ensures |FeedArticles(find, published, entries)| <= |entries|
    ensures var a := FeedArticles(find, published, entries)[k];
      a.chunks != [] && '?' !in a.url &&
      exists i :: 0 <= i < |entries| && Yields(find, published, entries[i]) && a == EntryArticle(find, entries[i])
  {
    var keep := e => Yields(find, published, e);
    var kept := Filter(entries, keep);
    FilterMember(entries, keep, kept[k]);
    var i :| 0 <= i < |entries| && entries[i] == kept[k];
    assert FeedArticles(find, published, entries)[k] == EntryArticle(find, entries[i]);
  }

  /** Every entry that yields an article contributes it. */
  lemma FeedArticlesComplete(find: string -> seq<string>, published: FeedEntry -> bool,
                             entries: seq<FeedEntry>, i: int)
    requires 0 <= i < |entries| && Yields(find, published, entries[i])
    ensures EntryArticle(find, entries[i]) in FeedArticles(find, published, entries)
  {
    var keep := e => Yields(find, published, e);
    var kept := Filter(entries, keep);
    FilterMember(entries, keep, entries[i]);
    var j :| 0 <= j < |kept| && kept[j] == entries[i];
    assert FeedArticles(find, published, entries)[j] == EntryArticle(find, entries[i]);
  }

  /** Articles follow entry order: the articles of two runs of entries are
      those of the first run, then those of the second. */
  lemma FeedArticlesAppend(find: string -> seq<string>, published: FeedEntry -> bool,
                           a: seq<FeedEntry>, b: seq<FeedEntry>)
    ensures FeedArticles(find, published, a + b) ==
            FeedArticles(find, published, a) + FeedArticles(find, published, b)
  {
    var keep := e => Yields(find, published, e);
    FilterAppend(a, b, keep);
    MapAppend(Filter(a, keep), Filter(b, keep), e => EntryArticle(find, e));
  }

  /** One more entry adds its article exactly when it yields one. */
  lemma FeedArticlesSnoc(find: string -> seq<string>, published: FeedEntry -> bool,
                         entries: seq<FeedEntry>, e: FeedEntry)
    ensures FeedArticles(find, published, entries + [e]) ==
            FeedArticles(find, published, entries) +
            (if Yields(find, published, e) then [EntryArticle(find, e)] else [])
  {
    FeedArticlesAppend(find, published, entries, [e]);
    assert Filter([e], e => Yields(find, published, e)) ==
           if Yields(find, published, e) then [e] else [];
  }
}
