/** The RSS feed source (`retrieval/rss_article_retrieval.py`): today's
    entries of one feed, each turned into an article when a relevant chunk
    is found at its link. */
module RssRetrieval {
  import opened Wrappers
  import opened Strings
  import opened Seqs
  import opened Dates
  import opened Articles
  import opened Retrieval
  import opened Feeds

  /** An entry dated another day never yields an article, whatever its
      link. */
  lemma OtherDayYieldsNothing(r: ArticleRetrieval, info: EntityInfo, today: Date, e: FeedEntry)
    requires !PublishedToday(e.published, today)
    ensures FeedArticles(r.Finder(info), PublishedTest(today), [e]) == []
  {
  }

  class RSSArticleRetrieval {
    /** The shared retrieval machinery this source extends. */
    const base: ArticleRetrieval
    const feedUrl: string
    /** `_cached_entries`: the feed's entries once parsed. */
    var cachedEntries: Option<seq<FeedEntry>>

    ghost predicate Valid()
      reads this, base
    {
      base.Valid()
    }

    constructor (base: ArticleRetrieval, feedUrl: string)
      requires base.Valid()
      ensures Valid() && this.base == base && this.feedUrl == feedUrl && cachedEntries == None
    {
      this.base := base;
      this.feedUrl := feedUrl;
      cachedEntries := None;
    }

    /** `_get_feed_entries`: `current` is what parsing the feed would give
        now; the feed is parsed only on the first call, and every later call
        returns the entries of that first parse. */
    method GetFeedEntries(current: seq<FeedEntry>) returns (entries: seq<FeedEntry>)
      modifies this
      ensures old(cachedEntries).Some? ==> entries == old(cachedEntries).value
      ensures old(cachedEntries).None? ==> entries == current
      ensures cachedEntries == Some(entries)
    {
      if cachedEntries.None? {
        cachedEntries := Some(current);
      }
      entries := cachedEntries.value;
    }

    /** The body of the `fetch_data` loop for one entry: the article it
        yields, if any. */
    method ProcessEntry(entry: FeedEntry, info: EntityInfo, today: Date, now: real, doneAt: real)
      returns (found: seq<Article>)
      requires base.Valid()
      modifies base
      ensures base.Valid()
      ensures found == if Yields(base.Finder(info), PublishedTest(today), entry) then [EntryArticle(base.Finder(info), entry)] else []
      ensures base.State() == if Fetches(PublishedTest(today), entry) then base.AfterRequest(old(base.State()), entry.link, doneAt)
                              else old(base.State())
    {
      if !PublishedToday(entry.published, today) {
        return [];
      }
      var title := entry.title;
      var link := entry.link;
      var baseUrl := BeforeQuery(link);
      found := [];
      if link != "" {
        var chunks := base.GetLinkRelevantChunks(link, info, now, doneAt);
        if chunks != [] {
          found := [Article(title, baseUrl, chunks)];
        }
      }
    }

    /** `fetch_data(data)` for the company `info` on `today`; `current` is
        the feed as it would parse now and `clock(2 * i)`, `clock(2 * i + 1)`
        the clock readings around the request for the `i`-th entry. */
    method FetchData(info: EntityInfo, today: Date, current: seq<FeedEntry>, clock: nat -> real)
      returns (articles: seq<Article>)
      requires Valid()
      modifies this, base
      ensures Valid()
      ensures cachedEntries.Some? && (old(cachedEntries).Some? ==> cachedEntries == old(cachedEntries))
      ensures articles == FeedArticles(base.Finder(info), PublishedTest(today), cachedEntries.value)
      ensures base.State() == base.AfterRequests(old(base.State()), FeedRequests(PublishedTest(today), cachedEntries.value, clock))
    {
      var entries := GetFeedEntries(current);
      articles := [];
      ghost var start := base.State();
      for i := 0 to |entries|
        invariant base.Valid()
        invariant cachedEntries == Some(entries)
        invariant articles == FeedArticles(base.Finder(info), PublishedTest(today), entries[..i])
        invariant base.State() == base.AfterRequests(start, FeedRequests(PublishedTest(today), entries[..i], clock))
      {
        var entry := entries[i];
        SliceSnoc(entries, i);
        FeedArticlesSnoc(base.Finder(info), PublishedTest(today), entries[..i], entry);
        ghost var prior := FeedRequests(PublishedTest(today), entries[..i], clock);
        FeedRequestsStep(PublishedTest(today), entries, clock, i);
        base.AfterRequestsSnoc(start, prior, (entry.link, clock(2 * i + 1)));
        assert !Fetches(PublishedTest(today), entry) ==> prior + [] == prior;
        var found := ProcessEntry(entry, info, today, clock(2 * i), clock(2 * i + 1));
        articles := articles + found;
      }
      SliceAll(entries);
    }
  }
}
