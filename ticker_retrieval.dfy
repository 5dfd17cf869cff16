/** The market-data news source (`retrieval/ticker_article_retrieval.py`):
    like the RSS source but with a date test that accepts every entry. The
    entries are an input here, since the method the source calls to obtain
    them is not defined in the repository. */
module TickerRetrieval {
  import opened Wrappers
  import opened Strings
  import opened Seqs
  import opened Articles
  import opened Retrieval
  import opened Feeds

  /** `is_published_today` of this source, as the date test the shared
      feed functions take. */
  function AlwaysPublished(): (published: FeedEntry -> bool)
    ensures forall e :: published(e)
  {
    e => true
  }

  /** The publication time of an entry plays no part in what it yields. */
  lemma DatesIgnored(find: string -> seq<string>, entries: seq<FeedEntry>, times: seq<Option<seq<int>>>)
    requires |times| == |entries|
    ensures var restamped := seq(|entries|, i requires 0 <= i < |entries| => entries[i].(published := times[i]));
      FeedArticles(find, AlwaysPublished(), restamped) == FeedArticles(find, AlwaysPublished(), entries)
    decreases |entries|
  {
    var restamped := seq(|entries|, i requires 0 <= i < |entries| => entries[i].(published := times[i]));
    if entries != [] {
      var n := |entries| - 1;
      DatesIgnored(find, entries[..n], times[..n]);
      assert restamped[..n] == seq(n, i requires 0 <= i < n => entries[..n][i].(published := times[..n][i]));
      assert restamped == restamped[..n] + [restamped[n]];
      assert entries == entries[..n] + [entries[n]];
      FeedArticlesSnoc(find, AlwaysPublished(), restamped[..n], restamped[n]);
      FeedArticlesSnoc(find, AlwaysPublished(), entries[..n], entries[n]);
    }
  }

  class TickerArticleRetrieval {
    const base: ArticleRetrieval
    const feedUrl: Option<string>

    constructor (base: ArticleRetrieval, feedUrl: Option<string>)
      ensures this.base == base && this.feedUrl == feedUrl
    {
      this.base := base;
      this.feedUrl := feedUrl;
    }

    /** The body of the `fetch_data` loop for one entry. */
    method ProcessEntry(entry: FeedEntry, info: EntityInfo, now: real, doneAt: real)
      returns (found: seq<Article>)
      requires base.Valid()
      modifies base
      ensures base.Valid()
      ensures found == if Yields(base.Finder(info), AlwaysPublished(), entry) then [EntryArticle(base.Finder(info), entry)] else []
      ensures base.State() == if Fetches(AlwaysPublished(), entry) then base.AfterRequest(old(base.State()), entry.link, doneAt)
                              else old(base.State())
    {
      var title := entry.title;
      var link := entry.link;
      var baseUrl := BeforeQuery(link);
      found := [];
      if link != "" {
        var chunks := base.GetLinkRelevantChunks(link, info, now, doneAt);
        if chunks != [] {
          found := [Article(title, baseUrl, chunks)];
        }
      }
    }

    /** `fetch_data(ticker)` over the ticker's news `entries`;
        `clock(2 * i)` and `clock(2 * i + 1)` are the clock readings around
        the request for the `i`-th entry. */
    method FetchData(info: EntityInfo, entries: seq<FeedEntry>, clock: nat -> real) returns (articles: seq<Article>)
      requires base.Valid()
      modifies base
      ensures base.Valid()
      ensures articles == FeedArticles(base.Finder(info), AlwaysPublished(), entries)
      ensures base.State() == base.AfterRequests(old(base.State()), FeedRequests(AlwaysPublished(), entries, clock))
    {
      articles := [];
      ghost var start := base.State();
      for i := 0 to |entries|
        invariant base.Valid()
        invariant articles == FeedArticles(base.Finder(info), AlwaysPublished(), entries[..i])
        invariant base.State() == base.AfterRequests(start, FeedRequests(AlwaysPublished(), entries[..i], clock))
      {
        var entry := entries[i];
        SliceSnoc(entries, i);
        FeedArticlesSnoc(base.Finder(info), AlwaysPublished(), entries[..i], entry);
        ghost var prior := FeedRequests(AlwaysPublished(), entries[..i], clock);
        FeedRequestsStep(AlwaysPublished(), entries, clock, i);
        base.AfterRequestsSnoc(start, prior, (entry.link, clock(2 * i + 1)));
        assert !Fetches(AlwaysPublished(), entry) ==> prior + [] == prior;
        var found := ProcessEntry(entry, info, clock(2 * i), clock(2 * i + 1));
        articles := articles + found;
      }
      SliceAll(entries);
    }
  }
}
