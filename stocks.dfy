/** A stock (`stocks.Stock`): its daily ticker-data cache keyed by
    (symbol, date), the articles gathered for it from an ordered list of
    retrieval sources with duplicate urls dropped, and the sentiment figures
    computed over those articles. */
module Stocks {
  import opened Wrappers
  import opened Seqs
  import opened Dates
  import opened Articles

  /** What the market-data service returns for a symbol: `ticker.info`,
      `ticker.history(period='1d')` and `ticker._news`, kept as opaque
      serialised values. */
  datatype Snapshot = Snapshot(info: string, history: string, news: string)

  /** The `sentiment` entry added by `update_sentiment_data`. */
  datatype Summary = Summary(count: nat, average: real)

  /** The `ticker_data` dictionary stored in the cache: the snapshot, the
      ISO date it was fetched and, once computed, the sentiment summary. */
  datatype TickerData = TickerData(snapshot: Snapshot, date: Date, sentiment: Option<Summary>)

  /** The `ticker_cache` table, whose primary key is (symbol, date). */
  type Rows = map<(string, Date), TickerData>

  /** The blob `fetch_and_cache_data` builds and stores. */
  function FreshData(s: Snapshot, today: Date): (d: TickerData)
    ensures d.date == today && d.snapshot == s && d.sentiment.None?
  {
    TickerData(s, today, None)
  }

  /** `SELECT data ... WHERE symbol = ? AND date = ?`. */
  function Lookup(rows: Rows, symbol: string, today: Date): (r: Option<TickerData>)
    ensures r.Some? <==> (symbol, today) in rows
    ensures r.Some? ==> r.value == rows[(symbol, today)]
  {
    if (symbol, today) in rows then Some(rows[(symbol, today)]) else None
  }

  /** Storing a row under any other key, another date in particular, leaves
      the lookup of today's row as it was. */
  lemma StaleRowMisses(rows: Rows, sym: string, day: Date, d: TickerData, symbol: string, today: Date)
    requires sym != symbol || day != today
    ensures Lookup(rows[(sym, day) := d], symbol, today) == Lookup(rows, symbol, today)
  {
  }

  /** The row after `update_sentiment_data`: today's blob gains the summary;
      with no row for today nothing is written. */
  function WithSentiment(rows: Rows, symbol: string, today: Date, s: Summary): (r: Rows)
    ensures r.Keys == rows.Keys
    ensures (symbol, today) !in rows ==> r == rows
    ensures (symbol, today) in rows ==>
      r[(symbol, today)] == rows[(symbol, today)].(sentiment := Some(s))
    ensures forall k :: k in rows && k != (symbol, today) ==> r[k] == rows[k]
  {
    if (symbol, today) in rows then
      rows[(symbol, today) := rows[(symbol, today)].(sentiment := Some(s))]
    else rows
  }

  /** Recording the same summary twice in a day is recording it once. */
  lemma WithSentimentIdempotent(rows: Rows, symbol: string, today: Date, s: Summary)
    ensures WithSentiment(WithSentiment(rows, symbol, today, s), symbol, today, s) ==
            WithSentiment(rows, symbol, today, s)
  {
  }

  /** A later summary replaces an earlier one. */
  lemma WithSentimentLastWins(rows: Rows, symbol: string, today: Date, s: Summary, t: Summary)
    ensures WithSentiment(WithSentiment(rows, symbol, today, s), symbol, today, t) ==
            WithSentiment(rows, symbol, today, t)
  {
  }

  // ---------------------------------------------------------------------
  // Deduplication by url
  // ---------------------------------------------------------------------

  /** The urls of a list of articles (`seen_urls`). */
  function Urls(xs: seq<Article>): set<string> {
    set i | 0 <= i < |xs| :: xs[i].url
  }

  /** `xs[i]` is the first article with its url. */
  predicate IsFirst(xs: seq<Article>, i: int)
    requires 0 <= i < |xs|
  {
    forall j :: 0 <= j < i ==> xs[j].url != xs[i].url
  }

  /** The articles with a url not seen before, in order: the first article
      with a given url wins. */
  function Dedup(xs: seq<Article>): (r: seq<Article>)
    ensures |r| <= |xs|
    ensures Urls(r) == Urls(xs)
    ensures forall a, b :: 0 <= a < b < |r| ==> r[a].url != r[b].url
    decreases |xs|
  {
    if xs == [] then []
    else
      var init, x := xs[..|xs| - 1], xs[|xs| - 1];
      var d := Dedup(init);
      assert xs == init + [x];
      UrlsSnoc(init, x);
      if x.url in Urls(d) then d
      else
        UrlsSnoc(d, x);
        d + [x]
  }

  /** The positions in `xs` of the articles `Dedup` keeps: increasing, each
      the first occurrence of its url, so the result is an order-preserving
      subsequence of the input. */
  ghost function DedupIndices(xs: seq<Article>): (idx: seq<nat>)
    ensures IndexedBy(Dedup(xs), xs, idx)
    ensures forall k :: 0 <= k < |idx| ==> IsFirst(xs, idx[k])
    decreases |xs|
  {
    if xs == [] then []
    else
      var init, x := xs[..|xs| - 1], xs[|xs| - 1];
      var prev := DedupIndices(init);
      SnocInit(xs);
      FirstStaysFirst(init, x, prev);
      DedupSnoc(init, x);
      if x.url in Urls(Dedup(init)) then
        IndexedByExtend(Dedup(init), init, prev, x);
        prev
      else
        IndexedBySnoc(Dedup(init), init, prev, x);
        NewUrlIsFirst(init, x);
        prev + [|init|]
  }

  lemma FirstStaysFirst(xs: seq<Article>, x: Article, idx: seq<nat>)
    requires forall k :: 0 <= k < |idx| ==> idx[k] < |xs| && IsFirst(xs, idx[k])
    ensures forall k :: 0 <= k < |idx| ==> IsFirst(xs + [x], idx[k])
  {
    forall k | 0 <= k < |idx| ensures IsFirst(xs + [x], idx[k]) {
      assert forall j :: 0 <= j <= idx[k] ==> (xs + [x])[j] == xs[j];
    }
  }

  lemma NewUrlIsFirst(xs: seq<Article>, x: Article)
    requires x.url !in Urls(xs)
    ensures IsFirst(xs + [x], |xs|)
  {
    forall j | 0 <= j < |xs| ensures (xs + [x])[j].url != x.url {
      assert (xs + [x])[j] == xs[j];
      assert xs[j].url in Urls(xs);
    }
  }

  lemma UrlsSnoc(xs: seq<Article>, x: Article)
    ensures Urls(xs + [x]) == Urls(xs) + {x.url}
  {
    var ys := xs + [x];
    forall u | u in Urls(ys) ensures u in Urls(xs) + {x.url} {
      var i :| 0 <= i < |ys| && ys[i].url == u;
      if i < |xs| {
        assert xs[i].url == u;
      }
    }
    forall u | u in Urls(xs) + {x.url} ensures u in Urls(ys) {
      if u == x.url {
        assert ys[|xs|].url == u;
      } else {
        var i :| 0 <= i < |xs| && xs[i].url == u;
        assert ys[i].url == u;
      }
    }
  }

  /** An article that is the first with its url is kept. */
  lemma DedupKeepsFirst(xs: seq<Article>, i: int)
    requires 0 <= i < |xs| && IsFirst(xs, i)
    ensures xs[i] in Dedup(xs)
  {
    var d, idx := Dedup(xs), DedupIndices(xs);
    assert xs[i].url in Urls(xs);
    var k :| 0 <= k < |d| && d[k].url == xs[i].url;
    var j := idx[k];
    assert xs[j].url == xs[i].url;
    assert IsFirst(xs, j);
    assert j == i;
  }

  lemma DedupSnoc(xs: seq<Article>, x: Article)
    ensures Dedup(xs + [x]) == if x.url in Urls(Dedup(xs)) then Dedup(xs) else Dedup(xs) + [x]
  {
    assert (xs + [x])[..|xs|] == xs;
  }

  // ---------------------------------------------------------------------
  // Sentiment figures
  // ---------------------------------------------------------------------

  /** `round(x, 3)` on an exact value: the nearest multiple of 1/1000, ties
      to the even multiple. */
  function Round3(x: real): (r: real)
    ensures (r * 1000.0).Floor as real == r * 1000.0
    ensures -0.0005 <= r - x <= 0.0005
  {
    var y := x * 1000.0;
    var f := y.Floor;
    var frac := y - f as real;
    var n := if frac < 0.5 then f else if frac > 0.5 then f + 1 else if f % 2 == 0 then f else f + 1;
    n as real / 1000.0
  }

  /** `total_sentiment`: the sum of the articles' scores. */
  function TotalSentiment(articles: seq<Article>, analyze: Analyzer): real {
    Sum(Map(articles, a => SentimentScore(a, analyze)))
  }

  /** `sentiment_count`: the number of articles. */
  function SentimentCount(articles: seq<Article>): nat {
    |articles|
  }

  /** `average_sentiment`: 0 with no articles, else the mean score rounded
      to three decimals. */
  function AverageSentiment(articles: seq<Article>, analyze: Analyzer): (avg: real)
    ensures SentimentCount(articles) == 0 ==> avg == 0.0
    ensures (avg * 1000.0).Floor as real == avg * 1000.0
    ensures SentimentCount(articles) > 0 ==>
      -0.0005 <= avg - TotalSentiment(articles, analyze) / SentimentCount(articles) as real <= 0.0005
  {
    if SentimentCount(articles) == 0 then 0.0
    else Round3(TotalSentiment(articles, analyze) / SentimentCount(articles) as real)
  }

  /** The stock average lies within rounding of the range of the article
      scores. */
  lemma AverageWithinScores(articles: seq<Article>, analyze: Analyzer, lo: real, hi: real)
    requires articles != []
    requires forall i :: 0 <= i < |articles| ==> lo <= SentimentScore(articles[i], analyze) <= hi
    ensures lo - 0.0005 <= AverageSentiment(articles, analyze) <= hi + 0.0005
  {
    var scores := Map(articles, a => SentimentScore(a, analyze));
    SumBounds(scores, lo, hi);
    var n := |articles| as real;
    var mean := Sum(scores) / n;
    MeanBetween(mean, n, Sum(scores), lo, hi);
    assert -0.0005 <= AverageSentiment(articles, analyze) - mean <= 0.0005;
  }

  /** The summary `update_sentiment_data` records. */
  function SummaryOf(articles: seq<Article>, analyze: Analyzer): (s: Summary)
    ensures s.count == |articles|
    ensures s.average == AverageSentiment(articles, analyze)
  {
    Summary(SentimentCount(articles), AverageSentiment(articles, analyze))
  }

  // ---------------------------------------------------------------------
  // The cache table and the stock
  // ---------------------------------------------------------------------

  /** The SQLite `ticker_cache` table. */
  class TickerDb {
    var rows: Rows

    constructor (rows: Rows)
      ensures this.rows == rows
    {
      this.rows := rows;
    }

    method Select(symbol: string, today: Date) returns (r: Option<TickerData>)
      ensures r == Lookup(rows, symbol, today)
    {
      if (symbol, today) in rows {
        r := Some(rows[(symbol, today)]);
      } else {
        r := None;
      }
    }

    /** `INSERT OR REPLACE`: one row per key, the later write wins. */
    method InsertOrReplace(symbol: string, today: Date, d: TickerData)
      modifies this
      ensures rows == old(rows)[(symbol, today) := d]
    {
      rows := rows[(symbol, today) := d];
    }

    /** `UPDATE ... WHERE`: a key without a row matches nothing. */
    method Update(symbol: string, today: Date, d: TickerData)
      modifies this
      ensures (symbol, today) in old(rows) ==> rows == old(rows)[(symbol, today) := d]
      ensures (symbol, today) !in old(rows) ==> rows == old(rows)
    {
      if (symbol, today) in rows {
        rows := rows[(symbol, today) := d];
      }
    }
  }

  class Stock {
    const symbol: string
    const db: TickerDb
    /** `_articles`. */
    var articles: seq<Article>
    /** `_ticker_data`. */
    var tickerData: TickerData

    /** `__post_init__`: today's cached blob if there is one, else a fresh
        fetch, which is stored. */
    constructor (symbol: string, db: TickerDb, today: Date, fetch: string -> Snapshot)
      modifies db
      ensures this.symbol == symbol && this.db == db && articles == []
      ensures (symbol, today) in old(db.rows) ==>
        tickerData == old(db.rows)[(symbol, today)] && db.rows == old(db.rows)
      ensures (symbol, today) !in old(db.rows) ==>
        tickerData == FreshData(fetch(symbol), today) &&
        db.rows == old(db.rows)[(symbol, today) := tickerData]
    {
      this.symbol := symbol;
      this.db := db;
      articles := [];
      var cached := db.Select(symbol, today);
      if cached.Some? {
        tickerData := cached.value;
      } else {
        var d := FreshData(fetch(symbol), today);
        db.InsertOrReplace(symbol, today, d);
        tickerData := d;
      }
    }

    /** `load_cached_data`: a hit only for a row of (symbol, today). */
    method LoadCachedData(today: Date) returns (r: Option<TickerData>)
      ensures r == Lookup(db.rows, symbol, today)
    {
      r := db.Select(symbol, today);
    }

    /** `fetch_and_cache_data`: stores a blob dated today, so a later load
        on the same day hits it. */
    method FetchAndCacheData(today: Date, fetch: string -> Snapshot) returns (d: TickerData)
      modifies db
      ensures d == FreshData(fetch(symbol), today)
      ensures db.rows == old(db.rows)[(symbol, today) := d]
      ensures Lookup(db.rows, symbol, today) == Some(d) && d.date == today
    {
      d := FreshData(fetch(symbol), today);
      db.InsertOrReplace(symbol, today, d);
    }

    /** The `articles` property. `batches[s]` is what the `s`-th retrieval
        source returns; once the list is non-empty it is returned as it
        stands and no source is consulted. */
    method Articles(batches: seq<seq<Article>>) returns (r: seq<Article>)
      modifies this
      ensures old(articles) != [] ==> r == old(articles)
      ensures old(articles) == [] ==> r == Dedup(Flatten(batches))
      ensures articles == r && tickerData == old(tickerData)
    {
      if articles != [] {
        return articles;
      }
      var seen: set<string> := Urls(articles);
      var i := 0;
      while i < |batches|
        invariant 0 <= i <= |batches|
        invariant articles == Dedup(Flatten(batches[..i])) && seen == Urls(articles)
        invariant tickerData == old(tickerData)
      {
        seen := AddUnique(Flatten(batches[..i]), batches[i], seen);
        assert batches[..i + 1] == batches[..i] + [batches[i]];
        FlattenSnoc(batches[..i], batches[i]);
        i := i + 1;
      }
      assert batches[..i] == batches;
      r := articles;
    }

    /** The inner loop of `articles`: appends the articles of one source
        whose url has not been seen. */
    method AddUnique(ghost before: seq<Article>, batch: seq<Article>, seen: set<string>) returns (seen': set<string>)
      requires articles == Dedup(before) && seen == Urls(articles)
      modifies this
      ensures articles == Dedup(before + batch) && seen' == Urls(articles)
      ensures tickerData == old(tickerData)
    {
      seen' := seen;
      var j := 0;
      AppendNone(before, batch);
      while j < |batch|
        invariant 0 <= j <= |batch|
        invariant articles == Dedup(before + batch[..j]) && seen' == Urls(articles)
        invariant tickerData == old(tickerData)
      {
        var a := batch[j];
        DedupSnoc(before + batch[..j], a);
        AppendSliceSnoc(before, batch, j);
        if a.url !in seen' {
          UrlsSnoc(articles, a);
          articles := articles + [a];
          seen' := seen' + {a.url};
        }
        j := j + 1;
      }
      SliceAll(batch);
    }

    /** `update_sentiment_data`: records `{count, average}` in today's row,
        and in `_ticker_data`, only when today's row exists. */
    method UpdateSentimentData(today: Date, batches: seq<seq<Article>>, analyze: Analyzer)
      modifies this, db
      ensures (symbol, today) in old(db.rows) ==>
        articles == (if old(articles) != [] then old(articles) else Dedup(Flatten(batches)))
      ensures db.rows == WithSentiment(old(db.rows), symbol, today, SummaryOf(articles, analyze))
      ensures (symbol, today) in old(db.rows) ==> tickerData == db.rows[(symbol, today)]
      ensures (symbol, today) !in old(db.rows) ==>
        articles == old(articles) && db.rows == old(db.rows) && tickerData == old(tickerData)
    {
      var cached := LoadCachedData(today);
      if cached.Some? {
        var current := Articles(batches);
        var d := cached.value.(sentiment := Some(SummaryOf(current, analyze)));
        db.Update(symbol, today, d);
        tickerData := d;
      }
    }
  }
}
