# Stock news sentiment pipeline — a Dafny model

This project models the deterministic core of a stock-sentiment pipeline.

- **Sources.** News is gathered per stock from several sources:
  - RSS feeds, the market-data news list and site-restricted web searches;
  - older keyword-based scrapers of RSS feeds, Bing results and three financial sites.
- **Relevance.** Each page's paragraph text goes through the same steps:
  - it is normalised (punctuation to spaces, whitespace collapsed, lower-cased);
  - it is cut into sentence-respecting chunks of at most 512 words;
  - a zero-shot classifier keeps the chunks whose top label is the company with confidence above 0.7.
- **Articles and scores.** A page with relevant chunks becomes an article whose url has its query string removed. An article's score is the mean of its chunk scores. A stock's articles are the articles of its sources in order, the first one seen winning for each url. The stock's figures are the article count and the average score rounded to three decimals.
- **Caches.** Ticker data is cached per (symbol, date) in a table, or per symbol in a file with an embedded date. The cache is used only when it dates from today.
- **Clinical-trial reader.** It parses RSS items and keeps the trials published inside a window of days.

Every machine-learning model, browser, HTML/feed/XML parser and network client becomes a function passed in:

- zero-shot classifier: `Classifier`
- sentiment analyser: `Analyzer`
- sentiment model behind the link filter: `llm`
- sentiment model behind `fetch_and_analyze`: `model`
- browser: `load`, `reloadAfterPrompt`
- `<p>`, `<a>` and `<a href>` extraction: `paragraphs` / `paragraphsOf`, `anchorsOf`, `linksOf`
- sentence tokenizer: `tokenize`
- HTTP GET: `get`
- `strptime`: `parse`
- market-data download: `fetch`

The clock and today's date are parameters. Storage is a `map`.

Where the source mutates state, the model is imperative:
- a class's fields are updated by methods with `modifies` clauses;
- each loop is a `while`/`for` loop with invariants.

Each such method is proved equal to a specification function. The properties are lemmas about those functions.

Subclassing becomes composition. A retrieval source holds a `base: ArticleRetrieval`. The three site scrapers are named constructors of one `WebScrapingSentiment` class.

The model follows what the code does:
- An error in classifying a chunk makes `extract_relevant_chunks` return no chunks. There is no keyword fallback.
- The relevance threshold is 0.7.
- A failed search request in the two scrapers is not recovered: the source raises. The model returns `None` or a `Failure`.

### Source defects and how the model settles them

- `stocks.py` reads `article.link`, and the retrieval sources construct `Article(link=...)`, but `Article` declares `url`. The model has one `url` field, filled with the link stripped of its query string.
- The retrieval sources build `Article` without the sentiment analyser it declares. The analyser is a parameter of the score instead.
- `TickerArticleRetrieval.fetch_data` calls `_get_feed_entries`, which neither it nor its base defines. Its entries are an input sequence.
- `WebArticleRetrieval.fetch_data` reads `.content` of the string `_rate_limited_request` returns. The model parses the returned page itself. The missing `List` import of that file has no counterpart.
- The sources pass different objects as `info` (a dict entry, a `Stock`, a ticker). The model passes one `EntityInfo(symbol, shortName)`.

## Model

| member | source | states |
|---|---|---|
| `Strings.BeforeQuery` | retrieval/rss_article_retrieval.py:50 | `split('?')[0]`: the longest prefix without `?`, stopping at the first `?` |
| `Strings.BeforeQueryKeepsPrefix` | retrieval/web_article_retrieval.py:26-28 | stripping the query string keeps an `http` prefix, so stored urls stay absolute |
| `Strings.Contains` | retrieval/web_article_retrieval.py:26 | `sub in s` holds iff `sub` occurs at some position of `s` |
| `Strings.Split` | retrieval/article_retrieval.py:104 | `str.split()` yields only non-empty tokens free of whitespace |
| `Strings.SplitSpec` | retrieval/article_retrieval.py:104 | the tokens of `str.split()`, concatenated, are exactly the non-whitespace characters in order, and there is one token per position where a run of non-whitespace begins |
| `Preprocessing.ReplacePunctuation` | retrieval/article_retrieval.py:122 | same length; word characters and whitespace are kept unchanged, and every other character becomes a space, so `a,b` gives the two words `a b` |
| `Preprocessing.Preprocess` | retrieval/article_retrieval.py:120-124 | output is single-spaced (no leading, trailing or double spaces) and holds only lower-case word characters and spaces; its words are exactly the words of the punctuation-stripped text, each lower-cased, in order |
| `Preprocessing.PreprocessIdempotent` | retrieval/article_retrieval.py:120-124 | normalising twice equals normalising once |
| `Preprocessing.PreprocessRemovesTerminators` | retrieval/article_retrieval.py:155-158 | the text handed to the sentence tokenizer has no `.`, `!` or `?` |
| `Chunking.PackKeepsInvariant` | retrieval/article_retrieval.py:102-113 | the packing loop keeps its invariant: closed chunks non-empty, within budget or single, greedy, and closed chunks plus the open one spell the sentences read |
| `Chunking.GroupsPartition` | retrieval/article_retrieval.py:97-118 | the sentence groups concatenate back to the sentences, none is empty, and there are none iff there are no sentences |
| `Chunking.GroupsWithinBudget` | retrieval/article_retrieval.py:104-113 | every group's word count is within the budget unless the group is a single sentence |
| `Chunking.GroupsGreedy` | retrieval/article_retrieval.py:106-113 | a group is closed only because the next sentence would have taken it over the budget |
| `Chunking.ChunkWordCount` | retrieval/article_retrieval.py:104-111 | a space-joined chunk has exactly the summed word counts of its sentences |
| `Chunking.ChunksRejoin` | retrieval/article_retrieval.py:97-118 | space-joining the chunks equals space-joining the sentences |
| `Chunking.ChunksWithinBudget` | retrieval/article_retrieval.py:104-116 | every chunk's word count is within the budget (512 in the retriever), or the chunk is one of the input sentences standing alone |
| `Chunking.ChunksEmpty` | retrieval/article_retrieval.py:110-116 | there are no chunks iff there are no sentences |
| `Retrieval.ArticleRetrieval.ChunkText` | retrieval/article_retrieval.py:91-118 | the imperative chunk loop returns exactly `Chunks(sentences, 512)` |
| `Retrieval.TopIs` | retrieval/article_retrieval.py:180 | `Some(true)` iff the first label is the target and its score exceeds 0.7; `None` exactly when indexing the result raises |
| `Retrieval.IsArticlePage` | retrieval/article_retrieval.py:31-60 | false under 50 words or on a classifier error; otherwise true iff "article" is the top label with score above 0.7 |
| `Retrieval.ClassifyAllIsFilter` | retrieval/article_retrieval.py:169-183 | the classification loop fails iff some chunk's classification fails, and otherwise keeps exactly the relevant chunks in order |
| `Retrieval.RelevantChunksSpec` | retrieval/article_retrieval.py:153-187 | `extract_relevant_chunks` is the order-preserving filter of the relevant chunks, or `[]` when any classification raises |
| `Retrieval.ClassifyAllFails` | retrieval/article_retrieval.py:171-187 | once a prefix of the chunks fails to classify, the whole result is the error |
| `Retrieval.ClassifyStep` | retrieval/article_retrieval.py:171-181 | one chunk adds itself when relevant, nothing when not, and ends the loop with the error when its classification raises |
| `Retrieval.DelayFor` | retrieval/article_retrieval.py:27 | the delay is `1/rps` when `rps > 0` (so `delay * rps == 1`), else 0, and never negative |
| `Retrieval.WaitFor` | retrieval/article_retrieval.py:70-75 | the sleep is `max(0, delay - elapsed)`: zero once the delay has passed, otherwise exactly the remainder |
| `Retrieval.ArticleRetrieval.constructor` | retrieval/article_retrieval.py:20-29 | the delay is `DelayFor(rps)`, the last request time 0 and the cache empty |
| `Retrieval.ArticleRetrieval.RateLimitedRequest` | retrieval/article_retrieval.py:63-89 | a hit returns the cached page and changes neither the cache nor the last request time; a miss waits `WaitFor(delay, now - last)`, stores the page (re-read after the CAPTCHA prompt when it is not an article) under the url only, and records the request time; the new session (cache, last request time) is `AfterRequest` of the old one |
| `Retrieval.ArticleRetrieval.AfterRequestCache` | retrieval/article_retrieval.py:66-88 | one request keeps every cached page, adds only its own url and only when the page loads, and stores the page a request produces |
| `Retrieval.ArticleRetrieval.AfterRequestsGrows` | retrieval/article_retrieval.py:63-89 | over any run of requests cached pages stay as they were, and every page gained is the page a request for its url produces |
| `Retrieval.ArticleRetrieval.AfterRequestsKeys` | retrieval/article_retrieval.py:63-89 | the urls a run of requests adds to the cache are exactly the requested urls whose page loads |
| `Retrieval.ArticleRetrieval.AfterRequestsLastTime` | retrieval/article_retrieval.py:76-88 | after any run of requests the last request time is the old one or the clock reading of one of the requests |
| `Retrieval.ArticleRetrieval.ExtractRelevantChunks` | retrieval/article_retrieval.py:147-187 | the imperative loop returns exactly `RelevantChunks` of the text |
| `Retrieval.ArticleRetrieval.GetLinkRelevantChunks` | retrieval/article_retrieval.py:126-145 | `[]` when the page cannot be loaded or has no paragraph text, otherwise the relevant chunks of that text; the cache gains only this link, and the session (cache and last request time) is `AfterRequest` of the old one for this link |
| `Articles.ChunkSentiments` | article.py:16 | the analyser is applied once per chunk, in chunk order |
| `Articles.SentimentScore` | article.py:12-17 | 0 without chunks; otherwise score times chunk count equals the sum of the chunk scores |
| `Articles.ScoreBetween` | article.py:14-17 | the score lies between the least and the greatest chunk score |
| `Articles.ScoreWithin` | article.py:16-17 | any common bounds on the chunk scores bound the article score |
| `Articles.ScorePermutation` | article.py:16-17 | reordering the chunks does not change the score |
| `Articles.ScoreUniform` | article.py:16-17 | when every chunk gets the same score, that is the article score |
| `Stocks.StaleRowMisses` | stocks.py:53-62 | the lookup of (symbol, today) finds a row iff one is stored under exactly that key; storing a row under any other key, another date in particular, leaves that lookup as it was |
| `Stocks.WithSentiment` | stocks.py:117-130 | no change without today's row; otherwise only today's row changes, and only its sentiment entry |
| `Stocks.WithSentimentIdempotent` | stocks.py:117-130 | recording the same summary twice in a day is recording it once |
| `Stocks.WithSentimentLastWins` | stocks.py:117-130 | a later summary replaces an earlier one |
| `Stocks.Dedup` | stocks.py:90-97 | no two kept articles share a url, the kept urls are exactly the input urls, and none are added |
| `Stocks.DedupIndices` | stocks.py:92-97 | the kept articles sit at increasing positions of the input, each the first article with its url (first seen wins, order kept) |
| `Stocks.DedupKeepsFirst` | stocks.py:94-97 | the first article with a given url is always kept |
| `Stocks.DedupSnoc` | stocks.py:94-97 | one more article is appended iff its url has not been seen |
| `Stocks.Round3` | stocks.py:109 | `round(x, 3)`: a multiple of 1/1000 within 0.0005 of `x` |
| `Stocks.AverageSentiment` | stocks.py:106-109 | 0 when there are no articles, otherwise total / count rounded to three decimals: a multiple of 1/1000 within 0.0005 of it |
| `Stocks.AverageWithinScores` | stocks.py:102-109 | the stock average lies, up to rounding, between bounds on the article scores |
| `Stocks.TickerDb.Select` | stocks.py:55-59 | the select returns `Lookup` of the table |
| `Stocks.TickerDb.InsertOrReplace` | stocks.py:76-79 | the table maps the key to the new blob, replacing any earlier row, and nothing else changes |
| `Stocks.TickerDb.Update` | stocks.py:125-128 | an update of a missing key changes nothing; otherwise only that row is replaced |
| `Stocks.Stock.constructor` | stocks.py:32-35 | today's row is used when present and the table is untouched; otherwise a fresh blob is fetched and stored under (symbol, today) |
| `Stocks.Stock.LoadCachedData` | stocks.py:51-62 | returns today's row for the symbol, or `None` |
| `Stocks.Stock.FetchAndCacheData` | stocks.py:64-82 | stores a blob holding the fetched snapshot, dated today and without a sentiment entry, under (symbol, today) only, so a same-day load hits it |
| `Stocks.Stock.Articles` | stocks.py:84-99 | a non-empty list is returned as it stands; otherwise the list becomes `Dedup` of the sources' articles in source order |
| `Stocks.Stock.AddUnique` | stocks.py:94-97 | the inner loop extends the deduplicated list by one source's batch and keeps `seen_urls` equal to its urls |
| `Stocks.Stock.UpdateSentimentData` | stocks.py:115-130 | with today's row: the articles are gathered, the row's sentiment becomes their count and rounded average, and `_ticker_data` is the new row; without one: the articles, the table and `_ticker_data` are all unchanged |
| `CachedTickers.FileNameInjective` | cached_ticker.py:11 | the file name is the symbol followed by `_ticker_data.json`, and distinct symbols use distinct files, so there is one record per symbol |
| `CachedTickers.OtherSymbolKeepsHit` | cached_ticker.py:11-24 | writing one symbol's cache file leaves every other symbol's lookup as it was |
| `CachedTickers.FileSystem.Write` | cached_ticker.py:35-36 | writing replaces that file only |
| `CachedTickers.CachedTicker.constructor` | cached_ticker.py:9-13 | `loaded_from_cache` holds iff the cache hits; on a hit the data is the file's and nothing is written; otherwise the data is fetched, dated today and written over the symbol's file |
| `CachedTickers.CachedTicker.LoadCachedData` | cached_ticker.py:15-24 | a hit iff the symbol's file exists and its date is today, and then the file's data with the flag raised; on a miss `None` with the flag as it was |
| `CachedTickers.CachedTicker.FetchAndCacheData` | cached_ticker.py:26-38 | writes data dated today, so a same-day load hits, and clears the flag |
| `Dates.PublishedToday` | retrieval/rss_article_retrieval.py:25-35 | false for a missing or empty time or one `datetime` rejects; otherwise true iff the date part is today (also `rss_sentiment.py` lines 18-28) |
| `Dates.PublishedTodayOnlyToday` | retrieval/rss_article_retrieval.py:31-33 | any valid time of today's date is today, and no time is today for another date |
| `Feeds.FeedArticlesSound` | retrieval/rss_article_retrieval.py:42-56 | each article comes from an entry of today with a link and relevant chunks; its url has no `?`; there are no more articles than entries |
| `Feeds.FeedArticlesComplete` | retrieval/rss_article_retrieval.py:42-56 | every entry that yields an article contributes it |
| `Feeds.FeedArticlesAppend` | retrieval/rss_article_retrieval.py:42-56 | articles follow entry order |
| `Feeds.FeedArticlesSnoc` | retrieval/rss_article_retrieval.py:44-56 | one more entry adds its article exactly when it is of today, has a link and relevant chunks at the full link |
| `RssRetrieval.OtherDayYieldsNothing` | retrieval/rss_article_retrieval.py:44-45 | an entry of another day yields no article |
| `RssRetrieval.RSSArticleRetrieval.constructor` | retrieval/rss_article_retrieval.py:11-15 | a new source has no cached entries |
| `RssRetrieval.RSSArticleRetrieval.GetFeedEntries` | retrieval/rss_article_retrieval.py:17-23 | the feed is parsed on the first call only; later calls return the entries of that parse |
| `RssRetrieval.RSSArticleRetrieval.ProcessEntry` | retrieval/rss_article_retrieval.py:43-56 | one entry yields its article (title, stripped link, chunks at the full link) exactly when it `Yields`; the base session takes that link's request exactly when the entry is of today and has a link, and is unchanged otherwise |
| `RssRetrieval.RSSArticleRetrieval.FetchData` | retrieval/rss_article_retrieval.py:37-61 | returns `FeedArticles` of the memoised entries with today's date test; the base session is the old one after `FeedRequests`, the links of today's entries in order |
| `Feeds.FeedRequestsLinks` | retrieval/rss_article_retrieval.py:44-53 | the urls a feed loop requests are exactly the links of the entries that pass the date test and have a link |
| `TickerRetrieval.DatesIgnored` | retrieval/ticker_article_retrieval.py:15-27 | this source's date test accepts every entry, so restamping the entries' times does not change the articles |
| `TickerRetrieval.TickerArticleRetrieval.constructor` | retrieval/ticker_article_retrieval.py:9-13 | stores the base and the feed url |
| `TickerRetrieval.TickerArticleRetrieval.ProcessEntry` | retrieval/ticker_article_retrieval.py:25-38 | an entry with a link and relevant chunks yields its article; one with an empty link is skipped and leaves the base session unchanged, one with a link makes that link's request |
| `TickerRetrieval.TickerArticleRetrieval.FetchData` | retrieval/ticker_article_retrieval.py:19-43 | returns `FeedArticles` of the entries with the always-true date test; the base session is the old one after the requests for every entry with a link, in order |
| `WebRetrieval.SearchUrl` | retrieval/web_article_retrieval.py:13 | the search url starts with the site-restricted Google query, contains the domain, and ends with the search terms `+symbol+shortName` |
| `WebRetrieval.AnchorArticlesSnoc` | retrieval/web_article_retrieval.py:21-32 | one more link adds its article exactly when it is absolute, on the domain and has relevant chunks |
| `WebRetrieval.AnchorArticlesSound` | retrieval/web_article_retrieval.py:21-32 | each article comes from an absolute link on the domain, is titled with the link text, has chunks and an `http` url without `?`; no more articles than links |
| `WebRetrieval.WebArticleRetrieval.constructor` | retrieval/web_article_retrieval.py:7-9 | stores the base and the domain |
| `WebRetrieval.WebArticleRetrieval.ProcessLink` | retrieval/web_article_retrieval.py:22-32 | one link yields its article exactly when `AnchorYields`; the base session takes the href's request exactly when the link is a candidate, and is unchanged otherwise |
| `WebRetrieval.WebArticleRetrieval.FetchData` | retrieval/web_article_retrieval.py:11-37 | `None` when the search page cannot be loaded, else `AnchorArticles` of its links; the base session is the old one after the search request and then the requests for the candidate links in order |
| `RssSentiment.SearchFrom` | rss_sentiment.py:14-16 | the search succeeds iff the pattern matches at some position from `i` on |
| `RssSentiment.Search` | rss_sentiment.py:14-16 | `pattern.search(s)` succeeds iff `\b{symbol}\b` matches somewhere, case-insensitively |
| `RssSentiment.IsRelevantToStock` | rss_sentiment.py:12-16 | relevant iff the symbol matches as a whole word in the title or the description |
| `RssSentiment.WholeWordIsRelevant` | rss_sentiment.py:14-16 | a symbol occurring as a whole word, in any case, makes the text relevant |
| `RssSentiment.NoMatchInsideWord` | rss_sentiment.py:14 | a symbol glued to a further word character does not match there |
| `RssSentiment.RelevantTextsAppend` | rss_sentiment.py:34-46 | kept texts follow feed order |
| `RssSentiment.RelevantTextsSound` | rss_sentiment.py:39-46 | each kept text is title + ". " + description of an entry of today that mentions the symbol |
| `RssSentiment.FirstTodayText` | rss_sentiment.py:34-49 | with a count below 1, at most one text, and it is the first kept text |
| `RssSentiment.FirstTodayIsFirstKept` | rss_sentiment.py:34-49 | when the first entry of today mentions the symbol, its text is the first kept text |
| `RssSentiment.StopAt` | rss_sentiment.py:48-49 | breaking once `count` texts are kept returns the first `count` texts of the whole feed |
| `RssSentiment.FetchData` | rss_sentiment.py:30-51 | count ≥ 1: the first `count` kept texts, so at most `count`; count < 1: what the loop returns when it breaks at the first entry of today |
| `WebSentiment.Prompt` | web_sentiment.py:14 | the prompt starts with the fixed question and ends with the link text |
| `WebSentiment.KeywordMatch` | web_sentiment.py:21-22 | true iff one of "stock", "market", "invest" or the lower-cased query occurs in the lower-cased link text |
| `WebSentiment.QueryInHeadline` | web_sentiment.py:21-22 | a headline containing the query passes the fallback |
| `WebSentiment.EmptyQueryAcceptsAll` | web_sentiment.py:21-22 | an empty query makes the fallback accept every headline |
| `WebSentiment.HeadlineNamingQuery` | web_sentiment.py:12-22 | when the model raises, a headline naming the query passes the link filter; when the model answers, its verdict (`POSITIVE` or not) decides even for such a headline |
| `WebSentiment.KeywordMatchIgnoresCase` | web_sentiment.py:22 | the fallback ignores the letter case of the link text |
| `WebSentiment.BingSearchUrl` | web_sentiment.py:9-25 | formatting the Bing template with the query and the domain gives the Bing url with both filled in |
| `WebSentiment.SearchUrl` | web_sentiment.py:25 | the requested url is `BingUrl(query, domain)` |
| `WebSentiment.VisitAnchor` | web_sentiment.py:32-54 | a link is fetched iff its href starts with `http`, contains the domain and passes the link filter; it yields text iff its page can be read and its space-joined paragraphs are non-empty, and the text is those paragraphs |
| `WebSentiment.CollectedSound` | web_sentiment.py:37-50 | every collected text is the non-empty space-joined paragraph text of a candidate link's page |
| `WebSentiment.SkippedLink` | web_sentiment.py:49-54 | a page that cannot be fetched, or has no text, adds nothing and the loop goes on |
| `WebSentiment.WebScrapingSentiment.constructor` | web_sentiment.py:7-10 | the template is the Bing template and the domain is stored |
| `WebSentiment.WebScrapingSentiment.FetchData` | web_sentiment.py:24-56 | `None` when the search request fails; otherwise the first `Cap(count)` collected texts, and only candidate links were requested |
| `WebSentiment.WebScrapingSentiment.ScrapeAnchors` | web_sentiment.py:31-56 | the loop returns the first `cap` collected texts; the requested links are a prefix of the candidate links, all of them when the cap was not reached |
| `SentimentAnalysis.FormatLiteral` | sentiment_analysis.py:41 | `str.format` copies text without braces unchanged |
| `SentimentAnalysis.FormatField` | sentiment_analysis.py:41 | `str.format` replaces a `{name}` field by its argument |
| `SentimentAnalysis.FetchAndAnalyze` | sentiment_analysis.py:12-18 | one (text, verdict) pair per fetched text, in order |
| `SentimentAnalysis.FoolFormatted` | sentiment_analysis.py:64-65 | formatting the Motley Fool pattern gives `https://www.fool.com/search/?q={query}` |
| `SentimentAnalysis.YahooFormatted` | sentiment_analysis.py:78-79 | formatting the Yahoo pattern gives `https://finance.yahoo.com/quote/{query}/news?p={query}` |
| `SentimentAnalysis.TemplatesFormatted` | sentiment_analysis.py:64-79 | both site patterns format to their templates |
| `SentimentAnalysis.FoolSearchUrl` | sentiment_analysis.py:41 | the Motley Fool search url is its fixed prefix followed by the query |
| `SentimentAnalysis.FullArticleUrlAbsolute` | sentiment_analysis.py:56-59 | with an `http` base url every resolved link starts with `http`, and resolving a resolved link again leaves it unchanged |
| `SentimentAnalysis.YahooLinksOnSite` | sentiment_analysis.py:56-80 | every link the Yahoo filter accepts is relative, so it is fetched from `https://finance.yahoo.com/news/` |
| `SentimentAnalysis.FetchTextsSpec` | sentiment_analysis.py:46-53 | fetching fails iff some page fails; otherwise one joined-paragraph text per link, in order |
| `SentimentAnalysis.FetchTextsFails` | sentiment_analysis.py:50 | a failed fetch fails every longer run of fetches |
| `SentimentAnalysis.ScrapeLinks` | sentiment_analysis.py:46-53 | the loop returns the texts of the first `cap` accepted links, or the request error, and never more than `cap` texts |
| `SentimentAnalysis.ScrapeFails` | sentiment_analysis.py:50 | an accepted link whose page cannot be fetched before the cap fails the whole loop |
| `SentimentAnalysis.WebScrapingSentiment.Unconfigured` | sentiment_analysis.py:24-28 | the base class sets none of the three attributes |
| `SentimentAnalysis.WebScrapingSentiment.MotleyFool` | sentiment_analysis.py:61-66 | base `https://www.fool.com`, the formatted template, and a filter that accepts an href iff `/investing/` occurs in it |
| `SentimentAnalysis.WebScrapingSentiment.MsnMoney` | sentiment_analysis.py:68-73 | base `https://www.msn.com`, the MSN template, and a filter that accepts an href iff `money.msn.com` occurs in it |
| `SentimentAnalysis.WebScrapingSentiment.YahooFinance` | sentiment_analysis.py:75-80 | base `https://finance.yahoo.com`, the formatted template, and a filter that accepts an href iff it starts with `/news/` |
| `SentimentAnalysis.WebScrapingSentiment.FetchData` | sentiment_analysis.py:37-54 | not configured, a template that does not format, or a failed search request are errors; otherwise the texts of the first `Cap(count)` accepted links, each fetched at its full article url, or the request error; `Cap(count)` is `count` for `count ≥ 1` and 1 otherwise, since the count is tested only after an append |
| `Trials.Find` | trials.py:14-16 | `item.find(tag)` is the first child with the tag, `None` iff there is none |
| `Trials.ParseRss` | trials.py:10-18 | one record per item, in document order, or `None` iff some item lacks a `title`, `link` or `pubDate` child; each record holds the texts of the item's first such children |
| `Trials.FilterUpcomingTrials` | trials.py:20-27 | `None` iff some date does not parse, otherwise exactly the trials inside the window, in order |
| `Trials.UpcomingMembership` | trials.py:24-26 | a trial is kept iff it is an input trial whose date parses to a time with `now ≤ pubDate ≤ now + days` |
| `Trials.UpcomingInOrder` | trials.py:21-27 | the kept trials are an order-preserving subsequence of the input |
| `Trials.NegativeWindowKeepsNothing` | trials.py:25 | a negative window keeps nothing |

## Left out

- Machine-learning models are parameters: the zero-shot classifier, the sentiment pipelines and `analyze_text`. Their results are uninterpreted.
- Foreign parsers are parameters: BeautifulSoup, `nltk.sent_tokenize`, feedparser and `xml.etree`. Their outputs (paragraph texts, links, sentences, entries, items) are inputs.
- The Selenium driver, `requests`, yfinance, tweepy and praw are parameters or left out. `twitter_*` and `reddit_*` are thin API wrappers and are not part of this model.
- `time.time`, `time.sleep`, `date.today()` and `datetime.now()` are parameters. Blocking is not modelled; `RateLimitedRequest` returns the time it would sleep.
- The interactive CAPTCHA prompt is the supplied function `reloadAfterPrompt`. The CAPTCHA agents and `browser_use_test.py` are not part of this model.
- SQLite and JSON storage are maps of values. Serialisation and the table's creation (`_init_db`) are left out.
- Text is ASCII only: no Unicode word characters, whitespace or case mapping.
- In `is_relevant_to_stock`, a symbol is read as a regular expression with only `.` treated specially. Other metacharacters in a symbol are left out.
- Scores are exact reals; floating-point rounding is left out.
- `Stocks.Round3`: states only that the result is a multiple of 1/1000 within 0.0005 of its argument. The tie-breaking to the even multiple is in the body, not in the contract.
- `Stocks.AverageSentiment`: inherits the gap of `Stocks.Round3`; the tie rule of the rounding is not in its contract.
- `WebSentiment.WebScrapingSentiment.FetchData`: returns `None` where the source raises on a failed search request.
- `WebRetrieval.WebArticleRetrieval.FetchData`: returns `None` where the source raises on a failed search request.
- The page at a url is a fixed function of the url within one run. The model does not capture a server that answers differently each time.
- `str.format` is modelled for plain `{name}` fields and `{{` / `}}` only. Conversions, format specs and attribute or index lookups in fields are left out.
- Default argument values (`count=100`, `count=10`, `days_until_conclusion=30`) are not modelled as defaults. Callers pass the value; `Trials.DefaultDays` records 30.
- A link without an `href` attribute reads as `""`, as `link.get('href', '')` gives.
- The abstract `fetch_data` stubs that raise `NotImplementedError` are not modelled.
- The `info`, `history` and `news` accessors are not modelled; they only read stored data.
- `get_sp500_stocks`, `main.py`, and `fetch_clinical_trials_rss` and `main` in `trials.py` are orchestration over the network and are not modelled.
- The test files are not part of this model.
- The default `requests_per_second=10` of `ArticleRetrieval.__init__` (retrieval/article_retrieval.py:20) is not modelled as a default: the constructor takes the rate as an argument.
- `Trials.FilterUpcomingTrials`: `now` is whole seconds, while `datetime.now()` carries microseconds (trials.py:22). With `now` at 12:00:00.5 and a `pubDate` of 12:00:00 the source drops the trial, but the model, whose `now` is 12:00:00, keeps it.
- `Trials.FilterUpcomingTrials`: `timedelta(days=...)` and the addition to `now` raise `OverflowError` for a window too large for `datetime` (trials.py:25). The model's integers do not overflow, so it has no such error.
