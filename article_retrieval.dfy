/** The shared retrieval machinery (`retrieval/article_retrieval.py`): a
    rate-limited, caching page fetcher, the sentence-aware chunker and the
    zero-shot relevance filter that turns a page into the chunks about one
    company.

    The browser, the HTML paragraph extractor, the sentence tokenizer and the
    zero-shot classifier are supplied as functions when the retriever is
    built; the clock is read by the caller and passed in. */
module Retrieval {
  import opened Wrappers
  import opened Strings
  import opened Seqs
  import opened Preprocessing
  import opened Chunking

  /** The company a relevance question is about (`info.symbol`,
      `info.shortName`). */
  datatype EntityInfo = EntityInfo(symbol: string, shortName: string)

  /** A zero-shot classification result: `result['labels']` and
      `result['scores']`, best first. */
  datatype Ranking = Ranking(labels: seq<string>, scores: seq<real>)

  /** `pipeline(text, labels, hypothesis_template=...)`; `None` when the
      pipeline raises. */
  type Classifier = (string, seq<string>, string) -> Option<Ranking>

  /** `self.max_length`: the word budget of a chunk. */
  const MaxLength: nat := 512
  /** The confidence a top label must exceed. */
  const Threshold: real := 0.7
  /** Pages with fewer words than this are never taken for articles. */
  const MinArticleWords: nat := 50

  const ArticleLabels: seq<string> := ["article", "non-article"]
  const ArticleHypothesis: string := "This text is an article."
  const RelevanceHypothesis: string := "This text is about {}."
  const UnrelatedLabel: string := "unrelated company or topic"

  /** `f"{info.shortName} ({info.symbol})"`. */
  function EntityLabel(info: EntityInfo): string {
    info.shortName + " (" + info.symbol + ")"
  }

  function RelevanceLabels(info: EntityInfo): seq<string> {
    [EntityLabel(info), UnrelatedLabel]
  }

  /** `result['labels'][0] == label and result['scores'][0] > 0.7`, with
      `None` for the IndexError an empty list raises. */
  function TopIs(r: Ranking, target: string): (b: Option<bool>)
    ensures b == Some(true) <==> |r.labels| > 0 && |r.scores| > 0 && r.labels[0] == target && r.scores[0] > Threshold
    ensures b == None <==> |r.labels| == 0 || (r.labels[0] == target && |r.scores| == 0)
  {
    if |r.labels| == 0 then None
    else if r.labels[0] != target then Some(false)
    else if |r.scores| == 0 then None
    else Some(r.scores[0] > Threshold)
  }

  /** Asks the classifier whether `text` is best described by `labels[0]`;
      `None` when the call or the indexing raises. */
  function Verdict(classify: Classifier, text: string, labels: seq<string>, hypothesis: string): Option<bool>
    requires labels != []
  {
    match classify(text, labels, hypothesis)
    case None => None
    case Some(r) => TopIs(r, labels[0])
  }

  /** `' '.join([p.get_text() for p in soup.find_all('p')])`. */
  function ParagraphText(paragraphs: string -> seq<string>, page: string): string {
    Join(paragraphs(page), " ")
  }

  /** `_is_article_page`: at least 50 words of paragraph text, and the
      classifier ranks "article" first with confidence above 0.7; an error
      counts as "not an article". */
  function IsArticlePage(paragraphs: string -> seq<string>, classify: Classifier, page: string): (b: bool)
    ensures WordCount(ParagraphText(paragraphs, page)) < MinArticleWords ==> !b
    ensures Verdict(classify, ParagraphText(paragraphs, page), ArticleLabels, ArticleHypothesis) == None ==> !b
    ensures b <==> WordCount(ParagraphText(paragraphs, page)) >= MinArticleWords &&
                   classify(ParagraphText(paragraphs, page), ArticleLabels, ArticleHypothesis).Some? &&
                   var r := classify(ParagraphText(paragraphs, page), ArticleLabels, ArticleHypothesis).value;
                   |r.labels| > 0 && |r.scores| > 0 && r.labels[0] == "article" && r.scores[0] > Threshold
  {
    var text := ParagraphText(paragraphs, page);
    if WordCount(text) < MinArticleWords then false
    else Verdict(classify, text, ArticleLabels, ArticleHypothesis) == Some(true)
  }

  /** True when the classifier confidently puts `chunk` about the entity. */
  function Relevant(classify: Classifier, info: EntityInfo, chunk: string): Option<bool> {
    Verdict(classify, chunk, RelevanceLabels(info), RelevanceHypothesis)
  }

  /** The loop of `extract_relevant_chunks` over the chunks: the relevant
      ones in order, or `None` as soon as one classification raises. */
  function ClassifyAll(classify: Classifier, info: EntityInfo, chunks: seq<string>): Option<seq<string>>
    decreases |chunks|
  {
    if chunks == [] then Some([])
    else
      match ClassifyAll(classify, info, chunks[..|chunks| - 1])
      case None => None
      case Some(kept) =>
        var c := chunks[|chunks| - 1];
        match Relevant(classify, info, c)
        case None => None
        case Some(true) => Some(kept + [c])
        case Some(false) => Some(kept)
  }

  /** `extract_relevant_chunks(text, info)`: normalise, chunk, and keep the
      chunks the classifier confidently attributes to the entity; any error
      yields no chunks. */
  function RelevantChunks(tokenize: string -> seq<string>, classify: Classifier, text: string, info: EntityInfo): seq<string> {
    var chunks := Chunks(tokenize(Preprocess(text)), MaxLength);
    if chunks == [] then []
    else
      match ClassifyAll(classify, info, chunks)
      case None => []
      case Some(kept) => kept
  }

  /** The predicate a chunk must satisfy to be kept. */
  function IsRelevant(classify: Classifier, info: EntityInfo): string -> bool {
    c => Relevant(classify, info, c) == Some(true)
  }

  /** The classification loop fails exactly when some chunk's classification
      raises, and otherwise keeps exactly the relevant chunks, in order. */
  lemma {:induction false} ClassifyAllIsFilter(classify: Classifier, info: EntityInfo, chunks: seq<string>)
    ensures ClassifyAll(classify, info, chunks) == None <==>
      exists i :: 0 <= i < |chunks| && Relevant(classify, info, chunks[i]) == None
    ensures ClassifyAll(classify, info, chunks) != None ==>
      ClassifyAll(classify, info, chunks) == Some(Filter(chunks, IsRelevant(classify, info)))
    decreases |chunks|
  {
    if chunks != [] {
      var init, c := chunks[..|chunks| - 1], chunks[|chunks| - 1];
      assert chunks == init + [c];
      ClassifyAllIsFilter(classify, info, init);
      FilterSnoc(init, c, IsRelevant(classify, info));
      assert forall i :: 0 <= i < |init| ==> init[i] == chunks[i];
      if ClassifyAll(classify, info, init) == None {
        var i :| 0 <= i < |init| && Relevant(classify, info, init[i]) == None;
        assert chunks[i] == init[i];
      }
    }
  }

  /** `extract_relevant_chunks` returns exactly the relevant chunks of the
      normalised text, in order, or nothing when any classification fails. */
  lemma RelevantChunksSpec(tokenize: string -> seq<string>, classify: Classifier, text: string, info: EntityInfo)
    ensures var chunks := Chunks(tokenize(Preprocess(text)), MaxLength);
      RelevantChunks(tokenize, classify, text, info) ==
        if exists i :: 0 <= i < |chunks| && Relevant(classify, info, chunks[i]) == None then []
        else Filter(chunks, IsRelevant(classify, info))
  {
    var chunks := Chunks(tokenize(Preprocess(text)), MaxLength);
    ClassifyAllIsFilter(classify, info, chunks);
  }

  /** Once a prefix of the chunks fails to classify, the whole loop fails. */
  lemma {:induction false} ClassifyAllFails(classify: Classifier, info: EntityInfo, chunks: seq<string>, n: nat)
    requires n <= |chunks|
    requires ClassifyAll(classify, info, chunks[..n]) == None
    ensures ClassifyAll(classify, info, chunks) == None
    decreases |chunks| - n
  {
    if n < |chunks| {
      var init := chunks[..|chunks| - 1];
      assert init[..n] == chunks[..n];
      ClassifyAllFails(classify, info, init, n);
    } else {
      assert chunks[..n] == chunks;
    }
  }

  /** One turn of the classification loop. */
  lemma ClassifyStep(classify: Classifier, info: EntityInfo, chunks: seq<string>, i: nat, kept: seq<string>)
    requires i < |chunks| && ClassifyAll(classify, info, chunks[..i]) == Some(kept)
    ensures Relevant(classify, info, chunks[i]) == None ==> ClassifyAll(classify, info, chunks[..i + 1]) == None
    ensures Relevant(classify, info, chunks[i]) == Some(true) ==> ClassifyAll(classify, info, chunks[..i + 1]) == Some(kept + [chunks[i]])
    ensures Relevant(classify, info, chunks[i]) == Some(false) ==> ClassifyAll(classify, info, chunks[..i + 1]) == Some(kept)
  {
    SliceSnoc(chunks, i);
    assert (chunks[..i] + [chunks[i]])[..i] == chunks[..i];
  }

  /** `1.0 / requests_per_second if requests_per_second > 0 else 0`. */
  function DelayFor(requestsPerSecond: real): (d: real)
    ensures d >= 0.0
    ensures requestsPerSecond > 0.0 ==> d * requestsPerSecond == 1.0
    ensures requestsPerSecond <= 0.0 ==> d == 0.0
  {
    if requestsPerSecond > 0.0 then 1.0 / requestsPerSecond else 0.0
  }

  /** The sleep before an uncached request: the remainder of the delay. */
  function WaitFor(delay: real, sinceLast: real): (w: real)
    ensures w >= 0.0
    ensures sinceLast + w >= delay
    ensures sinceLast >= delay ==> w == 0.0
    ensures sinceLast < delay ==> sinceLast + w == delay
  {
    if sinceLast < delay then delay - sinceLast else 0.0
  }

  /** What a retriever carries from one request to the next: `_url_cache`
      and `last_request_time`. */
  datatype Session = Session(cache: map<string, string>, lastRequest: real)

  /** One page request: the url and the clock reading once the browser has
      finished loading it. */
  type Request = (string, real)

  /** Some request of the run is for `url`. */
  predicate Requested(requests: seq<Request>, url: string) {
    exists k :: 0 <= k < |requests| && requests[k].0 == url
  }

  lemma RequestedSnoc(requests: seq<Request>, r: Request)
    ensures forall u :: Requested(requests + [r], u) <==> Requested(requests, u) || r.0 == u
  {
    var rs := requests + [r];
    forall u | Requested(rs, u) && r.0 != u ensures Requested(requests, u) {
      var k :| 0 <= k < |rs| && rs[k].0 == u;
      assert requests[k].0 == u;
    }
    forall u | Requested(requests, u) ensures Requested(rs, u) {
      var k :| 0 <= k < |requests| && requests[k].0 == u;
      assert rs[k].0 == u;
    }
    assert rs[|requests|] == r;
  }

  class ArticleRetrieval {
    /** `driver.get(url)` then `driver.page_source`; `None` when the browser raises. */
    const load: string -> Option<string>
    /** `driver.page_source` read again once the operator has answered the CAPTCHA prompt. */
    const reloadAfterPrompt: string -> string
    /** The texts of the page's `<p>` elements. */
    const paragraphs: string -> seq<string>
    /** `nltk.sent_tokenize`. */
    const tokenize: string -> seq<string>
    /** The zero-shot classification pipeline. */
    const classify: Classifier
    /** Minimum seconds between two uncached requests. */
    const delay: real

    var lastRequestTime: real
    /** `_url_cache`: page source by url, for this retriever only. */
    var urlCache: map<string, string>

    /** The page a request for `url` ends with: the loaded page, or the page
        after the CAPTCHA prompt when the loaded one is not an article. */
    function Browse(url: string): Option<string> {
      match load(url)
      case None => None
      case Some(page) =>
        Some(if IsArticlePage(paragraphs, classify, page) then page else reloadAfterPrompt(url))
    }

    function State(): Session
      reads this
    {
      Session(urlCache, lastRequestTime)
    }

    /** The session after `_rate_limited_request(url)` when the browser
        finishes at `doneAt`: a cache hit changes nothing, a load that
        raises changes nothing, and a load that succeeds caches the page
        and records the time. */
    function AfterRequest(s: Session, url: string, doneAt: real): Session {
      if url in s.cache then s
      else
        match Browse(url)
        case None => s
        case Some(page) => Session(s.cache[url := page], doneAt)
    }

    /** The session after a run of requests, made in order. */
    function AfterRequests(s: Session, requests: seq<Request>): Session
      decreases |requests|
    {
      if requests == [] then s
      else
        var r := requests[|requests| - 1];
        AfterRequest(AfterRequests(s, requests[..|requests| - 1]), r.0, r.1)
    }

    lemma AfterRequestsSnoc(s: Session, requests: seq<Request>, r: Request)
      ensures AfterRequests(s, requests + [r]) == AfterRequest(AfterRequests(s, requests), r.0, r.1)
    {
      assert (requests + [r])[..|requests|] == requests;
    }

    /** One request keeps the cached pages and adds at most its own url,
        holding the page the request produces. */
    lemma AfterRequestCache(s: Session, url: string, doneAt: real)
      ensures var t := AfterRequest(s, url, doneAt);
        && (forall u :: u in s.cache ==> u in t.cache && t.cache[u] == s.cache[u])
        && (forall u :: u in t.cache <==> u in s.cache || (u == url && Browse(u).Some?))
        && (forall u :: u in t.cache && u !in s.cache ==> Browse(u) == Some(t.cache[u]))
    {
    }

    /** Over a run of requests the cache only grows: cached pages stay as
        they were, and every page gained is the one a request for its url
        produces. */
    lemma {:induction false} AfterRequestsGrows(s: Session, requests: seq<Request>)
      ensures var t := AfterRequests(s, requests);
        && (forall u :: u in s.cache ==> u in t.cache && t.cache[u] == s.cache[u])
        && (forall u :: u in t.cache && u !in s.cache ==> Browse(u) == Some(t.cache[u]))
      decreases |requests|
    {
      if requests != [] {
        var init, r := requests[..|requests| - 1], requests[|requests| - 1];
        AfterRequestsGrows(s, init);
        AfterRequestCache(AfterRequests(s, init), r.0, r.1);
      }
    }

    /** The urls a run of requests adds to the cache are exactly the
        requested ones whose page loads. */
    lemma {:induction false} AfterRequestsKeys(s: Session, requests: seq<Request>)
      ensures forall u :: u in AfterRequests(s, requests).cache <==>
        u in s.cache || (Browse(u).Some? && Requested(requests, u))
      decreases |requests|
    {
      if requests != [] {
        var init, r := requests[..|requests| - 1], requests[|requests| - 1];
        AfterRequestsKeys(s, init);
        AfterRequestCache(AfterRequests(s, init), r.0, r.1);
        RequestedSnoc(init, r);
        assert init + [r] == requests;
      }
    }

    /** After a run of requests the last request time is the old one or the
        reading of one of the requests. */
    lemma {:induction false} AfterRequestsLastTime(s: Session, requests: seq<Request>)
      ensures var t := AfterRequests(s, requests);
        t.lastRequest == s.lastRequest || exists k :: 0 <= k < |requests| && t.lastRequest == requests[k].1
      decreases |requests|
    {
      if requests != [] {
        var init := requests[..|requests| - 1];
        AfterRequestsLastTime(s, init);
        assert forall k :: 0 <= k < |init| ==> init[k] == requests[k];
        var t0 := AfterRequests(s, init);
        var r := requests[|requests| - 1];
        if r.0 !in t0.cache && Browse(r.0).Some? {
          assert AfterRequests(s, requests).lastRequest == requests[|init|].1;
        }
      }
    }

    /** Every cached page is the one a request for its url produces. */
    ghost predicate Valid()
      reads this
    {
      && delay >= 0.0
      && forall u :: u in urlCache ==> Some(urlCache[u]) == Browse(u)
    }

    constructor (requestsPerSecond: real,
                 load: string -> Option<string>, reloadAfterPrompt: string -> string,
                 paragraphs: string -> seq<string>, tokenize: string -> seq<string>,
                 classify: Classifier)
      ensures Valid()
      ensures delay == DelayFor(requestsPerSecond) && lastRequestTime == 0.0 && urlCache == map[]
      ensures this.load == load && this.reloadAfterPrompt == reloadAfterPrompt
      ensures this.paragraphs == paragraphs && this.tokenize == tokenize && this.classify == classify
    {
      this.load := load;
      this.reloadAfterPrompt := reloadAfterPrompt;
      this.paragraphs := paragraphs;
      this.tokenize := tokenize;
      this.classify := classify;
      delay := DelayFor(requestsPerSecond);
      lastRequestTime := 0.0;
      urlCache := map[];
    }

    /** `_rate_limited_request(url)` called at time `now`; `doneAt` is the
        clock reading once the browser has finished. Returns the page (or
        `None` when the browser raised) and the time slept. */
    method RateLimitedRequest(url: string, now: real, doneAt: real) returns (page: Option<string>, wait: real)
      requires Valid()
      modifies this
      ensures Valid()
      ensures page == Browse(url)
      ensures url in old(urlCache) ==>
        wait == 0.0 && page == Some(old(urlCache)[url]) &&
        urlCache == old(urlCache) && lastRequestTime == old(lastRequestTime)
      ensures url !in old(urlCache) ==> wait == WaitFor(delay, now - old(lastRequestTime))
      ensures url !in old(urlCache) && page.Some? ==>
        urlCache == old(urlCache)[url := page.value] && lastRequestTime == doneAt
      ensures url !in old(urlCache) && page.None? ==>
        urlCache == old(urlCache) && lastRequestTime == old(lastRequestTime)
      ensures State() == AfterRequest(old(State()), url, doneAt)
    {
      if url in urlCache {
        return Some(urlCache[url]), 0.0;
      }
      wait := WaitFor(delay, now - lastRequestTime);
      var loaded := load(url);
      if loaded.None? {
        return None, wait;
      }
      var source := loaded.value;
      lastRequestTime := doneAt;
      if !IsArticlePage(paragraphs, classify, source) {
        source := reloadAfterPrompt(url);
      }
      urlCache := urlCache[url := source];
      page := Some(source);
    }

    /** `chunk_text` on the tokenizer's sentences. */
    method ChunkText(sentences: seq<string>) returns (chunks: seq<string>)
      ensures chunks == Chunks(sentences, MaxLength)
    {
      chunks := [];
      var current: seq<string> := [];
      var currentLength: nat := 0;
      for i := 0 to |sentences|
        invariant Pack(sentences[..i], MaxLength) == Packing(Pack(sentences[..i], MaxLength).closed, current, currentLength)
        invariant chunks == JoinEach(Pack(sentences[..i], MaxLength).closed)
      {
        assert sentences[..i + 1][..i] == sentences[..i];
        var sentence := sentences[i];
        var sentenceLength := WordCount(sentence);
        if currentLength + sentenceLength <= MaxLength {
          current := current + [sentence];
          currentLength := currentLength + sentenceLength;
        } else {
          if current != [] {
            chunks := chunks + [Join(current, " ")];
          }
          current := [sentence];
          currentLength := sentenceLength;
        }
      }
      assert sentences[..|sentences|] == sentences;
      if current != [] {
        chunks := chunks + [Join(current, " ")];
      }
    }

    /** `extract_relevant_chunks(text, info)`. */
    method ExtractRelevantChunks(text: string, info: EntityInfo) returns (relevant: seq<string>)
      ensures relevant == RelevantChunks(tokenize, classify, text, info)
    {
      var chunks := ChunkText(tokenize(Preprocess(text)));
      if chunks == [] {
        return [];
      }
      var labels := RelevanceLabels(info);
      relevant := [];
      for i := 0 to |chunks|
        invariant ClassifyAll(classify, info, chunks[..i]) == Some(relevant)
      {
        ClassifyStep(classify, info, chunks, i, relevant);
        var result := classify(chunks[i], labels, RelevanceHypothesis);
        if result.None? {
          ClassifyAllFails(classify, info, chunks, i + 1);
          return [];
        }
        var top := TopIs(result.value, labels[0]);
        if top.None? {
          ClassifyAllFails(classify, info, chunks, i + 1);
          return [];
        }
        if top.value {
          relevant := relevant + [chunks[i]];
        }
      }
      SliceAll(chunks);
    }

    /** The chunks `get_link_relevant_chunks` finds at `link`. */
    function LinkRelevantChunks(link: string, info: EntityInfo): seq<string> {
      match Browse(link)
      case None => []
      case Some(page) =>
        var text := ParagraphText(paragraphs, page);
        if text == "" then [] else RelevantChunks(tokenize, classify, text, info)
    }

    /** `get_link_relevant_chunks` for a fixed company, as a function of the
        link: the form the article-list functions of the sources take. */
    function Finder(info: EntityInfo): (find: string -> seq<string>)
      ensures forall link :: find(link) == LinkRelevantChunks(link, info)
    {
      link => LinkRelevantChunks(link, info)
    }

    /** `get_link_relevant_chunks(link, info)` at time `now`, the browser
        finishing at `doneAt`. */
    method GetLinkRelevantChunks(link: string, info: EntityInfo, now: real, doneAt: real) returns (chunks: seq<string>)
      requires Valid()
      modifies this
      ensures Valid()
      ensures chunks == LinkRelevantChunks(link, info)
      ensures urlCache == if Browse(link).Some? then old(urlCache)[link := Browse(link).value] else old(urlCache)
      ensures State() == AfterRequest(old(State()), link, doneAt)
    {
      var page, _ := RateLimitedRequest(link, now, doneAt);
      if page.None? {
        return [];
      }
      var text := ParagraphText(paragraphs, page.value);
      if text == "" {
        return [];
      }
      chunks := ExtractRelevantChunks(text, info);
    }
  }
}
