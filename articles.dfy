/** An article as the pipeline stores it: a title, its url and the chunks of
    its text found relevant to a stock, scored by a sentiment analyser. */
module Articles {
  import opened Seqs

  datatype Article = Article(title: string, url: string, chunks: seq<string>)

  /** A sentiment analyser: the score it gives one chunk of text. */
  type Analyzer = string -> real

  /** The analyser applied to each chunk, once per chunk and in chunk order. */
  function ChunkSentiments(a: Article, analyze: Analyzer): (r: seq<real>)
    ensures |r| == |a.chunks|
    ensures forall i :: 0 <= i < |r| ==> r[i] == analyze(a.chunks[i])
  {
    Map(a.chunks, analyze)
  }

  /** The mean chunk sentiment, or 0 for an article without chunks. */
  function SentimentScore(a: Article, analyze: Analyzer): (s: real)
    ensures a.chunks == [] ==> s == 0.0
    ensures a.chunks != [] ==> s * |a.chunks| as real == Sum(ChunkSentiments(a, analyze))
  {
    if a.chunks == [] then 0.0
    else Sum(ChunkSentiments(a, analyze)) / |a.chunks| as real
  }

  /** The score of an article lies between its least and its greatest chunk
      sentiment. */
  lemma ScoreBetween(a: Article, analyze: Analyzer)
    requires a.chunks != []
    ensures Min(ChunkSentiments(a, analyze)) <= SentimentScore(a, analyze) <= Max(ChunkSentiments(a, analyze))
  {
    var xs := ChunkSentiments(a, analyze);
    ScoreWithin(a, analyze, Min(xs), Max(xs));
  }

  /** Bounds on every chunk sentiment bound the score. */
  lemma ScoreWithin(a: Article, analyze: Analyzer, lo: real, hi: real)
    requires a.chunks != []
    requires forall i :: 0 <= i < |a.chunks| ==> lo <= analyze(a.chunks[i]) <= hi
    ensures lo <= SentimentScore(a, analyze) <= hi
  {
    var xs := ChunkSentiments(a, analyze);
    SumBounds(xs, lo, hi);
    MeanBetween(SentimentScore(a, analyze), |xs| as real, Sum(xs), lo, hi);
  }

  /** A mean `m` of `n` values totalling `total` lies between the bounds of
      the total. */
  lemma MeanBetween(m: real, n: real, total: real, lo: real, hi: real)
    requires n > 0.0 && m * n == total && n * lo <= total <= n * hi
    ensures lo <= m <= hi
  {
    assert (m - lo) * n >= 0.0;
    assert (hi - m) * n >= 0.0;
  }

  /** Reordering the chunks does not change the score. */
  lemma ScorePermutation(a: Article, b: Article, analyze: Analyzer)
    requires multiset(a.chunks) == multiset(b.chunks)
    ensures SentimentScore(a, analyze) == SentimentScore(b, analyze)
  {
    SumMapPermutation(a.chunks, b.chunks, analyze);
    assert |a.chunks| == |multiset(a.chunks)| == |b.chunks|;
  }

  /** When the analyser gives every chunk the same score, that is the
      article's score. */
  lemma ScoreUniform(a: Article, analyze: Analyzer, v: real)
    requires a.chunks != []
    requires forall i :: 0 <= i < |a.chunks| ==> analyze(a.chunks[i]) == v
    ensures SentimentScore(a, analyze) == v
  {
    var xs := ChunkSentiments(a, analyze);
    SumBounds(xs, v, v);
  }
}
