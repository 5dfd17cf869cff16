/** The specification of the sentence-aware chunker
    (`ArticleRetrieval.chunk_text`): sentences are packed greedily, in order,
    into chunks whose word count stays within a budget; a sentence is never
    split, so one that alone exceeds the budget forms a chunk of its own. */
module Chunking {
  import opened Strings
  import opened Seqs

  /** The chunker's loop state: the closed chunks (as sentence groups), the
      sentences of the open chunk and its running word count. */
  datatype Packing = Packing(closed: seq<seq<string>>, current: seq<string>, length: nat)

  /** The loop state after the given sentences have been processed. */
  function Pack(sentences: seq<string>, maxLength: nat): Packing
    decreases |sentences|
  {
    if sentences == [] then Packing([], [], 0)
    else
      var p := Pack(sentences[..|sentences| - 1], maxLength);
      var s := sentences[|sentences| - 1];
      var n := WordCount(s);
      if p.length + n <= maxLength then Packing(p.closed, p.current + [s], p.length + n)
      else Packing(p.closed + (if p.current != [] then [p.current] else []), [s], n)
  }

  /** The sentence groups that become chunks: the closed ones, then the open
      one if it holds anything. */
  function Groups(sentences: seq<string>, maxLength: nat): seq<seq<string>> {
    var p := Pack(sentences, maxLength);
    p.closed + (if p.current != [] then [p.current] else [])
  }

  /** Each group joined with single spaces. */
  function JoinEach(groups: seq<seq<string>>): (r: seq<string>)
    ensures |r| == |groups|
    ensures forall k :: 0 <= k < |r| ==> r[k] == Join(groups[k], " ")
  {
    seq(|groups|, k requires 0 <= k < |groups| => Join(groups[k], " "))
  }

  /** What `chunk_text` returns for the sentences the tokenizer produced. */
  function Chunks(sentences: seq<string>, maxLength: nat): seq<string> {
    JoinEach(Groups(sentences, maxLength))
  }

  /** Total word count of a group of sentences. */
  function SumWords(g: seq<string>): nat
    decreases |g|
  {
    if g == [] then 0 else SumWords(g[..|g| - 1]) + WordCount(g[|g| - 1])
  }

  /** A group that fits the budget, or a single sentence. */
  predicate WithinBudget(g: seq<string>, maxLength: nat) {
    SumWords(g) <= maxLength || |g| == 1
  }

  /** The chunk `a` was closed because the first sentence of `b` did not fit. */
  predicate ClosedForNext(a: seq<string>, b: seq<string>, maxLength: nat) {
    b != [] && SumWords(a) + WordCount(b[0]) > maxLength
  }

  predicate AllNonEmpty(gs: seq<seq<string>>) {
    forall k :: 0 <= k < |gs| ==> gs[k] != []
  }

  predicate AllWithinBudget(gs: seq<seq<string>>, maxLength: nat) {
    forall k :: 0 <= k < |gs| ==> WithinBudget(gs[k], maxLength)
  }

  /** Every group but the last was closed because of its successor. */
  predicate Greedy(gs: seq<seq<string>>, maxLength: nat) {
    forall k :: 0 <= k < |gs| - 1 ==> ClosedForNext(gs[k], gs[k + 1], maxLength)
  }

  /** The properties the packing loop maintains. */
  predicate PackingInvariant(p: Packing, sentences: seq<string>, maxLength: nat) {
    && AllNonEmpty(p.closed)
    && Flatten(p.closed) + p.current == sentences
    && p.length == SumWords(p.current)
    && AllWithinBudget(p.closed, maxLength)
    && WithinBudget(p.current, maxLength)
    && Greedy(p.closed, maxLength)
    && (p.closed != [] ==> ClosedForNext(p.closed[|p.closed| - 1], p.current, maxLength))
    && (sentences != [] ==> p.current != [])
  }

  lemma SumWordsSnoc(g: seq<string>, s: string)
    ensures SumWords(g + [s]) == SumWords(g) + WordCount(s)
  {
    assert (g + [s])[..|g|] == g;
  }

  lemma GroupsSnoc(gs: seq<seq<string>>, g: seq<string>, maxLength: nat)
    requires AllNonEmpty(gs) && AllWithinBudget(gs, maxLength) && Greedy(gs, maxLength)
    requires g != [] && WithinBudget(g, maxLength)
    requires gs != [] ==> ClosedForNext(gs[|gs| - 1], g, maxLength)
    ensures AllNonEmpty(gs + [g]) && AllWithinBudget(gs + [g], maxLength) && Greedy(gs + [g], maxLength)
  {
    var q := gs + [g];
    forall k | 0 <= k < |q| - 1 ensures ClosedForNext(q[k], q[k + 1], maxLength) {
      if k < |gs| - 1 {
        assert q[k] == gs[k] && q[k + 1] == gs[k + 1];
      } else {
        assert q[k] == gs[|gs| - 1] && q[k + 1] == g;
      }
    }
  }

  /** Adding a sentence to the open chunk keeps the invariant. */
  lemma StepExtend(p: Packing, done: seq<string>, s: string, maxLength: nat)
    requires PackingInvariant(p, done, maxLength)
    requires p.length + WordCount(s) <= maxLength
    ensures PackingInvariant(Packing(p.closed, p.current + [s], p.length + WordCount(s)), done + [s], maxLength)
  {
    SumWordsSnoc(p.current, s);
    assert Flatten(p.closed) + (p.current + [s]) == (Flatten(p.closed) + p.current) + [s];
    assert p.current != [] ==> (p.current + [s])[0] == p.current[0];
  }

  /** Closing the open chunk and starting a new one keeps the invariant. */
  lemma StepClose(p: Packing, done: seq<string>, s: string, maxLength: nat)
    requires PackingInvariant(p, done, maxLength)
    requires p.length + WordCount(s) > maxLength
    ensures PackingInvariant(
      Packing(p.closed + (if p.current != [] then [p.current] else []), [s], WordCount(s)),
      done + [s], maxLength)
  {
    assert SumWords([s]) == WordCount(s) by { SumWordsSnoc([], s); }
    if p.current != [] {
      FlattenSnoc(p.closed, p.current);
      GroupsSnoc(p.closed, p.current, maxLength);
    }
  }

  lemma {:induction false} PackKeepsInvariant(sentences: seq<string>, maxLength: nat)
    ensures PackingInvariant(Pack(sentences, maxLength), sentences, maxLength)
    decreases |sentences|
  {
    if sentences != [] {
      var prefix := sentences[..|sentences| - 1];
      var s := sentences[|sentences| - 1];
      assert prefix + [s] == sentences;
      PackKeepsInvariant(prefix, maxLength);
      var p := Pack(prefix, maxLength);
      if p.length + WordCount(s) <= maxLength {
        StepExtend(p, prefix, s, maxLength);
      } else {
        StepClose(p, prefix, s, maxLength);
      }
    }
  }

  // ---------------------------------------------------------------------
  // Properties of the chunker's result
  // ---------------------------------------------------------------------

  /** The groups partition the sentences: contiguous, in order, none empty,
      and there are none exactly when there are no sentences. */
  lemma GroupsPartition(sentences: seq<string>, maxLength: nat)
    ensures var gs := Groups(sentences, maxLength);
      && Flatten(gs) == sentences
      && (forall k :: 0 <= k < |gs| ==> gs[k] != [])
      && (gs == [] <==> sentences == [])
  {
    var p := Pack(sentences, maxLength);
    PackKeepsInvariant(sentences, maxLength);
    if p.current != [] {
      FlattenSnoc(p.closed, p.current);
    }
  }

  /** Every group fits the budget unless it is a single sentence; hence a
      sentence longer than the budget always stands alone. */
  lemma GroupsWithinBudget(sentences: seq<string>, maxLength: nat)
    ensures var gs := Groups(sentences, maxLength);
      forall k :: 0 <= k < |gs| ==> SumWords(gs[k]) <= maxLength || |gs[k]| == 1
  {
    var p := Pack(sentences, maxLength);
    PackKeepsInvariant(sentences, maxLength);
    if p.current != [] {
      GroupsSnoc(p.closed, p.current, maxLength);
    }
    assert AllWithinBudget(Groups(sentences, maxLength), maxLength);
  }

  /** Greedy packing: a chunk is closed only because the next sentence would
      have taken it over the budget. */
  lemma GroupsGreedy(sentences: seq<string>, maxLength: nat)
    ensures var gs := Groups(sentences, maxLength);
      forall k :: 0 <= k < |gs| - 1 ==> ClosedForNext(gs[k], gs[k + 1], maxLength)
  {
    var p := Pack(sentences, maxLength);
    PackKeepsInvariant(sentences, maxLength);
    if p.current != [] {
      GroupsSnoc(p.closed, p.current, maxLength);
    }
  }

  // ---------------------------------------------------------------------
  // From sentence groups to chunk strings
  // ---------------------------------------------------------------------

  lemma {:induction false} JoinAppend(a: seq<string>, b: seq<string>)
    requires a != [] && b != []
    ensures Join(a + b, " ") == Join(a, " ") + " " + Join(b, " ")
  {
    if |a| > 1 {
      assert (a + b)[1..] == a[1..] + b;
      JoinAppend(a[1..], b);
    }
  }

  /** A chunk has exactly the words of its sentences. */
  lemma {:induction false} ChunkWordCount(g: seq<string>)
    ensures WordCount(Join(g, " ")) == SumWords(g)
    decreases |g|
  {
    if |g| > 1 {
      var init := g[..|g| - 1];
      JoinAppend(init, [g[|g| - 1]]);
      assert init + [g[|g| - 1]] == g;
      ChunkWordCount(init);
      WordCountJoin(Join(init, " "), g[|g| - 1]);
    } else if |g| == 1 {
      assert g[..0] == [];
    }
  }

  lemma {:induction false} JoinFlatten(gs: seq<seq<string>>)
    requires forall k :: 0 <= k < |gs| ==> gs[k] != []
    ensures Join(JoinEach(gs), " ") == Join(Flatten(gs), " ")
    decreases |gs|
  {
    if |gs| > 1 {
      var init := gs[..|gs| - 1];
      var last := gs[|gs| - 1];
      JoinFlatten(init);
      assert JoinEach(gs) == JoinEach(init) + [Join(last, " ")];
      JoinAppend(JoinEach(init), [Join(last, " ")]);
      assert Flatten(init) != [] by { FlattenNonEmpty(init); }
      JoinAppend(Flatten(init), last);
    } else if |gs| == 1 {
      assert gs[..0] == [];
      assert Flatten(gs) == gs[0];
    }
  }

  lemma {:induction false} FlattenNonEmpty(gs: seq<seq<string>>)
    requires gs != [] && forall k :: 0 <= k < |gs| ==> gs[k] != []
    ensures Flatten(gs) != []
  {
  }

  /** Space-joining the chunks gives back the space-joined sentences. */
  lemma ChunksRejoin(sentences: seq<string>, maxLength: nat)
    ensures Join(Chunks(sentences, maxLength), " ") == Join(sentences, " ")
  {
    GroupsPartition(sentences, maxLength);
    JoinFlatten(Groups(sentences, maxLength));
  }

  /** Every chunk's word count is within the budget, unless the chunk is one
      sentence that alone exceeds it. */
  lemma ChunksWithinBudget(sentences: seq<string>, maxLength: nat)
    ensures var cs := Chunks(sentences, maxLength);
      forall k :: 0 <= k < |cs| ==> WordCount(cs[k]) <= maxLength || cs[k] in sentences
  {
    var gs := Groups(sentences, maxLength);
    GroupsWithinBudget(sentences, maxLength);
    GroupsPartition(sentences, maxLength);
    forall k | 0 <= k < |gs| ensures WordCount(Join(gs[k], " ")) <= maxLength || Join(gs[k], " ") in sentences {
      ChunkWordCount(gs[k]);
      if |gs[k]| == 1 {
        FlattenContains(gs, k);
        assert Join(gs[k], " ") == gs[k][0];
      }
    }
  }

  lemma {:induction false} FlattenContains(gs: seq<seq<string>>, k: nat)
    requires k < |gs| && gs[k] != []
    ensures gs[k][0] in Flatten(gs)
    decreases |gs|
  {
    if k < |gs| - 1 {
      FlattenContains(gs[..|gs| - 1], k);
    }
  }

  /** There are no chunks exactly when there are no sentences. */
  lemma ChunksEmpty(sentences: seq<string>, maxLength: nat)
    ensures Chunks(sentences, maxLength) == [] <==> sentences == []
  {
    GroupsPartition(sentences, maxLength);
  }
}
