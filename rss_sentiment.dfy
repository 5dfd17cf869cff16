/** The older RSS keyword source (`rss_sentiment.RSSFeedSentiment`): the
    texts of today's feed entries that mention the stock symbol as a whole
    word, up to a count. */
module RssSentiment {
  import opened Wrappers
  import opened Strings
  import opened Seqs
  import opened Dates
  import opened Feeds

  /** `\b` at position `p`: a word character on exactly one side. */
  predicate Boundary(s: string, p: int)
    requires 0 <= p <= |s|
  {
    (p > 0 && IsWordChar(s[p - 1])) != (p < |s| && IsWordChar(s[p]))
  }

  /** One pattern character against one text character under
      `re.IGNORECASE`: `.` matches anything but a newline; any other
      character matches itself in either case. */
  predicate CharMatches(pc: char, c: char) {
    if pc == '.' then c != '\n' else LowerChar(pc) == LowerChar(c)
  }

  /** The pattern `\b{symbol}\b` matches `s` starting at `i`. */
  predicate MatchesAt(s: string, symbol: string, i: int) {
    && 0 <= i && i + |symbol| <= |s|
    && Boundary(s, i) && Boundary(s, i + |symbol|)
    && forall j :: 0 <= j < |symbol| ==> CharMatches(symbol[j], s[i + j])
  }

  /** `pattern.search(s) is not None`, trying the start positions from `i`
      on, as the regular-expression engine does. */
  function SearchFrom(s: string, symbol: string, i: nat): (b: bool)
    ensures b <==> exists j :: i <= j && MatchesAt(s, symbol, j)
    decreases |s| - i
  {
    if i + |symbol| > |s| then false
    else if MatchesAt(s, symbol, i) then true
    else
      var b := SearchFrom(s, symbol, i + 1);
      assert forall j :: i <= j && MatchesAt(s, symbol, j) ==> j == i || i + 1 <= j;
      b
  }

  function Search(s: string, symbol: string): (b: bool)
    ensures b <==> exists j :: MatchesAt(s, symbol, j)
  {
    SearchFrom(s, symbol, 0)
  }

  /** `is_relevant_to_stock(title, description, symbol)`. */
  function IsRelevantToStock(title: string, description: string, symbol: string): (b: bool)
    ensures b <==> (exists j :: MatchesAt(title, symbol, j)) || (exists j :: MatchesAt(description, symbol, j))
  {
    Search(title, symbol) || Search(description, symbol)
  }

  /** A symbol occurring as a whole word, in any case, makes a text
      relevant. */
  lemma WholeWordIsRelevant(before: string, word: string, after: string, symbol: string)
    requires |word| == |symbol| && symbol != []
    requires forall j :: 0 <= j < |word| ==> IsWordChar(word[j]) && IsWordChar(symbol[j])
    requires forall j :: 0 <= j < |word| ==> LowerChar(word[j]) == LowerChar(symbol[j])
    requires before == [] || !IsWordChar(before[|before| - 1])
    requires after == [] || !IsWordChar(after[0])
    ensures IsRelevantToStock(before + word + after, "", symbol)
  {
    var s := before + word + after;
    var i := |before|;
    assert Boundary(s, i) by {
      assert s[i] == word[0];
      assert i > 0 ==> s[i - 1] == before[|before| - 1];
    }
    assert Boundary(s, i + |word|) by {
      assert i + |word| < |s| ==> s[i + |word|] == after[0];
      assert s[i + |word| - 1] == word[|word| - 1];
    }
    forall j | 0 <= j < |symbol| ensures CharMatches(symbol[j], s[i + j]) {
      assert s[i + j] == word[j];
      assert symbol[j] != '.';
    }
    assert MatchesAt(s, symbol, i);
  }

  /** A symbol of word characters glued to a further word character is not
      a whole-word match there. */
  lemma NoMatchInsideWord(s: string, symbol: string, i: int)
    requires 0 <= i && i + |symbol| < |s| && symbol != []
    requires IsWordChar(symbol[|symbol| - 1]) && IsWordChar(s[i + |symbol|])
    requires CharMatches(symbol[|symbol| - 1], s[i + |symbol| - 1])
    ensures !MatchesAt(s, symbol, i)
  {
    var c := s[i + |symbol| - 1];
    var pc := symbol[|symbol| - 1];
    assert LowerChar(pc) == LowerChar(c);
    assert IsWordChar(LowerChar(pc));
  }

  /** The text kept for an entry: `f"{title}. {description}"`. */
  function EntryText(e: FeedEntry): string {
    e.title + ". " + e.description
  }

  /** An entry whose text is kept: published today and mentioning the
      symbol. */
  predicate Kept(e: FeedEntry, symbol: string, today: Date) {
    PublishedTest(today)(e) && IsRelevantToStock(e.title, e.description, symbol)
  }

  /** The texts of all kept entries, in feed order. */
  function RelevantTexts(entries: seq<FeedEntry>, symbol: string, today: Date): seq<string> {
    Map(Filter(entries, e => Kept(e, symbol, today)), EntryText)
  }

  lemma RelevantTextsAppend(a: seq<FeedEntry>, b: seq<FeedEntry>, symbol: string, today: Date)
    ensures RelevantTexts(a + b, symbol, today) == RelevantTexts(a, symbol, today) + RelevantTexts(b, symbol, today)
  {
    var keep := e => Kept(e, symbol, today);
    FilterAppend(a, b, keep);
    MapAppend(Filter(a, keep), Filter(b, keep), EntryText);
  }

  /** Every kept text is the title, ". " and the description of an entry
      of today that mentions the symbol. */
  lemma RelevantTextsSound(entries: seq<FeedEntry>, symbol: string, today: Date, k: int)
    requires 0 <= k < |RelevantTexts(entries, symbol, today)|
    ensures exists i :: (0 <= i < |entries| && Kept(entries[i], symbol, today) &&
      RelevantTexts(entries, symbol, today)[k] == entries[i].title + ". " + entries[i].description)
  {
    var keep := e => Kept(e, symbol, today);
    var kept := Filter(entries, keep);
    FilterMember(entries, keep, kept[k]);
    var i :| 0 <= i < |entries| && entries[i] == kept[k];
    assert RelevantTexts(entries, symbol, today)[k] == EntryText(entries[i]);
  }

  /** What `fetch_data` returns with a non-positive count: the loop stops at
      the first entry published today, keeping its text if it mentions the
      symbol. */
  function FirstTodayText(entries: seq<FeedEntry>, symbol: string, today: Date): (r: seq<string>)
    ensures |r| <= 1
    ensures r != [] ==> RelevantTexts(entries, symbol, today) != [] && r == [RelevantTexts(entries, symbol, today)[0]]
  {
    var todays := Filter(entries, PublishedTest(today));
    if todays == [] then []
    else if IsRelevantToStock(todays[0].title, todays[0].description, symbol) then
      FirstTodayIsFirstKept(entries, symbol, today);
      [EntryText(todays[0])]
    else []
  }

  lemma {:induction false} FirstTodayIsFirstKept(entries: seq<FeedEntry>, symbol: string, today: Date)
    requires Filter(entries, PublishedTest(today)) != []
    requires var e := Filter(entries, PublishedTest(today))[0];
      IsRelevantToStock(e.title, e.description, symbol)
    ensures RelevantTexts(entries, symbol, today) != []
    ensures RelevantTexts(entries, symbol, today)[0] ==
      EntryText(Filter(entries, PublishedTest(today))[0])
    decreases |entries|
  {
    var pub := PublishedTest(today);
    assert entries != [];
    assert entries == [entries[0]] + entries[1..];
    RelevantTextsAppend([entries[0]], entries[1..], symbol, today);
    if !pub(entries[0]) {
      assert Filter(entries, pub) == Filter(entries[1..], pub);
      FirstTodayIsFirstKept(entries[1..], symbol, today);
      assert Filter([entries[0]], e => Kept(e, symbol, today)) == [];
    } else {
      assert Filter(entries, pub)[0] == entries[0];
      assert Filter([entries[0]], e => Kept(e, symbol, today)) == [entries[0]];
    }
  }

  /** No entry before `i` is published today. */
  predicate NoneToday(entries: seq<FeedEntry>, i: int, today: Date)
    requires 0 <= i <= |entries|
  {
    forall j :: 0 <= j < i ==> !PublishedToday(entries[j].published, today)
  }

  /** `fetch_data(symbol, count)` over the feed's `entries` on `today`. */
  method FetchData(entries: seq<FeedEntry>, symbol: string, count: int, today: Date) returns (texts: seq<string>)
    ensures count >= 1 ==> texts == Take(RelevantTexts(entries, symbol, today), count)
    ensures count >= 1 ==> |texts| <= count
    ensures count < 1 ==> texts == FirstTodayText(entries, symbol, today)
  {
    texts := [];
    var i := 0;
    while i < |entries|
      invariant 0 <= i <= |entries|
      invariant texts == RelevantTexts(entries[..i], symbol, today)
      invariant count >= 1 ==> |texts| < count
      invariant count < 1 ==> texts == [] && NoneToday(entries, i, today)
    {
      var entry := entries[i];
      RelevantStep(entries, i, symbol, today);
      if !PublishedToday(entry.published, today) {
        i := i + 1;
        continue;
      }
      var title := entry.title;
      var description := entry.description;
      if IsRelevantToStock(title, description, symbol) {
        texts := texts + [title + ". " + description];
      }
      if |texts| >= count {
        if count >= 1 {
          StopAt(entries, i, symbol, today, count);
        } else {
          FirstTodayAt(entries, i, symbol, today);
        }
        return;
      }
      i := i + 1;
    }
    SliceAll(entries);
    if count < 1 {
      NoTodayText(entries, symbol, today);
    }
  }

  /** One turn of the loop of `FetchData`. */
  lemma RelevantStep(entries: seq<FeedEntry>, i: int, symbol: string, today: Date)
    requires 0 <= i < |entries|
    ensures RelevantTexts(entries[..i + 1], symbol, today) ==
      RelevantTexts(entries[..i], symbol, today) + (if Kept(entries[i], symbol, today) then [EntryText(entries[i])] else [])
  {
    SliceSnoc(entries, i);
    RelevantTextsAppend(entries[..i], [entries[i]], symbol, today);
    assert Filter([entries[i]], e => Kept(e, symbol, today)) == if Kept(entries[i], symbol, today) then [entries[i]] else [];
  }

  /** Stopping once the first `i + 1` entries have yielded `count` texts
      returns the first `count` texts of the whole feed. */
  lemma StopAt(entries: seq<FeedEntry>, i: int, symbol: string, today: Date, count: nat)
    requires 0 <= i < |entries|
    requires |RelevantTexts(entries[..i + 1], symbol, today)| == count
    ensures Take(RelevantTexts(entries, symbol, today), count) == RelevantTexts(entries[..i + 1], symbol, today)
  {
    SplitAt(entries, i + 1);
    RelevantTextsAppend(entries[..i + 1], entries[i + 1..], symbol, today);
    TakeAppend(RelevantTexts(entries[..i + 1], symbol, today), RelevantTexts(entries[i + 1..], symbol, today), count);
  }

  /** The first entry published today decides the result for a
      non-positive count. */
  lemma FirstTodayAt(entries: seq<FeedEntry>, i: int, symbol: string, today: Date)
    requires 0 <= i < |entries| && PublishedToday(entries[i].published, today)
    requires NoneToday(entries, i, today)
    ensures FirstTodayText(entries, symbol, today) ==
      if IsRelevantToStock(entries[i].title, entries[i].description, symbol) then [EntryText(entries[i])] else []
  {
    FilterFirst(entries, PublishedTest(today), i);
  }

  /** A feed with no entry of today yields nothing for a non-positive count. */
  lemma NoTodayText(entries: seq<FeedEntry>, symbol: string, today: Date)
    requires NoneToday(entries, |entries|, today)
    ensures FirstTodayText(entries, symbol, today) == []
  {
    FilterNone(entries, PublishedTest(today));
  }
}
