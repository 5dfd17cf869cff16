/** The clinical-trials feed reader (`trials.py`): the records of the RSS
    items, and the filter keeping the trials published inside a window of
    days from now. Times are whole seconds on one clock. */
module Trials {
  import opened Wrappers
  import opened Seqs

  /** A child element of an RSS `<item>`: its tag and its text, `None` for
      an element without text. */
  datatype Element = Element(tag: string, text: Option<string>)

  /** An `<item>` element: its children in document order. */
  datatype Item = Item(children: seq<Element>)

  /** The record built per item: `{'title': …, 'link': …, 'pubDate': …}`. */
  datatype Trial = Trial(title: Option<string>, link: Option<string>, pubDate: Option<string>)

  /** `item.find(tag)`: the first child element with that tag. */
  function Find(children: seq<Element>, tag: string): (r: Option<Element>)
    ensures r.None? <==> forall k :: 0 <= k < |children| ==> children[k].tag != tag
    ensures r.Some? ==> exists k :: 0 <= k < |children| && children[k] == r.value && r.value.tag == tag &&
                                    forall j :: 0 <= j < k ==> children[j].tag != tag
    decreases |children|
  {
    if children == [] then None
    else if children[0].tag == tag then Some(children[0])
    else
      var r := Find(children[1..], tag);
      assert forall k :: 1 <= k < |children| ==> children[k] == children[1..][k - 1];
      if r.Some? then
        var k :| 0 <= k < |children[1..]| && children[1..][k] == r.value && r.value.tag == tag &&
                 forall j :: 0 <= j < k ==> children[1..][j].tag != tag;
        assert children[k + 1] == r.value;
        r
      else r
  }

  /** One item's record, or `None` when one of the three tags is missing
      (reading `.text` of the missing element raises). */
  function ParseItem(item: Item): (r: Option<Trial>)
    ensures r.None? <==> Find(item.children, "title").None? || Find(item.children, "link").None? || Find(item.children, "pubDate").None?
    ensures r.Some? ==> r.value == Trial(Find(item.children, "title").value.text,
                                         Find(item.children, "link").value.text,
                                         Find(item.children, "pubDate").value.text)
  {
    var title := Find(item.children, "title");
    var link := Find(item.children, "link");
    var pubDate := Find(item.children, "pubDate");
    if title.None? || link.None? || pubDate.None? then None
    else Some(Trial(title.value.text, link.value.text, pubDate.value.text))
  }

  /** `parse_rss`, after the document is parsed: `items` are its `<item>`
      elements in document order. One record per item, in order, or `None`
      when some item lacks a tag. */
  method ParseRss(items: seq<Item>) returns (r: Option<seq<Trial>>)
    ensures r.None? <==> exists k :: 0 <= k < |items| && ParseItem(items[k]).None?
    ensures r.Some? ==> |r.value| == |items| && forall k :: 0 <= k < |items| ==> Some(r.value[k]) == ParseItem(items[k])
  {
    var trials: seq<Trial> := [];
    for i := 0 to |items|
      invariant |trials| == i
      invariant forall k :: 0 <= k < i ==> Some(trials[k]) == ParseItem(items[k])
    {
      var item := items[i];
      var title := Find(item.children, "title");
      var link := Find(item.children, "link");
      var pubDate := Find(item.children, "pubDate");
      if title.None? || link.None? || pubDate.None? {
        return None;
      }
      trials := trials + [Trial(title.value.text, link.value.text, pubDate.value.text)];
    }
    r := Some(trials);
  }

  /** The window `filter_upcoming_trials` uses when none is given. */
  const DefaultDays: int := 30
  const SecondsPerDay: int := 86400

  /** `now <= pub_date <= now + timedelta(days=days)`. */
  predicate InWindow(now: int, days: int, t: int) {
    now <= t <= now + days * SecondsPerDay
  }

  /** The publication time of a trial: `parse` is `strptime` with the RSS
      date format, `None` when it raises; a missing date raises too. */
  function PubTime(parse: string -> Option<int>, trial: Trial): Option<int> {
    if trial.pubDate.None? then None else parse(trial.pubDate.value)
  }

  /** Every trial has a date `parse` accepts. */
  predicate AllDated(parse: string -> Option<int>, trials: seq<Trial>) {
    forall k :: 0 <= k < |trials| ==> PubTime(parse, trials[k]).Some?
  }

  function Upcoming(parse: string -> Option<int>, now: int, days: int): (keep: Trial -> bool)
    ensures forall t: Trial :: keep(t) <==> PubTime(parse, t).Some? && InWindow(now, days, PubTime(parse, t).value)
  {
    (t: Trial) => PubTime(parse, t).Some? && InWindow(now, days, PubTime(parse, t).value)
  }

  /** `filter_upcoming_trials(trials, days)` at time `now`: `None` when a
      date cannot be parsed, otherwise the trials inside the window, in
      their original order. */
  method FilterUpcomingTrials(trials: seq<Trial>, now: int, days: int, parse: string -> Option<int>)
    returns (r: Option<seq<Trial>>)
    ensures r.None? <==> !AllDated(parse, trials)
    ensures r.Some? ==> r.value == Filter(trials, Upcoming(parse, now, days))
  {
    var filtered: seq<Trial> := [];
    for i := 0 to |trials|
      invariant filtered == Filter(trials[..i], Upcoming(parse, now, days))
      invariant forall k :: 0 <= k < i ==> PubTime(parse, trials[k]).Some?
    {
      var trial := trials[i];
      var pubDate := PubTime(parse, trial);
      if pubDate.None? {
        return None;
      }
      TrialStep(trials, i, now, days, parse);
      if InWindow(now, days, pubDate.value) {
        filtered := filtered + [trial];
      }
    }
    SliceAll(trials);
    r := Some(filtered);
  }

  /** One turn of the loop of `FilterUpcomingTrials`. */
  lemma TrialStep(trials: seq<Trial>, i: int, now: int, days: int, parse: string -> Option<int>)
    requires 0 <= i < |trials| && PubTime(parse, trials[i]).Some?
    ensures Filter(trials[..i + 1], Upcoming(parse, now, days)) ==
            if InWindow(now, days, PubTime(parse, trials[i]).value) then Filter(trials[..i], Upcoming(parse, now, days)) + [trials[i]]
            else Filter(trials[..i], Upcoming(parse, now, days))
  {
    SliceSnoc(trials, i);
    FilterSnoc(trials[..i], trials[i], Upcoming(parse, now, days));
  }

  /** A trial is kept exactly when it is one of the input trials and was
      published inside the window. */
  lemma UpcomingMembership(trials: seq<Trial>, now: int, days: int, parse: string -> Option<int>, t: Trial)
    requires AllDated(parse, trials)
    ensures t in Filter(trials, Upcoming(parse, now, days)) <==>
            t in trials && InWindow(now, days, PubTime(parse, t).value)
  {
    FilterMember(trials, Upcoming(parse, now, days), t);
    if t in trials {
      var k :| 0 <= k < |trials| && trials[k] == t;
    }
  }

  /** The kept trials are a subsequence of the input: they appear in it at
      increasing positions. */
  lemma UpcomingInOrder(trials: seq<Trial>, now: int, days: int, parse: string -> Option<int>)
    returns (idx: seq<nat>)
    ensures IndexedBy(Filter(trials, Upcoming(parse, now, days)), trials, idx)
  {
    idx := FilterSubsequence(trials, Upcoming(parse, now, days));
  }

  /** A negative window ends before it starts, so it keeps nothing. */
  lemma NegativeWindowKeepsNothing(trials: seq<Trial>, now: int, days: int, parse: string -> Option<int>)
    requires days < 0
    ensures Filter(trials, Upcoming(parse, now, days)) == []
  {
    var keep := Upcoming(parse, now, days);
    forall k | 0 <= k < |trials| ensures !keep(trials[k]) {
      assert days * SecondsPerDay < 0;
    }
    FilterNone(trials, keep);
  }
}
