/** Character classes and the handful of Python `str` operations the
    pipeline relies on (`split()`, `' '.join`, `lower()`, `in`,
    `startswith`, `split('?')[0]`), on ASCII text. */
module Strings {
  import Seqs

  /** `str.isspace()` on ASCII: space, `\t \n \v \f \r` and the
      separators 0x1C-0x1F. */
  predicate IsSpace(c: char) {
    c == ' ' || (9 <= c as int <= 13) || (28 <= c as int <= 31)
  }

  /** A character matched by the regular-expression class `\w` on ASCII. */
  predicate IsWordChar(c: char) {
    ('a' <= c <= 'z') || ('A' <= c <= 'Z') || ('0' <= c <= '9') || c == '_'
  }

  predicate IsUpper(c: char) {
    'A' <= c <= 'Z'
  }

  function LowerChar(c: char): (r: char)
    ensures !IsUpper(r)
    ensures IsWordChar(r) <==> IsWordChar(c)
    ensures IsSpace(r) <==> IsSpace(c)
    ensures !IsUpper(c) ==> r == c
  {
    if IsUpper(c) then (c as int + 32) as char else c
  }

  /** `str.lower()` on ASCII. */
  function Lower(s: string): (r: string)
    ensures |r| == |s|
    ensures forall i :: 0 <= i < |s| ==> r[i] == LowerChar(s[i])
  {
    seq(|s|, i requires 0 <= i < |s| => LowerChar(s[i]))
  }

  predicate NoSpace(t: string) {
    forall i :: 0 <= i < |t| ==> !IsSpace(t[i])
  }

  /** A token as `str.split()` yields it: non-empty, without whitespace. */
  predicate IsToken(t: string) {
    t != [] && NoSpace(t)
  }

  /** Length of the leading run of non-whitespace characters. */
  function TokenLen(s: string): (n: nat)
    ensures n <= |s|
    ensures NoSpace(s[..n])
    ensures n < |s| ==> IsSpace(s[n])
  {
    if s == [] || IsSpace(s[0]) then 0 else 1 + TokenLen(s[1..])
  }

  /** `str.split()` with no argument: the maximal runs of non-whitespace,
      in order. */
  function Split(s: string): (r: seq<string>)
    ensures forall k :: 0 <= k < |r| ==> IsToken(r[k])
    decreases |s|
  {
    if s == [] then []
    else if IsSpace(s[0]) then Split(s[1..])
    else
      var n := TokenLen(s);
      [s[..n]] + Split(s[n..])
  }

  predicate NotSpace(c: char) {
    !IsSpace(c)
  }

  /** The number of positions of `s` where a run of non-whitespace begins;
      `afterSpace` says whether what precedes `s` is whitespace or nothing. */
  function WordStarts(s: string, afterSpace: bool): nat
    decreases |s|
  {
    if s == [] then 0
    else (if afterSpace && !IsSpace(s[0]) then 1 else 0) + WordStarts(s[1..], IsSpace(s[0]))
  }

  /** `len(s.split())`: the number of whitespace-separated words. */
  function WordCount(s: string): nat {
    |Split(s)|
  }

  /** `sep.join(ts)`. */
  function Join(ts: seq<string>, sep: string): string {
    if ts == [] then ""
    else if |ts| == 1 then ts[0]
    else ts[0] + sep + Join(ts[1..], sep)
  }

  /** `sub` occurs in `s` at position `i`. */
  predicate OccursAt(s: string, sub: string, i: int) {
    0 <= i && i + |sub| <= |s| && s[i..i + |sub|] == sub
  }

  /** `sub in s`. */
  function Contains(s: string, sub: string): (b: bool)
    ensures b <==> exists i :: OccursAt(s, sub, i)
    decreases |s|
  {
    if |sub| > |s| then false
    else if s[..|sub|] == sub then assert OccursAt(s, sub, 0); true
    else
      var b := Contains(s[1..], sub);
      assert forall i :: OccursAt(s, sub, i) <==> i > 0 && OccursAt(s[1..], sub, i - 1);
      assert b ==> exists i :: OccursAt(s, sub, i) by {
        if b {
          var j :| OccursAt(s[1..], sub, j);
          assert OccursAt(s, sub, j + 1);
        }
      }
      b
  }

  /** `s.startswith(p)`. */
  predicate StartsWith(s: string, p: string) {
    |p| <= |s| && s[..|p|] == p
  }

  /** `link.split('?')[0]`: the link with its query string removed. */
  function BeforeQuery(link: string): (r: string)
    ensures |r| <= |link| && r == link[..|r|]
    ensures '?' !in r
    ensures |r| < |link| ==> link[|r|] == '?'
  {
    if link == [] || link[0] == '?' then []
    else [link[0]] + BeforeQuery(link[1..])
  }

  /** Removing the query string keeps a prefix that has no `?`. */
  lemma BeforeQueryKeepsPrefix(link: string, p: string)
    requires StartsWith(link, p) && '?' !in p
    ensures StartsWith(BeforeQuery(link), p)
  {
    var r := BeforeQuery(link);
    assert r[..|p|] == link[..|p|];
  }

  // ---------------------------------------------------------------------
  // Lemmas about Split and Join
  // ---------------------------------------------------------------------

  /** Inside a run of non-whitespace no word begins. */
  lemma {:induction false} WordStartsSkip(t: string, k: nat)
    requires k <= |t| && NoSpace(t[..k])
    ensures WordStarts(t, false) == WordStarts(t[k..], false)
    decreases k
  {
    if k > 0 {
      assert t[1..][..k - 1] == t[1..k];
      assert t[1..][k - 1..] == t[k..];
      assert !IsSpace(t[..k][0]);
      WordStartsSkip(t[1..], k - 1);
    }
  }

  /** `str.split()` drops exactly the whitespace: its tokens, concatenated,
      are the non-whitespace characters of `s` in order, and there is one
      token for each position where a run of non-whitespace begins. */
  lemma {:induction false} SplitSpec(s: string)
    ensures Seqs.Flatten(Split(s)) == Seqs.Filter(s, NotSpace)
    ensures |Split(s)| == WordStarts(s, true)
    decreases |s|
  {
    if s == [] {
    } else if IsSpace(s[0]) {
      SplitSpec(s[1..]);
    } else {
      var n := TokenLen(s);
      SplitSpec(s[n..]);
      Seqs.FlattenCons(s[..n], Split(s[n..]));
      Seqs.SplitAt(s, n);
      Seqs.FilterAppend(s[..n], s[n..], NotSpace);
      Seqs.FilterAll(s[..n], NotSpace);
      WordStartsSkip(s[1..], n - 1);
      assert s[1..][..n - 1] == s[1..n];
      assert s[1..][n - 1..] == s[n..];
    }
  }

  lemma {:induction false} TokenLenAcrossSpace(a: string, c: char, b: string)
    requires IsSpace(c)
    ensures TokenLen(a + [c] + b) == TokenLen(a)
    decreases |a|
  {
    if a == [] {
      assert (a + [c] + b)[0] == c;
    } else if IsSpace(a[0]) {
      assert (a + [c] + b)[0] == a[0];
    } else {
      assert (a + [c] + b)[1..] == a[1..] + [c] + b;
      TokenLenAcrossSpace(a[1..], c, b);
    }
  }

  /** Splitting two texts glued by one whitespace character splits each. */
  lemma {:induction false} SplitAcrossSpace(a: string, c: char, b: string)
    requires IsSpace(c)
    ensures Split(a + [c] + b) == Split(a) + Split(b)
    decreases |a|
  {
    var s := a + [c] + b;
    if a == [] {
      assert s[1..] == b;
    } else if IsSpace(a[0]) {
      assert s[1..] == a[1..] + [c] + b;
      SplitAcrossSpace(a[1..], c, b);
    } else {
      var n := TokenLen(s);
      TokenLenAcrossSpace(a, c, b);
      assert s[..n] == a[..n];
      assert s[n..] == a[n..] + [c] + b;
      SplitAcrossSpace(a[n..], c, b);
    }
  }

  lemma SplitToken(t: string)
    requires IsToken(t)
    ensures Split(t) == [t]
  {
    TokenLenNoSpace(t);
    assert t[..|t|] == t && t[|t|..] == [];
  }

  lemma {:induction false} TokenLenNoSpace(t: string)
    requires NoSpace(t)
    ensures TokenLen(t) == |t|
  {
    if t != [] {
      assert forall i :: 0 <= i < |t[1..]| ==> t[1..][i] == t[i + 1];
      TokenLenNoSpace(t[1..]);
    }
  }

  /** `' '.join` and `split()` are inverse on tokens. */
  lemma {:induction false} SplitJoin(ts: seq<string>)
    requires forall k :: 0 <= k < |ts| ==> IsToken(ts[k])
    ensures Split(Join(ts, " ")) == ts
  {
    if ts == [] {
    } else if |ts| == 1 {
      SplitToken(ts[0]);
    } else {
      SplitAcrossSpace(ts[0], ' ', Join(ts[1..], " "));
      SplitToken(ts[0]);
      SplitJoin(ts[1..]);
    }
  }

  /** Joining with a single space adds the word counts. */
  lemma WordCountJoin(a: string, b: string)
    ensures WordCount(a + " " + b) == WordCount(a) + WordCount(b)
  {
    SplitAcrossSpace(a, ' ', b);
  }

  /** Every character of a token comes from the split text. */
  lemma {:induction false} SplitChars(s: string)
    ensures forall k, j :: 0 <= k < |Split(s)| && 0 <= j < |Split(s)[k]| ==> Split(s)[k][j] in s
    decreases |s|
  {
    if s == [] {
    } else if IsSpace(s[0]) {
      SplitChars(s[1..]);
    } else {
      var n := TokenLen(s);
      SplitChars(s[n..]);
      var r := Split(s);
      assert r == [s[..n]] + Split(s[n..]);
      forall k, j | 0 <= k < |r| && 0 <= j < |r[k]| ensures r[k][j] in s {
        if k == 0 {
          assert r[k][j] == s[j];
        } else {
          assert r[k] == Split(s[n..])[k - 1];
          assert r[k][j] in s[n..];
        }
      }
    }
  }

  /** A text in which every whitespace character is a single space standing
      between two non-whitespace characters. */
  predicate SingleSpaced(s: string) {
    forall i :: 0 <= i < |s| && IsSpace(s[i]) ==>
      s[i] == ' ' && 0 < i < |s| - 1 && !IsSpace(s[i - 1]) && !IsSpace(s[i + 1])
  }

  lemma {:induction false} JoinTokens(ts: seq<string>)
    requires forall k :: 0 <= k < |ts| ==> IsToken(ts[k])
    ensures SingleSpaced(Join(ts, " "))
    ensures ts != [] ==> Join(ts, " ") != [] && !IsSpace(Join(ts, " ")[0])
  {
    if |ts| <= 1 {
    } else {
      JoinTokens(ts[1..]);
      var t, rest := ts[0], Join(ts[1..], " ");
      var s := t + " " + rest;
      assert Join(ts, " ") == s;
      assert forall i :: 0 <= i < |t| ==> s[i] == t[i];
      forall i | 0 <= i < |s| && IsSpace(s[i])
        ensures s[i] == ' ' && 0 < i < |s| - 1 && !IsSpace(s[i - 1]) && !IsSpace(s[i + 1])
      {
        if i == |t| {
          assert s[i + 1] == rest[0];
        } else if i > |t| {
          assert s[i] == rest[i - |t| - 1];
          assert s[i - 1] == rest[i - |t| - 2];
          assert s[i + 1] == rest[i - |t|];
        }
      }
    }
  }

  lemma {:induction false} LowerJoin(ts: seq<string>)
    ensures Lower(Join(ts, " ")) == Join(seq(|ts|, k requires 0 <= k < |ts| => Lower(ts[k])), " ")
  {
    var ls := seq(|ts|, k requires 0 <= k < |ts| => Lower(ts[k]));
    if |ts| <= 1 {
    } else {
      LowerJoin(ts[1..]);
      assert ls[1..] == seq(|ts[1..]|, k requires 0 <= k < |ts[1..]| => Lower(ts[1..][k]));
      assert Lower(ts[0] + " " + Join(ts[1..], " ")) == Lower(ts[0]) + " " + Lower(Join(ts[1..], " "));
    }
  }
}
