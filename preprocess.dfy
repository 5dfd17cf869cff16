/** The text normaliser applied before relevance checking
    (`ArticleRetrieval._preprocess_text`): punctuation becomes a space,
    runs of whitespace collapse to one space, and the result is lower-cased. */
module Preprocessing {
  import opened Strings

  /** `re.sub(r'[^\w\s]', ' ', text)`: every character that is neither a word
      character nor whitespace is replaced by a space. */
  function ReplacePunctuation(text: string): (r: string)
    ensures |r| == |text|
    ensures forall i :: 0 <= i < |r| ==> IsWordChar(r[i]) || IsSpace(r[i])
    ensures forall i :: 0 <= i < |r| ==> (IsWordChar(text[i]) || IsSpace(text[i])) == (r[i] == text[i])
    ensures forall i :: 0 <= i < |r| && !(IsWordChar(text[i]) || IsSpace(text[i])) ==> r[i] == ' '
  {
    seq(|text|, i requires 0 <= i < |text| =>
      if IsWordChar(text[i]) || IsSpace(text[i]) then text[i] else ' ')
  }

  /** `' '.join(re.sub(r'[^\w\s]', ' ', text).split()).lower()`. */
  function Preprocess(text: string): (r: string)
    ensures SingleSpaced(r)
    ensures forall i :: 0 <= i < |r| ==> r[i] == ' ' || (IsWordChar(r[i]) && !IsUpper(r[i]))
    ensures var w := Split(ReplacePunctuation(text));
      Split(r) == seq(|w|, k requires 0 <= k < |w| => Lower(w[k]))
  {
    var cleaned := ReplacePunctuation(text);
    var words := Split(cleaned);
    SplitWordChars(cleaned);
    JoinTokens(words);
    JoinWordChars(words);
    LowerJoin(words);
    var lowered := seq(|words|, k requires 0 <= k < |words| => Lower(words[k]));
    assert forall k :: 0 <= k < |lowered| ==> IsToken(lowered[k]) by {
      forall k | 0 <= k < |lowered| ensures IsToken(lowered[k]) {
        assert IsToken(words[k]);
      }
    }
    SplitJoin(lowered);
    Lower(Join(words, " "))
  }

  predicate AllWordChars(t: string) {
    forall j :: 0 <= j < |t| ==> IsWordChar(t[j])
  }

  /** The words of a text made of word characters and whitespace consist of
      word characters only. */
  lemma SplitWordChars(s: string)
    requires forall i :: 0 <= i < |s| ==> IsWordChar(s[i]) || IsSpace(s[i])
    ensures forall k :: 0 <= k < |Split(s)| ==> AllWordChars(Split(s)[k])
  {
    SplitChars(s);
    var r := Split(s);
    forall k | 0 <= k < |r| ensures AllWordChars(r[k]) {
      forall j | 0 <= j < |r[k]| ensures IsWordChar(r[k][j]) {
        assert IsToken(r[k]);
        assert r[k][j] in s;
      }
    }
  }

  lemma {:induction false} JoinWordChars(ts: seq<string>)
    requires forall k :: 0 <= k < |ts| ==> AllWordChars(ts[k])
    ensures forall i :: 0 <= i < |Join(ts, " ")| ==> Join(ts, " ")[i] == ' ' || IsWordChar(Join(ts, " ")[i])
  {
    if |ts| > 1 {
      JoinWordChars(ts[1..]);
      var s := ts[0] + " " + Join(ts[1..], " ");
      assert Join(ts, " ") == s;
      forall i | 0 <= i < |s| ensures s[i] == ' ' || IsWordChar(s[i]) {
        if i < |ts[0]| {
          assert s[i] == ts[0][i];
        } else if i > |ts[0]| {
          assert s[i] == Join(ts[1..], " ")[i - |ts[0]| - 1];
        }
      }
    }
  }

  /** Normalising twice is normalising once. */
  lemma PreprocessIdempotent(text: string)
    ensures Preprocess(Preprocess(text)) == Preprocess(text)
  {
    var words := Split(ReplacePunctuation(text));
    var lowered := seq(|words|, k requires 0 <= k < |words| => Lower(words[k]));
    var y := Preprocess(text);
    LowerJoin(words);
    assert y == Join(lowered, " ");
    assert ReplacePunctuation(y) == y;
    assert Split(y) == lowered;
    assert Lower(y) == y;
  }

  /** The normalised text holds no sentence-ending punctuation, so a
      sentence tokenizer run on it has no full stop to split at. */
  lemma PreprocessRemovesTerminators(text: string)
    ensures '.' !in Preprocess(text) && '!' !in Preprocess(text) && '?' !in Preprocess(text)
  {
  }
}
