/** The fallback keyword extractor: the words of the regular expression
    `\b[a-zA-Z]{3,}\b` in the lower-cased text, stop words dropped, counted
    with a `Counter`, and its five most common words, ties in order of first
    occurrence. */
module Keywords {
  import opened Outcomes
  import opened PyText
  import opened Seqs

  /** The stop words the extractor drops. */
  predicate IsStopWord(w: string)
  {
    w in {
      "the", "and", "for", "are", "but", "not", "you", "all", "can",
      "had", "has", "have", "this", "with", "that", "were", "which",
      "their", "there", "from", "been", "more", "will", "would", "about"
    }
  }

  const MAX_KEYWORDS := 5

  /** A match of `\b[a-zA-Z]{3,}\b` at positions `a` to `b` of `s`: three or
      more ASCII letters, with no word character just before or just after. */
  predicate IsWordSpan(s: string, a: nat, b: nat)
  {
    && a + 3 <= b <= |s|
    && (forall k :: a <= k < b ==> IsAsciiLetter(s[k]))
    && (a == 0 || !IsWordChar(s[a - 1]))
    && (b == |s| || !IsWordChar(s[b]))
  }

  /** The end of the run of ASCII letters that starts at `i`. */
  function RunEnd(s: string, i: nat): (e: nat)
    requires i <= |s|
    ensures i <= e <= |s|
    ensures forall k :: i <= k < e ==> IsAsciiLetter(s[k])
    ensures e == |s| || !IsAsciiLetter(s[e])
    decreases |s| - i
  {
    if i < |s| && IsAsciiLetter(s[i]) then RunEnd(s, i + 1) else i
  }

  /** The matches `re.findall` finds scanning `s` from position `i`, as
      position pairs, left to right. */
  function MatchSpans(s: string, i: nat): (spans: seq<(nat, nat)>)
    requires i <= |s|
    ensures forall p :: 0 <= p < |spans| ==> i <= spans[p].0 && IsWordSpan(s, spans[p].0, spans[p].1)
    decreases |s| - i
  {
    if i == |s| then []
    else if IsAsciiLetter(s[i]) && (i == 0 || !IsWordChar(s[i - 1])) then
      var e := RunEnd(s, i);
      if e - i >= 3 && (e == |s| || !IsWordChar(s[e])) then [(i, e)] + MatchSpans(s, e)
      else MatchSpans(s, e)
    else MatchSpans(s, i + 1)
  }

  /** A run of letters that ends where a non-letter (or the text) starts is
      the run `RunEnd` finds. */
  lemma {:induction false} RunEndAt(s: string, i: nat, b: nat)
    requires i <= b <= |s|
    requires forall k :: i <= k < b ==> IsAsciiLetter(s[k])
    requires b == |s| || !IsAsciiLetter(s[b])
    ensures RunEnd(s, i) == b
    decreases b - i
  {
    if i < b {
      RunEndAt(s, i + 1, b);
    }
  }

  /** A run of letters stops at the first non-letter. */
  lemma {:induction false} RunEndStops(s: string, i: nat, j: nat)
    requires i <= j < |s| && !IsAsciiLetter(s[j])
    ensures RunEnd(s, i) <= j
    decreases j - i
  {
    if i < j && IsAsciiLetter(s[i]) {
      RunEndStops(s, i + 1, j);
    }
  }

  /** The matches are found left to right and do not overlap. */
  lemma {:induction false} MatchSpansInOrder(s: string, i: nat)
    requires i <= |s|
    ensures forall p, q :: 0 <= p < q < |MatchSpans(s, i)| ==> MatchSpans(s, i)[p].1 <= MatchSpans(s, i)[q].0
    decreases |s| - i
  {
    if i < |s| {
      if IsAsciiLetter(s[i]) && (i == 0 || !IsWordChar(s[i - 1])) {
        MatchSpansInOrder(s, RunEnd(s, i));
      } else {
        MatchSpansInOrder(s, i + 1);
      }
    }
  }

  /** Every match from position `i` on is found. */
  lemma {:induction false} MatchSpansComplete(s: string, i: nat, a: nat, b: nat)
    requires i <= a && i <= |s| && IsWordSpan(s, a, b)
    ensures (a, b) in MatchSpans(s, i)
    decreases |s| - i
  {
    if i == |s| {
      assert false;
    } else if IsAsciiLetter(s[i]) && (i == 0 || !IsWordChar(s[i - 1])) {
      var e := RunEnd(s, i);
      if a == i {
        RunEndAt(s, i, b);
      } else {
        RunEndStops(s, i, a - 1);
        MatchSpansComplete(s, e, a, b);
      }
    } else {
      MatchSpansComplete(s, i + 1, a, b);
    }
  }

  /** A word the regular expression can match: three or more ASCII
      letters. */
  predicate IsLetterWord(w: string)
  {
    |w| >= 3 && forall k :: 0 <= k < |w| ==> IsAsciiLetter(w[k])
  }

  /** `re.findall(r'\b[a-zA-Z]{3,}\b', s)` */
  function FindWords(s: string): (words: seq<string>)
    ensures forall w :: w in words ==> IsLetterWord(w)
  {
    var spans := MatchSpans(s, 0);
    var words := SpanTexts(s, spans);
    assert forall w :: w in words ==> IsLetterWord(w) by {
      forall w | w in words ensures IsLetterWord(w) {
        var p :| 0 <= p < |words| && words[p] == w;
        assert IsWordSpan(s, spans[p].0, spans[p].1);
      }
    }
    words
  }

  /** The text at each of the positions pairs, in order. */
  function SpanTexts(s: string, spans: seq<(nat, nat)>): (words: seq<string>)
    requires forall p :: 0 <= p < |spans| ==> spans[p].0 <= spans[p].1 <= |s|
    ensures |words| == |spans|
    ensures forall p :: 0 <= p < |spans| ==> words[p] == s[spans[p].0..spans[p].1]
  {
    if spans == [] then [] else [s[spans[0].0..spans[0].1]] + SpanTexts(s, spans[1..])
  }

  /** A keyword candidate: three or more lower-case ASCII letters. */
  predicate IsLowerWord(w: string)
  {
    |w| >= 3 && forall k :: 0 <= k < |w| ==> IsAsciiLower(w[k])
  }

  /** `[w for w in words if w not in stop_words]` */
  function DropStopWords(words: seq<string>): (r: seq<string>)
    ensures forall w :: w in r <==> w in words && !IsStopWord(w)
  {
    if words == [] then []
    else if IsStopWord(words[0]) then DropStopWords(words[1..])
    else [words[0]] + DropStopWords(words[1..])
  }

  /** The filter works word by word: filtering a concatenation filters
      each part, so the kept words stay in their order. */
  lemma {:induction false} DropStopWordsAppend(a: seq<string>, b: seq<string>)
    ensures DropStopWords(a + b) == DropStopWords(a) + DropStopWords(b)
  {
    if a == [] {
      assert a + b == b;
    } else {
      assert (a + b)[1..] == a[1..] + b;
      DropStopWordsAppend(a[1..], b);
    }
  }

  /** The filter keeps every occurrence of a word that is not a stop word,
      and none of a stop word. */
  lemma {:induction false} DropStopWordsCount(words: seq<string>, w: string)
    ensures Count(DropStopWords(words), w) == if IsStopWord(w) then 0 else Count(words, w)
  {
    if words != [] {
      DropStopWordsCount(words[1..], w);
      assert words == [words[0]] + words[1..];
      CountConcat([words[0]], words[1..], w);
      if !IsStopWord(words[0]) {
        CountConcat([words[0]], DropStopWords(words[1..]), w);
      }
      assert Count([words[0]], w) == (if words[0] == w then 1 else 0) by {
        assert [words[0]][..0] == [];
      }
    }
  }

  /** The words counted: those of the lower-cased text that are not stop
      words. */
  function Candidates(text: string): (ws: seq<string>)
    ensures forall w :: w in ws ==> IsLowerWord(w) && !IsStopWord(w)
  {
    var lowered := Lower(text);
    FindWordsInLowered(lowered);
    DropStopWords(FindWords(lowered))
  }

  /** In a text with no upper-case ASCII letter, the words found are
      lower-case. */
  lemma {:induction false} FindWordsInLowered(s: string)
    requires forall i :: 0 <= i < |s| ==> !IsAsciiUpper(s[i])
    ensures forall w :: w in FindWords(s) ==> IsLowerWord(w)
  {
    forall w | w in FindWords(s) ensures IsLowerWord(w) {
      FindWordsExact(s, w);
      var a: nat, b: nat :| IsWordSpan(s, a, b) && s[a..b] == w;
      assert forall k :: 0 <= k < |w| ==> w[k] == s[a + k];
    }
  }

  /** The `Counter` of `ws`: each word's number of occurrences. */
  function Tally(ws: seq<string>): (m: map<string, nat>)
    ensures forall w :: w in m <==> w in ws
    ensures forall w :: w in m ==> m[w] == Count(ws, w)
  {
    if ws == [] then map[]
    else
      var init := ws[..|ws| - 1];
      var w := ws[|ws| - 1];
      assert ws == init + [w];
      var m := Tally(init);
      m[w := (if w in m then m[w] else 0) + 1]
  }

  /** Whether `a` comes before `b` in `most_common`: a larger count first,
      and for equal counts the word that entered the counter first. */
  predicate RanksBefore(order: seq<string>, counts: map<string, nat>, a: string, b: string)
  {
    a in order && b in order && a in counts && b in counts &&
    (counts[a] > counts[b] || (counts[a] == counts[b] && IndexOf(order, a) < IndexOf(order, b)))
  }

  /** `r` is ranked: each word comes before every word after it. */
  predicate Ranked(order: seq<string>, counts: map<string, nat>, r: seq<string>)
  {
    forall i, j :: 0 <= i < j < |r| ==> RanksBefore(order, counts, r[i], r[j])
  }

  /** One step of a stable insertion sort on descending counts: `x` goes
      after every word whose count is at least its own. */
  function InsertByCount(x: string, sorted: seq<string>, counts: map<string, nat>): (r: seq<string>)
    requires x in counts && forall w :: w in sorted ==> w in counts
    ensures multiset(r) == multiset(sorted) + multiset{x}
  {
    if sorted == [] then [x]
    else if counts[sorted[0]] >= counts[x] then
      assert sorted == [sorted[0]] + sorted[1..];
      [sorted[0]] + InsertByCount(x, sorted[1..], counts)
    else [x] + sorted
  }

  /** The words of `order` by descending count; equal counts keep their
      order in `order`. */
  function SortByCount(order: seq<string>, counts: map<string, nat>): (r: seq<string>)
    requires forall w :: w in order ==> w in counts
    ensures multiset(r) == multiset(order)
    ensures forall w :: w in r ==> w in order
  {
    if order == [] then []
    else
      var init := order[..|order| - 1];
      assert order == init + [order[|order| - 1]];
      var r := InsertByCount(order[|order| - 1], SortByCount(init, counts), counts);
      assert forall w :: w in r ==> w in multiset(order);
      r
  }

  /** The head of a ranked `sorted` that stays ahead of `x` ranks before
      everything `x` is inserted among behind it. */
  lemma {:induction false} HeadRanksBeforeInserted(order: seq<string>, counts: map<string, nat>, x: string, sorted: seq<string>)
    requires forall w :: w in order ==> w in counts
    requires x in order && Ranked(order, counts, sorted) && sorted != []
    requires forall w :: w in sorted ==> w in order && IndexOf(order, w) < IndexOf(order, x)
    requires counts[sorted[0]] >= counts[x]
    ensures forall t :: t in InsertByCount(x, sorted[1..], counts) ==> RanksBefore(order, counts, sorted[0], t)
  {
    var rest := sorted[1..];
    forall t | t in InsertByCount(x, rest, counts) ensures RanksBefore(order, counts, sorted[0], t) {
      assert t in multiset(InsertByCount(x, rest, counts));
      if t != x {
        assert t in rest;
        var k :| 0 <= k < |rest| && rest[k] == t;
        assert sorted[k + 1] == t;
      }
    }
  }

  lemma {:induction false} InsertRanked(order: seq<string>, counts: map<string, nat>, x: string, sorted: seq<string>)
    requires Distinct(order) && forall w :: w in order ==> w in counts
    requires x in order && Ranked(order, counts, sorted)
    requires forall w :: w in sorted ==> w in order && IndexOf(order, w) < IndexOf(order, x)
    ensures Ranked(order, counts, InsertByCount(x, sorted, counts))
  {
    if sorted != [] {
      var r := InsertByCount(x, sorted, counts);
      var head := sorted[0];
      if counts[head] >= counts[x] {
        var rest := sorted[1..];
        assert Ranked(order, counts, rest);
        InsertRanked(order, counts, x, rest);
        var tail := InsertByCount(x, rest, counts);
        assert r == [head] + tail;
        HeadRanksBeforeInserted(order, counts, x, sorted);
        forall j | 0 < j < |r| ensures RanksBefore(order, counts, head, r[j]) {
          assert r[j] == tail[j - 1];
        }
      } else {
        forall j | 0 < j < |sorted| ensures counts[sorted[j]] < counts[x] {
          assert RanksBefore(order, counts, head, sorted[j]);
        }
      }
    }
  }

  lemma {:induction false} SortRanked(order: seq<string>, counts: map<string, nat>, k: nat)
    requires Distinct(order) && k <= |order| && forall w :: w in order ==> w in counts
    ensures Ranked(order, counts, SortByCount(order[..k], counts))
    ensures forall w :: w in SortByCount(order[..k], counts) ==> w in order[..k]
  {
    var prefix := order[..k];
    if k > 0 {
      var init := prefix[..k - 1];
      assert init == order[..k - 1];
      SortRanked(order, counts, k - 1);
      var sorted := SortByCount(init, counts);
      var x := order[k - 1];
      IndexOfDistinct(order, k - 1);
      forall w | w in sorted ensures w in order && IndexOf(order, w) < IndexOf(order, x) {
        var j :| 0 <= j < k - 1 && order[j] == w;
        IndexOfDistinct(order, j);
      }
      InsertRanked(order, counts, x, sorted);
      forall w | w in SortByCount(prefix, counts) ensures w in prefix {
        assert w in multiset(SortByCount(prefix, counts));
      }
    }
  }

  /** `Counter.most_common(n)`: the first `n` words by descending count,
      ties in insertion order. */
  function MostCommon(order: seq<string>, counts: map<string, nat>, n: nat): (r: seq<string>)
    requires forall w :: w in order ==> w in counts
    ensures |r| == Min(n, |order|)
    ensures forall w :: w in r ==> w in order
  {
    var sorted := SortByCount(order, counts);
    assert |sorted| == |multiset(sorted)| == |order|;
    forall w | w in sorted[..Min(n, |sorted|)] ensures w in order {
      assert w in multiset(sorted);
    }
    sorted[..Min(n, |sorted|)]
  }

  /** The extractor's result as a function of the text. */
  function KeywordsFromText(text: string): seq<string>
  {
    var ws := Candidates(text);
    MostCommon(Dedup(ws), Tally(ws), MAX_KEYWORDS)
  }

  /** The regular expression's words are exactly the substrings at its
      matches. */
  lemma {:induction false} FindWordsExact(s: string, w: string)
    ensures w in FindWords(s) <==> exists a: nat, b: nat :: IsWordSpan(s, a, b) && s[a..b] == w
  {
    if w in FindWords(s) {
      FoundWordHasSpan(s, w);
    }
    if exists a: nat, b: nat :: IsWordSpan(s, a, b) && s[a..b] == w {
      var a: nat, b: nat :| IsWordSpan(s, a, b) && s[a..b] == w;
      SpanWordFound(s, a, b);
    }
  }

  /** Every word found is the text of a word span. */
  lemma {:induction false} FoundWordHasSpan(s: string, w: string)
    requires w in FindWords(s)
    ensures exists a: nat, b: nat :: IsWordSpan(s, a, b) && s[a..b] == w
  {
    var spans := MatchSpans(s, 0);
    var words := FindWords(s);
    var p :| 0 <= p < |words| && words[p] == w;
    assert IsWordSpan(s, spans[p].0, spans[p].1) && s[spans[p].0..spans[p].1] == w;
  }

  /** The text of every word span is found. */
  lemma {:induction false} SpanWordFound(s: string, a: nat, b: nat)
    requires IsWordSpan(s, a, b)
    ensures s[a..b] in FindWords(s)
  {
    var spans := MatchSpans(s, 0);
    MatchSpansComplete(s, 0, a, b);
    var p :| 0 <= p < |spans| && spans[p] == (a, b);
    assert FindWords(s)[p] == s[a..b];
  }

  /** A counted word is a word the regular expression finds in the
      lower-cased text that is not a stop word, and every such word is
      counted (`FindWordsExact` says which words it finds). */
  lemma {:induction false} CandidatesExact(text: string, w: string)
    ensures w in Candidates(text) <==> !IsStopWord(w) && w in FindWords(Lower(text))
  {
    assert Candidates(text) == DropStopWords(FindWords(Lower(text)));
  }

  /** The order of `most_common` stated on the words themselves: more
      occurrences first, and equal counts by first occurrence. */
  predicate Precedes(ws: seq<string>, a: string, b: string)
  {
    a in ws && b in ws &&
    (Count(ws, a) > Count(ws, b) || (Count(ws, a) == Count(ws, b) && IndexOf(ws, a) < IndexOf(ws, b)))
  }

  lemma {:induction false} RanksBeforeMeansPrecedes(ws: seq<string>, a: string, b: string)
    requires a in ws && b in ws
    ensures RanksBefore(Dedup(ws), Tally(ws), a, b) <==> Precedes(ws, a, b)
  {
    DedupKeepsFirstOccurrenceOrder(ws, a, b);
    var i :| 0 <= i < |ws| && ws[i] == a;
    var j :| 0 <= j < |ws| && ws[j] == b;
    assert a in Dedup(ws) && b in Dedup(ws);
  }

  /** A ranked sequence holds no word twice. */
  lemma {:induction false} RankedDistinct(order: seq<string>, counts: map<string, nat>, r: seq<string>)
    requires Ranked(order, counts, r)
    ensures Distinct(r)
  {
    forall i, j | 0 <= i < j < |r| ensures r[i] != r[j] {
      assert RanksBefore(order, counts, r[i], r[j]);
    }
  }

  /** `most_common(n)` is the first `n` words of the ranked, complete sort
      of the counter's words. */
  lemma {:induction false} MostCommonIsRankedPrefix(ws: seq<string>, n: nat)
    ensures var order := Dedup(ws); var counts := Tally(ws); var sorted := SortByCount(order, counts);
      && |sorted| == |order|
      && Ranked(order, counts, sorted)
      && (forall w :: w in ws ==> w in sorted)
      && MostCommon(order, counts, n) == sorted[..Min(n, |order|)]
  {
    var order := Dedup(ws);
    var counts := Tally(ws);
    var sorted := SortByCount(order, counts);
    assert |sorted| == |multiset(sorted)| == |order|;
    SortRanked(order, counts, |order|);
    assert order[..|order|] == order;
    forall w | w in ws ensures w in sorted {
      var p :| 0 <= p < |ws| && ws[p] == w;
      assert w in order;
      assert w in multiset(sorted);
    }
  }

  /** The words `most_common` keeps come by count, ties by first
      occurrence. */
  lemma {:induction false} MostCommonOrdered(ws: seq<string>, n: nat)
    ensures var r := MostCommon(Dedup(ws), Tally(ws), n);
      forall i, j :: 0 <= i < j < |r| ==> Precedes(ws, r[i], r[j])
  {
    var order := Dedup(ws);
    var counts := Tally(ws);
    var r := MostCommon(order, counts, n);
    MostCommonIsRankedPrefix(ws, n);
    forall i, j | 0 <= i < j < |r| ensures Precedes(ws, r[i], r[j]) {
      assert RanksBefore(order, counts, r[i], r[j]);
      RanksBeforeMeansPrecedes(ws, r[i], r[j]);
    }
  }

  /** No word that `most_common` leaves out outranks a word it keeps. */
  lemma {:induction false} MostCommonTop(ws: seq<string>, n: nat)
    ensures var r := MostCommon(Dedup(ws), Tally(ws), n);
      forall i, w :: 0 <= i < |r| && w in ws && w !in r ==> Precedes(ws, r[i], w)
  {
    var order := Dedup(ws);
    var counts := Tally(ws);
    var r := MostCommon(order, counts, n);
    var sorted := SortByCount(order, counts);
    MostCommonIsRankedPrefix(ws, n);
    var m := Min(n, |order|);
    forall i, w | 0 <= i < |r| && w in ws && w !in r ensures Precedes(ws, r[i], w) {
      assert r[i] == sorted[i];
      LeftOutRanksAfter(order, counts, sorted, m, i, w);
      RanksBeforeMeansPrecedes(ws, r[i], w);
    }
  }

  /** In a ranked sequence, a word outside its first `m` ranks after each
      of them. */
  lemma {:induction false} LeftOutRanksAfter(order: seq<string>, counts: map<string, nat>, sorted: seq<string>,
      m: nat, i: nat, w: string)
    requires Ranked(order, counts, sorted) && i < m <= |sorted|
    requires w in sorted && w !in sorted[..m]
    ensures RanksBefore(order, counts, sorted[i], w)
  {
    var k :| 0 <= k < |sorted| && sorted[k] == w;
  }

  /** `Counter(ws).most_common(n)`: at most `n` words, one per distinct word
      while there are fewer; no word twice; ordered by count, ties by first
      occurrence; and no word left out outranks a word that was kept. */
  lemma {:induction false} MostCommonSpec(ws: seq<string>, n: nat)
    ensures var r := MostCommon(Dedup(ws), Tally(ws), n);
      && |r| == Min(n, |Dedup(ws)|)
      && Distinct(r)
      && (forall w :: w in r ==> w in ws)
      && (forall i, j :: 0 <= i < j < |r| ==> Precedes(ws, r[i], r[j]))
      && (forall i, w :: 0 <= i < |r| && w in ws && w !in r ==> Precedes(ws, r[i], w))
  {
    var order := Dedup(ws);
    var counts := Tally(ws);
    var r := MostCommon(order, counts, n);
    MostCommonIsRankedPrefix(ws, n);
    assert Ranked(order, counts, r);
    RankedDistinct(order, counts, r);
    MostCommonOrdered(ws, n);
    MostCommonTop(ws, n);
  }

  /** `_extract_keywords_from_text`'s promise: the five most common counted
      words, each a lower-case word of three or more letters that is not a
      stop word. */
  lemma {:induction false} KeywordsFromTextSpec(text: string)
    ensures var ws := Candidates(text); var r := KeywordsFromText(text);
      && |r| == Min(MAX_KEYWORDS, |Dedup(ws)|)
      && Distinct(r)
      && (forall w :: w in r ==> IsLowerWord(w) && !IsStopWord(w))
      && (forall i, j :: 0 <= i < j < |r| ==> Precedes(ws, r[i], r[j]))
      && (forall i, w :: 0 <= i < |r| && w in ws && w !in r ==> Precedes(ws, r[i], w))
  {
    MostCommonSpec(Candidates(text), MAX_KEYWORDS);
  }

  /** Counting one more word: its count goes up by one, and a new word goes
      to the end of the insertion order. */
  lemma {:induction false} CounterStep(ws: seq<string>, w: string)
    ensures Tally(ws + [w]) == Tally(ws)[w := (if w in Tally(ws) then Tally(ws)[w] else 0) + 1]
    ensures Dedup(ws + [w]) == if w in Dedup(ws) then Dedup(ws) else Dedup(ws) + [w]
  {
    assert (ws + [w])[..|ws|] == ws;
  }

  /** Counting `words[i]` after the first `i` words, stated on the counter
      and insertion order of those words. */
  lemma {:induction false} CountNext(words: seq<string>, i: nat, counts: map<string, nat>, order: seq<string>)
    requires i < |words| && counts == Tally(words[..i]) && order == Dedup(words[..i])
    ensures words[i] in counts ==> Tally(words[..i + 1]) == counts[words[i] := counts[words[i]] + 1]
    ensures words[i] in counts ==> Dedup(words[..i + 1]) == order
    ensures words[i] !in counts ==> Tally(words[..i + 1]) == counts[words[i] := 1]
    ensures words[i] !in counts ==> Dedup(words[..i + 1]) == order + [words[i]]
  {
    var w := words[i];
    assert words[..i + 1] == words[..i] + [w];
    CounterStep(words[..i], w);
  }

  /** `counts[words[i]] += 1` on the `Counter` of the first `i` words:
      afterwards it is the `Counter` of the first `i + 1`, and a new word
      enters its insertion order at the end. */
  method CountWord(words: seq<string>, i: nat, counts: map<string, nat>, order: seq<string>)
    returns (counts': map<string, nat>, order': seq<string>)
    requires i < |words| && counts == Tally(words[..i]) && order == Dedup(words[..i])
    ensures counts' == Tally(words[..i + 1]) && order' == Dedup(words[..i + 1])
  {
    var w := words[i];
    CountNext(words, i, counts, order);
    if w in counts {
      counts', order' := counts[w := counts[w] + 1], order;
    } else {
      counts', order' := counts[w := 1], order + [w];
    }
  }

  /** `Counter(words)`: the words counted one by one into a counter that
      remembers the order in which each word was first seen. */
  method CountWords(words: seq<string>) returns (counts: map<string, nat>, order: seq<string>)
    ensures counts == Tally(words) && order == Dedup(words)
  {
    counts := map[];
    order := [];
    for i := 0 to |words|
      invariant counts == Tally(words[..i])
      invariant order == Dedup(words[..i])
    {
      counts, order := CountWord(words, i, counts, order);
    }
    assert words[..|words|] == words;
  }

  /** `_extract_keywords_from_text` */
  method ExtractKeywords(text: string) returns (keywords: seq<string>)
    ensures keywords == KeywordsFromText(text)
  {
    var filtered := Candidates(text);
    var counts, order := CountWords(filtered);
    keywords := MostCommon(order, counts, MAX_KEYWORDS);
  }
}
