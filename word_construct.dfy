/** One word of a sentence pattern (a literal or a regex) and its step of the
    right-to-left dynamic program: for every position of the user input, the
    best score of "this word followed by the rest of the pattern". */
module WordConstructs {
  import opened Wrappers
  import opened StandardScores

  /** A word of the user input; `end` is the position right after it. */
  datatype Word = Word(originalText: string, nfkdNormalizedText: string, end: int)

  /** What the tokenizer prepared for one input: its words, for every
      position the index of the word starting there (negative if none), and
      the cumulative weight of the characters up to every position. */
  datatype MatchHelper = MatchHelper(
    splitWords: seq<Word>,
    splitWordsIndices: seq<int>,
    cumulativeWeight: seq<real>)

  /** A pattern word. `regexMatches` is the full-match test of the regex
      compiled from `text`, used only when `isRegex` holds. */
  datatype WordConstruct = WordConstruct(
    text: string,
    isRegex: bool,
    isDiacriticsSensitive: bool,
    weight: real,
    regexMatches: string -> bool)

  /** The helper fits a score array of length n: every lookup the matcher
      makes stays inside the helper's sequences and the array. */
  predicate ValidHelper(h: MatchHelper, n: nat) {
    && n <= |h.splitWordsIndices|
    && n <= |h.cumulativeWeight|
    && (forall i :: 0 <= i < n ==> h.splitWordsIndices[i] < |h.splitWords|)
    && (forall j :: 0 <= j < |h.splitWords| ==> 0 <= h.splitWords[j].end < n)
  }

  /** Every word ends at or after the position it starts at. */
  predicate Progress(h: MatchHelper, n: nat)
    requires ValidHelper(h, n)
  {
    forall i :: 0 <= i < n && h.splitWordsIndices[i] >= 0 ==>
      h.splitWords[h.splitWordsIndices[i]].end >= i
  }

  /** The form of the word the construct compares against. */
  function WordText(c: WordConstruct, w: Word): (r: string)
    ensures c.isDiacriticsSensitive ==> r == w.originalText
    ensures !c.isDiacriticsSensitive ==> r == w.nfkdNormalizedText
  {
    if c.isDiacriticsSensitive then w.originalText else w.nfkdNormalizedText
  }

  /** A literal matches exactly the words whose compared form equals its
      text; a regex matches the words whose compared form it fully matches. */
  predicate Matches(c: WordConstruct, w: Word): (r: bool)
    ensures !c.isRegex && c.isDiacriticsSensitive ==> (r <==> w.originalText == c.text)
    ensures !c.isRegex && !c.isDiacriticsSensitive ==> (r <==> w.nfkdNormalizedText == c.text)
    ensures c.isRegex && c.isDiacriticsSensitive ==> (r <==> c.regexMatches(w.originalText))
    ensures c.isRegex && !c.isDiacriticsSensitive ==> (r <==> c.regexMatches(w.nfkdNormalizedText))
  {
    if c.isRegex then c.regexMatches(WordText(c, w)) else c.text == WordText(c, w)
  }

  /** A word starts at `start` and the construct matches it. */
  predicate MatchesAt(c: WordConstruct, h: MatchHelper, n: nat, start: nat)
    requires ValidHelper(h, n) && start < n
  {
    h.splitWordsIndices[start] >= 0 && Matches(c, h.splitWords[h.splitWordsIndices[start]])
  }

  /** `r` extends `rest` by a fully matched word: the matched weight on
      each side grows exactly as much as the considered weight. */
  predicate Consumes(r: StandardScore, rest: StandardScore, userWeight: real, weight: real) {
    && r.capturingGroups == rest.capturingGroups
    && r.userMatched == rest.userMatched + userWeight
    && r.userWeight == rest.userWeight + userWeight
    && r.refMatched == rest.refMatched + weight
    && r.refWeight == rest.refWeight + weight
  }

  /** The new score at `start`, computed from the scores `mem`: either skip
      the construct, charging its weight to the reference side, or consume
      the matching word starting here. */
  function Entry(c: WordConstruct, h: MatchHelper, mem: seq<StandardScore>, start: nat)
    : (r: StandardScore)
    requires ValidHelper(h, |mem|) && start < |mem|
    ensures !MatchesAt(c, h, |mem|, start) ==>
      && r.capturingGroups == mem[start].capturingGroups
      && r.userMatched == mem[start].userMatched
      && r.userWeight == mem[start].userWeight
      && r.refMatched == mem[start].refMatched
      && r.refWeight == mem[start].refWeight + c.weight
    ensures MatchesAt(c, h, |mem|, start) ==>
      var w := h.splitWords[h.splitWordsIndices[start]];
      var uw := h.cumulativeWeight[w.end] - h.cumulativeWeight[start];
      var skip := mem[start].PlusWeights(0.0, 0.0, 0.0, c.weight);
      && (r == skip || Consumes(r, mem[w.end], uw, c.weight))
      && r.Score() >= skip.Score()
      && r.Score() >= mem[w.end].Score() + 0.9 * (uw + c.weight)
      && (skip.Score() <= mem[w.end].Score() + 0.9 * (uw + c.weight) ==>
            Consumes(r, mem[w.end], uw, c.weight))
  {
    var skip := mem[start].PlusWeights(0.0, 0.0, 0.0, c.weight);
    var wordIndex := h.splitWordsIndices[start];
    if wordIndex >= 0 && Matches(c, h.splitWords[wordIndex]) then
      var w := h.splitWords[wordIndex];
      var uw := h.cumulativeWeight[w.end] - h.cumulativeWeight[start];
      KeepBest(Some(mem[w.end].PlusWeights(uw, uw, c.weight, c.weight)), skip)
    else
      skip
  }

  /** The construct's step as a pure map over the old scores: a position
      where the construct does not match is charged the construct's weight,
      and no position loses more than that charge. */
  function MatchAll(c: WordConstruct, h: MatchHelper, mem: seq<StandardScore>)
    : (r: seq<StandardScore>)
    requires ValidHelper(h, |mem|)
    ensures |r| == |mem|
    ensures forall i :: 0 <= i < |mem| && !MatchesAt(c, h, |mem|, i) ==>
      r[i] == mem[i].PlusWeights(0.0, 0.0, 0.0, c.weight)
  {
    seq(|mem|, i requires 0 <= i < |mem| => Entry(c, h, mem, i))
  }

  /** The scores after the positions below k have been rewritten one after
      the other, in ascending order, each from the scores as they are then. */
  function Fold(c: WordConstruct, h: MatchHelper, mem: seq<StandardScore>, k: nat)
    : (r: seq<StandardScore>)
    requires ValidHelper(h, |mem|) && k <= |mem|
    ensures |r| == |mem|
    ensures forall j :: k <= j < |mem| ==> r[j] == mem[j]
    decreases k
  {
    if k == 0 then mem
    else
      var p := Fold(c, h, mem, k - 1);
      p[k - 1 := Entry(c, h, p, k - 1)]
  }

  /** Entry reads the scores only at `start` and at the end of the word
      starting there. */
  lemma EntryReads(c: WordConstruct, h: MatchHelper, mem: seq<StandardScore>,
                   mem': seq<StandardScore>, start: nat)
    requires ValidHelper(h, |mem|) && |mem'| == |mem| && start < |mem|
    requires mem'[start] == mem[start]
    requires h.splitWordsIndices[start] >= 0 ==>
      var e := h.splitWords[h.splitWordsIndices[start]].end;
      mem'[e] == mem[e]
    ensures Entry(c, h, mem', start) == Entry(c, h, mem, start)
  {
  }

  /** When every word ends at or after its start, the in-place ascending
      rewrite reads only slots it has not rewritten yet, so it computes the
      pure map over the old scores. */
  lemma {:induction false} FoldIsMatchAll(c: WordConstruct, h: MatchHelper,
                                          mem: seq<StandardScore>, k: nat)
    requires ValidHelper(h, |mem|) && Progress(h, |mem|) && k <= |mem|
    ensures forall j :: 0 <= j < k ==> Fold(c, h, mem, k)[j] == Entry(c, h, mem, j)
  {
    if k > 0 {
      FoldIsMatchAll(c, h, mem, k - 1);
      var p := Fold(c, h, mem, k - 1);
      EntryReads(c, h, mem, p, k - 1);
    }
  }

  lemma FoldAllIsMatchAll(c: WordConstruct, h: MatchHelper, mem: seq<StandardScore>)
    requires ValidHelper(h, |mem|) && Progress(h, |mem|)
    ensures Fold(c, h, mem, |mem|) == MatchAll(c, h, mem)
  {
    FoldIsMatchAll(c, h, mem, |mem|);
  }

  /** One iteration of matchToEnd's loop: the position `start` gets the
      better of skipping the construct and consuming the matching word
      starting there; every other position is left alone. */
  method MatchAt(c: WordConstruct, memToEnd: array<StandardScore>, helper: MatchHelper, start: nat)
    requires ValidHelper(helper, memToEnd.Length) && start < memToEnd.Length
    modifies memToEnd
    ensures memToEnd[..] == old(memToEnd[..])[start := Entry(c, helper, old(memToEnd[..]), start)]
  {
    var cumulativeWeight := helper.cumulativeWeight;
    var wordIndex := helper.splitWordsIndices[start];
    if wordIndex >= 0 {
      var word := helper.splitWords[wordIndex];
      var wordText := if c.isDiacriticsSensitive then word.originalText else word.nfkdNormalizedText;
      var matches := if c.isRegex then c.regexMatches(wordText) else c.text == wordText;
      if matches {
        var userWeight := cumulativeWeight[word.end] - cumulativeWeight[start];
        memToEnd[start] := KeepBest(
          Some(memToEnd[word.end].PlusWeights(userWeight, userWeight, c.weight, c.weight)),
          memToEnd[start].PlusWeights(0.0, 0.0, 0.0, c.weight));
        return;
      }
    }
    memToEnd[start] := memToEnd[start].PlusWeights(0.0, 0.0, 0.0, c.weight);
  }

  /** The loop of matchToEnd: rewrites every position once, in ascending
      order, with the better of skipping and consuming the word there. */
  method MatchWords(c: WordConstruct, memToEnd: array<StandardScore>, helper: MatchHelper)
    requires ValidHelper(helper, memToEnd.Length)
    modifies memToEnd
    ensures memToEnd[..] == Fold(c, helper, old(memToEnd[..]), memToEnd.Length)
    ensures Progress(helper, memToEnd.Length) ==>
      memToEnd[..] == MatchAll(c, helper, old(memToEnd[..]))
  {
    for start := 0 to memToEnd.Length
      invariant memToEnd[..] == Fold(c, helper, old(memToEnd[..]), start)
    {
      MatchAt(c, memToEnd, helper, start);
    }
    if Progress(helper, memToEnd.Length) {
      FoldAllIsMatchAll(c, helper, old(memToEnd[..]));
    }
  }

  /** matchToEnd: the loop, then the normalisation of the whole array by the
      cumulative weights (whose definition is not part of this model). */
  method MatchToEnd(c: WordConstruct, memToEnd: array<StandardScore>, helper: MatchHelper,
                    normalize: (seq<StandardScore>, seq<real>) -> seq<StandardScore>)
    requires ValidHelper(helper, memToEnd.Length)
    requires |normalize(Fold(c, helper, memToEnd[..], memToEnd.Length), helper.cumulativeWeight)|
             == memToEnd.Length
    modifies memToEnd
    ensures memToEnd[..] == normalize(Fold(c, helper, old(memToEnd[..]), memToEnd.Length),
                                      helper.cumulativeWeight)
    ensures Progress(helper, memToEnd.Length) ==>
      memToEnd[..] == normalize(MatchAll(c, helper, old(memToEnd[..])), helper.cumulativeWeight)
  {
    MatchWords(c, memToEnd, helper);
    var normalized := normalize(memToEnd[..], helper.cumulativeWeight);
    forall i | 0 <= i < memToEnd.Length {
      memToEnd[i] := normalized[i];
    }
  }

  /* ----- Properties of the step ----- */

  /** Matched weight never exceeds considered weight, on either side, and
      no weight is negative. */
  predicate Sane(s: StandardScore) {
    0.0 <= s.userMatched <= s.userWeight && 0.0 <= s.refMatched <= s.refWeight
  }

  predicate NonDecreasing(w: seq<real>) {
    forall i, j :: 0 <= i <= j < |w| ==> w[i] <= w[j]
  }

  /** With a non-negative construct weight and a non-decreasing cumulative
      weight, the step keeps every score sane, so every score stays in the
      [0, 1] range its unit-range form promises. */
  lemma MatchAllKeepsSane(c: WordConstruct, h: MatchHelper, mem: seq<StandardScore>)
    requires ValidHelper(h, |mem|) && Progress(h, |mem|)
    requires c.weight >= 0.0 && NonDecreasing(h.cumulativeWeight)
    requires forall i :: 0 <= i < |mem| ==> Sane(mem[i])
    ensures forall i :: 0 <= i < |mem| ==>
      Sane(MatchAll(c, h, mem)[i]) && 0.0 <= MatchAll(c, h, mem)[i].ScoreIn01Range() <= 1.0
  {
  }

  /** Skipping costs a position the construct's weight on the reference
      side and matching never does worse than skipping, so the step lowers no
      score by more than that charge. */
  lemma MatchAllLosesAtMostWeight(c: WordConstruct, h: MatchHelper, mem: seq<StandardScore>)
    requires ValidHelper(h, |mem|)
    ensures forall i :: 0 <= i < |mem| ==>
      MatchAll(c, h, mem)[i].Score() >= mem[i].Score() - 1.1 * c.weight
  {
  }

  /** A construct that is not sensitive to diacritics compares only the
      normalised form, so words that normalise alike match alike. */
  lemma DiacriticsInsensitive(c: WordConstruct, w1: Word, w2: Word)
    requires !c.isDiacriticsSensitive && w1.nfkdNormalizedText == w2.nfkdNormalizedText
    ensures Matches(c, w1) == Matches(c, w2)
  {
  }
}
