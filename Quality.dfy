/** The response quality scorer, `evaluateResponse` of
    src/utils/Synthesizer.ts: an advisory score from the length, structure,
    code marks and hedging phrases of a text. */
module Quality {
  import opened Strings
  import opened Folds

  /** The hedging phrases that cost ten points each when present. */
  const HedgePhrases: seq<string> := ["모르겠", "확실하지", "잘 모르", "아마도", "가능합니다만"]

  /** How many entries of `phrases` occur in `content` (an entry counts once
      however often it occurs); the `reduce` of `evaluateResponse`. */
  function PhrasesPresent(phrases: seq<string>, content: string): (n: nat)
    ensures n <= |phrases|
  {
    CountIf(phrases, Present(content))
  }

  /** Whether a phrase occurs in `content`. */
  function Present(content: string): string -> bool {
    p => Contains(content, p)
  }

  /** With distinct phrases, the count is the number of distinct phrases
      present. */
  lemma PhrasesPresentIsCardinality(phrases: seq<string>, content: string)
    requires forall i, j :: 0 <= i < j < |phrases| ==> phrases[i] != phrases[j]
    ensures PhrasesPresent(phrases, content) == |set p | p in phrases && Contains(content, p)|
  {
    CountIfIsCardinality(phrases, Present(content));
    assert forall p :: p in Satisfying(phrases, Present(content)) <==> p in phrases && Contains(content, p);
    assert Satisfying(phrases, Present(content)) == (set p | p in phrases && Contains(content, p));
  }

  /** The hedge lexicon's count is the number of distinct hedge phrases
      present. */
  lemma HedgeCount(content: string)
    ensures PhrasesPresent(HedgePhrases, content) == |set p | p in HedgePhrases && Contains(content, p)|
  {
    assert forall i, j :: 0 <= i < j < |HedgePhrases| ==> HedgePhrases[i][0] != HedgePhrases[j][0];
    PhrasesPresentIsCardinality(HedgePhrases, content);
  }

  /** Points for length: 20 strictly between 50 and 5000, else 10 above 10. */
  function LengthPoints(n: nat): int {
    if n > 50 && n < 5000 then 20 else if n > 10 then 10 else 0
  }

  /** `Math.max(0, Math.min(100, score))`. */
  function Clamp(score: int): int {
    if score > 100 then 100 else if score < 0 then 0 else score
  }

  /** The points a non-blank text earns before the hedge penalty: length,
      then 10 for a newline, a bullet or a hyphen, then 5 for a backtick (the
      test for a code fence is subsumed by it). */
  function RawScore(content: string): (s: int)
    ensures 0 <= s <= 35
  {
    var structure := if Contains(content, "\n") || Contains(content, "•") || Contains(content, "-") then 10 else 0;
    var code := if Contains(content, "```") || Contains(content, "`") then 5 else 0;
    LengthPoints(|content|) + structure + code
  }

  /** The score of a text in which `hedges` hedge phrases are present. */
  function ScoreWith(content: string, hedges: nat): int {
    if Trim(content) == "" then 0 else Clamp(RawScore(content) - hedges * 10)
  }

  /** 0 for a blank text; otherwise the raw points less ten per hedge, or 0
      when the hedges outweigh them; always within [0, 35]. */
  lemma ScoreWithRules(content: string, hedges: nat)
    ensures 0 <= ScoreWith(content, hedges) <= 35
    ensures IsBlank(content) ==> ScoreWith(content, hedges) == 0
    ensures !IsBlank(content) && 10 * hedges <= RawScore(content)
      ==> ScoreWith(content, hedges) == RawScore(content) - 10 * hedges
    ensures !IsBlank(content) && 10 * hedges > RawScore(content) ==> ScoreWith(content, hedges) == 0
  {
    TrimEmptyIffBlank(content);
  }

  /** The score `evaluateResponse` computes, with the source's lexicon. */
  function QualityScore(content: string): int {
    ScoreWith(content, PhrasesPresent(HedgePhrases, content))
  }

  /** The score is 0 for blank text, always lies in [0, 35] (so within the
      documented [0, 100]), and each distinct hedge phrase present costs ten
      points however often it occurs. */
  lemma QualityScoreRules(content: string)
    ensures 0 <= QualityScore(content) <= 35
    ensures IsBlank(content) ==> QualityScore(content) == 0
    ensures QualityScore(content)
      == ScoreWith(content, |set p | p in HedgePhrases && Contains(content, p)|)
  {
    ScoreWithRules(content, PhrasesPresent(HedgePhrases, content));
    HedgeCount(content);
  }

  /** A non-blank text of length 100 with a newline, no backtick and exactly
      one hedge phrase present scores 20 + 10 - 10 = 20. */
  lemma QualityScoreExample(content: string)
    requires !IsBlank(content)
    requires |content| == 100 && Contains(content, "\n") && !Contains(content, "`")
    requires |set p | p in HedgePhrases && Contains(content, p)| == 1
    ensures QualityScore(content) == 20
  {
    QualityScoreRules(content);
    ScoreWithRules(content, 1);
    if Contains(content, "```") {
      assert "`" + "``" == "```";
      ContainsPrefixOfPattern(content, "`", "``");
    }
    assert RawScore(content) == 30;
  }

  /** The `reduce` over the lexicon, as a loop. */
  method CountPhrases(phrases: seq<string>, content: string) returns (count: nat)
    ensures count == PhrasesPresent(phrases, content)
  {
    count := 0;
    var i := 0;
    while i < |phrases|
      invariant 0 <= i <= |phrases|
      invariant count == PhrasesPresent(phrases[..i], content)
    {
      assert phrases[..i + 1][..i] == phrases[..i];
      count := count + (if Contains(content, phrases[i]) then 1 else 0);
      i := i + 1;
    }
    assert phrases[..i] == phrases;
  }

  /** A text that trims to something scores its raw points less ten per
      hedge, clamped. */
  lemma NonBlankScore(content: string, hedges: nat)
    requires Trim(content) != ""
    ensures ScoreWith(content, hedges) == Clamp(RawScore(content) - hedges * 10)
  {
  }

  /** `evaluateResponse(content)`: 0 for a text that trims to nothing,
      otherwise the points `ScorePoints` adds up. */
  method EvaluateResponse(content: string) returns (score: int)
    ensures score == QualityScore(content)
    ensures 0 <= score <= 35
  {
    if Trim(content) == "" {
      return 0;
    }
    score := ScorePoints(content);
    NonBlankScore(content, PhrasesPresent(HedgePhrases, content));
    ScoreWithRules(content, PhrasesPresent(HedgePhrases, content));
  }

  /** The body of `evaluateResponse` after the blank test, updating `score`
      step by step: length, structure and code points, less ten per hedge
      phrase present, clamped. */
  method ScorePoints(content: string) returns (score: int)
    ensures score == Clamp(RawScore(content) - PhrasesPresent(HedgePhrases, content) * 10)
  {
    score := 0;
    var length := |content|;
    if length > 50 && length < 5000 {
      score := score + 20;
    } else if length > 10 {
      score := score + 10;
    }
    assert score == LengthPoints(|content|);
    if Contains(content, "\n") || Contains(content, "•") || Contains(content, "-") {
      score := score + 10;
    }
    if Contains(content, "```") || Contains(content, "`") {
      score := score + 5;
    }
    assert score == RawScore(content);
    var count := CountPhrases(HedgePhrases, content);
    score := score - count * 10;
    score := if score > 100 then 100 else if score < 0 then 0 else score;
  }
}
