/*
 * The credibility analysis of a piece of text: two keyword lists, three
 * textual signals, a clamped score, a risk level derived from the score and
 * an ordered list of flags.
 */
module Credibility {
  import opened Text

  /** Phrases whose presence lowers the score by 15 each. */
  const SuspiciousKeywords: seq<string> := [
    "doctors don't want you to know", "secret cure", "they don't want you to know",
    "mainstream media won't tell you", "big pharma conspiracy", "proven fact",
    "shocking truth", "leaked documents", "government coverup", "miracle cure"
  ]

  /** Phrases whose presence raises the score by 10 each. */
  const FactualKeywords: seq<string> := [
    "according to studies", "research shows", "peer-reviewed", "scientific evidence",
    "data indicates", "experts say", "published in", "verified sources"
  ]

  predicate Distinct(keywords: seq<string>)
  {
    forall i, j | 0 <= i < j < |keywords| :: keywords[i] != keywords[j]
  }

  /**
   * keywords.filter(k => lowered.includes(k.toLowerCase())): the keywords,
   * in list order, whose lower-case form occurs in the lowered text.
   */
  function MatchingKeywords(lowered: string, keywords: seq<string>): (found: seq<string>)
    ensures |found| <= |keywords|
    ensures forall k :: k in found <==> k in keywords && Includes(lowered, Lower(k))
  {
    if |keywords| == 0 then []
    else
      (if Includes(lowered, Lower(keywords[0])) then [keywords[0]] else [])
      + MatchingKeywords(lowered, keywords[1..])
  }

  /** The number of suspicious phrases found; zero exactly when none occurs, ignoring case. */
  function SuspiciousCount(text: string): (n: nat)
    ensures n <= |SuspiciousKeywords|
    ensures n == 0 <==> forall k :: k in SuspiciousKeywords ==> !Includes(Lower(text), Lower(k))
  {
    var found := MatchingKeywords(Lower(text), SuspiciousKeywords);
    assert |found| > 0 ==> found[0] in found;
    |found|
  }

  /** The number of factual phrases found; zero exactly when none occurs, ignoring case. */
  function FactualCount(text: string): (n: nat)
    ensures n <= |FactualKeywords|
    ensures n == 0 <==> forall k :: k in FactualKeywords ==> !Includes(Lower(text), Lower(k))
  {
    var found := MatchingKeywords(Lower(text), FactualKeywords);
    assert |found| > 0 ==> found[0] in found;
    |found|
  }

  /**
   * text.split(' ').length: only the space character separates words, so
   * there is one word more than there are spaces.
   */
  function WordCount(text: string): (n: nat)
    ensures n == CountChar(text, ' ') + 1
  {
    SplitLength(text, ' ');
    |Split(text, ' ')|
  }

  /**
   * The share of 'A'..'Z' characters exceeds 0.3, compared in integers:
   * caps / length > 0.3 is 10 * caps > 3 * length. For the empty text the
   * division is 0 / 0, which is not greater than 0.3, and so is this test.
   */
  predicate HasExcessiveCaps(text: string)
    ensures HasExcessiveCaps(text) ==> |text| > 0 && CountUpper(text) > 0
    ensures |text| > 0 && CountUpper(text) == |text| ==> HasExcessiveCaps(text)
  {
    10 * CountUpper(text) > 3 * |text|
  }

  /**
   * The case-insensitive test for two exclamation marks in a row or one of four words;
   * each needs at least two characters.
   */
  predicate HasEmotionalLanguage(text: string)
    ensures HasEmotionalLanguage(text) ==> |text| >= 2
  {
    var lowered := Lower(text);
    Includes(lowered, "!!") || Includes(lowered, "amazing") || Includes(lowered, "shocking")
    || Includes(lowered, "incredible") || Includes(lowered, "unbelievable")
  }

  /** The values the score and flags are computed from. */
  datatype Signals = Signals(
    suspiciousCount: nat,
    factualCount: nat,
    wordCount: nat,
    hasExcessiveCaps: bool,
    hasEmotionalLanguage: bool)

  /** The signals of a text, each within the range its definition allows. */
  function TextSignals(text: string): (sig: Signals)
    ensures sig.suspiciousCount <= 10 && sig.factualCount <= 8
    ensures sig.wordCount == CountChar(text, ' ') + 1
    ensures sig.hasExcessiveCaps ==> CountUpper(text) > 0
    ensures sig.hasEmotionalLanguage ==> |text| >= 2
  {
    Signals(SuspiciousCount(text), FactualCount(text), WordCount(text),
            HasExcessiveCaps(text), HasEmotionalLanguage(text))
  }

  function Max(a: int, b: int): int
  {
    if a >= b then a else b
  }

  function Min(a: int, b: int): int
  {
    if a <= b then a else b
  }

  /** Math.max(lo, Math.min(hi, x)): x pulled into the range lo..hi. */
  function Clamp(lo: int, hi: int, x: int): (r: int)
    requires lo <= hi
    ensures lo <= r <= hi
    ensures lo <= x <= hi ==> r == x
    ensures x < lo ==> r == lo
    ensures x > hi ==> r == hi
  {
    Max(lo, Min(hi, x))
  }

  /** The score before clamping: 75, minus 15 per suspicious phrase, plus 10 per factual phrase, minus 10 for capitals, minus 5 for emotion. */
  function UnclampedScore(sig: Signals): (r: int)
    ensures 60 - 15 * sig.suspiciousCount + 10 * sig.factualCount <= r <= 75 - 15 * sig.suspiciousCount + 10 * sig.factualCount
  {
    75 - sig.suspiciousCount * 15 + sig.factualCount * 10
    - (if sig.hasExcessiveCaps then 10 else 0)
    - (if sig.hasEmotionalLanguage then 5 else 0)
  }

  function CredibilityScore(sig: Signals): (score: int)
    ensures 0 <= score <= 100
    ensures 0 <= UnclampedScore(sig) <= 100 ==> score == UnclampedScore(sig)
  {
    Clamp(0, 100, UnclampedScore(sig))
  }

  datatype Risk = Low | Medium | High

  /** The risk ladder: above 70 is low, above 40 is medium, anything else high. */
  function RiskLevel(score: int): (risk: Risk)
    ensures risk == Low <==> score > 70
    ensures risk == Medium <==> 40 < score <= 70
    ensures risk == High <==> score <= 40
  {
    if score > 70 then Low else if score > 40 then Medium else High
  }

  /** Low < Medium < High. */
  function Severity(risk: Risk): nat
  {
    match risk
    case Low => 0
    case Medium => 1
    case High => 2
  }

  datatype Flag = SuspiciousLanguage | ExcessiveCaps | EmotionalManipulation | LacksSources

  /** The text shown for each flag. */
  function Message(flag: Flag): (msg: string)
    ensures |msg| > 0
  {
    match flag
    case SuspiciousLanguage => "Contains suspicious language patterns"
    case ExcessiveCaps => "Excessive use of capital letters"
    case EmotionalManipulation => "Emotional manipulation detected"
    case LacksSources => "Lacks credible source references"
  }

  /** The position of each flag in the report's fixed order. */
  function Rank(flag: Flag): nat
  {
    match flag
    case SuspiciousLanguage => 0
    case ExcessiveCaps => 1
    case EmotionalManipulation => 2
    case LacksSources => 3
  }

  /** The condition under which each flag is reported. */
  predicate Raised(sig: Signals, flag: Flag)
  {
    match flag
    case SuspiciousLanguage => sig.suspiciousCount > 0
    case ExcessiveCaps => sig.hasExcessiveCaps
    case EmotionalManipulation => sig.hasEmotionalLanguage
    case LacksSources => sig.factualCount == 0 && sig.wordCount > 50
  }

  /** The flags, each present exactly when its condition holds, in the fixed order. */
  function Flags(sig: Signals): (flags: seq<Flag>)
    ensures forall f :: f in flags <==> Raised(sig, f)
    ensures forall i, j :: 0 <= i < j < |flags| ==> Rank(flags[i]) < Rank(flags[j])
    ensures |flags| <= 4
  {
    (if sig.suspiciousCount > 0 then [SuspiciousLanguage] else [])
    + (if sig.hasExcessiveCaps then [ExcessiveCaps] else [])
    + (if sig.hasEmotionalLanguage then [EmotionalManipulation] else [])
    + (if sig.factualCount == 0 && sig.wordCount > 50 then [LacksSources] else [])
  }

  /** Math.floor(draw * 100) + 50 for a draw of Math.random() in [0, 1). */
  function Latency(draw: real): (ms: int)
    requires 0.0 <= draw < 1.0
    ensures 50 <= ms <= 149
  {
    (draw * 100.0).Floor + 50
  }

  datatype Report = Report(
    credibilityScore: int,
    riskLevel: Risk,
    flags: seq<Flag>,
    latency: int,
    processed: bool)

  /** The analysis of a text; draw stands for the value Math.random() returned. */
  function Analyze(text: string, draw: real): (report: Report)
    requires 0.0 <= draw < 1.0
    ensures 0 <= report.credibilityScore <= 100
    ensures report.riskLevel == RiskLevel(report.credibilityScore)
    ensures |report.flags| <= 4
    ensures 50 <= report.latency <= 149
    ensures report.processed
  {
    var sig := TextSignals(text);
    var score := CredibilityScore(sig);
    Report(score, RiskLevel(score), Flags(sig), Latency(draw), true)
  }

  /** The analysis step by step, with the score adjusted in place. */
  method AnalyzeContent(inputText: string, draw: real) returns (analysis: Report)
    requires 0.0 <= draw < 1.0
    ensures analysis == Analyze(inputText, draw)
  {
    var lowered := Lower(inputText);
    var suspiciousCount := |MatchingKeywords(lowered, SuspiciousKeywords)|;
    var factualCount := |MatchingKeywords(lowered, FactualKeywords)|;
    var wordCount := |Split(inputText, ' ')|;
    var hasExcessiveCaps := 10 * CountUpper(inputText) > 3 * |inputText|;
    var hasEmotionalLanguage := HasEmotionalLanguage(inputText);
    assert suspiciousCount == SuspiciousCount(inputText);
    assert factualCount == FactualCount(inputText);
    assert wordCount == WordCount(inputText);
    assert hasExcessiveCaps == HasExcessiveCaps(inputText);
    ghost var sig := Signals(suspiciousCount, factualCount, wordCount, hasExcessiveCaps, hasEmotionalLanguage);
    assert sig == TextSignals(inputText);

    var credibilityScore := 75;
    credibilityScore := credibilityScore - suspiciousCount * 15;
    credibilityScore := credibilityScore + factualCount * 10;
    credibilityScore := credibilityScore - if hasExcessiveCaps then 10 else 0;
    credibilityScore := credibilityScore - if hasEmotionalLanguage then 5 else 0;
    credibilityScore := Max(0, Min(100, credibilityScore));

    var riskLevel := if credibilityScore > 70 then Low else if credibilityScore > 40 then Medium else High;
    var flags := (if suspiciousCount > 0 then [SuspiciousLanguage] else [])
      + (if hasExcessiveCaps then [ExcessiveCaps] else [])
      + (if hasEmotionalLanguage then [EmotionalManipulation] else [])
      + (if factualCount == 0 && wordCount > 50 then [LacksSources] else []);
    assert credibilityScore == CredibilityScore(sig);
    assert flags == Flags(sig);
    analysis := Report(credibilityScore, riskLevel, flags, Latency(draw), true);
  }
}
