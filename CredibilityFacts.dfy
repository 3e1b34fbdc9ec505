/*
 * Properties of the credibility analysis: how the score is formed and
 * bounded, how it moves with each signal, what the risk level and the flags
 * depend on, and how the integer and substring tests relate to the ratio and
 * regular-expression tests they stand for.
 */
module CredibilityFacts {
  import opened Text
  import opened Credibility

  // ---------------------------------------------------------------------
  // The keyword lists

  /** No keyword is listed twice. */
  lemma KeywordListsAreDistinct()
    ensures Distinct(SuspiciousKeywords)
    ensures Distinct(FactualKeywords)
  {
  }

  /** No keyword is empty, so none is found in the empty text. */
  lemma KeywordsAreNonEmpty()
    ensures forall k :: k in SuspiciousKeywords + FactualKeywords ==> |k| > 0
  {
  }

  /** Filtering keeps at most the keywords whose condition holds, and a weaker text never keeps more. */
  lemma {:induction false} MatchingMonotone(a: string, b: string, keywords: seq<string>)
    requires forall k :: k in keywords && Includes(a, Lower(k)) ==> Includes(b, Lower(k))
    ensures |MatchingKeywords(a, keywords)| <= |MatchingKeywords(b, keywords)|
  {
    if |keywords| > 0 {
      assert keywords[0] in keywords;
      forall k | k in keywords[1..] && Includes(a, Lower(k))
        ensures Includes(b, Lower(k))
      {
        assert k in keywords;
      }
      MatchingMonotone(a, b, keywords[1..]);
    }
  }

  /** The filter finds nothing exactly when no keyword occurs. */
  lemma MatchingEmptyIff(lowered: string, keywords: seq<string>)
    ensures |MatchingKeywords(lowered, keywords)| == 0
        <==> forall k :: k in keywords ==> !Includes(lowered, Lower(k))
  {
    var found := MatchingKeywords(lowered, keywords);
    if |found| > 0 {
      assert found[0] in found;
    }
  }

  /** Counting from position t on: the keyword at t adds one exactly when it occurs. */
  lemma MatchingFrom(lowered: string, keywords: seq<string>, t: int)
    requires 0 <= t < |keywords|
    ensures |MatchingKeywords(lowered, keywords[t..])|
         == (if Includes(lowered, Lower(keywords[t])) then 1 else 0) + |MatchingKeywords(lowered, keywords[t + 1..])|
  {
    assert keywords[t..][1..] == keywords[t + 1..];
  }

  /** The keywords of a list without repeats that occur in the lowered text. */
  function FoundSet(lowered: string, keywords: seq<string>): set<string>
  {
    set k | k in keywords && Includes(lowered, Lower(k))
  }

  /** For a list without repeats, the filter's length is the number of distinct keywords found. */
  lemma {:induction false} MatchingCountsDistinctPhrases(lowered: string, keywords: seq<string>)
    requires Distinct(keywords)
    ensures |MatchingKeywords(lowered, keywords)| == |FoundSet(lowered, keywords)|
  {
    if |keywords| > 0 {
      var first, rest := keywords[0], keywords[1..];
      assert Distinct(rest) by {
        forall i, j | 0 <= i < j < |rest|
          ensures rest[i] != rest[j]
        {
          assert rest[i] == keywords[i + 1] && rest[j] == keywords[j + 1];
        }
      }
      MatchingCountsDistinctPhrases(lowered, rest);
      var tail := FoundSet(lowered, rest);
      assert first !in tail by {
        forall i | 0 <= i < |rest|
          ensures rest[i] != first
        {
          assert rest[i] == keywords[i + 1];
        }
      }
      assert forall k :: k in keywords <==> k == first || k in rest by {
        assert keywords == [first] + rest;
      }
      if Includes(lowered, Lower(first)) {
        assert FoundSet(lowered, keywords) == {first} + tail;
      } else {
        assert FoundSet(lowered, keywords) == tail;
      }
    }
  }

  /** The suspicious count is the number of distinct suspicious phrases in the lowered text, at most 10. */
  lemma SuspiciousCountIsDistinctPhrases(text: string)
    ensures SuspiciousCount(text)
         == |FoundSet(Lower(text), SuspiciousKeywords)|
    ensures SuspiciousCount(text) <= 10
  {
    KeywordListsAreDistinct();
    MatchingCountsDistinctPhrases(Lower(text), SuspiciousKeywords);
  }

  /** The factual count is the number of distinct factual phrases in the lowered text, at most 8. */
  lemma FactualCountIsDistinctPhrases(text: string)
    ensures FactualCount(text)
         == |FoundSet(Lower(text), FactualKeywords)|
    ensures FactualCount(text) <= 8
  {
    KeywordListsAreDistinct();
    MatchingCountsDistinctPhrases(Lower(text), FactualKeywords);
  }

  /** Appending text never loses a phrase, so neither count can drop. */
  lemma AppendingNeverLowersCounts(text: string, more: string)
    ensures SuspiciousCount(text) <= SuspiciousCount(text + more)
    ensures FactualCount(text) <= FactualCount(text + more)
  {
    LowerAppend(text, more);
    forall p | Includes(Lower(text), p)
      ensures Includes(Lower(text + more), p)
    {
      IncludesExtend("", Lower(text), Lower(more), p);
      assert "" + Lower(text) + Lower(more) == Lower(text + more);
    }
    MatchingMonotone(Lower(text), Lower(text + more), SuspiciousKeywords);
    MatchingMonotone(Lower(text), Lower(text + more), FactualKeywords);
  }

  // ---------------------------------------------------------------------
  // The score

  /** The score is 75 - 15s + 10f - 10[caps] - 5[emotion], clamped into 0..100. */
  lemma ScoreFormula(text: string, draw: real)
    requires 0.0 <= draw < 1.0
    ensures Analyze(text, draw).credibilityScore
         == Clamp(0, 100, 75 - 15 * SuspiciousCount(text) + 10 * FactualCount(text)
                          - (if HasExcessiveCaps(text) then 10 else 0)
                          - (if HasEmotionalLanguage(text) then 5 else 0))
  {
    var sig := TextSignals(text);
    assert Analyze(text, draw).credibilityScore == CredibilityScore(sig);
  }

  /** Every adjustment is a multiple of 5, and so are both ends of the clamp: the score is one too. */
  lemma ScoreIsMultipleOfFive(sig: Signals)
    ensures CredibilityScore(sig) % 5 == 0
  {
    var u := UnclampedScore(sig);
    assert u == 5 * (15 - 3 * sig.suspiciousCount + 2 * sig.factualCount
                     - (if sig.hasExcessiveCaps then 2 else 0)
                     - (if sig.hasEmotionalLanguage then 1 else 0));
  }

  /** A text with none of the signals keeps the starting score of 75. */
  lemma NeutralSignalsScore(sig: Signals)
    requires sig.suspiciousCount == 0 && sig.factualCount == 0
    requires !sig.hasExcessiveCaps && !sig.hasEmotionalLanguage
    ensures CredibilityScore(sig) == 75
  {
  }

  /** More suspicious phrases never raise the score. */
  lemma SuspiciousNeverRaisesScore(sig: Signals, n: nat)
    requires sig.suspiciousCount <= n
    ensures CredibilityScore(sig.(suspiciousCount := n)) <= CredibilityScore(sig)
  {
  }

  /** More factual phrases never lower the score. */
  lemma FactualNeverLowersScore(sig: Signals, n: nat)
    requires sig.factualCount <= n
    ensures CredibilityScore(sig) <= CredibilityScore(sig.(factualCount := n))
  {
  }

  /** Raising either boolean signal never raises the score. */
  lemma BooleanSignalsNeverRaiseScore(sig: Signals)
    ensures CredibilityScore(sig.(hasExcessiveCaps := true)) <= CredibilityScore(sig)
    ensures CredibilityScore(sig.(hasEmotionalLanguage := true)) <= CredibilityScore(sig)
  {
  }

  /**
   * Between two texts that agree on factual phrases, capitals and emotion,
   * the one containing every suspicious phrase of the other scores no higher.
   */
  lemma MoreSuspiciousPhrasesNeverRaiseScore(t: string, u: string, draw: real)
    requires 0.0 <= draw < 1.0
    requires forall k :: k in SuspiciousKeywords && Includes(Lower(t), Lower(k)) ==> Includes(Lower(u), Lower(k))
    requires FactualCount(t) == FactualCount(u)
    requires HasExcessiveCaps(t) == HasExcessiveCaps(u)
    requires HasEmotionalLanguage(t) == HasEmotionalLanguage(u)
    ensures Analyze(u, draw).credibilityScore <= Analyze(t, draw).credibilityScore
  {
    MatchingMonotone(Lower(t), Lower(u), SuspiciousKeywords);
    SuspiciousNeverRaisesScore(TextSignals(t), SuspiciousCount(u));
    assert CredibilityScore(TextSignals(t).(suspiciousCount := SuspiciousCount(u))) == CredibilityScore(TextSignals(u));
  }

  /**
   * Between two texts that agree on suspicious phrases, capitals and emotion,
   * the one containing every factual phrase of the other scores no lower.
   */
  lemma MoreFactualPhrasesNeverLowerScore(t: string, u: string, draw: real)
    requires 0.0 <= draw < 1.0
    requires forall k :: k in FactualKeywords && Includes(Lower(t), Lower(k)) ==> Includes(Lower(u), Lower(k))
    requires SuspiciousCount(t) == SuspiciousCount(u)
    requires HasExcessiveCaps(t) == HasExcessiveCaps(u)
    requires HasEmotionalLanguage(t) == HasEmotionalLanguage(u)
    ensures Analyze(t, draw).credibilityScore <= Analyze(u, draw).credibilityScore
  {
    MatchingMonotone(Lower(t), Lower(u), FactualKeywords);
    FactualNeverLowersScore(TextSignals(t), FactualCount(u));
    assert CredibilityScore(TextSignals(t).(factualCount := FactualCount(u))) == CredibilityScore(TextSignals(u));
  }

  // ---------------------------------------------------------------------
  // The risk level

  /** A higher score never means a higher risk. */
  lemma RiskMonotone(low: int, high: int)
    requires low <= high
    ensures Severity(RiskLevel(high)) <= Severity(RiskLevel(low))
  {
  }

  /** Two analyses with the same score report the same risk, whatever else differs. */
  lemma RiskDependsOnlyOnScore(t: string, u: string, draw: real, draw': real)
    requires 0.0 <= draw < 1.0 && 0.0 <= draw' < 1.0
    requires Analyze(t, draw).credibilityScore == Analyze(u, draw').credibilityScore
    ensures Analyze(t, draw).riskLevel == Analyze(u, draw').riskLevel
  {
  }

  // ---------------------------------------------------------------------
  // The flags

  /** The four messages are pairwise different, so the shown list identifies the flags. */
  lemma MessagesAreDistinct(f: Flag, g: Flag)
    requires Message(f) == Message(g)
    ensures f == g
  {
  }

  /** Each flag is listed exactly when its signal is present, in the fixed order. */
  lemma FlagsOfSignals(sig: Signals)
    ensures SuspiciousLanguage in Flags(sig) <==> sig.suspiciousCount > 0
    ensures ExcessiveCaps in Flags(sig) <==> sig.hasExcessiveCaps
    ensures EmotionalManipulation in Flags(sig) <==> sig.hasEmotionalLanguage
    ensures LacksSources in Flags(sig) <==> sig.factualCount == 0 && sig.wordCount > 50
  {
    assert Raised(sig, SuspiciousLanguage) <==> sig.suspiciousCount > 0;
  }

  /** Each flag of the analysis is raised exactly when its signal is present, in the fixed order. */
  lemma FlagsOfText(text: string, draw: real)
    requires 0.0 <= draw < 1.0
    ensures SuspiciousLanguage in Analyze(text, draw).flags <==> SuspiciousCount(text) > 0
    ensures ExcessiveCaps in Analyze(text, draw).flags <==> HasExcessiveCaps(text)
    ensures EmotionalManipulation in Analyze(text, draw).flags <==> HasEmotionalLanguage(text)
    ensures LacksSources in Analyze(text, draw).flags
        <==> FactualCount(text) == 0 && WordCount(text) > 50
    ensures var flags := Analyze(text, draw).flags;
      forall i, j :: 0 <= i < j < |flags| ==> Rank(flags[i]) < Rank(flags[j])
  {
    FlagsOfSignals(TextSignals(text));
  }

  /** The suspicious-language flag is raised exactly when some suspicious phrase occurs, ignoring case. */
  lemma SuspiciousFlagIff(text: string, draw: real)
    requires 0.0 <= draw < 1.0
    ensures SuspiciousLanguage in Analyze(text, draw).flags
        <==> exists k :: k in SuspiciousKeywords && Includes(Lower(text), Lower(k))
  {
    MatchingEmptyIff(Lower(text), SuspiciousKeywords);
  }

  /**
   * The missing-sources flag is raised exactly when no factual phrase occurs
   * and the text holds at least 50 spaces, that is, more than 50 words.
   */
  lemma {:induction false} LacksSourcesIff(text: string, draw: real)
    requires 0.0 <= draw < 1.0
    ensures LacksSources in Analyze(text, draw).flags
        <==> (forall k :: k in FactualKeywords ==> !Includes(Lower(text), Lower(k)))
             && CountChar(text, ' ') >= 50
  {
    SplitLength(text, ' ');
    MatchingEmptyIff(Lower(text), FactualKeywords);
  }

  // ---------------------------------------------------------------------
  // The integer and substring tests against the tests they stand for

  /**
   * The integer caps test agrees with caps / length > 0.3 in real numbers;
   * for the empty text the source divides 0 by 0, and that comparison is false.
   */
  lemma ExcessiveCapsIsRatio(text: string)
    ensures HasExcessiveCaps(text)
        <==> |text| > 0 && (CountUpper(text) as real) / (|text| as real) > 0.3
  {
    if |text| > 0 {
      RatioTest(CountUpper(text), |text|);
    }
  }

  lemma RatioTest(c: nat, n: nat)
    requires n > 0
    ensures 10 * c > 3 * n <==> (c as real) / (n as real) > 0.3
  {
    var q := (c as real) / (n as real);
    assert q * (n as real) == c as real;
    assert q > 0.3 ==> q * (n as real) > 0.3 * (n as real);
    assert q <= 0.3 ==> q * (n as real) <= 0.3 * (n as real);
  }

  /** The alternative !{2,} matches at k with a run of n exclamation marks. */
  predicate BangRunAt(s: string, k: int, n: int)
  {
    2 <= n && 0 <= k && k + n <= |s| && forall j | k <= j < k + n :: s[j] == '!'
  }

  /** Under the i flag, the word w matches at k when the characters agree up to case. */
  predicate FoldedMatchAt(s: string, w: string, k: int)
  {
    0 <= k && k + |w| <= |s| && forall j | 0 <= j < |w| :: LowerChar(s[k + j]) == LowerChar(w[j])
  }

  /** Some alternative of /(!{2,}|amazing|shocking|incredible|unbelievable)/i matches at k. */
  predicate EmotionalPatternAt(s: string, k: int)
  {
    (exists n | 2 <= n <= |s| - k :: BangRunAt(s, k, n))
    || FoldedMatchAt(s, "amazing", k) || FoldedMatchAt(s, "shocking", k)
    || FoldedMatchAt(s, "incredible", k) || FoldedMatchAt(s, "unbelievable", k)
  }

  /** RegExp.prototype.test: the pattern matches at some position. */
  predicate EmotionalPatternTest(s: string)
  {
    exists k | 0 <= k <= |s| :: EmotionalPatternAt(s, k)
  }

  lemma FoldedMatchIsLoweredOccurrence(s: string, w: string, k: int)
    requires Lower(w) == w
    ensures FoldedMatchAt(s, w, k) <==> OccursAt(Lower(s), w, k)
  {
    if FoldedMatchAt(s, w, k) {
      assert Lower(s)[k..k + |w|] == w by {
        forall j | 0 <= j < |w|
          ensures Lower(s)[k..k + |w|][j] == w[j]
        {
          assert LowerChar(w[j]) == Lower(w)[j];
        }
      }
    }
    if OccursAt(Lower(s), w, k) {
      forall j | 0 <= j < |w|
        ensures LowerChar(s[k + j]) == LowerChar(w[j])
      {
        assert Lower(s)[k..k + |w|][j] == Lower(s)[k + j];
        assert LowerChar(w[j]) == Lower(w)[j];
      }
    }
  }

  lemma BangRunIsDoubleBang(s: string, k: int)
    ensures (exists n | 2 <= n <= |s| - k :: BangRunAt(s, k, n)) <==> OccursAt(Lower(s), "!!", k)
  {
    if exists n | 2 <= n <= |s| - k :: BangRunAt(s, k, n) {
      var n :| 2 <= n <= |s| - k && BangRunAt(s, k, n);
      assert s[k] == '!' && s[k + 1] == '!';
      assert Lower(s)[k..k + 2] == "!!";
    }
    if OccursAt(Lower(s), "!!", k) {
      assert Lower(s)[k..k + 2][0] == Lower(s)[k];
      assert Lower(s)[k..k + 2][1] == Lower(s)[k + 1];
      assert s[k] == '!' && s[k + 1] == '!';
      assert BangRunAt(s, k, 2);
    }
  }

  /** The regular-expression test and the lowered substring tests agree on every text. */
  lemma EmotionalPatternTestAgrees(text: string)
    ensures EmotionalPatternTest(text) <==> HasEmotionalLanguage(text)
  {
    var words := ["amazing", "shocking", "incredible", "unbelievable"];
    forall w | w in words
      ensures Lower(w) == w
    {
      assert forall i :: 0 <= i < |w| ==> !IsUpper(w[i]);
      LowerOfLowerCase(w);
    }
    forall k | 0 <= k <= |text|
      ensures EmotionalPatternAt(text, k)
          <==> (OccursAt(Lower(text), "!!", k) || OccursAt(Lower(text), "amazing", k)
                || OccursAt(Lower(text), "shocking", k) || OccursAt(Lower(text), "incredible", k)
                || OccursAt(Lower(text), "unbelievable", k))
    {
      BangRunIsDoubleBang(text, k);
      FoldedMatchIsLoweredOccurrence(text, "amazing", k);
      FoldedMatchIsLoweredOccurrence(text, "shocking", k);
      FoldedMatchIsLoweredOccurrence(text, "incredible", k);
      FoldedMatchIsLoweredOccurrence(text, "unbelievable", k);
    }
  }

  // ---------------------------------------------------------------------
  // The empty text

  /** No keyword occurs in the empty text. */
  lemma EmptyTextHasNoKeywords()
    ensures SuspiciousCount("") == 0 && FactualCount("") == 0
  {
    KeywordsAreNonEmpty();
    forall k | k in SuspiciousKeywords + FactualKeywords
      ensures !Includes(Lower(""), Lower(k))
    {
      IncludesBounds(Lower(""), Lower(k));
    }
    MatchingEmptyIff(Lower(""), SuspiciousKeywords);
    MatchingEmptyIff(Lower(""), FactualKeywords);
  }

  lemma EmptyTextHasNoEmotion()
    ensures !HasEmotionalLanguage("")
  {
    IncludesBounds(Lower(""), "!!");
    IncludesBounds(Lower(""), "amazing");
    IncludesBounds(Lower(""), "shocking");
    IncludesBounds(Lower(""), "incredible");
    IncludesBounds(Lower(""), "unbelievable");
  }

  /** The empty text has no keyword, no capital, no emotion and one (empty) word. */
  lemma EmptyTextSignals()
    ensures TextSignals("") == Signals(0, 0, 1, false, false)
  {
    EmptyTextHasNoKeywords();
    EmptyTextHasNoEmotion();
  }

  /** The empty text keeps the starting score: 75, low risk, no flags. */
  lemma EmptyTextAnalysis(draw: real)
    requires 0.0 <= draw < 1.0
    ensures Analyze("", draw) == Report(75, Low, [], Latency(draw), true)
  {
    EmptyTextSignals();
  }
}
