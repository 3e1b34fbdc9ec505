/*
 * The first sample text offered on the page (src/app/page.tsx:121): a report of a
 * peer-reviewed study. It holds two factual phrases and no other signal, so
 * the score is 75 + 2 * 10 = 95, the risk low and no flag is raised.
 */
module StudySample {
  import opened Text
  import opened WordLists
  import opened Credibility
  import opened CredibilityFacts

  /*
   * How the facts about the sample are proved. The sample is written as its
   * words joined by single spaces rather than as one long literal, so that
   * each fact about the whole text reduces to facts about short words:
   *  - its length, its capitals and its lowered form follow from those of
   *    the words (WordLists.JoinLength, JoinUpper and LowerJoin);
   *  - a phrase that occurs is found in a short run of consecutive lowered
   *    words (WordLists.JoinIncludesRunOf);
   *  - a phrase that does not occur is ruled out through a piece of it, one
   *    to three characters long, that no lowered word contains
   *    (WordLists.JoinAvoidsChar, JoinAvoidsPair and JoinAvoidsTriple) or,
   *    for a piece holding a space, that no two neighbouring words form
   *    (WordLists.JoinAvoidsAcross). LacksPieceOfK and the AvoidsPiecesOf
   *    lemmas are named after the phrase K whose piece they rule out.
   * The words are grouped in parts of at most 8, and each per-word fact is
   * proved part by part, which keeps every proof small.
   */

  // The words of the sample, part by part.

  const Part1: seq<string> := [
    "According", "to", "a", "peer-reviewed", "study", "published", "in",
    "Nature"
  ]

  const Part2: seq<string> := [
    "Medicine,", "researchers", "found", "that", "regular", "exercise", "can",
    "reduce"
  ]

  const Part3: seq<string> := [
    "the", "risk", "of", "cardiovascular", "disease", "by", "up", "to"
  ]

  const Part4: seq<string> := [
    "30%.", "The", "study", "followed", "10,000", "participants", "over", "5"
  ]

  const Part5: seq<string> := [
    "years."
  ]

  // The same words with every capital lowered.

  const LoweredPart1: seq<string> := [
    "according", "to", "a", "peer-reviewed", "study", "published", "in",
    "nature"
  ]

  const LoweredPart2: seq<string> := [
    "medicine,", "researchers", "found", "that", "regular", "exercise", "can",
    "reduce"
  ]

  const LoweredPart3: seq<string> := [
    "the", "risk", "of", "cardiovascular", "disease", "by", "up", "to"
  ]

  const LoweredPart4: seq<string> := [
    "30%.", "the", "study", "followed", "10,000", "participants", "over", "5"
  ]

  const LoweredPart5: seq<string> := [
    "years."
  ]

  const Words: seq<string> := Part1 + Part2 + Part3 + Part4 + Part5

  const LoweredWords: seq<string> := LoweredPart1 + LoweredPart2 + LoweredPart3 + LoweredPart4 + LoweredPart5

  /** The sample text: its 33 words joined by single spaces, 217 characters in all. */
  const Sample: string := Join(Words, ' ')

  // ---------------------------------------------------------------------
  // Each part, word by word

  lemma Part1Lowers()
    ensures |Part1| == |LoweredPart1| && forall i | 0 <= i < |Part1| :: LowersTo(Part1[i], LoweredPart1[i])
  {
  }

  lemma Part1Length()
    ensures TotalLength(Part1) == 47
  {
  }

  lemma Part1Separate()
    ensures forall i | 0 <= i < |Part1| :: |Part1[i]| > 0 && ' ' !in Part1[i]
  {
  }

  lemma Part1Capitals()
    ensures forall i | 0 <= i < |Part1| :: CapitalOnlyFirst(Part1[i])
  {
  }

  lemma LoweredPart1AvoidsPiecesOfDoctorsDontAndTheyDont()
    ensures forall i | 0 <= i < |LoweredPart1| ::
      NoPair(LoweredPart1[i], 'o', 'c')
      && NoPair(LoweredPart1[i], 'o', 'n')
  {
  }

  lemma LoweredPart1AvoidsPiecesOfProvenFactAndMiracleCure()
    ensures forall i | 0 <= i < |LoweredPart1| ::
      NoPair(LoweredPart1[i], 'e', 'n')
      && NoPair(LoweredPart1[i], 'l', 'e')
  {
  }

  lemma LoweredPart1AvoidsPiecesOfDoubleBangAndAmazing()
    ensures forall i | 0 <= i < |LoweredPart1| ::
      '!' !in LoweredPart1[i]
      && 'z' !in LoweredPart1[i]
  {
  }

  lemma LoweredPart1AvoidsPiecesOfSecretCureAndDataIndicates()
    ensures forall i | 0 <= i < |LoweredPart1| ::
      NoPair(LoweredPart1[i], 'e', 'c')
      && NoPair(LoweredPart1[i], 't', 'e')
  {
  }

  lemma LoweredPart1AvoidsPiecesOfResearchShowsAndVerifiedSources()
    ensures forall i | 0 <= i < |LoweredPart1| ::
      NoPair(LoweredPart1[i], 'h', 'o')
      && NoPair(LoweredPart1[i], 'i', 'f')
  {
  }

  lemma LoweredPart1AvoidsPiecesOfExpertsSayAndAccordingTo()
    ensures forall i | 0 <= i < |LoweredPart1| ::
      NoPair(LoweredPart1[i], 'x', 'p')
      && NoTriple(LoweredPart1[i], 'u', 'd', 'i')
  {
  }

  lemma Part2Lowers()
    ensures |Part2| == |LoweredPart2| && forall i | 0 <= i < |Part2| :: LowersTo(Part2[i], LoweredPart2[i])
  {
  }

  lemma Part2Length()
    ensures TotalLength(Part2) == 53
  {
  }

  lemma Part2Separate()
    ensures forall i | 0 <= i < |Part2| :: |Part2[i]| > 0 && ' ' !in Part2[i]
  {
  }

  lemma Part2Capitals()
    ensures forall i | 0 <= i < |Part2| :: CapitalOnlyFirst(Part2[i])
  {
  }

  lemma LoweredPart2AvoidsPiecesOfDoctorsDontAndTheyDont()
    ensures forall i | 0 <= i < |LoweredPart2| ::
      NoPair(LoweredPart2[i], 'o', 'c')
      && NoPair(LoweredPart2[i], 'o', 'n')
  {
  }

  lemma LoweredPart2AvoidsPiecesOfProvenFactAndMiracleCure()
    ensures forall i | 0 <= i < |LoweredPart2| ::
      NoPair(LoweredPart2[i], 'e', 'n')
      && NoPair(LoweredPart2[i], 'l', 'e')
  {
  }

  lemma LoweredPart2AvoidsPiecesOfDoubleBangAndAmazing()
    ensures forall i | 0 <= i < |LoweredPart2| ::
      '!' !in LoweredPart2[i]
      && 'z' !in LoweredPart2[i]
  {
  }

  lemma LoweredPart2AvoidsPiecesOfSecretCureAndDataIndicates()
    ensures forall i | 0 <= i < |LoweredPart2| ::
      NoPair(LoweredPart2[i], 'e', 'c')
      && NoPair(LoweredPart2[i], 't', 'e')
  {
  }

  lemma LoweredPart2AvoidsPiecesOfResearchShowsAndVerifiedSources()
    ensures forall i | 0 <= i < |LoweredPart2| ::
      NoPair(LoweredPart2[i], 'h', 'o')
      && NoPair(LoweredPart2[i], 'i', 'f')
  {
  }

  lemma LoweredPart2AvoidsPiecesOfExpertsSayAndAccordingTo()
    ensures forall i | 0 <= i < |LoweredPart2| ::
      NoPair(LoweredPart2[i], 'x', 'p')
      && NoTriple(LoweredPart2[i], 'u', 'd', 'i')
  {
  }

  lemma Part3Lowers()
    ensures |Part3| == |LoweredPart3| && forall i | 0 <= i < |Part3| :: LowersTo(Part3[i], LoweredPart3[i])
  {
  }

  lemma Part3Length()
    ensures TotalLength(Part3) == 36
  {
  }

  lemma Part3Separate()
    ensures forall i | 0 <= i < |Part3| :: |Part3[i]| > 0 && ' ' !in Part3[i]
  {
  }

  lemma Part3Capitals()
    ensures forall i | 0 <= i < |Part3| :: CapitalOnlyFirst(Part3[i])
  {
  }

  lemma LoweredPart3AvoidsPiecesOfDoctorsDontAndTheyDont()
    ensures forall i | 0 <= i < |LoweredPart3| ::
      NoPair(LoweredPart3[i], 'o', 'c')
      && NoPair(LoweredPart3[i], 'o', 'n')
  {
  }

  lemma LoweredPart3AvoidsPiecesOfProvenFactAndMiracleCure()
    ensures forall i | 0 <= i < |LoweredPart3| ::
      NoPair(LoweredPart3[i], 'e', 'n')
      && NoPair(LoweredPart3[i], 'l', 'e')
  {
  }

  lemma LoweredPart3AvoidsPiecesOfDoubleBangAndAmazing()
    ensures forall i | 0 <= i < |LoweredPart3| ::
      '!' !in LoweredPart3[i]
      && 'z' !in LoweredPart3[i]
  {
  }

  lemma LoweredPart3AvoidsPiecesOfSecretCureAndDataIndicates()
    ensures forall i | 0 <= i < |LoweredPart3| ::
      NoPair(LoweredPart3[i], 'e', 'c')
      && NoPair(LoweredPart3[i], 't', 'e')
  {
  }

  lemma LoweredPart3AvoidsPiecesOfResearchShowsAndVerifiedSources()
    ensures forall i | 0 <= i < |LoweredPart3| ::
      NoPair(LoweredPart3[i], 'h', 'o')
      && NoPair(LoweredPart3[i], 'i', 'f')
  {
  }

  lemma LoweredPart3AvoidsPiecesOfExpertsSayAndAccordingTo()
    ensures forall i | 0 <= i < |LoweredPart3| ::
      NoPair(LoweredPart3[i], 'x', 'p')
      && NoTriple(LoweredPart3[i], 'u', 'd', 'i')
  {
  }

  lemma Part4Lowers()
    ensures |Part4| == |LoweredPart4| && forall i | 0 <= i < |Part4| :: LowersTo(Part4[i], LoweredPart4[i])
  {
  }

  lemma Part4Length()
    ensures TotalLength(Part4) == 43
  {
  }

  lemma Part4Separate()
    ensures forall i | 0 <= i < |Part4| :: |Part4[i]| > 0 && ' ' !in Part4[i]
  {
  }

  lemma Part4Capitals()
    ensures forall i | 0 <= i < |Part4| :: CapitalOnlyFirst(Part4[i])
  {
  }

  lemma LoweredPart4AvoidsPiecesOfDoctorsDontAndTheyDont()
    ensures forall i | 0 <= i < |LoweredPart4| ::
      NoPair(LoweredPart4[i], 'o', 'c')
      && NoPair(LoweredPart4[i], 'o', 'n')
  {
  }

  lemma LoweredPart4AvoidsPiecesOfProvenFactAndMiracleCure()
    ensures forall i | 0 <= i < |LoweredPart4| ::
      NoPair(LoweredPart4[i], 'e', 'n')
      && NoPair(LoweredPart4[i], 'l', 'e')
  {
  }

  lemma LoweredPart4AvoidsPiecesOfDoubleBangAndAmazing()
    ensures forall i | 0 <= i < |LoweredPart4| ::
      '!' !in LoweredPart4[i]
      && 'z' !in LoweredPart4[i]
  {
  }

  lemma LoweredPart4AvoidsPiecesOfSecretCureAndDataIndicates()
    ensures forall i | 0 <= i < |LoweredPart4| ::
      NoPair(LoweredPart4[i], 'e', 'c')
      && NoPair(LoweredPart4[i], 't', 'e')
  {
  }

  lemma LoweredPart4AvoidsPiecesOfResearchShowsAndVerifiedSources()
    ensures forall i | 0 <= i < |LoweredPart4| ::
      NoPair(LoweredPart4[i], 'h', 'o')
      && NoPair(LoweredPart4[i], 'i', 'f')
  {
  }

  lemma LoweredPart4AvoidsPiecesOfExpertsSayAndAccordingTo()
    ensures forall i | 0 <= i < |LoweredPart4| ::
      NoPair(LoweredPart4[i], 'x', 'p')
      && NoTriple(LoweredPart4[i], 'u', 'd', 'i')
  {
  }

  lemma Part5Lowers()
    ensures |Part5| == |LoweredPart5| && forall i | 0 <= i < |Part5| :: LowersTo(Part5[i], LoweredPart5[i])
  {
  }

  lemma Part5Length()
    ensures TotalLength(Part5) == 6
  {
  }

  lemma Part5Separate()
    ensures forall i | 0 <= i < |Part5| :: |Part5[i]| > 0 && ' ' !in Part5[i]
  {
  }

  lemma Part5Capitals()
    ensures forall i | 0 <= i < |Part5| :: CapitalOnlyFirst(Part5[i])
  {
  }

  lemma LoweredPart5AvoidsPiecesOfDoctorsDontAndTheyDont()
    ensures forall i | 0 <= i < |LoweredPart5| ::
      NoPair(LoweredPart5[i], 'o', 'c')
      && NoPair(LoweredPart5[i], 'o', 'n')
  {
  }

  lemma LoweredPart5AvoidsPiecesOfProvenFactAndMiracleCure()
    ensures forall i | 0 <= i < |LoweredPart5| ::
      NoPair(LoweredPart5[i], 'e', 'n')
      && NoPair(LoweredPart5[i], 'l', 'e')
  {
  }

  lemma LoweredPart5AvoidsPiecesOfDoubleBangAndAmazing()
    ensures forall i | 0 <= i < |LoweredPart5| ::
      '!' !in LoweredPart5[i]
      && 'z' !in LoweredPart5[i]
  {
  }

  lemma LoweredPart5AvoidsPiecesOfSecretCureAndDataIndicates()
    ensures forall i | 0 <= i < |LoweredPart5| ::
      NoPair(LoweredPart5[i], 'e', 'c')
      && NoPair(LoweredPart5[i], 't', 'e')
  {
  }

  lemma LoweredPart5AvoidsPiecesOfResearchShowsAndVerifiedSources()
    ensures forall i | 0 <= i < |LoweredPart5| ::
      NoPair(LoweredPart5[i], 'h', 'o')
      && NoPair(LoweredPart5[i], 'i', 'f')
  {
  }

  lemma LoweredPart5AvoidsPiecesOfExpertsSayAndAccordingTo()
    ensures forall i | 0 <= i < |LoweredPart5| ::
      NoPair(LoweredPart5[i], 'x', 'p')
      && NoTriple(LoweredPart5[i], 'u', 'd', 'i')
  {
  }

  // ---------------------------------------------------------------------
  // The whole word list

  /** No word is empty or holds a space. */
  lemma WordsAreSeparate()
    ensures forall i | 0 <= i < |Words| :: |Words[i]| > 0 && ' ' !in Words[i]
  {
    Part1Separate();
    Part2Separate();
    Part3Separate();
    Part4Separate();
    Part5Separate();
  }

  /** No word has a capital after its first character. */
  lemma WordsCapitals()
    ensures forall i | 0 <= i < |Words| :: CapitalOnlyFirst(Words[i])
  {
    Part1Capitals();
    Part2Capitals();
    Part3Capitals();
    Part4Capitals();
    Part5Capitals();
  }

  lemma LoweredWordsAvoidPiecesOfDoctorsDontAndTheyDont()
    ensures forall i | 0 <= i < |LoweredWords| ::
      NoPair(LoweredWords[i], 'o', 'c')
      && NoPair(LoweredWords[i], 'o', 'n')
  {
    LoweredPart1AvoidsPiecesOfDoctorsDontAndTheyDont();
    LoweredPart2AvoidsPiecesOfDoctorsDontAndTheyDont();
    LoweredPart3AvoidsPiecesOfDoctorsDontAndTheyDont();
    LoweredPart4AvoidsPiecesOfDoctorsDontAndTheyDont();
    LoweredPart5AvoidsPiecesOfDoctorsDontAndTheyDont();
  }

  lemma LoweredWordsAvoidPiecesOfProvenFactAndMiracleCure()
    ensures forall i | 0 <= i < |LoweredWords| ::
      NoPair(LoweredWords[i], 'e', 'n')
      && NoPair(LoweredWords[i], 'l', 'e')
  {
    LoweredPart1AvoidsPiecesOfProvenFactAndMiracleCure();
    LoweredPart2AvoidsPiecesOfProvenFactAndMiracleCure();
    LoweredPart3AvoidsPiecesOfProvenFactAndMiracleCure();
    LoweredPart4AvoidsPiecesOfProvenFactAndMiracleCure();
    LoweredPart5AvoidsPiecesOfProvenFactAndMiracleCure();
  }

  lemma LoweredWordsAvoidPiecesOfDoubleBangAndAmazing()
    ensures forall i | 0 <= i < |LoweredWords| ::
      '!' !in LoweredWords[i]
      && 'z' !in LoweredWords[i]
  {
    LoweredPart1AvoidsPiecesOfDoubleBangAndAmazing();
    LoweredPart2AvoidsPiecesOfDoubleBangAndAmazing();
    LoweredPart3AvoidsPiecesOfDoubleBangAndAmazing();
    LoweredPart4AvoidsPiecesOfDoubleBangAndAmazing();
    LoweredPart5AvoidsPiecesOfDoubleBangAndAmazing();
  }

  lemma LoweredWordsAvoidPiecesOfSecretCureAndDataIndicates()
    ensures forall i | 0 <= i < |LoweredWords| ::
      NoPair(LoweredWords[i], 'e', 'c')
      && NoPair(LoweredWords[i], 't', 'e')
  {
    LoweredPart1AvoidsPiecesOfSecretCureAndDataIndicates();
    LoweredPart2AvoidsPiecesOfSecretCureAndDataIndicates();
    LoweredPart3AvoidsPiecesOfSecretCureAndDataIndicates();
    LoweredPart4AvoidsPiecesOfSecretCureAndDataIndicates();
    LoweredPart5AvoidsPiecesOfSecretCureAndDataIndicates();
  }

  lemma LoweredWordsAvoidPiecesOfResearchShowsAndVerifiedSources()
    ensures forall i | 0 <= i < |LoweredWords| ::
      NoPair(LoweredWords[i], 'h', 'o')
      && NoPair(LoweredWords[i], 'i', 'f')
  {
    LoweredPart1AvoidsPiecesOfResearchShowsAndVerifiedSources();
    LoweredPart2AvoidsPiecesOfResearchShowsAndVerifiedSources();
    LoweredPart3AvoidsPiecesOfResearchShowsAndVerifiedSources();
    LoweredPart4AvoidsPiecesOfResearchShowsAndVerifiedSources();
    LoweredPart5AvoidsPiecesOfResearchShowsAndVerifiedSources();
  }

  lemma LoweredWordsAvoidPiecesOfExpertsSayAndAccordingTo()
    ensures forall i | 0 <= i < |LoweredWords| ::
      NoPair(LoweredWords[i], 'x', 'p')
      && NoTriple(LoweredWords[i], 'u', 'd', 'i')
  {
    LoweredPart1AvoidsPiecesOfExpertsSayAndAccordingTo();
    LoweredPart2AvoidsPiecesOfExpertsSayAndAccordingTo();
    LoweredPart3AvoidsPiecesOfExpertsSayAndAccordingTo();
    LoweredPart4AvoidsPiecesOfExpertsSayAndAccordingTo();
    LoweredPart5AvoidsPiecesOfExpertsSayAndAccordingTo();
  }

  // ---------------------------------------------------------------------
  // The sample text

  /** The lowered sample is the lowered words joined by spaces. */
  lemma LoweredSample()
    ensures Lower(Sample) == Join(LoweredWords, ' ')
  {
    Part1Lowers();
    Part2Lowers();
    Part3Lowers();
    Part4Lowers();
    Part5Lowers();
    LowerAllOf(Part1, LoweredPart1);
    LowerAllOf(Part2, LoweredPart2);
    LowerAllOf(Part3, LoweredPart3);
    LowerAllOf(Part4, LoweredPart4);
    LowerAllOf(Part5, LoweredPart5);
    LowerAllConcat(Part1, Part2);
    LowerAllConcat(Part1 + Part2, Part3);
    LowerAllConcat(Part1 + Part2 + Part3, Part4);
    LowerAllConcat(Part1 + Part2 + Part3 + Part4, Part5);
    LowerJoin(Words, ' ');
  }

  lemma SampleLength()
    ensures |Sample| == 217
  {
    Part1Length();
    Part2Length();
    Part3Length();
    Part4Length();
    Part5Length();
    TotalLengthConcat(Part1, Part2);
    TotalLengthConcat(Part1 + Part2, Part3);
    TotalLengthConcat(Part1 + Part2 + Part3, Part4);
    TotalLengthConcat(Part1 + Part2 + Part3 + Part4, Part5);
    JoinLength(Words, ' ');
  }

  /** Splitting on spaces gives back the 33 words. */
  lemma SampleWordCount()
    ensures WordCount(Sample) == 33
  {
    WordsAreSeparate();
    SplitJoin(Words, ' ');
  }

  /** At most 33 capitals: one per word. */
  lemma SampleCapitals()
    ensures CountUpper(Sample) <= 33
  {
    WordsCapitals();
    JoinUpper(Words, ' ');
    TotalUpperBound(Words);
  }

  /** 33 capitals or fewer in 217 characters is not more than 30 percent. */
  lemma SampleCaps()
    ensures !HasExcessiveCaps(Sample)
  {
    SampleCapitals();
    SampleLength();
  }

  /**
   * The lowered sample lacks "oc", a piece of "doctors don't want you to
   * know", "shocking truth", "leaked documents" and "shocking".
   */
  lemma LacksPieceOfDoctorsDont()
    ensures !Includes(Lower(Sample), "oc")
  {
    LoweredSample();
    LoweredWordsAvoidPiecesOfDoctorsDontAndTheyDont();
    JoinAvoidsPair(LoweredWords, ' ', 'o', 'c');
  }

  /**
   * The lowered sample lacks "on", a piece of "they don't want you to know",
   * "mainstream media won't tell you" and "big pharma conspiracy".
   */
  lemma LacksPieceOfTheyDont()
    ensures !Includes(Lower(Sample), "on")
  {
    LoweredSample();
    LoweredWordsAvoidPiecesOfDoctorsDontAndTheyDont();
    JoinAvoidsPair(LoweredWords, ' ', 'o', 'n');
  }

  /**
   * The lowered sample lacks "en", a piece of "proven fact", "government
   * coverup" and "scientific evidence".
   */
  lemma LacksPieceOfProvenFact()
    ensures !Includes(Lower(Sample), "en")
  {
    LoweredSample();
    LoweredWordsAvoidPiecesOfProvenFactAndMiracleCure();
    JoinAvoidsPair(LoweredWords, ' ', 'e', 'n');
  }

  /**
   * The lowered sample lacks "le", a piece of "miracle cure", "incredible"
   * and "unbelievable".
   */
  lemma LacksPieceOfMiracleCure()
    ensures !Includes(Lower(Sample), "le")
  {
    LoweredSample();
    LoweredWordsAvoidPiecesOfProvenFactAndMiracleCure();
    JoinAvoidsPair(LoweredWords, ' ', 'l', 'e');
  }

  /** The lowered sample lacks "!", a piece of "!!". */
  lemma LacksPieceOfDoubleBang()
    ensures !Includes(Lower(Sample), "!")
  {
    LoweredSample();
    LoweredWordsAvoidPiecesOfDoubleBangAndAmazing();
    JoinAvoidsChar(LoweredWords, ' ', '!');
  }

  /** The lowered sample lacks "z", a piece of "amazing". */
  lemma LacksPieceOfAmazing()
    ensures !Includes(Lower(Sample), "z")
  {
    LoweredSample();
    LoweredWordsAvoidPiecesOfDoubleBangAndAmazing();
    JoinAvoidsChar(LoweredWords, ' ', 'z');
  }

  /** The lowered sample lacks "ec", a piece of "secret cure". */
  lemma LacksPieceOfSecretCure()
    ensures !Includes(Lower(Sample), "ec")
  {
    LoweredSample();
    LoweredWordsAvoidPiecesOfSecretCureAndDataIndicates();
    JoinAvoidsPair(LoweredWords, ' ', 'e', 'c');
  }

  /** The lowered sample lacks "te", a piece of "data indicates". */
  lemma LacksPieceOfDataIndicates()
    ensures !Includes(Lower(Sample), "te")
  {
    LoweredSample();
    LoweredWordsAvoidPiecesOfSecretCureAndDataIndicates();
    JoinAvoidsPair(LoweredWords, ' ', 't', 'e');
  }

  /** The lowered sample lacks "ho", a piece of "research shows". */
  lemma LacksPieceOfResearchShows()
    ensures !Includes(Lower(Sample), "ho")
  {
    LoweredSample();
    LoweredWordsAvoidPiecesOfResearchShowsAndVerifiedSources();
    JoinAvoidsPair(LoweredWords, ' ', 'h', 'o');
  }

  /** The lowered sample lacks "if", a piece of "verified sources". */
  lemma LacksPieceOfVerifiedSources()
    ensures !Includes(Lower(Sample), "if")
  {
    LoweredSample();
    LoweredWordsAvoidPiecesOfResearchShowsAndVerifiedSources();
    JoinAvoidsPair(LoweredWords, ' ', 'i', 'f');
  }

  /** The lowered sample lacks "xp", a piece of "experts say". */
  lemma LacksPieceOfExpertsSay()
    ensures !Includes(Lower(Sample), "xp")
  {
    LoweredSample();
    LoweredWordsAvoidPiecesOfExpertsSayAndAccordingTo();
    JoinAvoidsPair(LoweredWords, ' ', 'x', 'p');
  }

  /** The lowered sample lacks "udi", a piece of "according to studies". */
  lemma LacksPieceOfAccordingTo()
    ensures !Includes(Lower(Sample), "udi")
  {
    LoweredSample();
    LoweredWordsAvoidPiecesOfExpertsSayAndAccordingTo();
    JoinAvoidsTriple(LoweredWords, ' ', 'u', 'd', 'i');
  }

  // ---------------------------------------------------------------------
  // The keywords and the emotional words

  lemma LacksDoctorsDontWantYouToKnow()
    ensures !Includes(Lower(Sample), Lower("doctors don't want you to know"))
  {
    LacksPieceOfDoctorsDont();
    assert Lower("doctors don't want you to know")[1] == 'o' && Lower("doctors don't want you to know")[2] == 'c';
    assert Lower("doctors don't want you to know")[1..3] == "oc";
    assert OccursAt(Lower("doctors don't want you to know"), "oc", 1);
    LacksPiece(Lower(Sample), Lower("doctors don't want you to know"), "oc");
  }

  lemma LacksSecretCure()
    ensures !Includes(Lower(Sample), Lower("secret cure"))
  {
    LacksPieceOfSecretCure();
    assert Lower("secret cure")[1] == 'e' && Lower("secret cure")[2] == 'c';
    assert Lower("secret cure")[1..3] == "ec";
    assert OccursAt(Lower("secret cure"), "ec", 1);
    LacksPiece(Lower(Sample), Lower("secret cure"), "ec");
  }

  lemma LacksTheyDontWantYouToKnow()
    ensures !Includes(Lower(Sample), Lower("they don't want you to know"))
  {
    LacksPieceOfTheyDont();
    assert Lower("they don't want you to know")[6] == 'o' && Lower("they don't want you to know")[7] == 'n';
    assert Lower("they don't want you to know")[6..8] == "on";
    assert OccursAt(Lower("they don't want you to know"), "on", 6);
    LacksPiece(Lower(Sample), Lower("they don't want you to know"), "on");
  }

  lemma LacksMainstreamMediaWontTellYou()
    ensures !Includes(Lower(Sample), Lower("mainstream media won't tell you"))
  {
    LacksPieceOfTheyDont();
    assert Lower("mainstream media won't tell you")[18] == 'o' && Lower("mainstream media won't tell you")[19] == 'n';
    assert Lower("mainstream media won't tell you")[18..20] == "on";
    assert OccursAt(Lower("mainstream media won't tell you"), "on", 18);
    LacksPiece(Lower(Sample), Lower("mainstream media won't tell you"), "on");
  }

  lemma LacksBigPharmaConspiracy()
    ensures !Includes(Lower(Sample), Lower("big pharma conspiracy"))
  {
    LacksPieceOfTheyDont();
    assert Lower("big pharma conspiracy")[12] == 'o' && Lower("big pharma conspiracy")[13] == 'n';
    assert Lower("big pharma conspiracy")[12..14] == "on";
    assert OccursAt(Lower("big pharma conspiracy"), "on", 12);
    LacksPiece(Lower(Sample), Lower("big pharma conspiracy"), "on");
  }

  lemma LacksProvenFact()
    ensures !Includes(Lower(Sample), Lower("proven fact"))
  {
    LacksPieceOfProvenFact();
    assert Lower("proven fact")[4] == 'e' && Lower("proven fact")[5] == 'n';
    assert Lower("proven fact")[4..6] == "en";
    assert OccursAt(Lower("proven fact"), "en", 4);
    LacksPiece(Lower(Sample), Lower("proven fact"), "en");
  }

  lemma LacksShockingTruth()
    ensures !Includes(Lower(Sample), Lower("shocking truth"))
  {
    LacksPieceOfDoctorsDont();
    assert Lower("shocking truth")[2] == 'o' && Lower("shocking truth")[3] == 'c';
    assert Lower("shocking truth")[2..4] == "oc";
    assert OccursAt(Lower("shocking truth"), "oc", 2);
    LacksPiece(Lower(Sample), Lower("shocking truth"), "oc");
  }

  lemma LacksLeakedDocuments()
    ensures !Includes(Lower(Sample), Lower("leaked documents"))
  {
    LacksPieceOfDoctorsDont();
    assert Lower("leaked documents")[8] == 'o' && Lower("leaked documents")[9] == 'c';
    assert Lower("leaked documents")[8..10] == "oc";
    assert OccursAt(Lower("leaked documents"), "oc", 8);
    LacksPiece(Lower(Sample), Lower("leaked documents"), "oc");
  }

  lemma LacksGovernmentCoverup()
    ensures !Includes(Lower(Sample), Lower("government coverup"))
  {
    LacksPieceOfProvenFact();
    assert Lower("government coverup")[7] == 'e' && Lower("government coverup")[8] == 'n';
    assert Lower("government coverup")[7..9] == "en";
    assert OccursAt(Lower("government coverup"), "en", 7);
    LacksPiece(Lower(Sample), Lower("government coverup"), "en");
  }

  lemma LacksMiracleCure()
    ensures !Includes(Lower(Sample), Lower("miracle cure"))
  {
    LacksPieceOfMiracleCure();
    assert Lower("miracle cure")[5] == 'l' && Lower("miracle cure")[6] == 'e';
    assert Lower("miracle cure")[5..7] == "le";
    assert OccursAt(Lower("miracle cure"), "le", 5);
    LacksPiece(Lower(Sample), Lower("miracle cure"), "le");
  }

  lemma LacksAccordingToStudies()
    ensures !Includes(Lower(Sample), Lower("according to studies"))
  {
    LacksPieceOfAccordingTo();
    assert Lower("according to studies")[15] == 'u' && Lower("according to studies")[16] == 'd' && Lower("according to studies")[17] == 'i';
    assert Lower("according to studies")[15..18] == "udi";
    assert OccursAt(Lower("according to studies"), "udi", 15);
    LacksPiece(Lower(Sample), Lower("according to studies"), "udi");
  }

  lemma LacksResearchShows()
    ensures !Includes(Lower(Sample), Lower("research shows"))
  {
    LacksPieceOfResearchShows();
    assert Lower("research shows")[10] == 'h' && Lower("research shows")[11] == 'o';
    assert Lower("research shows")[10..12] == "ho";
    assert OccursAt(Lower("research shows"), "ho", 10);
    LacksPiece(Lower(Sample), Lower("research shows"), "ho");
  }

  lemma PeerReviewedRun()
    ensures LoweredPart1[3..4] == ["peer-reviewed"]
  {
  }

  lemma PeerReviewedJoined()
    ensures Join(["peer-reviewed"], ' ') == "peer-reviewed"
  {
  }

  lemma PeerReviewedIsLowerCase()
    ensures Lower("peer-reviewed") == "peer-reviewed"
  {
    LowerOfLowerCase("peer-reviewed");
  }

  lemma MentionsPeerReviewed()
    ensures Includes(Lower(Sample), Lower("peer-reviewed"))
  {
    LoweredSample();
    JoinIncludesRunOf([], LoweredPart1, LoweredPart2 + LoweredPart3 + LoweredPart4 + LoweredPart5, ' ', 3, 4);
    assert LoweredWords == [] + LoweredPart1 + (LoweredPart2 + LoweredPart3 + LoweredPart4 + LoweredPart5);
    PeerReviewedRun();
    PeerReviewedJoined();
    PeerReviewedIsLowerCase();
  }

  lemma LacksScientificEvidence()
    ensures !Includes(Lower(Sample), Lower("scientific evidence"))
  {
    LacksPieceOfProvenFact();
    assert Lower("scientific evidence")[3] == 'e' && Lower("scientific evidence")[4] == 'n';
    assert Lower("scientific evidence")[3..5] == "en";
    assert OccursAt(Lower("scientific evidence"), "en", 3);
    LacksPiece(Lower(Sample), Lower("scientific evidence"), "en");
  }

  lemma LacksDataIndicates()
    ensures !Includes(Lower(Sample), Lower("data indicates"))
  {
    LacksPieceOfDataIndicates();
    assert Lower("data indicates")[11] == 't' && Lower("data indicates")[12] == 'e';
    assert Lower("data indicates")[11..13] == "te";
    assert OccursAt(Lower("data indicates"), "te", 11);
    LacksPiece(Lower(Sample), Lower("data indicates"), "te");
  }

  lemma LacksExpertsSay()
    ensures !Includes(Lower(Sample), Lower("experts say"))
  {
    LacksPieceOfExpertsSay();
    assert Lower("experts say")[1] == 'x' && Lower("experts say")[2] == 'p';
    assert Lower("experts say")[1..3] == "xp";
    assert OccursAt(Lower("experts say"), "xp", 1);
    LacksPiece(Lower(Sample), Lower("experts say"), "xp");
  }

  lemma PublishedInRun()
    ensures LoweredPart1[5..7] == ["published", "in"]
  {
  }

  lemma PublishedInJoined()
    ensures Join(["published", "in"], ' ') == "published in"
  {
    JoinCons("published", ["in"], ' ');
    assert ["published"] + ["in"] == ["published", "in"];
  }

  lemma PublishedInIsLowerCase()
    ensures Lower("published in") == "published in"
  {
    LowerOfLowerCase("published in");
  }

  lemma MentionsPublishedIn()
    ensures Includes(Lower(Sample), Lower("published in"))
  {
    LoweredSample();
    JoinIncludesRunOf([], LoweredPart1, LoweredPart2 + LoweredPart3 + LoweredPart4 + LoweredPart5, ' ', 5, 7);
    assert LoweredWords == [] + LoweredPart1 + (LoweredPart2 + LoweredPart3 + LoweredPart4 + LoweredPart5);
    PublishedInRun();
    PublishedInJoined();
    PublishedInIsLowerCase();
  }

  lemma LacksVerifiedSources()
    ensures !Includes(Lower(Sample), Lower("verified sources"))
  {
    LacksPieceOfVerifiedSources();
    assert Lower("verified sources")[3] == 'i' && Lower("verified sources")[4] == 'f';
    assert Lower("verified sources")[3..5] == "if";
    assert OccursAt(Lower("verified sources"), "if", 3);
    LacksPiece(Lower(Sample), Lower("verified sources"), "if");
  }

  lemma LacksDoubleBang()
    ensures !Includes(Lower(Sample), "!!")
  {
    LacksPieceOfDoubleBang();
    assert "!!"[0] == '!';
    assert "!!"[0..1] == "!";
    assert OccursAt("!!", "!", 0);
    LacksPiece(Lower(Sample), "!!", "!");
  }

  lemma LacksAmazing()
    ensures !Includes(Lower(Sample), "amazing")
  {
    LacksPieceOfAmazing();
    assert "amazing"[3] == 'z';
    assert "amazing"[3..4] == "z";
    assert OccursAt("amazing", "z", 3);
    LacksPiece(Lower(Sample), "amazing", "z");
  }

  lemma LacksShocking()
    ensures !Includes(Lower(Sample), "shocking")
  {
    LacksPieceOfDoctorsDont();
    assert "shocking"[2] == 'o' && "shocking"[3] == 'c';
    assert "shocking"[2..4] == "oc";
    assert OccursAt("shocking", "oc", 2);
    LacksPiece(Lower(Sample), "shocking", "oc");
  }

  lemma LacksIncredible()
    ensures !Includes(Lower(Sample), "incredible")
  {
    LacksPieceOfMiracleCure();
    assert "incredible"[8] == 'l' && "incredible"[9] == 'e';
    assert "incredible"[8..10] == "le";
    assert OccursAt("incredible", "le", 8);
    LacksPiece(Lower(Sample), "incredible", "le");
  }

  lemma LacksUnbelievable()
    ensures !Includes(Lower(Sample), "unbelievable")
  {
    LacksPieceOfMiracleCure();
    assert "unbelievable"[10] == 'l' && "unbelievable"[11] == 'e';
    assert "unbelievable"[10..12] == "le";
    assert OccursAt("unbelievable", "le", 10);
    LacksPiece(Lower(Sample), "unbelievable", "le");
  }

  // ---------------------------------------------------------------------
  // The signals and the report

  lemma SuspiciousPhrasesFrom5()
    ensures |MatchingKeywords(Lower(Sample), SuspiciousKeywords[5..])| == 0
  {
    LacksProvenFact();
    LacksShockingTruth();
    LacksLeakedDocuments();
    LacksGovernmentCoverup();
    LacksMiracleCure();
    MatchingFrom(Lower(Sample), SuspiciousKeywords, 5);
    MatchingFrom(Lower(Sample), SuspiciousKeywords, 6);
    MatchingFrom(Lower(Sample), SuspiciousKeywords, 7);
    MatchingFrom(Lower(Sample), SuspiciousKeywords, 8);
    MatchingFrom(Lower(Sample), SuspiciousKeywords, 9);
    assert SuspiciousKeywords[10..] == [];
  }

  /** No suspicious phrases found. */
  lemma SuspiciousPhrases()
    ensures SuspiciousCount(Sample) == 0
  {
    LacksDoctorsDontWantYouToKnow();
    LacksSecretCure();
    LacksTheyDontWantYouToKnow();
    LacksMainstreamMediaWontTellYou();
    LacksBigPharmaConspiracy();
    MatchingFrom(Lower(Sample), SuspiciousKeywords, 0);
    MatchingFrom(Lower(Sample), SuspiciousKeywords, 1);
    MatchingFrom(Lower(Sample), SuspiciousKeywords, 2);
    MatchingFrom(Lower(Sample), SuspiciousKeywords, 3);
    MatchingFrom(Lower(Sample), SuspiciousKeywords, 4);
    SuspiciousPhrasesFrom5();
    assert SuspiciousKeywords[0..] == SuspiciousKeywords;
  }

  lemma FactualPhrasesFrom4()
    ensures |MatchingKeywords(Lower(Sample), FactualKeywords[4..])| == 1
  {
    LacksDataIndicates();
    LacksExpertsSay();
    MentionsPublishedIn();
    LacksVerifiedSources();
    MatchingFrom(Lower(Sample), FactualKeywords, 4);
    MatchingFrom(Lower(Sample), FactualKeywords, 5);
    MatchingFrom(Lower(Sample), FactualKeywords, 6);
    MatchingFrom(Lower(Sample), FactualKeywords, 7);
    assert FactualKeywords[8..] == [];
  }

  /** Two factual phrases found. */
  lemma FactualPhrases()
    ensures FactualCount(Sample) == 2
  {
    LacksAccordingToStudies();
    LacksResearchShows();
    MentionsPeerReviewed();
    LacksScientificEvidence();
    MatchingFrom(Lower(Sample), FactualKeywords, 0);
    MatchingFrom(Lower(Sample), FactualKeywords, 1);
    MatchingFrom(Lower(Sample), FactualKeywords, 2);
    MatchingFrom(Lower(Sample), FactualKeywords, 3);
    FactualPhrasesFrom4();
    assert FactualKeywords[0..] == FactualKeywords;
  }

  lemma EmotionalLanguage()
    ensures !HasEmotionalLanguage(Sample)
  {
    LacksDoubleBang();
    LacksAmazing();
    LacksShocking();
    LacksIncredible();
    LacksUnbelievable();
  }

  lemma SampleSignals()
    ensures TextSignals(Sample) == Signals(0, 2, 33, false, false)
  {
    SuspiciousPhrases();
    FactualPhrases();
    SampleWordCount();
    SampleCaps();
    EmotionalLanguage();
  }

  /** The report shown for the sample, whatever the latency draw. */
  lemma SampleAnalysis(draw: real)
    requires 0.0 <= draw < 1.0
    ensures Analyze(Sample, draw) == Report(95, Low, [], Latency(draw), true)
  {
    SampleSignals();
  }

}
