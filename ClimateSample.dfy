/*
 * The third sample text offered on the page (src/app/page.tsx:123): a neutral
 * scientific statement. It holds no keyword and no emotional word, has two
 * capitals and 28 words, so the score stays at 75, the risk is low and no
 * flag is raised.
 */
module ClimateSample {
  import opened Text
  import opened WordLists
  import opened Credibility
  import opened CredibilityFacts

  /*
   * How the facts about the sample are proved. The sample is written as its
   * words joined by single spaces rather than as one long literal, so that
   * each fact about the whole text reduces to facts about short words:
   *  - its length, its capitals and its lowered form follow from those of
   *    the words (WordLists.JoinLength, JoinUpper and LowerJoin);
   *  - a phrase that occurs is found in a short run of consecutive lowered
   *    words (WordLists.JoinIncludesRunOf);
   *  - a phrase that does not occur is ruled out through a piece of it, one
   *    to three characters long, that no lowered word contains
   *    (WordLists.JoinAvoidsChar, JoinAvoidsPair and JoinAvoidsTriple) or,
   *    for a piece holding a space, that no two neighbouring words form
   *    (WordLists.JoinAvoidsAcross). LacksPieceOfK and the AvoidsPiecesOf
   *    lemmas are named after the phrase K whose piece they rule out.
   * The words are grouped in parts of at most 8, and each per-word fact is
   * proved part by part, which keeps every proof small.
   */

  // The words of the sample, part by part.

  const Part1: seq<string> := [
    "Climate", "scientists", "have", "observed", "a", "consistent", "warming",
    "trend"
  ]

  const Part2: seq<string> := [
    "over", "the", "past", "century,", "with", "data", "from", "multiple"
  ]

  const Part3: seq<string> := [
    "independent", "research", "institutions", "confirming", "temperature",
    "increases", "of", "approximately"
  ]

  const Part4: seq<string> := [
    "1.1\U{00B0}C", "since", "pre-industrial", "times."
  ]

  // The same words with every capital lowered.

  const LoweredPart1: seq<string> := [
    "climate", "scientists", "have", "observed", "a", "consistent", "warming",
    "trend"
  ]

  const LoweredPart2: seq<string> := [
    "over", "the", "past", "century,", "with", "data", "from", "multiple"
  ]

  const LoweredPart3: seq<string> := [
    "independent", "research", "institutions", "confirming", "temperature",
    "increases", "of", "approximately"
  ]

  const LoweredPart4: seq<string> := [
    "1.1\U{00B0}c", "since", "pre-industrial", "times."
  ]

  const Words: seq<string> := Part1 + Part2 + Part3 + Part4

  const LoweredWords: seq<string> := LoweredPart1 + LoweredPart2 + LoweredPart3 + LoweredPart4

  /** The sample text: its 28 words joined by single spaces, 224 characters in all. */
  const Sample: string := Join(Words, ' ')

  // ---------------------------------------------------------------------
  // Each part, word by word

  lemma Part1Lowers()
    ensures |Part1| == |LoweredPart1| && forall i | 0 <= i < |Part1| :: LowersTo(Part1[i], LoweredPart1[i])
  {
  }

  lemma Part1Length()
    ensures TotalLength(Part1) == 52
  {
  }

  lemma Part1Separate()
    ensures forall i | 0 <= i < |Part1| :: |Part1[i]| > 0 && ' ' !in Part1[i]
  {
  }

  lemma Part1Capitals()
    ensures forall i | 0 <= i < |Part1| :: CapitalOnlyFirst(Part1[i])
  {
  }

  lemma LoweredPart1AvoidsPiecesOfDoctorsDontAndMainstreamMedia()
    ensures forall i | 0 <= i < |LoweredPart1| ::
      'k' !in LoweredPart1[i]
      && NoPair(LoweredPart1[i], 'd', 'i')
  {
  }

  lemma LoweredPart1AvoidsPiecesOfBigPharmaAndPeerReviewed()
    ensures forall i | 0 <= i < |LoweredPart1| ::
      NoPair(LoweredPart1[i], 'a', 'c')
      && NoPair(LoweredPart1[i], 'e', 'v')
  {
  }

  lemma LoweredPart1AvoidsPiecesOfResearchShowsAndDoubleBang()
    ensures forall i | 0 <= i < |LoweredPart1| ::
      NoPair(LoweredPart1[i], 's', 'h')
      && '!' !in LoweredPart1[i]
  {
  }

  lemma LoweredPart1AvoidsPiecesOfAmazingAndVerifiedSources()
    ensures forall i | 0 <= i < |LoweredPart1| ::
      'z' !in LoweredPart1[i]
      && NoPair(LoweredPart1[i], 'o', 'u')
  {
  }

  lemma LoweredPart1AvoidsPiecesOfSecretCureAndGovernmentCoverup()
    ensures forall i | 0 <= i < |LoweredPart1| ::
      NoPair(LoweredPart1[i], 'e', 'c')
      && NoPair(LoweredPart1[i], 'r', 'u')
  {
  }

  lemma LoweredPart1AvoidsPiecesOfExpertsSay()
    ensures forall i | 0 <= i < |LoweredPart1| ::
      NoPair(LoweredPart1[i], 'e', 'x')
  {
  }

  lemma Part2Lowers()
    ensures |Part2| == |LoweredPart2| && forall i | 0 <= i < |Part2| :: LowersTo(Part2[i], LoweredPart2[i])
  {
  }

  lemma Part2Length()
    ensures TotalLength(Part2) == 39
  {
  }

  lemma Part2Separate()
    ensures forall i | 0 <= i < |Part2| :: |Part2[i]| > 0 && ' ' !in Part2[i]
  {
  }

  lemma Part2Capitals()
    ensures forall i | 0 <= i < |Part2| :: CapitalOnlyFirst(Part2[i])
  {
  }

  lemma LoweredPart2AvoidsPiecesOfDoctorsDontAndMainstreamMedia()
    ensures forall i | 0 <= i < |LoweredPart2| ::
      'k' !in LoweredPart2[i]
      && NoPair(LoweredPart2[i], 'd', 'i')
  {
  }

  lemma LoweredPart2AvoidsPiecesOfBigPharmaAndPeerReviewed()
    ensures forall i | 0 <= i < |LoweredPart2| ::
      NoPair(LoweredPart2[i], 'a', 'c')
      && NoPair(LoweredPart2[i], 'e', 'v')
  {
  }

  lemma LoweredPart2AvoidsPiecesOfResearchShowsAndDoubleBang()
    ensures forall i | 0 <= i < |LoweredPart2| ::
      NoPair(LoweredPart2[i], 's', 'h')
      && '!' !in LoweredPart2[i]
  {
  }

  lemma LoweredPart2AvoidsPiecesOfAmazingAndVerifiedSources()
    ensures forall i | 0 <= i < |LoweredPart2| ::
      'z' !in LoweredPart2[i]
      && NoPair(LoweredPart2[i], 'o', 'u')
  {
  }

  lemma LoweredPart2AvoidsPiecesOfSecretCureAndGovernmentCoverup()
    ensures forall i | 0 <= i < |LoweredPart2| ::
      NoPair(LoweredPart2[i], 'e', 'c')
      && NoPair(LoweredPart2[i], 'r', 'u')
  {
  }

  lemma LoweredPart2AvoidsPiecesOfExpertsSay()
    ensures forall i | 0 <= i < |LoweredPart2| ::
      NoPair(LoweredPart2[i], 'e', 'x')
  {
  }

  lemma Part3Lowers()
    ensures |Part3| == |LoweredPart3| && forall i | 0 <= i < |Part3| :: LowersTo(Part3[i], LoweredPart3[i])
  {
  }

  lemma Part3Length()
    ensures TotalLength(Part3) == 76
  {
  }

  lemma Part3Separate()
    ensures forall i | 0 <= i < |Part3| :: |Part3[i]| > 0 && ' ' !in Part3[i]
  {
  }

  lemma Part3Capitals()
    ensures forall i | 0 <= i < |Part3| :: CapitalOnlyFirst(Part3[i])
  {
  }

  lemma LoweredPart3AvoidsPiecesOfDoctorsDontAndMainstreamMedia()
    ensures forall i | 0 <= i < |LoweredPart3| ::
      'k' !in LoweredPart3[i]
      && NoPair(LoweredPart3[i], 'd', 'i')
  {
  }

  lemma LoweredPart3AvoidsPiecesOfBigPharmaAndPeerReviewed()
    ensures forall i | 0 <= i < |LoweredPart3| ::
      NoPair(LoweredPart3[i], 'a', 'c')
      && NoPair(LoweredPart3[i], 'e', 'v')
  {
  }

  lemma LoweredPart3AvoidsPiecesOfResearchShowsAndDoubleBang()
    ensures forall i | 0 <= i < |LoweredPart3| ::
      NoPair(LoweredPart3[i], 's', 'h')
      && '!' !in LoweredPart3[i]
  {
  }

  lemma LoweredPart3AvoidsPiecesOfAmazingAndVerifiedSources()
    ensures forall i | 0 <= i < |LoweredPart3| ::
      'z' !in LoweredPart3[i]
      && NoPair(LoweredPart3[i], 'o', 'u')
  {
  }

  lemma LoweredPart3AvoidsPiecesOfSecretCureAndGovernmentCoverup()
    ensures forall i | 0 <= i < |LoweredPart3| ::
      NoPair(LoweredPart3[i], 'e', 'c')
      && NoPair(LoweredPart3[i], 'r', 'u')
  {
  }

  lemma LoweredPart3AvoidsPiecesOfExpertsSay()
    ensures forall i | 0 <= i < |LoweredPart3| ::
      NoPair(LoweredPart3[i], 'e', 'x')
  {
  }

  lemma Part4Lowers()
    ensures |Part4| == |LoweredPart4| && forall i | 0 <= i < |Part4| :: LowersTo(Part4[i], LoweredPart4[i])
  {
  }

  lemma Part4Length()
    ensures TotalLength(Part4) == 30
  {
  }

  lemma Part4Separate()
    ensures forall i | 0 <= i < |Part4| :: |Part4[i]| > 0 && ' ' !in Part4[i]
  {
  }

  lemma Part4Capitals()
    ensures forall i | 0 <= i < |Part4| && i != 0 :: CapitalOnlyFirst(Part4[i])
  {
  }

  lemma LoweredPart4AvoidsPiecesOfDoctorsDontAndMainstreamMedia()
    ensures forall i | 0 <= i < |LoweredPart4| ::
      'k' !in LoweredPart4[i]
      && NoPair(LoweredPart4[i], 'd', 'i')
  {
  }

  lemma LoweredPart4AvoidsPiecesOfBigPharmaAndPeerReviewed()
    ensures forall i | 0 <= i < |LoweredPart4| ::
      NoPair(LoweredPart4[i], 'a', 'c')
      && NoPair(LoweredPart4[i], 'e', 'v')
  {
  }

  lemma LoweredPart4AvoidsPiecesOfResearchShowsAndDoubleBang()
    ensures forall i | 0 <= i < |LoweredPart4| ::
      NoPair(LoweredPart4[i], 's', 'h')
      && '!' !in LoweredPart4[i]
  {
  }

  lemma LoweredPart4AvoidsPiecesOfAmazingAndVerifiedSources()
    ensures forall i | 0 <= i < |LoweredPart4| ::
      'z' !in LoweredPart4[i]
      && NoPair(LoweredPart4[i], 'o', 'u')
  {
  }

  lemma LoweredPart4AvoidsPiecesOfSecretCureAndGovernmentCoverup()
    ensures forall i | 0 <= i < |LoweredPart4| ::
      NoPair(LoweredPart4[i], 'e', 'c')
      && NoPair(LoweredPart4[i], 'r', 'u')
  {
  }

  lemma LoweredPart4AvoidsPiecesOfExpertsSay()
    ensures forall i | 0 <= i < |LoweredPart4| ::
      NoPair(LoweredPart4[i], 'e', 'x')
  {
  }

  // ---------------------------------------------------------------------
  // The whole word list

  /** No word is empty or holds a space. */
  lemma WordsAreSeparate()
    ensures forall i | 0 <= i < |Words| :: |Words[i]| > 0 && ' ' !in Words[i]
  {
    Part1Separate();
    Part2Separate();
    Part3Separate();
    Part4Separate();
  }

  /** No word but "1.1\U{00B0}C" has a capital after its first character. */
  lemma WordsCapitals()
    ensures forall i | 0 <= i < |Words| && i != 24 :: CapitalOnlyFirst(Words[i])
    ensures |Words[24]| == 5
  {
    Part1Capitals();
    Part2Capitals();
    Part3Capitals();
    Part4Capitals();
  }

  lemma LoweredWordsAvoidPiecesOfDoctorsDontAndMainstreamMedia()
    ensures forall i | 0 <= i < |LoweredWords| ::
      'k' !in LoweredWords[i]
      && NoPair(LoweredWords[i], 'd', 'i')
  {
    LoweredPart1AvoidsPiecesOfDoctorsDontAndMainstreamMedia();
    LoweredPart2AvoidsPiecesOfDoctorsDontAndMainstreamMedia();
    LoweredPart3AvoidsPiecesOfDoctorsDontAndMainstreamMedia();
    LoweredPart4AvoidsPiecesOfDoctorsDontAndMainstreamMedia();
  }

  lemma LoweredWordsAvoidPiecesOfBigPharmaAndPeerReviewed()
    ensures forall i | 0 <= i < |LoweredWords| ::
      NoPair(LoweredWords[i], 'a', 'c')
      && NoPair(LoweredWords[i], 'e', 'v')
  {
    LoweredPart1AvoidsPiecesOfBigPharmaAndPeerReviewed();
    LoweredPart2AvoidsPiecesOfBigPharmaAndPeerReviewed();
    LoweredPart3AvoidsPiecesOfBigPharmaAndPeerReviewed();
    LoweredPart4AvoidsPiecesOfBigPharmaAndPeerReviewed();
  }

  lemma LoweredWordsAvoidPiecesOfResearchShowsAndDoubleBang()
    ensures forall i | 0 <= i < |LoweredWords| ::
      NoPair(LoweredWords[i], 's', 'h')
      && '!' !in LoweredWords[i]
  {
    LoweredPart1AvoidsPiecesOfResearchShowsAndDoubleBang();
    LoweredPart2AvoidsPiecesOfResearchShowsAndDoubleBang();
    LoweredPart3AvoidsPiecesOfResearchShowsAndDoubleBang();
    LoweredPart4AvoidsPiecesOfResearchShowsAndDoubleBang();
  }

  lemma LoweredWordsAvoidPiecesOfAmazingAndVerifiedSources()
    ensures forall i | 0 <= i < |LoweredWords| ::
      'z' !in LoweredWords[i]
      && NoPair(LoweredWords[i], 'o', 'u')
  {
    LoweredPart1AvoidsPiecesOfAmazingAndVerifiedSources();
    LoweredPart2AvoidsPiecesOfAmazingAndVerifiedSources();
    LoweredPart3AvoidsPiecesOfAmazingAndVerifiedSources();
    LoweredPart4AvoidsPiecesOfAmazingAndVerifiedSources();
  }

  lemma LoweredWordsAvoidPiecesOfSecretCureAndGovernmentCoverup()
    ensures forall i | 0 <= i < |LoweredWords| ::
      NoPair(LoweredWords[i], 'e', 'c')
      && NoPair(LoweredWords[i], 'r', 'u')
  {
    LoweredPart1AvoidsPiecesOfSecretCureAndGovernmentCoverup();
    LoweredPart2AvoidsPiecesOfSecretCureAndGovernmentCoverup();
    LoweredPart3AvoidsPiecesOfSecretCureAndGovernmentCoverup();
    LoweredPart4AvoidsPiecesOfSecretCureAndGovernmentCoverup();
  }

  lemma LoweredWordsAvoidPiecesOfExpertsSay()
    ensures forall i | 0 <= i < |LoweredWords| ::
      NoPair(LoweredWords[i], 'e', 'x')
  {
    LoweredPart1AvoidsPiecesOfExpertsSay();
    LoweredPart2AvoidsPiecesOfExpertsSay();
    LoweredPart3AvoidsPiecesOfExpertsSay();
    LoweredPart4AvoidsPiecesOfExpertsSay();
  }

  // ---------------------------------------------------------------------
  // The sample text

  /** The lowered sample is the lowered words joined by spaces. */
  lemma LoweredSample()
    ensures Lower(Sample) == Join(LoweredWords, ' ')
  {
    Part1Lowers();
    Part2Lowers();
    Part3Lowers();
    Part4Lowers();
    LowerAllOf(Part1, LoweredPart1);
    LowerAllOf(Part2, LoweredPart2);
    LowerAllOf(Part3, LoweredPart3);
    LowerAllOf(Part4, LoweredPart4);
    LowerAllConcat(Part1, Part2);
    LowerAllConcat(Part1 + Part2, Part3);
    LowerAllConcat(Part1 + Part2 + Part3, Part4);
    LowerJoin(Words, ' ');
  }

  lemma SampleLength()
    ensures |Sample| == 224
  {
    Part1Length();
    Part2Length();
    Part3Length();
    Part4Length();
    TotalLengthConcat(Part1, Part2);
    TotalLengthConcat(Part1 + Part2, Part3);
    TotalLengthConcat(Part1 + Part2 + Part3, Part4);
    JoinLength(Words, ' ');
  }

  /** Splitting on spaces gives back the 28 words. */
  lemma SampleWordCount()
    ensures WordCount(Sample) == 28
  {
    WordsAreSeparate();
    SplitJoin(Words, ' ');
  }

  /** At most 32 capitals: one per word, and all of "1.1\U{00B0}C". */
  lemma SampleCapitals()
    ensures CountUpper(Sample) <= 32
  {
    WordsCapitals();
    JoinUpper(Words, ' ');
    TotalUpperBoundExcept(Words, 24);
  }

  /** 32 capitals or fewer in 224 characters is not more than 30 percent. */
  lemma SampleCaps()
    ensures !HasExcessiveCaps(Sample)
  {
    SampleCapitals();
    SampleLength();
  }

  /**
   * The lowered sample lacks "k", a piece of "doctors don't want you to
   * know", "they don't want you to know", "shocking truth", "leaked
   * documents" and "shocking".
   */
  lemma LacksPieceOfDoctorsDont()
    ensures !Includes(Lower(Sample), "k")
  {
    LoweredSample();
    LoweredWordsAvoidPiecesOfDoctorsDontAndMainstreamMedia();
    JoinAvoidsChar(LoweredWords, ' ', 'k');
  }

  /**
   * The lowered sample lacks "di", a piece of "mainstream media won't tell
   * you", "according to studies", "data indicates" and "incredible".
   */
  lemma LacksPieceOfMainstreamMedia()
    ensures !Includes(Lower(Sample), "di")
  {
    LoweredSample();
    LoweredWordsAvoidPiecesOfDoctorsDontAndMainstreamMedia();
    JoinAvoidsPair(LoweredWords, ' ', 'd', 'i');
  }

  /**
   * The lowered sample lacks "ac", a piece of "big pharma conspiracy",
   * "proven fact" and "miracle cure".
   */
  lemma LacksPieceOfBigPharma()
    ensures !Includes(Lower(Sample), "ac")
  {
    LoweredSample();
    LoweredWordsAvoidPiecesOfBigPharmaAndPeerReviewed();
    JoinAvoidsPair(LoweredWords, ' ', 'a', 'c');
  }

  /**
   * The lowered sample lacks "ev", a piece of "peer-reviewed", "scientific
   * evidence" and "unbelievable".
   */
  lemma LacksPieceOfPeerReviewed()
    ensures !Includes(Lower(Sample), "ev")
  {
    LoweredSample();
    LoweredWordsAvoidPiecesOfBigPharmaAndPeerReviewed();
    JoinAvoidsPair(LoweredWords, ' ', 'e', 'v');
  }

  /**
   * The lowered sample lacks "sh", a piece of "research shows" and
   * "published in".
   */
  lemma LacksPieceOfResearchShows()
    ensures !Includes(Lower(Sample), "sh")
  {
    LoweredSample();
    LoweredWordsAvoidPiecesOfResearchShowsAndDoubleBang();
    JoinAvoidsPair(LoweredWords, ' ', 's', 'h');
  }

  /** The lowered sample lacks "!", a piece of "!!". */
  lemma LacksPieceOfDoubleBang()
    ensures !Includes(Lower(Sample), "!")
  {
    LoweredSample();
    LoweredWordsAvoidPiecesOfResearchShowsAndDoubleBang();
    JoinAvoidsChar(LoweredWords, ' ', '!');
  }

  /** The lowered sample lacks "z", a piece of "amazing". */
  lemma LacksPieceOfAmazing()
    ensures !Includes(Lower(Sample), "z")
  {
    LoweredSample();
    LoweredWordsAvoidPiecesOfAmazingAndVerifiedSources();
    JoinAvoidsChar(LoweredWords, ' ', 'z');
  }

  /** The lowered sample lacks "ou", a piece of "verified sources". */
  lemma LacksPieceOfVerifiedSources()
    ensures !Includes(Lower(Sample), "ou")
  {
    LoweredSample();
    LoweredWordsAvoidPiecesOfAmazingAndVerifiedSources();
    JoinAvoidsPair(LoweredWords, ' ', 'o', 'u');
  }

  /** The lowered sample lacks "ec", a piece of "secret cure". */
  lemma LacksPieceOfSecretCure()
    ensures !Includes(Lower(Sample), "ec")
  {
    LoweredSample();
    LoweredWordsAvoidPiecesOfSecretCureAndGovernmentCoverup();
    JoinAvoidsPair(LoweredWords, ' ', 'e', 'c');
  }

  /** The lowered sample lacks "ru", a piece of "government coverup". */
  lemma LacksPieceOfGovernmentCoverup()
    ensures !Includes(Lower(Sample), "ru")
  {
    LoweredSample();
    LoweredWordsAvoidPiecesOfSecretCureAndGovernmentCoverup();
    JoinAvoidsPair(LoweredWords, ' ', 'r', 'u');
  }

  /** The lowered sample lacks "ex", a piece of "experts say". */
  lemma LacksPieceOfExpertsSay()
    ensures !Includes(Lower(Sample), "ex")
  {
    LoweredSample();
    LoweredWordsAvoidPiecesOfExpertsSay();
    JoinAvoidsPair(LoweredWords, ' ', 'e', 'x');
  }

  // ---------------------------------------------------------------------
  // The keywords and the emotional words

  lemma LacksDoctorsDontWantYouToKnow()
    ensures !Includes(Lower(Sample), Lower("doctors don't want you to know"))
  {
    LacksPieceOfDoctorsDont();
    assert Lower("doctors don't want you to know")[26] == 'k';
    assert Lower("doctors don't want you to know")[26..27] == "k";
    assert OccursAt(Lower("doctors don't want you to know"), "k", 26);
    LacksPiece(Lower(Sample), Lower("doctors don't want you to know"), "k");
  }

  lemma LacksSecretCure()
    ensures !Includes(Lower(Sample), Lower("secret cure"))
  {
    LacksPieceOfSecretCure();
    assert Lower("secret cure")[1] == 'e' && Lower("secret cure")[2] == 'c';
    assert Lower("secret cure")[1..3] == "ec";
    assert OccursAt(Lower("secret cure"), "ec", 1);
    LacksPiece(Lower(Sample), Lower("secret cure"), "ec");
  }

  lemma LacksTheyDontWantYouToKnow()
    ensures !Includes(Lower(Sample), Lower("they don't want you to know"))
  {
    LacksPieceOfDoctorsDont();
    assert Lower("they don't want you to know")[23] == 'k';
    assert Lower("they don't want you to know")[23..24] == "k";
    assert OccursAt(Lower("they don't want you to know"), "k", 23);
    LacksPiece(Lower(Sample), Lower("they don't want you to know"), "k");
  }

  lemma LacksMainstreamMediaWontTellYou()
    ensures !Includes(Lower(Sample), Lower("mainstream media won't tell you"))
  {
    LacksPieceOfMainstreamMedia();
    assert Lower("mainstream media won't tell you")[13] == 'd' && Lower("mainstream media won't tell you")[14] == 'i';
    assert Lower("mainstream media won't tell you")[13..15] == "di";
    assert OccursAt(Lower("mainstream media won't tell you"), "di", 13);
    LacksPiece(Lower(Sample), Lower("mainstream media won't tell you"), "di");
  }

  lemma LacksBigPharmaConspiracy()
    ensures !Includes(Lower(Sample), Lower("big pharma conspiracy"))
  {
    LacksPieceOfBigPharma();
    assert Lower("big pharma conspiracy")[18] == 'a' && Lower("big pharma conspiracy")[19] == 'c';
    assert Lower("big pharma conspiracy")[18..20] == "ac";
    assert OccursAt(Lower("big pharma conspiracy"), "ac", 18);
    LacksPiece(Lower(Sample), Lower("big pharma conspiracy"), "ac");
  }

  lemma LacksProvenFact()
    ensures !Includes(Lower(Sample), Lower("proven fact"))
  {
    LacksPieceOfBigPharma();
    assert Lower("proven fact")[8] == 'a' && Lower("proven fact")[9] == 'c';
    assert Lower("proven fact")[8..10] == "ac";
    assert OccursAt(Lower("proven fact"), "ac", 8);
    LacksPiece(Lower(Sample), Lower("proven fact"), "ac");
  }

  lemma LacksShockingTruth()
    ensures !Includes(Lower(Sample), Lower("shocking truth"))
  {
    LacksPieceOfDoctorsDont();
    assert Lower("shocking truth")[4] == 'k';
    assert Lower("shocking truth")[4..5] == "k";
    assert OccursAt(Lower("shocking truth"), "k", 4);
    LacksPiece(Lower(Sample), Lower("shocking truth"), "k");
  }

  lemma LacksLeakedDocuments()
    ensures !Includes(Lower(Sample), Lower("leaked documents"))
  {
    LacksPieceOfDoctorsDont();
    assert Lower("leaked documents")[3] == 'k';
    assert Lower("leaked documents")[3..4] == "k";
    assert OccursAt(Lower("leaked documents"), "k", 3);
    LacksPiece(Lower(Sample), Lower("leaked documents"), "k");
  }

  lemma LacksGovernmentCoverup()
    ensures !Includes(Lower(Sample), Lower("government coverup"))
  {
    LacksPieceOfGovernmentCoverup();
    assert Lower("government coverup")[15] == 'r' && Lower("government coverup")[16] == 'u';
    assert Lower("government coverup")[15..17] == "ru";
    assert OccursAt(Lower("government coverup"), "ru", 15);
    LacksPiece(Lower(Sample), Lower("government coverup"), "ru");
  }

  lemma LacksMiracleCure()
    ensures !Includes(Lower(Sample), Lower("miracle cure"))
  {
    LacksPieceOfBigPharma();
    assert Lower("miracle cure")[3] == 'a' && Lower("miracle cure")[4] == 'c';
    assert Lower("miracle cure")[3..5] == "ac";
    assert OccursAt(Lower("miracle cure"), "ac", 3);
    LacksPiece(Lower(Sample), Lower("miracle cure"), "ac");
  }

  lemma LacksAccordingToStudies()
    ensures !Includes(Lower(Sample), Lower("according to studies"))
  {
    LacksPieceOfMainstreamMedia();
    assert Lower("according to studies")[5] == 'd' && Lower("according to studies")[6] == 'i';
    assert Lower("according to studies")[5..7] == "di";
    assert OccursAt(Lower("according to studies"), "di", 5);
    LacksPiece(Lower(Sample), Lower("according to studies"), "di");
  }

  lemma LacksResearchShows()
    ensures !Includes(Lower(Sample), Lower("research shows"))
  {
    LacksPieceOfResearchShows();
    assert Lower("research shows")[9] == 's' && Lower("research shows")[10] == 'h';
    assert Lower("research shows")[9..11] == "sh";
    assert OccursAt(Lower("research shows"), "sh", 9);
    LacksPiece(Lower(Sample), Lower("research shows"), "sh");
  }

  lemma LacksPeerReviewed()
    ensures !Includes(Lower(Sample), Lower("peer-reviewed"))
  {
    LacksPieceOfPeerReviewed();
    assert Lower("peer-reviewed")[6] == 'e' && Lower("peer-reviewed")[7] == 'v';
    assert Lower("peer-reviewed")[6..8] == "ev";
    assert OccursAt(Lower("peer-reviewed"), "ev", 6);
    LacksPiece(Lower(Sample), Lower("peer-reviewed"), "ev");
  }

  lemma LacksScientificEvidence()
    ensures !Includes(Lower(Sample), Lower("scientific evidence"))
  {
    LacksPieceOfPeerReviewed();
    assert Lower("scientific evidence")[11] == 'e' && Lower("scientific evidence")[12] == 'v';
    assert Lower("scientific evidence")[11..13] == "ev";
    assert OccursAt(Lower("scientific evidence"), "ev", 11);
    LacksPiece(Lower(Sample), Lower("scientific evidence"), "ev");
  }

  lemma LacksDataIndicates()
    ensures !Includes(Lower(Sample), Lower("data indicates"))
  {
    LacksPieceOfMainstreamMedia();
    assert Lower("data indicates")[7] == 'd' && Lower("data indicates")[8] == 'i';
    assert Lower("data indicates")[7..9] == "di";
    assert OccursAt(Lower("data indicates"), "di", 7);
    LacksPiece(Lower(Sample), Lower("data indicates"), "di");
  }

  lemma LacksExpertsSay()
    ensures !Includes(Lower(Sample), Lower("experts say"))
  {
    LacksPieceOfExpertsSay();
    assert Lower("experts say")[0] == 'e' && Lower("experts say")[1] == 'x';
    assert Lower("experts say")[0..2] == "ex";
    assert OccursAt(Lower("experts say"), "ex", 0);
    LacksPiece(Lower(Sample), Lower("experts say"), "ex");
  }

  lemma LacksPublishedIn()
    ensures !Includes(Lower(Sample), Lower("published in"))
  {
    LacksPieceOfResearchShows();
    assert Lower("published in")[5] == 's' && Lower("published in")[6] == 'h';
    assert Lower("published in")[5..7] == "sh";
    assert OccursAt(Lower("published in"), "sh", 5);
    LacksPiece(Lower(Sample), Lower("published in"), "sh");
  }

  lemma LacksVerifiedSources()
    ensures !Includes(Lower(Sample), Lower("verified sources"))
  {
    LacksPieceOfVerifiedSources();
    assert Lower("verified sources")[10] == 'o' && Lower("verified sources")[11] == 'u';
    assert Lower("verified sources")[10..12] == "ou";
    assert OccursAt(Lower("verified sources"), "ou", 10);
    LacksPiece(Lower(Sample), Lower("verified sources"), "ou");
  }

  lemma LacksDoubleBang()
    ensures !Includes(Lower(Sample), "!!")
  {
    LacksPieceOfDoubleBang();
    assert "!!"[0] == '!';
    assert "!!"[0..1] == "!";
    assert OccursAt("!!", "!", 0);
    LacksPiece(Lower(Sample), "!!", "!");
  }

  lemma LacksAmazing()
    ensures !Includes(Lower(Sample), "amazing")
  {
    LacksPieceOfAmazing();
    assert "amazing"[3] == 'z';
    assert "amazing"[3..4] == "z";
    assert OccursAt("amazing", "z", 3);
    LacksPiece(Lower(Sample), "amazing", "z");
  }

  lemma LacksShocking()
    ensures !Includes(Lower(Sample), "shocking")
  {
    LacksPieceOfDoctorsDont();
    assert "shocking"[4] == 'k';
    assert "shocking"[4..5] == "k";
    assert OccursAt("shocking", "k", 4);
    LacksPiece(Lower(Sample), "shocking", "k");
  }

  lemma LacksIncredible()
    ensures !Includes(Lower(Sample), "incredible")
  {
    LacksPieceOfMainstreamMedia();
    assert "incredible"[5] == 'd' && "incredible"[6] == 'i';
    assert "incredible"[5..7] == "di";
    assert OccursAt("incredible", "di", 5);
    LacksPiece(Lower(Sample), "incredible", "di");
  }

  lemma LacksUnbelievable()
    ensures !Includes(Lower(Sample), "unbelievable")
  {
    LacksPieceOfPeerReviewed();
    assert "unbelievable"[6] == 'e' && "unbelievable"[7] == 'v';
    assert "unbelievable"[6..8] == "ev";
    assert OccursAt("unbelievable", "ev", 6);
    LacksPiece(Lower(Sample), "unbelievable", "ev");
  }

  // ---------------------------------------------------------------------
  // The signals and the report

  lemma SuspiciousPhrasesFrom5()
    ensures |MatchingKeywords(Lower(Sample), SuspiciousKeywords[5..])| == 0
  {
    LacksProvenFact();
    LacksShockingTruth();
    LacksLeakedDocuments();
    LacksGovernmentCoverup();
    LacksMiracleCure();
    MatchingFrom(Lower(Sample), SuspiciousKeywords, 5);
    MatchingFrom(Lower(Sample), SuspiciousKeywords, 6);
    MatchingFrom(Lower(Sample), SuspiciousKeywords, 7);
    MatchingFrom(Lower(Sample), SuspiciousKeywords, 8);
    MatchingFrom(Lower(Sample), SuspiciousKeywords, 9);
    assert SuspiciousKeywords[10..] == [];
  }

  /** No suspicious phrases found. */
  lemma SuspiciousPhrases()
    ensures SuspiciousCount(Sample) == 0
  {
    LacksDoctorsDontWantYouToKnow();
    LacksSecretCure();
    LacksTheyDontWantYouToKnow();
    LacksMainstreamMediaWontTellYou();
    LacksBigPharmaConspiracy();
    MatchingFrom(Lower(Sample), SuspiciousKeywords, 0);
    MatchingFrom(Lower(Sample), SuspiciousKeywords, 1);
    MatchingFrom(Lower(Sample), SuspiciousKeywords, 2);
    MatchingFrom(Lower(Sample), SuspiciousKeywords, 3);
    MatchingFrom(Lower(Sample), SuspiciousKeywords, 4);
    SuspiciousPhrasesFrom5();
    assert SuspiciousKeywords[0..] == SuspiciousKeywords;
  }

  lemma FactualPhrasesFrom4()
    ensures |MatchingKeywords(Lower(Sample), FactualKeywords[4..])| == 0
  {
    LacksDataIndicates();
    LacksExpertsSay();
    LacksPublishedIn();
    LacksVerifiedSources();
    MatchingFrom(Lower(Sample), FactualKeywords, 4);
    MatchingFrom(Lower(Sample), FactualKeywords, 5);
    MatchingFrom(Lower(Sample), FactualKeywords, 6);
    MatchingFrom(Lower(Sample), FactualKeywords, 7);
    assert FactualKeywords[8..] == [];
  }

  /** No factual phrases found. */
  lemma FactualPhrases()
    ensures FactualCount(Sample) == 0
  {
    LacksAccordingToStudies();
    LacksResearchShows();
    LacksPeerReviewed();
    LacksScientificEvidence();
    MatchingFrom(Lower(Sample), FactualKeywords, 0);
    MatchingFrom(Lower(Sample), FactualKeywords, 1);
    MatchingFrom(Lower(Sample), FactualKeywords, 2);
    MatchingFrom(Lower(Sample), FactualKeywords, 3);
    FactualPhrasesFrom4();
    assert FactualKeywords[0..] == FactualKeywords;
  }

  lemma EmotionalLanguage()
    ensures !HasEmotionalLanguage(Sample)
  {
    LacksDoubleBang();
    LacksAmazing();
    LacksShocking();
    LacksIncredible();
    LacksUnbelievable();
  }

  lemma SampleSignals()
    ensures TextSignals(Sample) == Signals(0, 0, 28, false, false)
  {
    SuspiciousPhrases();
    FactualPhrases();
    SampleWordCount();
    SampleCaps();
    EmotionalLanguage();
  }

  /** The report shown for the sample, whatever the latency draw. */
  lemma SampleAnalysis(draw: real)
    requires 0.0 <= draw < 1.0
    ensures Analyze(Sample, draw) == Report(75, Low, [], Latency(draw), true)
  {
    SampleSignals();
  }

}
