/*
 * The second sample text offered on the page (src/app/page.tsx:122): a typical piece
 * of health misinformation. It holds three suspicious phrases and the word
 * "shocking", has only 11 capitals in 222 characters and 40 words, so the
 * score is 75 - 3 * 15 - 5 = 25, the risk high and the flags are suspicious
 * language and emotional manipulation.
 */
module MisinformationSample {
  import opened Text
  import opened WordLists
  import opened Credibility
  import opened CredibilityFacts

  /*
   * How the facts about the sample are proved. The sample is written as its
   * words joined by single spaces rather than as one long literal, so that
   * each fact about the whole text reduces to facts about short words:
   *  - its length, its capitals and its lowered form follow from those of
   *    the words (WordLists.JoinLength, JoinUpper and LowerJoin);
   *  - a phrase that occurs is found in a short run of consecutive lowered
   *    words (WordLists.JoinIncludesRunOf);
   *  - a phrase that does not occur is ruled out through a piece of it, one
   *    to three characters long, that no lowered word contains
   *    (WordLists.JoinAvoidsChar, JoinAvoidsPair and JoinAvoidsTriple) or,
   *    for a piece holding a space, that no two neighbouring words form
   *    (WordLists.JoinAvoidsAcross). LacksPieceOfK and the AvoidsPiecesOf
   *    lemmas are named after the phrase K whose piece they rule out.
   * The words are grouped in parts of at most 10, and each per-word fact is
   * proved part by part, which keeps every proof small.
   */

  // The words of the sample, part by part.

  const Part1: seq<string> := [
    "SHOCKING!", "Doctors", "don't", "want", "you", "to", "know", "this",
    "secret", "cure"
  ]

  const Part2: seq<string> := [
    "that", "big", "pharma", "is", "hiding!", "This", "miracle", "treatment",
    "can", "cure"
  ]

  const Part3: seq<string> := [
    "any", "disease", "in", "just", "3", "days!"
  ]

  const Part4: seq<string> := [
    "They", "don't", "want", "you", "to", "know", "because", "they", "make",
    "billions"
  ]

  const Part5: seq<string> := [
    "from", "keeping", "you", "sick!"
  ]

  // The same words with every capital lowered.

  const LoweredPart1: seq<string> := [
    "shocking!", "doctors", "don't", "want", "you", "to", "know", "this",
    "secret", "cure"
  ]

  const LoweredPart2: seq<string> := [
    "that", "big", "pharma", "is", "hiding!", "this", "miracle", "treatment",
    "can", "cure"
  ]

  const LoweredPart3: seq<string> := [
    "any", "disease", "in", "just", "3", "days!"
  ]

  const LoweredPart4: seq<string> := [
    "they", "don't", "want", "you", "to", "know", "because", "they", "make",
    "billions"
  ]

  const LoweredPart5: seq<string> := [
    "from", "keeping", "you", "sick!"
  ]

  const Words: seq<string> := Part1 + Part2 + Part3 + Part4 + Part5

  const LoweredWords: seq<string> := LoweredPart1 + LoweredPart2 + LoweredPart3 + LoweredPart4 + LoweredPart5

  /** The sample text: its 40 words joined by single spaces, 222 characters in all. */
  const Sample: string := Join(Words, ' ')

  // ---------------------------------------------------------------------
  // Each part, word by word

  lemma Part1Lowers()
    ensures |Part1| == |LoweredPart1| && forall i | 0 <= i < |Part1| :: LowersTo(Part1[i], LoweredPart1[i])
  {
  }

  lemma Part1Length()
    ensures TotalLength(Part1) == 48
  {
  }

  lemma Part1Separate()
    ensures forall i | 0 <= i < |Part1| :: |Part1[i]| > 0 && ' ' !in Part1[i]
  {
  }

  lemma Part1Capitals()
    ensures forall i | 0 <= i < |Part1| && i != 0 :: CapitalOnlyFirst(Part1[i])
  {
  }

  lemma LoweredPart1AvoidsPiecesOfProvenFactAndExpertsSayAndMainstreamMedia()
    ensures forall i | 0 <= i < |LoweredPart1| ::
      'v' !in LoweredPart1[i]
      && 'x' !in LoweredPart1[i]
      && NoPair(LoweredPart1[i], 'e', 'd')
  {
  }

  lemma LoweredPart1AvoidsPiecesOfAccordingToAndBigPharmaAndShockingTruth()
    ensures forall i | 0 <= i < |LoweredPart1| ::
      NoPair(LoweredPart1[i], 'e', 's')
      && NoPair(LoweredPart1[i], 'c', 'o')
      && NoPair(LoweredPart1[i], 'r', 'u')
  {
  }

  lemma LoweredPart1Separate()
    ensures forall i | 0 <= i < |LoweredPart1| :: |LoweredPart1[i]| > 0 && ' ' !in LoweredPart1[i]
  {
  }

  lemma LoweredPart1AvoidsPieceOfMiracleCure()
    ensures forall i | 0 <= i < |LoweredPart1| - 1 :: !(LoweredPart1[i][|LoweredPart1[i]| - 1] == 'e' && LoweredPart1[i + 1][0] == 'c')
  {
  }

  lemma Part2Lowers()
    ensures |Part2| == |LoweredPart2| && forall i | 0 <= i < |Part2| :: LowersTo(Part2[i], LoweredPart2[i])
  {
  }

  lemma Part2Length()
    ensures TotalLength(Part2) == 49
  {
  }

  lemma Part2Separate()
    ensures forall i | 0 <= i < |Part2| :: |Part2[i]| > 0 && ' ' !in Part2[i]
  {
  }

  lemma Part2Capitals()
    ensures forall i | 0 <= i < |Part2| :: CapitalOnlyFirst(Part2[i])
  {
  }

  lemma LoweredPart2AvoidsPiecesOfProvenFactAndExpertsSayAndMainstreamMedia()
    ensures forall i | 0 <= i < |LoweredPart2| ::
      'v' !in LoweredPart2[i]
      && 'x' !in LoweredPart2[i]
      && NoPair(LoweredPart2[i], 'e', 'd')
  {
  }

  lemma LoweredPart2AvoidsPiecesOfAccordingToAndBigPharmaAndShockingTruth()
    ensures forall i | 0 <= i < |LoweredPart2| ::
      NoPair(LoweredPart2[i], 'e', 's')
      && NoPair(LoweredPart2[i], 'c', 'o')
      && NoPair(LoweredPart2[i], 'r', 'u')
  {
  }

  lemma LoweredPart2Separate()
    ensures forall i | 0 <= i < |LoweredPart2| :: |LoweredPart2[i]| > 0 && ' ' !in LoweredPart2[i]
  {
  }

  lemma LoweredPart2AvoidsPieceOfMiracleCure()
    ensures forall i | 0 <= i < |LoweredPart2| - 1 :: !(LoweredPart2[i][|LoweredPart2[i]| - 1] == 'e' && LoweredPart2[i + 1][0] == 'c')
  {
  }

  lemma Part3Lowers()
    ensures |Part3| == |LoweredPart3| && forall i | 0 <= i < |Part3| :: LowersTo(Part3[i], LoweredPart3[i])
  {
  }

  lemma Part3Length()
    ensures TotalLength(Part3) == 22
  {
  }

  lemma Part3Separate()
    ensures forall i | 0 <= i < |Part3| :: |Part3[i]| > 0 && ' ' !in Part3[i]
  {
  }

  lemma Part3Capitals()
    ensures forall i | 0 <= i < |Part3| :: CapitalOnlyFirst(Part3[i])
  {
  }

  lemma LoweredPart3AvoidsPiecesOfProvenFactAndExpertsSayAndMainstreamMedia()
    ensures forall i | 0 <= i < |LoweredPart3| ::
      'v' !in LoweredPart3[i]
      && 'x' !in LoweredPart3[i]
      && NoPair(LoweredPart3[i], 'e', 'd')
  {
  }

  lemma LoweredPart3AvoidsPiecesOfAccordingToAndBigPharmaAndShockingTruth()
    ensures forall i | 0 <= i < |LoweredPart3| ::
      NoPair(LoweredPart3[i], 'e', 's')
      && NoPair(LoweredPart3[i], 'c', 'o')
      && NoPair(LoweredPart3[i], 'r', 'u')
  {
  }

  lemma LoweredPart3Separate()
    ensures forall i | 0 <= i < |LoweredPart3| :: |LoweredPart3[i]| > 0 && ' ' !in LoweredPart3[i]
  {
  }

  lemma LoweredPart3AvoidsPieceOfMiracleCure()
    ensures forall i | 0 <= i < |LoweredPart3| - 1 :: !(LoweredPart3[i][|LoweredPart3[i]| - 1] == 'e' && LoweredPart3[i + 1][0] == 'c')
  {
  }

  lemma Part4Lowers()
    ensures |Part4| == |LoweredPart4| && forall i | 0 <= i < |Part4| :: LowersTo(Part4[i], LoweredPart4[i])
  {
  }

  lemma Part4Length()
    ensures TotalLength(Part4) == 45
  {
  }

  lemma Part4Separate()
    ensures forall i | 0 <= i < |Part4| :: |Part4[i]| > 0 && ' ' !in Part4[i]
  {
  }

  lemma Part4Capitals()
    ensures forall i | 0 <= i < |Part4| :: CapitalOnlyFirst(Part4[i])
  {
  }

  lemma LoweredPart4AvoidsPiecesOfProvenFactAndExpertsSayAndMainstreamMedia()
    ensures forall i | 0 <= i < |LoweredPart4| ::
      'v' !in LoweredPart4[i]
      && 'x' !in LoweredPart4[i]
      && NoPair(LoweredPart4[i], 'e', 'd')
  {
  }

  lemma LoweredPart4AvoidsPiecesOfAccordingToAndBigPharmaAndShockingTruth()
    ensures forall i | 0 <= i < |LoweredPart4| ::
      NoPair(LoweredPart4[i], 'e', 's')
      && NoPair(LoweredPart4[i], 'c', 'o')
      && NoPair(LoweredPart4[i], 'r', 'u')
  {
  }

  lemma LoweredPart4Separate()
    ensures forall i | 0 <= i < |LoweredPart4| :: |LoweredPart4[i]| > 0 && ' ' !in LoweredPart4[i]
  {
  }

  lemma LoweredPart4AvoidsPieceOfMiracleCure()
    ensures forall i | 0 <= i < |LoweredPart4| - 1 :: !(LoweredPart4[i][|LoweredPart4[i]| - 1] == 'e' && LoweredPart4[i + 1][0] == 'c')
  {
  }

  lemma Part5Lowers()
    ensures |Part5| == |LoweredPart5| && forall i | 0 <= i < |Part5| :: LowersTo(Part5[i], LoweredPart5[i])
  {
  }

  lemma Part5Length()
    ensures TotalLength(Part5) == 19
  {
  }

  lemma Part5Separate()
    ensures forall i | 0 <= i < |Part5| :: |Part5[i]| > 0 && ' ' !in Part5[i]
  {
  }

  lemma Part5Capitals()
    ensures forall i | 0 <= i < |Part5| :: CapitalOnlyFirst(Part5[i])
  {
  }

  lemma LoweredPart5AvoidsPiecesOfProvenFactAndExpertsSayAndMainstreamMedia()
    ensures forall i | 0 <= i < |LoweredPart5| ::
      'v' !in LoweredPart5[i]
      && 'x' !in LoweredPart5[i]
      && NoPair(LoweredPart5[i], 'e', 'd')
  {
  }

  lemma LoweredPart5AvoidsPiecesOfAccordingToAndBigPharmaAndShockingTruth()
    ensures forall i | 0 <= i < |LoweredPart5| ::
      NoPair(LoweredPart5[i], 'e', 's')
      && NoPair(LoweredPart5[i], 'c', 'o')
      && NoPair(LoweredPart5[i], 'r', 'u')
  {
  }

  lemma LoweredPart5Separate()
    ensures forall i | 0 <= i < |LoweredPart5| :: |LoweredPart5[i]| > 0 && ' ' !in LoweredPart5[i]
  {
  }

  lemma LoweredPart5AvoidsPieceOfMiracleCure()
    ensures forall i | 0 <= i < |LoweredPart5| - 1 :: !(LoweredPart5[i][|LoweredPart5[i]| - 1] == 'e' && LoweredPart5[i + 1][0] == 'c')
  {
  }

  // ---------------------------------------------------------------------
  // The whole word list

  /** No word is empty or holds a space. */
  lemma WordsAreSeparate()
    ensures forall i | 0 <= i < |Words| :: |Words[i]| > 0 && ' ' !in Words[i]
  {
    Part1Separate();
    Part2Separate();
    Part3Separate();
    Part4Separate();
    Part5Separate();
  }

  /** No word but "SHOCKING!" has a capital after its first character. */
  lemma WordsCapitals()
    ensures forall i | 0 <= i < |Words| && i != 0 :: CapitalOnlyFirst(Words[i])
    ensures |Words[0]| == 9
  {
    Part1Capitals();
    Part2Capitals();
    Part3Capitals();
    Part4Capitals();
    Part5Capitals();
  }

  lemma LoweredWordsAvoidPiecesOfProvenFactAndExpertsSayAndMainstreamMedia()
    ensures forall i | 0 <= i < |LoweredWords| ::
      'v' !in LoweredWords[i]
      && 'x' !in LoweredWords[i]
      && NoPair(LoweredWords[i], 'e', 'd')
  {
    LoweredPart1AvoidsPiecesOfProvenFactAndExpertsSayAndMainstreamMedia();
    LoweredPart2AvoidsPiecesOfProvenFactAndExpertsSayAndMainstreamMedia();
    LoweredPart3AvoidsPiecesOfProvenFactAndExpertsSayAndMainstreamMedia();
    LoweredPart4AvoidsPiecesOfProvenFactAndExpertsSayAndMainstreamMedia();
    LoweredPart5AvoidsPiecesOfProvenFactAndExpertsSayAndMainstreamMedia();
  }

  lemma LoweredWordsAvoidPiecesOfAccordingToAndBigPharmaAndShockingTruth()
    ensures forall i | 0 <= i < |LoweredWords| ::
      NoPair(LoweredWords[i], 'e', 's')
      && NoPair(LoweredWords[i], 'c', 'o')
      && NoPair(LoweredWords[i], 'r', 'u')
  {
    LoweredPart1AvoidsPiecesOfAccordingToAndBigPharmaAndShockingTruth();
    LoweredPart2AvoidsPiecesOfAccordingToAndBigPharmaAndShockingTruth();
    LoweredPart3AvoidsPiecesOfAccordingToAndBigPharmaAndShockingTruth();
    LoweredPart4AvoidsPiecesOfAccordingToAndBigPharmaAndShockingTruth();
    LoweredPart5AvoidsPiecesOfAccordingToAndBigPharmaAndShockingTruth();
  }

  lemma LoweredWordsAreSeparate()
    ensures forall i | 0 <= i < |LoweredWords| :: |LoweredWords[i]| > 0 && ' ' !in LoweredWords[i]
  {
    LoweredPart1Separate();
    LoweredPart2Separate();
    LoweredPart3Separate();
    LoweredPart4Separate();
    LoweredPart5Separate();
  }

  /** No lowered word ends in 'e' where the next begins with 'c'. */
  lemma LoweredWordsAvoidPieceOfMiracleCure()
    ensures forall i | 0 <= i < |LoweredWords| - 1 :: !(LoweredWords[i][|LoweredWords[i]| - 1] == 'e' && LoweredWords[i + 1][0] == 'c')
  {
    LoweredPart1AvoidsPieceOfMiracleCure();
    LoweredPart2AvoidsPieceOfMiracleCure();
    LoweredPart3AvoidsPieceOfMiracleCure();
    LoweredPart4AvoidsPieceOfMiracleCure();
    LoweredPart5AvoidsPieceOfMiracleCure();
    assert LoweredPart2[0][0] == 't';
    assert LoweredPart3[0][0] == 'a';
    assert LoweredPart3[5][|LoweredPart3[5]| - 1] == '!';
    assert LoweredPart4[9][|LoweredPart4[9]| - 1] == 's';
  }

  // ---------------------------------------------------------------------
  // The sample text

  /** The lowered sample is the lowered words joined by spaces. */
  lemma LoweredSample()
    ensures Lower(Sample) == Join(LoweredWords, ' ')
  {
    Part1Lowers();
    Part2Lowers();
    Part3Lowers();
    Part4Lowers();
    Part5Lowers();
    LowerAllOf(Part1, LoweredPart1);
    LowerAllOf(Part2, LoweredPart2);
    LowerAllOf(Part3, LoweredPart3);
    LowerAllOf(Part4, LoweredPart4);
    LowerAllOf(Part5, LoweredPart5);
    LowerAllConcat(Part1, Part2);
    LowerAllConcat(Part1 + Part2, Part3);
    LowerAllConcat(Part1 + Part2 + Part3, Part4);
    LowerAllConcat(Part1 + Part2 + Part3 + Part4, Part5);
    LowerJoin(Words, ' ');
  }

  lemma SampleLength()
    ensures |Sample| == 222
  {
    Part1Length();
    Part2Length();
    Part3Length();
    Part4Length();
    Part5Length();
    TotalLengthConcat(Part1, Part2);
    TotalLengthConcat(Part1 + Part2, Part3);
    TotalLengthConcat(Part1 + Part2 + Part3, Part4);
    TotalLengthConcat(Part1 + Part2 + Part3 + Part4, Part5);
    JoinLength(Words, ' ');
  }

  /** Splitting on spaces gives back the 40 words. */
  lemma SampleWordCount()
    ensures WordCount(Sample) == 40
  {
    WordsAreSeparate();
    SplitJoin(Words, ' ');
  }

  /** At most 48 capitals: one per word, and all of "SHOCKING!". */
  lemma SampleCapitals()
    ensures CountUpper(Sample) <= 48
  {
    WordsCapitals();
    JoinUpper(Words, ' ');
    TotalUpperBoundExcept(Words, 0);
  }

  /** 48 capitals or fewer in 222 characters is not more than 30 percent. */
  lemma SampleCaps()
    ensures !HasExcessiveCaps(Sample)
  {
    SampleCapitals();
    SampleLength();
  }

  /**
   * The lowered sample lacks "v", a piece of "proven fact", "government
   * coverup", "peer-reviewed", "scientific evidence" and "verified sources".
   */
  lemma LacksPieceOfProvenFact()
    ensures !Includes(Lower(Sample), "v")
  {
    LoweredSample();
    LoweredWordsAvoidPiecesOfProvenFactAndExpertsSayAndMainstreamMedia();
    JoinAvoidsChar(LoweredWords, ' ', 'v');
  }

  /** The lowered sample lacks "x", a piece of "experts say". */
  lemma LacksPieceOfExpertsSay()
    ensures !Includes(Lower(Sample), "x")
  {
    LoweredSample();
    LoweredWordsAvoidPiecesOfProvenFactAndExpertsSayAndMainstreamMedia();
    JoinAvoidsChar(LoweredWords, ' ', 'x');
  }

  /**
   * The lowered sample lacks "ed", a piece of "mainstream media won't tell
   * you", "leaked documents" and "published in".
   */
  lemma LacksPieceOfMainstreamMedia()
    ensures !Includes(Lower(Sample), "ed")
  {
    LoweredSample();
    LoweredWordsAvoidPiecesOfProvenFactAndExpertsSayAndMainstreamMedia();
    JoinAvoidsPair(LoweredWords, ' ', 'e', 'd');
  }

  /**
   * The lowered sample lacks "es", a piece of "according to studies",
   * "research shows" and "data indicates".
   */
  lemma LacksPieceOfAccordingTo()
    ensures !Includes(Lower(Sample), "es")
  {
    LoweredSample();
    LoweredWordsAvoidPiecesOfAccordingToAndBigPharmaAndShockingTruth();
    JoinAvoidsPair(LoweredWords, ' ', 'e', 's');
  }

  /** The lowered sample lacks "co", a piece of "big pharma conspiracy". */
  lemma LacksPieceOfBigPharma()
    ensures !Includes(Lower(Sample), "co")
  {
    LoweredSample();
    LoweredWordsAvoidPiecesOfAccordingToAndBigPharmaAndShockingTruth();
    JoinAvoidsPair(LoweredWords, ' ', 'c', 'o');
  }

  /** The lowered sample lacks "ru", a piece of "shocking truth". */
  lemma LacksPieceOfShockingTruth()
    ensures !Includes(Lower(Sample), "ru")
  {
    LoweredSample();
    LoweredWordsAvoidPiecesOfAccordingToAndBigPharmaAndShockingTruth();
    JoinAvoidsPair(LoweredWords, ' ', 'r', 'u');
  }

  /** The lowered sample lacks "e c", a piece of "miracle cure". */
  lemma LacksPieceOfMiracleCure()
    ensures !Includes(Lower(Sample), "e c")
  {
    LoweredSample();
    LoweredWordsAreSeparate();
    LoweredWordsAvoidPieceOfMiracleCure();
    JoinAvoidsAcross(LoweredWords, ' ', 'e', 'c');
  }

  // ---------------------------------------------------------------------
  // The keywords and the emotional words

  lemma DoctorsDontWantYouToKnowRun()
    ensures LoweredPart1[1..7] == ["doctors", "don't", "want", "you", "to", "know"]
  {
  }

  lemma DoctorsDontWantYouToKnowJoined()
    ensures Join(["doctors", "don't", "want", "you", "to", "know"], ' ') == "doctors don't want you to know"
  {
    JoinCons("to", ["know"], ' ');
    assert ["to"] + ["know"] == ["to", "know"];
    JoinCons("you", ["to", "know"], ' ');
    assert ["you"] + ["to", "know"] == ["you", "to", "know"];
    JoinCons("want", ["you", "to", "know"], ' ');
    assert ["want"] + ["you", "to", "know"] == ["want", "you", "to", "know"];
    JoinCons("don't", ["want", "you", "to", "know"], ' ');
    assert ["don't"] + ["want", "you", "to", "know"] == ["don't", "want", "you", "to", "know"];
    JoinCons("doctors", ["don't", "want", "you", "to", "know"], ' ');
    assert ["doctors"] + ["don't", "want", "you", "to", "know"] == ["doctors", "don't", "want", "you", "to", "know"];
  }

  lemma DoctorsDontWantYouToKnowIsLowerCase()
    ensures Lower("doctors don't want you to know") == "doctors don't want you to know"
  {
    LowerOfLowerCase("doctors don't want you to know");
  }

  lemma MentionsDoctorsDontWantYouToKnow()
    ensures Includes(Lower(Sample), Lower("doctors don't want you to know"))
  {
    LoweredSample();
    JoinIncludesRunOf([], LoweredPart1, LoweredPart2 + LoweredPart3 + LoweredPart4 + LoweredPart5, ' ', 1, 7);
    assert LoweredWords == [] + LoweredPart1 + (LoweredPart2 + LoweredPart3 + LoweredPart4 + LoweredPart5);
    DoctorsDontWantYouToKnowRun();
    DoctorsDontWantYouToKnowJoined();
    DoctorsDontWantYouToKnowIsLowerCase();
  }

  lemma SecretCureRun()
    ensures LoweredPart1[8..10] == ["secret", "cure"]
  {
  }

  lemma SecretCureJoined()
    ensures Join(["secret", "cure"], ' ') == "secret cure"
  {
    JoinCons("secret", ["cure"], ' ');
    assert ["secret"] + ["cure"] == ["secret", "cure"];
  }

  lemma SecretCureIsLowerCase()
    ensures Lower("secret cure") == "secret cure"
  {
    LowerOfLowerCase("secret cure");
  }

  lemma MentionsSecretCure()
    ensures Includes(Lower(Sample), Lower("secret cure"))
  {
    LoweredSample();
    JoinIncludesRunOf([], LoweredPart1, LoweredPart2 + LoweredPart3 + LoweredPart4 + LoweredPart5, ' ', 8, 10);
    assert LoweredWords == [] + LoweredPart1 + (LoweredPart2 + LoweredPart3 + LoweredPart4 + LoweredPart5);
    SecretCureRun();
    SecretCureJoined();
    SecretCureIsLowerCase();
  }

  lemma TheyDontWantYouToKnowRun()
    ensures LoweredPart4[0..6] == ["they", "don't", "want", "you", "to", "know"]
  {
  }

  lemma TheyDontWantYouToKnowJoined()
    ensures Join(["they", "don't", "want", "you", "to", "know"], ' ') == "they don't want you to know"
  {
    JoinCons("to", ["know"], ' ');
    assert ["to"] + ["know"] == ["to", "know"];
    JoinCons("you", ["to", "know"], ' ');
    assert ["you"] + ["to", "know"] == ["you", "to", "know"];
    JoinCons("want", ["you", "to", "know"], ' ');
    assert ["want"] + ["you", "to", "know"] == ["want", "you", "to", "know"];
    JoinCons("don't", ["want", "you", "to", "know"], ' ');
    assert ["don't"] + ["want", "you", "to", "know"] == ["don't", "want", "you", "to", "know"];
    JoinCons("they", ["don't", "want", "you", "to", "know"], ' ');
    assert ["they"] + ["don't", "want", "you", "to", "know"] == ["they", "don't", "want", "you", "to", "know"];
  }

  lemma TheyDontWantYouToKnowIsLowerCase()
    ensures Lower("they don't want you to know") == "they don't want you to know"
  {
    LowerOfLowerCase("they don't want you to know");
  }

  lemma MentionsTheyDontWantYouToKnow()
    ensures Includes(Lower(Sample), Lower("they don't want you to know"))
  {
    LoweredSample();
    JoinIncludesRunOf(LoweredPart1 + LoweredPart2 + LoweredPart3, LoweredPart4, LoweredPart5, ' ', 0, 6);
    assert LoweredWords == LoweredPart1 + LoweredPart2 + LoweredPart3 + LoweredPart4 + LoweredPart5;
    TheyDontWantYouToKnowRun();
    TheyDontWantYouToKnowJoined();
    TheyDontWantYouToKnowIsLowerCase();
  }

  lemma LacksMainstreamMediaWontTellYou()
    ensures !Includes(Lower(Sample), Lower("mainstream media won't tell you"))
  {
    LacksPieceOfMainstreamMedia();
    assert Lower("mainstream media won't tell you")[12] == 'e' && Lower("mainstream media won't tell you")[13] == 'd';
    assert Lower("mainstream media won't tell you")[12..14] == "ed";
    assert OccursAt(Lower("mainstream media won't tell you"), "ed", 12);
    LacksPiece(Lower(Sample), Lower("mainstream media won't tell you"), "ed");
  }

  lemma LacksBigPharmaConspiracy()
    ensures !Includes(Lower(Sample), Lower("big pharma conspiracy"))
  {
    LacksPieceOfBigPharma();
    assert Lower("big pharma conspiracy")[11] == 'c' && Lower("big pharma conspiracy")[12] == 'o';
    assert Lower("big pharma conspiracy")[11..13] == "co";
    assert OccursAt(Lower("big pharma conspiracy"), "co", 11);
    LacksPiece(Lower(Sample), Lower("big pharma conspiracy"), "co");
  }

  lemma LacksProvenFact()
    ensures !Includes(Lower(Sample), Lower("proven fact"))
  {
    LacksPieceOfProvenFact();
    assert Lower("proven fact")[3] == 'v';
    assert Lower("proven fact")[3..4] == "v";
    assert OccursAt(Lower("proven fact"), "v", 3);
    LacksPiece(Lower(Sample), Lower("proven fact"), "v");
  }

  lemma LacksShockingTruth()
    ensures !Includes(Lower(Sample), Lower("shocking truth"))
  {
    LacksPieceOfShockingTruth();
    assert Lower("shocking truth")[10] == 'r' && Lower("shocking truth")[11] == 'u';
    assert Lower("shocking truth")[10..12] == "ru";
    assert OccursAt(Lower("shocking truth"), "ru", 10);
    LacksPiece(Lower(Sample), Lower("shocking truth"), "ru");
  }

  lemma LacksLeakedDocuments()
    ensures !Includes(Lower(Sample), Lower("leaked documents"))
  {
    LacksPieceOfMainstreamMedia();
    assert Lower("leaked documents")[4] == 'e' && Lower("leaked documents")[5] == 'd';
    assert Lower("leaked documents")[4..6] == "ed";
    assert OccursAt(Lower("leaked documents"), "ed", 4);
    LacksPiece(Lower(Sample), Lower("leaked documents"), "ed");
  }

  lemma LacksGovernmentCoverup()
    ensures !Includes(Lower(Sample), Lower("government coverup"))
  {
    LacksPieceOfProvenFact();
    assert Lower("government coverup")[2] == 'v';
    assert Lower("government coverup")[2..3] == "v";
    assert OccursAt(Lower("government coverup"), "v", 2);
    LacksPiece(Lower(Sample), Lower("government coverup"), "v");
  }

  lemma LacksMiracleCure()
    ensures !Includes(Lower(Sample), Lower("miracle cure"))
  {
    LacksPieceOfMiracleCure();
    assert Lower("miracle cure")[6] == 'e' && Lower("miracle cure")[7] == ' ' && Lower("miracle cure")[8] == 'c';
    assert Lower("miracle cure")[6..9] == "e c";
    assert OccursAt(Lower("miracle cure"), "e c", 6);
    LacksPiece(Lower(Sample), Lower("miracle cure"), "e c");
  }

  lemma LacksAccordingToStudies()
    ensures !Includes(Lower(Sample), Lower("according to studies"))
  {
    LacksPieceOfAccordingTo();
    assert Lower("according to studies")[18] == 'e' && Lower("according to studies")[19] == 's';
    assert Lower("according to studies")[18..20] == "es";
    assert OccursAt(Lower("according to studies"), "es", 18);
    LacksPiece(Lower(Sample), Lower("according to studies"), "es");
  }

  lemma LacksResearchShows()
    ensures !Includes(Lower(Sample), Lower("research shows"))
  {
    LacksPieceOfAccordingTo();
    assert Lower("research shows")[1] == 'e' && Lower("research shows")[2] == 's';
    assert Lower("research shows")[1..3] == "es";
    assert OccursAt(Lower("research shows"), "es", 1);
    LacksPiece(Lower(Sample), Lower("research shows"), "es");
  }

  lemma LacksPeerReviewed()
    ensures !Includes(Lower(Sample), Lower("peer-reviewed"))
  {
    LacksPieceOfProvenFact();
    assert Lower("peer-reviewed")[7] == 'v';
    assert Lower("peer-reviewed")[7..8] == "v";
    assert OccursAt(Lower("peer-reviewed"), "v", 7);
    LacksPiece(Lower(Sample), Lower("peer-reviewed"), "v");
  }

  lemma LacksScientificEvidence()
    ensures !Includes(Lower(Sample), Lower("scientific evidence"))
  {
    LacksPieceOfProvenFact();
    assert Lower("scientific evidence")[12] == 'v';
    assert Lower("scientific evidence")[12..13] == "v";
    assert OccursAt(Lower("scientific evidence"), "v", 12);
    LacksPiece(Lower(Sample), Lower("scientific evidence"), "v");
  }

  lemma LacksDataIndicates()
    ensures !Includes(Lower(Sample), Lower("data indicates"))
  {
    LacksPieceOfAccordingTo();
    assert Lower("data indicates")[12] == 'e' && Lower("data indicates")[13] == 's';
    assert Lower("data indicates")[12..14] == "es";
    assert OccursAt(Lower("data indicates"), "es", 12);
    LacksPiece(Lower(Sample), Lower("data indicates"), "es");
  }

  lemma LacksExpertsSay()
    ensures !Includes(Lower(Sample), Lower("experts say"))
  {
    LacksPieceOfExpertsSay();
    assert Lower("experts say")[1] == 'x';
    assert Lower("experts say")[1..2] == "x";
    assert OccursAt(Lower("experts say"), "x", 1);
    LacksPiece(Lower(Sample), Lower("experts say"), "x");
  }

  lemma LacksPublishedIn()
    ensures !Includes(Lower(Sample), Lower("published in"))
  {
    LacksPieceOfMainstreamMedia();
    assert Lower("published in")[7] == 'e' && Lower("published in")[8] == 'd';
    assert Lower("published in")[7..9] == "ed";
    assert OccursAt(Lower("published in"), "ed", 7);
    LacksPiece(Lower(Sample), Lower("published in"), "ed");
  }

  lemma LacksVerifiedSources()
    ensures !Includes(Lower(Sample), Lower("verified sources"))
  {
    LacksPieceOfProvenFact();
    assert Lower("verified sources")[0] == 'v';
    assert Lower("verified sources")[0..1] == "v";
    assert OccursAt(Lower("verified sources"), "v", 0);
    LacksPiece(Lower(Sample), Lower("verified sources"), "v");
  }

  lemma ShockingRun()
    ensures LoweredPart1[0..1] == ["shocking!"]
  {
  }

  lemma ShockingJoined()
    ensures Join(["shocking!"], ' ') == "shocking!"
  {
  }

  lemma MentionsShocking()
    ensures Includes(Lower(Sample), "shocking")
  {
    LoweredSample();
    JoinIncludesRunOf([], LoweredPart1, LoweredPart2 + LoweredPart3 + LoweredPart4 + LoweredPart5, ' ', 0, 1);
    assert LoweredWords == [] + LoweredPart1 + (LoweredPart2 + LoweredPart3 + LoweredPart4 + LoweredPart5);
    ShockingRun();
    ShockingJoined();
    assert OccursAt("shocking!", "shocking", 0);
    IncludesTransitive(Lower(Sample), "shocking!", "shocking");
  }

  // ---------------------------------------------------------------------
  // The signals and the report

  lemma SuspiciousPhrasesFrom5()
    ensures |MatchingKeywords(Lower(Sample), SuspiciousKeywords[5..])| == 0
  {
    LacksProvenFact();
    LacksShockingTruth();
    LacksLeakedDocuments();
    LacksGovernmentCoverup();
    LacksMiracleCure();
    MatchingFrom(Lower(Sample), SuspiciousKeywords, 5);
    MatchingFrom(Lower(Sample), SuspiciousKeywords, 6);
    MatchingFrom(Lower(Sample), SuspiciousKeywords, 7);
    MatchingFrom(Lower(Sample), SuspiciousKeywords, 8);
    MatchingFrom(Lower(Sample), SuspiciousKeywords, 9);
    assert SuspiciousKeywords[10..] == [];
  }

  /** Three suspicious phrases found. */
  lemma SuspiciousPhrases()
    ensures SuspiciousCount(Sample) == 3
  {
    MentionsDoctorsDontWantYouToKnow();
    MentionsSecretCure();
    MentionsTheyDontWantYouToKnow();
    LacksMainstreamMediaWontTellYou();
    LacksBigPharmaConspiracy();
    MatchingFrom(Lower(Sample), SuspiciousKeywords, 0);
    MatchingFrom(Lower(Sample), SuspiciousKeywords, 1);
    MatchingFrom(Lower(Sample), SuspiciousKeywords, 2);
    MatchingFrom(Lower(Sample), SuspiciousKeywords, 3);
    MatchingFrom(Lower(Sample), SuspiciousKeywords, 4);
    SuspiciousPhrasesFrom5();
    assert SuspiciousKeywords[0..] == SuspiciousKeywords;
  }

  lemma FactualPhrasesFrom4()
    ensures |MatchingKeywords(Lower(Sample), FactualKeywords[4..])| == 0
  {
    LacksDataIndicates();
    LacksExpertsSay();
    LacksPublishedIn();
    LacksVerifiedSources();
    MatchingFrom(Lower(Sample), FactualKeywords, 4);
    MatchingFrom(Lower(Sample), FactualKeywords, 5);
    MatchingFrom(Lower(Sample), FactualKeywords, 6);
    MatchingFrom(Lower(Sample), FactualKeywords, 7);
    assert FactualKeywords[8..] == [];
  }

  /** No factual phrases found. */
  lemma FactualPhrases()
    ensures FactualCount(Sample) == 0
  {
    LacksAccordingToStudies();
    LacksResearchShows();
    LacksPeerReviewed();
    LacksScientificEvidence();
    MatchingFrom(Lower(Sample), FactualKeywords, 0);
    MatchingFrom(Lower(Sample), FactualKeywords, 1);
    MatchingFrom(Lower(Sample), FactualKeywords, 2);
    MatchingFrom(Lower(Sample), FactualKeywords, 3);
    FactualPhrasesFrom4();
    assert FactualKeywords[0..] == FactualKeywords;
  }

  lemma EmotionalLanguage()
    ensures HasEmotionalLanguage(Sample)
  {
    MentionsShocking();
  }

  lemma SampleSignals()
    ensures TextSignals(Sample) == Signals(3, 0, 40, false, true)
  {
    SuspiciousPhrases();
    FactualPhrases();
    SampleWordCount();
    SampleCaps();
    EmotionalLanguage();
  }

  /** The report shown for the sample, whatever the latency draw. */
  lemma SampleAnalysis(draw: real)
    requires 0.0 <= draw < 1.0
    ensures Analyze(Sample, draw) == Report(25, High, [SuspiciousLanguage, EmotionalManipulation], Latency(draw), true)
  {
    SampleSignals();
  }

}
