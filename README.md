# Credibility heuristic of the misinformation detector

The page in `src/app/page.tsx` has a "misinformation detector". It scores a pasted text with a keyword heuristic, `analyzeContent`. This project models that heuristic in Dafny and proves properties of it.

The heuristic works in four steps:

1. It counts the distinct suspicious phrases (10 listed) and factual phrases (8 listed) that occur in the lower-cased text.
2. It computes three more signals:
   - the word count, from `split(' ')`;
   - excessive capitals: more than 30 percent of the characters are `A`..`Z`;
   - emotional language: two or more exclamation marks in a row, "amazing", "shocking", "incredible" or "unbelievable".
3. It starts a score at 75, adjusts it for each signal and clamps it to 0..100.
4. It derives a risk level from the score and builds an ordered list of up to four flags.

## Modules

- `Text` (`Text.dfy`) holds the string operations the heuristic uses:
  - ASCII `toLowerCase`;
  - `includes` as a substring test;
  - `split` and `join` on one character;
  - the count of `A`..`Z`.
  It also holds their laws: splitting and joining are inverse, and there is one more piece than there are separators.
- `Credibility` (`Credibility.dfy`) holds the heuristic itself:
  - the keyword lists and the signals;
  - the score, the risk level and the flags;
  - the report as the function `Analyze`;
  - the method `AnalyzeContent`, which follows the source step by step, with the score reassigned in place, and is proved equal to `Analyze`.
- `CredibilityFacts` (`CredibilityFacts.dfy`) holds the properties of the heuristic:
  - the score formula, its bounds and its monotonicity in each signal;
  - the risk ladder;
  - each flag present exactly when its condition holds, and in order;
  - the integer caps test against the real ratio;
  - the substring tests against the regular expression;
  - the empty text.
- `WordLists` (`WordLists.dfy`) holds facts about a text written as words joined by spaces: how lowering, substring search, capitals and length behave on the joined text. The sample proofs use them.
- `StudySample`, `MisinformationSample` and `ClimateSample` (one file each) hold the three sample texts and prove the report the page produces for each.
  - Each sample is defined as the words of the literal at `src/app/page.tsx:121`, `:122` and `:123` respectively, joined by single spaces. Splitting the literal on `' '` gives exactly these words.
  - `SampleLength` states the character count: 217, 222 and 224.

Two behaviours of the code worth noting:

- **Words are split on the space character only** (`split(' ')`), not on all whitespace.
  - Tabs and newlines do not separate words.
  - The empty text has one word.
- **The second sample does not trigger the capitals flag.** Its opening "SHOCKING!" is in capitals, but the sample has only 11 capitals in 222 characters, about 5 percent. `MisinformationSample.SampleCaps` proves the flag is not raised.

## Model

| member | source | states |
|---|---|---|
| Credibility.MatchingKeywords | src/app/page.tsx:86-92 | the filter keeps at most as many keywords as the list has, and keeps a keyword exactly when it is listed and its lower-case form occurs in the lowered text |
| Credibility.SuspiciousCount | src/app/page.tsx:86-88 | the suspicious count is at most 10, and zero exactly when no suspicious phrase occurs in the text, ignoring case |
| Credibility.FactualCount | src/app/page.tsx:90-92 | the factual count is at most 8, and zero exactly when no factual phrase occurs in the text, ignoring case |
| CredibilityFacts.KeywordListsAreDistinct | src/app/page.tsx:75-84 | neither keyword list repeats a phrase |
| CredibilityFacts.KeywordsAreNonEmpty | src/app/page.tsx:75-84 | no keyword is the empty string |
| CredibilityFacts.MatchingMonotone | src/app/page.tsx:86-92 | a text that contains every listed phrase of another has a count at least as large |
| CredibilityFacts.MatchingEmptyIff | src/app/page.tsx:86-92 | the count is zero exactly when no listed phrase occurs |
| CredibilityFacts.MatchingFrom | src/app/page.tsx:86-92 | walking the list, each keyword adds one to the count exactly when it occurs |
| CredibilityFacts.MatchingCountsDistinctPhrases | src/app/page.tsx:86-92 | for a list without repeats, the count is the number of distinct listed phrases found |
| CredibilityFacts.SuspiciousCountIsDistinctPhrases | src/app/page.tsx:86-88 | the suspicious count is the number of distinct suspicious phrases in the text, at most 10 |
| CredibilityFacts.FactualCountIsDistinctPhrases | src/app/page.tsx:90-92 | the factual count is the number of distinct factual phrases in the text, at most 8 |
| CredibilityFacts.AppendingNeverLowersCounts | src/app/page.tsx:86-92 | appending text never lowers either count |
| Text.LowerChar | src/app/page.tsx:87 | toLowerCase on a character leaves no capital, keeps non-capitals and maps each capital to its own letter in a..z, at the same place in the alphabet |
| Text.Lower | src/app/page.tsx:87 | toLowerCase keeps the length, lowers each character and leaves no capital |
| Text.LowerOfLowerCase | src/app/page.tsx:87 | a text without capitals is its own lower-case form |
| Text.LowerAppend | src/app/page.tsx:87 | lowering distributes over concatenation |
| Text.LowerIdempotent | src/app/page.tsx:87 | lowering twice is lowering once |
| Text.Includes | src/app/page.tsx:87 | a text includes only patterns no longer than itself; IncludesBounds and the lemmas below give the rest |
| Text.IncludesBounds | src/app/page.tsx:87 | the empty string is included in every text, and nothing longer than the text is |
| Text.IncludesTransitive | src/app/page.tsx:87 | a piece of a piece of a text is a piece of the text |
| Text.IncludesExtend | src/app/page.tsx:87 | an occurrence survives extending the text on either side |
| Text.IncludesLower | src/app/page.tsx:87 | an occurrence in a text is an occurrence, lowered, in the lowered text |
| Credibility.WordCount | src/app/page.tsx:94 | the word count is the number of spaces plus one |
| Text.Join | src/app/page.tsx:94 | the inverse of split used in the proofs: the joined text opens with the first piece, and JoinSplit and SplitJoin make it undo Split |
| Text.Split | src/app/page.tsx:94 | split on one character yields at least one piece and no piece holds the separator |
| Text.CountChar | src/app/page.tsx:94 | the count of a character is at most the length, and zero exactly when the character is absent |
| Text.SplitLength | src/app/page.tsx:94 | the word count is the number of spaces plus one |
| Text.JoinSplit | src/app/page.tsx:94 | joining the pieces with the separator restores the text |
| Text.SplitJoin | src/app/page.tsx:94 | splitting a join of separator-free pieces restores the pieces |
| Text.SplitPrefix | src/app/page.tsx:94 | splitting a separator-free word, a separator and a rest peels the word off |
| Text.SplitNoSeparator | src/app/page.tsx:94 | a text without the separator is one piece |
| Text.CountUpper | src/app/page.tsx:95 | the number of A..Z is at most the length and zero exactly when there is none |
| Text.CountUpperAppend | src/app/page.tsx:95 | capitals of a concatenation add up |
| Credibility.HasExcessiveCaps | src/app/page.tsx:95 | the test holds only of a non-empty text with a capital, and holds of every non-empty text of capitals only; ExcessiveCapsIsRatio states it exactly |
| CredibilityFacts.ExcessiveCapsIsRatio | src/app/page.tsx:95 | the integer test holds exactly when the text is non-empty and capitals / length > 0.3 in exact arithmetic, so the empty text never has excessive caps |
| CredibilityFacts.RatioTest | src/app/page.tsx:95 | 10c > 3n exactly when c / n > 0.3, for n > 0 |
| Credibility.HasEmotionalLanguage | src/app/page.tsx:96 | the test holds only of texts of two characters or more; EmotionalPatternTestAgrees ties it to the regular expression |
| CredibilityFacts.FoldedMatchIsLoweredOccurrence | src/app/page.tsx:96 | a case-insensitive match of a lower-case word is an occurrence in the lowered text |
| CredibilityFacts.BangRunIsDoubleBang | src/app/page.tsx:96 | a run of two or more exclamation marks starts at k exactly when "!!" occurs at k |
| CredibilityFacts.EmotionalPatternTestAgrees | src/app/page.tsx:96 | the regular expression /(!{2,}\|amazing\|shocking\|incredible\|unbelievable)/i matches exactly when the lowered text contains one of the five literals |
| CredibilityFacts.EmptyTextHasNoKeywords | src/app/page.tsx:86-92 | the empty text has count zero on both lists |
| CredibilityFacts.EmptyTextHasNoEmotion | src/app/page.tsx:96 | the empty text has no emotional language |
| Credibility.TextSignals | src/app/page.tsx:86-96 | the counts are at most 10 and 8, there is one word more than spaces, excessive caps needs a capital and emotional language two characters |
| CredibilityFacts.EmptyTextSignals | src/app/page.tsx:86-96 | the empty text has no keyword, no capitals, no emotion and one word |
| Credibility.Clamp | src/app/page.tsx:103 | Math.max(lo, Math.min(hi, x)) lies in lo..hi, is x inside the range, lo below it and hi above it |
| Credibility.UnclampedScore | src/app/page.tsx:98-102 | the sum lies between 60 and 75 after the keyword adjustments, since caps and emotion take off 0 to 15 |
| Credibility.CredibilityScore | src/app/page.tsx:98-103 | the score is within 0..100 and is the unclamped sum whenever that is in range |
| CredibilityFacts.ScoreIsMultipleOfFive | src/app/page.tsx:98-103 | every score is a multiple of 5 |
| Credibility.AnalyzeContent | src/app/page.tsx:86-116 | the step-by-step computation, with the score reassigned in place, yields exactly the report of Analyze |
| CredibilityFacts.ScoreFormula | src/app/page.tsx:98-103 | the reported score is clamp(0, 100, 75 - 15s + 10f - 10[caps] - 5[emotion]) |
| CredibilityFacts.NeutralSignalsScore | src/app/page.tsx:98-103 | with no signal the score is 75 |
| CredibilityFacts.SuspiciousNeverRaisesScore | src/app/page.tsx:99 | more suspicious phrases never raise the score |
| CredibilityFacts.FactualNeverLowersScore | src/app/page.tsx:100 | more factual phrases never lower the score |
| CredibilityFacts.BooleanSignalsNeverRaiseScore | src/app/page.tsx:101-102 | adding excessive caps or emotional language never raises the score |
| CredibilityFacts.MoreSuspiciousPhrasesNeverRaiseScore | src/app/page.tsx:86-103 | of two texts alike in the other signals, the one containing all suspicious phrases of the other scores no higher |
| CredibilityFacts.MoreFactualPhrasesNeverLowerScore | src/app/page.tsx:90-103 | of two texts alike in the other signals, the one containing all factual phrases of the other scores no lower |
| Credibility.RiskLevel | src/app/page.tsx:107 | low exactly when the score is above 70, medium exactly when 41..70, high exactly when at most 40 |
| CredibilityFacts.RiskMonotone | src/app/page.tsx:107 | a higher score never means a higher risk |
| CredibilityFacts.RiskDependsOnlyOnScore | src/app/page.tsx:105-107 | two analyses with equal scores report the same risk |
| Credibility.Raised | src/app/page.tsx:108-112 | the condition of each flag, as a definition; Flags and FlagsOfText state what the list holds |
| Credibility.Flags | src/app/page.tsx:108-113 | a flag is listed exactly when its condition holds, in the fixed order, at most four |
| CredibilityFacts.FlagsOfSignals | src/app/page.tsx:108-112 | for any signals, each flag is listed exactly when its condition holds |
| CredibilityFacts.FlagsOfText | src/app/page.tsx:108-113 | for a text: suspicious language exactly when a suspicious phrase counts, caps and emotion exactly when their tests hold, missing sources exactly when no factual phrase and more than 50 words, in strictly increasing order |
| CredibilityFacts.SuspiciousFlagIff | src/app/page.tsx:109 | the suspicious-language flag is raised exactly when some suspicious phrase occurs, ignoring case |
| CredibilityFacts.LacksSourcesIff | src/app/page.tsx:112 | the missing-sources flag is raised exactly when no factual phrase occurs and the text has at least 50 spaces |
| Credibility.Message | src/app/page.tsx:109-112 | every flag has a non-empty message; MessagesAreDistinct shows the messages differ |
| CredibilityFacts.MessagesAreDistinct | src/app/page.tsx:109-112 | the four messages differ, so the list of messages identifies the flags |
| Credibility.Latency | src/app/page.tsx:114 | for a draw in [0, 1), Math.floor(draw * 100) + 50 lies in 50..149 |
| Credibility.Analyze | src/app/page.tsx:105-116 | the score is within 0..100, the risk is that of the score, at most four flags, latency within 50..149, processed is true |
| CredibilityFacts.EmptyTextAnalysis | src/app/page.tsx:86-116 | the empty text gets score 75, low risk and no flag |
| StudySample.SampleLength | src/app/page.tsx:121 | the first sample has 217 characters |
| StudySample.SampleWordCount | src/app/page.tsx:121 | the first sample splits into 33 words |
| StudySample.SuspiciousPhrases | src/app/page.tsx:121 | no suspicious phrase occurs in the first sample |
| StudySample.FactualPhrases | src/app/page.tsx:121 | two factual phrases occur in the first sample ("peer-reviewed", "published in") |
| StudySample.SampleCaps | src/app/page.tsx:121 | the first sample has no excessive caps |
| StudySample.EmotionalLanguage | src/app/page.tsx:121 | the first sample has no emotional language |
| StudySample.SampleSignals | src/app/page.tsx:121 | the signals of the first sample are 0, 2, 33 words, no caps, no emotion |
| StudySample.SampleAnalysis | src/app/page.tsx:121 | the first sample scores 95, low risk, no flags |
| MisinformationSample.SampleLength | src/app/page.tsx:122 | the second sample has 222 characters |
| MisinformationSample.SampleWordCount | src/app/page.tsx:122 | the second sample splits into 40 words |
| MisinformationSample.SuspiciousPhrases | src/app/page.tsx:122 | three suspicious phrases occur in the second sample |
| MisinformationSample.FactualPhrases | src/app/page.tsx:122 | no factual phrase occurs in the second sample |
| MisinformationSample.SampleCaps | src/app/page.tsx:122 | the second sample has no excessive caps (at most 48 capitals in 222 characters) |
| MisinformationSample.EmotionalLanguage | src/app/page.tsx:122 | the second sample has emotional language ("shocking") |
| MisinformationSample.SampleSignals | src/app/page.tsx:122 | the signals of the second sample are 3, 0, 40 words, no caps, emotion |
| MisinformationSample.SampleAnalysis | src/app/page.tsx:122 | the second sample scores 25, high risk, flags suspicious language then emotional manipulation |
| ClimateSample.SampleLength | src/app/page.tsx:123 | the third sample has 224 characters |
| ClimateSample.SampleWordCount | src/app/page.tsx:123 | the third sample splits into 28 words |
| ClimateSample.SuspiciousPhrases | src/app/page.tsx:123 | no suspicious phrase occurs in the third sample |
| ClimateSample.FactualPhrases | src/app/page.tsx:123 | no factual phrase occurs in the third sample |
| ClimateSample.SampleCaps | src/app/page.tsx:123 | the third sample has no excessive caps |
| ClimateSample.EmotionalLanguage | src/app/page.tsx:123 | the third sample has no emotional language |
| ClimateSample.SampleSignals | src/app/page.tsx:123 | the signals of the third sample are 0, 0, 28 words, no caps, no emotion |
| ClimateSample.SampleAnalysis | src/app/page.tsx:123 | the third sample scores 75, low risk, no flags |

## Left out

- `NetworkBackground` (`src/app/page.tsx:6-62`) is left out: it is presentation with random node positions and has no behaviour to state.
- The async wrapper is left out: `setIsAnalyzing`, the 2-second `setTimeout` delay and publishing the report through `setAnalysis` (`src/app/page.tsx:71-73, 105, 117`). `AnalyzeContent` returns the report instead.
- `Math.random()` at `src/app/page.tsx:114` becomes the parameter `draw`, a real in [0, 1). `Latency` computes the field from it.
- The JSX, the result colouring, tabs and buttons are left out; they are interface only.
- The button's `!inputText.trim()` guard (`src/app/page.tsx:235`) is left out: it is on the caller's side, and the analysis is total.
- Credibility.HasExcessiveCaps: compares in exact integers, 10 * caps > 3 * length, rather than in IEEE double division. `ExcessiveCapsIsRatio` relates it to the exact real ratio. Rounding of the double quotient is not modelled.
- Text.Lower: lowers ASCII `A`..`Z` only; other characters, such as the degree sign of the third sample, are kept as they are. Full Unicode case mapping is not modelled.
- Credibility.HasExcessiveCaps (and with it `CredibilityFacts.ExcessiveCapsIsRatio`): `|text|` counts characters, where `inputText.length` at `src/app/page.tsx:95` counts UTF-16 code units, two for each character outside the Basic Multilingual Plane. Such a text can get the excessive-caps flag in the model but not on the page: for "A" followed by two emoji the model sees 1 capital in 3 characters and raises the flag, while the page divides 1 by 5 and does not, so the scores are 65 and 75. None of the samples contains such a character.
- CredibilityFacts.EmotionalPatternTest: only the one regular expression of `src/app/page.tsx:96` is modelled, as a predicate on match positions; regular expressions in general are not.
- The flags are the datatype `Flag`, and `Message` gives the exact strings shown; `MessagesAreDistinct` shows the strings identify the flags.
- The risk level is the datatype `Risk` rather than the strings "low", "medium" and "high".
