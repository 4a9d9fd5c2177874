# Little Genius mini-games: a Dafny model of the game logic

Little Genius is a set of React mini-game screens for children. This
project models the logic under five of them, one Dafny module per
component:

- `MissingLetters` (`missing_letters.dfy`) — the word trainer. It shows
  one word at a time from an English list (26 words) or a Telugu list
  (49 words).
  - A `while` loop splits a Telugu word into display units: one UTF-16 code
    unit, plus the next one when that is a vowel sign, the virama, the
    anusvara or the visarga. This is the component's own rule, not Unicode
    text segmentation.
  - Two predicates decide which units are highlighted.
  - A table gives each Telugu alphabet's description, with a fallback.
  - A small navigator (next, previous, reset, language change) is a class.
- `MemoryGame` (`memory_game.dfy`) — the memory-card game.
  - The deck holds pairs of emoji and is shuffled into an array of cards.
  - The click handler turns cards face up, keeps at most two pending, and
    then matches them or schedules turning them back over.
  - It keeps score, moves, best score and a countdown.
- `MathGame` (`math_game.dfy`) — the addition quiz.
  - A problem generator picks operands by difficulty.
  - A loop fills in three distinct wrong options near the answer.
  - A session runs ten problems against a 30-second clock.
- `ReadingGame` (`reading_game.dfy`) — the reading quiz.
  - A word list comes in three difficulty tiers. The pool widens with the
    round.
  - There are three answer modes: word match (10 points), spelling (15) and
    vocabulary (12).
  - There is a hint, and a game lasts fifteen rounds.
- `ScienceGame` (`science_game.dfy`) — the science quiz.
  - A bank of eleven questions.
  - One answer per question, 10 points each, and ten questions per game.
  - A delayed explanation, category badges and a knowledge level.

`Common` (`common.dfy`) holds what the components share:
- the difficulty levels;
- the JavaScript string operations they use, stated on `seq<char>`:
  `startsWith`, `includes`, `charAt(0)`, ASCII `toUpperCase`/`toLowerCase`
  and `trim`;
- decimal rendering of numbers.

How the model treats the browser:
- Every `Math.random()` draw is a parameter of the operation that makes it.
- A `sort(() => Math.random() - 0.5)` shuffle is an arbitrary rearrangement
  supplied by the caller.
- Each `setTimeout` callback and each tick of a countdown effect is an
  explicit step method. A flag or a captured value says that the step is
  due.
- A handler reads the state that was current when it ran. Where a callback
  reads a captured count or score, the model captures it too. The memory
  unflip callback captures the whole card array; the model has it turn back
  the pending pair of the current board, which is the same array as long as
  no new game has started (see `MemoryGame.MemoryBoard.InitializeGame` under
  "## Left out").
- A button that is disabled, or a screen that does not render, becomes a
  `requires` on its handler.

The stateful parts are classes whose methods state the complete new state
and preserve an invariant `Valid()`:
- `WordTrainer`;
- `MemoryBoard`, which keeps the cards in an `array` mutated in place;
- `MathSession`, `ReadingSession` and `ScienceSession`.

The memory click handler and its callbacks are also specified by pure
functions on a `Board` value. Lemmas about those functions carry the
game's invariants.

## Model

| member | source | states |
|---|---|---|
| `Common.CharAt0` | child_app/src/components/MissingLettersGame.tsx:183 | `charAt(0)` is the first code unit (empty for the empty string) and is a prefix of the string |
| `Common.Upper` | child_app/src/components/MissingLettersGame.tsx:210 | upper-casing keeps the length, leaves no lower-case ASCII letter, keeps every other code unit in place, and leaves a string unchanged exactly when it has no lower-case ASCII letter |
| `Common.Lower` | child_app/src/components/ReadingGame.tsx:95 | lower-casing keeps the length, leaves no upper-case ASCII letter, keeps every other code unit in place, and leaves a string unchanged exactly when it has no upper-case ASCII letter |
| `Common.TrimStart` | child_app/src/components/ReadingGame.tsx:95 | the result is a suffix of the input that does not start with white space, and everything removed is white space |
| `Common.TrimEnd` | child_app/src/components/ReadingGame.tsx:95 | the result is a prefix of the input that does not end with white space, and everything removed is white space |
| `Common.LowerTrimCommute` | child_app/src/components/ReadingGame.tsx:95 | lower-casing then trimming equals trimming then lower-casing |
| `Common.Decimal` | child_app/src/components/ReadingGame.tsx:339 | a number renders as a non-empty run of digits with no leading zero |
| `Common.DecimalRoundTrip` | child_app/src/components/ReadingGame.tsx:339 | reading back the rendered digits gives the number |
| `MissingLetters.SplitClusters` | child_app/src/components/MissingLettersGame.tsx:122-177 | the splitting loop returns exactly the unit list `Clusters(word)` that the splitting rule defines |
| `MissingLetters.ReadCluster` | child_app/src/components/MissingLettersGame.tsx:126-173 | one pass of the loop: the unit is the code unit at `i`, with the next one joined when it is a sign; `i` advances past the unit; the special-conjunct branches change nothing |
| `MissingLetters.ClustersStep` | child_app/src/components/MissingLettersGame.tsx:125-176 | the units of a word's tail are its first unit followed by the units of the rest |
| `MissingLetters.SpecialConjunctsUnreachable` | child_app/src/components/MissingLettersGame.tsx:142-171 | neither special-conjunct condition can hold: a single code unit never equals the two-unit `్ష`, and `బ` followed by `ం` has already been merged |
| `MissingLetters.ClustersConcat` | child_app/src/components/MissingLettersGame.tsx:122-177 | concatenating the units gives back the word exactly |
| `MissingLetters.ClustersShape` | child_app/src/components/MissingLettersGame.tsx:125-139 | there are no more units than code units; every unit is one code unit, or one code unit followed by one of the fourteen signs; a cluster of one code unit is never followed by a unit that starts with a sign |
| `MissingLetters.ClustersHead` | child_app/src/components/MissingLettersGame.tsx:125-126 | the first unit of a non-empty word starts with the word's first code unit |
| `MissingLetters.WordDisplay` | child_app/src/components/MissingLettersGame.tsx:115-211 | joining the displayed units gives back the word; the first unit is highlighted whenever the word starts with its alphabet (a Telugu word: with the alphabet's first code unit); a Telugu word shows the splitter's units and an English word one unit per code unit, each flagged by the highlight rule of its language |
| `MissingLetters.TeluguFirstUnitHighlighted` | child_app/src/components/MissingLettersGame.tsx:181-183 | the first unit is highlighted when the word starts with the alphabet's first code unit |
| `MissingLetters.EnglishFirstLetterHighlighted` | child_app/src/components/MissingLettersGame.tsx:210-211 | the first letter is highlighted when the word starts with its alphabet |
| `MissingLetters.EnglishHighlightedExactly` | child_app/src/components/MissingLettersGame.tsx:210-211 | for upper-case words and one-letter alphabets, a letter is highlighted if and only if it is the alphabet |
| `MissingLetters.WordAt` | child_app/src/components/MissingLettersGame.tsx:107-112 | the word at an index comes from the list of the selected language |
| `MissingLetters.TeluguWordsStartWithAlphabet` | child_app/src/components/MissingLettersGame.tsx:54-103 | every Telugu word and alphabet is non-empty, and the word starts with the alphabet's first code unit |
| `MissingLetters.EnglishWordsStartWithAlphabet` | child_app/src/components/MissingLettersGame.tsx:24-51 | English words and alphabets are upper-case letters with one-letter alphabets; every word starts with its alphabet except BOX, whose X is its third letter |
| `MissingLetters.EnglishEntriesUpper` | child_app/src/components/MissingLettersGame.tsx:24-51 | every English word and alphabet is upper-case ASCII, and each alphabet is one letter |
| `MissingLetters.EveryWordHighlightsItsAlphabet` | child_app/src/components/MissingLettersGame.tsx:24-211 | every word on either list shows at least one highlighted unit |
| `MissingLetters.TeluguAlphabetInfo` | child_app/src/components/MissingLettersGame.tsx:283-337 | a known alphabet gets its table entry; any other gets `Telugu Alphabet: ` followed by the alphabet |
| `MissingLetters.AlphabetInfoFallbackExactly` | child_app/src/components/MissingLettersGame.tsx:336 | the description is the fallback text if and only if the alphabet is not in the table |
| `MissingLetters.AlphabetInfoEntriesInitial` | child_app/src/components/MissingLettersGame.tsx:284-334 | every table entry is non-empty and starts with the initial of its kind: Vowel, Visarga, Anusvara, Consonant or Conjunct |
| `MissingLetters.TeluguAlphabetsAreKnown` | child_app/src/components/MissingLettersGame.tsx:54-103 | the alphabet of every Telugu word is a key of the description table |
| `MissingLetters.WordTrainer.CurrentWord` | child_app/src/components/MissingLettersGame.tsx:111-112 | the word on screen belongs to the current language and shows at least one highlighted unit |
| `MissingLetters.WordTrainer.constructor` | child_app/src/components/MissingLettersGame.tsx:15-19 | the trainer starts on the first English word, not started, meaning hidden |
| `MissingLetters.WordTrainer.Start` | child_app/src/components/MissingLettersGame.tsx:375 | the start button only sets the started flag |
| `MissingLetters.WordTrainer.HandleNext` | child_app/src/components/MissingLettersGame.tsx:238-248 | the next word, or past the last word back to the start screen at index 0; the meaning is hidden and the index stays in range |
| `MissingLetters.WordTrainer.HandlePrevious` | child_app/src/components/MissingLettersGame.tsx:251-257 | the index goes down by one unless it is 0; the meaning is hidden |
| `MissingLetters.WordTrainer.ToggleMeaning` | child_app/src/components/MissingLettersGame.tsx:265-267 | only the meaning flag flips |
| `MissingLetters.WordTrainer.ResetGame` | child_app/src/components/MissingLettersGame.tsx:270-273 | back to the first word with the meaning hidden, in the same language |
| `MissingLetters.WordTrainer.HandleLanguageChange` | child_app/src/components/MissingLettersGame.tsx:276-280 | the language switches and the current word becomes the new list's first word, with the meaning hidden |
| `MemoryGame.SettingsFitBoard` | child_app/src/components/MemoryGame.tsx:26-37 | every level uses at most sixteen pairs, has a positive time, and fills whole rows of its grid |
| `MemoryGame.HarderLevelsAreHarder` | child_app/src/components/MemoryGame.tsx:26-37 | a harder level has more pairs and less time |
| `MemoryGame.EmojiIndex` | child_app/src/components/MemoryGame.tsx:24 | every face has a position in the emoji array |
| `MemoryGame.FaceOfGlyph` | child_app/src/components/MemoryGame.tsx:24 | the face is recovered from the emoji it shows |
| `MemoryGame.GlyphInjective` | child_app/src/components/MemoryGame.tsx:24 | two faces show the same emoji if and only if they are the same face, so comparing tags is comparing the emoji strings |
| `MemoryGame.EmojisDistinct` | child_app/src/components/MemoryGame.tsx:24 | the sixteen emoji are pairwise distinct |
| `MemoryGame.FirstEmojis` | child_app/src/components/MemoryGame.tsx:41 | `emojis.slice(0, pairs)` has `pairs` entries |
| `MemoryGame.FirstEmojisDistinct` | child_app/src/components/MemoryGame.tsx:41 | the selected emoji are pairwise distinct |
| `MemoryGame.FirstEmojisCount` | child_app/src/components/MemoryGame.tsx:41 | an emoji is selected once if it lies among the first `pairs`, and otherwise not at all |
| `MemoryGame.DeckEmojis` | child_app/src/components/MemoryGame.tsx:45-50 | the deck holds every selected emoji twice and nothing else |
| `MemoryGame.DeckHoldsPairs` | child_app/src/components/MemoryGame.tsx:39-50 | each of the first `pairs` emoji appears on exactly two cards; no other emoji appears |
| `MemoryGame.ShuffledBoard` | child_app/src/components/MemoryGame.tsx:45-53 | any shuffle of the deck has `2 * pairs` cards, all face down and unmatched, with ids below the card count; each of the first `pairs` emoji is on exactly two of them and no other emoji is on any |
| `MemoryGame.ShuffleKeepsEmojis` | child_app/src/components/MemoryGame.tsx:53 | rearranging the cards rearranges the emoji they show |
| `MemoryGame.BuildDeck` | child_app/src/components/MemoryGame.tsx:42-50 | the `forEach`/`push` loop builds the deck: cards `2i` and `2i+1` carry emoji `i`, face down and unmatched |
| `MemoryGame.DealtOk` | child_app/src/components/MemoryGame.tsx:53-59 | a freshly dealt board satisfies the board invariant |
| `MemoryGame.ClickKeepsInvariant` | child_app/src/components/MemoryGame.tsx:67-114 | every click keeps the invariant: at most two pending distinct cards, exactly the face-up unmatched ones; matched cards face up; score 10 per matched pair; an unflip pending only for a mismatched pair; the end pending only when all cards are matched |
| `MemoryGame.FirstClickOk` | child_app/src/components/MemoryGame.tsx:72-77 | turning up a first card keeps the invariant |
| `MemoryGame.MismatchClickOk` | child_app/src/components/MemoryGame.tsx:79-84 | turning up a second, different card keeps the invariant with the unflip scheduled |
| `MemoryGame.MatchClickOk` | child_app/src/components/MemoryGame.tsx:86-92 | turning up a matching second card keeps the invariant |
| `MemoryGame.MatchedPairOk` | child_app/src/components/MemoryGame.tsx:86-92 | after a match no card is face up and unmatched, and exactly two more cards are matched |
| `MemoryGame.PairMatchedCount` | child_app/src/components/MemoryGame.tsx:88-89 | matching the two pending cards adds two to the matched count |
| `MemoryGame.PairMatchedFlags` | child_app/src/components/MemoryGame.tsx:88-89 | after a match every card keeps its id, matched cards are face up, and no card is face up unmatched |
| `MemoryGame.ScoreCountsPairs` | child_app/src/components/MemoryGame.tsx:91 | the score is 10 times the number of matched pairs |
| `MemoryGame.ClickSpecTurnsUp` | child_app/src/components/MemoryGame.tsx:72-92 | a click that is not ignored turns the card up; it then leaves the card pending, or matches the pair, adds 10 and a move and clears the pending list, or adds a move and schedules the unflip |
| `MemoryGame.ClickMovesAndScore` | child_app/src/components/MemoryGame.tsx:79-91 | a move is counted exactly when a second card is turned up; 10 points are scored exactly when it matches the first |
| `MemoryGame.ClickTouchesOnlyPendingCards` | child_app/src/components/MemoryGame.tsx:68-92 | a click never unmatches a card and changes no card except the clicked one and the pending one |
| `MemoryGame.UnflipKeepsInvariant` | child_app/src/components/MemoryGame.tsx:104-111 | turning a mismatched pair back over keeps the invariant |
| `MemoryGame.UnflipTouchesOnlyPair` | child_app/src/components/MemoryGame.tsx:106-110 | exactly the two pending cards turn face down; no other card changes |
| `MemoryGame.FinishedBoardScore` | child_app/src/components/MemoryGame.tsx:95-101 | when the end is pending, nothing is pending and the score is 10 per pair on the board |
| `MemoryGame.AllMatchedCount` | child_app/src/components/MemoryGame.tsx:95 | when every card is matched the matched count is the card count |
| `MemoryGame.SwappedShuffleMisdirectsClick` | child_app/src/components/MemoryGame.tsx:53-73 | on every level some legal shuffle makes a click on the first card turn up a different card, leaving the clicked one face down |
| `MemoryGame.SwapMisdirects` | child_app/src/components/MemoryGame.tsx:68-73 | swapping the first two cards of any deck makes a click on position 0, passed its card id, turn up position 1 |
| `MemoryGame.ClickAtPositionTurnsItUp` | child_app/src/components/MemoryGame.tsx:68-73 | handling the clicked position turns that card up and no other face-down card |
| `MemoryGame.Deal` | child_app/src/components/MemoryGame.tsx:39-54 | the shuffled deck is laid out in a fresh array whose board satisfies the invariant |
| `MemoryGame.MemoryBoard.constructor` | child_app/src/components/MemoryGame.tsx:14-22 | the initial state: no cards, easy level, 120 s, zero scores |
| `MemoryGame.MemoryBoard.SetDifficulty` | child_app/src/components/MemoryGame.tsx:153 | only the level changes |
| `MemoryGame.MemoryBoard.InitializeGame` | child_app/src/components/MemoryGame.tsx:39-60 | the board is the dealt shuffle with nothing pending, score and moves 0, and the level's time |
| `MemoryGame.MemoryBoard.StartGame` | child_app/src/components/MemoryGame.tsx:62-65 | the game is started with a freshly initialised board |
| `MemoryGame.MemoryBoard.HandleCardClick` | child_app/src/components/MemoryGame.tsx:67-114 | the array-mutating handler produces exactly the board `ClickSpec` describes, and keeps the invariant |
| `MemoryGame.MemoryBoard.ComparePending` | child_app/src/components/MemoryGame.tsx:79-112 | two pending cards are matched with 10 points, or left for the unflip; a move is counted either way |
| `MemoryGame.MemoryBoard.SetFlipped` | child_app/src/components/MemoryGame.tsx:73 | only the one card's face-up flag changes |
| `MemoryGame.MemoryBoard.SetMatched` | child_app/src/components/MemoryGame.tsx:88-89 | only the one card's matched flag changes |
| `MemoryGame.MemoryBoard.ClickCardAt` | child_app/src/components/MemoryGame.tsx:272 | a click on the card at position `p` runs the handler on that card's id, as the grid does |
| `MemoryGame.MemoryBoard.ClickCardAtPosition` | child_app/src/components/MemoryGame.tsx:272 | a click on the card at position `p` runs the handler on `p` itself |
| `MemoryGame.MemoryBoard.UnflipStep` | child_app/src/components/MemoryGame.tsx:106-111 | the 1000 ms callback turns the pair back over and clears the pending list |
| `MemoryGame.MemoryBoard.FinishStep` | child_app/src/components/MemoryGame.tsx:97-102 | the 500 ms callback ends the game and the best score becomes the larger of the best score and the final score |
| `MemoryGame.MemoryBoard.Tick` | child_app/src/components/MemoryGame.tsx:125-132 | one second passes; reaching 0 ends the game; nothing else changes |
| `MathGame.HarderLevelsLargerOperands` | child_app/src/components/MathGame.tsx:26-45 | easy operands go up to 10, and a harder level allows larger operands |
| `MathGame.QuestionInjective` | child_app/src/components/MathGame.tsx:31 | the question text determines both operands |
| `MathGame.GenerateOptions` | child_app/src/components/MathGame.tsx:47-53 | the options loop yields the options `OptionsFrom` defines: the answer first, pairwise distinct, at most four, each wrong option positive and within `[answer-5, answer+4]` |
| `MathGame.OfferOk` | child_app/src/components/MathGame.tsx:49-52 | one pass keeps the options well formed and only appends |
| `MathGame.OptionsFromOk` | child_app/src/components/MathGame.tsx:47-53 | the loop keeps the options well formed; if it stops short of four, every admissible candidate it drew is among them |
| `MathGame.SetOfSeqSize` | child_app/src/components/MathGame.tsx:47-53 | a list has at least as many entries as distinct values |
| `MathGame.FourValuesNeedFourEntries` | child_app/src/components/MathGame.tsx:47-53 | a list holding four distinct values has at least four entries |
| `MathGame.AdmissibleExists` | child_app/src/components/MathGame.tsx:49-52 | because the answer is at least 2, while fewer than four options are found some draw adds one |
| `MathGame.OptionsComplete` | child_app/src/components/MathGame.tsx:47-53 | with the answer at least 2, the draws 4, 6 and 7 among the draws complete four options |
| `MathGame.GenerateProblem` | child_app/src/components/MathGame.tsx:23-60 | the problem has operands in the level's range, their sum as answer, the question text, and four distinct options holding the answer, shuffled by `perm`; it is produced exactly when the draws complete the options |
| `MathGame.GenerateProblemFeasible` | child_app/src/components/MathGame.tsx:23-53 | at every level and for any operands, some draws complete the options |
| `MathGame.MathSession.constructor` | child_app/src/components/MathGame.tsx:13-21 | the initial state: no problem, easy level, 30 s |
| `MathGame.MathSession.SetDifficulty` | child_app/src/components/MathGame.tsx:131 | only the level changes |
| `MathGame.MathSession.StartGame` | child_app/src/components/MathGame.tsx:62-69 | score, count and time are reset and a new problem is posed; the recorded answer and verdict stay as they were |
| `MathGame.MathSession.StartGameClearingAnswer` | child_app/src/components/MathGame.tsx:62-69 | the same reset, also clearing the answer, the verdict and the pending advance |
| `MathGame.MathSession.SelectAnswer` | child_app/src/components/MathGame.tsx:71-92 | a second selection is ignored; the first is recorded with its verdict, scores 10 exactly when it is the answer, and schedules the advance with the current count |
| `MathGame.MathSession.AdvanceStep` | child_app/src/components/MathGame.tsx:82-91 | with the captured count below 9 the next problem is posed and the answer cleared; otherwise the game is over; so at most ten problems are posed |
| `MathGame.MathSession.Tick` | child_app/src/components/MathGame.tsx:103-110 | one second passes; reaching 0 ends the game; nothing else changes |
| `MathGame.ReplayAfterFullGame` | child_app/src/components/MathGame.tsx:62-92 | after a full game, "Play Again" leaves the last answer recorded, so the correct answer to the new first problem scores nothing |
| `MathGame.ReplayAfterFullGameCorrected` | child_app/src/components/MathGame.tsx:62-92 | with the answer cleared at start, the same correct answer scores 10 |
| `ReadingGame.WordIndex` | child_app/src/components/ReadingGame.tsx:25-49 | every word has a position on the list |
| `ReadingGame.Database` | child_app/src/components/ReadingGame.tsx:25-49 | the list has eighteen words |
| `ReadingGame.DatabaseOrder` | child_app/src/components/ReadingGame.tsx:25-49 | each word is on the list at its position; positions 0-7 are the easy words and 8-13 the medium ones |
| `ReadingGame.OfLevelAppend` | child_app/src/components/ReadingGame.tsx:52-53 | filtering by level distributes over concatenation |
| `ReadingGame.OfLevelUniform` | child_app/src/components/ReadingGame.tsx:52-53 | filtering a one-level list keeps all of it or none of it |
| `ReadingGame.TierLevels` | child_app/src/components/ReadingGame.tsx:26-48 | the easy, medium and hard words occupy positions 0-7, 8-13 and 14-17 |
| `ReadingGame.DatabaseTiers` | child_app/src/components/ReadingGame.tsx:52-53 | the easy filter returns the first eight words and the medium filter the next six |
| `ReadingGame.LevelSlices` | child_app/src/components/ReadingGame.tsx:52-53 | filtering three uniform tiers keeps exactly the tier asked for |
| `ReadingGame.PoolMembers` | child_app/src/components/ReadingGame.tsx:51-62 | a word is in a round's pool if and only if its tier is open at that round: easy only below round 5, no hard word below round 10; the pools hold 8, 14 and 18 words |
| `ReadingGame.InPrefix` | child_app/src/components/ReadingGame.tsx:57-59 | a word lies among the first `n` words if and only if its position is below `n` |
| `ReadingGame.RandomWord` | child_app/src/components/ReadingGame.tsx:64 | the drawn word belongs to the round's pool |
| `ReadingGame.EarnedIsPointsPerAnswer` | child_app/src/components/ReadingGame.tsx:82-116 | the score is the mode's points per right answer times the number of right answers |
| `ReadingGame.WordsAreLowerCase` | child_app/src/components/ReadingGame.tsx:27-48 | every word is a non-empty lower-case ASCII word, and none is the `wrong` marker |
| `ReadingGame.LowerOfLower` | child_app/src/components/ReadingGame.tsx:95 | lower-casing leaves a lower-case word unchanged |
| `ReadingGame.PictureChoiceCorrect` | child_app/src/components/ReadingGame.tsx:79 | a picture click is judged correct if and only if it is the word's own picture |
| `ReadingGame.SpellingCheckMeaning` | child_app/src/components/ReadingGame.tsx:95 | a spelling is accepted if and only if, trimmed and lower-cased, it is the word |
| `ReadingGame.RightAnswerOffered` | child_app/src/components/ReadingGame.tsx:296-349 | the word's picture is among the pictures offered, and its category has a button |
| `ReadingGame.FeedbackShowsWord` | child_app/src/components/ReadingGame.tsx:84-118 | the feedback is never empty, and after a wrong answer it shows the word |
| `ReadingGame.IncludesMiddle` | child_app/src/components/ReadingGame.tsx:86 | a string contains whatever is spliced into its middle |
| `ReadingGame.HintRevealsFirstLetterAndLength` | child_app/src/components/ReadingGame.tsx:339 | two words share a hint if and only if they agree on the upper-cased first letter and on the length |
| `ReadingGame.ReadingSession.constructor` | child_app/src/components/ReadingGame.tsx:14-23 | the initial state: word-match mode, nothing started |
| `ReadingGame.ReadingSession.SetGameMode` | child_app/src/components/ReadingGame.tsx:177-189 | only the mode changes |
| `ReadingGame.ReadingSession.StartGame` | child_app/src/components/ReadingGame.tsx:67-76 | score, round, game-over flag, feedback, verdict and input are reset; the first word is drawn from the pool of the round held before the reset |
| `ReadingGame.ReadingSession.StartGameFreshPool` | child_app/src/components/ReadingGame.tsx:67-76 | the same reset, drawing the first word from round 0's pool |
| `ReadingGame.ReadingSession.SetUserInput` | child_app/src/components/ReadingGame.tsx:317 | only the input changes |
| `ReadingGame.ReadingSession.ToggleHint` | child_app/src/components/ReadingGame.tsx:332 | only the hint flag flips |
| `ReadingGame.ReadingSession.Answer` | child_app/src/components/ReadingGame.tsx:79-123 | the verdict is recorded, the mode's points are added exactly when it is correct, the feedback is set and the next round is scheduled |
| `ReadingGame.ReadingSession.HandleWordMatch` | child_app/src/components/ReadingGame.tsx:78-92 | correct exactly when the selection is the word; 10 points when correct |
| `ReadingGame.ReadingSession.HandleSpelling` | child_app/src/components/ReadingGame.tsx:94-108 | correct exactly when the trimmed, lower-cased input is the lower-cased word; 15 points when correct |
| `ReadingGame.ReadingSession.HandleVocabulary` | child_app/src/components/ReadingGame.tsx:110-124 | correct exactly when the category is the word's; 12 points when correct |
| `ReadingGame.ReadingSession.NextRoundStep` | child_app/src/components/ReadingGame.tsx:126-137 | below round 14 the round advances and feedback, verdict, input and hint are cleared; at round 14 the game is over; so at most fifteen rounds are played |
| `ReadingGame.FirstPoolIsEasy` | child_app/src/components/ReadingGame.tsx:56-57 | every word of round 0's pool is an easy word |
| `ReadingGame.StalePoolAdmitsHardWord` | child_app/src/components/ReadingGame.tsx:56-72 | the hard word "dinosaur" is in round 14's pool but not in round 0's |
| `ReadingGame.ReplayAfterGameOver` | child_app/src/components/ReadingGame.tsx:67-72 | "Read Again" after a finished game can start the new game on a hard word |
| `ScienceGame.BankWellFormed` | child_app/src/components/ScienceGame.tsx:24-111 | every question has four options, and its right answer is exactly one of them |
| `ScienceGame.AnimalQuestionsWellFormed` | child_app/src/components/ScienceGame.tsx:25-46 | the animal questions are well formed |
| `ScienceGame.PlantQuestionsWellFormed` | child_app/src/components/ScienceGame.tsx:48-62 | the plant questions are well formed |
| `ScienceGame.SpaceQuestionsWellFormed` | child_app/src/components/ScienceGame.tsx:64-78 | the space questions are well formed |
| `ScienceGame.WeatherQuestionsWellFormed` | child_app/src/components/ScienceGame.tsx:80-94 | the weather questions are well formed |
| `ScienceGame.BodyQuestionsWellFormed` | child_app/src/components/ScienceGame.tsx:96-110 | the body questions are well formed |
| `ScienceGame.EveryQuestionDrawable` | child_app/src/components/ScienceGame.tsx:113-115 | every question can be drawn |
| `ScienceGame.CategoryEmojiDistinguishes` | child_app/src/components/ScienceGame.tsx:160-169 | each category has its own badge, none of them the microscope; any other text gets the microscope |
| `ScienceGame.LevelMonotone` | child_app/src/components/ScienceGame.tsx:252 | a higher score never earns a lower knowledge level |
| `ScienceGame.LevelCountsRightAnswers` | child_app/src/components/ScienceGame.tsx:252 | at 10 points per answer, Expert needs 8 right answers, Advanced 6 and Intermediate 4 |
| `ScienceGame.ScienceSession.constructor` | child_app/src/components/ScienceGame.tsx:15-22 | the initial state: nothing started, no question |
| `ScienceGame.ScienceSession.StartGame` | child_app/src/components/ScienceGame.tsx:117-126 | everything is reset and the drawn question is posed |
| `ScienceGame.ScienceSession.SelectAnswer` | child_app/src/components/ScienceGame.tsx:128-150 | a second answer is ignored; the first is recorded with its verdict, scores 10 exactly when it is the right answer, and schedules both callbacks |
| `ScienceGame.ScienceSession.ExplainStep` | child_app/src/components/ScienceGame.tsx:139-141 | the 1000 ms callback shows the explanation and changes nothing else |
| `ScienceGame.ScienceSession.AdvanceStep` | child_app/src/components/ScienceGame.tsx:143-158 | with the captured count below 9 the next question is posed and answer, verdict and explanation are cleared; otherwise the game is over |
| `ScienceGame.ScoreBounded` | child_app/src/components/ScienceGame.tsx:131-149 | restates three conjuncts of the session invariant (score a multiple of 10, at most 10 per answered question, fewer than 10 questions) as a score between 0 and 100; the proof work is that every `ScienceSession` method keeps `Valid()` |
| `ScienceGame.PlayAllCorrect` | child_app/src/components/ScienceGame.tsx:128-158 | answering all ten questions right ends the game with 100 points at the Expert level |

## Left out

- `ArtGame.tsx`, `LearningGame.tsx`, `App.tsx`, `Header.tsx`, `Home.tsx` and `Footer.tsx` are not part of this model. They are canvas drawing, static tables, routing and markup.
- Speech and sound are left out: `speakWord` in the reading game, the audio element of the word trainer, and the mute toggle, whose flag only affects audio.
- JSX, styles and CSS classes are left out.
- `getDifficultyColor` and `getGameInstructions` are left out.
- The category label formatting (`replace('-', ' ')`, `toUpperCase`) is left out.
- The floating-point averages, accuracy and progress-bar widths of the result screens are left out.
- The word trainer's `category` and `meaning` fields are left out.
- The UI copy "45 Telugu Words" is not stated, since the list holds 49.
- The spread of `Math.random` and of the random-comparator shuffles is left out. Each draw is a parameter and each shuffle a caller-supplied rearrangement.
- The order of the reading game's shuffled picture buttons is left out. Only which pictures are offered is modelled.
- Timing is left out. Delayed callbacks and countdown ticks are steps that may run whenever their `requires` allow.
- `MemoryGame.MemoryBoard.InitializeGame`: drops a pending unflip or finish callback, and so does `MemoryGame.MemoryBoard.StartGame`, which calls it. In the browser a late callback still fires, and this can happen: the countdown can end a game less than 1000 ms after a mismatch, or less than 500 ms after the last match, and "Play Again" can be pressed at once. A late unflip sets the cards back to the previous game's array, so the new deal disappears and the old board returns. It also empties the new game's pending list. A late finish ends the new game at once, and it can raise the best score to the previous game's final score. The model captures neither case. `MathGame.MathSession.StartGame` keeps a pending advance, as the source does. In the reading and science games no callback can be pending while the start button shows.
- `Common.Lower`: maps only the ASCII letters A-Z. JavaScript's `toLowerCase` also maps other code units, for instance U+212A KELVIN SIGN to `k`, and U+0130 to two code units. The same holds for `Common.Upper` and `toUpperCase`.
- `ReadingGame.SpellingCheckMeaning`: judges inputs with non-ASCII letters differently from the source. For the word `book` the source accepts `boo` followed by U+212A, and the model rejects it.
- `ReadingGame.ReadingSession.HandleSpelling`: uses the same ASCII-only case mapping, so it differs from the source on the same inputs.
- `MissingLetters.TeluguAlphabetInfo`: models the table lookup as a map lookup. In JavaScript, `alphabetInfo[alphabet]` also finds inherited `Object.prototype` members, so `constructor`, `toString` or `__proto__` would not give the fallback text. No word of the list has such an alphabet (`TeluguAlphabetsAreKnown`).
- `MissingLetters.AlphabetInfoFallbackExactly`: holds for the map lookup only, for the same reason.
- Strings are sequences of UTF-16 code units. Emoji in the feedback texts are written as one character each, and no length of those texts is measured.
- Memory faces are tags. `Glyph` maps each tag to its emoji string, and `GlyphInjective` shows that the tags compare like the strings.
- Card objects the shallow copy shares with the previous array are not modelled as aliases. The cards live in one array that the handler and the callbacks update in place.
- The science session keeps the current question record itself, not a reference into the bank. `StartGame` and `AdvanceStep` put `Bank(RandomQuestion(r))` there.
- `MathGame.GenerateProblem`: returns `None` when the supplied draws run out before four options are found, where the source keeps drawing. `GenerateProblemFeasible` and `AdmissibleExists` show that suitable draws always exist.
- `ScienceGame.ScienceSession.AdvanceStep`: requires the 1000 ms explanation callback to have run first, as its shorter delay implies.
- `ReadingGame.ReadingSession.NextRoundStep`: draws the next word from the pool of the round just played, because the callback reads the round before the update. The one-round lag in widening the pool is modelled as written and not corrected.

## Findings

| source | as written | input that shows it | evidently intended | confidence | as-written member | corrected member |
|---|---|---|---|---|---|---|
| child_app/src/components/MemoryGame.tsx:272 | the grid passes `card.id` to the handler, and the handler indexes `cards` by it (line 68) after the shuffle at line 53 | a shuffle that swaps the first two cards of the deck, then a click on the card at position 0 | the clicked card turns up | not executed | `MemoryGame.SwappedShuffleMisdirectsClick` | `MemoryGame.ClickAtPositionTurnsItUp` |
| child_app/src/components/MathGame.tsx:62-69 | `startGame` does not clear `selectedAnswer` or `isCorrect` | answer the tenth problem, wait for the game to end, press "Play Again", then pick the right answer | every answer button is enabled again and the right answer scores 10 | not executed | `MathGame.ReplayAfterFullGame` | `MathGame.ReplayAfterFullGameCorrected` |
| child_app/src/components/ReadingGame.tsx:67-72 | `startGame` draws the first word with `getRandomWord`, which reads the `currentRound` held before the reset | play fifteen rounds, then press "Read Again" and draw the fifteenth word of the full list | the first word of a game is an easy word | not executed | `ReadingGame.StalePoolAdmitsHardWord` | `ReadingGame.FirstPoolIsEasy` |
