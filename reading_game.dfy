/** The reading quiz: a word list in three tiers, a pool that widens with
    the round, three answer modes (pick the picture, spell the word, pick the
    category) with their own points, a hint, and a game of fifteen rounds.
    The random pick from the pool is a parameter; the 2000 ms callback after
    an answer is an explicit step. */
module ReadingGame {
  import opened Common

  datatype Category = Animals | Nature | Places | Transport | Objects

  /** The category as the component spells it. */
  function CategoryName(c: Category): string
  {
    match c
    case Animals => "animals"
    case Nature => "nature"
    case Places => "places"
    case Transport => "transport"
    case Objects => "objects"
  }

  datatype WordCard = WordCard(word: string, image: string, category: Category, level: Difficulty)

  /** The eighteen entries of the word list, named by their words. */
  datatype WordId =
    | Cat | Dog | Sun | Moon | Tree | House | Car | Book
    | Elephant | Butterfly | Rainbow | Mountain | School | Airplane
    | Dinosaur | Volcano | Library | Submarine

  /** The record of each entry. */
  function Entry(w: WordId): WordCard
  {
    match w
    case Cat => WordCard("cat", "\U{1F431}", Animals, Easy)
    case Dog => WordCard("dog", "\U{1F415}", Animals, Easy)
    case Sun => WordCard("sun", "\U{2600}\U{FE0F}", Nature, Easy)
    case Moon => WordCard("moon", "\U{1F319}", Nature, Easy)
    case Tree => WordCard("tree", "\U{1F333}", Nature, Easy)
    case House => WordCard("house", "\U{1F3E0}", Places, Easy)
    case Car => WordCard("car", "\U{1F697}", Transport, Easy)
    case Book => WordCard("book", "\U{1F4DA}", Objects, Easy)
    case Elephant => WordCard("elephant", "\U{1F418}", Animals, Medium)
    case Butterfly => WordCard("butterfly", "\U{1F98B}", Animals, Medium)
    case Rainbow => WordCard("rainbow", "\U{1F308}", Nature, Medium)
    case Mountain => WordCard("mountain", "\U{26F0}\U{FE0F}", Nature, Medium)
    case School => WordCard("school", "\U{1F3EB}", Places, Medium)
    case Airplane => WordCard("airplane", "\U{2708}\U{FE0F}", Transport, Medium)
    case Dinosaur => WordCard("dinosaur", "\U{1F995}", Animals, Hard)
    case Volcano => WordCard("volcano", "\U{1F30B}", Nature, Hard)
    case Library => WordCard("library", "\U{1F4D6}", Places, Hard)
    case Submarine => WordCard("submarine", "\U{1F6A2}", Transport, Hard)
  }

  const WordCount: nat := 18

  /** The entry at each position of the list. */
  function WordAt(k: nat): WordId
    requires k < WordCount
  {
    match k
    case 0 => Cat case 1 => Dog case 2 => Sun case 3 => Moon case 4 => Tree
    case 5 => House case 6 => Car case 7 => Book
    case 8 => Elephant case 9 => Butterfly case 10 => Rainbow case 11 => Mountain
    case 12 => School case 13 => Airplane
    case 14 => Dinosaur case 15 => Volcano case 16 => Library case 17 => Submarine
  }

  /** The position of each entry in the list. */
  function WordIndex(w: WordId): (k: nat)
    ensures k < WordCount && WordAt(k) == w
  {
    match w
    case Cat => 0 case Dog => 1 case Sun => 2 case Moon => 3 case Tree => 4
    case House => 5 case Car => 6 case Book => 7
    case Elephant => 8 case Butterfly => 9 case Rainbow => 10 case Mountain => 11
    case School => 12 case Airplane => 13
    case Dinosaur => 14 case Volcano => 15 case Library => 16 case Submarine => 17
  }

  /** The word list, in its order: eight easy, six medium, four hard words. */
  function Database(): (db: seq<WordId>)
    ensures |db| == WordCount
  {
    seq(WordCount, k requires 0 <= k < WordCount => WordAt(k))
  }

  /** Every entry is on the list once, in tier order. */
  lemma DatabaseOrder(w: WordId)
    ensures Database()[WordIndex(w)] == w && w in Database()
    ensures WordIndex(w) < 8 <==> Entry(w).level == Easy
    ensures 8 <= WordIndex(w) < 14 <==> Entry(w).level == Medium
  {
  }

  /** `words.filter(w => w.difficulty === level)`. */
  function OfLevel(words: seq<WordId>, level: Difficulty): seq<WordId>
  {
    if words == [] then []
    else if Entry(words[0]).level == level then [words[0]] + OfLevel(words[1..], level)
    else OfLevel(words[1..], level)
  }

  lemma {:induction false} OfLevelAppend(a: seq<WordId>, b: seq<WordId>, level: Difficulty)
    ensures OfLevel(a + b, level) == OfLevel(a, level) + OfLevel(b, level)
  {
    if a == [] {
      assert a + b == b;
    } else {
      assert (a + b)[0] == a[0] && (a + b)[1..] == a[1..] + b;
      OfLevelAppend(a[1..], b, level);
    }
  }

  /** Filtering a list whose words all have one level keeps all of it when
      that is the level asked for, and none of it otherwise. */
  lemma {:induction false} OfLevelUniform(words: seq<WordId>, tier: Difficulty, level: Difficulty)
    requires forall k :: 0 <= k < |words| ==> Entry(words[k]).level == tier
    ensures OfLevel(words, level) == if tier == level then words else []
  {
    if words != [] {
      OfLevelUniform(words[1..], tier, level);
    }
  }

  /** The easy, medium and hard words occupy positions 0-7, 8-13 and 14-17. */
  lemma TierLevels()
    ensures forall k :: 0 <= k < 8 ==> Entry(WordAt(k)).level == Easy
    ensures forall k :: 8 <= k < 14 ==> Entry(WordAt(k)).level == Medium
    ensures forall k :: 14 <= k < WordCount ==> Entry(WordAt(k)).level == Hard
  {
  }

  /** The tiers lie in order in the list, so the filters return slices. */
  lemma DatabaseTiers()
    ensures OfLevel(Database(), Easy) == Database()[..8]
    ensures OfLevel(Database(), Medium) == Database()[8..14]
  {
    var db := Database();
    var easy, medium, hard := db[..8], db[8..14], db[14..];
    assert db == easy + medium + hard;
    TierLevels();
    assert forall k :: 0 <= k < |easy| ==> Entry(easy[k]).level == Easy;
    assert forall k :: 0 <= k < |medium| ==> Entry(medium[k]).level == Medium by {
      forall k | 0 <= k < |medium| ensures medium[k] == WordAt(k + 8) { }
    }
    assert forall k :: 0 <= k < |hard| ==> Entry(hard[k]).level == Hard by {
      forall k | 0 <= k < |hard| ensures hard[k] == WordAt(k + 14) { }
    }
    LevelSlices(easy, medium, hard, Easy);
    LevelSlices(easy, medium, hard, Medium);
  }

  /** Filtering three uniform tiers keeps exactly the tier asked for. */
  lemma LevelSlices(easy: seq<WordId>, medium: seq<WordId>, hard: seq<WordId>, level: Difficulty)
    requires forall k :: 0 <= k < |easy| ==> Entry(easy[k]).level == Easy
    requires forall k :: 0 <= k < |medium| ==> Entry(medium[k]).level == Medium
    requires forall k :: 0 <= k < |hard| ==> Entry(hard[k]).level == Hard
    ensures OfLevel(easy + medium + hard, level) ==
      (if level == Easy then easy else []) + (if level == Medium then medium else []) +
      (if level == Hard then hard else [])
  {
    OfLevelAppend(easy + medium, hard, level);
    OfLevelAppend(easy, medium, level);
    OfLevelUniform(easy, Easy, level);
    OfLevelUniform(medium, Medium, level);
    OfLevelUniform(hard, Hard, level);
  }

  /** The words `getRandomWord` chooses among when it reads `round`: the easy
      words before round 5, easy and medium words before round 10, all words
      after. */
  function Pool(round: int): seq<WordId>
  {
    var db := Database();
    if round < 5 then OfLevel(db, Easy)
    else if round < 10 then OfLevel(db, Easy) + OfLevel(db, Medium)
    else db
  }

  /** A word is in the pool exactly when its tier is open at that round; the
      pools hold 8, 14 and 18 words. */
  lemma PoolMembers(round: int, w: WordId)
    ensures w in Pool(round) <==>
      (round < 5 ==> Entry(w).level == Easy) && (round < 10 ==> Entry(w).level != Hard)
    ensures |Pool(round)| == if round < 5 then 8 else if round < 10 then 14 else WordCount
  {
    DatabaseTiers();
    var db := Database();
    if round < 10 {
      InPrefix(w, 8);
      InPrefix(w, 14);
      assert db[..14] == db[..8] + db[8..14];
    } else {
      DatabaseOrder(w);
    }
  }

  /** A word lies among the first `n` words exactly when its position is
      below `n`. */
  lemma InPrefix(w: WordId, n: nat)
    requires n <= WordCount
    ensures w in Database()[..n] <==> WordIndex(w) < n
  {
    var db := Database();
    DatabaseOrder(w);
    if w in db[..n] {
      var k :| 0 <= k < n && db[..n][k] == w;
      assert WordAt(k) == w;
      assert WordIndex(WordAt(k)) == k;
    }
  }

  /** `getRandomWord`: `r` is the draw `Math.floor(Math.random() * length)`. */
  function RandomWord(round: int, r: nat): (w: WordId)
    requires r < |Pool(round)|
    ensures w in Pool(round)
  {
    Pool(round)[r]
  }

  // ---------------------------------------------------------------------
  // Answers
  // ---------------------------------------------------------------------

  datatype Mode = WordMatch | Spelling | Vocabulary

  /** Points a correct answer earns in each mode. */
  function Points(mode: Mode): nat
  {
    match mode
    case WordMatch => 10
    case Spelling => 15
    case Vocabulary => 12
  }

  /** The score after `rightAnswers` correct answers in one mode, each
      worth the same multiple. */
  function Earned(mode: Mode, rightAnswers: nat): int
  {
    match mode
    case WordMatch => 10 * rightAnswers
    case Spelling => 15 * rightAnswers
    case Vocabulary => 12 * rightAnswers
  }

  /** The score is the mode's points per right answer times the number of
      right answers. */
  lemma EarnedIsPointsPerAnswer(mode: Mode, rightAnswers: nat)
    ensures Earned(mode, rightAnswers) == Points(mode) * rightAnswers
  {
  }

  /** The pictures offered in word-match mode, before the shuffle. */
  function ImageOptions(w: WordCard): seq<string>
  {
    [w.image, "\U{1F436}", "\U{1F332}", "\U{1F3E0}"]
  }

  /** What a picture button passes to `handleWordMatch`. */
  function ImageChoice(w: WordCard, image: string): string
  {
    if image == w.image then w.word else "wrong"
  }

  /** The word-match verdict. */
  predicate WordMatchCorrect(selectedWord: string, w: WordCard)
  {
    selectedWord == w.word
  }

  /** The spelling verdict: the input lower-cased then trimmed, against the
      word lower-cased (the word itself is not trimmed). */
  predicate SpellingCorrect(input: string, w: WordCard)
  {
    Trim(Lower(input)) == Lower(w.word)
  }

  /** The vocabulary verdict. */
  predicate VocabularyCorrect(selected: Category, w: WordCard)
  {
    selected == w.category
  }

  /** The categories offered in vocabulary mode. */
  const CategoryButtons: seq<Category> := [Animals, Nature, Places, Transport, Objects]

  predicate IsLowerAscii(s: string)
  {
    forall k :: 0 <= k < |s| ==> 'a' <= s[k] <= 'z'
  }

  /** Every word on the list is a non-empty run of lower-case letters, and
      none is the "wrong" marker. */
  lemma WordsAreLowerCase(w: WordId)
    ensures IsLowerAscii(Entry(w).word) && Entry(w).word != [] && Entry(w).word != "wrong"
  {
  }

  /** Lower-casing leaves a lower-case word alone. */
  lemma {:induction false} LowerOfLower(s: string)
    requires IsLowerAscii(s)
    ensures Lower(s) == s
  {
    assert forall k :: 0 <= k < |s| ==> Lower(s)[k] == s[k];
  }

  /** Clicking a picture is judged correct exactly when it is the word's own
      picture. */
  lemma PictureChoiceCorrect(w: WordId, image: string)
    ensures WordMatchCorrect(ImageChoice(Entry(w), image), Entry(w)) <==> image == Entry(w).image
  {
    WordsAreLowerCase(w);
  }

  /** A spelling is accepted exactly when, trimmed and lower-cased, it is the
      word: any mix of case and surrounding white space is forgiven. */
  lemma SpellingCheckMeaning(input: string, w: WordId)
    ensures SpellingCorrect(input, Entry(w)) <==> Lower(Trim(input)) == Entry(w).word
  {
    WordsAreLowerCase(w);
    LowerOfLower(Entry(w).word);
    LowerTrimCommute(input);
  }

  /** Every category on the list has a button, so vocabulary mode always
      offers the right answer; likewise word-match mode offers the picture. */
  lemma RightAnswerOffered(w: WordCard)
    ensures w.category in CategoryButtons
    ensures w.image in ImageOptions(w)
  {
    var k := match w.category
      case Animals => 0 case Nature => 1 case Places => 2 case Transport => 3 case Objects => 4;
    assert CategoryButtons[k] == w.category;
    assert ImageOptions(w)[0] == w.image;
  }

  /** The feedback line after an answer in `mode`. */
  function Feedback(mode: Mode, correct: bool, w: WordCard): string
  {
    match mode
    case WordMatch =>
      if correct then "\U{1F389} Excellent! You got it right! \U{1F389}"
      else "\U{274C} Good try! The word was \"" + w.word + "\" \U{274C}"
    case Spelling =>
      if correct then "\U{1F389} Perfect spelling! Well done! \U{1F389}"
      else "\U{274C} Almost! The correct spelling is \"" + w.word + "\" \U{274C}"
    case Vocabulary =>
      if correct then "\U{1F389} Great categorization! You're smart! \U{1F389}"
      else "\U{274C} Nice try! \"" + w.word + "\" belongs to \"" + CategoryName(w.category) + "\" \U{274C}"
  }

  /** Feedback is never empty; a wrong answer's feedback shows the word. */
  lemma FeedbackShowsWord(mode: Mode, correct: bool, w: WordCard)
    ensures Feedback(mode, correct, w) != ""
    ensures !correct ==> Includes(Feedback(mode, correct, w), w.word)
  {
    var f := Feedback(mode, correct, w);
    if !correct {
      var (before, after) := match mode
        case WordMatch => ("\U{274C} Good try! The word was \"", "\" \U{274C}")
        case Spelling => ("\U{274C} Almost! The correct spelling is \"", "\" \U{274C}")
        case Vocabulary =>
          ("\U{274C} Nice try! \"", "\" belongs to \"" + CategoryName(w.category) + "\" \U{274C}");
      assert f == before + w.word + after;
      IncludesMiddle(before, w.word, after);
    }
  }

  lemma IncludesMiddle(before: string, part: string, after: string)
    ensures Includes(before + part + after, part)
  {
    var s := before + part + after;
    assert s[|before|..|before| + |part|] == part;
    assert OccursAt(s, part, |before|);
  }

  const HintPrefix: string := "\U{1F4A1} Hint: This word starts with \""
  const HintMiddle: string := "\" and has "
  const HintSuffix: string := " letters."

  /** The hint line: the first letter upper-cased and the length. */
  function HintText(word: string): string
  {
    HintPrefix + Upper(CharAt0(word)) + HintMiddle + Decimal(|word|) + HintSuffix
  }

  /** The hint gives away the first letter, up to case, and the length, and
      nothing else: two non-empty words share a hint exactly when they agree
      on those. */
  lemma HintRevealsFirstLetterAndLength(a: string, b: string)
    requires a != [] && b != []
    ensures HintText(a) == HintText(b) <==> UpperChar(a[0]) == UpperChar(b[0]) && |a| == |b|
  {
    var ta, tb := HintText(a), HintText(b);
    var p, m := |HintPrefix|, |HintMiddle|;
    assert Upper(CharAt0(a)) == [UpperChar(a[0])] && Upper(CharAt0(b)) == [UpperChar(b[0])];
    if ta == tb {
      assert ta[p] == UpperChar(a[0]) && tb[p] == UpperChar(b[0]);
      var da, db := Decimal(|a|), Decimal(|b|);
      assert |da| == |db|;
      assert da == ta[p + 1 + m..p + 1 + m + |da|];
      assert db == tb[p + 1 + m..p + 1 + m + |db|];
      DecimalRoundTrip(|a|);
      DecimalRoundTrip(|b|);
    }
  }

  // ---------------------------------------------------------------------
  // The session
  // ---------------------------------------------------------------------

  const Rounds: nat := 15

  /** The component's state. `pendingNext` is the 2000 ms callback an answer
      schedules. */
  class ReadingSession {
    var score: int
    var current: Option<WordId>
    var gameMode: Mode
    var gameStarted: bool
    var currentRound: nat
    var feedback: string
    var isCorrect: Option<bool>
    var gameOver: bool
    var userInput: string
    var showHint: bool
    var pendingNext: bool
    /** The number of correct answers this game. */
    ghost var correctAnswers: nat

    /** Words come from the list; at most fifteen rounds; one answer per
        round, so the score is a multiple of the mode's points and at most
        one mode's worth per answered round; feedback is shown exactly while
        a verdict is; the game ends only from the last round. */
    ghost predicate Valid()
      reads this
    {
      (gameStarted ==> current.Some?) &&
      (!gameStarted ==> correctAnswers == 0 && currentRound == 0 && current.None? && isCorrect.None? &&
                        feedback == "" && !gameOver && !pendingNext) &&
      currentRound < Rounds &&
      score == Earned(gameMode, correctAnswers) &&
      correctAnswers <= currentRound + (if isCorrect.Some? then 1 else 0) &&
      (feedback == "" <==> isCorrect.None?) &&
      (pendingNext ==> isCorrect.Some? && !gameOver) &&
      (gameOver ==> currentRound == Rounds - 1 && isCorrect.Some? && !pendingNext)
    }

    /** The state when the component mounts. */
    constructor ()
      ensures Valid()
      ensures score == 0 && current.None? && gameMode == WordMatch && !gameStarted
      ensures currentRound == 0 && feedback == "" && isCorrect.None? && !gameOver
      ensures userInput == "" && !showHint && !pendingNext
    {
      score := 0;
      correctAnswers := 0;
      current := None;
      gameMode := WordMatch;
      gameStarted := false;
      currentRound := 0;
      feedback := "";
      isCorrect := None;
      gameOver := false;
      userInput := "";
      showHint := false;
      pendingNext := false;
    }

    /** The mode buttons, shown only before the first game. */
    method SetGameMode(mode: Mode)
      requires Valid() && !gameStarted
      modifies this
      ensures Valid()
      ensures gameMode == mode
      ensures score == old(score) && current == old(current) && gameStarted == old(gameStarted)
      ensures currentRound == old(currentRound) && feedback == old(feedback) && isCorrect == old(isCorrect)
      ensures gameOver == old(gameOver) && userInput == old(userInput) && showHint == old(showHint)
      ensures pendingNext == old(pendingNext)
    {
      gameMode := mode;
    }

    /** `startGame`, from the start screen or "Read Again": score, round,
        game-over flag, feedback, verdict and input are reset. The first
        word is drawn with `r` from the pool of the round the component
        held before the reset; the hint flag is left as it was. */
    method StartGame(r: nat)
      requires Valid() && (!gameStarted || gameOver) && r < |Pool(currentRound)|
      modifies this
      ensures Valid()
      ensures gameStarted && !gameOver && !pendingNext
      ensures score == 0 && currentRound == 0 && current == Some(RandomWord(old(currentRound), r))
      ensures feedback == "" && isCorrect.None? && userInput == ""
      ensures gameMode == old(gameMode) && showHint == old(showHint)
    {
      var word := RandomWord(currentRound, r);
      PoolMembers(currentRound, word);
      gameStarted := true;
      score := 0;
      correctAnswers := 0;
      currentRound := 0;
      gameOver := false;
      current := Some(word);
      feedback := "";
      isCorrect := None;
      userInput := "";
    }

    /** `startGame` as evidently intended: the first word comes from the pool
        of round 0, which holds only easy words (`FirstPoolIsEasy`). */
    method StartGameFreshPool(r: nat)
      requires Valid() && (!gameStarted || gameOver) && r < |Pool(0)|
      modifies this
      ensures Valid()
      ensures gameStarted && !gameOver && !pendingNext
      ensures score == 0 && currentRound == 0 && current == Some(RandomWord(0, r))
      ensures feedback == "" && isCorrect.None? && userInput == ""
      ensures gameMode == old(gameMode) && showHint == old(showHint)
    {
      var word := RandomWord(0, r);
      gameStarted := true;
      score := 0;
      correctAnswers := 0;
      currentRound := 0;
      gameOver := false;
      current := Some(word);
      feedback := "";
      isCorrect := None;
      userInput := "";
    }

    /** Typing into the spelling box, enabled until the verdict. */
    method SetUserInput(text: string)
      requires Valid() && gameStarted && !gameOver && gameMode == Spelling && isCorrect.None?
      modifies this
      ensures Valid()
      ensures userInput == text
      ensures score == old(score) && current == old(current) && gameMode == old(gameMode)
      ensures gameStarted == old(gameStarted) && currentRound == old(currentRound)
      ensures feedback == old(feedback) && isCorrect == old(isCorrect) && gameOver == old(gameOver)
      ensures showHint == old(showHint) && pendingNext == old(pendingNext)
    {
      userInput := text;
    }

    /** The hint button, enabled until the verdict. */
    method ToggleHint()
      requires Valid() && gameStarted && !gameOver && gameMode == Spelling && isCorrect.None?
      modifies this
      ensures Valid()
      ensures showHint == !old(showHint)
      ensures score == old(score) && current == old(current) && gameMode == old(gameMode)
      ensures gameStarted == old(gameStarted) && currentRound == old(currentRound)
      ensures feedback == old(feedback) && isCorrect == old(isCorrect) && gameOver == old(gameOver)
      ensures userInput == old(userInput) && pendingNext == old(pendingNext)
    {
      showHint := !showHint;
    }

    /** Records a verdict for the current word: the mode's points when it is
        correct, the feedback line, and the scheduled next round. */
    method Answer(correct: bool)
      requires Valid() && gameStarted && !gameOver && isCorrect.None?
      modifies this
      ensures Valid()
      ensures pendingNext
      ensures isCorrect == Some(correct) && feedback == Feedback(gameMode, correct, Entry(current.value))
      ensures score == if correct then old(score) + Points(gameMode) else old(score)
      ensures current == old(current) && gameMode == old(gameMode) && gameStarted == old(gameStarted)
      ensures currentRound == old(currentRound) && gameOver == old(gameOver)
      ensures userInput == old(userInput) && showHint == old(showHint)
    {
      isCorrect := Some(correct);
      if correct {
        score := score + Points(gameMode);
        correctAnswers := correctAnswers + 1;
      }
      FeedbackShowsWord(gameMode, correct, Entry(current.value));
      feedback := Feedback(gameMode, correct, Entry(current.value));
      pendingNext := true;
    }

    /** `handleWordMatch(selectedWord)`, from a picture button. */
    method HandleWordMatch(selectedWord: string)
      requires Valid() && gameStarted && !gameOver && gameMode == WordMatch && isCorrect.None?
      modifies this
      ensures Valid()
      ensures pendingNext
      ensures isCorrect == Some(WordMatchCorrect(selectedWord, Entry(current.value)))
      ensures score == if WordMatchCorrect(selectedWord, Entry(current.value)) then old(score) + 10 else old(score)
      ensures feedback == Feedback(WordMatch, isCorrect.value, Entry(current.value))
      ensures current == old(current) && gameMode == old(gameMode) && gameStarted == old(gameStarted)
      ensures currentRound == old(currentRound) && gameOver == old(gameOver)
      ensures userInput == old(userInput) && showHint == old(showHint)
    {
      Answer(selectedWord == Entry(current.value).word);
    }

    /** `handleSpelling`, from the check button, enabled once the input is
        not blank. */
    method HandleSpelling()
      requires Valid() && gameStarted && !gameOver && gameMode == Spelling && isCorrect.None?
      requires Trim(userInput) != ""
      modifies this
      ensures Valid()
      ensures pendingNext
      ensures isCorrect == Some(SpellingCorrect(userInput, Entry(current.value)))
      ensures score == if SpellingCorrect(userInput, Entry(current.value)) then old(score) + 15 else old(score)
      ensures feedback == Feedback(Spelling, isCorrect.value, Entry(current.value))
      ensures current == old(current) && gameMode == old(gameMode) && gameStarted == old(gameStarted)
      ensures currentRound == old(currentRound) && gameOver == old(gameOver)
      ensures userInput == old(userInput) && showHint == old(showHint)
    {
      Answer(Trim(Lower(userInput)) == Lower(Entry(current.value).word));
    }

    /** `handleVocabulary(selectedCategory)`, from a category button. */
    method HandleVocabulary(selected: Category)
      requires Valid() && gameStarted && !gameOver && gameMode == Vocabulary && isCorrect.None?
      modifies this
      ensures Valid()
      ensures pendingNext
      ensures isCorrect == Some(VocabularyCorrect(selected, Entry(current.value)))
      ensures score == if VocabularyCorrect(selected, Entry(current.value)) then old(score) + 12 else old(score)
      ensures feedback == Feedback(Vocabulary, isCorrect.value, Entry(current.value))
      ensures current == old(current) && gameMode == old(gameMode) && gameStarted == old(gameStarted)
      ensures currentRound == old(currentRound) && gameOver == old(gameOver)
      ensures userInput == old(userInput) && showHint == old(showHint)
    {
      Answer(selected == Entry(current.value).category);
    }

    /** `nextRound`, run by the callback: before the last round the round
        advances, a word is drawn with `r` from the pool of the round just
        played, and feedback, verdict, input and hint are cleared; at the
        last round the game is over. */
    method NextRoundStep(r: nat)
      requires Valid() && pendingNext && r < |Pool(currentRound)|
      modifies this
      ensures Valid()
      ensures !pendingNext
      ensures old(currentRound) < Rounds - 1 ==>
        currentRound == old(currentRound) + 1 && current == Some(RandomWord(old(currentRound), r)) &&
        feedback == "" && isCorrect.None? && userInput == "" && !showHint && !gameOver
      ensures old(currentRound) >= Rounds - 1 ==>
        gameOver && currentRound == old(currentRound) && current == old(current) &&
        feedback == old(feedback) && isCorrect == old(isCorrect) &&
        userInput == old(userInput) && showHint == old(showHint)
      ensures score == old(score) && gameMode == old(gameMode) && gameStarted == old(gameStarted)
    {
      pendingNext := false;
      if currentRound < Rounds - 1 {
        var word := RandomWord(currentRound, r);
        PoolMembers(currentRound, word);
        currentRound := currentRound + 1;
        current := Some(word);
        feedback := "";
        isCorrect := None;
        userInput := "";
        showHint := false;
      } else {
        gameOver := true;
      }
    }
  }

  /** Every word of the first round's pool is an easy word. */
  lemma FirstPoolIsEasy(r: nat)
    requires r < |Pool(0)|
    ensures Entry(RandomWord(0, r)).level == Easy
  {
    PoolMembers(0, RandomWord(0, r));
  }

  /** The word a stale read can put in round 0: "dinosaur", a hard word,
      lies in the pool of round 14 but not in the pool of round 0. */
  lemma StalePoolAdmitsHardWord()
    ensures 14 < |Pool(Rounds - 1)| && Pool(Rounds - 1)[14] == Dinosaur
    ensures Entry(Dinosaur).level == Hard && Dinosaur !in Pool(0)
  {
    PoolMembers(0, Dinosaur);
    assert Pool(Rounds - 1) == Database();
  }

  /** "Read Again" after a finished game: the first word of the new game can
      be a hard word. */
  method ReplayAfterGameOver(s: ReadingSession)
    requires s.Valid() && s.gameOver
    modifies s
    ensures s.gameStarted && !s.gameOver && s.currentRound == 0
    ensures s.current == Some(Dinosaur) && Entry(s.current.value).level == Hard
  {
    StalePoolAdmitsHardWord();
    s.StartGame(14);
  }
}
