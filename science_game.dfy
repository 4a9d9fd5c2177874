/** The science quiz: a bank of eleven multiple-choice questions in five
    categories, a session of ten questions with one answer each, the
    explanation shown a second after an answer and the next question three
    seconds later, the category badges and the knowledge level awarded at
    the end. The random question draw is a parameter; the two callbacks an
    answer schedules are explicit steps. */
module ScienceGame {
  import opened Common

  datatype Category = AnimalsTopic | Plants | Space | Weather | HumanBody

  /** The category as the question bank spells it. */
  function CategoryName(c: Category): string
  {
    match c
    case AnimalsTopic => "animals"
    case Plants => "plants"
    case Space => "space"
    case Weather => "weather"
    case HumanBody => "human-body"
  }

  datatype ScienceQuestion = ScienceQuestion(
    question: string, options: seq<string>, correctAnswer: string, explanation: string, category: Category)

  /** The eleven questions of the bank, in its order. */
  datatype QuestionId =
    | Chameleon | Bees | Spider | PlantNeeds | PlantRoots | ClosestPlanet | NightLights
    | FrozenWater | SkyColour | Bones | BloodPump

  const QuestionCount: nat := 11

  function QuestionAt(k: nat): QuestionId
    requires k < QuestionCount
  {
    match k
    case 0 => Chameleon case 1 => Bees case 2 => Spider case 3 => PlantNeeds
    case 4 => PlantRoots case 5 => ClosestPlanet case 6 => NightLights case 7 => FrozenWater
    case 8 => SkyColour case 9 => Bones case 10 => BloodPump
  }

  /** The record of each question, assembled from the per-field tables
      below. */
  function Bank(q: QuestionId): ScienceQuestion
  {
    ScienceQuestion(QuestionText(q), Options(q), CorrectAnswer(q), Explanation(q), CategoryOf(q))
  }

  function QuestionText(q: QuestionId): string
  {
    match q
    case Chameleon => "Which animal can change its color to blend in with its surroundings?"
    case Bees => "What do bees make that we eat?"
    case Spider => "How many legs does a spider have?"
    case PlantNeeds => "What do plants need to grow?"
    case PlantRoots => "What part of the plant takes in water from the soil?"
    case ClosestPlanet => "What planet is closest to the Sun?"
    case NightLights => "What do we call the bright lights we see in the night sky?"
    case FrozenWater => "What do we call frozen water that falls from the sky?"
    case SkyColour => "What color is the sky on a sunny day?"
    case Bones => "How many bones do humans have?"
    case BloodPump => "What organ pumps blood through our body?"
  }

  function Options(q: QuestionId): seq<string>
  {
    match q
    case Chameleon => ["Lion", "Chameleon", "Elephant", "Giraffe"]
    case Bees => ["Milk", "Honey", "Cheese", "Bread"]
    case Spider => ["6", "8", "10", "12"]
    case PlantNeeds => ["Water, sunlight, and air", "Only water", "Only sunlight", "Only air"]
    case PlantRoots => ["Leaves", "Flowers", "Roots", "Stem"]
    case ClosestPlanet => ["Earth", "Mars", "Mercury", "Venus"]
    case NightLights => ["Stars", "Planets", "Moons", "Comets"]
    case FrozenWater => ["Rain", "Snow", "Hail", "Fog"]
    case SkyColour => ["Red", "Blue", "Green", "Yellow"]
    case Bones => ["100", "206", "300", "500"]
    case BloodPump => ["Brain", "Heart", "Lungs", "Liver"]
  }

  function CorrectAnswer(q: QuestionId): string
  {
    match q
    case Chameleon => "Chameleon"
    case Bees => "Honey"
    case Spider => "8"
    case PlantNeeds => "Water, sunlight, and air"
    case PlantRoots => "Roots"
    case ClosestPlanet => "Mercury"
    case NightLights => "Stars"
    case FrozenWater => "Snow"
    case SkyColour => "Blue"
    case Bones => "206"
    case BloodPump => "Heart"
  }

  function Explanation(q: QuestionId): string
  {
    match q
    case Chameleon => "Chameleons are amazing reptiles that can change their skin color to match their environment!"
    case Bees => "Bees collect nectar from flowers and turn it into delicious honey!"
    case Spider => "Spiders have 8 legs, which makes them different from insects that have 6 legs!"
    case PlantNeeds => "Plants need water, sunlight, and air (carbon dioxide) to make their own food through photosynthesis!"
    case PlantRoots => "Roots are like straws that suck up water and nutrients from the soil!"
    case ClosestPlanet => "Mercury is the first planet from the Sun and the smallest planet in our solar system!"
    case NightLights => "Stars are giant balls of hot gas that give off light, just like our Sun!"
    case FrozenWater => "Snow is made of tiny ice crystals that form when water vapor freezes in the clouds!"
    case SkyColour => "The sky looks blue because of how sunlight scatters in our atmosphere!"
    case Bones => "Adults have 206 bones that make up our skeleton and help us move!"
    case BloodPump => "The heart is a muscle that pumps blood to deliver oxygen and nutrients throughout our body!"
  }

  function CategoryOf(q: QuestionId): Category
  {
    match q
    case Chameleon => AnimalsTopic case Bees => AnimalsTopic case Spider => AnimalsTopic
    case PlantNeeds => Plants case PlantRoots => Plants
    case ClosestPlanet => Space case NightLights => Space
    case FrozenWater => Weather case SkyColour => Weather
    case Bones => HumanBody case BloodPump => HumanBody
  }

  /** The position of the right option among the four. */
  function CorrectIndex(q: QuestionId): nat
  {
    match q
    case Chameleon => 1 case Bees => 1 case Spider => 1 case PlantNeeds => 0
    case PlantRoots => 2 case ClosestPlanet => 2 case NightLights => 0 case FrozenWater => 1
    case SkyColour => 1 case Bones => 1 case BloodPump => 1
  }

  /** Four options, the right answer at exactly one of them. */
  predicate WellFormed(options: seq<string>, answer: string, correct: nat)
  {
    |options| == 4 && correct < 4 && options[correct] == answer &&
    forall i :: 0 <= i < 4 && i != correct ==> options[i] != answer
  }

  /** Every question in the bank offers four options of which exactly one is
      its right answer, so every question can be answered correctly and
      only in one way. */
  lemma BankWellFormed(q: QuestionId)
    ensures WellFormed(Options(q), CorrectAnswer(q), CorrectIndex(q))
    ensures CorrectAnswer(q) in Options(q)
  {
    match q
    case Chameleon => AnimalQuestionsWellFormed();
    case Bees => AnimalQuestionsWellFormed();
    case Spider => AnimalQuestionsWellFormed();
    case PlantNeeds => PlantQuestionsWellFormed();
    case PlantRoots => PlantQuestionsWellFormed();
    case ClosestPlanet => SpaceQuestionsWellFormed();
    case NightLights => SpaceQuestionsWellFormed();
    case FrozenWater => WeatherQuestionsWellFormed();
    case SkyColour => WeatherQuestionsWellFormed();
    case Bones => BodyQuestionsWellFormed();
    case BloodPump => BodyQuestionsWellFormed();
  }

  lemma AnimalQuestionsWellFormed()
    ensures WellFormed(Options(Chameleon), CorrectAnswer(Chameleon), 1)
    ensures WellFormed(Options(Bees), CorrectAnswer(Bees), 1)
    ensures WellFormed(Options(Spider), CorrectAnswer(Spider), 1)
  {
  }

  lemma PlantQuestionsWellFormed()
    ensures WellFormed(Options(PlantNeeds), CorrectAnswer(PlantNeeds), 0)
    ensures WellFormed(Options(PlantRoots), CorrectAnswer(PlantRoots), 2)
  {
  }

  lemma SpaceQuestionsWellFormed()
    ensures WellFormed(Options(ClosestPlanet), CorrectAnswer(ClosestPlanet), 2)
    ensures WellFormed(Options(NightLights), CorrectAnswer(NightLights), 0)
  {
  }

  lemma WeatherQuestionsWellFormed()
    ensures WellFormed(Options(FrozenWater), CorrectAnswer(FrozenWater), 1)
    ensures WellFormed(Options(SkyColour), CorrectAnswer(SkyColour), 1)
  {
  }

  lemma BodyQuestionsWellFormed()
    ensures WellFormed(Options(Bones), CorrectAnswer(Bones), 1)
    ensures WellFormed(Options(BloodPump), CorrectAnswer(BloodPump), 1)
  {
  }

  /** `getRandomQuestion`: `r` is the draw `Math.floor(Math.random() * 11)`. */
  function RandomQuestion(r: nat): QuestionId
    requires r < QuestionCount
  {
    QuestionAt(r)
  }

  /** Every question can be drawn. */
  lemma EveryQuestionDrawable(q: QuestionId)
    ensures exists r :: 0 <= r < QuestionCount && RandomQuestion(r) == q
  {
    var r := match q
      case Chameleon => 0 case Bees => 1 case Spider => 2 case PlantNeeds => 3
      case PlantRoots => 4 case ClosestPlanet => 5 case NightLights => 6 case FrozenWater => 7
      case SkyColour => 8 case Bones => 9 case BloodPump => 10;
    assert RandomQuestion(r) == q;
  }

  // ---------------------------------------------------------------------
  // Badges and levels
  // ---------------------------------------------------------------------

  const Microscope: string := "\U{1F52C}"

  /** `getCategoryEmoji(category)`, with the microscope for any other text. */
  function CategoryEmoji(category: string): string
  {
    match category
    case "animals" => "\U{1F43E}"
    case "plants" => "\U{1F331}"
    case "space" => "\U{1F680}"
    case "weather" => "\U{1F324}\U{FE0F}"
    case "human-body" => "\U{1F464}"
    case _ => Microscope
  }

  /** Each of the five categories has its own badge, none of them the
      microscope; any other text, such as the empty string shown while no
      question is loaded, gets the microscope. */
  lemma CategoryEmojiDistinguishes(c: Category, d: Category, other: string)
    requires forall e: Category :: other != CategoryName(e)
    ensures CategoryEmoji(CategoryName(c)) != Microscope
    ensures CategoryEmoji(CategoryName(c)) == CategoryEmoji(CategoryName(d)) <==> c == d
    ensures CategoryEmoji(other) == Microscope
  {
    assert other != "animals" && other != "plants" && other != "space" by {
      assert other != CategoryName(AnimalsTopic) && other != CategoryName(Plants);
      assert other != CategoryName(Space);
    }
    assert other != "weather" && other != "human-body" by {
      assert other != CategoryName(Weather) && other != CategoryName(HumanBody);
    }
  }

  datatype KnowledgeLevel = Beginner | Intermediate | Advanced | Expert

  /** The level shown on the final screen. */
  function LevelFor(score: int): KnowledgeLevel
  {
    if score >= 80 then Expert
    else if score >= 60 then Advanced
    else if score >= 40 then Intermediate
    else Beginner
  }

  function LevelRank(l: KnowledgeLevel): nat
  {
    match l
    case Beginner => 0
    case Intermediate => 1
    case Advanced => 2
    case Expert => 3
  }

  /** A higher score never earns a lower level. */
  lemma LevelMonotone(a: int, b: int)
    requires a <= b
    ensures LevelRank(LevelFor(a)) <= LevelRank(LevelFor(b))
  {
  }

  /** With 10 points per right answer, the level counts right answers:
      Expert from 8, Advanced from 6, Intermediate from 4. */
  lemma LevelCountsRightAnswers(rightAnswers: nat)
    ensures LevelFor(10 * rightAnswers) ==
      if rightAnswers >= 8 then Expert
      else if rightAnswers >= 6 then Advanced
      else if rightAnswers >= 4 then Intermediate
      else Beginner
  {
  }

  // ---------------------------------------------------------------------
  // The session
  // ---------------------------------------------------------------------

  const QuestionsPerGame: nat := 10

  /** The component's state. An answer schedules two callbacks: after 1000 ms
      `explainDue` shows the explanation, after 4000 ms `advanceDue`, which
      holds the question count it read, moves on. */
  class ScienceSession {
    var score: int
    var current: Option<ScienceQuestion>
    var selectedAnswer: Option<string>
    var isCorrect: Option<bool>
    var questionCount: nat
    var gameStarted: bool
    var gameOver: bool
    var showExplanation: bool
    var explainDue: bool
    var advanceDue: Option<nat>

    /** The question on show offers its right answer among four options; at most ten questions and
        ten points per question; an answer is recorded with its verdict on
        the current question; the explanation is shown exactly when the
        1000 ms callback of an answer has run, and the 4000 ms callback is
        pending from the answer until it runs; the game ends at the last
        question once both have run. */
    ghost predicate Valid()
      reads this
    {
      (current.Some? ==> |current.value.options| == 4 && current.value.correctAnswer in current.value.options) &&
      (gameStarted ==> current.Some?) &&
      (!gameStarted ==> score == 0 && questionCount == 0 && current.None? && selectedAnswer.None? &&
                        !gameOver && !showExplanation && !explainDue && advanceDue.None?) &&
      questionCount < QuestionsPerGame &&
      score >= 0 && score % 10 == 0 &&
      score <= 10 * (questionCount + if selectedAnswer.Some? then 1 else 0) &&
      (isCorrect.Some? <==> selectedAnswer.Some?) &&
      (selectedAnswer.Some? ==> current.Some? &&
                                isCorrect == Some(selectedAnswer.value == current.value.correctAnswer)) &&
      (selectedAnswer.Some? ==> advanceDue.Some? || gameOver) &&
      (selectedAnswer.Some? ==> (showExplanation <==> !explainDue)) &&
      (selectedAnswer.None? ==> !showExplanation && !explainDue) &&
      (explainDue ==> advanceDue.Some?) &&
      (advanceDue.Some? ==> selectedAnswer.Some? && advanceDue.value == questionCount && !gameOver) &&
      (gameOver ==> questionCount == QuestionsPerGame - 1 && selectedAnswer.Some? && showExplanation)
    }

    /** The state when the component mounts. */
    constructor ()
      ensures Valid()
      ensures score == 0 && current.None? && selectedAnswer.None? && isCorrect.None?
      ensures questionCount == 0 && !gameStarted && !gameOver && !showExplanation
      ensures !explainDue && advanceDue.None?
    {
      score := 0;
      current := None;
      selectedAnswer := None;
      isCorrect := None;
      questionCount := 0;
      gameStarted := false;
      gameOver := false;
      showExplanation := false;
      explainDue := false;
      advanceDue := None;
    }

    /** `startGame`, from the start screen or "Play Again": everything is
        reset and question `RandomQuestion(r)` is posed. */
    method StartGame(r: nat)
      requires Valid() && (!gameStarted || gameOver) && r < QuestionCount
      modifies this
      ensures current == Some(Bank(RandomQuestion(r)))
      ensures Valid()
      ensures gameStarted && !gameOver && score == 0 && questionCount == 0
      ensures selectedAnswer.None? && isCorrect.None?
      ensures !showExplanation && !explainDue && advanceDue.None?
    {
      gameStarted := true;
      score := 0;
      questionCount := 0;
      gameOver := false;
      BankWellFormed(RandomQuestion(r));
      current := Some(Bank(RandomQuestion(r)));
      selectedAnswer := None;
      isCorrect := None;
      showExplanation := false;
    }

    /** `handleAnswerSelect(selected)`, from an option button: the first
        answer is recorded with its verdict, scores 10 exactly when it is the
        right answer, and schedules both callbacks; a later one is ignored. */
    method SelectAnswer(selected: string)
      requires Valid() && gameStarted && !gameOver && selected in current.value.options
      modifies this
      ensures Valid()
      ensures old(selectedAnswer).Some? ==>
        score == old(score) && selectedAnswer == old(selectedAnswer) && isCorrect == old(isCorrect) &&
        explainDue == old(explainDue) && advanceDue == old(advanceDue)
      ensures old(selectedAnswer).None? ==>
        selectedAnswer == Some(selected) &&
        isCorrect == Some(selected == current.value.correctAnswer) &&
        score == (if selected == current.value.correctAnswer then old(score) + 10 else old(score)) &&
        explainDue && advanceDue == Some(questionCount)
      ensures current == old(current) && questionCount == old(questionCount)
      ensures gameStarted == old(gameStarted) && gameOver == old(gameOver)
      ensures showExplanation == old(showExplanation)
    {
      if selectedAnswer.Some? {
        return;
      }
      selectedAnswer := Some(selected);
      var correct := selected == current.value.correctAnswer;
      isCorrect := Some(correct);
      if correct {
        score := score + 10;
      }
      explainDue := true;
      advanceDue := Some(questionCount);
    }

    /** The 1000 ms callback: the explanation is shown. */
    method ExplainStep()
      requires Valid() && explainDue
      modifies this
      ensures showExplanation && !explainDue
      ensures score == old(score) && current == old(current) && selectedAnswer == old(selectedAnswer)
      ensures isCorrect == old(isCorrect) && questionCount == old(questionCount)
      ensures gameStarted == old(gameStarted) && gameOver == old(gameOver) && advanceDue == old(advanceDue)
      ensures Valid()
    {
      showExplanation := true;
      explainDue := false;
    }

    /** The 4000 ms callback, which runs after the 1000 ms one: with the count
        it read below 9, `nextQuestion` poses question `RandomQuestion(r)`
        and clears the answer, verdict and explanation; otherwise the game is
        over. */
    method AdvanceStep(r: nat)
      requires Valid() && advanceDue.Some? && !explainDue && r < QuestionCount
      modifies this
      ensures Valid()
      ensures advanceDue.None? && !explainDue
      ensures var c := old(advanceDue.value);
        if c < QuestionsPerGame - 1 then
          questionCount == c + 1 && current == Some(Bank(RandomQuestion(r))) && selectedAnswer.None? &&
          isCorrect.None? && !showExplanation && !gameOver
        else
          gameOver && questionCount == old(questionCount) && current == old(current) &&
          selectedAnswer == old(selectedAnswer) && isCorrect == old(isCorrect) &&
          showExplanation == old(showExplanation)
      ensures score == old(score) && gameStarted == old(gameStarted)
    {
      var c := advanceDue.value;
      advanceDue := None;
      if c < QuestionsPerGame - 1 {
        questionCount := c + 1;
        BankWellFormed(RandomQuestion(r));
        current := Some(Bank(RandomQuestion(r)));
        selectedAnswer := None;
        isCorrect := None;
        showExplanation := false;
      } else {
        gameOver := true;
      }
    }
  }

  /** Every reachable state has a score of at most 100 in steps of 10, so the
      final level is earned by right answers alone. */
  lemma ScoreBounded(s: ScienceSession)
    requires s.Valid()
    ensures 0 <= s.score <= 10 * QuestionsPerGame && s.score % 10 == 0
  {
  }

  /** A player who answers each of the ten questions right, letting both
      callbacks run each time, ends the game with 100 points at the Expert
      level; `draws` are the question draws of `nextQuestion`. */
  method PlayAllCorrect(s: ScienceSession, draws: seq<nat>)
    requires s.Valid() && s.gameStarted && !s.gameOver && s.selectedAnswer.None?
    requires s.questionCount == 0 && s.score == 0
    requires |draws| == QuestionsPerGame && forall i :: 0 <= i < |draws| ==> draws[i] < QuestionCount
    modifies s
    ensures s.Valid() && s.gameOver && s.score == 100 && LevelFor(s.score) == Expert
  {
    var i := 0;
    while i < QuestionsPerGame
      invariant 0 <= i <= QuestionsPerGame
      invariant s.Valid() && s.gameStarted
      invariant i < QuestionsPerGame ==>
        !s.gameOver && s.selectedAnswer.None? && s.questionCount == i && s.score == 10 * i
      invariant i == QuestionsPerGame ==> s.gameOver && s.score == 100
      decreases QuestionsPerGame - i
    {
      s.SelectAnswer(s.current.value.correctAnswer);
      s.ExplainStep();
      s.AdvanceStep(draws[i]);
      i := i + 1;
    }
  }
}
