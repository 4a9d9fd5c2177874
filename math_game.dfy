/** The addition quiz: a problem generator whose operands depend on the
    difficulty, a loop that fills in three distinct wrong options near the
    answer, and a session of at most ten problems against a 30-second
    clock. `Math.random` draws are parameters; the 1500 ms callback after an
    answer and the one-second countdown are explicit steps. */
module MathGame {
  import opened Common

  /** Operands are drawn from `[1, OperandMax(d)]`. */
  function OperandMax(d: Difficulty): nat
  {
    match d
    case Easy => 10
    case Medium => 20
    case Hard => 50
  }

  /** The levels are ordered by how large the operands may get. */
  lemma HarderLevelsLargerOperands(a: Difficulty, b: Difficulty)
    ensures OperandMax(Easy) == 10
    ensures (a == Easy && b != Easy) || (a == Medium && b == Hard) ==> OperandMax(a) < OperandMax(b)
  {
  }

  // ---------------------------------------------------------------------
  // The question text
  // ---------------------------------------------------------------------

  /** The question shown for two operands: `${num1} + ${num2} = ?`. */
  function Question(num1: nat, num2: nat): string
  {
    Decimal(num1) + " + " + Decimal(num2) + " = ?"
  }

  /** A run of digits followed by a space. */
  lemma DigitsEndAt(q: string, d: string)
    requires forall k :: 0 <= k < |d| ==> IsDigit(d[k])
    requires |d| < |q| && q[..|d|] == d && q[|d|] == ' '
    ensures forall j :: 0 <= j < |d| ==> IsDigit(q[j])
    ensures !IsDigit(q[|d|])
  {
    forall j | 0 <= j < |d|
      ensures IsDigit(q[j])
    {
      assert q[j] == q[..|d|][j];
    }
  }

  /** The question text determines the operands. */
  lemma QuestionInjective(a1: nat, a2: nat, b1: nat, b2: nat)
    requires Question(a1, a2) == Question(b1, b2)
    ensures a1 == b1 && a2 == b2
  {
    var qa, qb := Question(a1, a2), Question(b1, b2);
    var da, db := Decimal(a1), Decimal(b1);
    // The first operand ends where its digits do.
    DigitsEndAt(qa, da);
    DigitsEndAt(qb, db);
    assert |da| == |db|;
    assert da == qa[..|da|] && db == qb[..|db|];
    DecimalRoundTrip(a1);
    DecimalRoundTrip(b1);
    var ea, eb := Decimal(a2), Decimal(b2);
    assert |ea| == |eb| by {
      assert |qa| == |da| + 3 + |ea| + 4 && |qb| == |db| + 3 + |eb| + 4;
    }
    assert ea == qa[|da| + 3..|da| + 3 + |ea|] && eb == qb[|db| + 3..|db| + 3 + |eb|];
    DecimalRoundTrip(a2);
    DecimalRoundTrip(b2);
  }

  // ---------------------------------------------------------------------
  // The options loop
  // ---------------------------------------------------------------------

  /** The wrong answer a draw `Math.floor(Math.random() * 10)` proposes. */
  function Candidate(answer: int, draw: int): int
  {
    answer + draw - 5
  }

  /** One pass of the loop: the candidate is pushed when it differs from the
      answer, is positive and is not already an option. */
  function Offer(answer: int, options: seq<int>, draw: int): seq<int>
  {
    var w := Candidate(answer, draw);
    if w != answer && w > 0 && w !in options then options + [w] else options
  }

  /** The loop run on a stream of draws until four options are found or the
      draws run out. */
  function OptionsFrom(answer: int, options: seq<int>, draws: seq<int>): seq<int>
    decreases |draws|
  {
    if |options| >= 4 || draws == [] then options
    else OptionsFrom(answer, Offer(answer, options, draws[0]), draws[1..])
  }

  predicate IsDraw(draw: int)
  {
    0 <= draw < 10
  }

  predicate Distinct(s: seq<int>)
  {
    forall i, j :: 0 <= i < j < |s| ==> s[i] != s[j]
  }

  /** What the loop keeps true of `options`: the answer first, at most four
      entries, no repeats, every wrong option positive and within
      `[answer - 5, answer + 4]`. */
  predicate OptionsOk(answer: int, options: seq<int>)
  {
    1 <= |options| <= 4 && options[0] == answer && Distinct(options) &&
    forall i :: 1 <= i < |options| ==> 0 < options[i] && answer - 5 <= options[i] <= answer + 4
  }

  /** `generateProblem`'s `while` loop over the draws it consumes. */
  method GenerateOptions(answer: int, draws: seq<int>) returns (options: seq<int>, used: nat)
    requires forall k :: 0 <= k < |draws| ==> IsDraw(draws[k])
    ensures options == OptionsFrom(answer, [answer], draws)
    ensures OptionsOk(answer, options)
    ensures used <= |draws| && (|options| < 4 ==> used == |draws|)
  {
    options := [answer];
    used := 0;
    while |options| < 4 && used < |draws|
      invariant used <= |draws|
      invariant OptionsOk(answer, options)
      invariant OptionsFrom(answer, options, draws[used..]) == OptionsFrom(answer, [answer], draws)
    {
      var wrongAnswer := answer + draws[used] - 5;
      assert draws[used..][1..] == draws[used + 1..];
      if wrongAnswer != answer && wrongAnswer > 0 && wrongAnswer !in options {
        options := options + [wrongAnswer];
      }
      used := used + 1;
    }
  }

  /** A draw keeps the options well formed. */
  lemma OfferOk(answer: int, options: seq<int>, draw: int)
    requires OptionsOk(answer, options) && |options| < 4 && IsDraw(draw)
    ensures OptionsOk(answer, Offer(answer, options, draw))
    ensures options <= Offer(answer, options, draw)
  {
  }

  /** The loop keeps its options well formed, only ever appends, and when it
      stops short of four options every admissible candidate it saw is among
      them. */
  lemma {:induction false} OptionsFromOk(answer: int, options: seq<int>, draws: seq<int>)
    requires OptionsOk(answer, options)
    requires forall k :: 0 <= k < |draws| ==> IsDraw(draws[k])
    ensures var r := OptionsFrom(answer, options, draws);
      OptionsOk(answer, r) && options <= r &&
      (|r| < 4 ==> forall k :: (0 <= k < |draws| && Candidate(answer, draws[k]) != answer &&
                                Candidate(answer, draws[k]) > 0) ==> Candidate(answer, draws[k]) in r)
    decreases |draws|
  {
    if |options| < 4 && draws != [] {
      var next := Offer(answer, options, draws[0]);
      OfferOk(answer, options, draws[0]);
      OptionsFromOk(answer, next, draws[1..]);
      var r := OptionsFrom(answer, options, draws);
      if |r| < 4 {
        forall k | 0 <= k < |draws| && Candidate(answer, draws[k]) != answer && Candidate(answer, draws[k]) > 0
          ensures Candidate(answer, draws[k]) in r
        {
          if k == 0 {
            assert Candidate(answer, draws[0]) in next;
            assert next <= r;
          } else {
            assert draws[k] == draws[1..][k - 1];
          }
        }
      }
    }
  }

  /** The set of a list has no more elements than the list. */
  lemma {:induction false} SetOfSeqSize(s: seq<int>)
    ensures |set x | x in s| <= |s|
  {
    if s != [] {
      var n := |s| - 1;
      SetOfSeqSize(s[..n]);
      assert (set x | x in s) == (set x | x in s[..n]) + {s[n]};
    }
  }

  /** A list holding four distinct values has at least four entries. */
  lemma FourValuesNeedFourEntries(s: seq<int>, a: int, b: int, c: int, d: int)
    requires a in s && b in s && c in s && d in s
    requires a != b && a != c && a != d && b != c && b != d && c != d
    ensures |s| >= 4
  {
    var four := {a, b, c, d};
    var all := set x | x in s;
    assert |four| == 4;
    assert all == four + (all - four);
    assert |all| == |four| + |all - four|;
    SetOfSeqSize(s);
  }

  /** The loop can always make progress: since `answer >= 2`, one of
      `answer - 1`, `answer + 1`, `answer + 2` (draws 4, 6 and 7) is still
      missing from fewer than four options. */
  lemma AdmissibleExists(answer: int, options: seq<int>)
    requires answer >= 2 && OptionsOk(answer, options) && |options| < 4
    ensures exists draw :: IsDraw(draw) && |Offer(answer, options, draw)| == |options| + 1
  {
    if answer - 1 !in options {
      assert |Offer(answer, options, 4)| == |options| + 1;
    } else if answer + 1 !in options {
      assert |Offer(answer, options, 6)| == |options| + 1;
    } else if answer + 2 !in options {
      assert |Offer(answer, options, 7)| == |options| + 1;
    } else {
      FourValuesNeedFourEntries(options, answer, answer - 1, answer + 1, answer + 2);
      assert false;
    }
  }

  /** Once the draws 4, 6 and 7 have all come up, the loop has four options. */
  lemma OptionsComplete(answer: int, draws: seq<int>)
    requires answer >= 2
    requires forall k :: 0 <= k < |draws| ==> IsDraw(draws[k])
    requires 4 in draws && 6 in draws && 7 in draws
    ensures |OptionsFrom(answer, [answer], draws)| == 4
  {
    OptionsFromOk(answer, [answer], draws);
  }

  // ---------------------------------------------------------------------
  // Problems
  // ---------------------------------------------------------------------

  datatype Problem = Problem(num1: nat, num2: nat, question: string, answer: int, options: seq<int>)

  /** A problem `generateProblem` can return at level `d`. */
  predicate ProblemOk(p: Problem, d: Difficulty)
  {
    1 <= p.num1 <= OperandMax(d) && 1 <= p.num2 <= OperandMax(d) &&
    p.answer == p.num1 + p.num2 && p.question == Question(p.num1, p.num2) &&
    |p.options| == 4 && p.answer in p.options && Distinct(p.options) &&
    forall i :: 0 <= i < 4 && p.options[i] != p.answer ==>
      0 < p.options[i] && p.answer - 5 <= p.options[i] <= p.answer + 4
  }

  /** `perm` lists the indices `0 .. n-1`, each once: the order in which the
      random comparator of `options.sort` leaves the options. */
  predicate IsPermutation(perm: seq<nat>, n: nat)
  {
    |perm| == n && (forall i :: 0 <= i < n ==> perm[i] < n) &&
    (forall i, j :: 0 <= i < j < n ==> perm[i] != perm[j]) &&
    (forall v :: 0 <= v < n ==> v in perm)
  }

  /** `generateProblem`: `r1` and `r2` are the operand draws
      `Math.floor(Math.random() * max)`, `draws` the draws the options loop
      consumes and `perm` the shuffle. The result is `None` when the draws
      run out before four options are found (the source would keep
      drawing). */
  method GenerateProblem(d: Difficulty, r1: nat, r2: nat, draws: seq<int>, perm: seq<nat>)
    returns (p: Option<Problem>)
    requires r1 < OperandMax(d) && r2 < OperandMax(d)
    requires forall k :: 0 <= k < |draws| ==> IsDraw(draws[k])
    requires IsPermutation(perm, 4)
    ensures p.Some? <==> |OptionsFrom(r1 + r2 + 2, [r1 + r2 + 2], draws)| == 4
    ensures p.Some? ==> ProblemOk(p.value, d) && p.value.num1 == r1 + 1 && p.value.num2 == r2 + 1
    ensures p.Some? ==> forall i :: 0 <= i < 4 ==>
      p.value.options[i] == OptionsFrom(r1 + r2 + 2, [r1 + r2 + 2], draws)[perm[i]]
  {
    var num1, num2 := r1 + 1, r2 + 1;
    var answer := num1 + num2;
    var question := Question(num1, num2);
    var options, used := GenerateOptions(answer, draws);
    if |options| < 4 {
      return None;
    }
    var shuffled := seq(4, i requires 0 <= i < 4 => options[perm[i]]);
    assert answer in shuffled by {
      assert 0 in perm;
      var j :| 0 <= j < 4 && perm[j] == 0;
      assert shuffled[j] == answer;
    }
    p := Some(Problem(num1, num2, question, answer, shuffled));
  }

  /** Every level can generate a problem: there are operand draws, and the
      draws 4, 6 and 7 complete the options. */
  lemma GenerateProblemFeasible(d: Difficulty, r1: nat, r2: nat)
    requires r1 < OperandMax(d) && r2 < OperandMax(d)
    ensures |OptionsFrom(r1 + r2 + 2, [r1 + r2 + 2], [4, 6, 7])| == 4
  {
    OptionsComplete(r1 + r2 + 2, [4, 6, 7]);
  }

  // ---------------------------------------------------------------------
  // The session
  // ---------------------------------------------------------------------

  /** The number of problems in a game, and the clock in seconds. */
  const ProblemsPerGame: nat := 10
  const GameSeconds: nat := 30

  /** The component's state. `pendingAdvance` is the 1500 ms callback an
      answer schedules, holding the problem count it read when it was
      scheduled. */
  class MathSession {
    var score: int
    var current: Option<Problem>
    var selectedAnswer: Option<int>
    var isCorrect: Option<bool>
    var problemCount: nat
    var difficulty: Difficulty
    var gameStarted: bool
    var timeLeft: int
    var gameOver: bool
    var pendingAdvance: Option<nat>

    /** At most ten problems are posed and at most 10 points are scored per
        problem; an answer and its verdict are recorded together; at most
        one advance is pending, and only while an answer is recorded. */
    ghost predicate Valid()
      reads this
    {
      (current.Some? ==> ProblemOk(current.value, difficulty)) &&
      (gameStarted ==> current.Some?) &&
      (!gameStarted ==> score == 0 && problemCount == 0 && current.None? && selectedAnswer.None? &&
                        pendingAdvance.None? && !gameOver && timeLeft == GameSeconds) &&
      problemCount < ProblemsPerGame &&
      0 <= timeLeft <= GameSeconds &&
      (gameStarted && timeLeft == 0 ==> gameOver) &&
      score >= 0 && score % 10 == 0 &&
      score <= 10 * (problemCount + 1) &&
      (selectedAnswer.None? ==> score <= 10 * problemCount) &&
      (isCorrect.Some? <==> selectedAnswer.Some?) &&
      (pendingAdvance.Some? ==> selectedAnswer.Some? && pendingAdvance.value < ProblemsPerGame &&
                                score <= 10 * (pendingAdvance.value + 1))
    }

    /** The state when the component mounts. */
    constructor ()
      ensures Valid()
      ensures score == 0 && current.None? && selectedAnswer.None? && isCorrect.None?
      ensures problemCount == 0 && difficulty == Easy && !gameStarted
      ensures timeLeft == GameSeconds && !gameOver && pendingAdvance.None?
    {
      score := 0;
      current := None;
      selectedAnswer := None;
      isCorrect := None;
      problemCount := 0;
      difficulty := Easy;
      gameStarted := false;
      timeLeft := GameSeconds;
      gameOver := false;
      pendingAdvance := None;
    }

    /** The difficulty buttons, shown only before the first game. */
    method SetDifficulty(d: Difficulty)
      requires Valid() && !gameStarted
      modifies this
      ensures Valid() && difficulty == d
      ensures score == old(score) && current == old(current) && selectedAnswer == old(selectedAnswer)
      ensures isCorrect == old(isCorrect) && problemCount == old(problemCount)
      ensures gameStarted == old(gameStarted) && timeLeft == old(timeLeft)
      ensures gameOver == old(gameOver) && pendingAdvance == old(pendingAdvance)
    {
      difficulty := d;
    }

    /** `startGame`, from the start screen or "Play Again": score, count,
        clock and game-over flag are reset and `p` is posed. The recorded
        answer and verdict are left as they were. */
    method StartGame(p: Problem)
      requires Valid() && (!gameStarted || gameOver) && ProblemOk(p, difficulty)
      modifies this
      ensures Valid() && gameStarted && !gameOver
      ensures score == 0 && problemCount == 0 && timeLeft == GameSeconds && current == Some(p)
      ensures selectedAnswer == old(selectedAnswer) && isCorrect == old(isCorrect)
      ensures difficulty == old(difficulty) && pendingAdvance == old(pendingAdvance)
    {
      gameStarted := true;
      score := 0;
      problemCount := 0;
      timeLeft := GameSeconds;
      gameOver := false;
      current := Some(p);
    }

    /** `startGame` as evidently intended: the previous answer and its verdict
        are cleared too, and no stale advance survives. */
    method StartGameClearingAnswer(p: Problem)
      requires Valid() && (!gameStarted || gameOver) && ProblemOk(p, difficulty)
      modifies this
      ensures Valid() && gameStarted && !gameOver
      ensures score == 0 && problemCount == 0 && timeLeft == GameSeconds && current == Some(p)
      ensures selectedAnswer.None? && isCorrect.None? && pendingAdvance.None?
      ensures difficulty == old(difficulty)
    {
      gameStarted := true;
      score := 0;
      problemCount := 0;
      timeLeft := GameSeconds;
      gameOver := false;
      current := Some(p);
      selectedAnswer := None;
      isCorrect := None;
      pendingAdvance := None;
    }

    /** `handleAnswerSelect(selected)`, from one of the option buttons: the
        first answer to a problem is recorded with its verdict, scores 10
        exactly when it is the answer, and schedules the advance; a later
        one is ignored. */
    method SelectAnswer(selected: int)
      requires Valid() && gameStarted && !gameOver && selected in current.value.options
      modifies this
      ensures Valid()
      ensures old(selectedAnswer).Some? ==>
        score == old(score) && selectedAnswer == old(selectedAnswer) &&
        isCorrect == old(isCorrect) && pendingAdvance == old(pendingAdvance)
      ensures old(selectedAnswer).None? ==>
        selectedAnswer == Some(selected) &&
        isCorrect == Some(selected == current.value.answer) &&
        score == (if selected == current.value.answer then old(score) + 10 else old(score)) &&
        pendingAdvance == Some(problemCount)
      ensures current == old(current) && problemCount == old(problemCount) && timeLeft == old(timeLeft)
      ensures gameStarted == old(gameStarted) && gameOver == old(gameOver) && difficulty == old(difficulty)
    {
      if selectedAnswer.Some? {
        return;
      }
      selectedAnswer := Some(selected);
      var correct := selected == current.value.answer;
      isCorrect := Some(correct);
      if correct {
        score := score + 10;
      }
      pendingAdvance := Some(problemCount);
    }

    /** The 1500 ms callback: with the count it read below 9, the next
        problem `p` is posed and the answer cleared; otherwise the game is
        over. */
    method AdvanceStep(p: Problem)
      requires Valid() && pendingAdvance.Some? && ProblemOk(p, difficulty)
      modifies this
      ensures Valid() && pendingAdvance.None?
      ensures var c := old(pendingAdvance.value);
        if c < ProblemsPerGame - 1 then
          problemCount == c + 1 && current == Some(p) && selectedAnswer.None? && isCorrect.None? &&
          gameOver == old(gameOver)
        else
          gameOver && problemCount == old(problemCount) && current == old(current) &&
          selectedAnswer == old(selectedAnswer) && isCorrect == old(isCorrect)
      ensures score == old(score) && timeLeft == old(timeLeft)
      ensures gameStarted == old(gameStarted) && difficulty == old(difficulty)
    {
      var c := pendingAdvance.value;
      pendingAdvance := None;
      if c < ProblemsPerGame - 1 {
        problemCount := c + 1;
        current := Some(p);
        selectedAnswer := None;
        isCorrect := None;
      } else {
        gameOver := true;
      }
    }

    /** One second of the countdown effect; reaching 0 ends the game. */
    method Tick()
      requires Valid() && gameStarted && !gameOver && timeLeft > 0
      modifies this
      ensures Valid()
      ensures timeLeft == old(timeLeft) - 1 && gameOver == (timeLeft == 0)
      ensures score == old(score) && current == old(current) && selectedAnswer == old(selectedAnswer)
      ensures isCorrect == old(isCorrect) && problemCount == old(problemCount)
      ensures gameStarted == old(gameStarted) && difficulty == old(difficulty)
      ensures pendingAdvance == old(pendingAdvance)
    {
      timeLeft := timeLeft - 1;
      if timeLeft == 0 {
        gameOver := true;
      }
    }
  }

  /** "Play Again" after the tenth problem: the last answer is still
      recorded, so the answer buttons of the new game are disabled and the
      correct answer to its first problem scores nothing. */
  method ReplayAfterFullGame(s: MathSession, last: Problem, p: Problem)
    requires s.Valid() && s.gameStarted && !s.gameOver && s.problemCount == ProblemsPerGame - 1
    requires s.selectedAnswer.None? && last == s.current.value
    requires ProblemOk(p, s.difficulty)
    modifies s
    ensures s.gameStarted && !s.gameOver && s.current == Some(p)
    ensures s.score == 0
  {
    s.SelectAnswer(last.answer);
    s.AdvanceStep(last);
    assert s.gameOver && s.selectedAnswer.Some?;
    s.StartGame(p);
    s.SelectAnswer(p.answer);
  }

  /** The same sequence with the corrected start: the correct answer to the
      new game's first problem scores 10. */
  method ReplayAfterFullGameCorrected(s: MathSession, last: Problem, p: Problem)
    requires s.Valid() && s.gameStarted && !s.gameOver && s.problemCount == ProblemsPerGame - 1
    requires s.selectedAnswer.None? && last == s.current.value
    requires ProblemOk(p, s.difficulty)
    modifies s
    ensures s.gameStarted && !s.gameOver && s.current == Some(p)
    ensures s.score == 10
  {
    s.SelectAnswer(last.answer);
    s.AdvanceStep(last);
    s.StartGameClearingAnswer(p);
    s.SelectAnswer(p.answer);
  }
}
