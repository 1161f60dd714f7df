/** The quiz page's state machine: one question goes demand guess -> supply
    guess -> result, and a session ends after SessionLength questions. */
module Session {
  import opened Scoring
  import opened Ledger
  import opened Selector

  datatype QuizStage = Demand | Supply | Result | SessionComplete

  /** The text of a guess field: empty, or a number already parsed. */
  datatype Guess = Blank | Entered(value: real)

  const SessionLength: nat := 10

  class Quiz {
    /** The dataset, loaded once. */
    const goods: seq<Good>
    var currentGood: Good
    var demandGuess: Guess
    var supplyGuess: Guess
    var currentStage: QuizStage
    var usedGoods: set<string>
    var sessionStats: SessionStats
    var currentQuestionPoints: QuestionPoints

    /** The current good comes from the dataset, used names are names of the
        dataset, the ledger is consistent, and no session runs past
        SessionLength questions: a question can only be open (demand or
        supply stage) while fewer than SessionLength are completed. */
    ghost predicate Valid()
      reads this
    {
      && |goods| > 0
      && currentGood in goods
      && usedGoods <= Names(goods)
      && LedgerValid(sessionStats)
      && sessionStats.questionsCompleted <= SessionLength
      && (currentStage == Demand || currentStage == Supply ==> sessionStats.questionsCompleted < SessionLength)
      && (currentStage == SessionComplete ==> sessionStats.questionsCompleted == SessionLength)
      && (currentStage == Supply || currentStage == Result ==> demandGuess.Entered?)
    }

    /** The page's initial state once the dataset has loaded: a zero ledger,
        nothing used, and a first good drawn from the whole list. */
    constructor (goodsList: seq<Good>, rand: real)
      requires |goodsList| > 0 && 0.0 <= rand < 1.0
      ensures Valid()
      ensures goods == goodsList
      ensures currentStage == Demand && demandGuess == Blank && supplyGuess == Blank
      ensures sessionStats == ZeroStats() && usedGoods == {}
      ensures currentGood == Select(goodsList, {}, rand).good
      ensures currentQuestionPoints == QuestionPoints(0, 0, 0, 0)
    {
      goods := goodsList;
      currentGood := goodsList[0];
      demandGuess, supplyGuess := Blank, Blank;
      currentStage := Demand;
      usedGoods := {};
      sessionStats := ZeroStats();
      currentQuestionPoints := QuestionPoints(0, 0, 0, 0);
      new;
      SelectRandomGood(goodsList, {}, rand);
      SelectFromFreshPoolKeepsUsedSet(goodsList, rand);
    }

    /** selectRandomGood: sets the current good, clearing the used set first
        when every good of goodsList is in usedSet. */
    method SelectRandomGood(goodsList: seq<Good>, usedSet: set<string>, rand: real)
      requires |goodsList| > 0 && 0.0 <= rand < 1.0
      modifies this`usedGoods, this`currentGood
      ensures var s := Select(goodsList, usedSet, rand);
        currentGood == s.good && usedGoods == (if s.clearedUsed then {} else old(usedGoods))
      decreases |usedSet|
    {
      var availableGoods := Available(goodsList, usedSet);
      AvailableEmptyIffExhausted(goodsList, usedSet);
      if |availableGoods| == 0 {
        usedGoods := {};
        SelectRandomGood(goodsList, {}, rand);
        return;
      }
      var randomIndex := RandomIndex(rand, |availableGoods|);
      currentGood := availableGoods[randomIndex];
    }

    /** Typing into the demand field, which is shown only in the demand stage. */
    method SetDemandGuess(g: Guess)
      requires Valid() && currentStage == Demand
      modifies this`demandGuess
      ensures Valid() && demandGuess == g
    {
      demandGuess := g;
    }

    /** Typing into the supply field, which is shown only in the supply stage. */
    method SetSupplyGuess(g: Guess)
      requires Valid() && currentStage == Supply
      modifies this`supplyGuess
      ensures Valid() && supplyGuess == g
    {
      supplyGuess := g;
    }

    /** handleDemandSubmit: a no-op unless the demand guess is non-empty and the
        stage is Demand; otherwise only the stage moves, to Supply. Nothing
        else (in particular not the ledger) may change. */
    method HandleDemandSubmit()
      requires Valid()
      modifies this`currentStage
      ensures Valid()
      ensures old(demandGuess.Entered? && currentStage == Demand) ==> currentStage == Supply
      ensures !old(demandGuess.Entered? && currentStage == Demand) ==> currentStage == old(currentStage)
    {
      if demandGuess.Blank? || currentStage != Demand {
        return;
      }
      currentStage := Supply;
    }

    /** handleSupplySubmit: a no-op unless the supply guess is non-empty and the
        stage is Supply. Otherwise the question is scored, the stage moves to
        Result, and the ledger records exactly one result, numbered one past
        the questions completed before. */
    method HandleSupplySubmit()
      requires Valid()
      requires currentStage == Supply && supplyGuess.Entered? && demandGuess.Entered? ==>
        IncidenceDefined(demandGuess.value, supplyGuess.value) &&
        IncidenceDefined(currentGood.demandElasticity, currentGood.supplyElasticity)
      modifies this`currentStage, this`sessionStats, this`currentQuestionPoints
      ensures Valid()
      ensures !old(supplyGuess.Entered? && currentStage == Supply) ==>
        currentStage == old(currentStage) && sessionStats == old(sessionStats) &&
        currentQuestionPoints == old(currentQuestionPoints)
      ensures old(supplyGuess.Entered? && currentStage == Supply) ==>
        && currentStage == Result
        && var r := ScoreQuestion(old(sessionStats.questionsCompleted) + 1, currentGood, demandGuess.value, supplyGuess.value);
        && sessionStats == Record(old(sessionStats), r)
        && currentQuestionPoints == QuestionPoints(r.demandPoints, r.supplyPoints, r.taxIncidencePoints, r.totalPoints)
      ensures old(supplyGuess.Entered? && currentStage == Supply) ==>
        && sessionStats.questionsCompleted == old(sessionStats.questionsCompleted) + 1
        && sessionStats.questionResults[..old(sessionStats.questionsCompleted)] == old(sessionStats.questionResults)
        && sessionStats.questionResults[old(sessionStats.questionsCompleted)].questionNumber == old(sessionStats.questionsCompleted) + 1
        && sessionStats.totalPoints == old(sessionStats.totalPoints) + sessionStats.questionResults[old(sessionStats.questionsCompleted)].totalPoints
    {
      if supplyGuess.Blank? || currentStage != Supply {
        return;
      }
      currentStage := Result;
      var questionResult := ScoreQuestion(sessionStats.questionsCompleted + 1, currentGood, demandGuess.value, supplyGuess.value);
      currentQuestionPoints := QuestionPoints(
        questionResult.demandPoints, questionResult.supplyPoints,
        questionResult.taxIncidencePoints, questionResult.totalPoints);
      RecordPreservesValid(sessionStats, questionResult);
      sessionStats := Record(sessionStats, questionResult);
    }

    /** nextQuestion: once SessionLength questions are completed, only the stage
        moves, to SessionComplete. Otherwise the stage returns to Demand, both
        guesses are cleared, the good just shown is marked used and a new good
        is drawn -- against the used set as it was before that mark. */
    method NextQuestion(rand: real)
      requires Valid() && 0.0 <= rand < 1.0
      modifies this`currentStage, this`usedGoods, this`currentGood, this`demandGuess, this`supplyGuess
      ensures Valid()
      ensures old(sessionStats.questionsCompleted) >= SessionLength ==>
        currentStage == SessionComplete && usedGoods == old(usedGoods) && currentGood == old(currentGood) &&
        demandGuess == old(demandGuess) && supplyGuess == old(supplyGuess)
      ensures old(sessionStats.questionsCompleted) < SessionLength ==>
        && currentStage == Demand && demandGuess == Blank && supplyGuess == Blank
        && var d := NextDraw(goods, old(usedGoods), old(currentGood), rand);
        && usedGoods == d.usedGoods && currentGood == d.currentGood
    {
      if sessionStats.questionsCompleted >= SessionLength {
        currentStage := SessionComplete;
        return;
      }
      var staleUsedGoods := usedGoods;
      usedGoods := usedGoods + {currentGood.name};
      currentStage := Demand;
      demandGuess, supplyGuess := Blank, Blank;
      SelectRandomGood(goods, staleUsedGoods, rand);
    }

    /** startNewSession: the zero ledger, an empty used set, the Demand stage,
        cleared guesses and a good drawn from the whole list. */
    method StartNewSession(rand: real)
      requires Valid() && 0.0 <= rand < 1.0
      modifies this`sessionStats, this`usedGoods, this`currentStage, this`demandGuess, this`supplyGuess, this`currentGood
      ensures Valid()
      ensures sessionStats == ZeroStats() && usedGoods == {}
      ensures currentStage == Demand && demandGuess == Blank && supplyGuess == Blank
      ensures currentGood == Select(goods, {}, rand).good
    {
      sessionStats := ZeroStats();
      usedGoods := {};
      currentStage := Demand;
      demandGuess, supplyGuess := Blank, Blank;
      SelectRandomGood(goods, {}, rand);
      SelectFromFreshPoolKeepsUsedSet(goods, rand);
    }
  }

  /** A second supply submit before the next question cannot count twice. */
  method SupplySubmitTwiceCountsOnce(q: Quiz)
    requires q.Valid()
    requires q.currentStage == Supply && q.supplyGuess.Entered? && q.demandGuess.Entered? ==>
      IncidenceDefined(q.demandGuess.value, q.supplyGuess.value) &&
      IncidenceDefined(q.currentGood.demandElasticity, q.currentGood.supplyElasticity)
    modifies q
    ensures q.Valid()
    ensures old(q.supplyGuess.Entered? && q.currentStage == Supply) ==>
      q.sessionStats == Record(old(q.sessionStats), ScoreQuestion(old(q.sessionStats.questionsCompleted) + 1,
        old(q.currentGood), old(q.demandGuess).value, old(q.supplyGuess).value))
    ensures !old(q.supplyGuess.Entered? && q.currentStage == Supply) ==> q.sessionStats == old(q.sessionStats)
    ensures q.sessionStats.questionsCompleted <= old(q.sessionStats.questionsCompleted) + 1
    ensures |q.sessionStats.questionResults| <= old(|q.sessionStats.questionResults|) + 1
  {
    q.HandleSupplySubmit();
    q.HandleSupplySubmit();
  }

  /** The session's total never exceeds SessionLength times the per-question
      maximum, the "possible points" the summary screen shows. */
  lemma SessionTotalBounded(q: Quiz)
    requires q.Valid()
    ensures 0 <= q.sessionStats.totalPoints <= SessionLength * MaxQuestionPoints
  {
    TotalPointsBounded(q.sessionStats);
  }

  /** One question on a one-good dataset, answered exactly: 5000 points. */
  method ExactAnswerScenario() returns (total: int)
    ensures total == MaxQuestionPoints
  {
    var oil := Good("Oil", -0.4, 0.15);
    var q := new Quiz([oil], 0.0);
    q.SetDemandGuess(Entered(-0.4));
    q.HandleDemandSubmit();
    q.SetSupplyGuess(Entered(0.15));
    q.HandleSupplySubmit();
    ExactGuessScoresMaximum(1, oil);
    total := q.sessionStats.totalPoints;
  }
}
