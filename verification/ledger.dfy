/** The session ledger: running total, number of questions completed and the
    append-only history of question results. */
module Ledger {
  import opened Scoring

  datatype SessionStats = SessionStats(totalPoints: int, questionsCompleted: nat, questionResults: seq<QuestionResult>)

  /** The ledger a session starts from: nothing recorded, and consistent. */
  function ZeroStats(): (s: SessionStats)
    ensures s.totalPoints == 0 && s.questionsCompleted == 0 && s.questionResults == []
    ensures LedgerValid(s)
  {
    SessionStats(0, 0, [])
  }

  /** Sum of the per-question totals, in the order they were recorded. */
  function SumTotals(rs: seq<QuestionResult>): int
  {
    if rs == [] then 0 else SumTotals(rs[..|rs| - 1]) + rs[|rs| - 1].totalPoints
  }

  /** The ledger's invariant: the counter matches the history, the total is the
      sum of the history, results are numbered 1, 2, ... in order, and each
      result scores within the per-question range. */
  ghost predicate LedgerValid(s: SessionStats) {
    && s.questionsCompleted == |s.questionResults|
    && s.totalPoints == SumTotals(s.questionResults)
    && (forall i :: 0 <= i < |s.questionResults| ==>
          s.questionResults[i].questionNumber == i + 1 &&
          0 <= s.questionResults[i].totalPoints <= MaxQuestionPoints)
  }

  /** The update a successful supply submit applies to the ledger. Recording
      the next-numbered, in-range result into a consistent ledger leaves it
      consistent. */
  function Record(s: SessionStats, r: QuestionResult): (s': SessionStats)
    ensures (LedgerValid(s) && r.questionNumber == s.questionsCompleted + 1 &&
             0 <= r.totalPoints <= MaxQuestionPoints) ==> LedgerValid(s')
  {
    assert (s.questionResults + [r])[..|s.questionResults|] == s.questionResults;
    SessionStats(s.totalPoints + r.totalPoints, s.questionsCompleted + 1, s.questionResults + [r])
  }

  /** Recording the next-numbered, in-range result keeps the ledger valid: the
      history grows by exactly that result and the total by exactly its points. */
  lemma RecordPreservesValid(s: SessionStats, r: QuestionResult)
    requires LedgerValid(s)
    requires r.questionNumber == s.questionsCompleted + 1
    requires 0 <= r.totalPoints <= MaxQuestionPoints
    ensures LedgerValid(Record(s, r))
    ensures Record(s, r).questionsCompleted == s.questionsCompleted + 1
    ensures Record(s, r).questionResults[..s.questionsCompleted] == s.questionResults
    ensures Record(s, r).questionResults[s.questionsCompleted] == r
    ensures Record(s, r).totalPoints - s.totalPoints == r.totalPoints
  {
    var rs := s.questionResults + [r];
    assert rs[..|rs| - 1] == s.questionResults;
  }

  /** The total is never negative and never exceeds the per-question maximum
      times the number of questions completed. */
  lemma {:induction false} SumTotalsBounded(rs: seq<QuestionResult>)
    requires forall i :: 0 <= i < |rs| ==> 0 <= rs[i].totalPoints <= MaxQuestionPoints
    ensures 0 <= SumTotals(rs) <= MaxQuestionPoints * |rs|
  {
    if rs != [] {
      SumTotalsBounded(rs[..|rs| - 1]);
    }
  }

  lemma TotalPointsBounded(s: SessionStats)
    requires LedgerValid(s)
    ensures 0 <= s.totalPoints <= MaxQuestionPoints * s.questionsCompleted
  {
    SumTotalsBounded(s.questionResults);
  }
}
