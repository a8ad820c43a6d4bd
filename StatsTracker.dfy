// The statistics record of the Crazy Colors game and the two ways play changes it:
// the one-second tick while a question is on screen, and the resolution of an
// answer when its overlay is dismissed with the Continue button.

module StatsTracker {

  /** Questions asked, answers right and wrong, seconds played, and the average
      number of seconds per answer as last computed. */
  datatype GameStats = GameStats(
    questionsAll: nat,
    answersCorrect: nat,
    answersWrong: nat,
    timeSpent: nat,
    timePerAnswer: nat)

  /** The record at start-up and after a restart. */
  const Zero := GameStats(0, 0, 0, 0, 0)

  /** Every question asked was answered either right or wrong. */
  predicate Balanced(s: GameStats) {
    s.questionsAll == s.answersCorrect + s.answersWrong
  }

  /** No average is shown before the first question has been asked. */
  predicate NoAverageYet(s: GameStats) {
    s.questionsAll == 0 ==> s.timePerAnswer == 0
  }

  // ---------------------------------------------------------------------------
  // Rounding

  /** `Math.round(t / q)` for `t >= 0` and `q > 0`: the nearest integer, halves
      rounded up. The ensures says r - 1/2 <= t/q < r + 1/2, multiplied out by 2q. */
  function RoundedAverage(t: nat, q: nat): (r: nat)
    requires q > 0
    ensures q * (2 * r) <= 2 * t + q < q * (2 * r + 2)
  {
    (2 * t + q) / (2 * q)
  }

  lemma MulMonotone(q: nat, a: nat, b: nat)
    requires a <= b
    ensures q * a <= q * b
  {
  }

  /** The bounds in RoundedAverage's ensures determine the rounded value. */
  lemma RoundedAverageUnique(t: nat, q: nat, r: nat)
    requires q > 0
    requires q * (2 * r) <= 2 * t + q < q * (2 * r + 2)
    ensures r == RoundedAverage(t, q)
  {
    var m := RoundedAverage(t, q);
    if r < m {
      MulMonotone(q, 2 * r + 2, 2 * m);
    } else if m < r {
      MulMonotone(q, 2 * m + 2, 2 * r);
    }
  }

  /** Ten seconds over three answers averages 3; seven over two rounds up to 4. */
  lemma RoundedAverageExamples()
    ensures RoundedAverage(10, 3) == 3
    ensures RoundedAverage(7, 2) == 4
    ensures RoundedAverage(5, 2) == 3
  {
  }

  // ---------------------------------------------------------------------------
  // Updates

  /** One second of play. The average is computed from the time BEFORE this
      second is added, and is 0 while no question has been answered. */
  function Tick(prev: GameStats): (next: GameStats)
    ensures next.timeSpent == prev.timeSpent + 1
    ensures next.questionsAll == prev.questionsAll
    ensures next.answersCorrect == prev.answersCorrect
    ensures next.answersWrong == prev.answersWrong
    ensures prev.questionsAll == 0 ==> next.timePerAnswer == 0
    ensures prev.questionsAll > 0 ==>
      prev.questionsAll * (2 * next.timePerAnswer)
        <= 2 * prev.timeSpent + prev.questionsAll
        < prev.questionsAll * (2 * next.timePerAnswer + 2)
    ensures NoAverageYet(next)
  {
    prev.(timeSpent := prev.timeSpent + 1,
          timePerAnswer := if prev.questionsAll > 0
                           then RoundedAverage(prev.timeSpent, prev.questionsAll)
                           else 0)
  }

  /** One answer resolved: one more question, and exactly one of the right and
      wrong counters goes up, according to the verdict. Time is not touched. */
  function Record(prev: GameStats, correct: bool): (next: GameStats)
    ensures next.questionsAll == prev.questionsAll + 1
    ensures next.answersCorrect + next.answersWrong == prev.answersCorrect + prev.answersWrong + 1
    ensures correct <==> next.answersCorrect == prev.answersCorrect + 1
    ensures !correct <==> next.answersWrong == prev.answersWrong + 1
    ensures next.timeSpent == prev.timeSpent && next.timePerAnswer == prev.timePerAnswer
    ensures Balanced(prev) ==> Balanced(next)
    ensures NoAverageYet(next)
  {
    prev.(questionsAll := prev.questionsAll + 1,
          answersCorrect := prev.answersCorrect + (if correct then 1 else 0),
          answersWrong := prev.answersWrong + (if correct then 0 else 1))
  }

  // ---------------------------------------------------------------------------
  // A history of updates

  /** What can happen to the record between two restarts. */
  datatype StatsEvent = Second | Resolved(correct: bool)

  function Replay(s: GameStats, events: seq<StatsEvent>): (r: GameStats)
    decreases |events|
  {
    if events == [] then s
    else
      var next := match events[0]
        case Second => Tick(s)
        case Resolved(c) => Record(s, c);
      Replay(next, events[1..])
  }

  function CountSeconds(events: seq<StatsEvent>): (n: nat) {
    if events == [] then 0 else (if events[0].Second? then 1 else 0) + CountSeconds(events[1..])
  }

  function CountResolved(events: seq<StatsEvent>, correct: bool): (n: nat) {
    if events == [] then 0
    else (if events[0] == Resolved(correct) then 1 else 0) + CountResolved(events[1..], correct)
  }

  /** The counters count: after any history, the time is the number of seconds
      ticked, the right and wrong counters are the numbers of right and wrong
      answers resolved, the record stays balanced, and no average appears before
      the first question. */
  lemma {:induction false} ReplayCounts(s: GameStats, events: seq<StatsEvent>)
    ensures var r := Replay(s, events);
      && r.timeSpent == s.timeSpent + CountSeconds(events)
      && r.answersCorrect == s.answersCorrect + CountResolved(events, true)
      && r.answersWrong == s.answersWrong + CountResolved(events, false)
      && r.questionsAll == s.questionsAll + CountResolved(events, true) + CountResolved(events, false)
      && (Balanced(s) ==> Balanced(r))
      && (NoAverageYet(s) ==> NoAverageYet(r))
    decreases |events|
  {
    if events != [] {
      var next := match events[0]
        case Second => Tick(s)
        case Resolved(c) => Record(s, c);
      ReplayCounts(next, events[1..]);
    }
  }
}
