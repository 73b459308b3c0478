/** The arithmetic-dash game: pick the value of an equation among four numbers. */
module MathCalc {
  import opened Basics
  import opened Rounds
  import opened Equations
  import Keycap
  import Analytics

  const Subject := "math"
  const GameId := "math-calc"

  /** A question: its equation and the numbers offered, the right one first. */
  datatype CalcQuestion = CalcQuestion(eq: Equation, options: seq<int>)

  function Abs(x: int): nat {
    if x < 0 then -x else x
  }

  /** One candidate wrong answer, `correct ± variance` with the variance from 1 to `5 + 2 * d`. */
  function Wrong(correct: int, d: int, rv: real, rsign: real): (w: int)
    requires 1 <= d <= 5 && 0.0 <= rv < 1.0 && 0.0 <= rsign < 1.0
    ensures w != correct && 1 <= Abs(w - correct) <= 5 + 2 * d
  {
    var variance := Pick(rv, 5 + 2 * d) + 1;
    if rsign < 0.5 then correct - variance else correct + variance
  }

  /** Random pairs for the candidate wrong answers. */
  predicate ValidPairs(ws: seq<(real, real)>) {
    forall i :: 0 <= i < |ws| ==> 0.0 <= ws[i].0 < 1.0 && 0.0 <= ws[i].1 < 1.0
  }

  /** `generateQuestion`: the equation, then the loop that adds wrong answers near the right one to
      `new Set([correct])` until it holds four numbers. `done` is false when the random pairs ran out
      first. */
  method MakeQuestion(d: int, draws: Draws, ws: seq<(real, real)>) returns (q: CalcQuestion, done: bool)
    requires 1 <= d <= 5 && ValidDraws(draws) && ValidPairs(ws)
    ensures q.eq == Generate(d, draws)
    ensures |q.options| >= 1 && q.options[0] == q.eq.result && Distinct(q.options)
    ensures forall i :: 1 <= i < |q.options| ==> 1 <= Abs(q.options[i] - q.eq.result) <= 5 + 2 * d
    ensures done <==> |q.options| == 4
  {
    var eq := Generate(d, draws);
    var candidates := seq(|ws|, i requires 0 <= i < |ws| => Wrong(eq.result, d, ws[i].0, ws[i].1));
    var options, used;
    options, used, done := FillDistinct([eq.result], 4, candidates);
    forall i | 1 <= i < |options|
      ensures 1 <= Abs(options[i] - eq.result) <= 5 + 2 * d
    {
      var prefix := candidates[..used];
      assert options[i] in prefix;
      var k :| 0 <= k < |prefix| && prefix[k] == options[i];
      assert prefix[k] == Wrong(eq.result, d, ws[k].0, ws[k].1);
    }
    q := CalcQuestion(eq, options);
  }

  /** Exactly one of the offered numbers is the value of the equation, and the buttons carry distinct
      keycap labels. */
  lemma OneRightOption(q: CalcQuestion, i: nat, j: nat)
    requires Distinct(q.options) && |q.options| >= 1 && q.options[0] == q.eq.result
    requires i < |q.options| && j < |q.options| && i != j
    ensures q.options[i] == q.eq.result ==> i == 0
    ensures Keycap.Signed(q.options[i]) != Keycap.Signed(q.options[j])
  {
    Keycap.SignedRoundTrip(q.options[i]);
    Keycap.SignedRoundTrip(q.options[j]);
  }

  /** `rounds = 3 + currentDifficulty`. */
  function RoundCount(d: int): (n: nat)
    requires 1 <= d <= 5
    ensures 4 <= n <= 8
  {
    3 + d
  }

  /** The component starts and shows the first question (none when its loop got stuck). */
  method Launch(svc: Analytics.AnalyticsService, userId: string, startTime: int, draws: Draws, ws: seq<(real, real)>)
    returns (g: RoundGame<CalcQuestion>)
    requires LedgerInRange(svc.sessions) && ValidDraws(draws) && ValidPairs(ws)
    modifies svc, svc.store
    ensures fresh(g) && g.Valid()
    ensures var d := StartDifficulty(old(svc.sessions), userId, Subject, GameId, true);
            1 <= d <= 5 && g.difficulty == d && g.rounds == RoundCount(d) &&
            (g.question.Some? ==> g.question.value.eq == Generate(d, draws) && |g.question.value.options| == 4)
    ensures g.userId == userId && g.subject == Subject && g.gameId == GameId && g.startTime == startTime
    ensures g.currentRound == 1 && g.tally == Fresh && g.scheduled == 0 && g.recorded == 0
    ensures unchanged(svc) && unchanged(svc.store)
  {
    StartInRange(svc.sessions, userId, Subject, GameId);
    var d := StartDifficulty(svc.sessions, userId, Subject, GameId, true);
    g := new RoundGame<CalcQuestion>(userId, Subject, GameId, d, RoundCount(d), startTime);
    var q, done := MakeQuestion(d, draws, ws);
    g.Next(svc, if done then Some(q) else None, 0, true);
  }

  /** A scheduled `nextQuestion` fires. */
  method Tick(g: RoundGame<CalcQuestion>, svc: Analytics.AnalyticsService, draws: Draws, ws: seq<(real, real)>, endTime: int)
    requires g.Valid() && 1 <= g.difficulty <= 5 && ValidDraws(draws) && ValidPairs(ws)
    modifies g, svc, svc.store
    ensures g.Valid()
    ensures old(g.scheduled) > 0 && old(g.Over()) ==>
              svc.sessions == old(svc.sessions) +
                [SessionOf(g.userId, g.subject, g.gameId, g.startTime, endTime, g.tally, g.difficulty)] &&
              g.question == None && g.recorded == old(g.recorded) + 1
    ensures old(g.scheduled) > 0 && !old(g.Over()) ==>
              g.currentRound == old(g.currentRound) + 1 &&
              (g.question.Some? ==> g.question.value.eq == Generate(g.difficulty, draws) && |g.question.value.options| == 4)
    ensures old(g.scheduled) == 0 ==> unchanged(svc) && g.question == old(g.question)
    ensures g.tally == old(g.tally)
  {
    var fired := g.Fire();
    if fired {
      var q, done := MakeQuestion(g.difficulty, draws, ws);
      g.Next(svc, if done then Some(q) else None, endTime, true);
    }
  }

  /** A click on one of the numbers: right when it is the value of the equation. */
  method Choose(g: RoundGame<CalcQuestion>, val: int)
    requires g.Valid() && g.question.Some? && val in g.question.value.options
    modifies g
    ensures g.Valid()
    ensures g.tally == Answer(old(g.tally), val == old(g.question).value.eq.result, 5)
    ensures g.scheduled == old(g.scheduled) + 1
    ensures g.question == old(g.question) && g.currentRound == old(g.currentRound)
  {
    g.Judge(val == g.question.value.eq.result, 5);
  }
}
