/** The operator-picker game: pick the operator that completes an equation. */
module MathSign {
  import opened Basics
  import opened Rounds
  import opened Equations
  import Analytics

  const Subject := "math"
  const GameId := "math-sign"

  /** The button judgement as written: right exactly when the button is the operator the equation was
      made with. */
  function JudgeAsWritten(e: Equation, choice: Op): bool {
    choice == e.op
  }

  /** As written, a true equation can be judged wrong: at difficulty 3 the random numbers 0, 0.025 and
      0.025 make `2 _ 2 = 4` with `+`, and the `×` button, which also makes it true, scores as wrong. */
  lemma AsWrittenRejectsTrueOperator()
    ensures var e := Generate(3, Draws(0.0, 0.025, 0.025, 0.0, 0.0));
            e == Equation(2, 2, Plus, 4) && Times in Ops(3) &&
            Holds(Times, e.a, e.b, e.result) && !JudgeAsWritten(e, Times)
  {
    assert Pick(0.0, 3) == 0;
    assert Pick(0.025, MaxVal(3)) == 1;
  }

  /** The corrected judgement: right exactly when the button's operator makes the equation true. */
  function Judge(e: Equation, choice: Op): (ok: bool)
    ensures ok <==> Holds(choice, e.a, e.b, e.result)
  {
    match choice
    case Plus => e.a + e.b == e.result
    case Minus => e.a - e.b == e.result
    case Times => e.a * e.b == e.result
    case Divide => e.b != 0 && e.a == e.b * e.result
  }

  /** The corrected judgement accepts every button the written one accepts, so the operator the
      equation was made with always scores. */
  lemma JudgeAcceptsGenerator(d: int, rs: Draws, choice: Op)
    requires 1 <= d <= 5 && ValidDraws(rs)
    ensures JudgeAsWritten(Generate(d, rs), choice) ==> Judge(Generate(d, rs), choice)
  {
  }

  /** `rounds = 3 + currentDifficulty`. */
  function RoundCount(d: int): (n: nat)
    requires 1 <= d <= 5
    ensures 4 <= n <= 8
  {
    3 + d
  }

  /** The component starts and shows the first equation. */
  method Launch(svc: Analytics.AnalyticsService, userId: string, startTime: int, draws: Draws)
    returns (g: RoundGame<Equation>)
    requires LedgerInRange(svc.sessions) && ValidDraws(draws)
    modifies svc, svc.store
    ensures fresh(g) && g.Valid()
    ensures var d := StartDifficulty(old(svc.sessions), userId, Subject, GameId, true);
            1 <= d <= 5 && g.difficulty == d && g.rounds == RoundCount(d) && g.question == Some(Generate(d, draws))
    ensures g.userId == userId && g.subject == Subject && g.gameId == GameId && g.startTime == startTime
    ensures g.currentRound == 1 && g.tally == Fresh && g.scheduled == 0 && g.recorded == 0
    ensures unchanged(svc) && unchanged(svc.store)
  {
    StartInRange(svc.sessions, userId, Subject, GameId);
    var d := StartDifficulty(svc.sessions, userId, Subject, GameId, true);
    g := new RoundGame<Equation>(userId, Subject, GameId, d, RoundCount(d), startTime);
    g.Next(svc, Some(Generate(d, draws)), 0, true);
  }

  /** A scheduled `nextQuestion` fires. */
  method Tick(g: RoundGame<Equation>, svc: Analytics.AnalyticsService, draws: Draws, endTime: int)
    requires g.Valid() && 1 <= g.difficulty <= 5 && ValidDraws(draws)
    modifies g, svc, svc.store
    ensures g.Valid()
    ensures old(g.scheduled) > 0 && old(g.Over()) ==>
              svc.sessions == old(svc.sessions) +
                [SessionOf(g.userId, g.subject, g.gameId, g.startTime, endTime, g.tally, g.difficulty)] &&
              g.question == None && g.recorded == old(g.recorded) + 1
    ensures old(g.scheduled) > 0 && !old(g.Over()) ==>
              g.currentRound == old(g.currentRound) + 1 && g.question == Some(Generate(g.difficulty, draws))
    ensures old(g.scheduled) == 0 ==> unchanged(svc) && g.question == old(g.question)
    ensures g.tally == old(g.tally)
  {
    var fired := g.Fire();
    if fired {
      g.Next(svc, Some(Generate(g.difficulty, draws)), endTime, true);
    }
  }

  /** A click on one of the operator buttons as written: right only when it is the operator the equation
      was made with. */
  method ChooseAsWritten(g: RoundGame<Equation>, choice: Op)
    requires g.Valid() && g.question.Some? && choice in Ops(g.difficulty)
    modifies g
    ensures g.Valid()
    ensures g.tally == Answer(old(g.tally), choice == old(g.question).value.op, 5)
    ensures g.scheduled == old(g.scheduled) + 1
    ensures g.question == old(g.question) && g.currentRound == old(g.currentRound)
  {
    g.Judge(JudgeAsWritten(g.question.value, choice), 5);
  }

  /** A click on one of the operator buttons the difficulty offers, judged by the corrected rule. */
  method Choose(g: RoundGame<Equation>, choice: Op)
    requires g.Valid() && g.question.Some? && choice in Ops(g.difficulty)
    modifies g
    ensures g.Valid()
    ensures g.tally == Answer(old(g.tally), Holds(choice, old(g.question).value.a, old(g.question).value.b,
                                                  old(g.question).value.result), 5)
    ensures g.scheduled == old(g.scheduled) + 1
    ensures g.question == old(g.question) && g.currentRound == old(g.currentRound)
  {
    g.Judge(Judge(g.question.value, choice), 5);
  }
}
