/** The which-is-larger game: pick the larger of two numbers. */
module MathCompare {
  import opened Basics
  import opened Rounds
  import Keycap
  import Analytics

  const Subject := "math"
  const GameId := "math-compare"

  /** The two numbers of a round, left and right. */
  datatype Pair = Pair(a: int, b: int)

  /** `10 + currentDifficulty * 10`: numbers are drawn below this bound. */
  function MaxVal(d: int): int {
    10 + d * 10
  }

  /** `generatePair`, then `currentPair[1] += 1` when the two came out equal. */
  function MakePair(d: int, ra: real, rb: real): (p: Pair)
    requires 1 <= d <= 5 && 0.0 <= ra < 1.0 && 0.0 <= rb < 1.0
    ensures p.a != p.b
    ensures 0 <= p.a < MaxVal(d) && 0 <= p.b <= MaxVal(d)
    ensures p.a == Pick(ra, MaxVal(d))
  {
    var a := Pick(ra, MaxVal(d));
    var b := Pick(rb, MaxVal(d));
    if a == b then Pair(a, b + 1) else Pair(a, b)
  }

  /** `handleAnswer(index)`: the left button (0) is right when the left number is larger, the right
      button (1) when the right one is. */
  function IsCorrect(p: Pair, index: nat): bool {
    (index == 0 && p.a > p.b) || (index == 1 && p.b > p.a)
  }

  /** Of the two buttons exactly one is right, and it is the one showing the larger number. */
  lemma ExactlyOneSide(p: Pair)
    requires p.a != p.b
    ensures IsCorrect(p, 0) != IsCorrect(p, 1)
    ensures IsCorrect(p, 0) <==> Max(p.a, p.b) == p.a
    ensures IsCorrect(p, 1) <==> Max(p.a, p.b) == p.b
  {
  }

  /** The two buttons show different keycap labels, and each reads back as its number. */
  lemma LabelsReadBack(p: Pair)
    requires p.a != p.b && p.a >= 0 && p.b >= 0
    ensures Keycap.Decode(Keycap.Unsigned(p.a)) == Some(p.a)
    ensures Keycap.Decode(Keycap.Unsigned(p.b)) == Some(p.b)
    ensures Keycap.Unsigned(p.a) != Keycap.Unsigned(p.b)
  {
    Keycap.UnsignedDropsSign(p.a);
    Keycap.UnsignedDropsSign(p.b);
    Keycap.SignedRoundTrip(p.a);
    Keycap.SignedRoundTrip(p.b);
  }

  /** `rounds = 3 + currentDifficulty`. */
  function RoundCount(d: int): (n: nat)
    requires 1 <= d <= 5
    ensures 4 <= n <= 8
  {
    3 + d
  }

  /** The component starts, reading the difficulty, and shows the first pair. */
  method Launch(svc: Analytics.AnalyticsService, userId: string, startTime: int, ra: real, rb: real)
    returns (g: RoundGame<Pair>)
    requires LedgerInRange(svc.sessions) && 0.0 <= ra < 1.0 && 0.0 <= rb < 1.0
    modifies svc, svc.store
    ensures fresh(g) && g.Valid()
    ensures var d := StartDifficulty(old(svc.sessions), userId, Subject, GameId, true);
            1 <= d <= 5 && g.difficulty == d && g.rounds == RoundCount(d) &&
            g.question == Some(MakePair(d, ra, rb))
    ensures g.userId == userId && g.subject == Subject && g.gameId == GameId && g.startTime == startTime
    ensures g.currentRound == 1 && g.tally == Fresh && g.scheduled == 0 && g.recorded == 0
    ensures unchanged(svc) && unchanged(svc.store)
  {
    StartInRange(svc.sessions, userId, Subject, GameId);
    var d := StartDifficulty(svc.sessions, userId, Subject, GameId, true);
    g := new RoundGame<Pair>(userId, Subject, GameId, d, RoundCount(d), startTime);
    g.Next(svc, Some(MakePair(d, ra, rb)), 0, true);
  }

  /** A scheduled `nextQuestion` fires: the game ends after its last round, else shows a new pair. */
  method Tick(g: RoundGame<Pair>, svc: Analytics.AnalyticsService, ra: real, rb: real, endTime: int)
    requires g.Valid() && 1 <= g.difficulty <= 5 && 0.0 <= ra < 1.0 && 0.0 <= rb < 1.0
    modifies g, svc, svc.store
    ensures g.Valid()
    ensures old(g.scheduled) > 0 && old(g.Over()) ==>
              svc.sessions == old(svc.sessions) +
                [SessionOf(g.userId, g.subject, g.gameId, g.startTime, endTime, g.tally, g.difficulty)] &&
              g.question == None && g.recorded == old(g.recorded) + 1
    ensures old(g.scheduled) > 0 && !old(g.Over()) ==>
              g.question == Some(MakePair(g.difficulty, ra, rb)) && g.currentRound == old(g.currentRound) + 1
    ensures old(g.scheduled) == 0 ==> unchanged(svc) && g.question == old(g.question)
    ensures g.tally == old(g.tally)
  {
    var fired := g.Fire();
    if fired {
      g.Next(svc, Some(MakePair(g.difficulty, ra, rb)), endTime, true);
    }
  }

  /** A click on the left (0) or right (1) number. */
  method Choose(g: RoundGame<Pair>, index: nat)
    requires g.Valid() && g.question.Some? && index <= 1
    modifies g
    ensures g.Valid()
    ensures g.tally == Answer(old(g.tally), IsCorrect(old(g.question).value, index), 5)
    ensures g.scheduled == old(g.scheduled) + 1
    ensures g.question == old(g.question) && g.currentRound == old(g.currentRound)
  {
    g.Judge(IsCorrect(g.question.value, index), 5);
  }
}
