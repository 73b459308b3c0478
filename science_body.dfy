/** The body-facts game: say whether a statement about the body is true. */
module ScienceBody {
  import opened Basics
  import opened Rounds
  import opened PoolQuiz
  import Analytics

  const Subject := "science"
  const GameId := "science-body"

  /** `pools`, easiest level first. */
  const Pools: seq<seq<Statement>> := [
    [
      Statement("Humans have five fingers on each hand.", true),
      Statement("The heart is in your foot.", false),
      Statement("We breathe oxygen.", true)
    ],
    [
      Statement("Bones are stronger than some metals.", true),
      Statement("Blood is blue inside your body.", false),
      Statement("Our brains never sleep.", true)
    ],
    [
      Statement("The human body has 206 bones.", true),
      Statement("Your stomach is part of your respiratory system.", false),
      Statement("Nails are made of keratin.", true)
    ],
    [
      Statement("The liver produces bile to aid digestion.", true),
      Statement("The adult human heart has five chambers.", false),
      Statement("Red blood cells live for about 120 days.", true)
    ],
    [
      Statement("The smallest bones are in the ear.", true),
      Statement("The pancreas regulates blood sugar.", true),
      Statement("Humans have two sets of ribs.", false)
    ]
  ]

  /** `pools[currentDifficulty - 1]`: 3 questions. */
  function Pool(d: int): (p: seq<Statement>)
    requires 1 <= d <= 5
    ensures |p| == 3
  {
    Pools[d - 1]
  }

  /** `rounds = 3 + currentDifficulty`, as written: more rounds than the pool holds at every level. */
  function RoundCountAsWritten(d: int): (n: nat)
    requires 1 <= d <= 5
    ensures n > |Pool(d)|
  {
    3 + d
  }

  /** As written, whatever the random numbers, the pool is empty when the fourth round draws: the game
      throws there and records no session. */
  lemma AsWrittenRunsDry(d: int, rs: seq<real>)
    requires 1 <= d <= 5 && Randoms(rs) && |rs| == RoundCountAsWritten(d)
    ensures DrawAll(Pool(d), rs).None?
  {
    UncappedRoundsRunDry(Pool(d), RoundCountAsWritten(d), rs);
  }

  /** The round count capped by the pool size, as the rhymes and quiz games do: one round per
      question. */
  function RoundCount(d: int): (n: nat)
    requires 1 <= d <= 5
    ensures n == |Pool(d)| && n < RoundCountAsWritten(d)
  {
    CappedRounds(RoundCountAsWritten(d), |Pool(d)|)
  }

  /** With the cap every round draws a question: the game reaches `endGame`. */
  lemma RoundsDraw(d: int, rs: seq<real>)
    requires 1 <= d <= 5 && Randoms(rs) && |rs| == RoundCount(d)
    ensures DrawAll(Pool(d), rs).Some?
  {
    CappedRoundsDraw(Pool(d), RoundCountAsWritten(d), rs);
  }

  /** The component starts, with the round count capped at the pool size as corrected: the difficulty
      is read from this game's history and the first question is drawn. */
  method Launch(svc: Analytics.AnalyticsService, userId: string, startTime: int, r: real) returns (g: PoolGame<Statement>)
    requires LedgerInRange(svc.sessions) && 0.0 <= r < 1.0 && svc.store != svc as object
    modifies svc, svc.store
    ensures fresh(g) && fresh(g.game) && !g.crashed
    ensures var d := StartDifficulty(old(svc.sessions), userId, Subject, GameId, true);
            1 <= d <= 5 && Started(g, userId, Subject, GameId, d, RoundCount(d), startTime, Pool(d), [])
    ensures unchanged(svc) && unchanged(svc.store)
  {
    StartInRange(svc.sessions, userId, Subject, GameId);
    var d := StartDifficulty(svc.sessions, userId, Subject, GameId, true);
    g := Open(svc, userId, Subject, GameId, d, RoundCount(d), startTime, Pool(d), [], r);
  }

  /** The component starts as written, with `3 + currentDifficulty` rounds: after the first draw two
      questions are left while at least three rounds remain, so the later `nextQuestion` calls run the
      pool dry before the end (`PoolQuiz.RunDry`). */
  method LaunchAsWritten(svc: Analytics.AnalyticsService, userId: string, startTime: int, r: real) returns (g: PoolGame<Statement>)
    requires LedgerInRange(svc.sessions) && 0.0 <= r < 1.0 && svc.store != svc as object
    modifies svc, svc.store
    ensures fresh(g) && fresh(g.game) && !g.crashed
    ensures var d := StartDifficulty(old(svc.sessions), userId, Subject, GameId, true);
            1 <= d <= 5 && Started(g, userId, Subject, GameId, d, RoundCountAsWritten(d), startTime, Pool(d), [])
    ensures g.refill == [] && |g.pool| == 2 && g.game.currentRound + |g.pool| < g.game.rounds
    ensures unchanged(svc) && unchanged(svc.store)
  {
    StartInRange(svc.sessions, userId, Subject, GameId);
    var d := StartDifficulty(svc.sessions, userId, Subject, GameId, true);
    g := Open(svc, userId, Subject, GameId, d, RoundCountAsWritten(d), startTime, Pool(d), [], r);
  }
}
