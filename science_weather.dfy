/** The weather game: name the weather a picture shows. */
module ScienceWeather {
  import opened Basics
  import opened Rounds
  import opened PoolQuiz
  import Analytics

  const Subject := "science"
  const GameId := "science-weather"

  /** `pools`, easiest level first. */
  const Pools: seq<seq<WordQuestion>> := [
    [
      WordQuestion("\U{2600}\U{FE0F}", "Sunny", ["Sunny", "Rainy", "Cloudy", "Snowy"]),
      WordQuestion("\U{1F327}\U{FE0F}", "Rainy", ["Rainy", "Sunny", "Windy", "Stormy"]),
      WordQuestion("\U{1F329}\U{FE0F}", "Stormy", ["Stormy", "Snowy", "Sunny", "Foggy"])
    ],
    [
      WordQuestion("\U{2744}\U{FE0F}", "Snowy", ["Snowy", "Rainy", "Sunny", "Windy"]),
      WordQuestion("\U{1F324}\U{FE0F}", "Partly sunny", ["Partly sunny", "Rainy", "Snowy", "Foggy"]),
      WordQuestion("\U{1F32A}\U{FE0F}", "Tornado", ["Tornado", "Sunny", "Rainy", "Stormy"])
    ],
    [
      WordQuestion("\U{1F32B}\U{FE0F}", "Foggy", ["Foggy", "Sunny", "Rainy", "Cloudy"]),
      WordQuestion("\U{1F4A8}", "Windy", ["Windy", "Snowy", "Stormy", "Sunny"]),
      WordQuestion("\U{26C8}\U{FE0F}", "Thunderstorm", ["Thunderstorm", "Rainy", "Sunny", "Windy"])
    ],
    [
      WordQuestion("\U{1F326}\U{FE0F}", "Rain shower", ["Rain shower", "Snowy", "Sunny", "Windy"]),
      WordQuestion("\U{1F308}", "Rainbow", ["Rainbow", "Sunny", "Foggy", "Windy"]),
      WordQuestion("\U{1F321}\U{FE0F}", "Hot", ["Hot", "Cold", "Cool", "Warm"])
    ],
    [
      WordQuestion("\U{1F32C}\U{FE0F}", "Breezy", ["Breezy", "Stormy", "Tornado", "Snowy"]),
      WordQuestion("\U{1F328}\U{FE0F}", "Blizzard", ["Blizzard", "Sunny", "Rainy", "Foggy"]),
      WordQuestion("\U{1F30A}", "Hurricane", ["Hurricane", "Thunderstorm", "Cloudy", "Rainy"])
    ]
  ]

  /** `pools[currentDifficulty - 1]`: 3 questions, each offering its right answer once. */
  function Pool(d: int): (p: seq<WordQuestion>)
    requires 1 <= d <= 5
    ensures |p| == 3
    ensures forall i :: 0 <= i < |p| ==> WellFormed(p[i])
  {
    Pools[d - 1]
  }

  /** `rounds = 3 + currentDifficulty`, as written: more rounds than the pool holds at every level. */
  function RoundCountAsWritten(d: int): (n: nat)
    requires 1 <= d <= 5
    ensures n > |Pool(d)|
  {
    3 + d
  }

  /** As written, whatever the random numbers, the pool is empty when the fourth round draws: the game
      throws there and records no session. */
  lemma AsWrittenRunsDry(d: int, rs: seq<real>)
    requires 1 <= d <= 5 && Randoms(rs) && |rs| == RoundCountAsWritten(d)
    ensures DrawAll(Pool(d), rs).None?
  {
    UncappedRoundsRunDry(Pool(d), RoundCountAsWritten(d), rs);
  }

  /** The round count capped by the pool size, as the rhymes and quiz games do: one round per
      question. */
  function RoundCount(d: int): (n: nat)
    requires 1 <= d <= 5
    ensures n == |Pool(d)| && n < RoundCountAsWritten(d)
  {
    CappedRounds(RoundCountAsWritten(d), |Pool(d)|)
  }

  /** With the cap every round draws a question: the game reaches `endGame`. */
  lemma RoundsDraw(d: int, rs: seq<real>)
    requires 1 <= d <= 5 && Randoms(rs) && |rs| == RoundCount(d)
    ensures DrawAll(Pool(d), rs).Some?
  {
    CappedRoundsDraw(Pool(d), RoundCountAsWritten(d), rs);
  }

  /** The component starts, with the round count capped at the pool size as corrected: the difficulty
      is read from this game's history and the first question is drawn. */
  method Launch(svc: Analytics.AnalyticsService, userId: string, startTime: int, r: real) returns (g: PoolGame<WordQuestion>)
    requires LedgerInRange(svc.sessions) && 0.0 <= r < 1.0 && svc.store != svc as object
    modifies svc, svc.store
    ensures fresh(g) && fresh(g.game) && !g.crashed
    ensures var d := StartDifficulty(old(svc.sessions), userId, Subject, GameId, true);
            1 <= d <= 5 && Started(g, userId, Subject, GameId, d, RoundCount(d), startTime, Pool(d), [])
    ensures unchanged(svc) && unchanged(svc.store)
  {
    StartInRange(svc.sessions, userId, Subject, GameId);
    var d := StartDifficulty(svc.sessions, userId, Subject, GameId, true);
    g := Open(svc, userId, Subject, GameId, d, RoundCount(d), startTime, Pool(d), [], r);
  }

  /** The component starts as written, with `3 + currentDifficulty` rounds: after the first draw two
      questions are left while at least three rounds remain, so the later `nextQuestion` calls run the
      pool dry before the end (`PoolQuiz.RunDry`). */
  method LaunchAsWritten(svc: Analytics.AnalyticsService, userId: string, startTime: int, r: real) returns (g: PoolGame<WordQuestion>)
    requires LedgerInRange(svc.sessions) && 0.0 <= r < 1.0 && svc.store != svc as object
    modifies svc, svc.store
    ensures fresh(g) && fresh(g.game) && !g.crashed
    ensures var d := StartDifficulty(old(svc.sessions), userId, Subject, GameId, true);
            1 <= d <= 5 && Started(g, userId, Subject, GameId, d, RoundCountAsWritten(d), startTime, Pool(d), [])
    ensures g.refill == [] && |g.pool| == 2 && g.game.currentRound + |g.pool| < g.game.rounds
    ensures unchanged(svc) && unchanged(svc.store)
  {
    StartInRange(svc.sessions, userId, Subject, GameId);
    var d := StartDifficulty(svc.sessions, userId, Subject, GameId, true);
    g := Open(svc, userId, Subject, GameId, d, RoundCountAsWritten(d), startTime, Pool(d), [], r);
  }
}
