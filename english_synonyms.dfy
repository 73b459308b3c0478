/** The synonym game: pick the option that means the same as the base word. */
module EnglishSynonyms {
  import opened Basics
  import opened Rounds
  import opened PoolQuiz
  import Analytics

  const Subject := "english"
  const GameId := "english-synonyms"

  /** `pools`, easiest level first. */
  const Pools: seq<seq<WordQuestion>> := [
    [
      WordQuestion("big", "large", ["large", "small", "long"]),
      WordQuestion("happy", "joyful", ["joyful", "sad", "hungry"]),
      WordQuestion("fast", "quick", ["quick", "slow", "tall"])
    ],
    [
      WordQuestion("cold", "chilly", ["chilly", "hot", "wet"]),
      WordQuestion("smart", "clever", ["clever", "kind", "tall"]),
      WordQuestion("angry", "mad", ["mad", "happy", "sad"])
    ],
    [
      WordQuestion("slow", "sluggish", ["sluggish", "rapid", "smart"]),
      WordQuestion("fun", "enjoyable", ["enjoyable", "boring", "lazy"]),
      WordQuestion("home", "house", ["house", "street", "yard"])
    ],
    [
      WordQuestion("beautiful", "pretty", ["pretty", "ugly", "round"]),
      WordQuestion("clean", "tidy", ["tidy", "dirty", "boring"]),
      WordQuestion("brave", "courageous", ["courageous", "scared", "lazy"])
    ],
    [
      WordQuestion("climb", "ascend", ["ascend", "descend", "fall"]),
      WordQuestion("cook", "prepare", ["prepare", "eat", "destroy"]),
      WordQuestion("colorful", "vibrant", ["vibrant", "dull", "dark"])
    ]
  ]

  /** `pools[currentDifficulty - 1]`: 3 questions, each offering its right answer once. */
  function Pool(d: int): (p: seq<WordQuestion>)
    requires 1 <= d <= 5
    ensures |p| == 3
    ensures forall i :: 0 <= i < |p| ==> WellFormed(p[i])
  {
    Pools[d - 1]
  }

  /** `rounds = 3 + currentDifficulty`, as written: more rounds than the pool holds at every level. */
  function RoundCountAsWritten(d: int): (n: nat)
    requires 1 <= d <= 5
    ensures n > |Pool(d)|
  {
    3 + d
  }

  /** As written, whatever the random numbers, the pool is empty when the fourth round draws: the game
      throws there and records no session. */
  lemma AsWrittenRunsDry(d: int, rs: seq<real>)
    requires 1 <= d <= 5 && Randoms(rs) && |rs| == RoundCountAsWritten(d)
    ensures DrawAll(Pool(d), rs).None?
  {
    UncappedRoundsRunDry(Pool(d), RoundCountAsWritten(d), rs);
  }

  /** The round count capped by the pool size, as the rhymes and quiz games do: one round per
      question. */
  function RoundCount(d: int): (n: nat)
    requires 1 <= d <= 5
    ensures n == |Pool(d)| && n < RoundCountAsWritten(d)
  {
    CappedRounds(RoundCountAsWritten(d), |Pool(d)|)
  }

  /** With the cap every round draws a question: the game reaches `endGame`. */
  lemma RoundsDraw(d: int, rs: seq<real>)
    requires 1 <= d <= 5 && Randoms(rs) && |rs| == RoundCount(d)
    ensures DrawAll(Pool(d), rs).Some?
  {
    CappedRoundsDraw(Pool(d), RoundCountAsWritten(d), rs);
  }

  /** The component starts, with the round count capped at the pool size as corrected: the difficulty
      is read from this game's history and the first question is drawn. */
  method Launch(svc: Analytics.AnalyticsService, userId: string, startTime: int, r: real) returns (g: PoolGame<WordQuestion>)
    requires LedgerInRange(svc.sessions) && 0.0 <= r < 1.0 && svc.store != svc as object
    modifies svc, svc.store
    ensures fresh(g) && fresh(g.game) && !g.crashed
    ensures var d := StartDifficulty(old(svc.sessions), userId, Subject, GameId, true);
            1 <= d <= 5 && Started(g, userId, Subject, GameId, d, RoundCount(d), startTime, Pool(d), [])
    ensures unchanged(svc) && unchanged(svc.store)
  {
    StartInRange(svc.sessions, userId, Subject, GameId);
    var d := StartDifficulty(svc.sessions, userId, Subject, GameId, true);
    g := Open(svc, userId, Subject, GameId, d, RoundCount(d), startTime, Pool(d), [], r);
  }

  /** The component starts as written, with `3 + currentDifficulty` rounds: after the first draw two
      questions are left while at least three rounds remain, so the later `nextQuestion` calls run the
      pool dry before the end (`PoolQuiz.RunDry`). */
  method LaunchAsWritten(svc: Analytics.AnalyticsService, userId: string, startTime: int, r: real) returns (g: PoolGame<WordQuestion>)
    requires LedgerInRange(svc.sessions) && 0.0 <= r < 1.0 && svc.store != svc as object
    modifies svc, svc.store
    ensures fresh(g) && fresh(g.game) && !g.crashed
    ensures var d := StartDifficulty(old(svc.sessions), userId, Subject, GameId, true);
            1 <= d <= 5 && Started(g, userId, Subject, GameId, d, RoundCountAsWritten(d), startTime, Pool(d), [])
    ensures g.refill == [] && |g.pool| == 2 && g.game.currentRound + |g.pool| < g.game.rounds
    ensures unchanged(svc) && unchanged(svc.store)
  {
    StartInRange(svc.sessions, userId, Subject, GameId);
    var d := StartDifficulty(svc.sessions, userId, Subject, GameId, true);
    g := Open(svc, userId, Subject, GameId, d, RoundCountAsWritten(d), startTime, Pool(d), [], r);
  }
}
