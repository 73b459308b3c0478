/** The rhyming-words game: pick the option that rhymes with the base word. */
module EnglishRhymes {
  import opened Basics
  import opened Rounds
  import opened PoolQuiz
  import Analytics

  const Subject := "english"
  const GameId := "english-rhymes"

  /** `pools`, easiest level first. */
  const Pools: seq<seq<WordQuestion>> := [
    [
      WordQuestion("cat", "bat", ["bat", "dog", "sun"]),
      WordQuestion("sun", "fun", ["fun", "fish", "tree"]),
      WordQuestion("tree", "bee", ["bee", "dog", "ball"])
    ],
    [
      WordQuestion("dog", "frog", ["frog", "book", "chair"]),
      WordQuestion("hat", "cat", ["cat", "pen", "ship"]),
      WordQuestion("cake", "snake", ["snake", "chair", "leaf"])
    ],
    [
      WordQuestion("fish", "dish", ["dish", "bird", "house"]),
      WordQuestion("car", "star", ["star", "tree", "chair"]),
      WordQuestion("frog", "dog", ["dog", "book", "sun"])
    ],
    [
      WordQuestion("horse", "course", ["course", "planet", "chair"]),
      WordQuestion("cheese", "please", ["please", "plant", "chair"]),
      WordQuestion("bird", "word", ["word", "fish", "tree"])
    ],
    [
      WordQuestion("turtle", "hurdle", ["hurdle", "apple", "fish"]),
      WordQuestion("moon", "spoon", ["spoon", "plant", "chair"]),
      WordQuestion("chocolate", "late", ["late", "tree", "frog"])
    ]
  ]

  /** `pools[currentDifficulty - 1]`: 3 questions, each offering its right answer once. */
  function Pool(d: int): (p: seq<WordQuestion>)
    requires 1 <= d <= 5
    ensures |p| == 3
    ensures forall i :: 0 <= i < |p| ==> WellFormed(p[i])
  {
    Pools[d - 1]
  }

  /** `Math.min(3 + currentDifficulty, questions.length)`: three rounds, one per question of the level. */
  function RoundCount(d: int): (n: nat)
    requires 1 <= d <= 5
    ensures n == |Pool(d)|
  {
    CappedRounds(3 + d, |Pool(d)|)
  }

  /** Every round of a game draws a question: the game reaches `endGame`. */
  lemma RoundsDraw(d: int, rs: seq<real>)
    requires 1 <= d <= 5 && Randoms(rs) && |rs| == RoundCount(d)
    ensures DrawAll(Pool(d), rs).Some?
  {
    CappedRoundsDraw(Pool(d), 3 + d, rs);
  }

  /** The component starts: the difficulty is read from this game's history and the first question is
      drawn. */
  method Launch(svc: Analytics.AnalyticsService, userId: string, startTime: int, r: real) returns (g: PoolGame<WordQuestion>)
    requires LedgerInRange(svc.sessions) && 0.0 <= r < 1.0 && svc.store != svc as object
    modifies svc, svc.store
    ensures fresh(g) && fresh(g.game) && !g.crashed
    ensures var d := StartDifficulty(old(svc.sessions), userId, Subject, GameId, true);
            1 <= d <= 5 && Started(g, userId, Subject, GameId, d, RoundCount(d), startTime, Pool(d), [])
    ensures unchanged(svc) && unchanged(svc.store)
  {
    StartInRange(svc.sessions, userId, Subject, GameId);
    var d := StartDifficulty(svc.sessions, userId, Subject, GameId, true);
    g := Open(svc, userId, Subject, GameId, d, RoundCount(d), startTime, Pool(d), [], r);
  }
}
