/** The science quiz: say whether a statement is true. */
module ScienceQuiz {
  import opened Basics
  import opened Rounds
  import opened PoolQuiz
  import Analytics

  const Subject := "science"
  const GameId := "science-quiz"

  /** `pools`, easiest level first. */
  const Pools: seq<seq<Statement>> := [
    [
      Statement("The Earth revolves around the Sun.", true),
      Statement("Humans have 100 bones in their bodies.", false),
      Statement("Plants make food via photosynthesis.", true),
      Statement("Fish breathe underwater with lungs.", false),
      Statement("The sun is a star.", true)
    ],
    [
      Statement("Water freezes at 0\U{B0}C.", true),
      Statement("Jupiter is a gas giant.", true),
      Statement("Sound travels faster than light.", false),
      Statement("Whales are mammals.", true),
      Statement("Venus is the closest planet to the Sun.", false)
    ],
    [
      Statement("The human heart has four chambers.", true),
      Statement("Saturn has more than 20 moons.", true),
      Statement("The smallest bone in the human body is in the ear.", true),
      Statement("Electrons are found inside the nucleus.", false),
      Statement("Photosynthesis occurs in mitochondria.", false)
    ],
    [
      Statement("DNA stands for Deoxyribonucleic Acid.", true),
      Statement("The speed of light is about 300,000 km/s.", true),
      Statement("All bacteria cause disease.", false),
      Statement("The chemical symbol for sodium is Na.", true),
      Statement("Spiders have six legs.", false)
    ],
    [
      Statement("The second law of thermodynamics says entropy of a closed system always decreases.", false),
      Statement("Energy cannot be created or destroyed.", true),
      Statement("The densest planet in the solar system is Earth.", true),
      Statement("The pH of neutral water is 7.", true),
      Statement("Sound cannot travel in a vacuum.", true)
    ]
  ]

  /** `pools[currentDifficulty - 1]`: 5 questions. */
  function Pool(d: int): (p: seq<Statement>)
    requires 1 <= d <= 5
    ensures |p| == 5
  {
    Pools[d - 1]
  }

  /** `Math.min(4 + currentDifficulty, questionPool.length)`: five rounds at every level, one per statement. */
  function RoundCount(d: int): (n: nat)
    requires 1 <= d <= 5
    ensures n == |Pool(d)|
  {
    CappedRounds(4 + d, |Pool(d)|)
  }

  /** Every round of a game draws a question: the game reaches `endGame`. */
  lemma RoundsDraw(d: int, rs: seq<real>)
    requires 1 <= d <= 5 && Randoms(rs) && |rs| == RoundCount(d)
    ensures DrawAll(Pool(d), rs).Some?
  {
    DrawAllSucceeds(Pool(d), rs);
  }

  /** The component starts: the difficulty is read from this game's history and the first question is
      drawn. */
  method Launch(svc: Analytics.AnalyticsService, userId: string, startTime: int, r: real) returns (g: PoolGame<Statement>)
    requires LedgerInRange(svc.sessions) && 0.0 <= r < 1.0 && svc.store != svc as object
    modifies svc, svc.store
    ensures fresh(g) && fresh(g.game) && !g.crashed
    ensures var d := StartDifficulty(old(svc.sessions), userId, Subject, GameId, true);
            1 <= d <= 5 && Started(g, userId, Subject, GameId, d, RoundCount(d), startTime, Pool(d), [])
    ensures unchanged(svc) && unchanged(svc.store)
  {
    StartInRange(svc.sessions, userId, Subject, GameId);
    var d := StartDifficulty(svc.sessions, userId, Subject, GameId, true);
    g := Open(svc, userId, Subject, GameId, d, RoundCount(d), startTime, Pool(d), [], r);
  }
}
