/** The number-pattern game: pick the number that continues a sequence. */
module MathPattern {
  import opened Basics
  import opened Rounds
  import opened PoolQuiz
  import Keycap
  import Analytics

  const Subject := "math"
  const GameId := "math-pattern"

  /** A sequence shown, the number that continues it, and the wrong numbers offered beside it. */
  datatype Pattern = Pattern(terms: seq<int>, next: int, distractors: seq<int>)

  /** `pools`, easiest level first. */
  const Pools: seq<seq<Pattern>> := [
    [
      Pattern([2, 4, 6, 8], 10, [12, 14, 16]),
      Pattern([1, 3, 5, 7], 9, [10, 11, 8]),
      Pattern([5, 10, 15, 20], 25, [30, 35, 40])
    ],
    [
      Pattern([3, 6, 9, 12], 15, [18, 20, 14]),
      Pattern([4, 8, 12, 16], 20, [24, 22, 18]),
      Pattern([1, 4, 7, 10], 13, [15, 12, 11])
    ],
    [
      Pattern([2, 4, 8, 16], 32, [20, 24, 28]),
      Pattern([1, 1, 2, 3], 5, [4, 6, 8]),
      Pattern([9, 7, 5, 3], 1, [0, -1, 2])
    ],
    [
      Pattern([10, 20, 30, 40], 50, [60, 55, 45]),
      Pattern([2, 5, 10, 17], 26, [24, 30, 20]),
      Pattern([6, 12, 24, 48], 96, [72, 84, 90])
    ],
    [
      Pattern([5, 10, 20, 40], 80, [70, 100, 120]),
      Pattern([3, 9, 27, 81], 243, [162, 200, 300]),
      Pattern([2, 3, 5, 8], 13, [10, 15, 18])
    ]
  ]

  /** No distractor is the answer, and none is offered twice. */
  predicate FairPattern(q: Pattern) {
    q.next !in q.distractors && Distinct(q.distractors)
  }

  /** `pools[currentDifficulty - 1]`: three fair patterns at every level. */
  function Pool(d: int): (p: seq<Pattern>)
    requires 1 <= d <= 5
    ensures |p| == 3
    ensures forall i :: 0 <= i < |p| ==> FairPattern(p[i])
  {
    Pools[d - 1]
  }

  /** `new Set([next])` with every distractor added: the buttons, the answer first. */
  function Options(q: Pattern): (opts: seq<int>)
    ensures |opts| >= 1 && opts[0] == q.next && Distinct(opts)
    ensures forall i :: 0 <= i < |q.distractors| ==> q.distractors[i] in opts
    ensures forall i :: 1 <= i < |opts| ==> opts[i] in q.distractors
  {
    var xs := [q.next] + q.distractors;
    assert forall i :: 0 <= i < |q.distractors| ==> q.distractors[i] == xs[i + 1];
    Dedup(xs)
  }

  /** A fair pattern shows its answer and every distractor, each once: exactly one button scores. */
  lemma FairOptions(q: Pattern)
    requires FairPattern(q)
    ensures Options(q) == [q.next] + q.distractors
    ensures forall i :: 1 <= i < |Options(q)| ==> Options(q)[i] != q.next
  {
    assert Distinct([q.next] + q.distractors) by {
      forall i, j | 0 <= i < j < |[q.next] + q.distractors|
        ensures ([q.next] + q.distractors)[i] != ([q.next] + q.distractors)[j]
      {
        if i == 0 {
          assert ([q.next] + q.distractors)[j] == q.distractors[j - 1];
        }
      }
    }
    DedupDistinct([q.next] + q.distractors);
  }

  /** Buttons of different numbers carry different keycap labels, and each label reads back as its
      number. */
  lemma LabelsDistinct(q: Pattern, i: nat, j: nat)
    requires i < |Options(q)| && j < |Options(q)| && i != j
    ensures Keycap.Signed(Options(q)[i]) != Keycap.Signed(Options(q)[j])
    ensures Keycap.Decode(Keycap.Signed(Options(q)[i])) == Some(Options(q)[i])
  {
    Keycap.SignedRoundTrip(Options(q)[i]);
    Keycap.SignedRoundTrip(Options(q)[j]);
  }

  /** `rounds = 3 + currentDifficulty`: more rounds than a pool holds, which the refill covers. */
  function RoundCount(d: int): (n: nat)
    requires 1 <= d <= 5
    ensures n > |Pool(d)|
  {
    3 + d
  }

  /** The component starts; the pool is refilled from the level's pool when it runs empty
      (`generatePattern`), so no round finds it empty. */
  method Launch(svc: Analytics.AnalyticsService, userId: string, startTime: int, r: real) returns (g: PoolGame<Pattern>)
    requires LedgerInRange(svc.sessions) && 0.0 <= r < 1.0 && svc.store != svc as object
    modifies svc, svc.store
    ensures fresh(g) && fresh(g.game) && !g.crashed && g.refill != []
    ensures var d := StartDifficulty(old(svc.sessions), userId, Subject, GameId, true);
            1 <= d <= 5 && Started(g, userId, Subject, GameId, d, RoundCount(d), startTime, Pool(d), Pool(d))
    ensures unchanged(svc) && unchanged(svc.store)
  {
    StartInRange(svc.sessions, userId, Subject, GameId);
    var d := StartDifficulty(svc.sessions, userId, Subject, GameId, true);
    g := Open(svc, userId, Subject, GameId, d, RoundCount(d), startTime, Pool(d), Pool(d), r);
  }

  /** A scheduled `nextQuestion` of the pattern game never gets stuck: with the refill there is always a
      pattern to draw. */
  method Tick(g: PoolGame<Pattern>, svc: Analytics.AnalyticsService, r: real, endTime: int)
    requires g.Valid() && !g.crashed && g.refill != [] && 0.0 <= r < 1.0 && svc.store != svc as object
    modifies g, g.game, svc, svc.store
    ensures g.Valid() && !g.crashed
    ensures g.game.scheduled == if old(g.game.scheduled) > 0 then old(g.game.scheduled) - 1 else 0
  {
    g.Tick(svc, r, endTime);
  }

  /** A click on one of the numbers: right when it continues the sequence. */
  method Choose(g: PoolGame<Pattern>, num: int)
    requires g.Valid() && g.game.question.Some? && num in Options(g.game.question.value)
    modifies g.game
    ensures g.Valid()
    ensures g.game.tally == Answer(old(g.game.tally), num == old(g.game.question).value.next, 5)
    ensures g.game.scheduled == old(g.game.scheduled) + 1
    ensures g.game.question == old(g.game.question) && g.game.currentRound == old(g.game.currentRound)
  {
    g.game.Judge(num == g.game.question.value.next, 5);
  }
}
