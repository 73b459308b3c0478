/** A round game whose questions are drawn without replacement from a pool (`questions.splice`), as in
    the rhymes, synonyms, antonyms, weather, quiz, body and pattern games. */
module PoolQuiz {
  import opened Basics
  import opened Rounds
  import Analytics

  /** A multiple-choice question: its cue (the base word, or the weather picture), the right option,
      and the options shown as buttons. */
  datatype WordQuestion = WordQuestion(cue: string, correct: string, options: seq<string>)

  /** A true/false statement of the quiz and body games. */
  datatype Statement = Statement(text: string, answer: bool)

  /** A question offers its right answer, and no option twice: exactly one button scores. */
  predicate WellFormed(q: WordQuestion) {
    q.correct in q.options && Distinct(q.options)
  }

  class PoolGame<Q> {
    const game: RoundGame<Q>
    /** The questions not yet asked. */
    var pool: seq<Q>
    /** What an empty pool is refilled with before drawing: the full pool in the pattern game,
        nothing in the others. */
    const refill: seq<Q>
    /** Set when `nextQuestion` threw on the `undefined` an empty pool yields; the game then stops. */
    var crashed: bool

    ghost predicate Valid()
      reads this, game
    {
      game.Valid()
    }

    constructor(game: RoundGame<Q>, pool: seq<Q>, refill: seq<Q>)
      requires game.Valid()
      ensures this.game == game && this.pool == pool && this.refill == refill && !crashed
      ensures Valid()
    {
      this.game := game;
      this.pool := pool;
      this.refill := refill;
      crashed := false;
    }

    /** `nextQuestion`: end the game once every round was played; otherwise start the next round with a
        question drawn from the pool (refilled first when empty). Drawing from an empty pool gives
        `undefined`, whose use throws: the round counter has moved and the game is stuck. */
    method NextQuestion(svc: Analytics.AnalyticsService, r: real, endTime: int)
      requires Valid() && !crashed && 0.0 <= r < 1.0
      requires svc.store != svc as object
      modifies this, game, svc, svc.store
      ensures Valid()
      ensures old(game.Over()) ==>
                svc.sessions == old(svc.sessions) +
                  [SessionOf(game.userId, game.subject, game.gameId, game.startTime, endTime, game.tally, game.difficulty)] &&
                game.recorded == old(game.recorded) + 1 && game.question == None &&
                pool == old(pool) && !crashed
      ensures !old(game.Over()) ==>
                var from := if old(pool) == [] then refill else old(pool);
                svc.sessions == old(svc.sessions) && game.recorded == old(game.recorded) &&
                game.currentRound == old(game.currentRound) + 1 &&
                (crashed <==> from == []) &&
                (match Draw(from, r)
                 case None => game.question == None && pool == []
                 case Some(d) => game.question == Some(d.question) && pool == d.rest)
      ensures !old(game.Over()) ==> unchanged(svc) && unchanged(svc.store)
      ensures game.tally == old(game.tally) && game.scheduled == old(game.scheduled)
      ensures refill != [] ==> !crashed
    {
      if game.Over() {
        game.End(svc, endTime, true);
        return;
      }
      if pool == [] {
        pool := refill;
      }
      var d := Draw(pool, r);
      match d
      case None =>
        game.Advance(None);
        crashed := true;
      case Some(dr) =>
        pool := dr.rest;
        game.Advance(Some(dr.question));
    }

    /** A scheduled `nextQuestion` fires. */
    method Tick(svc: Analytics.AnalyticsService, r: real, endTime: int)
      requires Valid() && !crashed && 0.0 <= r < 1.0
      requires svc.store != svc as object
      modifies this, game, svc, svc.store
      ensures Valid()
      ensures game.scheduled == if old(game.scheduled) > 0 then old(game.scheduled) - 1 else 0
      ensures refill != [] ==> !crashed
      ensures old(game.scheduled) == 0 ==>
                svc.sessions == old(svc.sessions) && pool == old(pool) && game.currentRound == old(game.currentRound)
    {
      var fired := game.Fire();
      if fired {
        NextQuestion(svc, r, endTime);
      }
    }
  }

  /** The state right after a pool game's first `nextQuestion`: nothing scored or scheduled, round 1
      showing a question drawn from the pool (or its refill when the pool is empty). */
  ghost predicate Started<Q>(g: PoolGame<Q>, userId: string, subject: string, gameId: string, difficulty: int,
                             rounds: nat, startTime: int, pool: seq<Q>, refill: seq<Q>)
    reads g, g.game
  {
    var from := if pool == [] then refill else pool;
    g.Valid() &&
    g.game.userId == userId && g.game.subject == subject && g.game.gameId == gameId &&
    g.game.difficulty == difficulty && g.game.rounds == rounds && g.game.startTime == startTime &&
    g.game.currentRound == 1 && g.game.tally == Fresh && g.game.scheduled == 0 && g.game.recorded == 0 &&
    g.refill == refill && (g.crashed <==> from == []) &&
    (from != [] ==> g.game.question.Some? && g.game.question.value in from &&
                    multiset(g.pool) + multiset{g.game.question.value} == multiset(from))
  }

  /** Set up a pool game and run its first `nextQuestion`. */
  method Open<Q>(svc: Analytics.AnalyticsService, userId: string, subject: string, gameId: string, difficulty: int,
                 rounds: nat, startTime: int, pool: seq<Q>, refill: seq<Q>, r: real) returns (g: PoolGame<Q>)
    requires rounds > 0 && 0.0 <= r < 1.0 && svc.store != svc as object
    modifies svc, svc.store
    ensures fresh(g) && fresh(g.game)
    ensures Started(g, userId, subject, gameId, difficulty, rounds, startTime, pool, refill)
    ensures pool != [] ==> |g.pool| == |pool| - 1
    ensures unchanged(svc) && unchanged(svc.store)
  {
    var game := new RoundGame<Q>(userId, subject, gameId, difficulty, rounds, startTime);
    g := new PoolGame<Q>(game, pool, refill);
    g.NextQuestion(svc, r, 0);
    var from := if pool == [] then refill else pool;
    match Draw(from, r)
    case None =>
    case Some(d) =>
      assert g.game.question.value in multiset(from);
      assert |multiset(g.pool)| + 1 == |multiset(from)|;
  }

  /** A pool that is never refilled, with more rounds still to play than questions left: the later
      `nextQuestion` calls run it dry before the last round. The call after the last question is drawn
      finds the pool empty, so the game throws there and records no session. The answers given in
      between change only the tally, so this holds whatever the player does. */
  method RunDry<Q>(g: PoolGame<Q>, svc: Analytics.AnalyticsService, rs: seq<real>, endTime: int)
    requires g.Valid() && !g.crashed && g.refill == [] && Randoms(rs) && |rs| == |g.pool| + 1
    requires g.game.currentRound + |g.pool| < g.game.rounds
    requires svc.store != svc as object
    modifies g, g.game, svc, svc.store
    ensures g.crashed && g.pool == [] && g.game.question == None
    ensures svc.sessions == old(svc.sessions) && g.game.recorded == old(g.game.recorded)
  {
    var n := |g.pool|;
    var i := 0;
    while i <= n
      invariant 0 <= i <= n + 1 && |rs| == n + 1
      invariant g.Valid() && g.refill == [] && svc.store != svc as object
      invariant i <= n ==> !g.crashed && |g.pool| == n - i && g.game.currentRound == old(g.game.currentRound) + i
      invariant i == n + 1 ==> g.crashed && g.pool == [] && g.game.question == None
      invariant svc.sessions == old(svc.sessions) && g.game.recorded == old(g.game.recorded)
    {
      g.NextQuestion(svc, rs[i], endTime);
      i := i + 1;
    }
  }

  /** A click on one of the options shown: right when it is the question's answer. */
  method ChooseOption(g: PoolGame<WordQuestion>, choice: string)
    requires g.Valid() && g.game.question.Some? && choice in g.game.question.value.options
    modifies g.game
    ensures g.Valid()
    ensures g.game.tally == Answer(old(g.game.tally), choice == old(g.game.question).value.correct, 5)
    ensures g.game.scheduled == old(g.game.scheduled) + 1
    ensures g.game.question == old(g.game.question) && g.game.currentRound == old(g.game.currentRound)
    ensures g.game.recorded == old(g.game.recorded)
  {
    g.game.Judge(choice == g.game.question.value.correct, 5);
  }

  /** A click on True or False: right when it agrees with the statement. */
  method ChooseTruth(g: PoolGame<Statement>, answer: bool)
    requires g.Valid() && g.game.question.Some?
    modifies g.game
    ensures g.Valid()
    ensures g.game.tally == Answer(old(g.game.tally), answer == old(g.game.question).value.answer, 5)
    ensures g.game.scheduled == old(g.game.scheduled) + 1
    ensures g.game.question == old(g.game.question) && g.game.currentRound == old(g.game.currentRound)
    ensures g.game.recorded == old(g.game.recorded)
  {
    g.game.Judge(answer == g.game.question.value.answer, 5);
  }

  /** Rounds a game can play to the end from a pool without refill: the cap `Math.min(rounds, pool.length)`
      the rhymes and quiz games apply. */
  function CappedRounds(wanted: nat, poolSize: nat): (rounds: nat)
    ensures rounds <= poolSize && rounds <= wanted
    ensures rounds == wanted || rounds == poolSize
  {
    Min(wanted, poolSize)
  }

  /** With the cap, every round draws a question: the game reaches its end. */
  lemma CappedRoundsDraw<Q>(pool: seq<Q>, wanted: nat, rs: seq<real>)
    requires Randoms(rs) && |rs| == CappedRounds(wanted, |pool|)
    ensures DrawAll(pool, rs).Some?
  {
    DrawAllSucceeds(pool, rs);
  }

  /** Without it, a game that wants more rounds than its pool holds runs dry before its end. */
  lemma UncappedRoundsRunDry<Q>(pool: seq<Q>, wanted: nat, rs: seq<real>)
    requires Randoms(rs) && |rs| == wanted && wanted > |pool|
    ensures DrawAll(pool, rs).None?
  {
    DrawAllSucceeds(pool, rs);
  }
}
