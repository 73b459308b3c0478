/** What every game component shares: the score/attempt tally, the start-up difficulty read from the
    ledger, the session a finished game records, and drawing a question without replacement. */
module Rounds {
  import opened Basics
  import opened Sessions
  import Adaptivity
  import Analytics

  /** `score`, `attempts`, `correctCount` of a running game. */
  datatype Tally = Tally(score: nat, attempts: nat, correct: nat)

  const Fresh := Tally(0, 0, 0)

  /** One judged answer: `score += 10` when right, `score = Math.max(0, score - penalty)` when wrong. */
  function Answer(t: Tally, ok: bool, penalty: nat): (r: Tally)
    ensures r.attempts == t.attempts + 1
    ensures r.correct == t.correct + (if ok then 1 else 0)
    ensures ok ==> r.score == t.score + 10
    ensures !ok ==> r.score <= t.score && r.score >= t.score - penalty
    ensures !ok && t.score < penalty ==> r.score == 0
    ensures !ok && t.score >= penalty ==> r.score == t.score - penalty
  {
    if ok then Tally(t.score + 10, t.attempts + 1, t.correct + 1)
    else Tally(Max(0, t.score - penalty), t.attempts + 1, t.correct)
  }

  /** No more right answers than attempts, and no more points than ten per right answer. */
  predicate Consistent(t: Tally) {
    t.correct <= t.attempts && t.score <= 10 * t.correct
  }

  /** `attempts ? correctCount / attempts : 0`. */
  function Accuracy(t: Tally): (a: real)
    ensures t.attempts == 0 ==> a == 0.0
    ensures Consistent(t) ==> 0.0 <= a <= 1.0
    ensures t.attempts > 0 ==> (a == 1.0 <==> t.correct == t.attempts)
  {
    if t.attempts == 0 then 0.0 else t.correct as real / t.attempts as real
  }

  /** The tally after a run of judged answers, oldest first. */
  function Play(t: Tally, oks: seq<bool>, penalty: nat): Tally
    decreases |oks|
  {
    if oks == [] then t else Play(Answer(t, oks[0], penalty), oks[1..], penalty)
  }

  function CountTrue(oks: seq<bool>): nat {
    if oks == [] then 0 else (if oks[0] then 1 else 0) + CountTrue(oks[1..])
  }

  /** Every run of answers keeps a consistent tally consistent: the attempts grow by the answers and the
      right answers by the right ones. */
  lemma {:induction false} PlayCounts(t: Tally, oks: seq<bool>, penalty: nat)
    requires Consistent(t)
    decreases |oks|
    ensures var r := Play(t, oks, penalty);
            Consistent(r) && r.attempts == t.attempts + |oks| && r.correct == t.correct + CountTrue(oks)
  {
    if oks != [] {
      PlayCounts(Answer(t, oks[0], penalty), oks[1..], penalty);
    }
  }

  /** A run of answers gains at least ten points per right answer less the penalty per wrong one. */
  lemma {:induction false} PlayScore(t: Tally, oks: seq<bool>, penalty: nat)
    decreases |oks|
    ensures Play(t, oks, penalty).score - t.score >= 10 * CountTrue(oks) - penalty * (|oks| - CountTrue(oks))
  {
    if oks != [] {
      var t' := Answer(t, oks[0], penalty);
      PlayScore(t', oks[1..], penalty);
      CountTrueBound(oks[1..]);
      var w := |oks[1..]| - CountTrue(oks[1..]);
      if !oks[0] {
        assert penalty * (w + 1) == penalty * w + penalty;
      }
    }
  }

  lemma {:induction false} CountTrueBound(oks: seq<bool>)
    ensures CountTrue(oks) <= |oks|
  {
    if oks != [] {
      CountTrueBound(oks[1..]);
    }
  }

  /** `difficulty || 1`. */
  function OrOne(d: int): (r: int)
    ensures r != 0
    ensures d != 0 ==> r == d
  {
    if d == 0 then 1 else d
  }

  /** `recent.slice(-3)`: the last three sessions, or all when there are fewer. */
  function LastThree(ss: seq<Session>): (r: seq<Session>)
    ensures |r| == Min(3, |ss|)
    ensures r == ss[|ss| - |r|..]
  {
    if |ss| <= 3 then ss else ss[|ss| - 3..]
  }

  /** `.filter(s => s.gameId === gameId)`. */
  function ByGame(ss: seq<Session>, gameId: string): (r: seq<Session>)
    ensures |r| <= |ss|
    ensures forall s :: s in r <==> s in ss && s.gameId == gameId
  {
    if ss == [] then []
    else (if ss[0].gameId == gameId then [ss[0]] else []) + ByGame(ss[1..], gameId)
  }

  /** The sessions a game adapts to: this user's, in this subject, of this game. */
  function History(ledger: seq<Session>, userId: string, subject: string, gameId: string): seq<Session> {
    ByGame(Analytics.Filter(ledger, Some(userId), Some(subject)), gameId)
  }

  /** The start-up difficulty: 1 without history, else the adaptivity rule applied to the last three
      sessions from the last one's difficulty (`|| 1`). Every game but the falling one then caps it at 5. */
  function StartDifficulty(ledger: seq<Session>, userId: string, subject: string, gameId: string, cap: bool): (d: int)
    ensures History(ledger, userId, subject, gameId) == [] ==> d == 1
  {
    var recent := History(ledger, userId, subject, gameId);
    var d0 := if recent == [] then 1
              else Adaptivity.New(None).CalculateDifficulty(LastThree(recent), OrOne(recent[|recent| - 1].difficulty));
    if cap then Min(d0, 5) else d0
  }

  /** Every session in the ledger was recorded at a difficulty from 1 to 5. */
  ghost predicate LedgerInRange(ledger: seq<Session>) {
    forall i :: 0 <= i < |ledger| ==> 1 <= ledger[i].difficulty <= 5
  }

  /** Over a ledger of in-range difficulties every game starts at a difficulty from 1 to 5, and the cap
      on 5 changes nothing. */
  lemma StartInRange(ledger: seq<Session>, userId: string, subject: string, gameId: string)
    requires LedgerInRange(ledger)
    ensures 1 <= StartDifficulty(ledger, userId, subject, gameId, true) <= 5
    ensures StartDifficulty(ledger, userId, subject, gameId, true) == StartDifficulty(ledger, userId, subject, gameId, false)
  {
    var recent := History(ledger, userId, subject, gameId);
    if recent != [] {
      var last := recent[|recent| - 1];
      assert last in recent;
      assert last in ledger;
      var i :| 0 <= i < |ledger| && ledger[i] == last;
      assert 1 <= OrOne(last.difficulty) <= 5;
    }
  }

  /** Recording a session at a start difficulty keeps the ledger in range, so the next game's start
      difficulty is in range too. */
  lemma RecordKeepsRange(ledger: seq<Session>, s: Session)
    requires LedgerInRange(ledger) && 1 <= s.difficulty <= 5
    ensures LedgerInRange(ledger + [s])
  {
    assert forall i :: 0 <= i < |ledger| ==> (ledger + [s])[i] == ledger[i];
  }

  /** The session object passed to `recordSession` when a game ends. */
  function SessionOf(userId: string, subject: string, gameId: string, startTime: int, endTime: int,
                     t: Tally, difficulty: int): Session
  {
    Session(userId, subject, gameId, startTime, endTime, t.score, Accuracy(t), difficulty, 0)
  }

  /** A drawn question and the pool left behind. */
  datatype Drawn<Q> = Drawn(question: Q, rest: seq<Q>)

  /** `pool.splice(Math.floor(Math.random() * pool.length), 1)[0]`: nothing (JavaScript's `undefined`)
      from an empty pool. */
  function Draw<Q>(pool: seq<Q>, r: real): (d: Option<Drawn<Q>>)
    requires 0.0 <= r < 1.0
    ensures d.None? <==> pool == []
    ensures d.Some? ==> |d.value.rest| == |pool| - 1 &&
                        multiset(d.value.rest) + multiset{d.value.question} == multiset(pool)
  {
    if pool == [] then None
    else
      var i := Pick(r, |pool|);
      assert pool == pool[..i] + [pool[i]] + pool[i + 1..];
      Some(Drawn(pool[i], pool[..i] + pool[i + 1..]))
  }

  /** Drawing once per random number: the questions drawn, or nothing once the pool ran dry. */
  function DrawAll<Q>(pool: seq<Q>, rs: seq<real>): Option<seq<Q>>
    requires Randoms(rs)
  {
    if rs == [] then Some([])
    else match Draw(pool, rs[0])
      case None => None
      case Some(d) =>
        match DrawAll(d.rest, rs[1..])
        case None => None
        case Some(qs) => Some([d.question] + qs)
  }

  /** Drawing k questions without replacement succeeds exactly when the pool holds at least k, and then
      draws no question more often than the pool holds it. */
  lemma {:induction false} DrawAllSucceeds<Q>(pool: seq<Q>, rs: seq<real>)
    requires Randoms(rs)
    ensures DrawAll(pool, rs).Some? <==> |rs| <= |pool|
    ensures DrawAll(pool, rs).Some? ==> multiset(DrawAll(pool, rs).value) <= multiset(pool)
  {
    if rs != [] && pool != [] {
      var d := Draw(pool, rs[0]).value;
      DrawAllSucceeds(d.rest, rs[1..]);
    }
  }

  /** The round bookkeeping of a question-per-round game. Timers become counted callbacks: an answer
      schedules `nextQuestion`, and the environment fires the scheduled callbacks one at a time. */
  class RoundGame<Q> {
    const userId: string
    const subject: string
    const gameId: string
    const difficulty: int
    const rounds: nat
    const startTime: int
    var currentRound: nat
    var tally: Tally
    /** The question whose buttons are on screen, if any. */
    var question: Option<Q>
    /** `setTimeout(nextQuestion, …)` callbacks not yet fired. */
    var scheduled: nat
    /** Sessions this game recorded (`endGame` runs). */
    var recorded: nat

    ghost predicate Valid()
      reads this
    {
      Consistent(tally) && currentRound <= rounds
    }

    constructor(userId: string, subject: string, gameId: string, difficulty: int, rounds: nat, startTime: int)
      ensures this.userId == userId && this.subject == subject && this.gameId == gameId
      ensures this.difficulty == difficulty && this.rounds == rounds && this.startTime == startTime
      ensures currentRound == 0 && tally == Fresh && question == None && scheduled == 0 && recorded == 0
      ensures Valid()
    {
      this.userId := userId;
      this.subject := subject;
      this.gameId := gameId;
      this.difficulty := difficulty;
      this.rounds := rounds;
      this.startTime := startTime;
      currentRound := 0;
      tally := Fresh;
      question := None;
      scheduled := 0;
      recorded := 0;
    }

    predicate Over()
      reads this
    {
      currentRound >= rounds
    }

    /** `currentRound++` and show the next question. */
    method Advance(q: Option<Q>)
      requires Valid() && !Over()
      modifies this
      ensures Valid()
      ensures currentRound == old(currentRound) + 1 && question == q
      ensures tally == old(tally) && scheduled == old(scheduled) && recorded == old(recorded)
    {
      currentRound := currentRound + 1;
      question := q;
    }

    /** A button press judged `ok`: the tally moves and `nextQuestion` is scheduled. */
    method Judge(ok: bool, penalty: nat)
      requires Valid()
      modifies this
      ensures Valid()
      ensures tally == Answer(old(tally), ok, penalty) && scheduled == old(scheduled) + 1
      ensures currentRound == old(currentRound) && question == old(question) && recorded == old(recorded)
    {
      tally := Answer(tally, ok, penalty);
      scheduled := scheduled + 1;
    }

    /** Take one scheduled callback, if any is pending. */
    method Fire() returns (fired: bool)
      modifies this
      ensures fired <==> old(scheduled) > 0
      ensures scheduled == if fired then old(scheduled) - 1 else old(scheduled)
      ensures tally == old(tally) && currentRound == old(currentRound) && question == old(question)
      ensures recorded == old(recorded)
    {
      fired := scheduled > 0;
      if fired {
        scheduled := scheduled - 1;
      }
    }

    /** `nextQuestion` of a game that makes up its questions: end the game once every round was played,
        else start the next round showing `q` (nothing when making it up got stuck). */
    method Next(svc: Analytics.AnalyticsService, q: Option<Q>, endTime: int, clear: bool)
      requires Valid()
      modifies this, svc, svc.store
      ensures Valid()
      ensures old(Over()) ==>
                svc.sessions == old(svc.sessions) + [SessionOf(userId, subject, gameId, startTime, endTime, tally, difficulty)] &&
                recorded == old(recorded) + 1 && currentRound == old(currentRound) &&
                question == (if clear then None else old(question))
      ensures !old(Over()) ==>
                unchanged(svc) && unchanged(svc.store) &&
                recorded == old(recorded) && currentRound == old(currentRound) + 1 && question == q
      ensures tally == old(tally) && scheduled == old(scheduled)
    {
      if Over() {
        End(svc, endTime, clear);
      } else {
        Advance(q);
      }
    }

    /** `endGame`: the session is recorded; `clear` says whether the game also removes its buttons. */
    method End(svc: Analytics.AnalyticsService, endTime: int, clear: bool)
      requires Valid()
      modifies this, svc, svc.store
      ensures Valid()
      ensures svc.sessions == old(svc.sessions) + [SessionOf(userId, subject, gameId, startTime, endTime, tally, difficulty)]
      ensures svc.Valid()
      ensures recorded == old(recorded) + 1
      ensures question == (if clear then None else old(question))
      ensures tally == old(tally) && currentRound == old(currentRound) && scheduled == old(scheduled)
    {
      svc.RecordSession(SessionOf(userId, subject, gameId, startTime, endTime, tally, difficulty));
      recorded := recorded + 1;
      if clear {
        question := None;
      }
    }
  }
}
