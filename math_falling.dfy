/** Number Catch: steer a basket under the falling answer to the sum or difference on display. */
module MathFalling {
  import opened Basics
  import opened Rounds
  import Analytics

  const Subject := "math"
  const GameId := "math-falling"
  /** `timeLeft = 60`: seconds until `endGame`. */
  const Seconds := 60
  /** `score = Math.max(0, score - 5)` on a wrong catch. */
  const Penalty := 5
  /** The basket is 80 pixels wide. */
  const BasketWidth := 80

  /** `{ text: `${a} ${op} ${b}`, answer }`, the text kept as its parts. */
  datatype Question = Question(a: nat, b: nat, plus: bool, answer: int)

  /** `generateQuestion`: operands below `5 + 5 * difficulty`, a sum when the third random number is
      below one half and a difference otherwise. */
  function GenerateQuestion(d: int, ra: real, rb: real, rop: real): (q: Question)
    requires d >= 1 && 0.0 <= ra < 1.0 && 0.0 <= rb < 1.0 && 0.0 <= rop < 1.0
    ensures q.a < 5 + 5 * d && q.b < 5 + 5 * d && (q.plus <==> rop < 0.5)
    ensures q.answer == if q.plus then q.a + q.b else q.a - q.b
    ensures -(4 + 5 * d) <= q.answer <= 2 * (4 + 5 * d)
  {
    var max := 5 + 5 * d;
    var a, b := Pick(ra, max), Pick(rb, max);
    var plus := rop < 0.5;
    Question(a, b, plus, if plus then a + b else a - b)
  }

  /** `question.answer + Math.floor(Math.random() * 5) - 2` for each random number of a stream. */
  function Nearby(answer: int, rs: seq<real>): (cs: seq<int>)
    requires Randoms(rs)
    ensures |cs| == |rs| && forall i :: 0 <= i < |cs| ==> answer - 2 <= cs[i] <= answer + 2
  {
    if rs == [] then [] else [answer + Pick(rs[0], 5) - 2] + Nearby(answer, rs[1..])
  }

  /** `spawnAnswers`' values: the answer followed by the distractors the `while (distractors.length < 2)`
      loop keeps, each new and different from the answer. `done` is false when the random numbers ran out
      first. */
  method SpawnValues(answer: int, rs: seq<real>) returns (values: seq<int>, done: bool)
    requires Randoms(rs)
    ensures |values| >= 1 && values[0] == answer && Distinct(values)
    ensures forall i :: 1 <= i < |values| ==> values[i] != answer && answer - 2 <= values[i] <= answer + 2
    ensures done <==> |values| == 3
  {
    var candidates := Nearby(answer, rs);
    var used;
    values, used, done := FillDistinct([answer], 3, candidates);
    assert values[0] == values[..1][0] == answer;
    forall i | 1 <= i < |values|
      ensures answer - 2 <= values[i] <= answer + 2
    {
      var prefix := candidates[..used];
      assert values[i] in prefix;
    }
  }

  /** A falling answer: its value, whether it is the question's answer (`dataset.correct`), and its
      `top` in pixels. */
  datatype Ball = Ball(value: int, correct: bool, top: int)

  /** `values.forEach(val => createAnswer(val, val === question.answer))`: every answer starts at the
      top. */
  function Lay(values: seq<int>, answer: int): (bs: seq<Ball>)
    ensures |bs| == |values|
    ensures forall i :: 0 <= i < |bs| ==>
              bs[i].value == values[i] && bs[i].top == 0 && (bs[i].correct <==> values[i] == answer)
  {
    if values == [] then [] else [Ball(values[0], values[0] == answer, 0)] + Lay(values[1..], answer)
  }

  /** Every answer in play is marked right exactly when it is the answer to the question on display. */
  predicate Fits(q: Question, bs: seq<Ball>) {
    forall b :: b in bs ==> (b.correct <==> b.value == q.answer)
  }

  /** No two answers of a wave have the same value. */
  predicate Apart(bs: seq<Ball>) {
    forall i, j :: 0 <= i < j < |bs| ==> bs[i].value != bs[j].value
  }

  /** A fresh question and its answers, as `generateQuestion` and `spawnAnswers` lay them out. */
  datatype Wave = Wave(question: Question, balls: seq<Ball>)

  /** A wave as `spawnAnswers` lays it: different values that fit its question, all at the top, the
      right one first. */
  predicate Spawned(w: Wave) {
    Fits(w.question, w.balls) && Apart(w.balls) && |w.balls| >= 1 && w.balls[0].correct &&
    forall i :: 0 <= i < |w.balls| ==> w.balls[i].top == 0
  }

  /** A new question and its answers. `done` is false when the random numbers for the distractors ran
      out first. */
  method NewWave(d: int, ra: real, rb: real, rop: real, rs: seq<real>) returns (w: Wave, done: bool)
    requires d >= 1 && 0.0 <= ra < 1.0 && 0.0 <= rb < 1.0 && 0.0 <= rop < 1.0 && Randoms(rs)
    ensures Spawned(w) && w.question == GenerateQuestion(d, ra, rb, rop)
    ensures done <==> |w.balls| == 3
    ensures forall i :: 1 <= i < |w.balls| ==>
              w.balls[i].value != w.question.answer && w.question.answer - 2 <= w.balls[i].value <= w.question.answer + 2
  {
    var q := GenerateQuestion(d, ra, rb, rop);
    var values;
    values, done := SpawnValues(q.answer, rs);
    var bs := Lay(values, q.answer);
    forall b | b in bs
      ensures b.correct <==> b.value == q.answer
    {
      var i :| 0 <= i < |bs| && bs[i] == b;
    }
    w := Wave(q, bs);
  }

  function CorrectCount(bs: seq<Ball>): nat {
    if bs == [] then 0 else (if bs[0].correct then 1 else 0) + CorrectCount(bs[1..])
  }

  lemma {:induction false} NoneCorrect(bs: seq<Ball>)
    requires forall i :: 0 <= i < |bs| ==> !bs[i].correct
    ensures CorrectCount(bs) == 0
  {
    if bs != [] {
      NoneCorrect(bs[1..]);
    }
  }

  /** Exactly one answer of a spawned wave is right. */
  lemma OneCorrect(w: Wave)
    requires Spawned(w)
    ensures CorrectCount(w.balls) == 1
  {
    var bs := w.balls;
    forall i | 0 <= i < |bs[1..]|
      ensures !bs[1..][i].correct
    {
      assert bs[1..][i] == bs[i + 1] && bs[i + 1] in bs && bs[0] in bs;
    }
    NoneCorrect(bs[1..]);
  }

  /** The frame's view of the game: the question shown, the answers in play and the tally. */
  datatype Frame = Frame(question: Question, balls: seq<Ball>, tally: Tally)

  /** `2 + currentDifficulty` pixels per frame. */
  function Fall(d: int): int {
    2 + d
  }

  /** The backward loop of `dropLoop`: the answers whose `top` is not below the area's height, in order. */
  function InBounds(bs: seq<Ball>, height: int): (r: seq<Ball>)
    ensures |r| <= |bs|
  {
    if bs == [] then []
    else (if bs[0].top > height then [] else [bs[0]]) + InBounds(bs[1..], height)
  }

  /** The answers not caught, each moved down by `fall`, in order: what a frame should leave in play when
      no right answer is caught. */
  function Missed(bs: seq<Ball>, hits: seq<bool>, fall: int): (r: seq<Ball>)
    requires |hits| == |bs|
    ensures |r| <= |bs|
  {
    if bs == [] then []
    else (if hits[0] then [] else [bs[0].(top := bs[0].top + fall)]) + Missed(bs[1..], hits[1..], fall)
  }

  /** Whether a frame catches a right answer. */
  function CaughtRight(bs: seq<Ball>, hits: seq<bool>): bool
    requires |hits| == |bs|
  {
    bs != [] && ((hits[0] && bs[0].correct) || CaughtRight(bs[1..], hits[1..]))
  }

  /** The answers a frame judges, in order: the wrong catches up to and including the first right one. */
  function Catches(bs: seq<Ball>, hits: seq<bool>): seq<bool>
    requires |hits| == |bs|
  {
    if bs == [] then []
    else if !hits[0] then Catches(bs[1..], hits[1..])
    else if bs[0].correct then [true]
    else [false] + Catches(bs[1..], hits[1..])
  }

  /** The move-and-collide pass of `dropLoop`, visiting every answer in play once. `hits[i]` says
      whether answer `i` overlaps the basket after its move. A wrong catch removes the answer; a right
      catch shows the next question and spawns its answers in place of all others. `kept` holds the
      answers already moved. */
  function Settle(kept: seq<Ball>, rest: seq<Ball>, hits: seq<bool>, q: Question, t: Tally, next: Wave,
                  fall: int): Frame
    requires |hits| == |rest|
    decreases |rest|
  {
    if rest == [] then Frame(q, kept, t)
    else if !hits[0] then Settle(kept + [rest[0].(top := rest[0].top + fall)], rest[1..], hits[1..], q, t, next, fall)
    else if rest[0].correct then Frame(next.question, next.balls, Answer(t, true, Penalty))
    else Settle(kept, rest[1..], hits[1..], q, Answer(t, false, Penalty), next, fall)
  }

  /** A frame judges exactly its catches. */
  lemma {:induction false} SettleTally(kept: seq<Ball>, rest: seq<Ball>, hits: seq<bool>, q: Question,
                                        t: Tally, next: Wave, fall: int)
    requires |hits| == |rest|
    decreases |rest|
    ensures Settle(kept, rest, hits, q, t, next, fall).tally == Play(t, Catches(rest, hits), Penalty)
  {
    if rest != [] {
      if !hits[0] {
        SettleTally(kept + [rest[0].(top := rest[0].top + fall)], rest[1..], hits[1..], q, t, next, fall);
      } else if !rest[0].correct {
        SettleTally(kept, rest[1..], hits[1..], q, Answer(t, false, Penalty), next, fall);
        var cs := Catches(rest[1..], hits[1..]);
        assert ([false] + cs)[1..] == cs;
      }
    }
  }

  /** With a right catch the next wave replaces everything. */
  lemma {:induction false} SettleRight(kept: seq<Ball>, rest: seq<Ball>, hits: seq<bool>, q: Question,
                                        t: Tally, next: Wave, fall: int)
    requires |hits| == |rest| && CaughtRight(rest, hits)
    decreases |rest|
    ensures var f := Settle(kept, rest, hits, q, t, next, fall);
            f.question == next.question && f.balls == next.balls
  {
    if !hits[0] {
      SettleRight(kept + [rest[0].(top := rest[0].top + fall)], rest[1..], hits[1..], q, t, next, fall);
    } else if !rest[0].correct {
      SettleRight(kept, rest[1..], hits[1..], q, Answer(t, false, Penalty), next, fall);
    }
  }

  /** Without a right catch every answer not caught stays in play, moved down by `fall`, in order. */
  lemma {:induction false} SettleMissed(kept: seq<Ball>, rest: seq<Ball>, hits: seq<bool>, q: Question,
                                         t: Tally, next: Wave, fall: int)
    requires |hits| == |rest| && !CaughtRight(rest, hits)
    decreases |rest|
    ensures var f := Settle(kept, rest, hits, q, t, next, fall);
            f.question == q && f.balls == kept + Missed(rest, hits, fall)
  {
    if rest == [] {
      assert kept + [] == kept;
    } else if !hits[0] {
      var moved := rest[0].(top := rest[0].top + fall);
      var m := Missed(rest[1..], hits[1..], fall);
      assert Missed(rest, hits, fall) == [moved] + m;
      SettleMissed(kept + [moved], rest[1..], hits[1..], q, t, next, fall);
      assert kept + [moved] + m == kept + ([moved] + m);
    } else {
      assert Missed(rest, hits, fall) == Missed(rest[1..], hits[1..], fall);
      SettleMissed(kept, rest[1..], hits[1..], q, Answer(t, false, Penalty), next, fall);
    }
  }

  lemma {:induction false} MissedFits(q: Question, bs: seq<Ball>, hits: seq<bool>, fall: int)
    requires |hits| == |bs| && Fits(q, bs)
    ensures Fits(q, Missed(bs, hits, fall))
  {
    if bs != [] {
      assert bs[0] in bs;
      assert forall b :: b in bs[1..] ==> b in bs;
      MissedFits(q, bs[1..], hits[1..], fall);
    }
  }

  /** Pruning keeps exactly the answers not below the area, and every one of them still fits its
      question. */
  lemma {:induction false} InBoundsKeeps(q: Question, bs: seq<Ball>, height: int)
    ensures forall b :: b in InBounds(bs, height) <==> b in bs && b.top <= height
    ensures Fits(q, bs) ==> Fits(q, InBounds(bs, height))
  {
    if bs != [] {
      InBoundsKeeps(q, bs[1..], height);
      assert bs == [bs[0]] + bs[1..];
    }
  }

  /** One step of the backward loop: the answer at `i` is dropped or kept in front of the later ones. */
  lemma PruneStep(bs: seq<Ball>, i: nat, height: int)
    requires i < |bs|
    ensures bs[..i] + InBounds(bs[i..], height) ==
            if bs[i].top > height then bs[..i] + InBounds(bs[i + 1..], height)
            else bs[..i + 1] + InBounds(bs[i + 1..], height)
  {
    assert bs[i..] == [bs[i]] + bs[i + 1..];
    assert bs[..i + 1] == bs[..i] + [bs[i]];
  }

  /** After a frame the answers in play still fit the question on display. */
  lemma SettleFits(rest: seq<Ball>, hits: seq<bool>, q: Question, t: Tally, next: Wave, fall: int)
    requires |hits| == |rest| && Fits(q, rest) && Spawned(next)
    ensures var f := Settle([], rest, hits, q, t, next, fall);
            Fits(f.question, f.balls)
  {
    if CaughtRight(rest, hits) {
      SettleRight([], rest, hits, q, t, next, fall);
    } else {
      SettleMissed([], rest, hits, q, t, next, fall);
      MissedFits(q, rest, hits, fall);
      assert [] + Missed(rest, hits, fall) == Missed(rest, hits, fall);
    }
  }

  /** `activeAnswers.forEach(...)` as written: `forEach` visits the indices below the length the array
      had when it started, reading whatever is at each index by then. A catch splices the answer out, so
      the answer after it moves into its index and is skipped in this frame; a right catch spawns the
      next wave, whose answers past the index are then visited too. `waves` are the waves successive
      right catches spawn; when they run out the area is left empty. */
  function SweepAsWritten(f: Frame, hits: seq<bool>, k: nat, waves: seq<Wave>, fall: int): Frame
    decreases |hits| - k
  {
    if k >= |hits| then f
    else if k >= |f.balls| then SweepAsWritten(f, hits, k + 1, waves, fall)
    else
      var b := f.balls[k];
      if !hits[k] then SweepAsWritten(f.(balls := f.balls[k := b.(top := b.top + fall)]), hits, k + 1, waves, fall)
      else
        var t := Answer(f.tally, b.correct, Penalty);
        if !b.correct then
          SweepAsWritten(Frame(f.question, f.balls[..k] + f.balls[k + 1..], t), hits, k + 1, waves, fall)
        else if waves == [] then SweepAsWritten(Frame(f.question, [], t), hits, k + 1, waves, fall)
        else SweepAsWritten(Frame(waves[0].question, waves[0].balls, t), hits, k + 1, waves[1..], fall)
  }

  /** Two answers in play, the first caught wrong: as written the second answer is not moved in that
      frame, although it is not caught. */
  lemma SweepSkipsNext(fall: int)
    requires fall > 0
    ensures var q := Question(1, 1, true, 2);
            var b0, b1 := Ball(3, false, 100), Ball(2, true, 90);
            var f := Frame(q, [b0, b1], Fresh);
            var next := Wave(Question(0, 0, true, 0), [Ball(0, true, 0)]);
            SweepAsWritten(f, [true, false], 0, [next], fall).balls == [b1] &&
            Settle([], [b0, b1], [true, false], q, Fresh, next, fall).balls == [b1.(top := 90 + fall)] &&
            Missed([b0, b1], [true, false], fall) == [b1.(top := 90 + fall)]
  {
    var q := Question(1, 1, true, 2);
    var b0, b1 := Ball(3, false, 100), Ball(2, true, 90);
    var f := Frame(q, [b0, b1], Fresh);
    var t := Answer(Fresh, false, Penalty);
    assert [b0, b1][..0] + [b0, b1][1..] == [b1];
    var next := Wave(Question(0, 0, true, 0), [Ball(0, true, 0)]);
    var b1' := b1.(top := 90 + fall);
    assert [b0, b1][1..] == [b1] && [true, false][1..] == [false];
    assert Settle([], [b1], [false], q, t, next, fall) == Settle([b1'], [], [], q, t, next, fall);
    assert Missed([b1], [false], fall) == [b1'];
    assert SweepAsWritten(f, [true, false], 0, [next], fall) == SweepAsWritten(Frame(q, [b1], t), [true, false], 1, [next], fall);
  }

  /** Arrow keys on the keyboard, anything else ignored. */
  datatype Key = ArrowLeft | ArrowRight | OtherKey

  /** `handleKey`: 20 pixels left, no further than 0, or 20 pixels right, no further than the area's
      width less the basket's. */
  function KeyMove(x: real, k: Key, width: int): (r: real)
    ensures width >= BasketWidth && 0.0 <= x <= (width - BasketWidth) as real ==>
              0.0 <= r <= (width - BasketWidth) as real
    ensures k == ArrowLeft ==> r >= 0.0 && (x >= 0.0 ==> r <= x)
    ensures k == ArrowRight ==> r <= (width - BasketWidth) as real
    ensures k == ArrowRight && width >= BasketWidth && x <= (width - BasketWidth) as real ==> r >= x
    ensures k == OtherKey ==> r == x
  {
    match k
    case ArrowLeft => if x - 20.0 >= 0.0 then x - 20.0 else 0.0
    case ArrowRight => if x + 20.0 <= (width - BasketWidth) as real then x + 20.0 else (width - BasketWidth) as real
    case OtherKey => x
  }

  /** The `touchmove` handler: the basket centred under the finger at `offset` pixels into the area,
      clamped to the area. */
  function TouchMove(offset: real, width: int): (r: real)
    ensures width >= BasketWidth ==> 0.0 <= r <= (width - BasketWidth) as real
    ensures 0.0 <= offset - 40.0 <= (width - BasketWidth) as real ==> r == offset - 40.0
  {
    var x := if offset - 40.0 >= 0.0 then offset - 40.0 else 0.0;
    if x <= (width - BasketWidth) as real then x else (width - BasketWidth) as real
  }

  /** `gameArea.offsetWidth / 2 - 40`: the basket centred in an area whose width is known. */
  function StartX(width: int): (x: real)
    ensures width >= BasketWidth ==> 0.0 <= x <= (width - BasketWidth) as real
    ensures x + x + BasketWidth as real == width as real
  {
    width as real / 2.0 - 40.0
  }

  /** As written the starting position is computed while the component's element is not yet attached
      to the page (`navigate` appends the returned view afterwards), where `offsetWidth` reads 0. */
  function StartXAsWritten(width: int): real {
    StartX(0)
  }

  /** So the basket starts 40 pixels left of the area, outside the range every later move keeps. */
  lemma StartsOutside(width: int)
    ensures StartXAsWritten(width) == -40.0 && StartXAsWritten(width) < 0.0
  {
  }

  /** The running component. Collision with the basket is given to each frame (`hits`), and the next
      wave is drawn by the environment. */
  class FallingGame {
    const userId: string
    const difficulty: int
    const startTime: int
    /** `gameArea.offsetWidth` and `offsetHeight` once the area is on the page. */
    const width: nat
    const height: nat
    var basketX: real
    var frame: Frame
    var timeLeft: int
    /** Both intervals and the key listener are still installed. */
    var running: bool
    var recorded: nat

    ghost predicate Valid()
      reads this
    {
      1 <= difficulty <= 5 && Consistent(frame.tally) && Fits(frame.question, frame.balls) &&
      (width >= BasketWidth ==> 0.0 <= basketX <= (width - BasketWidth) as real) &&
      0 <= timeLeft <= Seconds && (running <==> timeLeft > 0) &&
      recorded == (if running then 0 else 1) && (!running ==> frame.balls == [])
    }

    /** The component starts with the first wave and a basket centred in the area. */
    constructor(userId: string, difficulty: int, startTime: int, width: nat, height: nat, first: Wave)
      requires 1 <= difficulty <= 5 && Spawned(first)
      ensures this.userId == userId && this.difficulty == difficulty && this.startTime == startTime
      ensures this.width == width && this.height == height && basketX == StartX(width)
      ensures frame == Frame(first.question, first.balls, Fresh)
      ensures timeLeft == Seconds && running && recorded == 0
      ensures Valid()
    {
      this.userId := userId;
      this.difficulty := difficulty;
      this.startTime := startTime;
      this.width := width;
      this.height := height;
      basketX := StartX(width);
      frame := Frame(first.question, first.balls, Fresh);
      timeLeft := Seconds;
      running := true;
      recorded := 0;
    }

    /** A key press; the listener is gone once the game ended. */
    method OnKey(k: Key)
      requires Valid()
      modifies this
      ensures Valid()
      ensures basketX == (if old(running) then KeyMove(old(basketX), k, width) else old(basketX))
      ensures frame == old(frame) && timeLeft == old(timeLeft) && running == old(running) && recorded == old(recorded)
    {
      if running {
        basketX := KeyMove(basketX, k, width);
      }
    }

    /** A touch move `offset` pixels into the area; this listener is never removed. */
    method OnTouch(offset: real)
      requires Valid()
      modifies this
      ensures Valid()
      ensures basketX == TouchMove(offset, width)
      ensures frame == old(frame) && timeLeft == old(timeLeft) && running == old(running) && recorded == old(recorded)
    {
      basketX := TouchMove(offset, width);
    }

    /** The backward `splice` loop: answers below the area are removed and the rest kept in order. */
    method Prune()
      requires Valid()
      modifies this
      ensures Valid()
      ensures frame == old(frame).(balls := InBounds(old(frame).balls, height))
      ensures basketX == old(basketX) && timeLeft == old(timeLeft) && running == old(running)
      ensures recorded == old(recorded)
    {
      var bs := frame.balls;
      ghost var orig := bs;
      var i := |bs|;
      while i > 0
        invariant 0 <= i <= |orig|
        invariant bs == orig[..i] + InBounds(orig[i..], height)
        invariant unchanged(this)
      {
        i := i - 1;
        PruneStep(orig, i, height);
        assert bs[i] == orig[i] && bs[..i] == orig[..i];
        if bs[i].top > height {
          bs := bs[..i] + bs[i + 1..];
        }
      }
      assert orig[..0] == [] && orig[0..] == orig;
      InBoundsKeeps(frame.question, orig, height);
      frame := frame.(balls := bs);
    }

    /** The move-and-collide pass over the answers in play, each visited once. */
    method Sweep(hits: seq<bool>, next: Wave)
      requires Valid() && running && Spawned(next) && |hits| == |frame.balls|
      modifies this
      ensures Valid()
      ensures frame == Settle([], old(frame).balls, hits, old(frame).question, old(frame).tally, next, Fall(difficulty))
      ensures basketX == old(basketX) && timeLeft == old(timeLeft) && running == old(running)
      ensures recorded == old(recorded)
    {
      var fall := Fall(difficulty);
      ghost var goal := Settle([], frame.balls, hits, frame.question, frame.tally, next, fall);
      var rest, hs := frame.balls, hits;
      var kept: seq<Ball> := [];
      var q, t := frame.question, frame.tally;
      while rest != []
        invariant |hs| == |rest|
        invariant Settle(kept, rest, hs, q, t, next, fall) == goal
        decreases |rest|
      {
        var b := rest[0];
        if !hs[0] {
          kept := kept + [b.(top := b.top + fall)];
          rest, hs := rest[1..], hs[1..];
        } else if b.correct {
          q, kept, t := next.question, next.balls, Answer(t, true, Penalty);
          rest, hs := [], [];
        } else {
          t := Answer(t, false, Penalty);
          rest, hs := rest[1..], hs[1..];
        }
      }
      assert Frame(q, kept, t) == goal;
      SettleFits(frame.balls, hits, frame.question, frame.tally, next, fall);
      SettleTally([], frame.balls, hits, frame.question, frame.tally, next, fall);
      PlayCounts(frame.tally, Catches(frame.balls, hits), Penalty);
      frame := Frame(q, kept, t);
    }

    /** `dropLoop`, every 20 milliseconds until the game ends. */
    method DropLoop(hits: seq<bool>, next: Wave)
      requires Valid() && Spawned(next) && |hits| == |InBounds(frame.balls, height)|
      modifies this
      ensures Valid()
      ensures frame == if old(running) then Settle([], InBounds(old(frame).balls, height), hits, old(frame).question,
                                                 old(frame).tally, next, Fall(difficulty))
                       else old(frame)
      ensures basketX == old(basketX) && timeLeft == old(timeLeft) && running == old(running)
      ensures recorded == old(recorded)
    {
      if running {
        Prune();
        Sweep(hits, next);
      }
    }

    /** The one-second timer: once `timeLeft` reaches 0 both intervals stop, the answers are removed and
        the session is recorded. */
    method Second(svc: Analytics.AnalyticsService, endTime: int)
      requires Valid()
      modifies this, svc, svc.store
      ensures Valid()
      ensures timeLeft == (if old(running) then old(timeLeft) - 1 else old(timeLeft))
      ensures old(timeLeft) == 1 ==>
                svc.sessions == old(svc.sessions) + [SessionOf(userId, Subject, GameId, startTime, endTime, frame.tally, difficulty)] &&
                svc.Valid() && frame == old(frame).(balls := [])
      ensures old(timeLeft) != 1 ==> unchanged(svc) && unchanged(svc.store) && frame == old(frame)
      ensures basketX == old(basketX)
    {
      if running {
        timeLeft := timeLeft - 1;
        if timeLeft <= 0 {
          running := false;
          frame := frame.(balls := []);
          svc.RecordSession(SessionOf(userId, Subject, GameId, startTime, endTime, frame.tally, difficulty));
          recorded := recorded + 1;
        }
      }
    }
  }

  /** The component starts: difficulty from this game's history, not capped, and the first wave. */
  method Launch(svc: Analytics.AnalyticsService, userId: string, startTime: int, width: nat, height: nat,
                ra: real, rb: real, rop: real, rs: seq<real>) returns (g: FallingGame, done: bool)
    requires LedgerInRange(svc.sessions)
    requires 0.0 <= ra < 1.0 && 0.0 <= rb < 1.0 && 0.0 <= rop < 1.0 && Randoms(rs)
    ensures fresh(g) && g.Valid() && g.userId == userId && g.startTime == startTime && g.running
    ensures g.difficulty == StartDifficulty(svc.sessions, userId, Subject, GameId, false)
    ensures g.frame.question == GenerateQuestion(g.difficulty, ra, rb, rop) && g.frame.tally == Fresh
    ensures CorrectCount(g.frame.balls) == 1 && (done <==> |g.frame.balls| == 3)
  {
    StartInRange(svc.sessions, userId, Subject, GameId);
    var d := StartDifficulty(svc.sessions, userId, Subject, GameId, false);
    var first;
    first, done := NewWave(d, ra, rb, rop, rs);
    OneCorrect(first);
    g := new FallingGame(userId, d, startTime, width, height, first);
  }
}
