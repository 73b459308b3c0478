/** The memory game: flip two tiles at a time to find pairs of numbers that add up to a target. */
module MathMemory {
  import opened Basics
  import opened Sessions
  import opened Rounds
  import Analytics

  const Subject := "math"
  const GameId := "math-memory"

  /** `pairCount = 3 + currentDifficulty`. */
  function PairCount(d: int): (n: nat)
    requires 1 <= d <= 5
    ensures 4 <= n <= 8
  {
    3 + d
  }

  /** `targetSum = 10 + (currentDifficulty - 1) * 5`. */
  function TargetSum(d: int): (ts: int)
    requires 1 <= d <= 5
    ensures 10 <= ts <= 30 && ts % 5 == 0
  {
    10 + (d - 1) * 5
  }

  /** One pass of the dealing loop: `a = Math.floor(Math.random() * (targetSum - 1)) + 1` and
      `b = targetSum - a`; both are positive, so the `a <= 0 || b <= 0` guard never fires. */
  function Candidate(ts: int, r: real): (ab: (int, int))
    requires ts >= 2 && 0.0 <= r < 1.0
    ensures 1 <= ab.0 && 1 <= ab.1 && ab.0 + ab.1 == ts
  {
    var a := Pick(r, ts - 1) + 1;
    (a, ts - a)
  }

  /** The key `${Math.min(a, b)}-${Math.max(a, b)}`; with `a + b` fixed the smaller number decides it. */
  function KeyOf(ts: int, r: real): int
    requires ts >= 2 && 0.0 <= r < 1.0
  {
    var ab := Candidate(ts, r);
    Min(ab.0, ab.1)
  }

  /** Cards `2k` and `2k+1` are the k-th accepted pair: positive, adding up to the target, and no two
      pairs with the same key. */
  predicate Dealt(cards: seq<int>, keys: seq<int>, ts: int) {
    |cards| == 2 * |keys| && Distinct(keys) &&
    forall k :: 0 <= k < |keys| ==>
      1 <= cards[2 * k] && 1 <= cards[2 * k + 1] && cards[2 * k] + cards[2 * k + 1] == ts &&
      keys[k] == Min(cards[2 * k], cards[2 * k + 1])
  }

  /** `while (cards.length < wanted)` with a key set: every pass either rejects a repeated key or pushes
      both numbers of a new pair. `done` is false when the random numbers ran out first. */
  method Deal(wanted: nat, ts: int, rs: seq<real>) returns (cards: seq<int>, keys: seq<int>, used: nat, done: bool)
    requires ts >= 2 && Randoms(rs)
    ensures Dealt(cards, keys, ts)
    ensures used <= |rs| && forall j :: 0 <= j < used ==> KeyOf(ts, rs[j]) in keys
    ensures |cards| <= wanted + 1
    ensures done <==> |cards| >= wanted
    ensures !done ==> used == |rs|
  {
    cards, keys, used := [], [], 0;
    while |cards| < wanted && used < |rs|
      invariant Dealt(cards, keys, ts) && used <= |rs| && |cards| <= wanted + 1
      invariant forall j :: 0 <= j < used ==> KeyOf(ts, rs[j]) in keys
      decreases |rs| - used
    {
      var ab := Candidate(ts, rs[used]);
      var key := Min(ab.0, ab.1);
      if key !in keys {
        keys := keys + [key];
        cards := cards + [ab.0, ab.1];
      }
      used := used + 1;
    }
    done := |cards| >= wanted;
  }

  /** As written the loop stops at `pairCount` cards, that is at most half of the pairs it should deal. */
  method DealAsWritten(d: int, rs: seq<real>) returns (cards: seq<int>, done: bool)
    requires 1 <= d <= 5 && Randoms(rs)
    ensures done ==> |cards| / 2 < PairCount(d) && |cards| < 2 * PairCount(d)
    ensures |cards| % 2 == 0
  {
    var keys, used;
    cards, keys, used, done := Deal(PairCount(d), TargetSum(d), rs);
  }

  /** Dealing `2 * pairCount` cards: one pair of cards per pair the player must find. */
  method DealCorrected(d: int, rs: seq<real>) returns (cards: seq<int>, done: bool)
    requires 1 <= d <= 5 && Randoms(rs)
    ensures done ==> |cards| == 2 * PairCount(d) && exists keys :: Dealt(cards, keys, TargetSum(d))
  {
    var keys, used;
    cards, keys, used, done := Deal(2 * PairCount(d), TargetSum(d), rs);
  }

  /** A tile face down, face up (`flipped`), or taken off the board (`removed`). */
  datatype Tile = Hidden | Shown | Removed

  /** The board: the card values, the tiles, the tiles held in `first` and `second`, the tally
      (`matches` is the correct count), and whether `endGame` ran. */
  datatype Board = Board(values: seq<int>, target: int, pairs: nat, tiles: seq<Tile>,
                         first: Option<nat>, second: Option<nat>, tally: Tally, ended: bool)

  /** The indices held in `first` and `second` are tiles of the board. */
  predicate Shape(b: Board) {
    |b.values| == |b.tiles| &&
    (b.first.Some? ==> b.first.value < |b.tiles|) &&
    (b.second.Some? ==> b.second.value < |b.tiles|)
  }

  /** The two held tiles add up to the target: the pending timer will remove them. */
  predicate Matched(b: Board)
    requires Shape(b)
  {
    b.first.Some? && b.second.Some? && b.values[b.first.value] + b.values[b.second.value] == b.target
  }

  /** The board a game starts with: every tile face down and nothing held. */
  function Laid(values: seq<int>, target: int, pairs: nat): (b: Board)
    ensures Shape(b) && |b.tiles| == |values| && b.tally == Fresh && !b.ended
    ensures forall i :: 0 <= i < |b.tiles| ==> b.tiles[i] == Hidden
  {
    Board(values, target, pairs, seq(|values|, i => Hidden), None, None, Fresh, false)
  }

  /** `flip(tile)` as written: a face-up or removed tile is ignored; otherwise the tile turns face up and
      becomes `first`, or becomes `second` and is judged (penalty 2), or, with both already held, is shown
      and held by neither. */
  function FlipAsWritten(b: Board, i: nat): (r: Board)
    requires Shape(b) && i < |b.tiles|
    ensures Shape(r) && r.values == b.values && r.target == b.target && r.pairs == b.pairs && r.ended == b.ended
    ensures b.tiles[i] != Hidden ==> r == b
    ensures b.tiles[i] == Hidden ==> r.tiles == b.tiles[i := Shown]
  {
    if b.tiles[i] != Hidden then b
    else
      var shown := b.tiles[i := Shown];
      if b.first.None? then b.(tiles := shown, first := Some(i))
      else if b.second.None? then
        b.(tiles := shown, second := Some(i),
           tally := Answer(b.tally, b.values[b.first.value] + b.values[i] == b.target, 2))
      else b.(tiles := shown)
  }

  /** `flip(tile)` ignoring clicks while a pair waits for its timer. */
  function Flip(b: Board, i: nat): (r: Board)
    requires Shape(b) && i < |b.tiles|
    ensures Shape(r)
    ensures b.second.Some? ==> r == b
  {
    if b.second.Some? then b else FlipAsWritten(b, i)
  }

  /** The judged pair's timer: a match is removed (and `endGame` runs once `matches === pairCount`), a
      miss is turned face down; either way nothing is held afterwards. */
  function Reveal(b: Board): (r: Board)
    requires Shape(b) && b.first.Some? && b.second.Some?
    ensures Shape(r) && r.first.None? && r.second.None?
    ensures r.values == b.values && r.target == b.target && r.pairs == b.pairs && r.tally == b.tally
    ensures r.ended == (b.ended || (Matched(b) && b.tally.correct == b.pairs))
  {
    var f, s := b.first.value, b.second.value;
    if Matched(b) then
      b.(tiles := b.tiles[f := Removed][s := Removed], first := None, second := None,
         ended := b.ended || b.tally.correct == b.pairs)
    else
      b.(tiles := b.tiles[f := Hidden][s := Hidden], first := None, second := None)
  }

  /** What can happen to a board: a click on a tile, or the pending timer firing. */
  datatype Event = Click(tile: nat) | Timer

  function Step(b: Board, e: Event, guarded: bool): (r: Board)
    requires Shape(b)
    ensures Shape(r) && r.values == b.values && r.target == b.target && r.pairs == b.pairs
  {
    match e
    case Click(i) =>
      if i >= |b.tiles| then b else if guarded then Flip(b, i) else FlipAsWritten(b, i)
    case Timer =>
      if b.first.Some? && b.second.Some? then Reveal(b) else b
  }

  /** The board after a run of events; `guarded` chooses the corrected `Flip`. */
  function Run(b: Board, es: seq<Event>, guarded: bool): (r: Board)
    requires Shape(b)
    ensures Shape(r) && r.values == b.values && r.target == b.target && r.pairs == b.pairs
    decreases |es|
  {
    if es == [] then b else Run(Step(b, es[0], guarded), es[1..], guarded)
  }

  function Count(ts: seq<Tile>, t: Tile): (n: nat)
    ensures n <= |ts|
  {
    if ts == [] then 0 else (if ts[0] == t then 1 else 0) + Count(ts[1..], t)
  }

  lemma {:induction false} CountUpdate(ts: seq<Tile>, i: nat, v: Tile, t: Tile)
    requires i < |ts|
    ensures Count(ts[i := v], t) == Count(ts, t) - (if ts[i] == t then 1 else 0) + (if v == t then 1 else 0)
    decreases i
  {
    if i > 0 {
      assert ts[i := v][1..] == ts[1..][i - 1 := v];
      CountUpdate(ts[1..], i - 1, v, t);
    }
    else {
      assert ts[i := v][1..] == ts[1..];
    }
  }

  /** A tile that is not `t` leaves room: fewer than all tiles are `t`. */
  lemma {:induction false} CountMiss(ts: seq<Tile>, i: nat, t: Tile)
    requires i < |ts| && ts[i] != t
    ensures Count(ts, t) < |ts|
    decreases i
  {
    if i > 0 {
      CountMiss(ts[1..], i - 1, t);
    }
  }

  /** Two different tiles that are not `t` leave room for two. */
  lemma {:induction false} CountMissTwo(ts: seq<Tile>, i: nat, j: nat, t: Tile)
    requires i < |ts| && j < |ts| && i != j && ts[i] != t && ts[j] != t
    ensures Count(ts, t) + 2 <= |ts|
    decreases i + j
  {
    if i == 0 {
      CountMiss(ts[1..], j - 1, t);
    } else if j == 0 {
      CountMiss(ts[1..], i - 1, t);
    } else {
      CountMissTwo(ts[1..], i - 1, j - 1, t);
    }
  }

  lemma {:induction false} CountNone(ts: seq<Tile>, t: Tile)
    requires forall i :: 0 <= i < |ts| ==> ts[i] != t
    ensures Count(ts, t) == 0
  {
    if ts != [] {
      CountNone(ts[1..], t);
    }
  }

  /** What every reachable board keeps: the held tiles are different and face up, a second tile is only
      held after a first, and each match counted is two tiles removed or the matched pair still held. */
  predicate Counted(b: Board) {
    Shape(b) &&
    (b.first.Some? ==> b.tiles[b.first.value] == Shown) &&
    (b.second.Some? ==> b.first.Some? && b.tiles[b.second.value] == Shown && b.second != b.first) &&
    2 * b.tally.correct == Count(b.tiles, Removed) + (if Matched(b) then 2 else 0)
  }

  lemma LaidCounted(values: seq<int>, target: int, pairs: nat)
    ensures Counted(Laid(values, target, pairs))
  {
    CountNone(Laid(values, target, pairs).tiles, Removed);
  }

  /** Either flip and the timer keep the count. */
  lemma StepCounted(b: Board, e: Event, guarded: bool)
    requires Counted(b)
    ensures Counted(Step(b, e, guarded))
  {
    match e
    case Click(i) =>
      if i < |b.tiles| && b.tiles[i] == Hidden {
        CountUpdate(b.tiles, i, Shown, Removed);
      }
    case Timer =>
      if b.first.Some? && b.second.Some? {
        RevealCounted(b);
      }
  }

  /** The timer that turns or removes the held pair keeps the count. */
  lemma RevealCounted(b: Board)
    requires Counted(b) && b.first.Some? && b.second.Some?
    ensures Counted(Reveal(b))
  {
    var f, s := b.first.value, b.second.value;
    var v := if Matched(b) then Removed else Hidden;
    CountUpdate(b.tiles, f, v, Removed);
    CountUpdate(b.tiles[f := v], s, v, Removed);
  }

  /** A counted board holds at most one match per two tiles. */
  lemma CountedBound(b: Board)
    requires Counted(b)
    ensures 2 * b.tally.correct <= |b.tiles|
  {
    if Matched(b) {
      CountMissTwo(b.tiles, b.first.value, b.second.value, Removed);
    }
  }

  /** With fewer than two tiles per pair `matches === pairCount` never holds, so `endGame` never runs,
      whichever flip is used and whatever the player does. */
  lemma {:induction false} ShortBoardNeverEnds(b: Board, es: seq<Event>, guarded: bool)
    requires Counted(b) && |b.tiles| < 2 * b.pairs && !b.ended
    ensures !Run(b, es, guarded).ended
    decreases |es|
  {
    if es != [] {
      StepCounted(b, es[0], guarded);
      if es[0].Timer? && b.first.Some? && b.second.Some? {
        CountedBound(b);
      }
      ShortBoardNeverEnds(Step(b, es[0], guarded), es[1..], guarded);
    }
  }

  /** As written the game dealt by `DealAsWritten` can never be finished. */
  lemma AsWrittenNeverEnds(d: int, cards: seq<int>, es: seq<Event>)
    requires 1 <= d <= 5 && |cards| < 2 * PairCount(d)
    ensures !Run(Laid(cards, TargetSum(d), PairCount(d)), es, false).ended
  {
    LaidCounted(cards, TargetSum(d), PairCount(d));
    ShortBoardNeverEnds(Laid(cards, TargetSum(d), PairCount(d)), es, false);
  }

  /** Tile `h` is face up but held by neither `first` nor `second`. */
  predicate Stuck(b: Board, h: nat) {
    Shape(b) && h < |b.tiles| && b.tiles[h] == Shown && b.first != Some(h) && b.second != Some(h)
  }

  /** As written, a click while a pair waits for its timer leaves that tile face up and untracked. */
  lemma ThirdFlipSticks(b: Board, h: nat)
    requires Counted(b) && b.second.Some? && h < |b.tiles| && b.tiles[h] == Hidden
    ensures Stuck(FlipAsWritten(b, h), h)
    ensures Flip(b, h) == b
  {
  }

  /** A stuck tile stays stuck: clicks on it are ignored and the timer only turns the held tiles. */
  lemma {:induction false} StuckForever(b: Board, h: nat, es: seq<Event>)
    requires Counted(b) && Stuck(b, h)
    ensures Counted(Run(b, es, false)) && Stuck(Run(b, es, false), h)
    decreases |es|
  {
    if es != [] {
      StepCounted(b, es[0], false);
      StuckForever(Step(b, es[0], false), h, es[1..]);
    }
  }

  /** With a tile stuck, a board of two tiles per pair can no longer reach `matches === pairCount`. */
  lemma {:induction false} StuckNeverEnds(b: Board, h: nat, es: seq<Event>)
    requires Counted(b) && Stuck(b, h) && |b.tiles| <= 2 * b.pairs && !b.ended
    ensures !Run(b, es, false).ended
    decreases |es|
  {
    if es != [] {
      StepCounted(b, es[0], false);
      if es[0].Timer? && b.first.Some? && b.second.Some? {
        var f, s := b.first.value, b.second.value;
        if Matched(b) {
          CountMissTwo(b.tiles, f, h, Removed);
          assert Count(b.tiles, Removed) + 2 <= |b.tiles|;
          CountMissTwo(b.tiles, s, h, Removed);
          CountMissThree(b.tiles, f, s, h);
        }
      }
      StuckForever(b, h, [es[0]]);
      assert Run(b, [es[0]], false) == Step(b, es[0], false);
      StuckNeverEnds(Step(b, es[0], false), h, es[1..]);
    }
  }

  lemma {:induction false} CountMissThree(ts: seq<Tile>, i: nat, j: nat, k: nat)
    requires i < |ts| && j < |ts| && k < |ts| && i != j && j != k && i != k
    requires ts[i] != Removed && ts[j] != Removed && ts[k] != Removed
    ensures Count(ts, Removed) + 3 <= |ts|
    decreases i + j + k
  {
    if i == 0 {
      CountMissTwo(ts[1..], j - 1, k - 1, Removed);
    } else if j == 0 {
      CountMissTwo(ts[1..], i - 1, k - 1, Removed);
    } else if k == 0 {
      CountMissTwo(ts[1..], i - 1, j - 1, Removed);
    } else {
      CountMissThree(ts[1..], i - 1, j - 1, k - 1);
    }
  }

  /** Every face-up tile is held by `first` or `second`. */
  predicate Tracked(b: Board) {
    Shape(b) &&
    forall i :: 0 <= i < |b.tiles| && b.tiles[i] == Shown ==> b.first == Some(i) || b.second == Some(i)
  }

  /** The corrected flip keeps every face-up tile tracked, so none can get stuck. */
  lemma {:induction false} GuardedTracked(b: Board, es: seq<Event>)
    requires Counted(b) && Tracked(b)
    ensures Counted(Run(b, es, true)) && Tracked(Run(b, es, true))
    decreases |es|
  {
    if es != [] {
      StepCounted(b, es[0], true);
      GuardedTracked(Step(b, es[0], true), es[1..]);
    }
  }

  lemma {:induction false} RunAppend(b: Board, es: seq<Event>, fs: seq<Event>, guarded: bool)
    requires Shape(b)
    ensures Run(b, es + fs, guarded) == Run(Run(b, es, guarded), fs, guarded)
    decreases |es|
  {
    if es != [] {
      assert (es + fs)[0] == es[0] && (es + fs)[1..] == es[1..] + fs;
      RunAppend(Step(b, es[0], guarded), es[1..], fs, guarded);
    } else {
      assert es + fs == fs;
    }
  }

  /** Turning up the dealt pairs in order, each followed by its timer. */
  function InOrder(k: nat): seq<Event> {
    if k == 0 then [] else InOrder(k - 1) + [Click(2 * (k - 1)), Click(2 * (k - 1) + 1), Timer]
  }

  /** The board after the first `k` dealt pairs were found in order. */
  function AfterPairs(values: seq<int>, target: int, pairs: nat, k: nat): Board {
    Board(values, target, pairs, seq(|values|, i => if i < 2 * k then Removed else Hidden), None, None,
          Tally(10 * k, k, k), k == pairs)
  }

  lemma OnePair(cards: seq<int>, keys: seq<int>, target: int, k: nat)
    requires Dealt(cards, keys, target) && k < |keys|
    ensures Run(AfterPairs(cards, target, |keys|, k), [Click(2 * k), Click(2 * k + 1), Timer], true) ==
            AfterPairs(cards, target, |keys|, k + 1)
  {
    var b0 := AfterPairs(cards, target, |keys|, k);
    var b1 := Step(b0, Click(2 * k), true);
    var b2 := Step(b1, Click(2 * k + 1), true);
    var b3 := Step(b2, Timer, true);
    assert b2.first == Some(2 * k) && b2.second == Some(2 * k + 1);
    assert Matched(b2);
    assert b3.tiles == AfterPairs(cards, target, |keys|, k + 1).tiles;
    var es := [Click(2 * k), Click(2 * k + 1), Timer];
    assert es[1..][1..][1..] == [];
    calc {
      Run(b0, es, true);
      Run(b1, es[1..], true);
      Run(b2, es[1..][1..], true);
      Run(b3, es[1..][1..][1..], true);
      b3;
    }
  }

  /** A freshly laid board is the board after no pairs. */
  lemma NoPairsYet(values: seq<int>, target: int, pairs: nat)
    requires 0 < pairs
    ensures Laid(values, target, pairs) == AfterPairs(values, target, pairs, 0)
  {
    assert Laid(values, target, pairs).tiles == AfterPairs(values, target, pairs, 0).tiles;
  }

  /** Finding pair `k` after the first `k` extends the perfect run by one pair. */
  lemma NextPair(cards: seq<int>, keys: seq<int>, target: int, k: nat)
    requires Dealt(cards, keys, target) && k < |keys|
    requires Run(Laid(cards, target, |keys|), InOrder(k), true) == AfterPairs(cards, target, |keys|, k)
    ensures Run(Laid(cards, target, |keys|), InOrder(k + 1), true) == AfterPairs(cards, target, |keys|, k + 1)
  {
    var es := [Click(2 * k), Click(2 * k + 1), Timer];
    RunAppend(Laid(cards, target, |keys|), InOrder(k), es, true);
    OnePair(cards, keys, target, k);
  }

  lemma {:induction false} InOrderReaches(cards: seq<int>, keys: seq<int>, target: int, k: nat)
    requires Dealt(cards, keys, target) && 0 < |keys| && k <= |keys|
    ensures Run(Laid(cards, target, |keys|), InOrder(k), true) == AfterPairs(cards, target, |keys|, k)
  {
    if k == 0 {
      NoPairsYet(cards, target, |keys|);
    } else {
      InOrderReaches(cards, keys, target, k - 1);
      NextPair(cards, keys, target, k - 1);
    }
  }

  /** With the corrected deal a player who turns up each dealt pair in turn finds them all, and
      `endGame` runs with a perfect tally. */
  lemma CorrectedCanFinish(cards: seq<int>, keys: seq<int>, target: int)
    requires Dealt(cards, keys, target) && |keys| > 0
    ensures var b := Run(Laid(cards, target, |keys|), InOrder(|keys|), true);
            b.ended && b.tally.correct == |keys| && b.tally.attempts == |keys| &&
            forall i :: 0 <= i < |b.tiles| ==> b.tiles[i] == Removed
  {
    InOrderReaches(cards, keys, target, |keys|);
  }

  /** The running component: its board, built from the corrected deal, and the sessions it recorded. */
  class MemoryGame {
    const userId: string
    const difficulty: int
    const startTime: int
    var board: Board
    var recorded: nat

    ghost predicate Valid()
      reads this
    {
      1 <= difficulty <= 5 && Counted(board) && Tracked(board) &&
      board.target == TargetSum(difficulty) && board.pairs == PairCount(difficulty)
    }

    constructor(userId: string, difficulty: int, startTime: int, cards: seq<int>)
      requires 1 <= difficulty <= 5
      ensures this.userId == userId && this.difficulty == difficulty && this.startTime == startTime
      ensures board == Laid(cards, TargetSum(difficulty), PairCount(difficulty)) && recorded == 0
      ensures Valid()
    {
      this.userId := userId;
      this.difficulty := difficulty;
      this.startTime := startTime;
      board := Laid(cards, TargetSum(difficulty), PairCount(difficulty));
      recorded := 0;
      LaidCounted(cards, TargetSum(difficulty), PairCount(difficulty));
    }

    /** A click on tile `i`. */
    method OnClick(i: nat)
      requires Valid() && i < |board.tiles|
      modifies this
      ensures Valid()
      ensures board == Flip(old(board), i) && recorded == old(recorded)
    {
      StepCounted(board, Event.Click(i), true);
      board := Flip(board, i);
    }

    /** The timer of the judged pair fires; `endGame` records the session when the last pair goes. */
    method OnTimer(svc: Analytics.AnalyticsService, endTime: int)
      requires Valid() && board.first.Some? && board.second.Some?
      modifies this, svc, svc.store
      ensures Valid()
      ensures board == Reveal(old(board))
      ensures old(Matched(board) && board.tally.correct == board.pairs) ==>
                svc.sessions == old(svc.sessions) + [SessionOf(userId, Subject, GameId, startTime, endTime, board.tally, difficulty)] &&
                recorded == old(recorded) + 1
      ensures !old(Matched(board) && board.tally.correct == board.pairs) ==>
                unchanged(svc) && unchanged(svc.store) && recorded == old(recorded)
    {
      var ends := Matched(board) && board.tally.correct == board.pairs;
      StepCounted(board, Event.Timer, true);
      board := Reveal(board);
      if ends {
        svc.RecordSession(SessionOf(userId, Subject, GameId, startTime, endTime, board.tally, difficulty));
        recorded := recorded + 1;
      }
    }
  }

  /** The component starts: difficulty from the ledger (capped at 5), the corrected deal, every tile
      face down. */
  method Launch(svc: Analytics.AnalyticsService, userId: string, startTime: int, rs: seq<real>)
    returns (g: MemoryGame, done: bool)
    requires LedgerInRange(svc.sessions) && Randoms(rs)
    ensures fresh(g) && g.Valid() && g.userId == userId && g.startTime == startTime && g.recorded == 0
    ensures g.difficulty == StartDifficulty(svc.sessions, userId, Subject, GameId, true)
    ensures done ==> |g.board.tiles| == 2 * PairCount(g.difficulty)
    ensures forall i :: 0 <= i < |g.board.tiles| ==> g.board.tiles[i] == Hidden
    ensures done ==> exists keys :: |keys| == g.board.pairs && Dealt(g.board.values, keys, g.board.target) &&
                                    g.board == Laid(g.board.values, g.board.target, |keys|)
  {
    StartInRange(svc.sessions, userId, Subject, GameId);
    var d := StartDifficulty(svc.sessions, userId, Subject, GameId, true);
    var cards;
    cards, done := DealCorrected(d, rs);
    g := new MemoryGame(userId, d, startTime, cards);
    if done {
      var keys :| Dealt(cards, keys, TargetSum(d));
      assert |keys| == PairCount(d);
    }
  }
}
