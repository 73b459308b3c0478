/** The number-sort game: drag each number of a round into the slot where the ascending order puts it. */
module MathSort {
  import opened Basics
  import opened Sessions
  import opened Rounds
  import Analytics
  import opened Slots

  const Subject := "math"
  const GameId := "math-sort"

  /** `rounds = 2 + currentDifficulty`. */
  function RoundCount(d: int): (n: nat)
    requires 1 <= d <= 5
    ensures 3 <= n <= 7
  {
    2 + d
  }

  /** `count = 3 + currentDifficulty` numbers in a round. */
  function ItemCount(d: int): (n: nat)
    requires 1 <= d <= 5
    ensures 4 <= n <= 8
  {
    3 + d
  }

  /** `maxVal = 5 + currentDifficulty * 5`. */
  function MaxVal(d: int): (m: nat)
    requires 1 <= d <= 5
    ensures ItemCount(d) < m
  {
    5 + d * 5
  }

  /** `Math.floor(Math.random() * maxVal) + 1` for each random number of a stream. */
  function NumberDraws(m: nat, rs: seq<real>): (ns: seq<int>)
    requires Randoms(rs)
    ensures |ns| == |rs| && forall i :: 0 <= i < |ns| ==> 1 <= ns[i] <= Max(m, 1)
  {
    if rs == [] then [] else [Pick(rs[0], m) + 1] + NumberDraws(m, rs[1..])
  }

  /** `generateNumbers(count)`: numbers added to a set until it holds `count`, in insertion order.
      `done` is false when the random numbers ran out first. */
  method GenerateNumbers(d: int, rs: seq<real>) returns (nums: seq<int>, done: bool)
    requires 1 <= d <= 5 && Randoms(rs)
    ensures Distinct(nums) && |nums| <= ItemCount(d)
    ensures forall i :: 0 <= i < |nums| ==> 1 <= nums[i] <= MaxVal(d)
    ensures done <==> |nums| == ItemCount(d)
  {
    var drawn := NumberDraws(MaxVal(d), rs);
    var used;
    nums, used, done := FillDistinct([], ItemCount(d), drawn);
    forall i | 0 <= i < |nums|
      ensures 1 <= nums[i] <= MaxVal(d)
    {
      var prefix := drawn[..used];
      assert nums[i] in prefix;
    }
  }

  /** Each number at most the next one. */
  ghost predicate Sorted(xs: seq<int>) {
    forall i, j :: 0 <= i < j < |xs| && j == i + 1 ==> xs[i] <= xs[j]
  }

  /** The first number of a sorted sequence is its least. */
  lemma {:induction false} SortedHeadLeast(xs: seq<int>, k: nat)
    requires Sorted(xs) && k < |xs|
    ensures xs[0] <= xs[k]
  {
    if k > 0 {
      SortedHeadLeast(xs, k - 1);
    }
  }

  function Insert(x: int, xs: seq<int>): seq<int> {
    if xs == [] then [x]
    else if x <= xs[0] then [x] + xs
    else [xs[0]] + Insert(x, xs[1..])
  }

  /** Inserting adds exactly the one number. */
  lemma {:induction false} InsertAdds(x: int, xs: seq<int>)
    ensures multiset(Insert(x, xs)) == multiset(xs) + multiset{x} && |Insert(x, xs)| == |xs| + 1
  {
    if xs != [] && x > xs[0] {
      assert xs == [xs[0]] + xs[1..];
      InsertAdds(x, xs[1..]);
    }
  }

  /** Inserting into a sorted sequence keeps it sorted; the front is that number or the old front. */
  lemma {:induction false} InsertSorts(x: int, xs: seq<int>)
    requires Sorted(xs)
    ensures Sorted(Insert(x, xs)) && |Insert(x, xs)| == |xs| + 1
    ensures Insert(x, xs)[0] == x || (xs != [] && Insert(x, xs)[0] == xs[0])
  {
    if xs != [] && x > xs[0] {
      var rest := Insert(x, xs[1..]);
      InsertSorts(x, xs[1..]);
      var r := [xs[0]] + rest;
      assert xs[0] <= rest[0];
      forall i, j | 0 <= i < j < |r| && j == i + 1
        ensures r[i] <= r[j]
      {
        if i > 0 {
          assert r[i] == rest[i - 1] && r[j] == rest[j - 1];
        }
      }
    }
  }

  /** `nums.slice().sort((a, b) => a - b)`: insertion sort. */
  function Ascending(xs: seq<int>): seq<int> {
    if xs == [] then [] else Insert(xs[0], Ascending(xs[1..]))
  }

  /** The ascending order is sorted and holds exactly the numbers it was given. */
  lemma {:induction false} AscendingSorts(xs: seq<int>)
    ensures Sorted(Ascending(xs)) && multiset(Ascending(xs)) == multiset(xs) && |Ascending(xs)| == |xs|
  {
    if xs != [] {
      assert xs == [xs[0]] + xs[1..];
      AscendingSorts(xs[1..]);
      InsertSorts(xs[0], Ascending(xs[1..]));
      InsertAdds(xs[0], Ascending(xs[1..]));
    }
  }

  /** The front of a sorted sequence is at most any of its numbers. */
  lemma SortedFrontLeast(xs: seq<int>, x: int)
    requires Sorted(xs) && x in multiset(xs)
    ensures xs[0] <= x
  {
    var k :| 0 <= k < |xs| && xs[k] == x;
    SortedHeadLeast(xs, k);
  }

  lemma FrontSplit(xs: seq<int>)
    requires xs != []
    ensures multiset(xs[1..]) == multiset(xs) - multiset{xs[0]}
  {
    assert xs == [xs[0]] + xs[1..];
    assert multiset(xs) == multiset{xs[0]} + multiset(xs[1..]);
  }

  /** A sorted sequence is fixed by its elements: only one arrangement of the numbers is ascending. */
  lemma {:induction false} SortedUnique(xs: seq<int>, ys: seq<int>)
    requires Sorted(xs) && Sorted(ys) && multiset(xs) == multiset(ys)
    ensures xs == ys
    decreases |xs|
  {
    assert |xs| == |ys| by {
      assert |multiset(xs)| == |xs| && |multiset(ys)| == |ys|;
    }
    if xs != [] {
      assert xs[0] in multiset(ys) && ys[0] in multiset(xs);
      SortedFrontLeast(ys, xs[0]);
      SortedFrontLeast(xs, ys[0]);
      assert xs[0] == ys[0];
      FrontSplit(xs);
      FrontSplit(ys);
      SortedTail(xs);
      SortedTail(ys);
      SortedUnique(xs[1..], ys[1..]);
      assert xs == [xs[0]] + xs[1..] && ys == [ys[0]] + ys[1..];
    }
  }

  lemma SortedTail(xs: seq<int>)
    requires Sorted(xs) && xs != []
    ensures Sorted(xs[1..])
  {
    var t := xs[1..];
    forall i, j | 0 <= i < j < |t| && j == i + 1
      ensures t[i] <= t[j]
    {
      assert t[i] == xs[i + 1] && t[j] == xs[j + 1];
    }
  }

  /** With every slot filled by the round's numbers, `every(el => el.dataset.value === el.dataset.expected)`
      holds exactly when the slots read in ascending order. */
  lemma JudgedBySortedness(slots: seq<Option<int>>, nums: seq<int>)
    requires multiset(Filled(slots)) == multiset(nums)
    ensures Filled(slots) == Ascending(nums) <==> Sorted(Filled(slots))
  {
    AscendingSorts(nums);
    if Sorted(Filled(slots)) {
      SortedUnique(Filled(slots), Ascending(nums));
    }
  }

  /** A round on screen: its numbers as `tiles`, the slots as filled so far, and the number tiles not yet
      placed. Slot `i` expects `Ascending(tiles)[i]`. */
  type Row = Slots.Row<int>

  /** A full row holds every number of the round, so no tile is left to drag, and it is judged right
      exactly when it reads in ascending order. */
  lemma FullRowJudged(r: Row)
    requires Kept(r) && AllFilled(r.slots)
    ensures r.items == []
    ensures Filled(r.slots) == Ascending(r.tiles) <==> Sorted(Filled(r.slots))
  {
    Slots.FullRow(r);
    JudgedBySortedness(r.slots, r.tiles);
  }

  /** The running component: the round on screen and the counters. */
  class SortGame {
    const userId: string
    const difficulty: int
    const startTime: int
    const rounds: nat
    var roundIndex: nat
    var tally: Tally
    var row: Row
    /** `setTimeout(newRound, 600)` callbacks not yet fired. */
    var scheduled: nat
    var recorded: nat

    ghost predicate Valid()
      reads this
    {
      1 <= difficulty <= 5 && Consistent(tally) && roundIndex <= rounds && Kept(row) &&
      (row.items != [] ==> roundIndex < rounds)
    }

    constructor(userId: string, difficulty: int, startTime: int)
      requires 1 <= difficulty <= 5
      ensures this.userId == userId && this.difficulty == difficulty && this.startTime == startTime
      ensures rounds == RoundCount(difficulty) && roundIndex == 0 && tally == Fresh
      ensures row == LayRow([]) && scheduled == 0 && recorded == 0
      ensures Valid()
    {
      this.userId := userId;
      this.difficulty := difficulty;
      this.startTime := startTime;
      rounds := RoundCount(difficulty);
      roundIndex := 0;
      tally := Fresh;
      row := LayRow([]);
      scheduled := 0;
      recorded := 0;
    }

    /** `newRound`: the board is cleared; once every round was played the session is recorded, else a
        new round of distinct numbers is laid out with empty slots. */
    method NewRound(svc: Analytics.AnalyticsService, rs: seq<real>, endTime: int)
      requires Valid() && Randoms(rs)
      modifies this, svc, svc.store
      ensures Valid()
      ensures old(roundIndex) >= rounds ==>
                svc.sessions == old(svc.sessions) + [SessionOf(userId, Subject, GameId, startTime, endTime, tally, difficulty)] &&
                recorded == old(recorded) + 1 && row == LayRow([])
      ensures old(roundIndex) < rounds ==>
                unchanged(svc) && unchanged(svc.store) && recorded == old(recorded) &&
                row == LayRow(row.tiles) && Distinct(row.tiles) && |row.tiles| <= ItemCount(difficulty) &&
                (forall i :: 0 <= i < |row.tiles| ==> 1 <= row.tiles[i] <= MaxVal(difficulty))
      ensures roundIndex == old(roundIndex) && tally == old(tally) && scheduled == old(scheduled)
    {
      if roundIndex >= rounds {
        row := LayRow([]);
        svc.RecordSession(SessionOf(userId, Subject, GameId, startTime, endTime, tally, difficulty));
        recorded := recorded + 1;
      } else {
        var round, done := GenerateNumbers(difficulty, rs);
        if !done {
          round := [];
        }
        row := LayRow(round);
      }
    }

    /** A scheduled `newRound` fires. */
    method Tick(svc: Analytics.AnalyticsService, rs: seq<real>, endTime: int)
      requires Valid() && Randoms(rs) && scheduled > 0
      modifies this, svc, svc.store
      ensures Valid()
      ensures scheduled == old(scheduled) - 1 && roundIndex == old(roundIndex) && tally == old(tally)
      ensures old(roundIndex) >= rounds ==>
                svc.sessions == old(svc.sessions) + [SessionOf(userId, Subject, GameId, startTime, endTime, tally, difficulty)] &&
                recorded == old(recorded) + 1
      ensures old(roundIndex) < rounds ==> unchanged(svc) && recorded == old(recorded)
    {
      scheduled := scheduled - 1;
      NewRound(svc, rs, endTime);
    }

    /** A number tile dropped on slot `j`, then `checkCompletion`. */
    method Drop(j: nat, k: nat)
      requires Valid() && j < |row.slots| && k < |row.items|
      modifies this
      ensures Valid()
      ensures row == PlaceRow(old(row), j, old(row).items[k])
      ensures var full := AllFilled(row.slots);
              tally == (if full then Answer(old(tally), Sorted(Filled(row.slots)), 5) else old(tally)) &&
              roundIndex == old(roundIndex) + (if full then 1 else 0) &&
              scheduled == old(scheduled) + (if full then 1 else 0)
      ensures recorded == old(recorded)
    {
      row := PlaceRow(row, j, row.items[k]);
      CheckCompletion();
    }

    /** `checkCompletion`: a full row is judged, right exactly when it reads in ascending order
        (penalty 5), and the next round is scheduled. */
    method CheckCompletion()
      requires 1 <= difficulty <= 5 && Consistent(tally) && roundIndex < rounds && Kept(row)
      modifies this
      ensures Valid()
      ensures var full := AllFilled(row.slots);
              tally == (if full then Answer(old(tally), Sorted(Filled(row.slots)), 5) else old(tally)) &&
              roundIndex == old(roundIndex) + (if full then 1 else 0) &&
              scheduled == old(scheduled) + (if full then 1 else 0)
      ensures row == old(row) && recorded == old(recorded)
    {
      if AllFilled(row.slots) {
        FullRowJudged(row);
        tally := Answer(tally, Filled(row.slots) == Ascending(row.tiles), 5);
        roundIndex, scheduled := roundIndex + 1, scheduled + 1;
      }
    }
  }

  /** The component starts: difficulty from the ledger (capped at 5) and the first round. */
  method Launch(svc: Analytics.AnalyticsService, userId: string, startTime: int, rs: seq<real>)
    returns (g: SortGame)
    requires LedgerInRange(svc.sessions) && Randoms(rs)
    modifies svc, svc.store
    ensures fresh(g) && g.Valid() && g.userId == userId && g.startTime == startTime
    ensures g.difficulty == StartDifficulty(old(svc.sessions), userId, Subject, GameId, true)
    ensures g.rounds == RoundCount(g.difficulty) && g.roundIndex == 0 && g.tally == Fresh && g.recorded == 0
    ensures g.row == LayRow(g.row.tiles)
    ensures unchanged(svc) && unchanged(svc.store)
  {
    StartInRange(svc.sessions, userId, Subject, GameId);
    var d := StartDifficulty(svc.sessions, userId, Subject, GameId, true);
    g := new SortGame(userId, d, startTime);
    g.NewRound(svc, rs, 0);
  }
}
