/** Animal or Plant?: drag each picture into the bin of its kind; every drop is judged, and a right one
    moves the picture into the bin. */
module ScienceClassify {
  import opened Basics
  import opened Rounds
  import Slots
  import Analytics

  const Subject := "science"
  const GameId := "science-classify"
  const Penalty := 5
  const Animal := "animal"
  const Plant := "plant"

  /** A picture to sort: its emoji and its kind. */
  datatype Item = Item(name: string, category: string)

  /** `poolByLevel`: four pictures at level 1, one more per level, alternating animal and plant. */
  const PoolByLevel: seq<seq<Item>> := [
    [Item("\U{1F436}", Animal), Item("\U{1F333}", Plant), Item("\U{1F431}", Animal), Item("\U{1F33B}", Plant)],
    [Item("\U{1F430}", Animal), Item("\U{1F337}", Plant), Item("\U{1F434}", Animal), Item("\U{1F335}", Plant),
     Item("\U{1F422}", Animal)],
    [Item("\U{1F42E}", Animal), Item("\U{1F332}", Plant), Item("\U{1F414}", Animal), Item("\U{1F339}", Plant),
     Item("\U{1F41F}", Animal), Item("\U{1F340}", Plant)],
    [Item("\U{1F981}", Animal), Item("\U{1F33C}", Plant), Item("\U{1F412}", Animal), Item("\U{1F341}", Plant),
     Item("\U{1F438}", Animal), Item("\U{1F33A}", Plant), Item("\U{1F98A}", Animal)],
    [Item("\U{1F418}", Animal), Item("\U{1F344}", Plant), Item("\U{1F433}", Animal), Item("\U{1F334}", Plant),
     Item("\U{1F40D}", Animal), Item("\U{1F347}", Plant), Item("\U{1F993}", Animal), Item("\U{1F33D}", Plant)]
  ]

  /** Every picture at every level is an animal or a plant. */
  predicate Sorted(items: seq<Item>) {
    forall i :: 0 <= i < |items| ==> items[i].category == Animal || items[i].category == Plant
  }

  /** `poolByLevel[currentDifficulty - 1].slice()`: `d + 3` pictures, each an animal or a plant. */
  function Pool(d: int): (p: seq<Item>)
    requires 1 <= d <= 5
    ensures |p| == d + 3 && Sorted(p)
  {
    PoolByLevel[d - 1]
  }

  /** The two bins. */
  datatype Bin = Animals | Plants

  /** The label `createBin` is called with. */
  function Label(b: Bin): string {
    match b
    case Animals => "Animals"
    case Plants => "Plants"
  }

  /** `toLowerCase` on a letter of the Latin alphabet; other characters are kept. */
  function LowerChar(c: char): (l: char)
    ensures 'A' <= c <= 'Z' ==> l as int == c as int + 32
    ensures !('A' <= c <= 'Z') ==> l == c
  {
    if 'A' <= c <= 'Z' then (c as int + 32) as char else c
  }

  function Lower(s: string): (r: string)
    ensures |r| == |s| && forall i :: 0 <= i < |s| ==> r[i] == LowerChar(s[i])
  {
    if s == [] then [] else [LowerChar(s[0])] + Lower(s[1..])
  }

  /** The white space `trim` strips (the ASCII part of it). */
  predicate IsSpace(c: char) {
    c == ' ' || c == '\t' || c == '\n' || c == '\r' || c == '\U{B}' || c == '\U{C}'
  }

  /** The leading white space removed. */
  function TrimStart(s: string): (r: string)
    ensures |r| <= |s|
  {
    if s != [] && IsSpace(s[0]) then TrimStart(s[1..]) else s
  }

  /** The trailing white space removed. */
  function TrimEnd(s: string): (r: string)
    ensures |r| <= |s|
  {
    if s != [] && IsSpace(s[|s| - 1]) then TrimEnd(s[..|s| - 1]) else s
  }

  /** `TrimStart` leaves the suffix of `s` after its leading white space. */
  lemma {:induction false} TrimStartStrips(s: string)
    ensures var r := TrimStart(s);
            r == s[|s| - |r|..] && (forall i :: 0 <= i < |s| - |r| ==> IsSpace(s[i])) && (r != [] ==> !IsSpace(r[0]))
  {
    if s != [] && IsSpace(s[0]) {
      TrimStartStrips(s[1..]);
    }
  }

  /** `TrimEnd` leaves the prefix of `s` before its trailing white space. */
  lemma {:induction false} TrimEndStrips(s: string)
    ensures var r := TrimEnd(s);
            r == s[..|r|] && (forall i :: |r| <= i < |s| ==> IsSpace(s[i])) && (r != [] ==> !IsSpace(r[|r| - 1]))
  {
    if s != [] && IsSpace(s[|s| - 1]) {
      TrimEndStrips(s[..|s| - 1]);
    }
  }

  /** `replace(c, '')` with a one-character pattern: the first `c` is cut out. */
  function ReplaceFirst(s: string, c: char): (r: string)
    ensures |r| <= |s|
  {
    if s == [] then []
    else if s[0] == c then s[1..]
    else [s[0]] + ReplaceFirst(s[1..], c)
  }

  /** The character cut is the one at the first position holding `c`. */
  lemma {:induction false} ReplaceFirstAt(s: string, c: char, i: nat)
    requires i < |s| && s[i] == c && forall k :: 0 <= k < i ==> s[k] != c
    ensures ReplaceFirst(s, c) == s[..i] + s[i + 1..]
  {
    if i > 0 {
      ReplaceFirstAt(s[1..], c, i - 1);
      assert s[..i] == [s[0]] + s[1..][..i - 1];
    }
  }

  /** Without a `c` the string is kept. */
  lemma {:induction false} ReplaceAbsent(s: string, c: char)
    requires c !in s
    ensures ReplaceFirst(s, c) == s
  {
    if s != [] {
      ReplaceAbsent(s[1..], c);
    }
  }

  /** `label.toLowerCase().replace('s', '').trim()`: only the first `s` goes. */
  function BinCategory(caption: string): (c: string)
    ensures |c| <= |caption|
  {
    TrimEnd(TrimStart(ReplaceFirst(Lower(caption), 's')))
  }

  /** Neither kind has white space to trim. */
  lemma KindsTrimmed()
    ensures TrimStart(Animal) == Animal && TrimEnd(Animal) == Animal
    ensures TrimStart(Plant) == Plant && TrimEnd(Plant) == Plant
  {
  }

  /** The two labels, lower-cased. */
  lemma LabelsLowered()
    ensures Lower(Label(Animals)) == "animals" && Lower(Label(Plants)) == "plants"
  {
  }

  /** Each lower-cased label has its only `s` at the end. */
  lemma LabelsCut()
    ensures ReplaceFirst("animals", 's') == Animal && ReplaceFirst("plants", 's') == Plant
  {
    var a, p := "animals", "plants";
    ReplaceFirstAt(a, 's', 6);
    assert a[..6] + a[7..] == Animal;
    ReplaceFirstAt(p, 's', 5);
    assert p[..5] + p[6..] == Plant;
  }

  /** Lower-casing "Animals" and "Plants" and dropping their first `s` leaves exactly the two kinds. */
  lemma BinsNamed()
    ensures BinCategory(Label(Animals)) == Animal && BinCategory(Label(Plants)) == Plant
  {
    LabelsLowered();
    LabelsCut();
    KindsTrimmed();
  }

  /** Every picture of a pool has exactly one bin that takes it, so every level can be cleared. */
  lemma OneBinEach(it: Item)
    requires it.category == Animal || it.category == Plant
    ensures BinCategory(Label(Animals)) == it.category <==> it.category == Animal
    ensures BinCategory(Label(Plants)) == it.category <==> it.category == Plant
    ensures BinCategory(Label(Animals)) == it.category <==> BinCategory(Label(Plants)) != it.category
  {
    BinsNamed();
  }

  /** The board: the pictures still to sort, the pictures in the bins, the counters and whether the
      session was recorded. */
  class ClassifyGame {
    const userId: string
    const difficulty: int
    const startTime: int
    const pool: seq<Item>
    var items: seq<Item>
    /** The pictures placed in the bins, in order of placement. */
    var binned: seq<Item>
    var tally: Tally
    var recorded: nat

    ghost predicate Valid()
      reads this
    {
      Counted() && recorded == (if items == [] then 1 else 0)
    }

    /** Every picture of the pool is either still to sort or in a bin, and each one in a bin was one
        right drop. */
    ghost predicate Counted()
      reads this
    {
      |pool| >= 1 && Consistent(tally) && multiset(items) + multiset(binned) == multiset(pool) &&
      tally.correct == |binned|
    }

    constructor(userId: string, difficulty: int, startTime: int, pool: seq<Item>)
      requires |pool| >= 1
      ensures this.userId == userId && this.difficulty == difficulty && this.startTime == startTime
      ensures this.pool == pool && items == pool && binned == [] && tally == Fresh && recorded == 0
      ensures Valid()
    {
      this.userId := userId;
      this.difficulty := difficulty;
      this.startTime := startTime;
      this.pool := pool;
      items := pool;
      binned := [];
      tally := Fresh;
      recorded := 0;
    }

    /** The picture `it` dropped on bin `b`: one attempt, right exactly when the bin's kind is the
        picture's (penalty 5); a right drop moves the first picture with its emoji and kind into the
        bin. Once no picture is left the session is recorded, with every picture of the pool counted
        right exactly once. */
    method Drop(svc: Analytics.AnalyticsService, b: Bin, it: Item, endTime: int)
      requires Valid() && it in items
      modifies this, svc, svc.store
      ensures Valid()
      ensures var ok := BinCategory(Label(b)) == it.category;
              tally == Answer(old(tally), ok, Penalty) &&
              items == (if ok then Slots.RemoveFirst(old(items), it) else old(items)) &&
              binned == old(binned) + (if ok then [it] else []) &&
              |items| == |old(items)| - (if ok then 1 else 0)
      ensures items == [] ==>
                svc.sessions == old(svc.sessions) + [SessionOf(userId, Subject, GameId, startTime, endTime, tally, difficulty)] &&
                svc.Valid() && tally.correct == |pool| && multiset(binned) == multiset(pool)
      ensures items != [] ==> unchanged(svc) && unchanged(svc.store)
    {
      var ok := BinCategory(Label(b)) == it.category;
      tally := Answer(tally, ok, Penalty);
      if ok {
        var rest := Slots.RemoveFirst(items, it);
        assert multiset(binned + [it]) == multiset(binned) + multiset{it};
        items, binned := rest, binned + [it];
      }
      if items == [] {
        EndGame(svc, endTime);
      }
    }

    /** `endGame`, once the last picture is in its bin: the session is recorded, with every picture of
        the pool counted right exactly once. */
    method EndGame(svc: Analytics.AnalyticsService, endTime: int)
      requires Counted() && items == [] && recorded == 0
      modifies this`recorded, svc, svc.store
      ensures Valid() && recorded == 1
      ensures svc.sessions == old(svc.sessions) + [SessionOf(userId, Subject, GameId, startTime, endTime, tally, difficulty)]
      ensures svc.Valid() && tally.correct == |pool| && multiset(binned) == multiset(pool)
    {
      svc.RecordSession(SessionOf(userId, Subject, GameId, startTime, endTime, tally, difficulty));
      recorded := 1;
      assert |multiset(binned)| == |multiset(pool)|;
    }
  }

  /** The component starts: difficulty from the ledger, capped at 5, and that level's pictures. */
  method Launch(svc: Analytics.AnalyticsService, userId: string, startTime: int) returns (g: ClassifyGame)
    requires LedgerInRange(svc.sessions)
    ensures fresh(g) && g.Valid() && g.userId == userId && g.startTime == startTime
    ensures g.difficulty == StartDifficulty(svc.sessions, userId, Subject, GameId, true)
    ensures g.pool == Pool(g.difficulty) && g.items == g.pool && g.tally == Fresh
  {
    StartInRange(svc.sessions, userId, Subject, GameId);
    var d := StartDifficulty(svc.sessions, userId, Subject, GameId, true);
    var p := Pool(d);
    g := new ClassifyGame(userId, d, startTime, p);
  }
}
