/** Word Builder: drag the scrambled letters of a word into its blanks. */
module EnglishScramble {
  import opened Basics
  import opened Rounds
  import opened Slots
  import Analytics

  const Subject := "english"
  const GameId := "english-scramble"
  const Penalty := 5

  /** `wordsByLevel`, easiest level first. */
  const WordsByLevel: seq<seq<string>> := [
    ["cat", "dog", "sun"],
    ["fish", "bird", "cake"],
    ["plant", "chair", "house"],
    ["garden", "yellow", "window"],
    ["elephant", "dinosaur", "keyboard"]
  ]

  /** `wordsByLevel[currentDifficulty - 1]`: three words, none of them empty. */
  function Words(d: int): (ws: seq<string>)
    requires 1 <= d <= 5
    ensures |ws| == 3 && forall i :: 0 <= i < |ws| ==> |ws[i]| >= 3
  {
    WordsByLevel[d - 1]
  }

  /** `words.indexOf(w)`: the first position holding `w`. */
  function IndexOf(ws: seq<string>, w: string): (i: nat)
    requires w in ws
    ensures i < |ws| && ws[i] == w && w !in ws[..i]
  {
    if ws[0] == w then 0
    else
      var j := IndexOf(ws[1..], w);
      assert ws[..j + 1] == [ws[0]] + ws[1..][..j];
      j + 1
  }

  /** `newPuzzle`'s draw: a word picked at random, then spliced out at its first position. */
  function TakeWord(ws: seq<string>, r: real): (wr: (string, seq<string>))
    requires ws != [] && 0.0 <= r < 1.0
    ensures wr.0 in ws && |wr.1| == |ws| - 1
    ensures multiset(wr.1) + multiset{wr.0} == multiset(ws)
  {
    var w := ws[Pick(r, |ws|)];
    var i := IndexOf(ws, w);
    assert ws == ws[..i] + [w] + ws[i + 1..];
    (w, ws[..i] + ws[i + 1..])
  }

  /** The running component: the words left, the word on screen with its blanks and letter tiles, and
      the counters. */
  class ScrambleGame {
    const userId: string
    const difficulty: int
    const startTime: int
    /** The level's word list as laid out at the start. */
    const level: seq<string>
    var words: seq<string>
    var word: string
    /** The blanks (`dataset.char`) and the letter palette. */
    var row: Row<char>
    var tally: Tally
    /** `setTimeout(newPuzzle, 500)` callbacks not yet fired. */
    var scheduled: nat
    var recorded: nat
    /** The words drawn so far, in order. */
    ghost var drawn: seq<string>

    ghost predicate Valid()
      reads this
    {
      1 <= difficulty <= 5 && |level| == 3 && Consistent(tally) && Kept(row) && row.tiles == word && |word| >= 1 &&
      multiset(drawn) + multiset(words) == multiset(level) && drawn != [] &&
      word == drawn[|drawn| - 1] && (forall w :: w in words ==> |w| >= 1) &&
      scheduled <= 1 && recorded <= 1 &&
      (recorded == 0 ==> (scheduled == 1 <==> AllFilled(row.slots))) &&
      (recorded == 1 ==> words == [] && scheduled == 0 && AllFilled(row.slots)) &&
      tally.attempts == |drawn| - (if recorded == 0 && scheduled == 0 then 1 else 0)
    }

    /** The component starts on the level's word list and lays out its first puzzle. */
    constructor(userId: string, difficulty: int, startTime: int, level: seq<string>, r: real)
      requires 1 <= difficulty <= 5 && |level| == 3 && (forall w :: w in level ==> |w| >= 1) && 0.0 <= r < 1.0
      ensures this.userId == userId && this.difficulty == difficulty && this.startTime == startTime
      ensures this.level == level && (word, words) == TakeWord(level, r) && row == LayRow(word)
      ensures tally == Fresh && scheduled == 0 && recorded == 0
      ensures Valid()
    {
      this.userId := userId;
      this.difficulty := difficulty;
      this.startTime := startTime;
      this.level := level;
      var wr := TakeWord(level, r);
      word, words := wr.0, wr.1;
      row := LayRow(wr.0);
      tally := Fresh;
      scheduled := 0;
      recorded := 0;
      drawn := [wr.0];
      new;
      assert forall w :: w in words ==> w in level;
      assert |drawn| == 1;
    }

    /** A letter tile carrying `letter` dropped on blank `j`: an empty blank takes it and the first tile
        with that letter leaves the palette; once every blank is filled the word is judged, right exactly
        when the blanks spell it (penalty 5), and the next puzzle is scheduled. */
    method Drop(j: nat, letter: char)
      requires Valid() && j < |row.slots| && letter in row.items
      modifies this
      ensures Valid()
      ensures row == PlaceRow(old(row), j, letter)
      ensures var full := AllFilled(row.slots);
              tally == (if full then Answer(old(tally), Filled(row.slots) == word, Penalty) else old(tally)) &&
              scheduled == old(scheduled) + (if full then 1 else 0)
      ensures words == old(words) && word == old(word) && recorded == old(recorded)
    {
      RoomLeft(row, letter);
      row := PlaceRow(row, j, letter);
      if AllFilled(row.slots) {
        tally := Answer(tally, Filled(row.slots) == word, Penalty);
        scheduled := scheduled + 1;
      }
    }

    /** The scheduled `newPuzzle` fires: with no word left the session is recorded, otherwise the next
        word is drawn and laid out. */
    method Tick(svc: Analytics.AnalyticsService, r: real, endTime: int)
      requires Valid() && scheduled > 0 && 0.0 <= r < 1.0
      modifies this, svc, svc.store
      ensures Valid()
      ensures scheduled == old(scheduled) - 1 && tally == old(tally)
      ensures old(words) == [] ==>
                svc.sessions == old(svc.sessions) + [SessionOf(userId, Subject, GameId, startTime, endTime, tally, difficulty)] &&
                svc.Valid() && recorded == old(recorded) + 1 && tally.attempts == 3 &&
                multiset(drawn) == multiset(level)
      ensures old(words) != [] ==>
                unchanged(svc) && unchanged(svc.store) && recorded == old(recorded) &&
                (word, words) == TakeWord(old(words), r) && row == LayRow(word)
    {
      if words == [] {
        EndGame(svc, endTime);
      } else {
        NextPuzzle(r);
      }
    }

    /** `endGame`, reached once the last word was judged: the session goes to the analytics store, after
        exactly one judgement per word of the level. */
    method EndGame(svc: Analytics.AnalyticsService, endTime: int)
      requires Valid() && scheduled == 1 && words == []
      modifies this, svc, svc.store
      ensures Valid() && scheduled == 0 && recorded == 1 && tally.attempts == 3 && multiset(drawn) == multiset(level)
      ensures svc.sessions == old(svc.sessions) + [SessionOf(userId, Subject, GameId, startTime, endTime, tally, difficulty)]
      ensures svc.Valid()
      ensures tally == old(tally) && words == old(words) && word == old(word) && row == old(row)
    {
      svc.RecordSession(SessionOf(userId, Subject, GameId, startTime, endTime, tally, difficulty));
      scheduled, recorded := 0, 1;
      assert multiset(drawn) == multiset(level);
      AllDrawn(drawn, level);
    }

    /** `newPuzzle` with words left: the next word is drawn, spliced out and laid out. */
    method NextPuzzle(r: real)
      requires Valid() && scheduled == 1 && words != [] && 0.0 <= r < 1.0
      modifies this
      ensures Valid() && scheduled == 0 && recorded == old(recorded) && tally == old(tally)
      ensures (word, words) == TakeWord(old(words), r) && row == LayRow(word) && drawn == old(drawn) + [word]
    {
      var wr := TakeWord(words, r);
      DrawStep(drawn, words, level, r);
      word, words := wr.0, wr.1;
      row := LayRow(wr.0);
      drawn := drawn + [wr.0];
      scheduled := 0;
    }
  }

  /** A draw moves one word from the list left to the words drawn. */
  lemma DrawStep(drawn: seq<string>, words: seq<string>, level: seq<string>, r: real)
    requires multiset(drawn) + multiset(words) == multiset(level) && words != [] && 0.0 <= r < 1.0
    ensures var wr := TakeWord(words, r);
            multiset(drawn + [wr.0]) + multiset(wr.1) == multiset(level) && forall w :: w in wr.1 ==> w in words
  {
    var wr := TakeWord(words, r);
    assert multiset(drawn + [wr.0]) == multiset(drawn) + multiset{wr.0};
    forall w | w in wr.1 ensures w in words {
      assert w in multiset(wr.1);
    }
  }

  /** With the list used up, the words drawn are the level's three words. */
  lemma AllDrawn(drawn: seq<string>, level: seq<string>)
    requires multiset(drawn) == multiset(level) && |level| == 3
    ensures |drawn| == 3
  {
    assert |multiset(drawn)| == |multiset(level)|;
  }

  /** The component starts: difficulty from the ledger, capped at 5, and the first puzzle. */
  method Launch(svc: Analytics.AnalyticsService, userId: string, startTime: int, r: real) returns (g: ScrambleGame)
    requires LedgerInRange(svc.sessions) && 0.0 <= r < 1.0
    ensures fresh(g) && g.Valid() && g.userId == userId && g.startTime == startTime
    ensures g.difficulty == StartDifficulty(svc.sessions, userId, Subject, GameId, true)
    ensures g.level == Words(g.difficulty) && g.tally == Fresh && g.recorded == 0 && |g.words| == 2 && g.row == LayRow(g.word)
  {
    StartInRange(svc.sessions, userId, Subject, GameId);
    var d := StartDifficulty(svc.sessions, userId, Subject, GameId, true);
    var ws := Words(d);
    g := new ScrambleGame(userId, d, startTime, ws, r);
  }
}
