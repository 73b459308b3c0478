/** Sequence Builder: drag the pictures of a life cycle or a process into their slots, in order. */
module ScienceSequence {
  import opened Basics
  import opened Rounds
  import opened Slots
  import Analytics

  const Subject := "science"
  const GameId := "science-sequence"
  const Penalty := 5

  /** `sequences`: plant growth, the water cycle, caterpillar to butterfly, the chicken's life cycle, the
      phases of the moon, and egg to butterfly. */
  const Sequences: seq<seq<string>> := [
    ["\U{1F331}", "\U{1F33F}", "\U{1F333}"],
    ["\U{2601}\U{FE0F}", "\U{1F327}\U{FE0F}", "\U{1F4A7}"],
    ["\U{1F41B}", "\U{1F98B}"],
    ["\U{1F95A}", "\U{1F423}", "\U{1F414}"],
    ["\U{1F311}", "\U{1F313}", "\U{1F315}", "\U{1F317}"],
    ["\U{1F95A}", "\U{1F41B}", "\U{1F98B}"]
  ]

  /** Every sequence has two to four pictures. */
  lemma SequencesShape()
    ensures forall i :: 0 <= i < |Sequences| ==> 2 <= |Sequences[i]| <= 4
  {
  }

  /** The sequences of at most `bound` pictures, in their order. */
  function Fitting(ss: seq<seq<string>>, bound: int): (r: seq<seq<string>>)
    ensures forall i :: 0 <= i < |r| ==> |r[i]| <= bound && r[i] in ss
    ensures forall i :: 0 <= i < |ss| && |ss[i]| <= bound ==> ss[i] in r
  {
    if ss == [] then []
    else (if |ss[0]| <= bound then [ss[0]] else []) + Fitting(ss[1..], bound)
  }

  /** `sequences.filter(seq => seq.length <= currentDifficulty + 2)`: exactly the sequences short enough
      for the level, never none, since the plant's three pictures fit at every level. */
  function Available(d: int): (ss: seq<seq<string>>)
    requires 1 <= d <= 5
    ensures ss != []
    ensures forall i :: 0 <= i < |ss| ==> 2 <= |ss[i]| <= d + 2 && ss[i] in Sequences
    ensures forall i :: 0 <= i < |Sequences| && |Sequences[i]| <= d + 2 ==> Sequences[i] in ss
  {
    SequencesShape();
    assert |Sequences[0]| == 3;
    Fitting(Sequences, d + 2)
  }

  /** `userOrder.every((v, i) => v === correctOrder[i])`: every slot holds the picture that belongs there. */
  predicate Arranged(order: seq<string>, slots: seq<Option<string>>)
    requires |slots| == |order|
  {
    forall i :: 0 <= i < |slots| ==> slots[i] == Some(order[i])
  }

  /** The board of one puzzle: the correct order, the slots and pictures as dropped so far, the single
      judgement and the `endGame` timer it schedules. */
  class SequenceGame {
    const userId: string
    const difficulty: int
    const startTime: int
    /** `correctOrder`. */
    const order: seq<string>
    var row: Row<string>
    var tally: Tally
    /** `setTimeout(endGame, 500)` callbacks not yet fired. */
    var scheduled: nat
    var recorded: nat

    ghost predicate Valid()
      reads this
    {
      1 <= difficulty <= 5 && |order| >= 2 && Consistent(tally) && Kept(row) && row.tiles == order &&
      scheduled + recorded <= 1 && (scheduled + recorded == 1 <==> AllFilled(row.slots)) &&
      tally.attempts == scheduled + recorded
    }

    /** The slots and the pictures are laid out; the shuffle of the pictures is not modelled. */
    constructor(userId: string, difficulty: int, startTime: int, order: seq<string>)
      requires 1 <= difficulty <= 5 && |order| >= 2
      ensures this.userId == userId && this.difficulty == difficulty && this.startTime == startTime
      ensures this.order == order && row == LayRow(order) && tally == Fresh && scheduled == 0 && recorded == 0
      ensures Valid()
    {
      this.userId := userId;
      this.difficulty := difficulty;
      this.startTime := startTime;
      this.order := order;
      row := LayRow(order);
      tally := Fresh;
      scheduled := 0;
      recorded := 0;
    }

    /** A picture dropped on slot `j`: only an empty slot takes it, and the first picture showing it
        leaves the tiles row; the drop that fills the last slot judges the order, right exactly when
        every slot holds its own picture (penalty 5), and schedules the end of the game. */
    method Drop(j: nat, item: string)
      requires Valid() && j < |row.slots| && item in row.items
      modifies this
      ensures Valid()
      ensures row == PlaceRow(old(row), j, item)
      ensures var judged := AllFilled(row.slots);
              tally == (if judged then Answer(old(tally), Arranged(order, row.slots), Penalty) else old(tally)) &&
              scheduled == old(scheduled) + (if judged then 1 else 0)
      ensures AllFilled(row.slots) ==> old(row.slots[j]).None?
      ensures recorded == old(recorded)
    {
      RoomLeft(row, item);
      if row.slots[j].None? {
        row := PlaceRow(row, j, item);
        CheckCompletion();
      }
    }

    /** Before the last slot is filled nothing has been judged or scheduled. */
    ghost predicate Open()
      reads this
    {
      1 <= difficulty <= 5 && |order| >= 2 && Consistent(tally) && Kept(row) && row.tiles == order &&
      scheduled == 0 && recorded == 0 && tally.attempts == 0
    }

    /** `checkCompletion`: with every slot filled, one attempt is counted, right exactly when every slot
        holds its own picture, and `endGame` is scheduled; otherwise nothing happens. */
    method CheckCompletion()
      requires Open()
      modifies this`tally, this`scheduled
      ensures Valid()
      ensures var judged := AllFilled(row.slots);
              tally == (if judged then Answer(old(tally), Arranged(order, row.slots), Penalty) else old(tally)) &&
              scheduled == old(scheduled) + (if judged then 1 else 0)
    {
      if AllFilled(row.slots) {
        tally := Answer(tally, Arranged(order, row.slots), Penalty);
        scheduled := scheduled + 1;
      }
    }

    /** The scheduled `endGame` fires and records the session of the one judgement. */
    method Tick(svc: Analytics.AnalyticsService, endTime: int)
      requires Valid() && scheduled > 0
      modifies this, svc, svc.store
      ensures Valid() && scheduled == old(scheduled) - 1 && recorded == old(recorded) + 1
      ensures tally == old(tally) && tally.attempts == 1 && row == old(row)
      ensures svc.sessions == old(svc.sessions) + [SessionOf(userId, Subject, GameId, startTime, endTime, tally, difficulty)]
      ensures svc.Valid()
    {
      svc.RecordSession(SessionOf(userId, Subject, GameId, startTime, endTime, tally, difficulty));
      scheduled, recorded := scheduled - 1, recorded + 1;
    }
  }

  /** The component starts: difficulty from the ledger, capped at 5, and one of the sequences short
      enough for it, picked at random. */
  method Launch(svc: Analytics.AnalyticsService, userId: string, startTime: int, r: real) returns (g: SequenceGame)
    requires LedgerInRange(svc.sessions) && 0.0 <= r < 1.0
    ensures fresh(g) && g.Valid() && g.userId == userId && g.startTime == startTime
    ensures g.difficulty == StartDifficulty(svc.sessions, userId, Subject, GameId, true)
    ensures g.order in Sequences && |g.order| <= g.difficulty + 2
    ensures g.row == LayRow(g.order) && g.tally == Fresh && g.recorded == 0
  {
    StartInRange(svc.sessions, userId, Subject, GameId);
    var d := StartDifficulty(svc.sessions, userId, Subject, GameId, true);
    var avail := Available(d);
    var order := avail[Pick(r, |avail|)];
    g := new SequenceGame(userId, d, startTime, order);
  }
}
