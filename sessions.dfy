/** The session record: one completed play-through of one game by one user. */
module Sessions {

  /** Timestamps are integer milliseconds; `accuracy` is exact. The ledger stores whatever it is given,
      so no field is constrained here. */
  datatype Session = Session(
    userId: string,
    subject: string,
    gameId: string,
    startTime: int,
    endTime: int,
    score: int,
    accuracy: real,
    difficulty: int,
    hintsUsed: int)

  /** `sessions.map(s => s.score)`. */
  function Scores(ss: seq<Session>): (r: seq<real>)
    ensures |r| == |ss|
    ensures forall i :: 0 <= i < |ss| ==> r[i] == ss[i].score as real
  {
    if ss == [] then [] else [ss[0].score as real] + Scores(ss[1..])
  }

  /** `sessions.map(s => s.accuracy)`. */
  function Accuracies(ss: seq<Session>): (r: seq<real>)
    ensures |r| == |ss|
    ensures forall i :: 0 <= i < |ss| ==> r[i] == ss[i].accuracy
  {
    if ss == [] then [] else [ss[0].accuracy] + Accuracies(ss[1..])
  }
}
