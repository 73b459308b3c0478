/** The missing-letter game: pick the letter that fills the blank of a word. */
module EnglishSpell {
  import opened Basics
  import opened Rounds
  import Analytics

  const Subject := "english"
  const GameId := "english-spell"

  /** `wordPool`. */
  const WordPool: seq<string> :=
    ["cat", "dog", "sun", "fish", "tree", "book", "apple", "rose", "grape", "elephant", "flower", "cookie"]

  const Alphabet: string := "abcdefghijklmnopqrstuvwxyz"

  /** A question: the word, the position of its blank, the word as shown, and the letters offered with
      the right one first. */
  datatype SpellQuestion = SpellQuestion(word: string, missing: nat, shown: string, letters: seq<char>)

  function Shorter(ws: seq<string>, bound: int): (r: seq<string>)
    ensures forall i :: 0 <= i < |r| ==> |r[i]| <= bound && r[i] in ws
    ensures forall i :: 0 <= i < |ws| && |ws[i]| <= bound ==> ws[i] in r
  {
    if ws == [] then []
    else (if |ws[0]| <= bound then [ws[0]] else []) + Shorter(ws[1..], bound)
  }

  /** Every word of the pool has at least three letters. */
  lemma WordsLong()
    ensures forall i :: 0 <= i < |WordPool| ==> 3 <= |WordPool[i]|
  {
  }

  /** `wordPool.filter(w => w.word.length <= currentDifficulty + 2)`: never empty, since the first word,
      "cat", qualifies at every difficulty. */
  function Candidates(d: int): (ws: seq<string>)
    requires 1 <= d <= 5
    ensures forall i :: 0 <= i < |ws| ==> 3 <= |ws[i]| <= d + 2 && ws[i] in WordPool
    ensures WordPool[0] in ws
  {
    assert |WordPool[0]| == 3;
    WordsLong();
    Shorter(WordPool, d + 2)
  }

  /** The word with an underscore at position `i`, as `displayWord` shows it. */
  function Blanked(word: string, i: nat): (s: string)
    requires i < |word|
    ensures |s| == |word| && s[i] == '_'
    ensures forall j :: 0 <= j < |word| && j != i ==> s[j] == word[j]
  {
    word[..i] + "_" + word[i + 1..]
  }

  /** Writing the right letter into the blank gives the word back. */
  lemma FillBlank(word: string, i: nat)
    requires i < |word|
    ensures Blanked(word, i)[i := word[i]] == word
  {
  }

  /** `letters[Math.floor(Math.random() * letters.length)]` for each random number of a stream. */
  function AlphabetDraws(rs: seq<real>): (cs: seq<char>)
    requires Randoms(rs)
    ensures |cs| == |rs| && forall i :: 0 <= i < |cs| ==> cs[i] in Alphabet
  {
    if rs == [] then [] else [Alphabet[Pick(rs[0], |Alphabet|)]] + AlphabetDraws(rs[1..])
  }

  /** `nextQuestion`'s word choice: a word short enough for the difficulty and a position in it. */
  function PickWord(d: int, rWord: real, rMissing: real): (wm: (string, nat))
    requires 1 <= d <= 5 && 0.0 <= rWord < 1.0 && 0.0 <= rMissing < 1.0
    ensures wm.0 in Candidates(d) && wm.1 < |wm.0|
  {
    var candidates := Candidates(d);
    var word := candidates[Pick(rWord, |candidates|)];
    (word, Pick(rMissing, |word|))
  }

  /** `nextQuestion`'s question: the chosen word with its blank, and letters drawn from the alphabet added
      to `new Set([correctLetter])` until there are three. `done` is false when the random numbers ran out
      first. */
  method MakeQuestion(d: int, rWord: real, rMissing: real, rLetters: seq<real>) returns (q: SpellQuestion, done: bool)
    requires 1 <= d <= 5 && 0.0 <= rWord < 1.0 && 0.0 <= rMissing < 1.0 && Randoms(rLetters)
    ensures q.word in Candidates(d) && q.missing < |q.word| && q.shown == Blanked(q.word, q.missing)
    ensures |q.letters| >= 1 && q.letters[0] == q.word[q.missing] && Distinct(q.letters)
    ensures forall i :: 1 <= i < |q.letters| ==> q.letters[i] in Alphabet
    ensures done <==> |q.letters| == 3
  {
    var (word, missing) := PickWord(d, rWord, rMissing);
    var drawn := AlphabetDraws(rLetters);
    var right := word[missing];
    var letters, used;
    letters, used, done := FillDistinct([right], 3, drawn);
    assert letters[0] == letters[..1][0] == right;
    forall i | 1 <= i < |letters|
      ensures letters[i] in Alphabet
    {
      var prefix := drawn[..used];
      assert letters[i] in prefix;
    }
    q := SpellQuestion(word, missing, Blanked(word, missing), letters);
  }

  /** `rounds = 3 + currentDifficulty`. */
  function RoundCount(d: int): (n: nat)
    requires 1 <= d <= 5
    ensures 4 <= n <= 8
  {
    3 + d
  }

  /** The component starts and shows the first word. */
  method Launch(svc: Analytics.AnalyticsService, userId: string, startTime: int, rWord: real, rMissing: real,
                rLetters: seq<real>) returns (g: RoundGame<SpellQuestion>)
    requires LedgerInRange(svc.sessions)
    requires 0.0 <= rWord < 1.0 && 0.0 <= rMissing < 1.0 && Randoms(rLetters)
    modifies svc, svc.store
    ensures fresh(g) && g.Valid()
    ensures var d := StartDifficulty(old(svc.sessions), userId, Subject, GameId, true);
            1 <= d <= 5 && g.difficulty == d && g.rounds == RoundCount(d) &&
            (g.question.Some? ==> g.question.value.word in Candidates(d) && |g.question.value.letters| == 3)
    ensures g.userId == userId && g.subject == Subject && g.gameId == GameId && g.startTime == startTime
    ensures g.currentRound == 1 && g.tally == Fresh && g.scheduled == 0 && g.recorded == 0
    ensures unchanged(svc) && unchanged(svc.store)
  {
    StartInRange(svc.sessions, userId, Subject, GameId);
    var d := StartDifficulty(svc.sessions, userId, Subject, GameId, true);
    g := new RoundGame<SpellQuestion>(userId, Subject, GameId, d, RoundCount(d), startTime);
    var q, done := MakeQuestion(d, rWord, rMissing, rLetters);
    g.Next(svc, if done then Some(q) else None, 0, true);
  }

  /** A scheduled `nextQuestion` fires, as written: `endGame` records the session but leaves the letter
      buttons of the last word on screen. */
  method TickAsWritten(g: RoundGame<SpellQuestion>, svc: Analytics.AnalyticsService, rWord: real, rMissing: real,
                       rLetters: seq<real>, endTime: int)
    requires g.Valid() && 1 <= g.difficulty <= 5
    requires 0.0 <= rWord < 1.0 && 0.0 <= rMissing < 1.0 && Randoms(rLetters)
    modifies g, svc, svc.store
    ensures g.Valid()
    ensures old(g.scheduled) > 0 && old(g.Over()) ==>
              svc.sessions == old(svc.sessions) +
                [SessionOf(g.userId, g.subject, g.gameId, g.startTime, endTime, g.tally, g.difficulty)] &&
              g.question == old(g.question) && g.recorded == old(g.recorded) + 1
    ensures old(g.scheduled) == 0 ==> unchanged(svc) && g.question == old(g.question)
    ensures g.tally == old(g.tally) && g.currentRound >= old(g.currentRound)
    ensures g.scheduled == if old(g.scheduled) > 0 then old(g.scheduled) - 1 else 0
  {
    var fired := g.Fire();
    if fired {
      var q, done := MakeQuestion(g.difficulty, rWord, rMissing, rLetters);
      g.Next(svc, if done then Some(q) else None, endTime, false);
    }
  }

  /** As written, a click on a letter left on screen after the game ended schedules another
      `nextQuestion`, which runs `endGame` again: the ledger gets a second session of the same game. */
  method ClickAfterEndAsWritten(g: RoundGame<SpellQuestion>, svc: Analytics.AnalyticsService, rWord: real,
                                rMissing: real, rLetters: seq<real>, endTime: int)
    requires g.Valid() && 1 <= g.difficulty <= 5 && g.Over() && g.scheduled == 1
    requires g.question.Some? && |g.question.value.letters| >= 1
    requires 0.0 <= rWord < 1.0 && 0.0 <= rMissing < 1.0 && Randoms(rLetters)
    modifies g, svc, svc.store
    ensures g.recorded == old(g.recorded) + 2
    ensures |svc.sessions| == |old(svc.sessions)| + 2
  {
    TickAsWritten(g, svc, rWord, rMissing, rLetters, endTime);
    Choose(g, g.question.value.letters[0]);
    TickAsWritten(g, svc, rWord, rMissing, rLetters, endTime);
  }

  /** A scheduled `nextQuestion` fires, with `endGame` clearing the letters as every other game does:
      once the session is recorded no button is left to click. */
  method Tick(g: RoundGame<SpellQuestion>, svc: Analytics.AnalyticsService, rWord: real, rMissing: real,
              rLetters: seq<real>, endTime: int)
    requires g.Valid() && 1 <= g.difficulty <= 5
    requires 0.0 <= rWord < 1.0 && 0.0 <= rMissing < 1.0 && Randoms(rLetters)
    modifies g, svc, svc.store
    ensures g.Valid()
    ensures old(g.scheduled) > 0 && old(g.Over()) ==>
              svc.sessions == old(svc.sessions) +
                [SessionOf(g.userId, g.subject, g.gameId, g.startTime, endTime, g.tally, g.difficulty)] &&
              g.question == None && g.recorded == old(g.recorded) + 1
    ensures old(g.scheduled) > 0 && !old(g.Over()) ==>
              g.currentRound == old(g.currentRound) + 1 &&
              (g.question.Some? ==> g.question.value.word in Candidates(g.difficulty) && |g.question.value.letters| == 3)
    ensures old(g.scheduled) == 0 ==> unchanged(svc) && g.question == old(g.question)
    ensures g.tally == old(g.tally)
  {
    var fired := g.Fire();
    if fired {
      var q, done := MakeQuestion(g.difficulty, rWord, rMissing, rLetters);
      g.Next(svc, if done then Some(q) else None, endTime, true);
    }
  }

  /** A click on one of the letters: right when it is the missing one. */
  method Choose(g: RoundGame<SpellQuestion>, letter: char)
    requires g.Valid() && g.question.Some? && letter in g.question.value.letters
    modifies g
    ensures g.Valid()
    ensures g.tally == Answer(old(g.tally), letter == old(g.question).value.letters[0], 5)
    ensures g.scheduled == old(g.scheduled) + 1
    ensures g.question == old(g.question) && g.currentRound == old(g.currentRound) && g.recorded == old(g.recorded)
  {
    g.Judge(letter == g.question.value.letters[0], 5);
  }
}
