# Stealth Learning, modelled in Dafny

Stealth Learning is a browser application of seventeen small quiz games for children, in three subjects: math, English and science. This project models its core and proves properties of that model:

- **The difficulty adaptor.** It moves a level up or down by one according to the mean score of the last sessions.
- **The analytics ledger.** It is an append-only list of session records kept in local storage, with the filtered queries and the per-user report computed from it.
- **The game engine.** It holds the view registry, navigation with a not-found page, the persistent user id and the event bus.
- **The round logic of every game.** This covers:
  - how each game picks its starting difficulty;
  - how it generates questions, options and boards;
  - how it judges an answer and keeps score;
  - when it ends and records its session.
- **The home page's Quick Play button.** It relies on the start-up registrations of `main.js`.

The model takes the program's own form:
- Pure code becomes datatypes and functions with lemmas about them: the adaptor, the report, the encoders and the question generators.
- Objects and closures whose state changes become classes whose methods state the new state. These are the ledger, the engine, the local storage and each running game.
- The loops of the source become `while` loops with invariants. These are the rejection loops, the dealing loop, the backward splice and the move-and-collide pass.

Everything the browser supplies becomes a parameter:
- **Random numbers.** Each is a `real` in [0, 1), and a loop that waits on randomness takes a finite stream of them.
- **Timers.** Each pending `setTimeout` callback is counted, and firing it is a method the environment calls.
- **Collisions.** The basket's overlap with each falling answer is given per frame.

Shared logic lives in its own modules:

| module | holds |
|---|---|
| `Basics` | `Option`, minimum and maximum, the random pick, the distinct-fill loop |
| `Sessions` | the session record |
| `Storage` | local storage |
| `Rounds` | the scoring tally, the start-up difficulty, the round machine `RoundGame` |
| `PoolQuiz` | the draw-without-replacement games |
| `Slots` | the drag-and-drop boards |
| `Keycap` | the keycap and letter-emoji encoders |
| `Equations` | the operator equations |
| `Report` | the analytics report |

Two behaviours of the code are worth stating outright, since the model follows them:

- **An empty window demotes.** `average([])` is 0 (`services/adaptivity.js:43-46`), so `calculateDifficulty([], c)` is `max(c - 1, minLevel)` with the default rules (`Adaptivity.EmptyWindowDemotes`).
- **Stored text that is not JSON makes the constructor throw.** `JSON.parse` is unguarded (`services/analytics.js:13-14`), so no instance is built (`Storage.Load`, `Analytics.Singleton.GetInstance`).

## Model

| member | source | states |
|---|---|---|
| Adaptivity.New | services/adaptivity.js:14-16 | the service keeps the rules passed in, or the default rules (promote at 90, demote at 60, levels 1 to 5) when none are given |
| Adaptivity.Service.CalculateDifficulty | services/adaptivity.js:24-33 | starting inside the level range, the new level stays inside it and moves by at most one step |
| Adaptivity.EmptyWindowDemotes | services/adaptivity.js:43-44 | an empty window averages to 0, so with the default rules it lowers the level rather than keeping it |
| Adaptivity.Monotone | services/adaptivity.js:24-33 | for the same starting level, a higher mean never gives a lower level |
| Adaptivity.UniformWindowPromotes | services/adaptivity.js:25-28 | a non-empty window in which every score reaches the promote threshold always promotes |
| Adaptivity.UniformWindowDemotes | services/adaptivity.js:25-31 | with the demote threshold below the promote one, a window in which every score is at or below the demote threshold (or an empty window, when that threshold is not negative) lowers the level by one, floored at the minimum |
| Adaptivity.UniformWindowHolds | services/adaptivity.js:25-32 | a non-empty window in which every score lies strictly between the two thresholds keeps the level |
| Adaptivity.Examples | services/adaptivity.js:24-46 | worked cases with the default rules: a promotion, a demotion, a hold, both ends of the range and the empty window |
| Analytics.Filter | services/analytics.js:48-54 | the query's result holds exactly the stored sessions that pass the filter, where an absent or empty user id or subject places no constraint |
| Analytics.FilterAppend | services/analytics.js:49-53 | filtering distributes over concatenation, so query results keep the ledger's order |
| Analytics.FilterNone | services/analytics.js:48-53 | with no filter every session is returned, in order |
| Analytics.FilterBoth | services/analytics.js:49-53 | filtering by user and subject is filtering by user, then by subject |
| Analytics.FilterFalsy | services/analytics.js:50 | an empty user id is falsy and filters nothing out |
| Analytics.AnalyticsService.constructor | services/analytics.js:12-15 | the ledger is what the stored item parses to (empty when there is none), and the stored item reads back as the ledger |
| Analytics.AnalyticsService.RecordSession | services/analytics.js:31-43 | the session is appended to the ledger, the whole ledger is written back to storage, the other stored items are untouched and storage still mirrors the ledger |
| Analytics.AnalyticsService.GetSessions | services/analytics.js:48-54 | a session is returned exactly when it is in the ledger and passes the filter |
| Analytics.AnalyticsService.GetReport | services/analytics.js:60-62 | the report is null exactly when no session of the user is in the ledger |
| Analytics.RecordVisible | services/analytics.js:40-54 | recording a session adds it at the end of every query it matches and changes no other query |
| Analytics.ReportWithoutUser | services/analytics.js:50-61 | a report with no user id, or an empty one, covers every session in the ledger |
| Analytics.Singleton.constructor | services/analytics.js:21-25 | no instance exists before the first request |
| Analytics.Singleton.GetInstance | services/analytics.js:21-25 | the first call builds the instance over the stored ledger and keeps it, later calls return the same instance; when the stored text is not JSON the constructor throws and nothing is kept |
| Analytics.GetInstanceTwice | services/analytics.js:21-25 | from no instance and a readable store, two requests in a row hand out one and the same instance, which is the one kept and holds the stored ledger |
| Basics.Pick | components/home.js:71 | `Math.floor(Math.random() * n)` with the random number given: a valid index into any non-empty list of length n |
| Basics.MeanBounds | services/analytics.js:108-111 | the average of a non-empty list of values between two bounds lies between those bounds |
| Basics.Dedup | components/math-pattern.js:127-130 | turning a list into a set and back keeps the first occurrence of each value, in order: no repeats, nothing lost, nothing added, the first value first |
| Basics.DedupDistinct | components/math-pattern.js:127-130 | a list without repeats goes through the set unchanged |
| Basics.FillDistinct | components/english-spell.js:98-102 | the rejection loop behind the games' option sets: out of a stream of random candidates it adds each one not yet held, keeps the seed values first, never holds a value twice, takes nothing from outside the stream, and reports that it reached the target size exactly when it holds that many values |
| Sessions.Scores | services/adaptivity.js:25 | the list of scores, one per session, in order |
| Sessions.Accuracies | services/analytics.js:71 | the list of accuracies, one per session, in order |
| Storage.Load | services/analytics.js:13-14 | an absent stored item gives an empty ledger, a serialized ledger parses back to itself, and non-empty text that is not JSON makes the parse throw |
| Storage.LocalStorage.constructor | services/analytics.js:13 | the three stored items start as given |
| Engine.ResolveUserId | services/gameEngine.js:42-49 | a stored non-empty id is kept; otherwise the id is `u-` followed by the random suffix; the id is never empty |
| Engine.UserIdStable | services/gameEngine.js:42-49 | once an id is stored, every later start reads back the same id whatever random suffix it draws |
| Engine.Deliveries | services/gameEngine.js:91 | one handler call per subscribed handler, in subscription order, each passed the event's data |
| Engine.DeliveriesAppend | services/gameEngine.js:84-91 | delivering to two lists of handlers one after the other is delivering to their concatenation |
| Engine.GameEngine.constructor | services/gameEngine.js:8-49 | no current view, no views, no handlers; the user id is the resolved one, written to storage only when none was stored, with the other stored items untouched |
| Engine.GameEngine.RegisterView | services/gameEngine.js:55-57 | the key maps to the component, replacing any earlier registration, and nothing else changes |
| Engine.GameEngine.Navigate | services/gameEngine.js:63-75 | a registered key renders its component with the parameters and becomes the current view; an unknown key shows the not-found message and leaves the current view as it was |
| Engine.GameEngine.Handlers | services/gameEngine.js:91 | an event no one subscribed to has no handlers |
| Engine.GameEngine.On | services/gameEngine.js:80-85 | the handler joins the end of its event's list and every other event's list is unchanged |
| Engine.GameEngine.Emit | services/gameEngine.js:90-92 | exactly the subscribed handlers are called with the data, in subscription order, and the engine's state is otherwise unchanged |
| Engine.SubscribeThenEmit | services/gameEngine.js:80-92 | a handler subscribed just before an emit is called last, after every handler subscribed earlier |
| Report.MsToHms | services/analytics.js:113-119 | for a non-negative duration: hours, minutes below 60 and seconds below 60 that add up to the whole seconds of the duration |
| Report.HmsSplit | services/analytics.js:114-117 | whole seconds split into hours, minutes and seconds add back up to the seconds |
| Report.ImprovementRate | services/analytics.js:89-94 | 0 for a single session; otherwise positive exactly when the last score beats the first, and 0 exactly when they are equal |
| Report.ReportOf | services/analytics.js:61-103 | null exactly when the user has no sessions; otherwise the session count is the number of sessions |
| Report.CountByCounts | services/analytics.js:73-76 | the counting reduce and `Object.entries` give each key met exactly once, with its number of occurrences |
| Report.RankSorted | services/analytics.js:77-86 | sorting the entries by count leaves counts that never increase |
| Report.Rank | services/analytics.js:77-86 | sorting the entries keeps exactly the same entries |
| Report.RankHead | services/analytics.js:77-79 | the first entry after the stable sort is the first entry with the largest count |
| Report.FirstMax | services/analytics.js:77-79 | the reference for tie-breaking: an entry with the largest count and no earlier entry with as large a count |
| Report.PreferredSubject | services/analytics.js:73-79 | the preferred subject is one of the user's subjects, no subject is played more often, and any subject first played before it is played strictly less often |
| Report.PreferredGames | services/analytics.js:81-87 | the preferred games list each game the user played exactly once, ordered by number of sessions, most played first |
| Report.AveragesBounded | services/analytics.js:71-111 | the average accuracy of accuracies between two bounds lies between those bounds |
| Report.PlayTimeNonNegative | services/analytics.js:64-68 | the total play time is not negative when no session ends before it starts |
| Report.PlayTimeSplit | services/analytics.js:64-119 | the reported play time adds up to the whole seconds of the total of the session durations, with minutes and seconds below 60 |
| Rounds.Answer | components/math-compare.js:114-127 | one judged answer adds an attempt; a right one adds ten points and a right answer, a wrong one takes exactly the penalty off the score, or sets it to zero when the score is below the penalty |
| Rounds.Accuracy | components/math-compare.js:130 | the accuracy is 0 with no attempts, lies between 0 and 1 for a consistent tally, and is 1 exactly when every attempt was right |
| Rounds.PlayCounts | components/math-compare.js:114-127 | any run of answers keeps the tally consistent, adding one attempt per answer and one right answer per right one |
| Rounds.PlayScore | components/math-compare.js:119-125 | a run of answers gains at least ten points per right answer less the penalty per wrong one |
| Rounds.OrOne | components/math-compare.js:36 | `difficulty \|\| 1`: a zero difficulty becomes 1, any other is kept |
| Rounds.LastThree | components/math-compare.js:35 | `slice(-3)`: the last three sessions, or all of them when there are fewer |
| Rounds.ByGame | components/math-compare.js:32 | exactly the sessions of the given game |
| Rounds.StartDifficulty | components/math-compare.js:30-39 | a user with no history of the game starts at level 1 |
| Rounds.StartInRange | components/math-compare.js:30-39 | over a ledger whose difficulties are 1 to 5, every game starts at a level from 1 to 5 and the cap at 5 changes nothing |
| Rounds.RecordKeepsRange | components/math-compare.js:152-162 | recording a session at such a level keeps the ledger's difficulties in range |
| Rounds.Draw | components/english-synonyms.js:102-103 | `splice` at a random index: nothing from an empty pool; otherwise one question out and the others left, so the pool shrinks by one and loses exactly the question drawn |
| Rounds.DrawAllSucceeds | components/english-synonyms.js:95-103 | drawing once per round succeeds exactly when the pool holds at least as many questions as rounds, and then never draws a question more often than the pool holds it |
| Rounds.RoundGame.constructor | components/math-compare.js:41-46 | round 0, no score, attempts or right answers, nothing scheduled or recorded |
| Rounds.RoundGame.Advance | components/math-compare.js:93-94 | the round counter moves by one and the new question is shown; nothing else changes |
| Rounds.RoundGame.Judge | components/math-compare.js:114-127 | the tally takes one answer and one `nextQuestion` callback is scheduled |
| Rounds.RoundGame.Fire | components/math-compare.js:127 | a scheduled callback fires exactly when one is pending, and it is then no longer pending |
| Rounds.RoundGame.Next | components/math-compare.js:88-94 | once every round was played the session is recorded; otherwise the next round starts with the new question |
| Rounds.RoundGame.End | components/math-compare.js:129-163 | the session with the user, subject, game, times, score, accuracy and difficulty is appended to the ledger, with no hints used, and the storage still mirrors the ledger |
| PoolQuiz.PoolGame.constructor | components/english-synonyms.js:90 | the game starts with the given pool and refill and is not stuck |
| PoolQuiz.PoolGame.NextQuestion | components/english-synonyms.js:95-103 | after the last round the session is recorded and the question area is cleared; otherwise the round counter moves and the question shown is the one drawn from the pool (or from the refill when the pool is empty), which leaves the pool; an empty source gives `undefined`, on which the game gets stuck |
| PoolQuiz.PoolGame.Tick | components/english-synonyms.js:124 | a pending `nextQuestion` callback runs once; with none pending nothing happens; a game with a refill never gets stuck |
| PoolQuiz.Open | components/english-synonyms.js:90-104 | after the first `nextQuestion` round 1 shows a question from the pool, nothing is scored or scheduled, and the pool is the rest, one question shorter |
| PoolQuiz.RunDry | components/english-synonyms.js:95-103 | with no refill and more rounds left than questions, the following `nextQuestion` calls empty the pool before the last round, the next one throws, and no session is recorded |
| PoolQuiz.ChooseOption | components/english-synonyms.js:113-125 | a click on an option counts one attempt, right exactly when the option is the question's answer (penalty 5), and schedules the next question |
| PoolQuiz.ChooseTruth | components/science-quiz.js:126-137 | a click on True or False counts one attempt, right exactly when it agrees with the statement (penalty 5), and schedules the next question |
| PoolQuiz.CappedRounds | components/english-rhymes.js:71 | `Math.min(rounds, pool.length)`: never more rounds than wanted nor than questions, and one of the two |
| PoolQuiz.CappedRoundsDraw | components/english-rhymes.js:71-105 | with the cap every round draws a question, so the game reaches its end |
| PoolQuiz.UncappedRoundsRunDry | components/english-synonyms.js:95-103 | without the cap, a game that wants more rounds than its pool holds runs out of questions before its end |
| Keycap.Digits | components/math-falling.js:115 | `toString()` of a whole number: at least one decimal digit, each below ten, with no leading zero |
| Keycap.ValueDigits | components/math-falling.js:115 | the digits read back as the number |
| Keycap.Cap | components/math-falling.js:103-114 | a digit's keycap is the digit, the emoji variation selector and the combining keycap sign |
| Keycap.Caps | components/math-falling.js:115 | three characters per digit |
| Keycap.ParseCapsOf | components/math-falling.js:103-115 | a run of keycaps is read back as the digits it was made of |
| Keycap.SignedRoundTrip | components/math-falling.js:102-117 | the keycaps of the falling, sort, calc and pattern games show every number, negative ones included, so that it reads back as itself |
| Keycap.UnsignedDropsSign | components/math-compare.js:68-86 | the keycaps of the compare and memory games drop the minus sign of a negative number (its `-` maps to nothing), show the magnitude, and agree with the signed encoding on non-negative numbers |
| Keycap.LetterEmoji | components/english-scramble.js:84-91 | a Latin letter of either case becomes its regional indicator symbol; any other character is kept |
| Keycap.LetterEmojiInjective | components/english-scramble.js:84-91 | distinct letters show as distinct symbols |
| Slots.Filled | components/english-scramble.js:147-149 | the tiles placed so far, read off slot by slot, never more than there are slots |
| Slots.RemoveFirst | components/english-scramble.js:139-141 | taking off the first tile carrying a value removes exactly one occurrence of it, and nothing when no tile carries it |
| Slots.LayRow | components/english-scramble.js:93-124 | one empty slot per tile and every tile on the tiles row |
| Slots.PlaceRow | components/english-scramble.js:133-142 | an empty slot takes the dropped tile and the first tile carrying it leaves the row, a filled slot ignores the drop; either way the placed tiles and the tiles left are together the laid-out ones |
| Slots.FillSlot | components/english-scramble.js:133-136 | filling an empty slot adds exactly its tile to the placed ones |
| Slots.FullRow | components/english-scramble.js:144 | a board with every slot filled has no tile left and holds every laid-out tile, one per slot |
| Slots.RoomLeft | components/english-scramble.js:139-144 | while a tile is left to drag, some slot is still empty |
| Slots.InPlace | components/math-sort.js:164-170 | on a full board the tiles read off the slots are the laid-out ones exactly when every slot holds the tile of its own position |
| EnglishScramble.Words | components/english-scramble.js:40-47 | each level has three words of at least three letters |
| EnglishScramble.IndexOf | components/english-scramble.js:77 | `indexOf`: the first position holding the word |
| EnglishScramble.TakeWord | components/english-scramble.js:75-78 | the word drawn is one of the list, and splicing it out leaves the list with exactly that one occurrence removed |
| EnglishScramble.ScrambleGame.constructor | components/english-scramble.js:73-101 | the first word is drawn from the level's list and laid out as blanks and letter tiles, with nothing scored or scheduled |
| EnglishScramble.ScrambleGame.Drop | components/english-scramble.js:130-162 | an empty blank takes the letter and the first tile with it leaves the palette; the drop that fills the last blank judges the word, right exactly when the blanks spell it (penalty 5), and schedules the next puzzle; the word list is not touched |
| EnglishScramble.ScrambleGame.Tick | components/english-scramble.js:73-78 | the scheduled `newPuzzle` runs: with no word left the session is recorded after exactly three judgements, one per word of the level; otherwise the next word is drawn and laid out |
| EnglishScramble.ScrambleGame.EndGame | components/english-scramble.js:168-197 | the session is recorded once, after exactly one judgement per word of the level, each word drawn once |
| EnglishScramble.ScrambleGame.NextPuzzle | components/english-scramble.js:73-124 | the next word is drawn, spliced out of the list and laid out, with the tally kept |
| EnglishScramble.DrawStep | components/english-scramble.js:75-78 | a draw moves one word from the list to the words drawn, so the two together stay the level's words |
| EnglishScramble.AllDrawn | components/english-scramble.js:74 | once the list is used up, exactly the level's three words were drawn |
| EnglishScramble.Launch | components/english-scramble.js:29-72 | the start level comes from the ledger, capped at 5, the level's words are used and two remain after the first draw |
| EnglishRhymes.Pool | components/english-rhymes.js:41-69 | each level's pool holds 3 questions, each offering its right answer exactly once |
| EnglishRhymes.RoundCount | components/english-rhymes.js:71 | the round count is capped at the pool size: one round per question |
| EnglishRhymes.RoundsDraw | components/english-rhymes.js:71-105 | with that many rounds every round draws a question, so the game reaches its end |
| EnglishRhymes.Launch | components/english-rhymes.js:30-71 | the start level comes from this game's history, capped at 5; the first question of that level's pool is drawn and shown as round 1 |
| EnglishSynonyms.Pool | components/english-synonyms.js:63-90 | each level's pool holds 3 questions, each offering its right answer exactly once |
| EnglishSynonyms.RoundCountAsWritten | components/english-synonyms.js:40 | as written the game wants `3 + difficulty` rounds, more than the pool holds at every level |
| EnglishSynonyms.AsWrittenRunsDry | components/english-synonyms.js:95-103 | as written, whatever the random numbers, the pool is empty when the fourth round draws, so the game throws and never records a session |
| EnglishSynonyms.RoundCount | components/english-synonyms.js:40 | corrected: the rounds are capped at the pool size, one per question, fewer than as written |
| EnglishSynonyms.RoundsDraw | components/english-synonyms.js:95-103 | with that many rounds every round draws a question, so the game reaches its end |
| EnglishSynonyms.Launch | components/english-synonyms.js:30-40 | corrected (see Findings): the start level comes from this game's history, capped at 5; the game plays one round per question of that level's pool, and the first question is drawn and shown as round 1 |
| EnglishSynonyms.LaunchAsWritten | components/english-synonyms.js:30-40 | as written: the start level comes from this game's history, capped at 5, with `3 + currentDifficulty` rounds; round 1 shows the first question, two questions are left and at least three rounds remain, so the game runs dry |
| EnglishAntonyms.Pool | components/english-antonyms.js:63-90 | each level's pool holds 3 questions, each offering its right answer exactly once |
| EnglishAntonyms.RoundCountAsWritten | components/english-antonyms.js:40 | as written the game wants `3 + difficulty` rounds, more than the pool holds at every level |
| EnglishAntonyms.AsWrittenRunsDry | components/english-antonyms.js:95-102 | as written, whatever the random numbers, the pool is empty when the fourth round draws, so the game throws and never records a session |
| EnglishAntonyms.RoundCount | components/english-antonyms.js:40 | corrected: the rounds are capped at the pool size, one per question, fewer than as written |
| EnglishAntonyms.RoundsDraw | components/english-antonyms.js:95-102 | with that many rounds every round draws a question, so the game reaches its end |
| EnglishAntonyms.Launch | components/english-antonyms.js:30-40 | corrected (see Findings): the start level comes from this game's history, capped at 5; the game plays one round per question of that level's pool, and the first question is drawn and shown as round 1 |
| EnglishAntonyms.LaunchAsWritten | components/english-antonyms.js:30-40 | as written: the start level comes from this game's history, capped at 5, with `3 + currentDifficulty` rounds; round 1 shows the first question, two questions are left and at least three rounds remain, so the game runs dry |
| ScienceWeather.Pool | components/science-weather.js:64-91 | each level's pool holds 3 questions, each offering its right answer exactly once |
| ScienceWeather.RoundCountAsWritten | components/science-weather.js:40 | as written the game wants `3 + difficulty` rounds, more than the pool holds at every level |
| ScienceWeather.AsWrittenRunsDry | components/science-weather.js:96-103 | as written, whatever the random numbers, the pool is empty when the fourth round draws, so the game throws and never records a session |
| ScienceWeather.RoundCount | components/science-weather.js:40 | corrected: the rounds are capped at the pool size, one per question, fewer than as written |
| ScienceWeather.RoundsDraw | components/science-weather.js:96-103 | with that many rounds every round draws a question, so the game reaches its end |
| ScienceWeather.Launch | components/science-weather.js:30-40 | corrected (see Findings): the start level comes from this game's history, capped at 5; the game plays one round per question of that level's pool, and the first question is drawn and shown as round 1 |
| ScienceWeather.LaunchAsWritten | components/science-weather.js:30-40 | as written: the start level comes from this game's history, capped at 5, with `3 + currentDifficulty` rounds; round 1 shows the first question, two questions are left and at least three rounds remain, so the game runs dry |
| ScienceBody.Pool | components/science-body.js:60-87 | each level's pool holds 3 questions |
| ScienceBody.RoundCountAsWritten | components/science-body.js:41 | as written the game wants `3 + difficulty` rounds, more than the pool holds at every level |
| ScienceBody.AsWrittenRunsDry | components/science-body.js:41-96 | as written, whatever the random numbers, the pool is empty when the fourth round draws, so the game throws and never records a session |
| ScienceBody.RoundCount | components/science-body.js:41 | corrected: the rounds are capped at the pool size, one per question, fewer than as written |
| ScienceBody.RoundsDraw | components/science-body.js:41-96 | with that many rounds every round draws a question, so the game reaches its end |
| ScienceBody.Launch | components/science-body.js:31-41 | corrected (see Findings): the start level comes from this game's history, capped at 5; the game plays one round per question of that level's pool, and the first question is drawn and shown as round 1 |
| ScienceBody.LaunchAsWritten | components/science-body.js:31-41 | as written: the start level comes from this game's history, capped at 5, with `3 + currentDifficulty` rounds; round 1 shows the first question, two questions are left and at least three rounds remain, so the game runs dry |
| ScienceQuiz.Pool | components/science-quiz.js:42-80 | each level's pool holds 5 questions |
| ScienceQuiz.RoundCount | components/science-quiz.js:80 | the round count is capped at the pool size: one round per question |
| ScienceQuiz.RoundsDraw | components/science-quiz.js:80-108 | with that many rounds every round draws a question, so the game reaches its end |
| ScienceQuiz.Launch | components/science-quiz.js:31-80 | the start level comes from this game's history, capped at 5; the first question of that level's pool is drawn and shown as round 1 |
| EnglishSpell.Shorter | components/english-spell.js:83 | the filter keeps exactly the words no longer than the bound |
| EnglishSpell.WordsLong | components/english-spell.js:39-52 | every word of the pool has at least three letters |
| EnglishSpell.Candidates | components/english-spell.js:83 | the words offered at a level are pool words of three to `difficulty + 2` letters, and never none, since "cat" fits every level |
| EnglishSpell.Blanked | components/english-spell.js:90-93 | the word as shown has an underscore at the missing position and every other letter in place |
| EnglishSpell.FillBlank | components/english-spell.js:89-93 | writing the missing letter into the blank gives the word back |
| EnglishSpell.AlphabetDraws | components/english-spell.js:97-100 | each random letter is a lower-case letter of the alphabet |
| EnglishSpell.PickWord | components/english-spell.js:83-88 | the word is one of the level's candidates and the missing position lies inside it |
| EnglishSpell.MakeQuestion | components/english-spell.js:83-102 | the question blanks one letter of a candidate word; the letters offered start with the missing one, repeat no letter, are otherwise random letters of the alphabet, and are three exactly when the rejection loop finished |
| EnglishSpell.RoundCount | components/english-spell.js:54 | four to eight rounds |
| EnglishSpell.Launch | components/english-spell.js:28-78 | the start level comes from the ledger, capped at 5; round 1 shows a candidate word with three letters to choose from, with nothing scored yet |
| EnglishSpell.Choose | components/english-spell.js:110-121 | a click on a letter counts one attempt, right exactly when it is the missing letter (penalty 5), and schedules the next question |
| EnglishSpell.TickAsWritten | components/english-spell.js:127-159 | as written, once the last round was played the session is recorded but the letter buttons of the last word stay on screen |
| EnglishSpell.ClickAfterEndAsWritten | components/english-spell.js:110-121 | as written, a click on a letter left on screen after the game ended schedules another `nextQuestion`, which records a second session of the same game |
| EnglishSpell.Tick | components/english-spell.js:79-126 | corrected: the session is recorded once and the letters are cleared, so no button is left to click; otherwise the next round shows a candidate word with three letters |
| Equations.Ops | components/math-calc.js:86-88 | addition and subtraction always, multiplication exactly from level 3, division exactly from level 5, no operator twice |
| Equations.PickBelow | components/math-calc.js:96-97 | `Math.floor(Math.random() * x)` for a bound that need not be whole: a whole number from 0 up to below the bound |
| Equations.Generate | components/math-calc.js:85-114 | the operator is one the level allows and the value is the true value of the equation; operands run from 1 to `10 + 10 * difficulty`, and a division has a divisor up to half that bound and a whole quotient |
| MathCalc.Wrong | components/math-calc.js:119-120 | a wrong answer differs from the right one by 1 to `5 + 2 * difficulty` |
| MathCalc.MakeQuestion | components/math-calc.js:83-128 | the offered numbers start with the right answer, repeat no number, lie otherwise within the variance of the right answer, and are four exactly when the rejection loop finished |
| MathCalc.OneRightOption | components/math-calc.js:116-147 | exactly one offered number is the right answer, and the buttons carry distinct keycap labels |
| MathCalc.RoundCount | components/math-calc.js:42 | four to eight rounds |
| MathCalc.Launch | components/math-calc.js:31-47 | the start level comes from the ledger, capped at 5, and round 1 shows a question made up for it |
| MathCalc.Tick | components/math-calc.js:131-166 | a scheduled `nextQuestion` ends the game after its last round, recording the session and clearing the buttons, and otherwise shows a new question |
| MathCalc.Choose | components/math-calc.js:145-156 | a click on a number counts one attempt, right exactly when it is the equation's value (penalty 5), and schedules the next question |
| MathCompare.MakePair | components/math-compare.js:61-98 | the two numbers differ; the left is below `10 + 10 * difficulty` and the right at most that bound, since it is bumped by one when the two came out equal |
| MathCompare.ExactlyOneSide | components/math-compare.js:114-118 | of the two buttons exactly one is right, the one showing the larger number |
| MathCompare.LabelsReadBack | components/math-compare.js:68-107 | the two buttons carry distinct keycap labels, each reading back as its number |
| MathCompare.RoundCount | components/math-compare.js:41 | four to eight rounds |
| MathCompare.Launch | components/math-compare.js:30-41 | the start level comes from the ledger, capped at 5, and round 1 shows a pair made up for it |
| MathCompare.Tick | components/math-compare.js:88-133 | a scheduled `nextQuestion` ends the game after its last round, recording the session and clearing the buttons, and otherwise shows a new pair |
| MathCompare.Choose | components/math-compare.js:114-128 | a click counts one attempt, right exactly when the chosen side holds the larger number (penalty 5), and schedules the next question |
| MathSign.AsWrittenRejectsTrueOperator | components/math-sign.js:68-126 | as written, a button is right only when it is the operator the equation was made with: at level 3 the equation `2 _ 2 = 4` comes from `+`, and the `×` button, which makes it just as true, scores as wrong |
| MathSign.Judge | components/math-sign.js:117-126 | corrected: a button is right exactly when its operator makes the equation shown true |
| MathSign.JudgeAcceptsGenerator | components/math-sign.js:119 | the corrected judgement accepts every button the written one accepts, so the operator the equation was made with always scores |
| MathSign.RoundCount | components/math-sign.js:41 | four to eight rounds |
| MathSign.Launch | components/math-sign.js:31-41 | the start level comes from the ledger, capped at 5, and round 1 shows an equation made up for it |
| MathSign.Tick | components/math-sign.js:99-137 | a scheduled `nextQuestion` ends the game after its last round, recording the session and clearing the buttons, and otherwise shows a new equation |
| MathSign.ChooseAsWritten | components/math-sign.js:110-128 | as written: a click on one of the level's operator buttons counts one attempt, right exactly when it is the operator the equation was made with (penalty 5), and schedules the next question |
| MathSign.Choose | components/math-sign.js:110-128 | corrected (see Findings): a click on one of the level's operator buttons counts one attempt, right exactly when that operator makes the equation true (penalty 5), and schedules the next question |
| MathPattern.Pool | components/math-pattern.js:80-107 | each level has three patterns, and in each the answer is not among the distractors and no distractor repeats |
| MathPattern.Options | components/math-pattern.js:127-130 | the buttons start with the answer, repeat no number, include every distractor and nothing else |
| MathPattern.FairOptions | components/math-pattern.js:127-138 | for every pattern of the pools the buttons are the answer and the distractors, each once, so exactly one button scores |
| MathPattern.LabelsDistinct | components/math-pattern.js:59-78 | buttons of different numbers carry different keycap labels, each reading back as its number, negative ones included |
| MathPattern.RoundCount | components/math-pattern.js:40 | more rounds than a level's pool holds |
| MathPattern.Launch | components/math-pattern.js:30-40 | the start level comes from the ledger, capped at 5; round 1 shows a pattern drawn from the level's pool, and the pool is refilled from the level whenever it runs empty |
| MathPattern.Tick | components/math-pattern.js:108-121 | thanks to the refill no round ever finds the pool empty: the game never gets stuck |
| MathPattern.Choose | components/math-pattern.js:136-147 | a click on a number counts one attempt, right exactly when it continues the sequence (penalty 5), and schedules the next question |
| MathSort.RoundCount | components/math-sort.js:43 | a game has three to seven rounds |
| MathSort.ItemCount | components/math-sort.js:106 | a round has four to eight numbers |
| MathSort.MaxVal | components/math-sort.js:68 | the largest number that can be drawn exceeds the numbers in a round, so a round of distinct numbers exists |
| MathSort.NumberDraws | components/math-sort.js:70 | each random number gives a number between 1 and the largest allowed |
| MathSort.GenerateNumbers | components/math-sort.js:66-74 | the numbers collected are distinct and between 1 and the largest allowed; the round is complete exactly when it holds the round's count |
| MathSort.InsertAdds | components/math-sort.js:108 | inserting a number into the order adds exactly that number |
| MathSort.InsertSorts | components/math-sort.js:108 | inserting into an ascending sequence keeps it ascending |
| MathSort.AscendingSorts | components/math-sort.js:108 | `sort((a, b) => a - b)` gives an ascending permutation of the round's numbers |
| MathSort.SortedHeadLeast | components/math-sort.js:108 | the first number of an ascending sequence is at most any later one |
| MathSort.SortedUnique | components/math-sort.js:108-116 | two ascending sequences with the same numbers are equal, so only one arrangement of a round is correct |
| MathSort.JudgedBySortedness | components/math-sort.js:163-170 | with the round's numbers in the slots, they match each slot's expected value exactly when they read in ascending order |
| MathSort.FullRowJudged | components/math-sort.js:121-134 | once every slot is filled no tile is left to drag, and the round is right exactly when the slots ascend |
| MathSort.SortGame.constructor | components/math-sort.js:43-48 | a game starts with the round count of its level, no round played, an empty score and nothing scheduled or recorded |
| MathSort.SortGame.NewRound | components/math-sort.js:97-107 | after the last round the session is recorded; otherwise a round of distinct numbers in range is laid out with empty slots |
| MathSort.SortGame.Tick | components/math-sort.js:180 | a scheduled `newRound` fires once and records the session only after the last round |
| MathSort.SortGame.Drop | components/math-sort.js:121-134 | a tile fills an empty slot and leaves the palette; a drop that fills the row judges it by ascending order, counts the round and schedules the next |
| MathSort.SortGame.CheckCompletion | components/math-sort.js:163-181 | a full row counts one attempt, right exactly when it ascends (ten points, else five off, never below zero), and advances to the next round |
| MathSort.Launch | components/math-sort.js:32-48 | the game starts at the difficulty read from the last three sessions of the game, capped at 5, with its first round laid out and nothing recorded |
| MathMemory.PairCount | components/math-memory.js:39 | a game asks for four to eight pairs |
| MathMemory.TargetSum | components/math-memory.js:40 | the target is 10, 15, 20, 25 or 30 |
| MathMemory.Candidate | components/math-memory.js:58-60 | each draw gives two positive numbers adding up to the target, so the `a <= 0 \|\| b <= 0` guard never rejects one |
| MathMemory.Deal | components/math-memory.js:55-65 | the dealing loop pushes only pairs of positive numbers adding up to the target, never two pairs with the same key; every draw used has its key among the pairs; it stops once the cards reach the wanted count |
| MathMemory.DealAsWritten | components/math-memory.js:57 | with the loop bounded by `pairCount` cards, fewer than `2 * pairCount` cards, that is fewer than `pairCount` pairs, are dealt |
| MathMemory.DealCorrected | components/math-memory.js:39-65 | dealing until `2 * pairCount` cards gives exactly one pair of cards per pair to find, each a valid pair |
| MathMemory.Laid | components/math-memory.js:69-83 | the board starts with every tile face down, nothing held and an empty tally |
| MathMemory.FlipAsWritten | components/math-memory.js:84-139 | a face-up or removed tile is ignored; otherwise it turns face up and becomes the first tile, or becomes the second and the pair is judged (penalty 2); with a pair already held it is only turned up |
| MathMemory.Flip | components/math-memory.js:84-139 | the corrected flip ignores every click while a judged pair waits for its timer |
| MathMemory.Reveal | components/math-memory.js:116-135 | the timer of a judged pair removes it when it adds up to the target and turns it face down otherwise; nothing is held afterwards, and `endGame` runs exactly when a match brings the matches to `pairCount` |
| MathMemory.Step | components/math-memory.js:81-135 | a click flips a tile of the board, the timer reveals the held pair; the cards, target and pair count never change |
| MathMemory.Run | components/math-memory.js:81-135 | any run of clicks and timers keeps the board's cards, target and pair count |
| MathMemory.LaidCounted | components/math-memory.js:69-83 | the starting board satisfies the matching invariant: held tiles face up and distinct, two removed or held matched tiles per match counted |
| MathMemory.StepCounted | components/math-memory.js:84-139 | each click (with either flip) and each timer keeps the matching invariant |
| MathMemory.RevealCounted | components/math-memory.js:116-135 | the timer keeps the matching invariant |
| MathMemory.CountedBound | components/math-memory.js:113 | a board keeping the invariant never counts more matches than half its tiles |
| MathMemory.ShortBoardNeverEnds | components/math-memory.js:121 | with fewer than two tiles per pair, `matches === pairCount` never holds, whatever the player does |
| MathMemory.AsWrittenNeverEnds | components/math-memory.js:57-65 | the board dealt as written can never reach `endGame`, so its session is never recorded |
| MathMemory.ThirdFlipSticks | components/math-memory.js:103-106 | as written, a tile clicked while a pair waits is turned face up but held by neither `first` nor `second`; the corrected flip leaves the board as it was |
| MathMemory.StuckForever | components/math-memory.js:85-135 | a tile left face up and untracked stays so whatever follows: clicks on it are ignored and no timer turns it back |
| MathMemory.StuckNeverEnds | components/math-memory.js:85-121 | once a tile is stuck, a board of two tiles per pair can never reach `endGame` |
| MathMemory.GuardedTracked | components/math-memory.js:84-139 | with the corrected flip every face-up tile is always held, so no tile can get stuck |
| MathMemory.InOrderReaches | components/math-memory.js:84-135 | turning up the dealt pairs one after the other, each followed by its timer, finds them one by one |
| MathMemory.CorrectedCanFinish | components/math-memory.js:84-140 | with the corrected deal and flip, a player who turns up each pair in turn removes every tile and reaches `endGame` with one right attempt per pair |
| MathMemory.MemoryGame.constructor | components/math-memory.js:69-83 | the game holds the laid board for its level's target and pair count, with nothing recorded |
| MathMemory.MemoryGame.OnClick | components/math-memory.js:81-139 | a click on a tile applies the corrected flip and keeps every face-up tile tracked |
| MathMemory.MemoryGame.OnTimer | components/math-memory.js:116-174 | the pair's timer reveals it; the session is recorded exactly when the last pair is matched |
| MathMemory.Launch | components/math-memory.js:28-83 | the game starts at the difficulty read from the last three sessions of the game, capped at 5, with the corrected deal of `2 * pairCount` cards face down, dealt as `pairCount` key-distinct pairs adding up to the target, which is the board `CorrectedCanFinish` plays to its end |
| MathFalling.GenerateQuestion | components/math-falling.js:91-98 | both operands lie below `5 + 5 * difficulty`; the question is a sum exactly when the operator draw is below one half, and its answer is the sum or difference of the operands |
| MathFalling.Nearby | components/math-falling.js:193 | every candidate distractor lies within two of the answer |
| MathFalling.SpawnValues | components/math-falling.js:191-196 | the answer comes first, then distinct distractors, each different from the answer and within two of it; three values exactly when the loop finished |
| MathFalling.Lay | components/math-falling.js:198-202 | each value becomes an answer at the top, marked correct exactly when it equals the question's answer |
| MathFalling.NewWave | components/math-falling.js:179-203 | a new question with its answers laid out: distinct values, each marked correct exactly when it is the answer, all at the top, the right one among them |
| MathFalling.OneCorrect | components/math-falling.js:196-201 | exactly one answer of a fresh wave is marked correct |
| MathFalling.InBounds | components/math-falling.js:143-150 | pruning keeps at most the answers it was given |
| MathFalling.InBoundsKeeps | components/math-falling.js:143-150 | pruning keeps exactly the answers not below the area, each still marked as before |
| MathFalling.Missed | components/math-falling.js:152-155 | a frame without a right catch never leaves more answers than it had |
| MathFalling.SettleTally | components/math-falling.js:158-173 | a frame counts one attempt per catch, judging the wrong catches and the first right one in order (ten points, or five off, never below zero) |
| MathFalling.SettleRight | components/math-falling.js:178-182 | a right catch shows the next question and replaces every answer in play by its wave |
| MathFalling.SettleMissed | components/math-falling.js:152-177 | without a right catch, the question stays and every answer not caught stays in play, moved down one step, in order |
| MathFalling.SettleFits | components/math-falling.js:152-184 | after a frame every answer in play is still marked correct exactly when it answers the question on display |
| MathFalling.SweepSkipsNext | components/math-falling.js:152-176 | as written, with two answers in play and the first caught wrong, the second is not moved that frame; the corrected pass moves it |
| MathFalling.KeyMove | components/math-falling.js:72-79 | the left arrow moves the basket left but never past 0, the right arrow moves it right but never past the area's width less 80, other keys leave it; a basket inside the area stays inside |
| MathFalling.TouchMove | components/math-falling.js:82-89 | a touch puts the basket's centre under the finger, clamped to the area |
| MathFalling.StartX | components/math-falling.js:66 | the basket starts centred in the area and inside it |
| MathFalling.StartsOutside | components/math-falling.js:66 | as written the basket starts at -40, outside the range every later move keeps |
| MathFalling.FallingGame.constructor | components/math-falling.js:52-66 | corrected (see Findings): the game starts with the first wave in play, an empty tally, a centred basket and sixty seconds left |
| MathFalling.FallingGame.OnKey | components/math-falling.js:72-80 | a key moves the basket as the key handler does while the game runs, and nothing once the listener is removed |
| MathFalling.FallingGame.OnTouch | components/math-falling.js:82-89 | a touch moves the basket as the touch handler does, even after the end |
| MathFalling.FallingGame.Prune | components/math-falling.js:143-150 | the backward splice loop removes exactly the answers below the area and keeps the rest in order |
| MathFalling.FallingGame.Sweep | components/math-falling.js:152-184 | the move-and-collide pass visits each answer once and leaves the frame the corrected pass defines, keeping the tally consistent and every answer marked right |
| MathFalling.FallingGame.DropLoop | components/math-falling.js:141-185 | every 20 milliseconds while the game runs, the frame is pruned and then swept |
| MathFalling.FallingGame.Second | components/math-falling.js:207-253 | each second counts down while the game runs; at zero the answers are cleared and the session is recorded once |
| MathFalling.Launch | components/math-falling.js:42-51 | the game starts at the difficulty read from the last three sessions of the game, not capped, with a question from that difficulty and exactly one right answer in play |
| ScienceSequence.SequencesShape | components/science-sequence.js:39-46 | every sequence has two to four pictures |
| ScienceSequence.Fitting | components/science-sequence.js:48 | the filter keeps exactly the sequences no longer than the bound |
| ScienceSequence.Available | components/science-sequence.js:48 | at every level some sequence is available, and the available ones are exactly the sequences no longer than the difficulty plus two |
| ScienceSequence.SequenceGame.constructor | components/science-sequence.js:66-122 | the board starts with an empty slot per picture, every picture in the palette and an empty tally |
| ScienceSequence.SequenceGame.Drop | components/science-sequence.js:77-99 | only an empty slot takes a picture, and the first palette picture showing it leaves; the drop that fills the last slot judges the order once and schedules the end |
| ScienceSequence.SequenceGame.CheckCompletion | components/science-sequence.js:130-150 | with every slot filled one attempt is counted, right exactly when each slot holds its own picture (ten points, or five off, never below zero), and `endGame` is scheduled; otherwise nothing changes |
| ScienceSequence.SequenceGame.Tick | components/science-sequence.js:149-182 | the scheduled `endGame` records one session of exactly one attempt |
| ScienceSequence.Launch | components/science-sequence.js:28-56 | the game starts at the difficulty read from the last three sessions of the game, capped at 5, on one of the sequences short enough for it |
| ScienceClassify.Pool | components/science-classify.js:40-82 | each level has the difficulty plus three pictures, every one an animal or a plant |
| ScienceClassify.LowerChar | components/science-classify.js:140 | `toLowerCase` maps an upper-case Latin letter to its lower-case form and keeps every other character |
| ScienceClassify.Lower | components/science-classify.js:140 | lower-casing keeps the length and works character by character |
| ScienceClassify.TrimStartStrips | components/science-classify.js:140 | trimming the front leaves the suffix after the leading white space, which does not start with white space |
| ScienceClassify.TrimEndStrips | components/science-classify.js:140 | trimming the end leaves the prefix before the trailing white space, which does not end with white space |
| ScienceClassify.ReplaceFirstAt | components/science-classify.js:140 | `replace('s', '')` cuts out exactly the first `s` |
| ScienceClassify.ReplaceAbsent | components/science-classify.js:140 | a string without an `s` is kept by the replace |
| ScienceClassify.BinCategory | components/science-classify.js:140 | the bin's category is never longer than its label |
| ScienceClassify.BinsNamed | components/science-classify.js:92-140 | the bins labelled "Animals" and "Plants" get the categories "animal" and "plant" |
| ScienceClassify.OneBinEach | components/science-classify.js:147-151 | each picture of a pool is taken by its own bin and refused by the other, so every level can be cleared |
| ScienceClassify.ClassifyGame.constructor | components/science-classify.js:82-127 | the game starts with the level's pictures all waiting, empty bins and an empty tally |
| ScienceClassify.ClassifyGame.Drop | components/science-classify.js:145-175 | each drop is one attempt, right exactly when the bin's category is the picture's (ten points, or five off, never below zero); a right drop moves that picture into the bin, and the session is recorded once none is left, with every picture of the pool counted right exactly once |
| ScienceClassify.ClassifyGame.EndGame | components/science-classify.js:180-212 | the session is recorded once, after every picture of the pool has gone into a bin |
| ScienceClassify.Launch | components/science-classify.js:29-82 | the game starts at the difficulty read from the last three sessions of the game, capped at 5, with that level's pictures |
| Home.Registered | main.js:28-48 | after a run of registrations every key already present, and every key registered, has a view, and no other key does |
| Home.RegisterAll | main.js:28-48 | the start-up calls register the views one after the other and change nothing else of the engine |
| Home.KeyAt | main.js:32-69 | every game key is the key of one of the start-up registrations |
| Home.GameKeysRegistered | main.js:28-69 | every one of the seventeen game keys has its view registered at start-up |
| Home.FirstKeysDiffer | main.js:51-69 | the list of game keys has at least two different keys |
| Home.Without | components/home.js:69 | the filter keeps exactly the keys other than the last game's |
| Home.Candidates | components/home.js:65-70 | with a last game stored and more than one key, the candidates are exactly the keys other than it; otherwise they are all the keys |
| Home.FreshPick | components/home.js:65-71 | with a key other than the last game's available, Quick Play has a candidate and none of them is the last game |
| Home.Chosen | components/home.js:71 | the key drawn is one of the candidates, or `undefined` when there are none |
| Home.QuickPlay | components/home.js:63-74 | Quick Play stores the key drawn as the last game and navigates to it, rendering its view when it is registered and the not-found page otherwise |
| Home.BootThenQuickPlay | components/home.js:63-74 | after start-up registers the games, Quick Play always renders a registered game, never the one played last, and stores it as the last game |

## Left out

- DOM construction, styling, `innerHTML` summaries, `toFixed` formatting and the text of every screen are not modelled. This is presentation; a view is modelled by the component it renders and its parameters.
- Sounds, ambient audio and `playSound` are left out because they are foreign and cosmetic.
- The `sort(() => Math.random() - 0.5)` shuffles of tiles, options and pools are not modelled. The order things are shown in does not change any judgement, so the model keeps them in generation order.
- Pixel geometry and collisions are parameters:
  - the `getBoundingClientRect` collision test of the falling game is a per-frame parameter (`hits`);
  - the area's width and height are constants of the game;
  - positions are exact reals;
  - the memory board's grid columns are left out.
- Drag data that does not come from the game's own tiles is not modelled. A drop always carries a tile that is on the board, because the game creates no other drag source.
- The rejection loops are modelled on finite random streams and report with a `done` flag whether they finished. They terminate only with probability one. These are:
  - `generateNumbers` (sort);
  - the distractor loops (falling, calc, spell, pattern);
  - the dealing loop (memory).
- A game whose stream runs out gets an empty round or board, and the model proves nothing about such a round beyond the game's invariant.
- `toLowerCase` and `trim` are modelled on ASCII only. This covers the letters and white space the labels use; other Unicode mappings are not modelled.
- Timestamps are integer milliseconds rather than `Date` objects and ISO strings. The report's play time uses their difference.
- `localStorage` and `JSON.parse`/`JSON.stringify` are reduced to an optional stored value. That value is a serialized ledger or other text.
- `window.GAME_KEYS` is a parameter of Quick Play. `Home.GameKeys` and `Home.Registrations` give the values `main.js` sets.
- The sequence game's branch for drags coming from another slot (`fromContainer === 'slots'`) is not modelled. It is unreachable because slots are never made draggable.
- `hintsUsed` is always 0 in the sessions the games record, and nothing reads it.
- The pages `gameSelect.js` and `analyticsPage.js` are not part of this model:
  - the first is a static table of game cards;
  - the second renders charts through a foreign charting library, and its only arithmetic is a per-game average of what `getReport` already computes.
- The home page's subject cards and its Analytics button are not modelled. Each only calls `navigate` with a constant key, which `Engine.GameEngine.Navigate` covers.
- Storage.Load: stored text that is JSON but not a ledger (`{}`, `null`, `[]`) is not modelled. `JSON.parse` accepts it and only the later `push` or `filter` throws; the stored value is either a serialized ledger or text that is not JSON.
- EnglishSynonyms.Launch: models the corrected game, with the round count capped at the pool size. The game as written is `EnglishSynonyms.LaunchAsWritten`, which `PoolQuiz.RunDry` shows runs dry.
- EnglishAntonyms.Launch: models the corrected game, with the round count capped at the pool size. The game as written is `EnglishAntonyms.LaunchAsWritten`, which runs dry.
- ScienceWeather.Launch: models the corrected game, with the round count capped at the pool size. The game as written is `ScienceWeather.LaunchAsWritten`, which runs dry.
- ScienceBody.Launch: models the corrected game, with the round count capped at the pool size. The game as written is `ScienceBody.LaunchAsWritten`, which runs dry.
- MathSign.Choose: judges with the corrected rule, under which any operator that makes the equation true scores. The judgement as written is `MathSign.ChooseAsWritten`.
- MathFalling.FallingGame.constructor: starts the basket centred, as corrected. As written it starts at `offsetWidth / 2 - 40` while the area is still detached, that is at -40 (`MathFalling.StartXAsWritten`, `MathFalling.StartsOutside`); the class keeps the basket inside the area, so it starts from the corrected position.
- Concurrency is not modelled. Timer callbacks and events run one at a time, as in the browser's event loop, and the environment chooses their order.

## Findings

| source | as written | input that shows it | evidently intended | confidence | as-written member | corrected member |
|---|---|---|---|---|---|---|
| components/english-synonyms.js:40 | `rounds = 3 + currentDifficulty` over a three-question pool drained by `splice` | any difficulty: the fourth round draws from an empty pool, `currentQuestion` is undefined and reading its fields throws, so no session is recorded | the rounds capped at the pool size, as `english-rhymes.js:71` does | not executed; high | EnglishSynonyms.AsWrittenRunsDry | EnglishSynonyms.RoundsDraw |
| components/english-antonyms.js:40 | `rounds = 3 + currentDifficulty` over a three-question pool drained by `splice` | any difficulty: the fourth round draws from an empty pool and the game throws before recording | the rounds capped at the pool size | not executed; high | EnglishAntonyms.AsWrittenRunsDry | EnglishAntonyms.RoundsDraw |
| components/science-weather.js:40 | `rounds = 3 + currentDifficulty` over a three-question pool drained by `splice` | any difficulty: the fourth round draws from an empty pool and the game throws before recording | the rounds capped at the pool size | not executed; high | ScienceWeather.AsWrittenRunsDry | ScienceWeather.RoundsDraw |
| components/science-body.js:41 | `rounds = 3 + currentDifficulty` over a three-statement pool drained by `splice` | any difficulty: the fourth round draws from an empty pool and the game throws before recording | the rounds capped at the pool size, as `science-quiz.js:80` does | not executed; high | ScienceBody.AsWrittenRunsDry | ScienceBody.RoundsDraw |
| components/math-memory.js:57 | `while (cards.length < pairCount)` pushes two cards per pair | difficulty 1: the loop stops at 4 cards, that is 2 pairs, while `endGame` waits for `matches === 4` | deal `2 * pairCount` cards, one pair per match to find | not executed; high | MathMemory.AsWrittenNeverEnds | MathMemory.CorrectedCanFinish |
| components/math-memory.js:103-106 | a third tile clicked while a judged pair waits for its timer is turned face up but held by neither `first` nor `second` | flip two tiles that do not match and click a third within 800 ms: it stays face up, ignored by every later click | clicks ignored while a pair is pending | not executed; high | MathMemory.StuckNeverEnds | MathMemory.GuardedTracked |
| components/math-sign.js:119 | an answer is right only when it is the operator the equation was generated with | difficulty 3 with random numbers 0, 0.025, 0.025: the equation `2 _ 2 = 4` is made with `+`, and the `×` button, which also makes it true, scores as wrong | any operator that makes the equation true is right | not executed; medium | MathSign.AsWrittenRejectsTrueOperator | MathSign.Judge |
| components/english-spell.js:127-159 | `endGame` leaves the last word's letter buttons on screen | after the last round a click on a remaining letter schedules another `nextQuestion`, which runs `endGame` again and records a second session | the letters cleared at the end, as the other games clear their boards | not executed; high | EnglishSpell.ClickAfterEndAsWritten | EnglishSpell.Tick |
| components/math-falling.js:152-176 | `forEach` over `activeAnswers` while a catch splices the array | two answers in play, the first caught wrong: the second moves into index 0 and is not moved down that frame | every answer not caught moves down each frame | not executed; high | MathFalling.SweepSkipsNext | MathFalling.SettleMissed |
| components/math-falling.js:66 | `basketX = gameArea.offsetWidth / 2 - 40` computed before the view is attached (`services/gameEngine.js:74`) | any start: `offsetWidth` reads 0, so the basket starts at -40, left of the area | the basket centred in the area | not executed; medium | MathFalling.StartsOutside | MathFalling.StartX |
