/** The aggregate report of the analytics service (`getReport`, `avg`, `msToHms`), computed
    from one user's sessions in ledger order. */
module Report {
  import opened Basics
  import opened Sessions

  /** One `[key, count]` pair of `Object.entries` over a counting `reduce`. */
  datatype Entry = Entry(key: string, count: nat)

  function Keys(es: seq<Entry>): (ks: seq<string>)
    ensures |ks| == |es|
    ensures forall i :: 0 <= i < |es| ==> ks[i] == es[i].key
  {
    if es == [] then [] else [es[0].key] + Keys(es[1..])
  }

  predicate DistinctKeys(es: seq<Entry>) {
    forall i, j :: 0 <= i < j < |es| ==> es[i].key != es[j].key
  }

  function Occurrences(ks: seq<string>, k: string): nat {
    if ks == [] then 0 else (if ks[0] == k then 1 else 0) + Occurrences(ks[1..], k)
  }

  lemma {:induction false} OccurrencesSnoc(ks: seq<string>, x: string, k: string)
    ensures Occurrences(ks + [x], k) == Occurrences(ks, k) + (if x == k then 1 else 0)
  {
    if ks == [] {
      assert ks + [x] == [x];
    } else {
      assert (ks + [x])[1..] == ks[1..] + [x];
      OccurrencesSnoc(ks[1..], x, k);
    }
  }

  lemma {:induction false} OccurrencesPositive(ks: seq<string>, k: string)
    ensures Occurrences(ks, k) > 0 <==> k in ks
  {
    if ks != [] {
      OccurrencesPositive(ks[1..], k);
      assert k in ks <==> ks[0] == k || k in ks[1..];
    }
  }

  /** One step of the counting `reduce`: `map[k] = (map[k] || 0) + 1`, a new key going last. */
  function Bump(es: seq<Entry>, k: string): (r: seq<Entry>)
    ensures |r| == |es| || |r| == |es| + 1
    ensures forall i :: 0 <= i < |es| ==> r[i].key == es[i].key
  {
    if es == [] then [Entry(k, 1)]
    else if es[0].key == k then [Entry(k, es[0].count + 1)] + es[1..]
    else [es[0]] + Bump(es[1..], k)
  }

  /** The counting `reduce` followed by `Object.entries`: keys in first-encounter order. */
  function CountBy(ks: seq<string>): seq<Entry> {
    if ks == [] then [] else Bump(CountBy(ks[..|ks| - 1]), ks[|ks| - 1])
  }

  /** What the count of a key is after counting. */
  ghost predicate Counts(es: seq<Entry>, ks: seq<string>) {
    DistinctKeys(es) &&
    (forall k :: k in ks <==> k in Keys(es)) &&
    (forall i :: 0 <= i < |es| ==> es[i].count == Occurrences(ks, es[i].key))
  }

  lemma {:induction false} BumpCounts(es: seq<Entry>, ks: seq<string>, k: string)
    requires Counts(es, ks)
    ensures Counts(Bump(es, k), ks + [k])
  {
    var r := Bump(es, k);
    BumpShape(es, k);
    forall x ensures x in ks + [k] <==> x in Keys(r) {
      assert x in ks + [k] <==> x in ks || x == k;
    }
    forall i | 0 <= i < |r| ensures r[i].count == Occurrences(ks + [k], r[i].key) {
      OccurrencesSnoc(ks, k, r[i].key);
      if i == |es| {
        assert k !in Keys(es);
        OccurrencesPositive(ks, k);
      }
    }
  }

  /** Bump grows the list only for a new key, which it appends as `Entry(k, 1)`. */
  lemma {:induction false} BumpLength(es: seq<Entry>, k: string)
    ensures k in Keys(es) ==> |Bump(es, k)| == |es|
    ensures k !in Keys(es) ==> |Bump(es, k)| == |es| + 1 && Bump(es, k)[|es|] == Entry(k, 1)
  {
    if es != [] {
      assert Keys(es) == [es[0].key] + Keys(es[1..]);
      if es[0].key != k {
        BumpLength(es[1..], k);
      }
    }
  }

  /** Bump increments the entry with key `k` and leaves every other entry alone. */
  lemma {:induction false} BumpAt(es: seq<Entry>, k: string, i: nat)
    requires DistinctKeys(es) && i < |es|
    ensures Bump(es, k)[i] == (if es[i].key == k then Entry(k, es[i].count + 1) else es[i])
  {
    if es[0].key == k {
      if i > 0 {
        assert es[0].key != es[i].key;
      }
    } else if i > 0 {
      assert es[1..][i - 1] == es[i];
      BumpAt(es[1..], k, i - 1);
    }
  }

  /** Bump either increments the entry with key `k` or appends `Entry(k, 1)`, leaving all else alone. */
  lemma BumpShape(es: seq<Entry>, k: string)
    requires DistinctKeys(es)
    ensures DistinctKeys(Bump(es, k))
    ensures k in Keys(es) ==> |Bump(es, k)| == |es|
    ensures k !in Keys(es) ==> |Bump(es, k)| == |es| + 1 && Bump(es, k)[|es|] == Entry(k, 1)
    ensures forall i :: 0 <= i < |es| ==>
              Bump(es, k)[i] == (if es[i].key == k then Entry(k, es[i].count + 1) else es[i])
  {
    var r := Bump(es, k);
    BumpLength(es, k);
    forall i | 0 <= i < |es|
      ensures r[i] == (if es[i].key == k then Entry(k, es[i].count + 1) else es[i])
    {
      BumpAt(es, k, i);
    }
    forall i, j | 0 <= i < j < |r|
      ensures r[i].key != r[j].key
    {
      if j == |es| {
        assert r[i].key == Keys(es)[i];
      }
    }
  }

  /** Every counted key was met. */
  lemma KeyMet(ks: seq<string>, a: nat)
    requires a < |CountBy(ks)|
    ensures CountBy(ks)[a].key in ks
  {
    CountByCounts(ks);
    assert Keys(CountBy(ks))[a] == CountBy(ks)[a].key;
  }

  /** Every key met is counted. */
  lemma KeyCounted(ks: seq<string>, k: string) returns (a: nat)
    requires k in ks
    ensures a < |CountBy(ks)| && CountBy(ks)[a].key == k
  {
    CountByCounts(ks);
    var es := CountBy(ks);
    assert k in Keys(es);
    a :| 0 <= a < |es| && Keys(es)[a] == k;
  }

  /** No key is counted twice. */
  lemma KeyUnique(ks: seq<string>, a: nat, b: nat)
    requires a < |CountBy(ks)| && b < |CountBy(ks)| && CountBy(ks)[a].key == CountBy(ks)[b].key
    ensures a == b
  {
    CountByCounts(ks);
  }

  /** Counting gives each distinct key once, in first-encounter order, with its number of occurrences. */
  lemma {:induction false} CountByCounts(ks: seq<string>)
    ensures Counts(CountBy(ks), ks)
  {
    if ks != [] {
      var p := ks[..|ks| - 1];
      CountByCounts(p);
      BumpCounts(CountBy(p), p, ks[|ks| - 1]);
      assert p + [ks[|ks| - 1]] == ks;
    }
  }

  /** Place `e` after every entry whose count is at least its own: one step of a stable sort that
      orders by count, highest first (`sort((a, b) => b[1] - a[1])`, stable since ES2019). */
  function Insert(e: Entry, s: seq<Entry>): (r: seq<Entry>)
    ensures |r| == |s| + 1
    ensures multiset(r) == multiset(s) + multiset{e}
  {
    if s == [] then [e]
    else if s[0].count < e.count then [e] + s
    else
      assert s == [s[0]] + s[1..];
      [s[0]] + Insert(e, s[1..])
  }

  function Rank(es: seq<Entry>): (r: seq<Entry>)
    ensures multiset(r) == multiset(es)
  {
    if es == [] then [] else
      var p := es[..|es| - 1];
      assert es == p + [es[|es| - 1]];
      Insert(es[|es| - 1], Rank(p))
  }

  predicate NonIncreasing(es: seq<Entry>) {
    forall i, j :: 0 <= i < j < |es| ==> es[i].count >= es[j].count
  }

  lemma {:induction false} InsertSorted(e: Entry, s: seq<Entry>)
    requires NonIncreasing(s)
    ensures NonIncreasing(Insert(e, s))
  {
    if s != [] && s[0].count >= e.count {
      InsertSorted(e, s[1..]);
      var r := Insert(e, s[1..]);
      forall x: Entry | x in multiset(r) ensures s[0].count >= x.count {
        assert x in multiset(s[1..]) || x == e;
      }
    }
  }

  /** Ranking lists the entries by count, never increasing. */
  lemma {:induction false} RankSorted(es: seq<Entry>)
    ensures NonIncreasing(Rank(es))
  {
    if es != [] {
      RankSorted(es[..|es| - 1]);
      InsertSorted(es[|es| - 1], Rank(es[..|es| - 1]));
    }
  }

  /** The first entry, in order, that has the largest count: the reference for tie-breaking. */
  function FirstMax(es: seq<Entry>): (m: Entry)
    requires es != []
    ensures m in es
    ensures forall i :: 0 <= i < |es| ==> es[i].count <= m.count
    ensures exists j :: 0 <= j < |es| && es[j] == m && forall i :: 0 <= i < j ==> es[i].count < m.count
  {
    if |es| == 1 then es[0]
    else
      var p := es[..|es| - 1];
      var m' := FirstMax(p);
      assert forall i :: 0 <= i < |p| ==> es[i] == p[i];
      if m'.count < es[|es| - 1].count then es[|es| - 1] else m'
  }

  /** Ranking puts first the entry with the most occurrences, ties going to the first encountered. */
  lemma {:induction false} RankHead(es: seq<Entry>)
    requires es != []
    ensures Rank(es)[0] == FirstMax(es)
  {
    var p := es[..|es| - 1];
    if |es| > 1 {
      RankHead(p);
      RankSorted(p);
      var s := Rank(p);
      assert s[0] in multiset(p);
      forall x: Entry | x in multiset(s) ensures x.count <= s[0].count {
        assert x in s;
      }
    }
  }

  /** Each ranked entry is a counted entry, and each counted entry is ranked. */
  lemma RankedFrom(es: seq<Entry>, i: nat) returns (a: nat)
    requires i < |Rank(es)|
    ensures a < |es| && es[a] == Rank(es)[i]
  {
    assert Rank(es)[i] in multiset(es);
    a :| 0 <= a < |es| && es[a] == Rank(es)[i];
  }

  lemma RankedTo(es: seq<Entry>, a: nat) returns (i: nat)
    requires a < |es|
    ensures i < |Rank(es)| && Rank(es)[i] == es[a]
  {
    assert es[a] in multiset(Rank(es));
    i :| 0 <= i < |Rank(es)| && Rank(es)[i] == es[a];
  }

  lemma {:induction false} RankDistinct(es: seq<Entry>)
    requires DistinctKeys(es)
    ensures DistinctKeys(Rank(es))
  {
    var r := Rank(es);
    forall i, j | 0 <= i < j < |r| ensures r[i].key != r[j].key {
      if r[i].key == r[j].key {
        assert r[i] in multiset(es) && r[j] in multiset(es);
        var a :| 0 <= a < |es| && es[a] == r[i];
        var b :| 0 <= b < |es| && es[b] == r[j];
        assert a == b;
        MultiplicityOne(es, a);
        TwoPositions(r, i, j);
        assert false;
      }
    }
  }

  lemma MultiplicityOne(es: seq<Entry>, a: nat)
    requires DistinctKeys(es) && a < |es|
    ensures multiset(es)[es[a]] == 1
  {
    var x := es[a];
    assert es == es[..a] + [x] + es[a + 1..];
    assert x !in es[..a] && x !in es[a + 1..] by {
      forall i | 0 <= i < |es| && i != a ensures es[i] != x {
      }
    }
  }

  lemma TwoPositions(r: seq<Entry>, i: nat, j: nat)
    requires i < j < |r| && r[i] == r[j]
    ensures multiset(r)[r[i]] >= 2
  {
    var x := r[i];
    assert r == r[..i] + [x] + r[i + 1..j] + [x] + r[j + 1..];
  }

  datatype Hms = Hms(hours: int, minutes: int, seconds: int)

  /** JavaScript's `%`, whose remainder takes the sign of the dividend. */
  function JsRem(a: int, b: int): int
    requires b > 0
  {
    if a >= 0 then a % b else -((-a) % b)
  }

  /** A whole number of seconds splits into hours, minutes below 60 and seconds below 60. */
  lemma HmsSplit(s: int)
    requires s >= 0
    ensures (s / 3600) * 3600 + ((s % 3600) / 60) * 60 + s % 60 == s
    ensures 0 <= (s % 3600) / 60 < 60
  {
    var h, r := s / 3600, s % 3600;
    var m, sec := r / 60, r % 60;
    assert r == m * 60 + sec;
    assert s == (h * 60 + m) * 60 + sec;
  }

  /** `msToHms`: whole seconds by `Math.floor`, then hours, minutes and seconds. */
  function MsToHms(ms: int): (t: Hms)
    ensures ms >= 0 ==> t.hours * 3600 + t.minutes * 60 + t.seconds == ms / 1000
    ensures ms >= 0 ==> 0 <= t.minutes < 60 && 0 <= t.seconds < 60 && t.hours >= 0
  {
    var seconds := ms / 1000;
    if ms >= 0 then
      HmsSplit(seconds);
      Hms(seconds / 3600, JsRem(seconds, 3600) / 60, JsRem(seconds, 60))
    else
      Hms(seconds / 3600, JsRem(seconds, 3600) / 60, JsRem(seconds, 60))
  }

  datatype ReportData = ReportData(
    totalSessions: nat,
    totalPlayTime: Hms,
    averageScore: real,
    averageAccuracy: real,
    preferredSubject: string,
    preferredGames: seq<string>,
    improvementRate: real)

  function PlayTimeMs(ss: seq<Session>): int {
    if ss == [] then 0 else (ss[0].endTime - ss[0].startTime) + PlayTimeMs(ss[1..])
  }

  function Subjects(ss: seq<Session>): (r: seq<string>)
    ensures |r| == |ss| && forall i :: 0 <= i < |ss| ==> r[i] == ss[i].subject
  {
    if ss == [] then [] else [ss[0].subject] + Subjects(ss[1..])
  }

  function GameIds(ss: seq<Session>): (r: seq<string>)
    ensures |r| == |ss| && forall i :: 0 <= i < |ss| ==> r[i] == ss[i].gameId
  {
    if ss == [] then [] else [ss[0].gameId] + GameIds(ss[1..])
  }

  /** Relative change from the first to the last score; 0 for a single session. */
  function ImprovementRate(ss: seq<Session>): (rate: real)
    requires ss != []
    ensures |ss| == 1 ==> rate == 0.0
    ensures |ss| > 1 ==> (rate > 0.0 <==> ss[|ss| - 1].score > ss[0].score)
    ensures |ss| > 1 ==> (rate == 0.0 <==> ss[|ss| - 1].score == ss[0].score)
  {
    if |ss| > 1 then
      (ss[|ss| - 1].score - ss[0].score) as real / Max(ss[0].score, 1) as real
    else 0.0
  }

  /** The body of `getReport` after its filter: null for no sessions. */
  function ReportOf(ss: seq<Session>): (r: Option<ReportData>)
    ensures r.None? <==> ss == []
    ensures r.Some? ==> r.value.totalSessions == |ss|
  {
    if ss == [] then None
    else
      CountByCounts(Subjects(ss));
      assert ss[0].subject in Subjects(ss);
      Some(ReportData(
        |ss|,
        MsToHms(PlayTimeMs(ss)),
        Mean(Scores(ss)),
        Mean(Accuracies(ss)),
        Rank(CountBy(Subjects(ss)))[0].key,
        Keys(Rank(CountBy(GameIds(ss)))),
        ImprovementRate(ss)))
  }

  /** The preferred subject occurs at least as often as any other subject, and every subject that
      comes earlier in the sessions occurs strictly less often. */
  lemma PreferredSubject(ss: seq<Session>)
    requires ss != []
    ensures var p := ReportOf(ss).value.preferredSubject;
            var subs := Subjects(ss);
            p in subs &&
            (forall k :: k in subs ==> Occurrences(subs, k) <= Occurrences(subs, p)) &&
            (forall i :: 0 <= i < |subs| && subs[i] != p && (p !in subs[..i]) ==>
               Occurrences(subs, subs[i]) < Occurrences(subs, p))
  {
    var subs := Subjects(ss);
    var es := CountBy(subs);
    var first := KeyCounted(subs, subs[0]);
    RankHead(es);
    var m := FirstMax(es);
    var p := m.key;
    assert ReportOf(ss).value.preferredSubject == p;
    var j :| 0 <= j < |es| && es[j] == m && forall i :: 0 <= i < j ==> es[i].count < m.count;
    KeyMet(subs, j);
    CountOf(subs, j);
    forall k | k in subs ensures Occurrences(subs, k) <= Occurrences(subs, p) {
      var a := KeyCounted(subs, k);
      CountOf(subs, a);
    }
    forall i | 0 <= i < |subs| && subs[i] != p && p !in subs[..i]
      ensures Occurrences(subs, subs[i]) < Occurrences(subs, p)
    {
      var a := KeyCounted(subs, subs[i]);
      FirstEncounter(subs, i, a, j);
      CountOf(subs, a);
    }
  }

  /** The count of each entry is the number of times its key was met. */
  lemma CountOf(ks: seq<string>, a: nat)
    requires a < |CountBy(ks)|
    ensures CountBy(ks)[a].count == Occurrences(ks, CountBy(ks)[a].key)
  {
    CountByCounts(ks);
  }

  /** Counting lists keys in first-encounter order: the entry of a key met at position `i`, before any
      occurrence of another counted key, comes before that key's entry. */
  lemma {:induction false} FirstEncounter(ks: seq<string>, i: nat, a: nat, j: nat)
    requires i < |ks| && a < |CountBy(ks)| && j < |CountBy(ks)|
    requires CountBy(ks)[a].key == ks[i] && ks[i] != CountBy(ks)[j].key && CountBy(ks)[j].key !in ks[..i]
    ensures a < j
  {
    var ks' := ks[..|ks| - 1];
    KeyMet(ks, j);
    NotLast(ks, i, CountBy(ks)[j].key);
    if CountBy(ks)[j].key in ks' {
      DropLast(ks, i, a, j);
      FirstEncounter(ks', i, a, j);
    } else {
      LastMet(ks, i, a, j);
    }
  }

  /** When both keys were already met before the last step, the same positions describe the earlier
      count. */
  lemma DropLast(ks: seq<string>, i: nat, a: nat, j: nat)
    requires i < |ks| - 1 && a < |CountBy(ks)| && j < |CountBy(ks)|
    requires CountBy(ks)[a].key == ks[i] && ks[i] != CountBy(ks)[j].key && CountBy(ks)[j].key !in ks[..i]
    requires CountBy(ks)[j].key in ks[..|ks| - 1]
    ensures var ks' := ks[..|ks| - 1];
            a < |CountBy(ks')| && j < |CountBy(ks')| && CountBy(ks')[a].key == ks'[i] &&
            ks'[i] != CountBy(ks')[j].key && CountBy(ks')[j].key !in ks'[..i]
  {
    var ks' := ks[..|ks| - 1];
    var a' := Earlier(ks, i, a);
    var j' := KeyCounted(ks', CountBy(ks)[j].key);
    StepKeeps(ks, j');
    KeyUnique(ks, j', j);
    assert ks'[..i] == ks[..i];
  }

  /** A key first met at the last step has the last entry, after every key met earlier. */
  lemma LastMet(ks: seq<string>, i: nat, a: nat, j: nat)
    requires i < |ks| - 1 && a < |CountBy(ks)| && j < |CountBy(ks)|
    requires CountBy(ks)[a].key == ks[i] && CountBy(ks)[j].key in ks
    requires CountBy(ks)[j].key !in ks[..|ks| - 1]
    ensures a < j
  {
    var ks' := ks[..|ks| - 1];
    var a' := Earlier(ks, i, a);
    assert ks == ks' + [ks[|ks| - 1]];
    StepAppends(ks);
    KeyUnique(ks, j, |CountBy(ks')|);
  }

  /** A key met somewhere but not up to position `i`, and not at `i`, is met after `i`. */
  lemma NotLast(ks: seq<string>, i: nat, p: string)
    requires i < |ks| && p in ks && p != ks[i] && p !in ks[..i]
    ensures i < |ks| - 1
  {
  }

  /** The entry of a key met before the last step is an entry of the earlier count. */
  lemma Earlier(ks: seq<string>, i: nat, a: nat) returns (a': nat)
    requires i < |ks| - 1 && a < |CountBy(ks)| && CountBy(ks)[a].key == ks[i]
    ensures a' == a && a < |CountBy(ks[..|ks| - 1])|
  {
    var ks' := ks[..|ks| - 1];
    assert ks[i] == ks'[i];
    a' := KeyCounted(ks', ks[i]);
    StepKeeps(ks, a');
    KeyUnique(ks, a', a);
  }

  /** Counting one more key leaves the earlier entries' keys in place. */
  lemma StepKeeps(ks: seq<string>, b: nat)
    requires ks != [] && b < |CountBy(ks[..|ks| - 1])|
    ensures b < |CountBy(ks)| && CountBy(ks)[b].key == CountBy(ks[..|ks| - 1])[b].key
  {
  }

  /** Counting a key not met before appends its entry. */
  lemma StepAppends(ks: seq<string>)
    requires ks != [] && ks[|ks| - 1] !in ks[..|ks| - 1]
    ensures |CountBy(ks[..|ks| - 1])| < |CountBy(ks)|
    ensures CountBy(ks)[|CountBy(ks[..|ks| - 1])|].key == ks[|ks| - 1]
  {
    var ks' := ks[..|ks| - 1];
    var last := ks[|ks| - 1];
    CountByCounts(ks');
    BumpShape(CountBy(ks'), last);
  }

  /** Each distinct game appears once among the preferred games, ordered by number of sessions. */
  lemma PreferredGames(ss: seq<Session>)
    requires ss != []
    ensures var g := ReportOf(ss).value.preferredGames;
            var ids := GameIds(ss);
            (forall k :: k in g <==> k in ids) &&
            (forall i, j :: 0 <= i < j < |g| ==> g[i] != g[j]) &&
            (forall i, j :: 0 <= i < j < |g| ==> Occurrences(ids, g[i]) >= Occurrences(ids, g[j]))
  {
    RankedKeysCover(GameIds(ss));
    RankedKeysDistinct(GameIds(ss));
    RankedKeysOrdered(GameIds(ss));
  }

  lemma RankedKeysCover(ks: seq<string>)
    ensures forall k :: k in Keys(Rank(CountBy(ks))) <==> k in ks
  {
    var es := CountBy(ks);
    var g := Keys(Rank(es));
    forall k ensures k in g <==> k in ks {
      if k in ks {
        var a := KeyCounted(ks, k);
        var b := RankedTo(es, a);
        assert g[b] == k;
      }
      if k in g {
        var b :| 0 <= b < |g| && g[b] == k;
        var a := RankedFrom(es, b);
        KeyMet(ks, a);
      }
    }
  }

  lemma RankedKeysDistinct(ks: seq<string>)
    ensures forall i, j :: 0 <= i < j < |Keys(Rank(CountBy(ks)))| ==>
              Keys(Rank(CountBy(ks)))[i] != Keys(Rank(CountBy(ks)))[j]
  {
    CountByCounts(ks);
    RankDistinct(CountBy(ks));
  }

  lemma RankedKeysOrdered(ks: seq<string>)
    ensures forall i, j :: 0 <= i < j < |Keys(Rank(CountBy(ks)))| ==>
              Occurrences(ks, Keys(Rank(CountBy(ks)))[i]) >= Occurrences(ks, Keys(Rank(CountBy(ks)))[j])
  {
    var es := CountBy(ks);
    var r := Rank(es);
    RankSorted(es);
    forall i | 0 <= i < |r| ensures r[i].count == Occurrences(ks, Keys(r)[i]) {
      var a := RankedFrom(es, i);
      CountOf(ks, a);
    }
  }

  /** Averages of bounded values stay within the bounds: accuracies in [0, 1] average in [0, 1]. */
  lemma AveragesBounded(ss: seq<Session>, lo: real, hi: real)
    requires ss != []
    requires forall i :: 0 <= i < |ss| ==> lo <= ss[i].accuracy <= hi
    ensures lo <= ReportOf(ss).value.averageAccuracy <= hi
  {
    MeanBounds(Accuracies(ss), lo, hi);
  }

  /** The play time is the sum of the session durations: never negative when no session ends
      before it starts, and split into hours, minutes and seconds of the whole seconds it holds. */
  lemma {:induction false} PlayTimeNonNegative(ss: seq<Session>)
    requires forall i :: 0 <= i < |ss| ==> ss[i].startTime <= ss[i].endTime
    ensures PlayTimeMs(ss) >= 0
  {
    if ss != [] {
      PlayTimeNonNegative(ss[1..]);
    }
  }

  lemma PlayTimeSplit(ss: seq<Session>)
    requires ss != []
    requires forall i :: 0 <= i < |ss| ==> ss[i].startTime <= ss[i].endTime
    ensures var t := ReportOf(ss).value.totalPlayTime;
            t.hours * 3600 + t.minutes * 60 + t.seconds == PlayTimeMs(ss) / 1000 &&
            0 <= t.minutes < 60 && 0 <= t.seconds < 60
  {
    PlayTimeNonNegative(ss);
    var t := MsToHms(PlayTimeMs(ss));
    assert ReportOf(ss).value.totalPlayTime == t;
  }
}
