/** The home page's Quick Play button and the application's start-up wiring it relies on: the views
    registered with the engine and the list of game keys Quick Play draws from. */
module Home {
  import opened Basics
  import opened Storage
  import opened Engine

  /** The `registerView` calls made at start-up, in order: key and component. */
  const Registrations: seq<(string, Component)> := [
    ("home", "home"), ("gameSelect", "gameSelect"), ("analytics", "analyticsPage"),
    ("math-falling", "mathFallingGame"), ("math-memory", "mathMemory"),
    ("english-scramble", "englishScramble"), ("english-spell", "englishSpell"),
    ("science-classify", "scienceClassify"), ("science-sequence", "scienceSequence"),
    ("math-sort", "mathSort"), ("math-compare", "mathCompare"), ("english-rhymes", "englishRhymes"),
    ("science-quiz", "scienceQuiz"), ("math-calc", "mathCalc"), ("math-pattern", "mathPattern"),
    ("math-sign", "mathSign"), ("english-synonyms", "englishSynonyms"),
    ("english-antonyms", "englishAntonyms"), ("science-weather", "scienceWeather"),
    ("science-body", "scienceBody")
  ]

  /** `GAME_KEYS`: the seventeen games. */
  const GameKeys: seq<string> := [
    "math-falling", "math-memory", "math-sort", "math-compare", "math-calc", "math-pattern", "math-sign",
    "english-scramble", "english-spell", "english-rhymes", "english-synonyms", "english-antonyms",
    "science-classify", "science-sequence", "science-quiz", "science-weather", "science-body"
  ]

  /** What `navigate` is called with when there is no candidate: `candidates[0]` of an empty list. */
  const Undefined := "undefined"

  /** The registry after registering `regs` one after the other on top of `views`. */
  function Registered(views: map<string, Component>, regs: seq<(string, Component)>): (m: map<string, Component>)
    ensures forall k :: k in views ==> k in m
    ensures forall i :: 0 <= i < |regs| ==> regs[i].0 in m
    ensures forall k :: k in m ==> k in views || exists i :: 0 <= i < |regs| && regs[i].0 == k
    decreases |regs|
  {
    if regs == [] then views else Registered(views[regs[0].0 := regs[0].1], regs[1..])
  }

  /** The `registerView` calls, one after the other. */
  method RegisterAll(engine: GameEngine, regs: seq<(string, Component)>)
    modifies engine
    decreases |regs|
    ensures engine.views == Registered(old(engine.views), regs)
    ensures engine.currentView == old(engine.currentView) && engine.root == old(engine.root)
    ensures engine.events == old(engine.events) && engine.delivered == old(engine.delivered)
    ensures engine.userId == old(engine.userId)
  {
    if regs != [] {
      engine.RegisterView(regs[0].0, regs[0].1);
      RegisterAll(engine, regs[1..]);
    }
  }

  /** Every game key has its view registered at start-up. */
  lemma GameKeysRegistered()
    ensures forall i :: 0 <= i < |GameKeys| ==> GameKeys[i] in Registered(map[], Registrations)
  {
    var m := Registered(map[], Registrations);
    forall i | 0 <= i < |GameKeys|
      ensures GameKeys[i] in m
    {
      assert GameKeys[i] == Registrations[KeyAt(i)].0;
    }
  }

  /** Where `GAME_KEYS[i]` was registered. */
  function KeyAt(i: nat): (j: nat)
    requires i < |GameKeys|
    ensures j < |Registrations| && Registrations[j].0 == GameKeys[i]
  {
    [3, 4, 9, 10, 13, 14, 15, 5, 6, 11, 16, 17, 7, 8, 12, 18, 19][i]
  }

  /** Quick Play's candidates: every key, except the last game's when one is stored and there is more
      than one key; the filter keeps the order. */
  function Candidates(keys: seq<string>, last: Option<string>): (c: seq<string>)
    ensures Truthy(last) && |keys| > 1 ==> forall k :: k in c <==> k in keys && k != last.value
    ensures !(Truthy(last) && |keys| > 1) ==> c == keys
    ensures |c| <= |keys|
  {
    if Truthy(last) && |keys| > 1 then Without(keys, last.value) else keys
  }

  /** `keys.filter(k => k !== x)`. */
  function Without(keys: seq<string>, x: string): (r: seq<string>)
    ensures forall k :: k in r <==> k in keys && k != x
    ensures |r| <= |keys|
  {
    if keys == [] then []
    else (if keys[0] != x then [keys[0]] else []) + Without(keys[1..], x)
  }

  /** With a key other than the last game's among the keys, Quick Play has a candidate, and none of its
      candidates repeats the last game. */
  lemma FreshPick(keys: seq<string>, last: Option<string>, other: string)
    requires Truthy(last) && other in keys && other != last.value
    ensures Candidates(keys, last) != []
    ensures forall k :: k in Candidates(keys, last) ==> k != last.value
  {
    if |keys| <= 1 {
      assert keys == [other];
    }
    assert other in Candidates(keys, last);
  }

  /** The key a Quick Play press picks with the random number `r`. */
  function Chosen(keys: seq<string>, last: Option<string>, r: real): (k: string)
    requires 0.0 <= r < 1.0
    ensures Candidates(keys, last) != [] ==> k in Candidates(keys, last) && k in keys
    ensures Candidates(keys, last) == [] ==> k == Undefined
  {
    var c := Candidates(keys, last);
    if c == [] then Undefined else c[Pick(r, |c|)]
  }

  /** Quick Play pressed: a random candidate is stored as the last game and navigated to. */
  method QuickPlay(engine: GameEngine, keys: seq<string>, r: real) returns (key: string)
    requires 0.0 <= r < 1.0
    modifies engine, engine.store
    ensures key == Chosen(keys, old(engine.store.lastGame), r)
    ensures engine.store.lastGame == Some(key)
    ensures engine.store.analytics == old(engine.store.analytics) && engine.store.userId == old(engine.store.userId)
    ensures key in engine.views ==> engine.root == Rendered(engine.views[key], map[]) && engine.currentView == Some(key)
    ensures key !in engine.views ==> engine.root == NotFound(key)
    ensures engine.views == old(engine.views)
  {
    key := Chosen(keys, engine.store.lastGame, r);
    engine.store.lastGame := Some(key);
    engine.Navigate(key, map[]);
  }

  /** Start-up registers the views `regs`; when every key is among them, Quick Play then always
      renders a game, and never the one played last when another key is available. */
  method BootThenQuickPlay(store: LocalStorage, suffix: string, regs: seq<(string, Component)>, keys: seq<string>,
                           r: real) returns (engine: GameEngine, key: string)
    requires 0.0 <= r < 1.0
    requires forall i :: 0 <= i < |keys| ==> keys[i] in Registered(map[], regs)
    requires |keys| >= 2 && keys[0] != keys[1]
    modifies store
    ensures key in keys && engine.root.Rendered? && engine.currentView == Some(key)
    ensures Truthy(old(store.lastGame)) ==> key != old(store.lastGame).value
    ensures store.lastGame == Some(key)
  {
    engine := new GameEngine(store, suffix);
    RegisterAll(engine, regs);
    var last := store.lastGame;
    if Truthy(last) {
      FreshPick(keys, last, if last.value == keys[0] then keys[1] else keys[0]);
    }
    key := QuickPlay(engine, keys, r);
  }

  /** The first two game keys differ, so Quick Play always has a key other than the last game's. */
  lemma FirstKeysDiffer()
    ensures |GameKeys| >= 2 && GameKeys[0] != GameKeys[1]
  {
  }
}
