/** The difficulty adaptor: a stateless service that moves a level up or down by one
    according to the mean score of a window of recent sessions. */
module Adaptivity {
  import opened Basics
  import opened Sessions

  datatype Rules = Rules(promoteThreshold: int, demoteThreshold: int, maxLevel: int, minLevel: int)

  /** `defaultRules`: promote at a mean of at least 90, demote at most 60, levels 1 to 5. */
  const DefaultRules := Rules(90, 60, 5, 1)

  /** The service holds nothing but its rules, fixed at construction. */
  datatype Service = Service(rules: Rules) {

    /** `calculateDifficulty`: mean of the window's scores (0 for an empty window), then one step
        up at the promote threshold, one step down at the demote threshold, clamped to the levels. */
    function CalculateDifficulty(recent: seq<Session>, current: int): (r: int)
      ensures rules.minLevel <= current <= rules.maxLevel ==>
                rules.minLevel <= r <= rules.maxLevel && current - 1 <= r <= current + 1
    {
      var avg := Mean(Scores(recent));
      if avg >= rules.promoteThreshold as real then Min(current + 1, rules.maxLevel)
      else if avg <= rules.demoteThreshold as real then Max(current - 1, rules.minLevel)
      else current
    }
  }

  /** The constructor: `options.rules` when supplied, otherwise the defaults, taken whole. */
  function New(options: Option<Rules>): (s: Service)
    ensures options.Some? ==> s.rules == options.value
    ensures options.None? ==> s.rules == DefaultRules
  {
    Service(options.GetOr(DefaultRules))
  }

  /** An empty window has mean 0, so with the default rules it demotes (it does not keep the level). */
  lemma EmptyWindowDemotes(current: int)
    ensures New(None).CalculateDifficulty([], current) == Max(current - 1, 1)
  {
  }

  /** For the same current level inside the range, a higher window mean never gives a lower level. */
  lemma Monotone(s: Service, low: seq<Session>, high: seq<Session>, current: int)
    requires s.rules.minLevel <= current <= s.rules.maxLevel
    requires Mean(Scores(low)) <= Mean(Scores(high))
    ensures s.CalculateDifficulty(low, current) <= s.CalculateDifficulty(high, current)
  {
  }

  /** A window in which every score reaches the promote threshold always promotes. */
  lemma UniformWindowPromotes(s: Service, recent: seq<Session>, current: int)
    requires recent != []
    requires forall i :: 0 <= i < |recent| ==> recent[i].score >= s.rules.promoteThreshold
    ensures s.CalculateDifficulty(recent, current) == Min(current + 1, s.rules.maxLevel)
  {
    var xs := Scores(recent);
    var t := s.rules.promoteThreshold as real;
    var top := MaxReal(xs);
    MeanBounds(xs, t, top);
  }

  /** A window in which every score is at or below the demote threshold always demotes, provided the
      demote threshold lies below the promote one; an empty window does so too when the demote
      threshold is not negative, since its mean is 0. */
  lemma UniformWindowDemotes(s: Service, recent: seq<Session>, current: int)
    requires s.rules.demoteThreshold < s.rules.promoteThreshold
    requires recent == [] ==> 0 <= s.rules.demoteThreshold
    requires forall i :: 0 <= i < |recent| ==> recent[i].score <= s.rules.demoteThreshold
    ensures s.CalculateDifficulty(recent, current) == Max(current - 1, s.rules.minLevel)
  {
    var xs := Scores(recent);
    if xs != [] {
      MeanBounds(xs, MinReal(xs), s.rules.demoteThreshold as real);
    }
  }

  /** A non-empty window in which every score lies strictly between the two thresholds keeps the
      level: scores are whole numbers, so the mean stays at least one point inside either threshold. */
  lemma UniformWindowHolds(s: Service, recent: seq<Session>, current: int)
    requires recent != []
    requires forall i :: 0 <= i < |recent| ==>
               s.rules.demoteThreshold < recent[i].score < s.rules.promoteThreshold
    ensures s.CalculateDifficulty(recent, current) == current
  {
    var xs := Scores(recent);
    MeanBounds(xs, (s.rules.demoteThreshold + 1) as real, (s.rules.promoteThreshold - 1) as real);
  }

  function MaxReal(xs: seq<real>): (m: real)
    requires xs != []
    ensures forall i :: 0 <= i < |xs| ==> xs[i] <= m
  {
    if |xs| == 1 then xs[0] else var m' := MaxReal(xs[1..]); if xs[0] >= m' then xs[0] else m'
  }

  function MinReal(xs: seq<real>): (m: real)
    requires xs != []
    ensures forall i :: 0 <= i < |xs| ==> m <= xs[i]
  {
    if |xs| == 1 then xs[0] else var m' := MinReal(xs[1..]); if xs[0] <= m' then xs[0] else m'
  }

  function S(score: int): Session {
    Session("u", "math", "math-compare", 0, 0, score, 0.0, 1, 0)
  }

  /** Worked cases with the default rules: means 95.67, 45, 75, a promotion at the top level,
      a demotion at the bottom level, and the empty window. */
  lemma Examples()
    ensures New(None).CalculateDifficulty([S(95), S(92), S(100)], 2) == 3
    ensures New(None).CalculateDifficulty([S(40), S(50)], 3) == 2
    ensures New(None).CalculateDifficulty([S(75)], 3) == 3
    ensures New(None).CalculateDifficulty([S(100)], 5) == 5
    ensures New(None).CalculateDifficulty([S(0)], 1) == 1
    ensures New(None).CalculateDifficulty([], 3) == 2
  {
    assert Scores([S(95), S(92), S(100)]) == [95.0, 92.0, 100.0];
    assert Scores([S(40), S(50)]) == [40.0, 50.0];
    assert Scores([S(75)]) == [75.0];
    assert Scores([S(100)]) == [100.0];
    assert Scores([S(0)]) == [0.0];
  }
}
