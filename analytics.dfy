/** The analytics singleton: an append-only ledger of sessions mirrored into local storage,
    filtered queries over it, and the per-user report. */
module Analytics {
  import opened Basics
  import opened Sessions
  import opened Storage
  import Report

  /** The filter of `getSessions`: an absent or empty filter value places no constraint. */
  predicate Matches(s: Session, userId: Option<string>, subject: Option<string>) {
    (!Truthy(userId) || s.userId == userId.value) && (!Truthy(subject) || s.subject == subject.value)
  }

  /** `sessions.filter(...)`: the matching sessions, in ledger order. */
  function Filter(ss: seq<Session>, userId: Option<string>, subject: Option<string>): (r: seq<Session>)
    ensures |r| <= |ss|
    ensures forall s :: s in r <==> s in ss && Matches(s, userId, subject)
  {
    if ss == [] then []
    else (if Matches(ss[0], userId, subject) then [ss[0]] else []) + Filter(ss[1..], userId, subject)
  }

  /** Filtering distributes over concatenation, so it keeps the ledger's order. */
  lemma {:induction false} FilterAppend(a: seq<Session>, b: seq<Session>, userId: Option<string>, subject: Option<string>)
    ensures Filter(a + b, userId, subject) == Filter(a, userId, subject) + Filter(b, userId, subject)
  {
    if a == [] {
      assert a + b == b;
    } else {
      assert (a + b)[1..] == a[1..] + b;
      FilterAppend(a[1..], b, userId, subject);
    }
  }

  /** Without filters every session is returned, in order. */
  lemma {:induction false} FilterNone(ss: seq<Session>)
    ensures Filter(ss, None, None) == ss
  {
    if ss != [] {
      FilterNone(ss[1..]);
    }
  }

  /** Filtering by user and subject is filtering by user, then by subject. */
  lemma {:induction false} FilterBoth(ss: seq<Session>, userId: Option<string>, subject: Option<string>)
    ensures Filter(ss, userId, subject) == Filter(Filter(ss, userId, None), None, subject)
  {
    if ss != [] {
      FilterBoth(ss[1..], userId, subject);
      var f := Filter(ss, userId, None);
      if Matches(ss[0], userId, None) {
        assert f == [ss[0]] + Filter(ss[1..], userId, None);
        assert f[1..] == Filter(ss[1..], userId, None);
      } else {
        assert f == Filter(ss[1..], userId, None);
      }
    }
  }

  class AnalyticsService {
    /** `this._data.sessions` */
    var sessions: seq<Session>
    /** The local storage the ledger is persisted to. */
    const store: LocalStorage

    /** The stored item always reads back as the ledger in memory. */
    ghost predicate Valid()
      reads this, store
    {
      Load(store.analytics) == Loaded(sessions)
    }

    /** `new AnalyticsService()`. The constructor throws when the stored text does not parse;
        `Singleton.GetInstance` checks that before constructing. */
    constructor(store: LocalStorage)
      requires Load(store.analytics).Loaded?
      ensures this.store == store && sessions == Load(store.analytics).sessions
      ensures Valid()
    {
      this.store := store;
      sessions := Load(store.analytics).sessions;
    }

    /** `recordSession`: append, then `_save`. */
    method RecordSession(s: Session)
      modifies this, store
      ensures sessions == old(sessions) + [s]
      ensures store.analytics == Some(Json(sessions))
      ensures store.userId == old(store.userId) && store.lastGame == old(store.lastGame)
      ensures Valid()
    {
      sessions := sessions + [s];
      store.analytics := Some(Json(sessions));
    }

    /** `getSessions({ userId, subject })`. */
    function GetSessions(userId: Option<string>, subject: Option<string>): (r: seq<Session>)
      reads this
      ensures forall x :: x in r <==> x in sessions && Matches(x, userId, subject)
    {
      Filter(sessions, userId, subject)
    }

    /** `getReport(userId)`: null when the user has no sessions. */
    function GetReport(userId: Option<string>): (r: Option<Report.ReportData>)
      reads this
      ensures r.None? <==> forall x :: x in sessions ==> !Matches(x, userId, None)
    {
      var ss := Filter(sessions, userId, None);
      assert ss == [] <==> forall x :: x in sessions ==> !Matches(x, userId, None) by {
        if ss != [] {
          assert ss[0] in ss;
        }
      }
      Report.ReportOf(ss)
    }
  }

  /** Recording a session adds it to the end of every query it matches and changes no other query. */
  lemma RecordVisible(before: seq<Session>, s: Session, userId: Option<string>, subject: Option<string>)
    ensures Filter(before + [s], userId, subject) ==
            Filter(before, userId, subject) + (if Matches(s, userId, subject) then [s] else [])
  {
    FilterAppend(before, [s], userId, subject);
    assert Filter([s], userId, subject) == (if Matches(s, userId, subject) then [s] else []) + Filter([], userId, subject);
  }

  /** A report with no user given covers every user's sessions, as an empty id does. */
  lemma ReportWithoutUser(svc: AnalyticsService)
    ensures svc.GetReport(None) == svc.GetReport(Some("")) == Report.ReportOf(svc.sessions)
  {
    FilterNone(svc.sessions);
    FilterFalsy(svc.sessions);
  }

  lemma {:induction false} FilterFalsy(ss: seq<Session>)
    ensures Filter(ss, Some(""), None) == Filter(ss, None, None)
  {
    if ss != [] {
      FilterFalsy(ss[1..]);
    }
  }

  /** Holder of the single instance (`AnalyticsService._instance`). */
  class Singleton {
    var instance: AnalyticsService?

    constructor()
      ensures instance == null
    {
      instance := null;
    }

    /** `getInstance()`: the existing instance, or a new one over the stored ledger. When the stored
        text does not parse the constructor throws and no instance is kept. */
    method GetInstance(store: LocalStorage) returns (r: AnalyticsService?)
      modifies this
      ensures old(instance) != null ==> r == old(instance) && instance == old(instance)
      ensures old(instance) == null && Load(store.analytics).Loaded? ==>
                r != null && fresh(r) && r.store == store && r.sessions == Load(store.analytics).sessions &&
                r.Valid() && instance == r
      ensures old(instance) == null && Load(store.analytics).ParseFailure? ==> r == null && instance == null
    {
      if instance == null {
        if Load(store.analytics).Loaded? {
          instance := new AnalyticsService(store);
        }
      }
      r := instance;
    }
  }

  /** Two calls in a row hand out the same instance. */
  method GetInstanceTwice(holder: Singleton, store: LocalStorage) returns (a: AnalyticsService?, b: AnalyticsService?)
    requires holder.instance == null && Load(store.analytics).Loaded?
    modifies holder
    ensures a == b && a != null && holder.instance == a
    ensures a.sessions == Load(store.analytics).sessions && a.store == store
  {
    a := holder.GetInstance(store);
    b := holder.GetInstance(store);
  }
}
