/** The browser's `localStorage`, reduced to the three items the application keeps. */
module Storage {
  import opened Basics
  import opened Sessions

  /** The text stored under 'stealth-analytics': either what `JSON.stringify` made of a ledger, or
      text that is not JSON (the empty text included). JSON that is not a ledger is not modelled. */
  datatype Blob = Json(sessions: seq<Session>) | Raw(text: string)

  /** What the analytics constructor makes of the stored text. */
  datatype Loaded = Loaded(sessions: seq<Session>) | ParseFailure

  /** `existing ? JSON.parse(existing) : { sessions: [] }`: an absent or empty item gives an empty
      ledger, a serialized ledger gives that ledger back, and non-empty text that is not JSON makes
      `JSON.parse` throw. */
  function Load(stored: Option<Blob>): (r: Loaded)
    ensures stored.None? ==> r == Loaded([])
    ensures stored.Some? && stored.value.Json? ==> r == Loaded(stored.value.sessions)
    ensures stored.Some? && stored.value.Raw? ==> (r.Loaded? <==> stored.value.text == "")
  {
    match stored
    case None => Loaded([])
    case Some(Json(ss)) => Loaded(ss)
    case Some(Raw(t)) => if t == "" then Loaded([]) else ParseFailure
  }

  class LocalStorage {
    /** 'stealth-analytics' */
    var analytics: Option<Blob>
    /** 'stealth-user-id' */
    var userId: Option<string>
    /** 'stealth-last-game' */
    var lastGame: Option<string>

    constructor(analytics: Option<Blob>, userId: Option<string>, lastGame: Option<string>)
      ensures this.analytics == analytics && this.userId == userId && this.lastGame == lastGame
    {
      this.analytics := analytics;
      this.userId := userId;
      this.lastGame := lastGame;
    }
  }
}
