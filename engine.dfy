/** The game engine: view registry and navigation, the event bus, and the persistent user id. */
module Engine {
  import opened Basics
  import opened Storage

  /** Navigation parameters, such as `{ subject: 'math' }`. */
  type Params = map<string, string>

  /** A view component, named by the function registered for it. */
  type Component = string

  /** A subscribed event handler, by identity. */
  type Handler = nat

  /** What the `#app` container holds. */
  datatype Screen =
    | Blank
    | NotFound(key: string)            // the "View not found: <key>" message
    | Rendered(component: Component, params: Params)

  /** One call `handler(data)` made by `emit`. */
  datatype Delivery = Delivery(handler: Handler, data: string)

  /** `_initUserId`: the stored id when there is a non-empty one, else `'u-'` followed by the random
      base-36 digits `suffix` (`Math.random().toString(36).substring(2, 10)`). */
  function ResolveUserId(stored: Option<string>, suffix: string): (uid: string)
    ensures Truthy(stored) ==> uid == stored.value
    ensures !Truthy(stored) ==> |uid| >= 2 && uid[..2] == "u-" && uid[2..] == suffix
    ensures uid != ""
  {
    if Truthy(stored) then stored.value else "u-" + suffix
  }

  /** Once resolved, the id is reused by every later start, whatever randomness it draws. */
  lemma UserIdStable(stored: Option<string>, s1: string, s2: string)
    ensures ResolveUserId(Some(ResolveUserId(stored, s1)), s2) == ResolveUserId(stored, s1)
  {
  }

  /** The calls `emit` makes, one per handler, in subscription order. */
  function Deliveries(hs: seq<Handler>, data: string): (ds: seq<Delivery>)
    ensures |ds| == |hs|
    ensures forall i :: 0 <= i < |hs| ==> ds[i] == Delivery(hs[i], data)
  {
    if hs == [] then [] else [Delivery(hs[0], data)] + Deliveries(hs[1..], data)
  }

  class GameEngine {
    var currentView: Option<string>
    var views: map<string, Component>
    var events: map<string, seq<Handler>>
    var userId: string
    var root: Screen
    /** Every handler call made so far, oldest first. */
    var delivered: seq<Delivery>
    const store: LocalStorage

    /** `new GameEngine()`: no view, no handler; the user id is read, or generated and stored. */
    constructor(store: LocalStorage, suffix: string)
      modifies store
      ensures this.store == store
      ensures currentView == None && views == map[] && events == map[] && root == Blank && delivered == []
      ensures userId == ResolveUserId(old(store.userId), suffix)
      ensures store.userId == (if Truthy(old(store.userId)) then old(store.userId) else Some(userId))
      ensures store.analytics == old(store.analytics) && store.lastGame == old(store.lastGame)
    {
      currentView := None;
      views := map[];
      events := map[];
      root := Blank;
      delivered := [];
      this.store := store;
      var uid := ResolveUserId(store.userId, suffix);
      if !Truthy(store.userId) {
        store.userId := Some(uid);
      }
      userId := uid;
    }

    /** `registerView(key, component)`: a later registration under the same key replaces the earlier. */
    method RegisterView(key: string, component: Component)
      modifies this
      ensures views == old(views)[key := component]
      ensures currentView == old(currentView) && events == old(events) && root == old(root)
      ensures delivered == old(delivered) && userId == old(userId)
    {
      views := views[key := component];
    }

    /** `navigate(key, params)`: the container is cleared; a registered key renders its view and becomes
        current, an unknown key shows the not-found message and leaves the current view alone. */
    method Navigate(key: string, params: Params)
      modifies this
      ensures key in views ==> root == Rendered(views[key], params) && currentView == Some(key)
      ensures key !in views ==> root == NotFound(key) && currentView == old(currentView)
      ensures views == old(views) && events == old(events) && delivered == old(delivered) && userId == old(userId)
    {
      root := Blank;
      if key !in views {
        root := NotFound(key);
        return;
      }
      currentView := Some(key);
      root := Rendered(views[key], params);
    }

    /** The handlers subscribed to an event, in subscription order (`this.events[event] || []`). */
    function Handlers(event: string): (hs: seq<Handler>)
      reads this
      ensures event !in events ==> hs == []
    {
      if event in events then events[event] else []
    }

    /** `on(event, handler)`: the handler joins the end of the event's list. */
    method On(event: string, handler: Handler)
      modifies this
      ensures Handlers(event) == old(Handlers(event)) + [handler]
      ensures forall e :: e != event ==> Handlers(e) == old(Handlers(e))
      ensures views == old(views) && currentView == old(currentView) && root == old(root)
      ensures delivered == old(delivered) && userId == old(userId)
    {
      if event !in events {
        events := events[event := []];
      }
      events := events[event := events[event] + [handler]];
    }

    /** `emit(event, data)`: each subscribed handler is called with the data, in subscription order;
        an event nobody subscribed to calls nothing. */
    method Emit(event: string, data: string)
      modifies this
      ensures delivered == old(delivered) + Deliveries(Handlers(event), data)
      ensures views == old(views) && events == old(events) && currentView == old(currentView)
      ensures root == old(root) && userId == old(userId)
    {
      var hs := if event in events then events[event] else [];
      var i := 0;
      while i < |hs|
        invariant 0 <= i <= |hs|
        invariant delivered == old(delivered) + Deliveries(hs[..i], data)
        invariant views == old(views) && events == old(events) && currentView == old(currentView)
        invariant root == old(root) && userId == old(userId)
      {
        assert Deliveries(hs[..i + 1], data) == Deliveries(hs[..i], data) + [Delivery(hs[i], data)];
        delivered := delivered + [Delivery(hs[i], data)];
        i := i + 1;
      }
      assert hs[..i] == hs;
    }
  }

  /** Subscribing, then emitting, reaches the new handler last. */
  method SubscribeThenEmit(engine: GameEngine, event: string, handler: Handler, data: string)
    modifies engine
    ensures engine.delivered == old(engine.delivered) + Deliveries(old(engine.Handlers(event)), data) +
              [Delivery(handler, data)]
  {
    engine.On(event, handler);
    engine.Emit(event, data);
    DeliveriesAppend(old(engine.Handlers(event)), [handler], data);
  }

  lemma {:induction false} DeliveriesAppend(a: seq<Handler>, b: seq<Handler>, data: string)
    ensures Deliveries(a + b, data) == Deliveries(a, data) + Deliveries(b, data)
  {
    if a == [] {
      assert a + b == b;
    } else {
      assert (a + b)[1..] == a[1..] + b;
      DeliveriesAppend(a[1..], b, data);
    }
  }
}
