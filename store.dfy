/**
 * `Store`: an observable state record.  Whole-state subscribers hear about
 * `set`; per-property watchers hear about writes made through the proxy the
 * constructor wraps the initial state in.  Listeners return nothing, so a
 * call to one is modelled as the notice it receives, and every operation
 * returns the notices it sends, in order.
 */
module Store {
  import opened Common
  import opened Buckets

  /** A state record. */
  type State = map<string, Value>

  /** One call of a listener: which listener, its `this`, and the arguments it receives. */
  datatype Notice =
    | Whole(listener: HandlerId, receiver: State, state: State)
    | Changed(listener: HandlerId, receiver: State, value: Value, oldValue: Value)

  /** The argument of `unsubscribe`: `"all"` or one listener. */
  datatype Whom = All | One(listener: HandlerId)

  /** The closures `subscribe` and `watch` return. */
  datatype Cancel = Unsubscriber(owner: Store, listener: HandlerId) | Unwatcher(owner: Store, prop: string, watcher: HandlerId)

  /** `state[prop]`: a missing property reads as `undefined`. */
  function Lookup(s: State, prop: string): Value {
    if prop in s then s[prop] else Undefined
  }

  /** The calls `notifyListeners(given)` makes: every subscriber, in insertion order, gets `given`. */
  function Broadcast(subscribers: Bucket, receiver: State, given: State): (r: seq<Notice>)
    ensures |r| == |subscribers|
    ensures forall i :: 0 <= i < |r| ==> r[i] == Whole(subscribers[i], receiver, given)
  {
    seq(|subscribers|, i requires 0 <= i < |subscribers| => Whole(subscribers[i], receiver, given))
  }

  /** The calls one property's watchers get for a change: each, in insertion order, gets `(value, oldValue)`. */
  function Alerts(watchers: Bucket, receiver: State, value: Value, oldValue: Value): (r: seq<Notice>)
    ensures |r| == |watchers|
    ensures forall i :: 0 <= i < |r| ==> r[i] == Changed(watchers[i], receiver, value, oldValue)
  {
    seq(|watchers|, i requires 0 <= i < |watchers| => Changed(watchers[i], receiver, value, oldValue))
  }

  /** The calls `notifyPropListeners(prop, value, oldValue)` makes: none for a property never watched. */
  function PropAlerts(watchers: map<string, Bucket>, receiver: State, prop: string, value: Value, oldValue: Value): (r: seq<Notice>)
    ensures prop !in watchers ==> r == []
    ensures prop in watchers ==> r == Alerts(watchers[prop], receiver, value, oldValue)
  {
    if prop in watchers then Alerts(watchers[prop], receiver, value, oldValue) else []
  }

  /** No watcher set holds a listener twice, as a JavaScript `Set` cannot. */
  predicate WatchersValid(watchers: map<string, Bucket>) {
    forall p :: p in watchers ==> Distinct(watchers[p])
  }

  /** The watcher map after `watch(prop, l)`: `l` joins the property's set, created on first use. */
  function Watched(watchers: map<string, Bucket>, prop: string, l: HandlerId): (r: map<string, Bucket>)
    ensures r.Keys == watchers.Keys + {prop}
    ensures forall x :: x in r[prop] <==> x == l || (prop in watchers && x in watchers[prop])
    ensures prop in watchers ==> watchers[prop] <= r[prop]
    ensures forall p :: p in watchers && p != prop ==> r[p] == watchers[p]
    ensures WatchersValid(watchers) ==> WatchersValid(r)
  {
    watchers[prop := Add(if prop in watchers then watchers[prop] else [], l)]
  }

  /** The watcher map after `unwatch(prop, l?)`: `l` leaves the set, or without `l` the set is emptied. */
  function Unwatched(watchers: map<string, Bucket>, prop: string, l: Option<HandlerId>): (r: map<string, Bucket>)
    ensures r.Keys == watchers.Keys
    ensures forall p :: p in watchers && p != prop ==> r[p] == watchers[p]
    ensures prop in watchers && l.None? ==> r[prop] == []
    ensures prop in watchers && l.Some? ==> r[prop] == Delete(watchers[prop], l.value)
    ensures prop in watchers && l.Some? ==>
      forall x :: x in r[prop] <==> x in watchers[prop] && x != l.value
    ensures WatchersValid(watchers) ==> WatchersValid(r)
  {
    if prop !in watchers then watchers
    else if l.Some? then watchers[prop := Delete(watchers[prop], l.value)]
    else watchers[prop := []]
  }

  /** Watching twice with the same listener registers it once. */
  lemma WatchIdempotent(watchers: map<string, Bucket>, prop: string, l: HandlerId)
    ensures Watched(Watched(watchers, prop, l), prop, l) == Watched(watchers, prop, l)
  {
    var b := if prop in watchers then watchers[prop] else [];
    assert Add(Add(b, l), l) == Add(b, l);
    assert Watched(watchers, prop, l)[prop := Add(b, l)] == Watched(watchers, prop, l);
  }

  /** After `watch(prop, l)` every write to `prop` calls `l` with the new and the old value. */
  lemma WatcherIsAlerted(watchers: map<string, Bucket>, receiver: State, prop: string, l: HandlerId, value: Value, oldValue: Value)
    ensures Changed(l, receiver, value, oldValue) in PropAlerts(Watched(watchers, prop, l), receiver, prop, value, oldValue)
  {
    var b := Watched(watchers, prop, l)[prop];
    var i :| 0 <= i < |b| && b[i] == l;
    assert PropAlerts(Watched(watchers, prop, l), receiver, prop, value, oldValue)[i] == Changed(l, receiver, value, oldValue);
  }

  /** `unwatch` of a property that was never watched does nothing. */
  lemma UnwatchUnknownIsNoOp(watchers: map<string, Bucket>, prop: string, l: Option<HandlerId>)
    requires prop !in watchers
    ensures Unwatched(watchers, prop, l) == watchers
  {
  }

  /** `unwatch(prop)` silences the property: a later write alerts nobody. */
  lemma UnwatchAllSilences(watchers: map<string, Bucket>, receiver: State, prop: string, value: Value, oldValue: Value)
    ensures PropAlerts(Unwatched(watchers, prop, None), receiver, prop, value, oldValue) == []
  {
  }

  /** `unwatch(prop, l)` stops `l` hearing about `prop` and keeps every other watcher of it. */
  lemma UnwatchOneKeepsOthers(watchers: map<string, Bucket>, receiver: State, prop: string, l: HandlerId, m: HandlerId, value: Value, oldValue: Value)
    requires prop in watchers && m in watchers[prop] && m != l
    ensures Changed(l, receiver, value, oldValue) !in PropAlerts(Unwatched(watchers, prop, Some(l)), receiver, prop, value, oldValue)
    ensures Changed(m, receiver, value, oldValue) in PropAlerts(Unwatched(watchers, prop, Some(l)), receiver, prop, value, oldValue)
  {
    var alerts := PropAlerts(Unwatched(watchers, prop, Some(l)), receiver, prop, value, oldValue);
    var b := Unwatched(watchers, prop, Some(l))[prop];
    var i :| 0 <= i < |b| && b[i] == m;
    assert alerts[i] == Changed(m, receiver, value, oldValue);
    forall k | 0 <= k < |alerts|
      ensures alerts[k] != Changed(l, receiver, value, oldValue)
    {
      assert b[k] in b;
    }
  }

  /** The closure `watch(prop, l)` returns, called right after, restores the watcher set `l` was added to. */
  lemma UnwatchUndoesWatch(watchers: map<string, Bucket>, prop: string, l: HandlerId)
    requires prop in watchers && l !in watchers[prop]
    ensures Unwatched(Watched(watchers, prop, l), prop, Some(l)) == watchers
  {
    DeleteUndoesAdd(watchers[prop], l);
    assert watchers[prop := watchers[prop]] == watchers;
  }

  /** Calling the closure of `watch(prop, l)` a second time changes nothing more. */
  lemma UnwatchTwiceIsOnce(watchers: map<string, Bucket>, prop: string, l: HandlerId)
    ensures Unwatched(Unwatched(watchers, prop, Some(l)), prop, Some(l)) == Unwatched(watchers, prop, Some(l))
  {
    if prop in watchers {
      var once := Unwatched(watchers, prop, Some(l));
      assert once[prop := Delete(once[prop], l)] == once;
    }
  }

  /** Calling the closure of `subscribe(l)` a second time changes nothing more. */
  lemma UnsubscribeTwiceIsOnce(subscribers: Bucket, l: HandlerId)
    ensures Delete(Delete(subscribers, l), l) == Delete(subscribers, l)
  {
  }

  /** After `unsubscribe(l)` a `set` calls every other subscriber and never `l`. */
  lemma UnsubscribedIsSilent(subscribers: Bucket, l: HandlerId, m: HandlerId, receiver: State, given: State)
    requires m in subscribers && m != l
    ensures Whole(l, receiver, given) !in Broadcast(Delete(subscribers, l), receiver, given)
    ensures Whole(m, receiver, given) in Broadcast(Delete(subscribers, l), receiver, given)
  {
    var b := Delete(subscribers, l);
    var notices := Broadcast(b, receiver, given);
    var i :| 0 <= i < |b| && b[i] == m;
    assert notices[i] == Whole(m, receiver, given);
    forall k | 0 <= k < |notices|
      ensures notices[k] != Whole(l, receiver, given)
    {
      assert b[k] in b;
    }
  }

  class Store {
    /** The contents of `this.state`. */
    var state: State
    /** Whether `this.state` is still the proxy the constructor built, so that writes reach the watchers. */
    var proxied: bool
    /** `_slisteners` */
    var subscribers: Bucket
    /** `_sPropListeners` */
    var watchers: map<string, Bucket>

    /** Neither the subscribers nor any watcher set holds a listener twice. */
    predicate Valid()
      reads this
    {
      Distinct(subscribers) && WatchersValid(watchers)
    }

    /** `new Store(state)`: the state is wrapped in the write-notifying proxy; nobody listens yet. */
    constructor (state: State)
      ensures this.state == state && proxied
      ensures subscribers == [] && watchers == map[]
      ensures Valid()
    {
      this.state := state;
      proxied := true;
      subscribers := [];
      watchers := map[];
    }

    /** `notifyListeners(given)`: every subscriber, in insertion order, is called on the current state with `given`. */
    method NotifyListeners(given: State) returns (notices: seq<Notice>)
      ensures notices == Broadcast(subscribers, state, given)
    {
      notices := [];
      var i := 0;
      while i < |subscribers|
        invariant 0 <= i <= |subscribers|
        invariant |notices| == i
        invariant forall k :: 0 <= k < i ==> notices[k] == Whole(subscribers[k], state, given)
      {
        notices := notices + [Whole(subscribers[i], state, given)];
        i := i + 1;
      }
    }

    /** `notifyPropListeners(prop, value, oldValue)`: the property's watchers, in insertion order, if it has a set. */
    method NotifyPropListeners(prop: string, value: Value, oldValue: Value) returns (notices: seq<Notice>)
      ensures notices == PropAlerts(watchers, state, prop, value, oldValue)
    {
      notices := [];
      if prop !in watchers {
        return;
      }
      var listeners := watchers[prop];
      var i := 0;
      while i < |listeners|
        invariant 0 <= i <= |listeners|
        invariant |notices| == i
        invariant forall k :: 0 <= k < i ==> notices[k] == Changed(listeners[k], state, value, oldValue)
      {
        notices := notices + [Changed(listeners[i], state, value, oldValue)];
        i := i + 1;
      }
    }

    /**
     * `store.state[prop] = value`.  Through the proxy the watchers of `prop`
     * are called with the new and the previous value before the value is
     * stored; once `set` has replaced the state, the write only stores.
     * Subscribers are never called and no other property changes.
     */
    method Write(prop: string, value: Value) returns (notices: seq<Notice>)
      modifies this`state
      requires Valid()
      ensures Valid()
      ensures state == old(state)[prop := value]
      ensures proxied ==> notices == PropAlerts(watchers, old(state), prop, value, Lookup(old(state), prop))
      ensures !proxied ==> notices == []
    {
      notices := [];
      if proxied {
        notices := NotifyPropListeners(prop, value, Lookup(state, prop));
      }
      state := state[prop := value];
    }

    /** `subscribe(l)`: `l` is called once with the current state, then joins the subscribers. */
    method Subscribe(l: HandlerId) returns (notices: seq<Notice>, off: Cancel)
      modifies this`subscribers
      requires Valid()
      ensures Valid()
      ensures notices == [Whole(l, state, state)]
      ensures subscribers == Add(old(subscribers), l)
      ensures off == Unsubscriber(this, l)
    {
      notices := [Whole(l, state, state)];
      subscribers := Add(subscribers, l);
      off := Unsubscriber(this, l);
    }

    /** `unsubscribe("all")` empties the subscribers; `unsubscribe(l)` removes `l` only. */
    method Unsubscribe(whom: Whom)
      modifies this`subscribers
      requires Valid()
      ensures Valid()
      ensures whom.All? ==> subscribers == []
      ensures whom.One? ==> subscribers == Delete(old(subscribers), whom.listener)
    {
      if whom.All? {
        subscribers := [];
      } else {
        subscribers := Delete(subscribers, whom.listener);
      }
    }

    /**
     * `set(s)`: every subscriber is called with `s` while the old state is
     * still in place; then the state is `s` itself, without a proxy.
     */
    method Set(s: State) returns (notices: seq<Notice>)
      modifies this`state, this`proxied
      requires Valid()
      ensures Valid()
      ensures notices == Broadcast(subscribers, old(state), s)
      ensures state == s && !proxied
    {
      notices := NotifyListeners(s);
      state := s;
      proxied := false;
    }

    /**
     * `watch(prop, l, immediate)`: `l` joins the property's watchers; with
     * `immediate` it is called once with the current value and no old value.
     */
    method Watch(prop: string, l: HandlerId, immediate: bool := false) returns (notices: seq<Notice>, off: Cancel)
      modifies this`watchers
      requires Valid()
      ensures Valid()
      ensures watchers == Watched(old(watchers), prop, l)
      ensures immediate ==> notices == [Changed(l, state, Lookup(state, prop), Undefined)]
      ensures !immediate ==> notices == []
      ensures off == Unwatcher(this, prop, l)
    {
      var listeners := if prop in watchers then watchers[prop] else [];
      listeners := Add(listeners, l);
      watchers := watchers[prop := listeners];
      notices := [];
      if immediate {
        notices := [Changed(l, state, Lookup(state, prop), Undefined)];
      }
      off := Unwatcher(this, prop, l);
    }

    /** `unwatch(prop, l?)` */
    method Unwatch(prop: string, l: Option<HandlerId>)
      modifies this`watchers
      requires Valid()
      ensures Valid()
      ensures watchers == Unwatched(old(watchers), prop, l)
    {
      if prop !in watchers {
        return;
      }
      var listeners := watchers[prop];
      if l.Some? {
        listeners := Delete(listeners, l.value);
      } else {
        listeners := [];
      }
      watchers := watchers[prop := listeners];
    }

    /** The hot-reload hook: every subscriber and every watcher set is dropped. */
    method ClearListeners()
      modifies this`subscribers, this`watchers
      requires Valid()
      ensures Valid()
      ensures subscribers == [] && watchers == map[]
    {
      subscribers := [];
      watchers := map[];
    }
  }

  /**
   * A watched write through the fresh store's proxy calls the watcher with
   * the new and the old value while the state still holds the old one, and
   * then stores the new value.
   */
  method WriteAlertsBeforeStoring(initial: State, prop: string, l: HandlerId, value: Value)
    returns (notices: seq<Notice>, after: State)
    ensures notices == [Changed(l, initial, value, Lookup(initial, prop))]
    ensures after == initial[prop := value]
  {
    var store := new Store(initial);
    var _, _ := store.Watch(prop, l);
    assert store.watchers[prop] == [l];
    notices := store.Write(prop, value);
    after := store.state;
  }

  /** After `set(s)` the state is no longer proxied: a write to a watched property alerts nobody. */
  method SetDetachesWatchers(initial: State, s: State, prop: string, l: HandlerId, value: Value)
    returns (setNotices: seq<Notice>, writeNotices: seq<Notice>, after: State)
    ensures setNotices == [] && writeNotices == []
    ensures after == s[prop := value]
  {
    var store := new Store(initial);
    var _, _ := store.Watch(prop, l);
    setNotices := store.Set(s);
    writeNotices := store.Write(prop, value);
    after := store.state;
  }

  /** Calling a closure `subscribe` or `watch` returned, on the store that issued it. */
  method Release(off: Cancel)
    modifies off.owner`subscribers, off.owner`watchers
    requires off.owner.Valid()
    ensures off.owner.Valid()
    ensures off.Unsubscriber? ==>
      off.owner.subscribers == Delete(old(off.owner.subscribers), off.listener) && off.owner.watchers == old(off.owner.watchers)
    ensures off.Unwatcher? ==>
      off.owner.watchers == Unwatched(old(off.owner.watchers), off.prop, Some(off.watcher)) && off.owner.subscribers == old(off.owner.subscribers)
  {
    if off.Unsubscriber? {
      off.owner.Unsubscribe(One(off.listener));
    } else {
      off.owner.Unwatch(off.prop, Some(off.watcher));
    }
  }
}
