/**
 * The priority event bus (`Hookable`).
 *
 * The class-level `listeners` record maps namespace to event to a level
 * array of handler sets; every bus of one class shares it.  A bus is bound to
 * one namespace, carries a context (the `this` of its handlers) and an own
 * `active` flag; it is effectively active only while the class-level flag is
 * set too.  Static state becomes explicit objects here: a `HookTable` holds a
 * class's `listeners` record and an `ActiveFlag` the class-level switch.
 */
module Hookable {
  import opened Common
  import opened Buckets

  /** One namespace of a registry: event name to level array. */
  type EventTable = map<string, Levels>

  /** A class-level `listeners` record: namespace to events. */
  type Table = map<string, EventTable>

  /** One handler invocation of a pass: `actor.apply(context, args)`. */
  datatype Call = Call(handler: HandlerId, context: Value, args: seq<Value>)

  /** What a handler returns when invoked; the bus only sees handlers through this. */
  type Interp = Call -> Value

  /** Every bucket of every event of every namespace is a proper set. */
  predicate TableValid(t: Table) {
    forall ns, event :: ns in t && event in t[ns] ==> AllDistinct(t[ns][event])
  }

  /** `listen` and `mute` keep every bucket free of repeats. */
  lemma ValidKept(t: Table, ns: string, event: string, h: HandlerId, level: nat)
    requires TableValid(t)
    ensures TableValid(EnsureKey(t, ns))
    ensures TableValid(Listened(t, ns, event, h, level))
    ensures TableValid(Muted(t, ns, event, h, level))
  {
    var t1 := EnsureKey(t, ns);
    var levels := EventLevels(t, ns, event);
    assert AllDistinct(levels);
    forall n, e | n in t1 && e in t1[n]
      ensures AllDistinct(t1[n][e])
    {
      assert n in t;
    }
    EntryValid(t1, ns, event, Enlist(levels, level, h));
    if HasBucket(levels, level) {
      EntryValid(t1, ns, event, Dismiss(levels, level, h));
    }
  }

  /** Replacing one event's level array by one free of repeats keeps the registry valid. */
  lemma EntryValid(t: Table, ns: string, event: string, levels: Levels)
    requires TableValid(t) && ns in t && AllDistinct(levels)
    ensures TableValid(t[ns := t[ns][event := levels]])
  {
  }

  /** The level array a pass for `event` on namespace `ns` walks; none when the event was never listened to. */
  function EventLevels(t: Table, ns: string, event: string): Levels {
    if ns in t && event in t[ns] then t[ns][event] else []
  }

  /** The handlers registered for (`ns`, `event`) at level `l`. */
  function BucketOf(t: Table, ns: string, event: string, l: nat): Bucket {
    BucketAt(EventLevels(t, ns, event), l)
  }

  /** The invocations of a pass over `s`: every handler gets the same context and the same arguments. */
  function Calls(s: seq<Slot>, context: Value, args: seq<Value>): (c: seq<Call>)
    ensures |c| == |s|
    ensures forall i :: 0 <= i < |s| ==> c[i] == Call(s[i].handler, context, args)
  {
    seq(|s|, i requires 0 <= i < |s| => Call(s[i].handler, context, args))
  }

  /** The registry after `listen(event, h, level)` on a bus bound to `ns`. */
  function Listened(t: Table, ns: string, event: string, h: HandlerId, level: nat): Table {
    var t1 := EnsureKey(t, ns);
    t1[ns := t1[ns][event := Enlist(EventLevels(t, ns, event), level, h)]]
  }

  /** The registry after `mute(event, h, level)` on a bus bound to `ns`. */
  function Muted(t: Table, ns: string, event: string, h: HandlerId, level: nat): Table {
    var t1 := EnsureKey(t, ns);
    if HasBucket(EventLevels(t, ns, event), level) then
      t1[ns := t1[ns][event := Dismiss(EventLevels(t, ns, event), level, h)]]
    else
      t1
  }

  /**
   * `listen` adds `h` to one bucket and touches no other: other levels, other
   * events and other namespaces keep their handlers.
   */
  lemma ListenedBuckets(t: Table, ns: string, event: string, h: HandlerId, level: nat)
    ensures BucketOf(Listened(t, ns, event, h, level), ns, event, level) == Add(BucketOf(t, ns, event, level), h)
    ensures forall n, e :: n != ns || e != event ==>
      EventLevels(Listened(t, ns, event, h, level), n, e) == EventLevels(t, n, e)
    ensures forall k: nat :: k != level ==>
      BucketOf(Listened(t, ns, event, h, level), ns, event, k) == BucketOf(t, ns, event, k)
  {
  }

  /** Registering the same handler twice at the same level leaves the registry as one registration. */
  lemma ListenIdempotent(t: Table, ns: string, event: string, h: HandlerId, level: nat)
    ensures Listened(Listened(t, ns, event, h, level), ns, event, h, level) == Listened(t, ns, event, h, level)
  {
    var once := Listened(t, ns, event, h, level);
    var levels := Enlist(EventLevels(t, ns, event), level, h);
    assert EventLevels(once, ns, event) == levels;
    EnlistIdempotent(EventLevels(t, ns, event), level, h);
    assert EnsureKey(once, ns) == once;
    assert once[ns][event := levels] == once[ns];
    assert once[ns := once[ns]] == once;
  }

  /** `mute` deletes `h` from one bucket and touches nothing else. */
  lemma MutedBuckets(t: Table, ns: string, event: string, h: HandlerId, level: nat)
    ensures BucketOf(Muted(t, ns, event, h, level), ns, event, level) == Delete(BucketOf(t, ns, event, level), h)
    ensures forall n, e :: n != ns || e != event ==>
      EventLevels(Muted(t, ns, event, h, level), n, e) == EventLevels(t, n, e)
    ensures forall k: nat :: k != level ==>
      BucketOf(Muted(t, ns, event, h, level), ns, event, k) == BucketOf(t, ns, event, k)
  {
  }

  /** Muting an absent bucket or an absent handler changes no handler (only the namespace entry appears). */
  lemma MuteAbsentIsNoOp(t: Table, ns: string, event: string, h: HandlerId, level: nat)
    requires h !in BucketOf(t, ns, event, level)
    ensures Muted(t, ns, event, h, level) == EnsureKey(t, ns)
  {
    var levels := EventLevels(t, ns, event);
    if HasBucket(levels, level) {
      DismissAbsent(levels, level, h);
      var t1 := EnsureKey(t, ns);
      assert t1[ns][event] == levels;
      assert t1[ns][event := levels] == t1[ns];
      assert t1[ns := t1[ns]] == t1;
    }
  }

  /** Muting twice is muting once. */
  lemma MuteIdempotent(t: Table, ns: string, event: string, h: HandlerId, level: nat)
    ensures Muted(Muted(t, ns, event, h, level), ns, event, h, level) == Muted(t, ns, event, h, level)
  {
    var once := Muted(t, ns, event, h, level);
    MutedBuckets(t, ns, event, h, level);
    MuteAbsentIsNoOp(once, ns, event, h, level);
    assert EnsureKey(once, ns) == once;
  }

  /**
   * `mute` after `listen` of a handler the bucket lacked gives every bucket
   * of every event back its handlers.
   */
  lemma MuteUndoesListen(t: Table, ns: string, event: string, h: HandlerId, level: nat)
    requires h !in BucketOf(t, ns, event, level)
    ensures forall n, e, k: nat ::
      BucketOf(Muted(Listened(t, ns, event, h, level), ns, event, h, level), n, e, k) == BucketOf(t, n, e, k)
  {
    var t1 := Listened(t, ns, event, h, level);
    assert EventLevels(t1, ns, event) == Enlist(EventLevels(t, ns, event), level, h);
    DismissUndoesEnlist(EventLevels(t, ns, event), level, h);
    ListenedBuckets(t, ns, event, h, level);
    MutedBuckets(t1, ns, event, h, level);
  }

  /** After `mute(event, h, level)` no pass for `event` runs `h` from that level. */
  lemma MutedIsNotRun(t: Table, ns: string, event: string, h: HandlerId, level: nat)
    ensures Slot(level, h) !in Schedule(EventLevels(Muted(t, ns, event, h, level), ns, event))
  {
    MutedBuckets(t, ns, event, h, level);
    InSchedule(EventLevels(Muted(t, ns, event, h, level), ns, event), level, h);
  }

  lemma CallsAppend(front: seq<Slot>, back: seq<Slot>, context: Value, args: seq<Value>)
    ensures Calls(front + back, context, args) == Calls(front, context, args) + Calls(back, context, args)
  {
  }

  lemma ResultsAppend(results: seq<Value>, calls: seq<Call>, more: seq<Value>, moreCalls: seq<Call>, interp: Interp)
    requires |results| == |calls| && |more| == |moreCalls|
    requires forall k :: 0 <= k < |calls| ==> results[k] == interp(calls[k])
    requires forall k :: 0 <= k < |moreCalls| ==> more[k] == interp(moreCalls[k])
    ensures forall k :: 0 <= k < |calls + moreCalls| ==> (results + more)[k] == interp((calls + moreCalls)[k])
  {
  }

  /** The inner loop of `process`: invoke one level's handlers in insertion order. */
  method RunBucket(l: nat, bucket: Bucket, context: Value, args: seq<Value>, interp: Interp)
    returns (results: seq<Value>, calls: seq<Call>)
    ensures calls == Calls(Tagged(l, bucket), context, args)
    ensures |results| == |calls|
    ensures forall i :: 0 <= i < |calls| ==> results[i] == interp(calls[i])
  {
    results, calls := [], [];
    var j := 0;
    while j < |bucket|
      invariant 0 <= j <= |bucket|
      invariant |calls| == j && |results| == j
      invariant forall k :: 0 <= k < j ==> calls[k] == Call(bucket[k], context, args)
      invariant forall k :: 0 <= k < j ==> results[k] == interp(calls[k])
    {
      var call := Call(bucket[j], context, args);
      results, calls := results + [interp(call)], calls + [call];
      j := j + 1;
    }
  }

  /**
   * The loops of `process`: for every level in ascending order, skipping holes,
   * for every handler of the level in insertion order, invoke it with the
   * context and the arguments and yield what it returns.
   */
  method RunPass(levels: Levels, context: Value, args: seq<Value>, interp: Interp)
    returns (results: seq<Value>, calls: seq<Call>)
    ensures calls == Calls(Schedule(levels), context, args)
    ensures |results| == |calls|
    ensures forall i :: 0 <= i < |calls| ==> results[i] == interp(calls[i])
  {
    results, calls := [], [];
    var i := 0;
    while i < |levels|
      invariant 0 <= i <= |levels|
      invariant calls == Calls(Schedule(levels[..i]), context, args)
      invariant |results| == |calls|
      invariant forall k :: 0 <= k < |calls| ==> results[k] == interp(calls[k])
    {
      ScheduleStep(levels, i);
      CallsAppend(Schedule(levels[..i]), Tagged(i, BucketAt(levels, i)), context, args);
      var more, moreCalls := RunBucket(i, BucketAt(levels, i), context, args, interp);
      ResultsAppend(results, calls, more, moreCalls, interp);
      results, calls := results + more, calls + moreCalls;
      i := i + 1;
    }
    assert levels[..i] == levels;
  }

  /** A class-level `listeners` record (`Hookable.listeners`, or `GameHook.listeners`). */
  class HookTable {
    var events: Table

    /** No bucket holds a handler twice, as a JavaScript `Set` cannot. */
    predicate Valid()
      reads this
    {
      TableValid(events)
    }

    constructor ()
      ensures events == map[] && Valid()
    {
      events := map[];
    }

    /** `GameHook.clear()`: replace the record with an empty one. */
    method Clear()
      modifies this
      ensures events == map[] && Valid()
    {
      events := map[];
    }
  }

  /** The class-level switch `Hookable.active`; `GameHook.active` reads the same one. */
  class ActiveFlag {
    var on: bool

    constructor ()
      ensures on
    {
      on := true;
    }
  }

  /** The capability `listen` returns: calling it mutes what was listened, through the bus that listened. */
  datatype Unlisten = Unlisten(owner: Hookable, event: string, actor: HandlerId, level: nat)

  class Hookable {
    const namespace: string
    const context: Value
    const table: HookTable
    const global: ActiveFlag
    var active: bool

    constructor (namespace: string, table: HookTable, global: ActiveFlag, context: Value := Record(map[]))
      ensures this.namespace == namespace && this.context == context
      ensures this.table == table && this.global == global && active
    {
      this.namespace := namespace;
      this.context := context;
      this.table := table;
      this.global := global;
      active := true;
    }

    /** `is_active`: the own flag and the class-level flag. */
    predicate IsActive()
      reads this, global
      ensures IsActive() <==> active && global.on
    {
      active && global.on
    }

    /** The `listeners` getter: this namespace's events, created empty on first use. */
    method Listeners() returns (events: EventTable)
      modifies table
      requires table.Valid()
      ensures table.Valid()
      ensures table.events == EnsureKey(old(table.events), namespace)
      ensures events == table.events[namespace]
    {
      if namespace !in table.events {
        table.events := table.events[namespace := map[]];
      }
      events := table.events[namespace];
    }

    /** `to(ns)`: a fresh active bus of the same class on `ns`, with the same context and registry. */
    method To(ns: string) returns (bus: Hookable)
      ensures fresh(bus)
      ensures bus.namespace == ns && bus.context == context
      ensures bus.table == table && bus.global == global && bus.active
    {
      bus := new Hookable(ns, table, global, context);
    }

    /**
     * `process(event, ...args)`: nothing while inactive; otherwise invoke every
     * handler of the event in pass order and yield each result.
     */
    method Process(event: string, args: seq<Value>, interp: Interp) returns (results: seq<Value>, calls: seq<Call>)
      modifies table
      requires table.Valid()
      ensures table.Valid()
      ensures !IsActive() ==> calls == [] && table.events == old(table.events)
      ensures IsActive() ==> table.events == EnsureKey(old(table.events), namespace)
      ensures IsActive() ==> calls == Calls(Schedule(EventLevels(old(table.events), namespace, event)), context, args)
      ensures |results| == |calls|
      ensures forall i :: 0 <= i < |calls| ==> results[i] == interp(calls[i])
    {
      if !IsActive() {
        return [], [];
      }
      var events := Listeners();
      if event !in events {
        return [], [];
      }
      results, calls := RunPass(events[event], context, args, interp);
    }

    /**
     * `trigger(event, ...args)`: run the pass and return what the last handler
     * returned; `undefined` while inactive or when no handler runs.
     */
    method Trigger(event: string, args: seq<Value>, interp: Interp) returns (r: Value, calls: seq<Call>)
      modifies table
      requires table.Valid()
      ensures table.Valid()
      ensures !IsActive() ==> calls == [] && table.events == old(table.events)
      ensures IsActive() ==> table.events == EnsureKey(old(table.events), namespace)
      ensures IsActive() ==> calls == Calls(Schedule(EventLevels(old(table.events), namespace, event)), context, args)
      ensures forall c :: c in calls ==> c.context == context && c.args == args
      ensures r == if calls == [] then Undefined else interp(calls[|calls| - 1])
    {
      if !IsActive() {
        return Undefined, [];
      }
      var results;
      results, calls := Process(event, args, interp);
      r := Undefined;
      for i := 0 to |results|
        invariant r == if i == 0 then Undefined else results[i - 1]
      {
        r := results[i];
      }
    }

    /** `listen(event, actor, level = 10)` */
    method Listen(event: string, actor: HandlerId, level: nat := 10) returns (off: Unlisten)
      modifies table
      requires table.Valid()
      ensures table.Valid()
      ensures table.events == Listened(old(table.events), namespace, event, actor, level)
      ensures off == Unlisten(this, event, actor, level)
    {
      var events := Listeners();
      var levels := if event in events then events[event] else [];
      EnlistInPlace(levels, level, actor);
      if !HasBucket(levels, level) {
        levels := Put(levels, level, []);
      }
      levels := levels[level := Some(Add(levels[level].value, actor))];
      table.events := table.events[namespace := table.events[namespace][event := levels]];
      off := Unlisten(this, event, actor, level);
    }

    /** `mute(event, actor, level = 10)`: a missing bucket is left alone. */
    method Mute(event: string, actor: HandlerId, level: nat := 10)
      modifies table
      requires table.Valid()
      ensures table.Valid()
      ensures table.events == Muted(old(table.events), namespace, event, actor, level)
    {
      var events := Listeners();
      var levels := if event in events then events[event] else [];
      if !HasBucket(levels, level) {
        return;
      }
      levels := levels[level := Some(Delete(levels[level].value, actor))];
      table.events := table.events[namespace := table.events[namespace][event := levels]];
    }

    /** `activate()`: sets the own flag only. */
    method Activate() returns (self: Hookable)
      modifies this
      ensures active && self == this
    {
      active := true;
      self := this;
    }

    /** `deactivate()`: clears the own flag only. */
    method Deactivate() returns (self: Hookable)
      modifies this
      ensures !active && self == this
    {
      active := false;
      self := this;
    }
  }

  /** Calling the capability `listen` returned: exactly `mute` with the same triple, on the bus that issued it. */
  method Release(off: Unlisten)
    modifies off.owner.table
    requires off.owner.table.Valid()
    ensures off.owner.table.Valid()
    ensures off.owner.table.events == Muted(old(off.owner.table.events), off.owner.namespace, off.event, off.actor, off.level)
  {
    off.owner.Mute(off.event, off.actor, off.level);
  }
}
