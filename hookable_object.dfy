/**
 * The object interception layer (`HookableObject`).
 *
 * Two class-level maps, `listeners` and `filters`, hold per object kind
 * (the namespace) and per property a level array of handler sets, so every
 * instance with the same namespace shares the same hooks.  `create` wraps a
 * target in a proxy whose traps thread values through those handlers:
 * a property write goes through the filters before it is stored, a property
 * read comes back through the listeners, and a method call hands its
 * arguments through the filters to the method and its result through the
 * listeners.  Handlers compose: each one's output is the next one's input,
 * in pass order (ascending level, insertion order within a level).
 */
module HookableObject {
  import opened Common
  import opened Buckets

  type Prop = string

  /** One namespace's `Map<prop, Array<Set>>`. */
  type PropTable = map<Prop, Levels>

  /** A class-level `Map<namespace, PropTable>`. */
  type Registry = map<string, PropTable>

  datatype Kind = Listener | Filter

  /** What a listener or filter returns for the value handed to it: `actor.call(proxy, value)`. */
  type Apply = (HandlerId, Value) -> Value

  /** What the target's method `id` returns for the argument list it is applied to. */
  type Invoke = (nat, Value) -> Value

  /** The properties of namespace `ns`; none before its first use. */
  function Props(r: Registry, ns: string): PropTable {
    if ns in r then r[ns] else map[]
  }

  /** The level array of `prop` in namespace `ns`; none when nothing was ever registered for it. */
  function PropLevels(r: Registry, ns: string, prop: Prop): Levels {
    if prop in Props(r, ns) then Props(r, ns)[prop] else []
  }

  /** `v` handed through the handlers of `s` in order, each one's result being the next one's input. */
  function Threaded(s: seq<Slot>, v: Value, apply: Apply): Value
    decreases |s|
  {
    if s == [] then v else apply(s[|s| - 1].handler, Threaded(s[..|s| - 1], v, apply))
  }

  /** Threading through two runs of handlers is threading through the first and then the second. */
  lemma {:induction false} ThreadedAppend(a: seq<Slot>, b: seq<Slot>, v: Value, apply: Apply)
    ensures Threaded(a + b, v, apply) == Threaded(b, Threaded(a, v, apply), apply)
    decreases |b|
  {
    if b == [] {
      assert a + b == a;
    } else {
      var n := |b| - 1;
      assert (a + b)[..|a + b| - 1] == a + b[..n];
      ThreadedAppend(a, b[..n], v, apply);
    }
  }

  /** With filter `f1` at level 1 and `f2` at level 5 the stored value is `f2(f1(v))`. */
  lemma FiltersComposeByLevel(f1: HandlerId, f2: HandlerId, v: Value, apply: Apply)
    ensures Threaded(Schedule(Enlist(Enlist([], 1, f1), 5, f2)), v, apply) == apply(f2, apply(f1, v))
  {
    var levels := Enlist(Enlist([], 1, f1), 5, f2);
    TwoFilterLevels(f1, f2);
    ScheduleOfTwoFilters(levels, f1, f2);
    var s := [Slot(1, f1), Slot(5, f2)];
    assert s[..1] == [Slot(1, f1)] && s[..1][..0] == [];
    assert Threaded(s[..1], v, apply) == apply(f1, v);
  }

  lemma TwoFilterLevels(f1: HandlerId, f2: HandlerId)
    ensures var levels := Enlist(Enlist([], 1, f1), 5, f2);
      && |levels| == 6 && levels[1] == Some([f1]) && levels[5] == Some([f2])
      && levels[0] == None && levels[2] == None && levels[3] == None && levels[4] == None
  {
    var one := Enlist([], 1, f1);
    assert Add([], f1) == [f1];
    assert |one| == 2 && one[0] == None && one[1] == Some([f1]);
    assert BucketAt(one, 5) == [];
    assert Add([], f2) == [f2];
  }

  lemma ScheduleOfTwoFilters(levels: Levels, f1: HandlerId, f2: HandlerId)
    requires |levels| == 6 && levels[1] == Some([f1]) && levels[5] == Some([f2])
    requires levels[0] == None && levels[2] == None && levels[3] == None && levels[4] == None
    ensures Schedule(levels) == [Slot(1, f1), Slot(5, f2)]
  {
    EmptyPrefix(levels);
    HolesAddNothing(levels, 0, []);
    OneHandlerAdds(levels, 1, [], f1);
    HolesAddNothing(levels, 2, [Slot(1, f1)]);
    HolesAddNothing(levels, 3, [Slot(1, f1)]);
    HolesAddNothing(levels, 4, [Slot(1, f1)]);
    OneHandlerAdds(levels, 5, [Slot(1, f1)], f2);
    assert levels[..6] == levels;
  }

  lemma EmptyPrefix(levels: Levels)
    ensures Schedule(levels[..0]) == []
  {
    assert levels[..0] == [];
  }

  /** A level holding the lone handler `h` appends one slot to the pass. */
  lemma OneHandlerAdds(levels: Levels, i: nat, before: seq<Slot>, h: HandlerId)
    requires i < |levels| && levels[i] == Some([h]) && Schedule(levels[..i]) == before
    ensures Schedule(levels[..i + 1]) == before + [Slot(i, h)]
  {
    ScheduleStep(levels, i);
    assert Tagged(i, BucketAt(levels, i)) == [Slot(i, h)];
  }

  /** A hole at index `i` adds nothing to the pass. */
  lemma HolesAddNothing(levels: Levels, i: nat, before: seq<Slot>)
    requires i < |levels| && levels[i] == None && Schedule(levels[..i]) == before
    ensures Schedule(levels[..i + 1]) == before
  {
    ScheduleStep(levels, i);
    assert Tagged(i, BucketAt(levels, i)) == [];
  }

  /** The inner loop of the traps: hand `v` through one level's handlers in insertion order. */
  method ApplyBucket(l: nat, bucket: Bucket, v: Value, apply: Apply) returns (r: Value)
    ensures r == Threaded(Tagged(l, bucket), v, apply)
  {
    r := v;
    var j := 0;
    assert Tagged(l, bucket[..0]) == [];
    while j < |bucket|
      invariant 0 <= j <= |bucket|
      invariant r == Threaded(Tagged(l, bucket[..j]), v, apply)
    {
      var next := Tagged(l, bucket[..j + 1]);
      assert next[..j] == Tagged(l, bucket[..j]);
      assert next[j].handler == bucket[j];
      r := apply(bucket[j], r);
      j := j + 1;
    }
    assert bucket[..j] == bucket;
  }

  /**
   * The loops of the traps: hand `v` through every non-empty level in
   * ascending order and, within a level, through its handlers in insertion order.
   */
  method ApplyHandlers(levels: Levels, v: Value, apply: Apply) returns (r: Value)
    ensures r == Threaded(Schedule(levels), v, apply)
  {
    r := v;
    var i := 0;
    while i < |levels|
      invariant 0 <= i <= |levels|
      invariant r == Threaded(Schedule(levels[..i]), v, apply)
    {
      ScheduleStep(levels, i);
      ThreadedAppend(Schedule(levels[..i]), Tagged(i, BucketAt(levels, i)), v, apply);
      if levels[i].Some? {
        r := ApplyBucket(i, levels[i].value, r, apply);
      } else {
        assert Tagged(i, BucketAt(levels, i)) == [];
      }
      i := i + 1;
    }
    assert levels[..i] == levels;
  }

  /** No bucket of any property holds a handler twice. */
  predicate PropTableValid(pt: PropTable) {
    forall p :: p in pt ==> AllDistinct(pt[p])
  }

  /** No bucket of any namespace holds a handler twice. */
  predicate RegistryValid(r: Registry) {
    forall ns :: ns in r ==> PropTableValid(r[ns])
  }

  /** A namespace's properties after `on`/`filter(prop, h, level)`. */
  function Registered(pt: PropTable, prop: Prop, h: HandlerId, level: nat): (r: PropTable)
    ensures PropTableValid(pt) ==> PropTableValid(r)
  {
    pt[prop := Enlist(if prop in pt then pt[prop] else [], level, h)]
  }

  /** `!level`: no level given, or level 0. */
  predicate Falsy(level: Option<nat>) {
    level.None? || level.value == 0
  }

  /**
   * A namespace's properties after `remove(kind, prop, actor?, level?)`, or
   * the TypeError the source throws when the bucket to delete from is missing.
   */
  function Removed(pt: PropTable, prop: Prop, actor: Option<HandlerId>, level: Option<nat>): (r: Result<PropTable>)
    ensures r.Err? <==> prop in pt && !Falsy(level) && !HasBucket(pt[prop], level.value)
    ensures r.Ok? ==> r.value.Keys == pt.Keys
    ensures r.Ok? ==> forall p :: p in pt && p != prop ==> r.value[p] == pt[p]
    ensures prop in pt && actor.None? && Falsy(level) ==> r == Ok(pt[prop := []])
    ensures prop in pt && actor.Some? && !Falsy(level) && r.Ok? ==>
      forall k: nat :: BucketAt(r.value[prop], k) ==
        if k == level.value then Delete(BucketAt(pt[prop], k), actor.value) else BucketAt(pt[prop], k)
    ensures prop in pt && !Falsy(level) && r.Ok? ==>
      |r.value[prop]| == |pt[prop]| && forall k: nat :: HasBucket(r.value[prop], k) <==> HasBucket(pt[prop], k)
    ensures (prop !in pt || (actor.Some? && Falsy(level)) || (actor.None? && !Falsy(level))) && r.Ok? ==> r.value == pt
    ensures PropTableValid(pt) && r.Ok? ==> PropTableValid(r.value)
  {
    if prop !in pt then Ok(pt)
    else if actor.None? && Falsy(level) then Ok(pt[prop := []])
    else if Falsy(level) then Ok(pt)
    else if !HasBucket(pt[prop], level.value) then Err(TypeError("Cannot read properties of undefined (reading 'delete')"))
    else if actor.None? then Ok(pt)
    else Ok(pt[prop := Dismiss(pt[prop], level.value, actor.value)])
  }

  /** `on`/`filter` add `h` to one bucket of one property and touch nothing else. */
  lemma RegisteredBuckets(pt: PropTable, prop: Prop, h: HandlerId, level: nat)
    ensures prop in Registered(pt, prop, h, level)
    ensures Registered(pt, prop, h, level).Keys == pt.Keys + {prop}
    ensures forall p :: p in pt && p != prop ==> Registered(pt, prop, h, level)[p] == pt[p]
    ensures forall k: nat ::
      BucketAt(Registered(pt, prop, h, level)[prop], k) ==
        if k == level then Add(BucketAt(if prop in pt then pt[prop] else [], level), h)
        else BucketAt(if prop in pt then pt[prop] else [], k)
  {
  }

  /** Registering the same handler twice at the same level leaves the table as one registration. */
  lemma RegisterIdempotent(pt: PropTable, prop: Prop, h: HandlerId, level: nat)
    ensures Registered(Registered(pt, prop, h, level), prop, h, level) == Registered(pt, prop, h, level)
  {
    EnlistIdempotent(if prop in pt then pt[prop] else [], level, h);
  }

  /** `remove(kind, prop)` with neither handler nor level resets the property's registrations to none. */
  lemma RemoveAllResets(pt: PropTable, prop: Prop, v: Value, apply: Apply)
    requires prop in pt
    ensures Removed(pt, prop, None, None) == Ok(pt[prop := []])
    ensures Threaded(Schedule(Removed(pt, prop, None, None).value[prop]), v, apply) == v
  {
  }

  /** Removing from a property nothing was registered for changes nothing, whatever the arguments. */
  lemma RemoveUnregisteredIsNoOp(pt: PropTable, prop: Prop, actor: Option<HandlerId>, level: Option<nat>)
    requires prop !in pt
    ensures Removed(pt, prop, actor, level) == Ok(pt)
  {
  }

  /** With a handler but no level, or level 0, `remove` only warns: nothing changes. */
  lemma RemoveWithoutLevelWarns(pt: PropTable, prop: Prop, h: HandlerId, level: Option<nat>)
    requires Falsy(level)
    ensures Removed(pt, prop, Some(h), level) == Ok(pt)
  {
  }

  /**
   * With a handler and a non-zero level, `remove` deletes that handler from
   * that bucket only, and throws when the bucket does not exist.
   */
  lemma RemoveExact(pt: PropTable, prop: Prop, h: HandlerId, level: nat)
    requires prop in pt && level > 0
    ensures !HasBucket(pt[prop], level) <==> Removed(pt, prop, Some(h), Some(level)).Err?
    ensures Removed(pt, prop, Some(h), Some(level)).Ok? ==>
      var q := Removed(pt, prop, Some(h), Some(level)).value;
      && q.Keys == pt.Keys
      && (forall p :: p in pt && p != prop ==> q[p] == pt[p])
      && (forall k: nat :: BucketAt(q[prop], k) == if k == level then Delete(BucketAt(pt[prop], k), h) else BucketAt(pt[prop], k))
      && |q[prop]| == |pt[prop]| && (forall k: nat :: HasBucket(q[prop], k) <==> HasBucket(pt[prop], k))
  {
  }

  /**
   * The capability `on`/`filter(prop, h, level)` returns, called with a
   * non-zero level right after registering a handler the bucket lacked,
   * gives every bucket its handlers back.
   */
  lemma UnregisterUndoesRegister(pt: PropTable, prop: Prop, h: HandlerId, level: nat)
    requires level > 0
    requires h !in BucketAt(if prop in pt then pt[prop] else [], level)
    ensures Removed(Registered(pt, prop, h, level), prop, Some(h), Some(level)).Ok?
    ensures var q := Removed(Registered(pt, prop, h, level), prop, Some(h), Some(level)).value;
      && (forall p :: p in pt && p != prop ==> q[p] == pt[p])
      && (forall k: nat :: BucketAt(q[prop], k) == BucketAt(if prop in pt then pt[prop] else [], k))
  {
    var levels := if prop in pt then pt[prop] else [];
    var reg := Registered(pt, prop, h, level);
    assert reg[prop] == Enlist(levels, level, h);
    assert HasBucket(reg[prop], level);
    var r := Removed(reg, prop, Some(h), Some(level));
    assert r.Ok?;
    forall k: nat
      ensures BucketAt(r.value[prop], k) == BucketAt(levels, k)
    {
      if k == level {
        DeleteUndoesAdd(BucketAt(levels, level), h);
      }
    }
  }

  /**
   * Level 0 is falsy: the capability returned by `on`/`filter(prop, h, 0)`
   * only warns, and `h` stays registered.
   */
  lemma UnregisterAtLevelZeroKeepsHandler(pt: PropTable, prop: Prop, h: HandlerId)
    ensures Removed(Registered(pt, prop, h, 0), prop, Some(h), Some(0)) == Ok(Registered(pt, prop, h, 0))
    ensures h in BucketAt(Registered(pt, prop, h, 0)[prop], 0)
  {
  }

  /**
   * After `remove(kind, prop)` has reset the property, the capability of an
   * earlier registration at a non-zero level throws instead of doing nothing.
   */
  lemma UnregisterAfterResetThrows(pt: PropTable, prop: Prop, h: HandlerId, level: nat)
    requires level > 0
    ensures Removed(Registered(pt, prop, h, level), prop, None, None).Ok?
    ensures Removed(Removed(Registered(pt, prop, h, level), prop, None, None).value, prop, Some(h), Some(level)).Err?
  {
    var reg := Registered(pt, prop, h, level);
    var reset := reg[prop := []];
    assert Removed(reg, prop, None, None) == Ok(reset);
    assert reset[prop] == [] && !HasBucket(reset[prop], level);
  }

  /** Calling the capability of `on`/`filter` a second time changes nothing more. */
  lemma UnregisterTwiceIsOnce(pt: PropTable, prop: Prop, h: HandlerId, level: nat)
    requires Removed(pt, prop, Some(h), Some(level)).Ok?
    ensures Removed(Removed(pt, prop, Some(h), Some(level)).value, prop, Some(h), Some(level))
      == Removed(pt, prop, Some(h), Some(level))
  {
    if prop in pt && level > 0 {
      var once := Removed(pt, prop, Some(h), Some(level)).value;
      DismissIdempotent(pt[prop], level, h);
      assert once[prop := Dismiss(once[prop], level, h)] == once;
    }
  }

  /** The class-level maps `HookableObject.listeners` and `HookableObject.filters`. */
  class HookRegistry {
    var listeners: Registry
    var filters: Registry

    /** No bucket holds a handler twice, as a JavaScript `Set` cannot. */
    predicate Valid()
      reads this
    {
      RegistryValid(listeners) && RegistryValid(filters)
    }

    constructor ()
      ensures listeners == map[] && filters == map[] && Valid()
    {
      listeners := map[];
      filters := map[];
    }

    /** The hot-reload reset: both class-level maps are emptied. */
    method Clear()
      modifies this
      ensures listeners == map[] && filters == map[] && Valid()
    {
      listeners := map[];
      filters := map[];
    }
  }

  /** A `Symbol()`: an identity and nothing else. */
  class Symbol {
    constructor () {}
  }

  /** What the target holds under a property name. */
  datatype Member = Data(value: Value) | Method(id: nat)

  /** The object `create` wraps; its properties are updated in place by writes through the proxy. */
  class Target {
    var members: map<Prop, Member>

    constructor (members: map<Prop, Member>)
      ensures this.members == members
    {
      this.members := members;
    }
  }

  /** `target[prop]` for a property that is not a method: missing properties read as `undefined`. */
  function Stored(members: map<Prop, Member>, prop: Prop): Value {
    if prop in members && members[prop].Data? then members[prop].value else Undefined
  }

  /** What a read through the proxy gives: a (listened) value, or the wrapper of a method. */
  datatype Access = Property(value: Value) | BoundMethod(id: nat)

  /** The capability `on`/`filter` return: calling it removes what was registered. */
  datatype Removal = Removal(owner: HookableObject, kind: Kind, prop: Prop, actor: HandlerId, level: nat)

  class HookableObject {
    const namespace: string
    const registry: HookRegistry
    var reference: Symbol?

    /** `new HookableObject(name)` (also what `use` and `useHookableObject` do). */
    constructor (namespace: string, registry: HookRegistry)
      ensures this.namespace == namespace && this.registry == registry && reference == null
    {
      this.namespace := namespace;
      this.registry := registry;
      reference := null;
    }

    /** The registry of one kind of handler. */
    function Table(kind: Kind): Registry
      reads registry
    {
      if kind == Listener then registry.listeners else registry.filters
    }

    /** The `listeners` getter: this namespace's listener table, created empty on first use. */
    method Listeners() returns (pt: PropTable)
      modifies registry
      requires registry.Valid()
      ensures registry.Valid()
      ensures registry.listeners == EnsureKey(old(registry.listeners), namespace)
      ensures registry.filters == old(registry.filters)
      ensures pt == Props(old(registry.listeners), namespace)
    {
      if namespace !in registry.listeners {
        registry.listeners := registry.listeners[namespace := map[]];
      }
      pt := registry.listeners[namespace];
    }

    /** The `filters` getter: this namespace's filter table, created empty on first use. */
    method Filters() returns (pt: PropTable)
      modifies registry
      requires registry.Valid()
      ensures registry.Valid()
      ensures registry.filters == EnsureKey(old(registry.filters), namespace)
      ensures registry.listeners == old(registry.listeners)
      ensures pt == Props(old(registry.filters), namespace)
    {
      if namespace !in registry.filters {
        registry.filters := registry.filters[namespace := map[]];
      }
      pt := registry.filters[namespace];
    }

    /** The `reference` getter: a fresh symbol on first read, the same one on every later read. */
    method Reference() returns (s: Symbol)
      modifies this`reference
      ensures old(reference) != null ==> s == old(reference)
      ensures old(reference) == null ==> fresh(s)
      ensures reference == s
    {
      if reference == null {
        reference := new Symbol();
      }
      s := reference;
    }

    /** `create(obj)`: a proxy over `target` whose traps use this object's namespace. */
    method Create(target: Target) returns (proxy: Proxy)
      ensures fresh(proxy) && proxy.target == target && proxy.hooks == this
    {
      proxy := new Proxy(target, this);
    }

    /** `on(prop, listener, level = 10)` */
    method On(prop: Prop, listener: HandlerId, level: nat := 10) returns (off: Removal)
      modifies registry
      requires registry.Valid()
      ensures registry.Valid()
      ensures registry.listeners ==
        old(registry.listeners)[namespace := Registered(Props(old(registry.listeners), namespace), prop, listener, level)]
      ensures registry.filters == old(registry.filters)
      ensures off == Removal(this, Listener, prop, listener, level)
    {
      var pt := Listeners();
      var levels := if prop in pt then pt[prop] else [];
      EnlistInPlace(levels, level, listener);
      if !HasBucket(levels, level) {
        levels := Put(levels, level, []);
      }
      levels := levels[level := Some(Add(levels[level].value, listener))];
      registry.listeners := registry.listeners[namespace := pt[prop := levels]];
      off := Removal(this, Listener, prop, listener, level);
    }

    /** `onReturn`: `on` under the name used for method results. */
    method OnReturn(prop: Prop, listener: HandlerId, level: nat := 10) returns (off: Removal)
      modifies registry
      requires registry.Valid()
      ensures registry.Valid()
      ensures registry.listeners ==
        old(registry.listeners)[namespace := Registered(Props(old(registry.listeners), namespace), prop, listener, level)]
      ensures registry.filters == old(registry.filters)
      ensures off == Removal(this, Listener, prop, listener, level)
    {
      off := On(prop, listener, level);
    }

    /** `filter(prop, filter, level = 10)` */
    method Filter(prop: Prop, filter: HandlerId, level: nat := 10) returns (off: Removal)
      modifies registry
      requires registry.Valid()
      ensures registry.Valid()
      ensures registry.filters ==
        old(registry.filters)[namespace := Registered(Props(old(registry.filters), namespace), prop, filter, level)]
      ensures registry.listeners == old(registry.listeners)
      ensures off == Removal(this, Kind.Filter, prop, filter, level)
    {
      var pt := Filters();
      var levels := if prop in pt then pt[prop] else [];
      EnlistInPlace(levels, level, filter);
      if !HasBucket(levels, level) {
        levels := Put(levels, level, []);
      }
      levels := levels[level := Some(Add(levels[level].value, filter))];
      registry.filters := registry.filters[namespace := pt[prop := levels]];
      off := Removal(this, Kind.Filter, prop, filter, level);
    }

    /** `filterParams`: `filter` under the name used for method arguments. */
    method FilterParams(prop: Prop, filter: HandlerId, level: nat := 10) returns (off: Removal)
      modifies registry
      requires registry.Valid()
      ensures registry.Valid()
      ensures registry.filters ==
        old(registry.filters)[namespace := Registered(Props(old(registry.filters), namespace), prop, filter, level)]
      ensures registry.listeners == old(registry.listeners)
      ensures off == Removal(this, Kind.Filter, prop, filter, level)
    {
      off := Filter(prop, filter, level);
    }

    /**
     * `remove(kind, prop, actor?, level?)`: the namespace's table of that kind
     * becomes `Removed(...)`; on the TypeError only the lazy namespace entry
     * has appeared.  The other kind's table is untouched.
     */
    method Remove(kind: Kind, prop: Prop, actor: Option<HandlerId>, level: Option<nat>) returns (r: Result<()>)
      modifies registry
      requires registry.Valid()
      ensures registry.Valid()
      ensures Table(kind) == old(Table(kind))[namespace :=
        match Removed(Props(old(Table(kind)), namespace), prop, actor, level)
        case Ok(pt) => pt
        case Err(_) => Props(old(Table(kind)), namespace)]
      ensures r.Err? <==> Removed(Props(old(Table(kind)), namespace), prop, actor, level).Err?
      ensures kind == Listener ==> registry.filters == old(registry.filters)
      ensures kind == Kind.Filter ==> registry.listeners == old(registry.listeners)
    {
      var items: PropTable;
      if kind == Listener {
        items := Listeners();
      } else {
        items := Filters();
      }
      assert old(Table(kind))[namespace := items] == Table(kind);
      if prop !in items {
        return Ok(());
      }
      if actor.None? && Falsy(level) {
        items := items[prop := []];
      } else if Falsy(level) {
        return Ok(());
      } else {
        var actors: Levels := items[prop];
        if !HasBucket(actors, level.value) {
          return Err(TypeError("Cannot read properties of undefined (reading 'delete')"));
        }
        if actor.Some? {
          actors := actors[level.value := Some(Delete(actors[level.value].value, actor.value))];
        }
        assert actor.None? ==> items[prop := actors] == items;
        items := items[prop := actors];
      }
      if kind == Listener {
        registry.listeners := registry.listeners[namespace := items];
      } else {
        registry.filters := registry.filters[namespace := items];
      }
      r := Ok(());
    }
  }

  /** The proxy `create` returns: its methods are the get and set traps. */
  class Proxy {
    const target: Target
    const hooks: HookableObject

    constructor (target: Target, hooks: HookableObject)
      ensures this.target == target && this.hooks == hooks
    {
      this.target := target;
      this.hooks := hooks;
    }

    /**
     * The get trap: a method reads as its wrapper, untouched; any other
     * property reads as its stored value handed through the listeners.
     */
    method Read(prop: Prop, apply: Apply) returns (a: Access)
      modifies hooks.registry
      requires hooks.registry.Valid()
      ensures hooks.registry.Valid()
      ensures prop in target.members && target.members[prop].Method? ==>
        a == BoundMethod(target.members[prop].id) && hooks.registry.listeners == old(hooks.registry.listeners)
      ensures !(prop in target.members && target.members[prop].Method?) ==>
        && a == Property(Threaded(Schedule(PropLevels(old(hooks.registry.listeners), hooks.namespace, prop)),
                                  Stored(target.members, prop), apply))
        && hooks.registry.listeners == EnsureKey(old(hooks.registry.listeners), hooks.namespace)
      ensures hooks.registry.filters == old(hooks.registry.filters)
    {
      if prop in target.members && target.members[prop].Method? {
        return BoundMethod(target.members[prop].id);
      }
      var listeners := hooks.Listeners();
      var levels := if prop in listeners then listeners[prop] else [];
      var v := ApplyHandlers(levels, Stored(target.members, prop), apply);
      a := Property(v);
    }

    /**
     * `proxy[prop](...args)`: the arguments go through the filters, the
     * method gets the result, and its return value goes through the
     * listeners.  Calling a property that is not a method throws.
     */
    method Call(prop: Prop, args: seq<Value>, apply: Apply, invoke: Invoke) returns (r: Result<Value>)
      modifies hooks.registry
      requires hooks.registry.Valid()
      ensures hooks.registry.Valid()
      ensures hooks.registry.listeners == EnsureKey(old(hooks.registry.listeners), hooks.namespace)
      ensures prop in target.members && target.members[prop].Method? ==>
        && hooks.registry.filters == EnsureKey(old(hooks.registry.filters), hooks.namespace)
        && r == Ok(Threaded(Schedule(PropLevels(old(hooks.registry.listeners), hooks.namespace, prop)),
                            invoke(target.members[prop].id,
                                   Threaded(Schedule(PropLevels(old(hooks.registry.filters), hooks.namespace, prop)),
                                            List(args), apply)),
                            apply))
      ensures !(prop in target.members && target.members[prop].Method?) ==>
        r.Err? && hooks.registry.filters == old(hooks.registry.filters)
    {
      var a := Read(prop, apply);
      if a.Property? {
        return Err(TypeError("proxy[prop] is not a function"));
      }
      var filters := hooks.Filters();
      var filterLevels := if prop in filters then filters[prop] else [];
      var params := ApplyHandlers(filterLevels, List(args), apply);
      var result := invoke(a.id, params);
      var listeners := hooks.Listeners();
      var listenerLevels := if prop in listeners then listeners[prop] else [];
      var v := ApplyHandlers(listenerLevels, result, apply);
      r := Ok(v);
    }

    /**
     * The set trap: without a filter entry the value is stored as given;
     * otherwise it is stored after going through the filters.  No other
     * property changes.
     */
    method Write(prop: Prop, v: Value, apply: Apply)
      modifies target, hooks.registry
      requires hooks.registry.Valid()
      ensures hooks.registry.Valid()
      ensures target.members ==
        old(target.members)[prop := Data(Threaded(Schedule(PropLevels(old(hooks.registry.filters), hooks.namespace, prop)), v, apply))]
      ensures hooks.registry.filters == EnsureKey(old(hooks.registry.filters), hooks.namespace)
      ensures hooks.registry.listeners == old(hooks.registry.listeners)
    {
      var filters := hooks.Filters();
      if prop !in filters {
        target.members := target.members[prop := Data(v)];
        return;
      }
      var value := ApplyHandlers(filters[prop], v, apply);
      target.members := target.members[prop := Data(value)];
    }
  }

  /**
   * Hooks live in the class-level maps under the namespace, so a listener
   * registered through one instance reshapes reads through a proxy created
   * by another instance of the same namespace.
   */
  method SharedNamespace(prop: Prop, v: Value, l: HandlerId, apply: Apply) returns (a: Access)
    ensures a == Property(apply(l, v))
  {
    var registry := new HookRegistry();
    var first := new HookableObject("test", registry);
    var second := new HookableObject("test", registry);
    var _ := first.On(prop, l);
    var target := new Target(map[prop := Data(v)]);
    var proxy := second.Create(target);
    LoneHandler(10, l);
    assert PropLevels(registry.listeners, "test", prop) == Enlist([], 10, l);
    a := proxy.Read(prop, apply);
    assert [Slot(10, l)][..0] == [];
  }

  /** Calling the capability `on`/`filter` returned: `remove(kind, prop, actor, level)` on the instance that issued it. */
  method Release(off: Removal) returns (r: Result<()>)
    modifies off.owner.registry
    requires off.owner.registry.Valid()
    ensures off.owner.registry.Valid()
    ensures off.owner.Table(off.kind) == old(off.owner.Table(off.kind))[off.owner.namespace :=
      match Removed(Props(old(off.owner.Table(off.kind)), off.owner.namespace), off.prop, Some(off.actor), Some(off.level))
      case Ok(pt) => pt
      case Err(_) => Props(old(off.owner.Table(off.kind)), off.owner.namespace)]
    ensures r.Err? <==> Removed(Props(old(off.owner.Table(off.kind)), off.owner.namespace), off.prop, Some(off.actor), Some(off.level)).Err?
    ensures off.kind == Listener ==> off.owner.registry.filters == old(off.owner.registry.filters)
    ensures off.kind == Kind.Filter ==> off.owner.registry.listeners == old(off.owner.registry.listeners)
  {
    r := off.owner.Remove(off.kind, off.prop, Some(off.actor), Some(off.level));
  }
}
