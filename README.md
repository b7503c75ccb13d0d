# Hook machinery of the game engine, in Dafny

This project models the hook machinery of a small browser game engine written
in TypeScript, and proves properties of the model. The machinery has three parts.

- **The priority event bus** (`Hookable`, and its subclass `GameHook`).
  - A class-level registry maps namespace → event → an array indexed by level → an insertion-ordered `Set` of handlers.
  - `listen` adds a handler and `mute` deletes it.
  - `process`/`trigger` run every handler of an event, level by level in ascending order, each with the same context and arguments. `trigger` returns the last handler's result.
  - Nothing runs while either the bus's own flag or the class-level flag is off.
  - `GameHook` is the same machine over a registry of its own, with `clear()`.
- **The interception layer** (`HookableObject`).
  - Two class-level maps keep *listeners* and *filters* per namespace and property, in the same level/`Set` layout.
  - `create` wraps an object in a proxy:
    - a write threads the value through the filters before storing it;
    - a read threads the stored value through the listeners;
    - a method call threads its arguments through the filters and its result through the listeners.
  - `on`/`filter` register a handler and `remove` unregisters one. `remove` keeps the source's quirks: level 0 counts as "no level", and deleting from a bucket that does not exist throws.
- **The observable store** (`Store`).
  - Watchers of a property are called with `(new, old)` before a write through the store's proxy is stored.
  - `subscribe` calls the listener at once. `set(s)` calls every subscriber with `s` and then installs `s` itself, without a proxy.
  - `watch`/`unwatch` manage the per-property watchers.

Modelling choices:

- **Handlers.**
  - A handler is a `nat` id (`Buckets.HandlerId`). What it does is a function parameter: `Hookable.Interp` for bus handlers, `HookableObject.Apply` for filters and listeners, and `HookableObject.Invoke` for the target's methods.
  - A handler call is recorded as data: `Hookable.Call` for the bus, `Store.Notice` for store listeners. This way order and arguments can be stated.
- **Sets and level arrays.**
  - A JavaScript `Set` becomes a `seq` in insertion order (`Buckets.Add`, `Buckets.Delete`).
  - A sparse level array becomes a `seq<Option<Bucket>>` whose holes are `None`.
  - The visiting order of one pass is `Buckets.Schedule`.
- **Class-level (static) state** becomes objects that the instances share:
  - `Hookable.HookTable` holds a class's `listeners`. Hookable and GameHook each have their own.
  - `Hookable.ActiveFlag` holds `Hookable.active`. `GameHook.active` is inherited from it, not redeclared.
  - `HookableObject.HookRegistry` holds the two maps of the interception layer.
- **Lazy getters.** The getters that create a namespace entry on first use are modelled (`Common.EnsureKey`). So a trigger, a read or a write can add an empty entry to the registry, as in the source.
- **Unregister closures** become token datatypes: `Hookable.Unlisten`, `HookableObject.Removal`, `Store.Cancel`. Each token records the bus, instance or store that issued it, and calling a closure is the module's `Release` method, which acts through that owner.

How unregistering behaves after a reset:

- An unregister closure keeps working after a full clear (`GameHook.clear`, or the hot-reload reset): see `HookableObject.RemoveUnregisteredIsNoOp` and `Hookable.MuteAbsentIsNoOp`.
- After `remove(kind, prop)` has reset one property, the closure of an earlier `on`/`filter` at a non-zero level throws a TypeError. The reset leaves an empty array, so the closure reads a missing bucket (`HookableObject.UnregisterAfterResetThrows`). A closure registered at level 0 only warns and changes nothing, reset or not (`HookableObject.UnregisterAtLevelZeroKeepsHandler`, `HookableObject.RemoveWithoutLevelWarns`).
- `set(s)` installs `s` unwrapped, so later writes to it reach no watcher (`Store.SetDetachesWatchers`).

## Model

| member | source | states |
|---|---|---|
| Common.EnsureKey | src/includes/Hookable.ts:32-36 | the lazy `listeners` getter creates an empty entry for a missing namespace and keeps every other entry |
| Buckets.Add | src/includes/Hookable.ts:90-91 | `Set.add`: the members are the old ones plus `h`; old members keep their order (the old set is a prefix); no duplicates are introduced |
| Buckets.Delete | src/includes/Hookable.ts:100 | `Set.delete`: the members are exactly the old ones except `h`; deleting an absent handler returns the set unchanged; distinctness is kept; from a set holding `h`, exactly that one entry is cut out and the others keep their order |
| Buckets.DeleteUndoesAdd | src/includes/Hookable.ts:87-101 | deleting a handler just added to a set that lacked it gives the set back |
| Buckets.Put | src/includes/Hookable.ts:90 | `levels[l] = b`: assigning past the end grows the array with holes; every other index is unchanged |
| Buckets.Enlist | src/includes/Hookable.ts:88-93 | create-if-missing then add: the bucket at `l` becomes `Add(old, h)`; every other level keeps its handlers; no bucket disappears |
| Buckets.EnlistInPlace | src/lib/HookableObject.ts:125-129 | the source's order of steps (create the bucket if it is missing, then add in place) gives exactly `Enlist` |
| Buckets.Dismiss | src/includes/Hookable.ts:99-100 | deleting from an existing bucket changes only that bucket, and in it only `h`; the set of existing buckets is the same |
| Buckets.EnlistIdempotent | src/includes/Hookable.ts:87-95 | registering the same handler twice at one level leaves the array as after one registration |
| Buckets.DismissAbsent | src/includes/Hookable.ts:97-101 | deleting a handler that is absent from the bucket changes nothing |
| Buckets.DismissIdempotent | src/includes/Hookable.ts:97-101 | deleting twice equals deleting once |
| Buckets.DismissUndoesEnlist | src/includes/Hookable.ts:87-101 | deleting a handler just added to a bucket that lacked it gives every level its handlers back |
| Buckets.Schedule | src/includes/Hookable.ts:79-84 | the run order of one pass: every slot names an existing level and a handler that is in that level's set |
| Buckets.ScheduleAscends | src/includes/Hookable.ts:79-84 | a pass visits only levels inside the array, in ascending order; every handler of a lower level comes strictly before any handler of a higher level |
| Buckets.ScheduleAtLevel | src/includes/Hookable.ts:79-84 | the handlers a pass visits at level `l` are exactly that level's set, in insertion order; holes contribute nothing |
| Buckets.InSchedule | src/includes/Hookable.ts:79-84 | a pass visits `h` at level `l` if and only if `h` is in that level's set |
| Buckets.ScheduleOfHoles | src/includes/Hookable.ts:79-80 | an array of holes gives an empty pass |
| Buckets.LoneHandler | src/includes/Hookable.ts:87-95 | one handler added to an empty array is the whole pass |
| Hookable.ListenedBuckets | src/includes/Hookable.ts:87-95 | `listen` adds `h` to the (namespace, event, level) set only; other levels, events and namespaces keep their handlers |
| Hookable.ListenIdempotent | src/includes/Hookable.ts:87-95 | listening the same handler twice at one level equals listening once |
| Hookable.MutedBuckets | src/includes/Hookable.ts:97-101 | `mute` deletes `h` from the (namespace, event, level) set only; nothing else changes |
| Hookable.MuteAbsentIsNoOp | src/includes/Hookable.ts:97-101 | muting an absent bucket or handler changes no handler; only the lazy namespace entry may appear |
| Hookable.MuteIdempotent | src/includes/Hookable.ts:97-101 | muting twice equals muting once |
| Hookable.MuteUndoesListen | src/includes/Hookable.ts:87-101 | `mute` after `listen` of a handler the bucket lacked gives every bucket of every event its handlers back |
| Hookable.MutedIsNotRun | src/includes/Hookable.ts:97-101 | after `mute(event, h, level)` no pass runs `h` from that level |
| Hookable.ValidKept | src/includes/Hookable.ts:87-101 | `listen`, `mute` and the lazy getter keep every bucket of the registry free of repeats (the invariant `HookTable.Valid`) |
| Hookable.RunBucket | src/includes/Hookable.ts:81-83 | the inner loop of `process` calls one level's handlers in insertion order, each with the bus's context and the same arguments, and yields each handler's own result |
| Hookable.RunPass | src/includes/Hookable.ts:79-84 | the loops of `process` call the handlers in the order of `Schedule`, each with the context and the same arguments; results are not threaded from one handler to the next, and each handler's own result is yielded |
| Hookable.HookTable.constructor | src/includes/Hookable.ts:12-16 | a class's registry starts empty, and so free of repeated handlers |
| Hookable.HookTable.Clear | src/includes/GameHook.ts:23-25 | `clear()` replaces the registry with an empty one |
| Hookable.ActiveFlag.constructor | src/includes/Hookable.ts:11 | the class-level switch starts on |
| Hookable.Hookable.constructor | src/includes/Hookable.ts:18-41 | a bus is bound to its namespace, context (by default an empty record) and class registry, and its own flag starts on |
| Hookable.Hookable.IsActive | src/includes/Hookable.ts:20-22 | a bus is active exactly when both its own flag and the class-level flag are on |
| Hookable.Hookable.Listeners | src/includes/Hookable.ts:32-36 | the getter returns this namespace's events and creates an empty entry on first use |
| Hookable.Hookable.To | src/includes/Hookable.ts:43-47 | `to(ns)` gives a fresh active bus of the same class on `ns`, with the same context and the same shared registry |
| Hookable.Hookable.Process | src/includes/Hookable.ts:67-85 | while inactive: no handler runs and the registry is untouched; otherwise every handler of the event runs in `Schedule` order with the same context and arguments, and each result is yielded |
| Hookable.Hookable.Trigger | src/includes/Hookable.ts:49-65 | runs nothing and returns `undefined` when the own or the class-level flag is off; otherwise returns the last handler's result, or `undefined` when no handler ran |
| Hookable.Hookable.Listen | src/includes/Hookable.ts:87-95 | the registry becomes `Listened(...)`, i.e. `h` is added at `level` (default 10); returns the token of `mute(event, actor, level)` |
| Hookable.Hookable.Mute | src/includes/Hookable.ts:97-101 | the registry becomes `Muted(...)`: `h` is deleted from an existing bucket; a missing bucket is left alone |
| Hookable.Release | src/includes/Hookable.ts:94 | calling the closure from `listen` leaves the issuing bus's registry exactly as `mute` with the same triple, on that bus's namespace, would |
| Hookable.Hookable.Activate | src/includes/Hookable.ts:103-106 | sets only the own flag and returns the bus |
| Hookable.Hookable.Deactivate | src/includes/Hookable.ts:108-111 | clears only the own flag and returns the bus |
| GameHook.CreateGameHooks | src/includes/GameHook.ts:42-44 | a fresh active bus on namespace "global" with an empty context, over the GameHook registry |
| GameHook.SeparateRegistries | src/includes/GameHook.ts:21-33 | a handler listened on a game bus is run by a game bus and never by a plain bus on the same namespace and event |
| GameHook.TriggerAfterClear | src/includes/GameHook.ts:23-25 | after `clear()` a trigger runs no handler and returns `undefined` |
| HookableObject.ThreadedAppend | src/lib/HookableObject.ts:105-110 | threading a value through two runs of handlers equals threading it through the first run and then the second |
| HookableObject.FiltersComposeByLevel | src/lib/HookableObject.ts:105-112 | with filter `f1` at level 1 and `f2` at level 5 the stored value is `f2(f1(v))` |
| HookableObject.ApplyBucket | src/lib/HookableObject.ts:107-109 | the inner loop of a trap hands the value through one level's handlers in insertion order, each result feeding the next |
| HookableObject.ApplyHandlers | src/lib/HookableObject.ts:71-76 | the loops of the traps give `Threaded(Schedule(levels), v)`: each handler's result is the next handler's input, in ascending level and insertion order; holes and empty sets are skipped |
| HookableObject.RegisteredBuckets | src/lib/HookableObject.ts:121-132 | `on`/`filter` add the handler to the level's set of that property only (the set is created if it is missing); other properties and levels are unchanged |
| HookableObject.Removed | src/lib/HookableObject.ts:179-197 | `remove(kind, prop, actor?, level?)` on one namespace: an error exactly when the property exists, the level is non-zero and its bucket is missing; otherwise a property without entry, a handler without level, or a level without handler changes nothing; neither handler nor level resets the property to `[]`; a handler with a level is deleted from that bucket only, and the bucket stays in place even when it becomes empty; keys and other properties never change; buckets stay free of repeats |
| HookableObject.RegisterIdempotent | src/lib/HookableObject.ts:141-152 | registering the same handler twice at one level equals registering it once |
| HookableObject.RemoveAllResets | src/lib/HookableObject.ts:182-184 | `remove(kind, prop)` resets the property's registrations of that kind to none; a later pass leaves values unchanged |
| HookableObject.RemoveUnregisteredIsNoOp | src/lib/HookableObject.ts:181 | removing from a property that has no entry changes nothing, whatever the other arguments |
| HookableObject.RemoveWithoutLevelWarns | src/lib/HookableObject.ts:185-191 | a handler with no level, or with level 0 (falsy), only warns: nothing changes |
| HookableObject.RemoveExact | src/lib/HookableObject.ts:193-195 | with a handler and a non-zero level, `remove` throws if and only if that bucket is missing; otherwise it deletes that handler from that bucket, keeps the array's length and every existing bucket (an emptied one included), and changes nothing else |
| HookableObject.UnregisterUndoesRegister | src/lib/HookableObject.ts:121-132 | the closure of `on`/`filter` at a non-zero level, called right after registering a handler the bucket lacked, gives every bucket its handlers back |
| HookableObject.UnregisterAtLevelZeroKeepsHandler | src/lib/HookableObject.ts:185-191 | the closure of a registration at level 0 only warns, and the handler stays registered |
| HookableObject.UnregisterAfterResetThrows | src/lib/HookableObject.ts:182-195 | after `remove(kind, prop)` resets the property, the closure of an earlier registration at a non-zero level throws |
| HookableObject.UnregisterTwiceIsOnce | src/lib/HookableObject.ts:193-195 | calling an unregister closure a second time, after it succeeded once, changes nothing more |
| HookableObject.HookRegistry.constructor | src/lib/HookableObject.ts:18-24 | both class-level maps start empty |
| HookableObject.HookRegistry.Clear | src/lib/HookableObject.ts:262-267 | the hot-reload reset empties both class-level maps |
| HookableObject.HookableObject.constructor | src/lib/HookableObject.ts:57 | an instance is bound to its namespace and the shared maps, and has no reference yet |
| HookableObject.HookableObject.Listeners | src/lib/HookableObject.ts:36-40 | the getter returns this namespace's listener table, creates an empty one on first use, and leaves the filters alone |
| HookableObject.HookableObject.Filters | src/lib/HookableObject.ts:42-46 | the getter returns this namespace's filter table, creates an empty one on first use, and leaves the listeners alone |
| HookableObject.HookableObject.Reference | src/lib/HookableObject.ts:51-55 | the first read creates a fresh symbol; every later read returns the same one |
| HookableObject.HookableObject.Create | src/lib/HookableObject.ts:59-61 | a fresh proxy over the target whose traps use this instance's namespace |
| HookableObject.HookableObject.On | src/lib/HookableObject.ts:121-132 | the listener map becomes `Registered(...)` for this namespace; filters are untouched; returns the token of `remove("listener", prop, listener, level)` |
| HookableObject.HookableObject.OnReturn | src/lib/HookableObject.ts:134-139 | the same effect as `on` |
| HookableObject.HookableObject.Filter | src/lib/HookableObject.ts:141-152 | the filter map becomes `Registered(...)` for this namespace; listeners are untouched; returns the token of `remove("filter", prop, filter, level)` |
| HookableObject.HookableObject.FilterParams | src/lib/HookableObject.ts:154-159 | the same effect as `filter` |
| HookableObject.HookableObject.Remove | src/lib/HookableObject.ts:161-198 | the namespace's table of that kind becomes `Removed(...)`; the result is an error exactly when `Removed` throws; the other kind's map is untouched |
| HookableObject.Release | src/lib/HookableObject.ts:131 | calling the closure is `remove(kind, prop, actor, level)` with the registered quadruple, on the instance that registered it |
| HookableObject.Proxy.Read | src/lib/HookableObject.ts:61-96 | a method reads as its wrapper and the listener map is not touched; any other property reads as its stored value (`undefined` if missing) threaded through the listeners, and unchanged when there are none; filters are untouched |
| HookableObject.Proxy.Call | src/lib/HookableObject.ts:81-95 | calling a method gives the listener-threaded result of the method applied to the filter-threaded argument list; calling a property that is not a method throws |
| HookableObject.Proxy.Write | src/lib/HookableObject.ts:98-115 | the property is stored as the value threaded through its filters, or the value itself when there is no filter entry; no other property changes; listeners are untouched |
| HookableObject.SharedNamespace | src/lib/HookableObject.ts:18-40 | a listener registered through one instance shapes reads through a proxy made by another instance of the same namespace |
| Store.Watched | src/lib/Store.ts:80-82 | `watch` makes the property's set exactly its earlier watchers plus the listener (created on first use), with the earlier watchers kept first and in order; other properties are left alone; sets stay free of repeats |
| Store.Unwatched | src/lib/Store.ts:89-100 | `unwatch(prop, l)` is `Set.delete` on the property's set, so exactly the other watchers stay, in order; `unwatch(prop)` empties the set; no other property and no key changes; sets stay free of repeats |
| Store.WatchIdempotent | src/lib/Store.ts:80-82 | watching twice with the same listener equals watching once |
| Store.WatcherIsAlerted | src/lib/Store.ts:28-31 | after `watch(prop, l)`, every write to `prop` through the proxy calls `l` with the new and the old value |
| Store.UnwatchUnknownIsNoOp | src/lib/Store.ts:93 | `unwatch` of a property that was never watched changes nothing |
| Store.UnwatchAllSilences | src/lib/Store.ts:97 | after `unwatch(prop)` a write to `prop` alerts nobody |
| Store.UnwatchOneKeepsOthers | src/lib/Store.ts:96 | after `unwatch(prop, l)`, `l` is not alerted and every other watcher of `prop` still is |
| Store.UnwatchUndoesWatch | src/lib/Store.ts:86-100 | the closure of `watch(prop, l)`, called right after, gives back the watcher sets as they were when `l` was new to a watched property |
| Store.UnwatchTwiceIsOnce | src/lib/Store.ts:86-100 | calling the closure of `watch(prop, l)` a second time changes nothing more |
| Store.UnsubscribeTwiceIsOnce | src/lib/Store.ts:62-68 | calling the closure of `subscribe(l)` a second time changes nothing more |
| Store.UnsubscribedIsSilent | src/lib/Store.ts:65-73 | after `unsubscribe(l)` a `set` calls every other subscriber and never `l` |
| Store.Store.constructor | src/lib/Store.ts:22-33 | the initial state is wrapped in the notifying proxy; there are no subscribers and no watchers |
| Store.Store.NotifyListeners | src/lib/Store.ts:44-48 | `notifyListeners(s)` makes one call per subscriber, in insertion order, each with the current state as receiver and `s` as argument (every mutator keeps `Store.Valid`, so no subscriber is called twice) |
| Store.Store.NotifyPropListeners | src/lib/Store.ts:50-57 | a property never watched alerts nobody; otherwise each of its watchers is called in insertion order with `(value, oldValue)` |
| Store.Store.Write | src/lib/Store.ts:27-33 | through the proxy: the property's watchers get `(new, old)` before the store, with the old value `undefined` if it was missing; after `set`: only the store happens; subscribers are never called; no other property changes |
| Store.Store.Subscribe | src/lib/Store.ts:59-63 | calls the listener once with the current state, then adds it to the subscribers; returns the token of `unsubscribe(listener)` |
| Store.Store.Unsubscribe | src/lib/Store.ts:65-68 | `"all"` empties the subscribers; `l` removes only `l`, and an absent `l` changes nothing |
| Store.Store.Set | src/lib/Store.ts:70-73 | every subscriber is called with `s` while the old state is still in place; then the state is `s` itself, no longer proxied |
| Store.Store.Watch | src/lib/Store.ts:75-87 | the watchers become `Watched(...)`; with `immediate` the listener is called once with the current value and no old value; returns the token of `unwatch(prop, listener)` |
| Store.Store.Unwatch | src/lib/Store.ts:89-100 | the watchers become `Unwatched(...)` |
| Store.Release | src/lib/Store.ts:62 | calling a closure is `unsubscribe(listener)`, or `unwatch(prop, listener)`, on the store that issued it, and changes nothing else |
| Store.Store.ClearListeners | src/lib/Store.ts:35-41 | the hot-reload reset drops all subscribers and all watcher sets |
| Store.WriteAlertsBeforeStoring | src/lib/Store.ts:28-31 | on a fresh store, a watched write calls the watcher with the new and the old value while the state still holds the old one, and then stores the new value |
| Store.SetDetachesWatchers | src/lib/Store.ts:70-73 | after `set(s)` a write to a watched property alerts nobody and only updates `s` |

## Left out

- `GameEngine` (src/components/Game/GameEngine.ts) is not part of this model. Its loops are timer and animation-frame scheduling, and the rest is DOM canvas sizing and Svelte context.
- Promises and `await`:
  - `trigger` awaits each result; the model treats every handler call as an ordinary synchronous call.
  - Listener chaining with `is_promise`/`.then` in the get trap is left out; values are never promises.
- `process` is a generator. Its laziness is not modelled: the pass is computed whole.
- Handlers never throw in the model. In the source, a throwing handler aborts the rest of a `trigger`/`process` pass, of a proxy trap, or of a `forEach` notify loop of the store, and the error reaches the caller.
- Handler side effects are left out. A handler's effect is only its return value (or, for store listeners, the call itself). So a handler that changes the registry during a pass is not modelled.
- The receivers `this`/`proxy` passed to filters, listeners and hooked methods are not modelled. Store notices record the state that `this` shows, but not the object identity.
- The `import.meta.hot` wiring is left out; its effect is available as explicit resets: `Hookable.HookTable.Clear`, `HookableObject.HookRegistry.Clear` and `Store.Store.ClearListeners`. Console output is dropped.
- `provideGameHooks`/`useGameHooks` and `HookableObject.use`/`useHookableObject` are Svelte context or plain constructor wrappers, and are not modelled separately.
- Levels are natural numbers. Negative, fractional or non-numeric levels, which a JavaScript array would store as plain properties outside the pass, are not modelled.
- Levels of 2^32 - 1 or more are not array indices in JavaScript either. `listen` and `mute` still store and find a handler there, but the `for…of` passes of `process` and of the traps never visit it. The model's `Schedule` runs it. Such levels are outside the model.
- Names inherited from `Object.prototype`, such as `toString`, are not modelled:
  - As an event or namespace name in the bus registry (a plain object), they resolve to the inherited member. For example, `trigger("toString")` throws "not iterable", and a namespace `toString` is shared by `Hookable` and `GameHook` and survives `clear()`. The model treats every name as an ordinary key.
  - As a property of a proxied target, an inherited method such as `toString` reads as a wrapped method. The model's target holds only its own properties, so such a read gives `undefined`.
- Values are data only. A listener that returns a function, or a filter that turns a method's argument list into something that is not a list, is covered only as far as `Invoke` is total.
- Store:
  - `set(s)` with a nullish `s` would make `notifyListeners` fall back to the current state. The model's `set` always takes a record.
  - Aliasing is not modelled: writes through a proxy reference kept from before a `set`, or through a raw reference to the initial record.
- `Hookable.ActiveFlag` has no operation of its own. The source switches it by assigning the static field, which the model allows by writing `on` directly.
- `GameHook.active` is not modelled as a field of its own. In the source, `GameHook.active` reads `Hookable.active` until it is assigned; `GameHook.active = false` then creates a static of GameHook's own that stops only game buses. The model gives both classes one shared `ActiveFlag`, so switching it stops both kinds of bus.
