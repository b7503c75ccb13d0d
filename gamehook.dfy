/**
 * `GameHook`: the event bus of the game, the same machine as `Hookable` with
 * its own class-level registry.  Its `global` override points the inherited
 * code at that registry, its `is_active` reads `GameHook.active`, and its
 * `to` builds a GameHook; so a game bus is a `Hookable` whose table is the
 * GameHook table.  The class-level switch `GameHook.active` reads is the one
 * `Hookable` declares, inherited while GameHook assigns none of its own.
 */
module GameHook {
  import opened Common
  import opened Buckets
  import opened Hookable

  /** `createGameHooks()`: a fresh, active game bus on the "global" namespace with an empty context. */
  method CreateGameHooks(registry: HookTable, global: ActiveFlag) returns (hooks: Hookable)
    ensures fresh(hooks)
    ensures hooks.namespace == "global" && hooks.context == Record(map[])
    ensures hooks.table == registry && hooks.global == global && hooks.active
  {
    hooks := new Hookable("global", registry, global);
  }

  /**
   * A handler listened on the game bus is run by a game bus and never by a
   * plain `Hookable` bus on the same namespace and event, because the two
   * classes keep separate registries.
   */
  method SeparateRegistries(h: HandlerId, interp: Interp)
    returns (plainResult: Value, plainCalls: seq<Call>, gameResult: Value, gameCalls: seq<Call>)
    ensures plainCalls == [] && plainResult == Undefined
    ensures gameCalls == [Call(h, Record(map[]), [])] && gameResult == interp(Call(h, Record(map[]), []))
  {
    var global := new ActiveFlag();
    var plainTable := new HookTable();
    var gameTable := new HookTable();
    var game := CreateGameHooks(gameTable, global);
    var _ := game.Listen("tick", h);
    var plain := new Hookable("global", plainTable, global);
    plainResult, plainCalls := plain.Trigger("tick", [], interp);
    LoneHandler(10, h);
    assert EventLevels(gameTable.events, "global", "tick") == Enlist([], 10, h);
    gameResult, gameCalls := game.Trigger("tick", [], interp);
  }

  /** After `clear()` a trigger on any game bus runs nothing and returns `undefined`. */
  method TriggerAfterClear(hooks: Hookable, event: string, args: seq<Value>, interp: Interp)
    returns (r: Value, calls: seq<Call>)
    modifies hooks.table
    ensures calls == [] && r == Undefined
  {
    hooks.table.Clear();
    r, calls := hooks.Trigger(event, args, interp);
  }
}
