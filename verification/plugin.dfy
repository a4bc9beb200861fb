/** `Plugin` and `SubPlugin` (src/disnake/ext/plugins/plugin.py): the
    lifecycle hooks, loading onto and unloading from a bot, sub-plugin
    registration and binding. Loading and unloading are proved against the
    functions of module Loading. */
module Plugins {
  import opened Common
  import opened Entities
  import opened OrderedMaps
  import opened Attributes
  import opened Storage
  import opened Host
  import opened Loading
  import opened PluginBases

  /** `Plugin.register_loop` as written: it attaches the `before_loop`
      callback to the loop and then appends to `self._loops`, which no
      plugin has. It never registers the loop, raising TypeError when the
      loop already waits and AttributeError otherwise, and in the second
      case leaves the loop changed. */
  function PluginRegisterLoopAsWritten(waitUntilReady: bool, loop: Loop): (r: (Loop, Outcome))
    ensures r.1.Fail?
    ensures r.1 == Fail(TypeError) <==> AttachWaitUntilReady(waitUntilReady, loop).Err?
    ensures r.1 == Fail(AttributeError) <==> AttachWaitUntilReady(waitUntilReady, loop).Ok?
    ensures AttachWaitUntilReady(waitUntilReady, loop).Ok? ==> r.0 == AttachWaitUntilReady(waitUntilReady, loop).value
    ensures AttachWaitUntilReady(waitUntilReady, loop).Err? ==> r.0 == loop
  {
    if waitUntilReady && loop.beforeLoop.Some? then (loop, Fail(TypeError))
    else
      var attached := if waitUntilReady then loop.(beforeLoop := Some(WaitUntilReady)) else loop;
      (attached, Fail(AttributeError))
  }

  /** A loop without `before_loop`, registered to wait until ready: the
      source raises AttributeError and leaves the loop with a `before_loop`,
      so trying again raises TypeError; the intended method registers it. */
  lemma PluginRegisterLoopCounterexample(coro: Callback)
    ensures var loop := Loop(coro, None);
            var (after, outcome) := PluginRegisterLoopAsWritten(true, loop);
            && outcome == Fail(AttributeError)
            && PluginRegisterLoopAsWritten(true, after).1 == Fail(TypeError)
            && AttachWaitUntilReady(true, loop) == Ok(Loop(coro, Some(WaitUntilReady)))
  {
  }

  /** Add one kind's commands to the bot in table order, each followed by
      prepending the kind's plugin-wide checks to it; returns the table with
      the checks prepended. */
  method AddCommands(kind: CommandKind, m: OrderedMap<Command>, checks: seq<Check>, bot: Bot)
    returns (table: OrderedMap<Command>)
    requires m.Valid()
    modifies bot
    ensures table == PrependAll(m, checks)
    ensures bot.trace == old(bot.trace) + AddCalls(kind, m, |m.keys|)
  {
    table := m;
    var i := 0;
    while i < |m.keys|
      invariant 0 <= i <= |m.keys|
      invariant table == PrependFirst(m, checks, i)
      invariant bot.trace == old(bot.trace) + AddCalls(kind, m, i)
    {
      var command := m.values[m.keys[i]];
      bot.Record(CommandCall(Register, kind, command.name));
      table := table.Put(m.keys[i], PrependPluginChecks(checks, command));
      i := i + 1;
    }
  }

  /** One kind's share of `load`: its commands added to the bot and its
      table replaced by the one with the checks prepended. */
  method AddKind(storage: PluginStorage, kind: CommandKind, bot: Bot)
    requires storage.Value().CommandsOf(kind).Valid()
    modifies storage, bot
    ensures storage.Value() == PrependKind(old(storage.Value()), kind)
    ensures bot.trace == old(bot.trace) +
              AddCalls(kind, old(storage.Value()).CommandsOf(kind), |old(storage.Value()).CommandsOf(kind).keys|)
  {
    var s := storage.Value();
    var table := AddCommands(kind, s.CommandsOf(kind), s.ChecksOf(kind), bot);
    storage.SetCommands(kind, table);
  }

  /** The command part of `load`: every kind's commands added in turn,
      prefix commands only on a bot that supports them. */
  method AddAllCommands(storage: PluginStorage, bot: Bot)
    requires storage.Valid()
    modifies storage, bot
    ensures old(storage.Value()).Valid()
    ensures storage.Value() == Loaded(old(storage.Value()), bot.isBotBase)
    ensures bot.trace == old(bot.trace) + CommandAdds(old(storage.Value()), bot.isBotBase)
  {
    ghost var s := storage.Value();
    ghost var t0 := bot.trace;
    LoadedSteps(s, bot.isBotBase);
    if bot.isBotBase {
      AddKind(storage, Prefix, bot);
    }
    ghost var p := if bot.isBotBase then AddCalls(Prefix, s.commands, |s.commands.keys|) else [];
    assert bot.trace == t0 + p;
    assert storage.Value().slashCommands == s.slashCommands;
    AddKind(storage, Slash, bot);
    ghost var a := AddCalls(Slash, s.slashCommands, |s.slashCommands.keys|);
    assert bot.trace == t0 + p + a;
    assert storage.Value().userCommands == s.userCommands;
    AddKind(storage, User, bot);
    ghost var b := AddCalls(User, s.userCommands, |s.userCommands.keys|);
    assert bot.trace == t0 + p + a + b;
    assert storage.Value().messageCommands == s.messageCommands;
    AddKind(storage, Message, bot);
    ghost var c := AddCalls(Message, s.messageCommands, |s.messageCommands.keys|);
    assert bot.trace == t0 + p + a + b + c;
    assert CommandAdds(s, bot.isBotBase) == p + a + b + c;
    Regroup(t0, p, a, b, c);
  }

  /** The command part of `unload`. */
  method RemoveAllCommands(s: StoreValue, bot: Bot)
    requires s.Valid()
    modifies bot
    ensures bot.trace == old(bot.trace) + CommandRemovals(s, bot.isBotBase)
  {
    ghost var t1 := bot.trace;
    ghost var calls: seq<HostEvent> := [];
    if bot.isBotBase {
      RemoveCommands(s.commands.keys, Prefix, bot);
      calls := RemoveCalls(Prefix, s.commands.keys, |s.commands.keys|);
    }
    RemoveCommands(s.slashCommands.keys, Slash, bot);
    calls := calls + RemoveCalls(Slash, s.slashCommands.keys, |s.slashCommands.keys|);
    RemoveCommands(s.userCommands.keys, User, bot);
    calls := calls + RemoveCalls(User, s.userCommands.keys, |s.userCommands.keys|);
    RemoveCommands(s.messageCommands.keys, Message, bot);
    calls := calls + RemoveCalls(Message, s.messageCommands.keys, |s.messageCommands.keys|);
    assert bot.trace == t1 + calls;
  }

  /** Remove one kind's commands from the bot by the names they are stored
      under. */
  method RemoveCommands(names: seq<string>, kind: CommandKind, bot: Bot)
    modifies bot
    ensures bot.trace == old(bot.trace) + RemoveCalls(kind, names, |names|)
  {
    var i := 0;
    while i < |names|
      invariant 0 <= i <= |names|
      invariant bot.trace == old(bot.trace) + RemoveCalls(kind, names, i)
    {
      bot.Record(CommandCall(Unregister, kind, names[i]));
      i := i + 1;
    }
  }

  /** Add or remove every listener, event by event, in list order. */
  method CallListeners(dir: Direction, listeners: OrderedMap<seq<Callback>>, bot: Bot)
    requires listeners.Valid()
    modifies bot
    ensures bot.trace == old(bot.trace) + ListenerCalls(dir, listeners, |listeners.keys|)
  {
    var i := 0;
    while i < |listeners.keys|
      invariant 0 <= i <= |listeners.keys|
      invariant bot.trace == old(bot.trace) + ListenerCalls(dir, listeners, i)
    {
      var event := listeners.keys[i];
      CallEvent(dir, event, listeners.values[event], bot);
      i := i + 1;
    }
  }

  /** Add or remove the listeners of one event, in list order. */
  method CallEvent(dir: Direction, event: string, callbacks: seq<Callback>, bot: Bot)
    modifies bot
    ensures bot.trace == old(bot.trace) + EventCalls(dir, event, callbacks)
  {
    var j := 0;
    while j < |callbacks|
      invariant 0 <= j <= |callbacks|
      invariant bot.trace == old(bot.trace) + EventCalls(dir, event, callbacks[..j])
    {
      assert callbacks[..j + 1][..j] == callbacks[..j];
      bot.Record(ListenerCall(dir, callbacks[j], event));
      j := j + 1;
    }
    assert callbacks[..j] == callbacks;
  }

  /** Start or cancel every loop, in order. */
  method CallLoops(dir: Direction, loops: seq<Loop>, bot: Bot)
    modifies bot
    ensures bot.trace == old(bot.trace) + LoopCalls(dir, loops)
  {
    var i := 0;
    while i < |loops|
      invariant 0 <= i <= |loops|
      invariant bot.trace == old(bot.trace) + LoopCalls(dir, loops[..i])
    {
      assert loops[..i + 1][..i] == loops[..i];
      bot.Record(LoopCall(dir, loops[i]));
      i := i + 1;
    }
    assert loops[..i] == loops;
  }

  /** The registering middle of `load`: commands, then listeners, then
      loops. */
  method RegisterAll(storage: PluginStorage, bot: Bot)
    requires storage.Valid()
    modifies storage, bot
    ensures storage.Valid()
    ensures storage.Value() == Loaded(old(storage.Value()), bot.isBotBase)
    ensures bot.trace == old(bot.trace) + RegisterCalls(old(storage.Value()), bot.isBotBase)
  {
    var s := storage.Value();
    ghost var t := bot.trace;
    AddAllCommands(storage, bot);
    ghost var c := CommandAdds(s, bot.isBotBase);
    CallListeners(Register, s.listeners, bot);
    ghost var l := ListenerCalls(Register, s.listeners, |s.listeners.keys|);
    CallLoops(Register, s.loops, bot);
    ghost var o := LoopCalls(Register, s.loops);
    Regroup3(t, c, l, o);
    assert storage.Valid() by {
      LoadedValid(s, bot.isBotBase);
    }
  }

  /** The unregistering middle of `unload`. */
  method UnregisterAll(s: StoreValue, bot: Bot)
    requires s.Valid()
    modifies bot
    ensures bot.trace == old(bot.trace) + UnregisterCalls(s, bot.isBotBase)
  {
    ghost var t := bot.trace;
    RemoveAllCommands(s, bot);
    CallListeners(Unregister, s.listeners, bot);
    CallLoops(Unregister, s.loops, bot);
    Regroup3(t, CommandRemovals(s, bot.isBotBase), ListenerCalls(Unregister, s.listeners, |s.listeners.keys|),
             LoopCalls(Unregister, s.loops));
  }

  class Plugin {
    const base: PluginBase
    var preLoadHooks: seq<Callback>
    var postLoadHooks: seq<Callback>
    var preUnloadHooks: seq<Callback>
    var postUnloadHooks: seq<Callback>
    var boundBot: Option<Bot>
    var subPlugins: set<SubPlugin>

    ghost predicate Valid()
      reads this, base, base.storage
    {
      base.Valid()
    }

    constructor (name: string, extras: map<string, Value>, bundles: AttrBundles)
      ensures Valid() && fresh(base) && fresh(base.storage) && fresh(base.metadata)
      ensures base.metadata.name == name && base.metadata.extras == extras && base.metadata.Bundles() == bundles
      ensures base.storage.Value() == EmptyStore()
      ensures preLoadHooks == [] && postLoadHooks == [] && preUnloadHooks == [] && postUnloadHooks == []
      ensures boundBot == None && subPlugins == {}
    {
      base := new PluginBase(name, extras, bundles);
      preLoadHooks, postLoadHooks, preUnloadHooks, postUnloadHooks := [], [], [], [];
      boundBot := None;
      subPlugins := {};
    }

    /** `Plugin.bot`: the bot the plugin was loaded on, or RuntimeError
        before the first load. */
    function CurrentBot(): (r: Result<Bot>)
      reads this
      ensures r.Ok? <==> boundBot.Some?
      ensures r.Ok? ==> r.value == boundBot.value
      ensures r.Err? ==> r.error == RuntimeError
    {
      if boundBot.Some? then Ok(boundBot.value) else Err(RuntimeError)
    }

    /** `register_sub_plugin(sub_plugin)`: remembers the sub-plugin, merges
        its storage into this plugin's, then binds it. Binding a sub-plugin
        that already has a plugin raises RuntimeError after the merge. */
    method RegisterSubPlugin(sub: SubPlugin) returns (o: Outcome)
      requires Valid() && sub.Valid()
      modifies this, base.storage, sub
      ensures Valid()
      ensures subPlugins == old(subPlugins) + {sub}
      ensures base.storage.Value() == old(base.storage.Value()).Merge(old(sub.base.storage.Value()))
      ensures o == (if old(sub.parent).Some? then Fail(RuntimeError) else Pass)
      ensures sub.parent == (if old(sub.parent).Some? then old(sub.parent) else Some(this))
      ensures preLoadHooks == old(preLoadHooks) && postLoadHooks == old(postLoadHooks)
      ensures preUnloadHooks == old(preUnloadHooks) && postUnloadHooks == old(postUnloadHooks)
      ensures boundBot == old(boundBot)
    {
      subPlugins := subPlugins + {sub};
      base.storage.Update(sub.base.storage);
      o := sub.Bind(this);
    }

    /** `register_loop` as intended: the registration of PluginBase. */
    method RegisterLoop(waitUntilReady: bool, loop: Loop) returns (r: Result<Loop>)
      requires Valid()
      modifies base.storage
      ensures Valid()
      ensures r == AttachWaitUntilReady(waitUntilReady, loop)
      ensures r.Ok? ==> base.storage.Value() == old(base.storage.Value()).(loops := old(base.storage.loops) + [r.value])
      ensures r.Err? ==> base.storage.Value() == old(base.storage.Value())
    {
      r := base.RegisterLoop(waitUntilReady, loop);
    }

    /** `load_hook(post=post)(callback)` */
    method LoadHook(post: bool, callback: Callback) returns (r: Callback)
      modifies this
      ensures r == callback
      ensures postLoadHooks == (if post then old(postLoadHooks) + [callback] else old(postLoadHooks))
      ensures preLoadHooks == (if post then old(preLoadHooks) else old(preLoadHooks) + [callback])
      ensures preUnloadHooks == old(preUnloadHooks) && postUnloadHooks == old(postUnloadHooks)
      ensures boundBot == old(boundBot) && subPlugins == old(subPlugins)
    {
      if post {
        postLoadHooks := postLoadHooks + [callback];
      } else {
        preLoadHooks := preLoadHooks + [callback];
      }
      r := callback;
    }

    /** `unload_hook(post=post)(callback)` */
    method UnloadHook(post: bool, callback: Callback) returns (r: Callback)
      modifies this
      ensures r == callback
      ensures postUnloadHooks == (if post then old(postUnloadHooks) + [callback] else old(postUnloadHooks))
      ensures preUnloadHooks == (if post then old(preUnloadHooks) else old(preUnloadHooks) + [callback])
      ensures preLoadHooks == old(preLoadHooks) && postLoadHooks == old(postLoadHooks)
      ensures boundBot == old(boundBot) && subPlugins == old(subPlugins)
    {
      if post {
        postUnloadHooks := postUnloadHooks + [callback];
      } else {
        preUnloadHooks := preUnloadHooks + [callback];
      }
      r := callback;
    }

    /** `load(bot)`: binds the bot, runs the pre-load hooks, adds every
        command (prefix commands only on a bot that supports them) with the
        plugin-wide checks prepended, adds every listener, starts every
        loop, runs the post-load hooks and schedules a command sync. */
    method Load(bot: Bot)
      requires Valid()
      modifies this, bot, base.storage
      ensures Valid()
      ensures boundBot == Some(bot)
      ensures base.storage.Value() == Loaded(old(base.storage.Value()), bot.isBotBase)
      ensures bot.trace == old(bot.trace) + LoadEvents(old(base.storage.Value()), bot.isBotBase, preLoadHooks, postLoadHooks)
      ensures preLoadHooks == old(preLoadHooks) && postLoadHooks == old(postLoadHooks)
      ensures preUnloadHooks == old(preUnloadHooks) && postUnloadHooks == old(postUnloadHooks)
      ensures subPlugins == old(subPlugins)
    {
      ghost var s := base.storage.Value();
      ghost var t0 := bot.trace;
      boundBot := Some(bot);
      bot.Record(RunHooks(PreLoad, multiset(preLoadHooks)));
      RegisterAll(base.storage, bot);
      bot.Record(RunHooks(PostLoad, multiset(postLoadHooks)));
      bot.Record(DelayedSync);
      Bracketed(t0, RunHooks(PreLoad, multiset(preLoadHooks)), RegisterCalls(s, bot.isBotBase),
                RunHooks(PostLoad, multiset(postLoadHooks)), DelayedSync);
    }

    /** `unload(bot)`: runs the pre-unload hooks, removes every command by
        name (prefix commands only on a bot that supports them), removes
        every listener, cancels every loop, runs the post-unload hooks and
        schedules a command sync. The plugin stays bound to its bot and its
        storage is left as it is. */
    method Unload(bot: Bot)
      requires Valid()
      modifies bot
      ensures bot.trace == old(bot.trace) + UnloadEvents(base.storage.Value(), bot.isBotBase, preUnloadHooks, postUnloadHooks)
    {
      var s := base.storage.Value();
      ghost var t0 := bot.trace;
      bot.Record(RunHooks(PreUnload, multiset(preUnloadHooks)));
      UnregisterAll(s, bot);
      bot.Record(RunHooks(PostUnload, multiset(postUnloadHooks)));
      bot.Record(DelayedSync);
      Bracketed(t0, RunHooks(PreUnload, multiset(preUnloadHooks)), UnregisterCalls(s, bot.isBotBase),
                RunHooks(PostUnload, multiset(postUnloadHooks)), DelayedSync);
    }
  }

  /** Helper: sequence bookkeeping that regroups a trace. */
  lemma Regroup(t: seq<HostEvent>, p: seq<HostEvent>, a: seq<HostEvent>, b: seq<HostEvent>, c: seq<HostEvent>)
    ensures t + p + a + b + c == t + (p + a + b + c)
  {
    assert t + p + a == t + (p + a);
    assert t + p + a + b == t + (p + a + b);
  }

  /** Helper: sequence bookkeeping that regroups a trace. */
  lemma Regroup3(t: seq<HostEvent>, c: seq<HostEvent>, l: seq<HostEvent>, o: seq<HostEvent>)
    ensures t + c + l + o == t + (c + l + o)
  {
    assert t + c + l == t + (c + l);
  }

  /** Helper: sequence bookkeeping for a trace between two hook stages. */
  lemma Bracketed(t: seq<HostEvent>, first: HostEvent, calls: seq<HostEvent>, penultimate: HostEvent, last: HostEvent)
    ensures t + [first] + calls + [penultimate] + [last] == t + ([first] + calls + [penultimate, last])
  {
  }

  class SubPlugin {
    const base: PluginBase
    var parent: Option<Plugin>

    ghost predicate Valid()
      reads this, base, base.storage
    {
      base.Valid()
    }

    constructor (name: string, extras: map<string, Value>, bundles: AttrBundles)
      ensures Valid() && fresh(base) && fresh(base.storage) && fresh(base.metadata)
      ensures base.metadata.name == name && base.metadata.extras == extras && base.metadata.Bundles() == bundles
      ensures base.storage.Value() == EmptyStore()
      ensures parent == None
    {
      base := new PluginBase(name, extras, bundles);
      parent := None;
    }

    /** `bind(plugin)`: a sub-plugin belongs to one plugin; binding it again
        raises RuntimeError and keeps the first. */
    method Bind(plugin: Plugin) returns (o: Outcome)
      modifies this
      ensures old(parent).Some? ==> o == Fail(RuntimeError) && parent == old(parent)
      ensures old(parent).None? ==> o == Pass && parent == Some(plugin)
      ensures o == Pass ==> PluginOf() == Ok(plugin)
    {
      if parent.Some? {
        o := Fail(RuntimeError);
      } else {
        parent := Some(plugin);
        o := Pass;
      }
    }

    /** `SubPlugin.plugin`: the plugin it is bound to, or RuntimeError. */
    function PluginOf(): (r: Result<Plugin>)
      reads this
      ensures r.Ok? <==> parent.Some?
      ensures r.Ok? ==> r.value == parent.value
      ensures r.Err? ==> r.error == RuntimeError
    {
      if parent.Some? then Ok(parent.value) else Err(RuntimeError)
    }

    /** `SubPlugin.bot`: its plugin's bot; RuntimeError when it is unbound
        or its plugin was never loaded. */
    function CurrentBot(): (r: Result<Bot>)
      reads this, if parent.Some? then {parent.value} else {}
      ensures r.Ok? <==> parent.Some? && parent.value.boundBot.Some?
      ensures r.Ok? ==> r.value == parent.value.boundBot.value
      ensures r.Err? ==> r.error == RuntimeError
    {
      if parent.Some? then parent.value.CurrentBot() else Err(RuntimeError)
    }
  }

  /** Unloading with the same kind of bot undoes exactly what the load
      registered: the command, listener and loop calls of `unload` after a
      `load` are those of the load, in the same order, each reversed. */
  lemma LoadUnloadRoundTrip(s: StoreValue, isBotBase: bool, loadPre: seq<Callback>, loadPost: seq<Callback>,
                            unloadPre: seq<Callback>, unloadPost: seq<Callback>)
    requires s.Valid()
    ensures Loaded(s, isBotBase).Valid()
    ensures var loaded := LoadEvents(s, isBotBase, loadPre, loadPost);
            var unloaded := UnloadEvents(Loaded(s, isBotBase), isBotBase, unloadPre, unloadPost);
            unloaded[1..|unloaded| - 2] == FlipAll(loaded[1..|loaded| - 2])
  {
    UnloadMirrorsLoad(s, isBotBase);
    var loaded := LoadEvents(s, isBotBase, loadPre, loadPost);
    var unloaded := UnloadEvents(Loaded(s, isBotBase), isBotBase, unloadPre, unloadPost);
    assert loaded[1..|loaded| - 2] == RegisterCalls(s, isBotBase);
    assert unloaded[1..|unloaded| - 2] == UnregisterCalls(Loaded(s, isBotBase), isBotBase);
  }
}
