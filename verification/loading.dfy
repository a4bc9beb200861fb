/** What `Plugin.load` and `Plugin.unload` (src/disnake/ext/plugins/plugin.py)
    do to a storage and which calls they make on the bot, as functions of
    the storage's contents. The methods in module Plugins are proved
    against these. */
module Loading {
  import opened Common
  import opened Entities
  import opened OrderedMaps
  import opened Storage
  import opened Host

  /** `_prepend_plugin_checks`: plugin-wide checks go before the command's
      own. The source skips the assignment for an empty list, which leaves
      the same command. */
  function PrependPluginChecks(checks: seq<Check>, c: Command): (r: Command)
    ensures r == c.(checks := checks + c.checks)
  {
    if checks != [] then c.(checks := checks + c.checks) else c
  }

  function Prepender(checks: seq<Check>): (Option<Command>, Command) -> Command {
    (previous: Option<Command>, c: Command) => PrependPluginChecks(checks, c)
  }

  /** The table after the plugin-wide checks were prepended to its first n
      commands, in table order. */
  function PrependFirst(m: OrderedMap<Command>, checks: seq<Check>, n: nat): OrderedMap<Command>
    requires m.Valid() && n <= |m.keys|
  {
    PutEach(m, m.keys, m.values, Prepender(checks), n)
  }

  function PrependAll(m: OrderedMap<Command>, checks: seq<Check>): OrderedMap<Command>
    requires m.Valid()
  {
    PrependFirst(m, checks, |m.keys|)
  }

  lemma NoNewKeys<V>(m: OrderedMap<V>, n: nat)
    requires m.Valid() && n <= |m.keys|
    ensures NewKeys(m.values, m.keys, n) == []
  {
    var ks := NewKeys(m.values, m.keys, n);
    if ks != [] {
      NewKeysMembership(m.values, m.keys, n, ks[0]);
      assert false;
    }
  }

  /** Prepending checks keeps the table well formed, with its keys in
      their order. */
  lemma PrependAllValid(m: OrderedMap<Command>, checks: seq<Check>)
    requires m.Valid() && Keyed(m)
    ensures PrependAll(m, checks).Valid() && Keyed(PrependAll(m, checks))
    ensures PrependAll(m, checks).keys == m.keys
  {
    var r := PrependAll(m, checks);
    PutEachValid(m, m.keys, m.values, Prepender(checks), |m.keys|);
    PutEachKeys(m, m.keys, m.values, Prepender(checks), |m.keys|);
    NoNewKeys(m, |m.keys|);
    forall k | k in r.values ensures r.values[k].name == k {
      PrependAllGet(m, checks);
      assert r.Get(k) == Some(r.values[k]);
    }
  }

  /** Prepending changes each command only by putting the plugin-wide checks
      in front of its own. */
  lemma PrependAllGet(m: OrderedMap<Command>, checks: seq<Check>)
    requires m.Valid()
    ensures forall k :: PrependAll(m, checks).Get(k) ==
              if k in m.values then Some(m.values[k].(checks := checks + m.values[k].checks)) else None
  {
    var r := PrependAll(m, checks);
    assert m.keys[..|m.keys|] == m.keys;
    forall k ensures r.Get(k) == if k in m.values then Some(m.values[k].(checks := checks + m.values[k].checks)) else None {
      PutEachGet(m, m.keys, m.values, Prepender(checks), |m.keys|, k);
    }
  }

  /** The storage after `load`: every table whose commands were added to the
      bot has the plugin-wide checks of its kind prepended. Prefix commands
      are only added when the bot supports them. */
  function Loaded(s: StoreValue, isBotBase: bool): StoreValue
    requires s.Valid()
  {
    s.(commands := if isBotBase then PrependAll(s.commands, s.commandChecks) else s.commands,
       slashCommands := PrependAll(s.slashCommands, s.slashCommandChecks),
       userCommands := PrependAll(s.userCommands, s.userCommandChecks),
       messageCommands := PrependAll(s.messageCommands, s.messageCommandChecks))
  }

  lemma LoadedTable(s: StoreValue, isBotBase: bool, kind: CommandKind)
    requires s.Valid()
    ensures Loaded(s, isBotBase).CommandsOf(kind) ==
            if kind == Prefix && !isBotBase then s.CommandsOf(kind) else PrependAll(s.CommandsOf(kind), s.ChecksOf(kind))
    ensures forall other :: Loaded(s, isBotBase).ChecksOf(other) == s.ChecksOf(other)
    ensures Loaded(s, isBotBase).loops == s.loops && Loaded(s, isBotBase).listeners == s.listeners
  {
  }

  /** One step of `load` on the storage: the table of one kind gets its
      plugin-wide checks prepended. */
  function PrependKind(s: StoreValue, kind: CommandKind): StoreValue
    requires s.CommandsOf(kind).Valid()
  {
    s.WithCommands(kind, PrependAll(s.CommandsOf(kind), s.ChecksOf(kind)))
  }

  /** Loading is those steps kind by kind, in the order `load` takes them. */
  lemma LoadedSteps(s: StoreValue, isBotBase: bool)
    requires s.Valid()
    ensures var s1 := if isBotBase then PrependKind(s, Prefix) else s;
            var s2 := PrependKind(s1, Slash);
            var s3 := PrependKind(s2, User);
            Loaded(s, isBotBase) == PrependKind(s3, Message)
  {
  }

  lemma LoadedValid(s: StoreValue, isBotBase: bool)
    requires s.Valid()
    ensures Loaded(s, isBotBase).Valid()
  {
    PrependAllValid(s.commands, s.commandChecks);
    PrependAllValid(s.slashCommands, s.slashCommandChecks);
    PrependAllValid(s.userCommands, s.userCommandChecks);
    PrependAllValid(s.messageCommands, s.messageCommandChecks);
  }

  /** Loading keeps the storage well formed and every table's keys; a
      command of a loaded kind carries its kind's plugin-wide checks in
      front of its own, and nothing else changes. */
  lemma LoadedSpec(s: StoreValue, isBotBase: bool, kind: CommandKind)
    requires s.Valid()
    ensures Loaded(s, isBotBase).Valid()
    ensures Loaded(s, isBotBase).CommandsOf(kind).keys == s.CommandsOf(kind).keys
    ensures forall k :: Loaded(s, isBotBase).CommandsOf(kind).Get(k) ==
              if kind == Prefix && !isBotBase then s.CommandsOf(kind).Get(k)
              else if k in s.CommandsOf(kind).values
              then Some(s.CommandsOf(kind).values[k].(checks := s.ChecksOf(kind) + s.CommandsOf(kind).values[k].checks))
              else None
    ensures forall other :: Loaded(s, isBotBase).ChecksOf(other) == s.ChecksOf(other)
    ensures Loaded(s, isBotBase).loops == s.loops && Loaded(s, isBotBase).listeners == s.listeners
  {
    LoadedValid(s, isBotBase);
    LoadedTable(s, isBotBase, kind);
    PrependAllValid(s.CommandsOf(kind), s.ChecksOf(kind));
    PrependAllGet(s.CommandsOf(kind), s.ChecksOf(kind));
  }

  /** Loading twice without a fresh plugin (unload does not take the checks
      off again) puts the plugin-wide checks in front twice. */
  lemma ReloadPrependsTwice(s: StoreValue, isBotBase: bool, kind: CommandKind, k: string)
    requires s.Valid() && k in s.CommandsOf(kind).values
    requires kind != Prefix || isBotBase
    ensures Loaded(s, isBotBase).Valid()
    ensures Loaded(Loaded(s, isBotBase), isBotBase).CommandsOf(kind).Get(k) ==
            Some(s.CommandsOf(kind).values[k].(checks := s.ChecksOf(kind) + s.ChecksOf(kind) + s.CommandsOf(kind).values[k].checks))
  {
    var once := Loaded(s, isBotBase);
    var m := s.CommandsOf(kind);
    var checks := s.ChecksOf(kind);
    LoadedValid(s, isBotBase);
    assert once.CommandsOf(kind) == PrependAll(m, checks) && once.ChecksOf(kind) == checks by {
      LoadedTable(s, isBotBase, kind);
    }
    assert Loaded(once, isBotBase).CommandsOf(kind) == PrependAll(PrependAll(m, checks), checks) by {
      LoadedTable(once, isBotBase, kind);
    }
    PrependTwice(m, checks, k);
  }

  /** Prepending the same checks twice puts them in front twice. */
  lemma PrependTwice(m: OrderedMap<Command>, checks: seq<Check>, k: string)
    requires m.Valid() && Keyed(m) && k in m.values
    ensures PrependAll(m, checks).Valid()
    ensures PrependAll(PrependAll(m, checks), checks).Get(k) ==
            Some(m.values[k].(checks := checks + checks + m.values[k].checks))
  {
    var c := m.values[k];
    var once := PrependAll(m, checks);
    PrependAllValid(m, checks);
    assert once.Get(k) == Some(c.(checks := checks + c.checks)) by {
      PrependAllGet(m, checks);
    }
    assert PrependAll(once, checks).Get(k) == Some(c.(checks := checks + (checks + c.checks))) by {
      PrependAllGet(once, checks);
    }
    assert checks + (checks + c.checks) == checks + checks + c.checks;
  }

  /** `bot.add_<kind>_command(command)` for the first n commands of a table,
      in table order. */
  function AddCalls(kind: CommandKind, m: OrderedMap<Command>, n: nat): seq<HostEvent>
    requires m.Valid() && n <= |m.keys|
  {
    if n == 0 then [] else AddCalls(kind, m, n - 1) + [CommandCall(Register, kind, m.values[m.keys[n - 1]].name)]
  }

  /** `bot.remove_<kind>_command(name)` for the first n names. */
  function RemoveCalls(kind: CommandKind, names: seq<string>, n: nat): seq<HostEvent>
    requires n <= |names|
  {
    if n == 0 then [] else RemoveCalls(kind, names, n - 1) + [CommandCall(Unregister, kind, names[n - 1])]
  }

  /** The listener calls for one event, in list order. */
  function EventCalls(dir: Direction, event: string, callbacks: seq<Callback>): seq<HostEvent> {
    if callbacks == [] then []
    else EventCalls(dir, event, callbacks[..|callbacks| - 1]) + [ListenerCall(dir, callbacks[|callbacks| - 1], event)]
  }

  /** The listener calls for the first n events, in table order. */
  function ListenerCalls(dir: Direction, m: OrderedMap<seq<Callback>>, n: nat): seq<HostEvent>
    requires m.Valid() && n <= |m.keys|
  {
    if n == 0 then [] else ListenerCalls(dir, m, n - 1) + EventCalls(dir, m.keys[n - 1], m.values[m.keys[n - 1]])
  }

  function LoopCalls(dir: Direction, loops: seq<Loop>): seq<HostEvent> {
    if loops == [] then [] else LoopCalls(dir, loops[..|loops| - 1]) + [LoopCall(dir, loops[|loops| - 1])]
  }

  /** The commands `load` adds, kind by kind. */
  function CommandAdds(s: StoreValue, isBotBase: bool): seq<HostEvent>
    requires s.Valid()
  {
    (if isBotBase then AddCalls(Prefix, s.commands, |s.commands.keys|) else [])
    + AddCalls(Slash, s.slashCommands, |s.slashCommands.keys|)
    + AddCalls(User, s.userCommands, |s.userCommands.keys|)
    + AddCalls(Message, s.messageCommands, |s.messageCommands.keys|)
  }

  /** The commands `unload` removes, kind by kind. */
  function CommandRemovals(s: StoreValue, isBotBase: bool): seq<HostEvent>
    requires s.Valid()
  {
    (if isBotBase then RemoveCalls(Prefix, s.commands.keys, |s.commands.keys|) else [])
    + RemoveCalls(Slash, s.slashCommands.keys, |s.slashCommands.keys|)
    + RemoveCalls(User, s.userCommands.keys, |s.userCommands.keys|)
    + RemoveCalls(Message, s.messageCommands.keys, |s.messageCommands.keys|)
  }

  /** Everything `load` registers, in the order it registers it. */
  function RegisterCalls(s: StoreValue, isBotBase: bool): seq<HostEvent>
    requires s.Valid()
  {
    CommandAdds(s, isBotBase) + ListenerCalls(Register, s.listeners, |s.listeners.keys|) + LoopCalls(Register, s.loops)
  }

  /** Everything `unload` unregisters, in the order it unregisters it. */
  function UnregisterCalls(s: StoreValue, isBotBase: bool): seq<HostEvent>
    requires s.Valid()
  {
    CommandRemovals(s, isBotBase) + ListenerCalls(Unregister, s.listeners, |s.listeners.keys|) + LoopCalls(Unregister, s.loops)
  }

  function LoadEvents(s: StoreValue, isBotBase: bool, pre: seq<Callback>, post: seq<Callback>): seq<HostEvent>
    requires s.Valid()
  {
    [RunHooks(PreLoad, multiset(pre))] + RegisterCalls(s, isBotBase) + [RunHooks(PostLoad, multiset(post)), DelayedSync]
  }

  function UnloadEvents(s: StoreValue, isBotBase: bool, pre: seq<Callback>, post: seq<Callback>): seq<HostEvent>
    requires s.Valid()
  {
    [RunHooks(PreUnload, multiset(pre))] + UnregisterCalls(s, isBotBase) + [RunHooks(PostUnload, multiset(post)), DelayedSync]
  }

  lemma {:induction false} AddCallsMirror(kind: CommandKind, m: OrderedMap<Command>, n: nat)
    requires m.Valid() && Keyed(m) && n <= |m.keys|
    ensures FlipAll(AddCalls(kind, m, n)) == RemoveCalls(kind, m.keys, n)
  {
    if n > 0 {
      AddCallsMirror(kind, m, n - 1);
      FlipAllConcat(AddCalls(kind, m, n - 1), [CommandCall(Register, kind, m.values[m.keys[n - 1]].name)]);
    }
  }

  lemma {:induction false} EventCallsMirror(event: string, callbacks: seq<Callback>)
    ensures FlipAll(EventCalls(Register, event, callbacks)) == EventCalls(Unregister, event, callbacks)
    decreases |callbacks|
  {
    if callbacks != [] {
      var last := callbacks[|callbacks| - 1];
      EventCallsMirror(event, callbacks[..|callbacks| - 1]);
      FlipAllConcat(EventCalls(Register, event, callbacks[..|callbacks| - 1]), [ListenerCall(Register, last, event)]);
    }
  }

  lemma {:induction false} ListenerCallsMirror(m: OrderedMap<seq<Callback>>, n: nat)
    requires m.Valid() && n <= |m.keys|
    ensures FlipAll(ListenerCalls(Register, m, n)) == ListenerCalls(Unregister, m, n)
  {
    if n > 0 {
      var event := m.keys[n - 1];
      ListenerCallsMirror(m, n - 1);
      EventCallsMirror(event, m.values[event]);
      FlipAllConcat(ListenerCalls(Register, m, n - 1), EventCalls(Register, event, m.values[event]));
    }
  }

  lemma {:induction false} LoopCallsMirror(loops: seq<Loop>)
    ensures FlipAll(LoopCalls(Register, loops)) == LoopCalls(Unregister, loops)
    decreases |loops|
  {
    if loops != [] {
      LoopCallsMirror(loops[..|loops| - 1]);
      FlipAllConcat(LoopCalls(Register, loops[..|loops| - 1]), [LoopCall(Register, loops[|loops| - 1])]);
    }
  }

  /** Unloading a loaded plugin with the same kind of bot removes exactly
      what loading added, in the same order: every command by the name it
      was registered under, every listener for the event it was registered
      for, and every loop that was started is cancelled. */
  lemma UnloadMirrorsLoad(s: StoreValue, isBotBase: bool)
    requires s.Valid()
    ensures Loaded(s, isBotBase).Valid()
    ensures UnregisterCalls(Loaded(s, isBotBase), isBotBase) == FlipAll(RegisterCalls(s, isBotBase))
  {
    var t := Loaded(s, isBotBase);
    LoadedValid(s, isBotBase);
    CommandsMirror(s, isBotBase);
    ListenerCallsMirror(s.listeners, |s.listeners.keys|);
    LoopCallsMirror(s.loops);
    var c := CommandAdds(s, isBotBase);
    var l := ListenerCalls(Register, s.listeners, |s.listeners.keys|);
    var o := LoopCalls(Register, s.loops);
    FlipAllConcat(c + l, o);
    FlipAllConcat(c, l);
  }

  lemma CommandsMirror(s: StoreValue, isBotBase: bool)
    requires s.Valid()
    ensures Loaded(s, isBotBase).Valid()
    ensures CommandRemovals(Loaded(s, isBotBase), isBotBase) == FlipAll(CommandAdds(s, isBotBase))
  {
    LoadedValid(s, isBotBase);
    LoadedKeys(s, isBotBase);
    AddCallsMirror(Prefix, s.commands, |s.commands.keys|);
    AddCallsMirror(Slash, s.slashCommands, |s.slashCommands.keys|);
    AddCallsMirror(User, s.userCommands, |s.userCommands.keys|);
    AddCallsMirror(Message, s.messageCommands, |s.messageCommands.keys|);
    var p := if isBotBase then AddCalls(Prefix, s.commands, |s.commands.keys|) else [];
    var a := AddCalls(Slash, s.slashCommands, |s.slashCommands.keys|);
    var b := AddCalls(User, s.userCommands, |s.userCommands.keys|);
    var c := AddCalls(Message, s.messageCommands, |s.messageCommands.keys|);
    FlipAllConcat(p + a + b, c);
    FlipAllConcat(p + a, b);
    FlipAllConcat(p, a);
  }

  lemma LoadedKeys(s: StoreValue, isBotBase: bool)
    requires s.Valid()
    ensures Loaded(s, isBotBase).commands.keys == s.commands.keys
    ensures Loaded(s, isBotBase).slashCommands.keys == s.slashCommands.keys
    ensures Loaded(s, isBotBase).userCommands.keys == s.userCommands.keys
    ensures Loaded(s, isBotBase).messageCommands.keys == s.messageCommands.keys
  {
    PrependAllValid(s.commands, s.commandChecks);
    PrependAllValid(s.slashCommands, s.slashCommandChecks);
    PrependAllValid(s.userCommands, s.userCommandChecks);
    PrependAllValid(s.messageCommands, s.messageCommandChecks);
  }
}
