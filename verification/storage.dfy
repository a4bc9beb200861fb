/** `PluginStorage` (src/disnake/ext/plugins/plugin.py): the per-plugin
    containers that decorators fill and that loading walks, and `update`,
    which merges a sub-plugin's containers into its plugin's. */
module Storage {
  import opened Common
  import opened Entities
  import opened OrderedMaps

  /** Every command is stored under its own (qualified) name. */
  ghost predicate Keyed(m: OrderedMap<Command>) {
    forall k :: k in m.values ==> m.values[k].name == k
  }

  /** The contents of a storage at one moment. */
  datatype StoreValue = StoreValue(
    commands: OrderedMap<Command>,
    slashCommands: OrderedMap<Command>,
    userCommands: OrderedMap<Command>,
    messageCommands: OrderedMap<Command>,
    commandChecks: seq<Check>,
    slashCommandChecks: seq<Check>,
    messageCommandChecks: seq<Check>,
    userCommandChecks: seq<Check>,
    loops: seq<Loop>,
    listeners: OrderedMap<seq<Callback>>)
  {
    ghost predicate Valid() {
      && commands.Valid() && slashCommands.Valid() && userCommands.Valid() && messageCommands.Valid()
      && Keyed(commands) && Keyed(slashCommands) && Keyed(userCommands) && Keyed(messageCommands)
      && listeners.Valid()
    }

    function CommandsOf(kind: CommandKind): OrderedMap<Command> {
      match kind
      case Prefix => commands
      case Slash => slashCommands
      case User => userCommands
      case Message => messageCommands
    }

    function ChecksOf(kind: CommandKind): seq<Check> {
      match kind
      case Prefix => commandChecks
      case Slash => slashCommandChecks
      case User => userCommandChecks
      case Message => messageCommandChecks
    }

    /** This storage with the command table of one kind replaced. */
    function WithCommands(kind: CommandKind, m: OrderedMap<Command>): (r: StoreValue)
      ensures r.CommandsOf(kind) == m
      ensures forall other :: other != kind ==> r.CommandsOf(other) == CommandsOf(other)
      ensures forall other :: r.ChecksOf(other) == ChecksOf(other)
      ensures r.loops == loops && r.listeners == listeners
    {
      match kind
      case Prefix => this.(commands := m)
      case Slash => this.(slashCommands := m)
      case User => this.(userCommands := m)
      case Message => this.(messageCommands := m)
    }

    /** This storage with the check list of one kind replaced. */
    function WithChecks(kind: CommandKind, cs: seq<Check>): (r: StoreValue)
      ensures r.ChecksOf(kind) == cs
      ensures forall other :: other != kind ==> r.ChecksOf(other) == ChecksOf(other)
      ensures forall other :: r.CommandsOf(other) == CommandsOf(other)
      ensures r.loops == loops && r.listeners == listeners
    {
      match kind
      case Prefix => this.(commandChecks := cs)
      case Slash => this.(slashCommandChecks := cs)
      case User => this.(userCommandChecks := cs)
      case Message => this.(messageCommandChecks := cs)
    }

    /** What `update(other)` leaves: the command tables updated dict-wise,
        the check and loop lists extended, and each event's listener list
        extended with other's (a new event appended at the end). */
    function Merge(other: StoreValue): StoreValue
      requires other.Valid()
    {
      StoreValue(
        commands.Update(other.commands),
        slashCommands.Update(other.slashCommands),
        userCommands.Update(other.userCommands),
        messageCommands.Update(other.messageCommands),
        commandChecks + other.commandChecks,
        slashCommandChecks + other.slashCommandChecks,
        messageCommandChecks + other.messageCommandChecks,
        userCommandChecks + other.userCommandChecks,
        loops + other.loops,
        PutEach(listeners, other.listeners.keys, other.listeners.values, Concat, |other.listeners.keys|))
    }
  }

  function EmptyStore(): (r: StoreValue)
    ensures r.Valid()
  {
    StoreValue(Empty(), Empty(), Empty(), Empty(), [], [], [], [], [], Empty())
  }

  lemma UpdateKeyed(a: OrderedMap<Command>, b: OrderedMap<Command>)
    requires a.Valid() && b.Valid() && Keyed(a) && Keyed(b)
    ensures a.Update(b).Valid() && Keyed(a.Update(b))
    ensures forall k :: a.Update(b).Get(k) == if k in b.values then b.Get(k) else a.Get(k)
  {
    UpdateSpec(a, b);
    forall k | k in a.Update(b).values ensures a.Update(b).values[k].name == k {
      assert a.Update(b).Get(k) == Some(a.Update(b).values[k]);
    }
  }

  /** Merging keeps the storage well formed. */
  lemma MergeValid(a: StoreValue, b: StoreValue)
    requires a.Valid() && b.Valid()
    ensures a.Merge(b).Valid()
  {
    UpdateKeyed(a.commands, b.commands);
    UpdateKeyed(a.slashCommands, b.slashCommands);
    UpdateKeyed(a.userCommands, b.userCommands);
    UpdateKeyed(a.messageCommands, b.messageCommands);
    ConcatEachSpec(a.listeners, b.listeners);
  }

  /** A command of either side is found after merging, the merged-in side
      winning on a name clash. */
  lemma MergeCommands(a: StoreValue, b: StoreValue, kind: CommandKind)
    requires a.Valid() && b.Valid()
    ensures forall k :: a.Merge(b).CommandsOf(kind).Get(k) ==
              if k in b.CommandsOf(kind).values then b.CommandsOf(kind).Get(k) else a.CommandsOf(kind).Get(k)
  {
    UpdateKeyed(a.CommandsOf(kind), b.CommandsOf(kind));
    assert a.Merge(b).CommandsOf(kind) == a.CommandsOf(kind).Update(b.CommandsOf(kind)) by {
      match kind
      case Prefix =>
      case Slash =>
      case User =>
      case Message =>
    }
  }

  /** Check and loop lists are concatenated in order, and every event has
      its own listeners followed by the merged-in ones. */
  lemma MergeLists(a: StoreValue, b: StoreValue)
    requires a.Valid() && b.Valid()
    ensures forall kind :: a.Merge(b).ChecksOf(kind) == a.ChecksOf(kind) + b.ChecksOf(kind)
    ensures a.Merge(b).loops == a.loops + b.loops
    ensures forall event :: a.Merge(b).listeners.GetOr(event, []) == a.listeners.GetOr(event, []) + b.listeners.GetOr(event, [])
  {
    ConcatEachSpec(a.listeners, b.listeners);
  }

  /** The storage object a plugin owns. */
  class PluginStorage {
    var commands: OrderedMap<Command>
    var slashCommands: OrderedMap<Command>
    var userCommands: OrderedMap<Command>
    var messageCommands: OrderedMap<Command>
    var commandChecks: seq<Check>
    var slashCommandChecks: seq<Check>
    var messageCommandChecks: seq<Check>
    var userCommandChecks: seq<Check>
    var loops: seq<Loop>
    var listeners: OrderedMap<seq<Callback>>

    function Value(): StoreValue
      reads this
    {
      StoreValue(commands, slashCommands, userCommands, messageCommands,
                 commandChecks, slashCommandChecks, messageCommandChecks, userCommandChecks,
                 loops, listeners)
    }

    ghost predicate Valid()
      reads this
    {
      Value().Valid()
    }

    constructor ()
      ensures Value() == EmptyStore() && Valid()
    {
      commands, slashCommands, userCommands, messageCommands := Empty(), Empty(), Empty(), Empty();
      commandChecks, slashCommandChecks, messageCommandChecks, userCommandChecks := [], [], [], [];
      loops, listeners := [], Empty();
    }

    /** Assigns one table wholesale. */
    method SetCommands(kind: CommandKind, m: OrderedMap<Command>)
      modifies this
      ensures Value() == old(Value()).WithCommands(kind, m)
    {
      match kind
      case Prefix => commands := m;
      case Slash => slashCommands := m;
      case User => userCommands := m;
      case Message => messageCommands := m;
    }

    /** `storage.<kind>_commands[command.qualified_name] = command` */
    method Store(kind: CommandKind, c: Command)
      requires Valid()
      modifies this
      ensures Valid()
      ensures Value() == old(Value()).WithCommands(kind, old(Value()).CommandsOf(kind).Put(c.name, c))
    {
      var m := Value().CommandsOf(kind).Put(c.name, c);
      SetCommands(kind, m);
      assert Keyed(m) by {
        forall k | k in m.values ensures m.values[k].name == k {
          assert m.Get(k) == Some(m.values[k]);
          if k != c.name {
            assert old(Value()).CommandsOf(kind).Get(k) == Some(m.values[k]);
          }
        }
      }
    }

    /** `storage.<kind>_command_checks.append(predicate)` */
    method AppendCheck(kind: CommandKind, check: Check)
      modifies this
      ensures Value() == old(Value()).WithChecks(kind, old(Value()).ChecksOf(kind) + [check])
    {
      match kind
      case Prefix => commandChecks := commandChecks + [check];
      case Slash => slashCommandChecks := slashCommandChecks + [check];
      case User => userCommandChecks := userCommandChecks + [check];
      case Message => messageCommandChecks := messageCommandChecks + [check];
    }

    /** `storage.listeners.setdefault(key, []).append(callback)` */
    method AppendListener(key: string, callback: Callback)
      modifies this
      ensures Value() == old(Value()).(listeners := old(listeners).Put(key, old(listeners).GetOr(key, []) + [callback]))
    {
      listeners := listeners.Put(key, listeners.GetOr(key, []) + [callback]);
    }

    /** `storage.loops.append(loop)` */
    method AppendLoop(loop: Loop)
      modifies this
      ensures Value() == old(Value()).(loops := old(loops) + [loop])
    {
      loops := loops + [loop];
    }

    /** `PluginStorage.update(other)`. Everything is read from other as it
        was on entry, so merging a storage into itself doubles its lists as
        the source's `extend` does. */
    method Update(other: PluginStorage)
      requires Valid() && other.Valid()
      modifies this
      ensures Value() == old(Value()).Merge(old(other.Value()))
      ensures Valid()
    {
      var src := other.Value();
      var merged := Value().Merge(src);
      assert merged.Valid() by {
        MergeValid(Value(), src);
      }
      var events := ExtendListeners(listeners, src.listeners);
      SetValue(merged.(listeners := events));
    }

    /** Assigns every field at once. */
    method SetValue(v: StoreValue)
      modifies this
      ensures Value() == v
    {
      commands, slashCommands, userCommands, messageCommands :=
        v.commands, v.slashCommands, v.userCommands, v.messageCommands;
      commandChecks, slashCommandChecks, messageCommandChecks, userCommandChecks :=
        v.commandChecks, v.slashCommandChecks, v.messageCommandChecks, v.userCommandChecks;
      loops, listeners := v.loops, v.listeners;
    }
  }

  /** The loop of `update` over other's listeners: an event this storage
      lacks gets other's list, an event it has gets that list appended. */
  method ExtendListeners(mine: OrderedMap<seq<Callback>>, theirs: OrderedMap<seq<Callback>>)
    returns (merged: OrderedMap<seq<Callback>>)
    requires theirs.Valid()
    ensures merged == PutEach(mine, theirs.keys, theirs.values, Concat, |theirs.keys|)
  {
    var events := theirs.keys;
    merged := mine;
    var i := 0;
    while i < |events|
      invariant 0 <= i <= |events|
      invariant merged == PutEach(mine, events, theirs.values, Concat, i)
    {
      var event := events[i];
      var callbacks := theirs.values[event];
      ghost var next := merged.Put(event, Concat(merged.Get(event), callbacks));
      assert next == PutEach(mine, events, theirs.values, Concat, i + 1);
      if event !in merged.values {
        assert Concat(merged.Get(event), callbacks) == [] + callbacks == callbacks;
        merged := merged.Put(event, callbacks);
      } else {
        assert Concat(merged.Get(event), callbacks) == merged.values[event] + callbacks;
        merged := merged.Put(event, merged.values[event] + callbacks);
      }
      i := i + 1;
    }
  }
}
