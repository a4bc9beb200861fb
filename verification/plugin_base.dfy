/** `PluginBase` (src/disnake/ext/plugins/plugin.py): the registration
    surface shared by plugins and sub-plugins. Each decorator factory and the
    decorator it returns are modelled as one call that receives the
    decorated callable. */
module PluginBases {
  import opened Common
  import opened Entities
  import opened OrderedMaps
  import opened Attributes
  import opened Storage

  /** The `_before_loop` coroutine that `register_loop(wait_until_ready=True)`
      attaches; it awaits `bot.wait_until_ready()`. */
  const WaitUntilReady: Callback := Callback("_before_loop", true, [], [])

  /** The loop as `register_loop` leaves it, or the TypeError it raises when
      asked to wait on a loop that already has a `before_loop`. */
  function AttachWaitUntilReady(waitUntilReady: bool, loop: Loop): (r: Result<Loop>)
    ensures r.Ok? <==> !waitUntilReady || loop.beforeLoop.None?
    ensures r.Err? ==> r.error == TypeError
    ensures r.Ok? ==> r.value.coro == loop.coro
    ensures r.Ok? && waitUntilReady ==> r.value.beforeLoop == Some(WaitUntilReady)
    ensures r.Ok? && !waitUntilReady ==> r.value == loop
  {
    if !waitUntilReady then Ok(loop)
    else if loop.beforeLoop.Some? then Err(TypeError)
    else Ok(loop.(beforeLoop := Some(WaitUntilReady)))
  }

  /** The event a listener is filed under: the explicit event, or else the
      callback's `__name__`. */
  function ListenerKey(callback: Callback, event: Option<string>): string {
    if event.Some? then event.value else callback.name
  }

  /** The listener table after `setdefault(key, []).append(callback)` for
      each callback in order. */
  function AddAll(m: OrderedMap<seq<Callback>>, callbacks: seq<Callback>, event: Option<string>): OrderedMap<seq<Callback>> {
    if callbacks == [] then m
    else
      var previous := AddAll(m, callbacks[..|callbacks| - 1], event);
      var cb := callbacks[|callbacks| - 1];
      var key := ListenerKey(cb, event);
      previous.Put(key, previous.GetOr(key, []) + [cb])
  }

  /** The callbacks among `callbacks` that are filed under `key`, in order. */
  function Routed(callbacks: seq<Callback>, event: Option<string>, key: string): seq<Callback> {
    if callbacks == [] then []
    else
      var cb := callbacks[|callbacks| - 1];
      Routed(callbacks[..|callbacks| - 1], event, key) + (if ListenerKey(cb, event) == key then [cb] else [])
  }

  /** `add_listeners` keeps the table well formed and extends each event's
      list with exactly the callbacks filed under that event, in the order
      they were passed; other events keep their lists. */
  lemma {:induction false} AddAllSpec(m: OrderedMap<seq<Callback>>, callbacks: seq<Callback>, event: Option<string>)
    requires m.Valid()
    ensures AddAll(m, callbacks, event).Valid()
    ensures forall key :: AddAll(m, callbacks, event).GetOr(key, []) == m.GetOr(key, []) + Routed(callbacks, event, key)
    decreases |callbacks|
  {
    if callbacks != [] {
      AddAllSpec(m, callbacks[..|callbacks| - 1], event);
    }
  }

  /** With an explicit event, every callback is filed under it, in order. */
  lemma {:induction false} RoutedToEvent(callbacks: seq<Callback>, event: string)
    ensures Routed(callbacks, Some(event), event) == callbacks
    ensures forall key :: key != event ==> Routed(callbacks, Some(event), key) == []
    decreases |callbacks|
  {
    if callbacks != [] {
      RoutedToEvent(callbacks[..|callbacks| - 1], event);
    }
  }

  /** The source's `group` decorator stores the group in `self._commands`,
      an attribute no plugin has: once the attributes are merged and the
      callback is found to be a coroutine, it raises AttributeError, so no
      group is ever registered. */
  function GroupAsWritten(defaults: map<string, Value>, name: Option<string>, cls: Option<Value>,
                          kwargs: map<string, Value>, callback: Callback, plugin: Value, metadata: Value): (r: Result<Command>)
    ensures r.Err?
    ensures BuildCommand(defaults, name, cls, Class("Group"), kwargs, callback, plugin, metadata).Ok? ==> r == Err(AttributeError)
    ensures BuildCommand(defaults, name, cls, Class("Group"), kwargs, callback, plugin, metadata).Err? ==>
              r == BuildCommand(defaults, name, cls, Class("Group"), kwargs, callback, plugin, metadata)
  {
    var group :- BuildCommand(defaults, name, cls, Class("Group"), kwargs, callback, plugin, metadata);
    Err(AttributeError)
  }

  /** A plain `@plugin.group()` on a coroutine: the source raises, the
      intended decorator builds the group (and PluginBase.Group stores it). */
  lemma GroupCounterexample(plugin: Value, metadata: Value)
    ensures var tag := Callback("tag", true, [], []);
            && GroupAsWritten(map[], None, None, map[], tag, plugin, metadata) == Err(AttributeError)
            && BuildCommand(map[], None, None, Class("Group"), map[], tag, plugin, metadata).Ok?
            && BuildCommand(map[], None, None, Class("Group"), map[], tag, plugin, metadata).value.name == "tag"
            && BuildCommand(map[], None, None, Class("Group"), map[], tag, plugin, metadata).value.cls == Class("Group")
  {
  }

  /** The state and registration methods shared by Plugin and SubPlugin.
      The object itself is the identity that built entities record as
      `extras["plugin"]`. */
  class PluginBase {
    const metadata: PluginMetadata
    const storage: PluginStorage

    ghost predicate Valid()
      reads this, storage
    {
      storage.Valid()
    }

    constructor (name: string, extras: map<string, Value>, bundles: AttrBundles)
      ensures Valid() && fresh(metadata) && fresh(storage)
      ensures metadata.name == name && metadata.extras == extras && metadata.Bundles() == bundles
      ensures storage.Value() == EmptyStore()
    {
      metadata := new PluginMetadata(name, extras, bundles);
      storage := new PluginStorage();
    }

    /** Build an entity and, when that succeeds, store it under its name in
        the table of its kind. A failure leaves the storage as it was. */
    method Register(kind: CommandKind, defaults: map<string, Value>, name: Option<string>, cls: Option<Value>,
                    fallback: Value, kwargs: map<string, Value>, callback: Callback) returns (r: Result<Command>)
      requires Valid()
      modifies storage
      ensures Valid()
      ensures r == BuildCommand(defaults, name, cls, fallback, kwargs, callback, Obj(this), Obj(metadata))
      ensures r.Ok? ==>
                storage.Value() == old(storage.Value()).WithCommands(kind, old(storage.Value()).CommandsOf(kind).Put(r.value.name, r.value))
      ensures r.Err? ==> storage.Value() == old(storage.Value())
    {
      r := BuildCommand(defaults, name, cls, fallback, kwargs, callback, Obj(this), Obj(metadata));
      if r.Ok? {
        storage.Store(kind, r.value);
      }
    }

    /** `command(name, cls=..., **kwargs)(callback)` */
    method Command(name: Option<string>, cls: Option<Value>, kwargs: map<string, Value>, callback: Callback)
      returns (r: Result<Command>)
      requires Valid()
      modifies storage
      ensures Valid()
      ensures r == BuildCommand(metadata.commandAttrs, name, cls, Class("Command"), kwargs, callback, Obj(this), Obj(metadata))
      ensures r.Ok? ==> storage.Value() == old(storage.Value()).(commands := old(storage.commands).Put(r.value.name, r.value))
      ensures r.Err? ==> storage.Value() == old(storage.Value())
    {
      r := Register(Prefix, metadata.commandAttrs, name, cls, Class("Command"), kwargs, callback);
    }

    /** `group(name, cls=..., **kwargs)(callback)` as intended: the group is
        stored with the prefix commands. */
    method Group(name: Option<string>, cls: Option<Value>, kwargs: map<string, Value>, callback: Callback)
      returns (r: Result<Command>)
      requires Valid()
      modifies storage
      ensures Valid()
      ensures r == BuildCommand(metadata.commandAttrs, name, cls, Class("Group"), kwargs, callback, Obj(this), Obj(metadata))
      ensures r.Ok? ==> storage.Value() == old(storage.Value()).(commands := old(storage.commands).Put(r.value.name, r.value))
      ensures r.Err? ==> storage.Value() == old(storage.Value())
    {
      r := Register(Prefix, metadata.commandAttrs, name, cls, Class("Group"), kwargs, callback);
    }

    /** `slash_command(...)`, `user_command(...)` and `message_command(...)`
        applied to a callback: the kind's fixed class and the kind's table.
        The attribute bundle is the intended one (`DefaultsFor`); for
        message commands this is `message_command_attrs`, where the source
        passes `user_command_attrs` (see `DefaultsAsWritten`). */
    method AppCommand(kind: CommandKind, name: Option<string>, kwargs: map<string, Value>, callback: Callback)
      returns (r: Result<Command>)
      requires kind != Prefix
      requires Valid()
      modifies storage
      ensures Valid()
      ensures r == BuildCommand(DefaultsFor(kind, metadata.Bundles()), name, Some(DefaultClass(kind)), DefaultClass(kind),
                                kwargs, callback, Obj(this), Obj(metadata))
      ensures r.Ok? ==>
                storage.Value() == old(storage.Value()).WithCommands(kind, old(storage.Value()).CommandsOf(kind).Put(r.value.name, r.value))
      ensures r.Err? ==> storage.Value() == old(storage.Value())
    {
      r := Register(kind, DefaultsFor(kind, metadata.Bundles()), name, Some(DefaultClass(kind)), DefaultClass(kind),
                    kwargs, callback);
    }

    /** `command_check`, `slash_command_check`, `user_command_check` and
        `message_command_check`: append to the kind's plugin-wide checks and
        hand the predicate back. */
    method AddCheck(kind: CommandKind, check: Check) returns (r: Check)
      requires Valid()
      modifies storage
      ensures Valid()
      ensures r == check
      ensures storage.Value() == old(storage.Value()).WithChecks(kind, old(storage.Value()).ChecksOf(kind) + [check])
    {
      storage.AppendCheck(kind, check);
      r := check;
    }

    /** `add_listeners(*callbacks, event=event)` */
    method AddListeners(callbacks: seq<Callback>, event: Option<string>)
      requires Valid()
      modifies storage
      ensures Valid()
      ensures storage.Value() == old(storage.Value()).(listeners := AddAll(old(storage.listeners), callbacks, event))
    {
      ghost var before := storage.Value();
      var i := 0;
      while i < |callbacks|
        invariant 0 <= i <= |callbacks|
        invariant storage.Value() == before.(listeners := AddAll(before.listeners, callbacks[..i], event))
      {
        var callback := callbacks[i];
        var key := if event.None? then callback.name else event.value;
        assert callbacks[..i + 1][..i] == callbacks[..i];
        storage.AppendListener(key, callback);
        i := i + 1;
      }
      assert callbacks[..i] == callbacks;
      AddAllSpec(before.listeners, callbacks, event);
    }

    /** `listener(event)(callback)`: files the one callback and returns it. */
    method Listener(event: Option<string>, callback: Callback) returns (r: Callback)
      requires Valid()
      modifies storage
      ensures Valid()
      ensures r == callback
      ensures storage.Value() == old(storage.Value()).(listeners := AddAll(old(storage.listeners), [callback], event))
    {
      AddListeners([callback], event);
      r := callback;
    }

    /** `register_loop(wait_until_ready=...)(loop)` */
    method RegisterLoop(waitUntilReady: bool, loop: Loop) returns (r: Result<Loop>)
      requires Valid()
      modifies storage
      ensures Valid()
      ensures r == AttachWaitUntilReady(waitUntilReady, loop)
      ensures r.Ok? ==> storage.Value() == old(storage.Value()).(loops := old(storage.loops) + [r.value])
      ensures r.Err? ==> storage.Value() == old(storage.Value())
    {
      r := AttachWaitUntilReady(waitUntilReady, loop);
      if r.Ok? {
        storage.AppendLoop(r.value);
      }
    }
  }
}
