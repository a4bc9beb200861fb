/** Plugin metadata and the pure half of entity creation in
    src/disnake/ext/plugins/plugin.py: the three-tier attribute merge, the
    choice of per-kind defaults, the construction of a command record, and
    the `extras["plugin"]` back-reference that `get_parent_plugin` reads. */
module Attributes {
  import opened Common
  import opened Entities

  /** The four per-kind default bundles of a plugin's metadata. */
  datatype AttrBundles = AttrBundles(command: map<string, Value>, slash: map<string, Value>,
                                     message: map<string, Value>, user: map<string, Value>)

  /** PluginMetadata: a mutable record (a dataclass in the source). */
  class PluginMetadata {
    var name: string
    var extras: map<string, Value>
    var commandAttrs: map<string, Value>
    var slashCommandAttrs: map<string, Value>
    var messageCommandAttrs: map<string, Value>
    var userCommandAttrs: map<string, Value>

    constructor (name: string, extras: map<string, Value>, bundles: AttrBundles)
      ensures this.name == name && this.extras == extras && Bundles() == bundles
    {
      this.name := name;
      this.extras := extras;
      commandAttrs := bundles.command;
      slashCommandAttrs := bundles.slash;
      messageCommandAttrs := bundles.message;
      userCommandAttrs := bundles.user;
    }

    function Bundles(): AttrBundles
      reads this
    {
      AttrBundles(commandAttrs, slashCommandAttrs, messageCommandAttrs, userCommandAttrs)
    }
  }

  /** The bundle each kind's decorator is meant to start from, as the
      metadata documents it: message commands use `message_command_attrs`. */
  function DefaultsFor(kind: CommandKind, b: AttrBundles): (r: map<string, Value>)
    ensures kind == Message ==> r == b.message
    ensures kind == User ==> r == b.user
  {
    match kind
    case Prefix => b.command
    case Slash => b.slash
    case User => b.user
    case Message => b.message
  }

  /** The bundle each decorator actually starts from in the source:
      `message_command` passes `user_command_attrs`. */
  function DefaultsAsWritten(kind: CommandKind, b: AttrBundles): (r: map<string, Value>)
    ensures kind == Message ==> r == DefaultsFor(User, b)
    ensures kind != Message ==> r == DefaultsFor(kind, b)
  {
    match kind
    case Prefix => b.command
    case Slash => b.slash
    case User => b.user
    case Message => b.user
  }

  /** The two selections agree on every kind but message commands, and
      differ there exactly when the user and message bundles differ. */
  lemma DefaultsAsWrittenDiffer(kind: CommandKind, b: AttrBundles)
    ensures kind != Message ==> DefaultsAsWritten(kind, b) == DefaultsFor(kind, b)
    ensures kind == Message ==> (DefaultsAsWritten(kind, b) == DefaultsFor(kind, b) <==> b.user == b.message)
  {
  }

  /** A per-call keyword argument counts only when it is not None. */
  predicate Supplied(kwargs: map<string, Value>, k: string) {
    k in kwargs && kwargs[k] != NoneValue
  }

  /** The `extras` value that the merge finds before adding its own keys:
      the per-call one when supplied, else the plugin default, if any. */
  function SuppliedExtras(attrs: map<string, Value>, kwargs: map<string, Value>): Option<Value> {
    if Supplied(kwargs, "extras") then Some(kwargs["extras"])
    else if "extras" in attrs then Some(attrs["extras"])
    else None
  }

  /** `dict.setdefault(k, v)` as a value: an existing entry wins. */
  function SetDefault(m: map<string, Value>, k: string, v: Value): (r: map<string, Value>)
    ensures k in r && r[k] == (if k in m then m[k] else v)
    ensures forall k' :: k' != k ==> (k' in r <==> k' in m)
    ensures forall k' :: k' in m ==> k' in r && r[k'] == m[k']
  {
    if k in m then m else m[k := v]
  }

  /** `PluginBase._apply_attrs`: the plugin defaults overlaid with every
      per-call value that is not None (False, 0 and empty containers do
      override), plus an `extras` dict holding "plugin" and "metadata"
      unless those keys are already there. An `extras` that is not a dict
      makes `setdefault` fail. */
  function ApplyAttrs(attrs: map<string, Value>, kwargs: map<string, Value>,
                      plugin: Value, metadata: Value): (r: Result<map<string, Value>>)
    ensures r.Err? <==> SuppliedExtras(attrs, kwargs).Some? && !SuppliedExtras(attrs, kwargs).value.Dict?
    ensures r.Err? ==> r.error == AttributeError
    ensures r.Ok? ==> forall k :: k != "extras" ==> (k in r.value <==> k in attrs || Supplied(kwargs, k))
    ensures r.Ok? ==> forall k :: k != "extras" && Supplied(kwargs, k) ==> k in r.value && r.value[k] == kwargs[k]
    ensures r.Ok? ==> forall k :: k != "extras" && !Supplied(kwargs, k) && k in attrs ==>
                        k in r.value && r.value[k] == attrs[k]
    ensures r.Ok? ==> "extras" in r.value && r.value["extras"].Dict?
    ensures r.Ok? ==>
              var prior := if SuppliedExtras(attrs, kwargs).Some? then SuppliedExtras(attrs, kwargs).value.entries else map[];
              var e := r.value["extras"].entries;
              && "plugin" in e && e["plugin"] == (if "plugin" in prior then prior["plugin"] else plugin)
              && "metadata" in e && e["metadata"] == (if "metadata" in prior then prior["metadata"] else metadata)
              && (forall k :: k in prior ==> k in e && e[k] == prior[k])
              && (forall k :: k in e ==> k in prior || k == "plugin" || k == "metadata")
  {
    var merged := attrs + map k | k in kwargs && kwargs[k] != NoneValue :: kwargs[k];
    var extras := if "extras" in merged then merged["extras"] else Dict(map[]);
    match extras
    case Dict(e) => Ok(merged["extras" := Dict(SetDefault(SetDefault(e, "plugin", plugin), "metadata", metadata))])
    case _ => Err(AttributeError)
  }

  /** `name or callback.__name__` */
  function ResolveName(name: Option<string>, callback: Callback): string {
    if name.Some? && name.value != "" then name.value else callback.name
  }

  function DefaultClass(kind: CommandKind): Value {
    match kind
    case Prefix => Class("Command")
    case Slash => Class("InvokableSlashCommand")
    case User => Class("InvokableUserCommand")
    case Message => Class("InvokableMessageCommand")
  }

  /** Without an explicit class, `attributes.pop("cls", fallback)`; with one,
      the attributes stay as they are. */
  function ChooseClass(cls: Option<Value>, attrs: map<string, Value>, fallback: Value): (r: (Value, map<string, Value>))
    ensures cls.Some? ==> r == (cls.value, attrs)
    ensures cls.None? ==> r.0 == (if "cls" in attrs then attrs["cls"] else fallback)
    ensures cls.None? ==> "cls" !in r.1 && forall k :: k != "cls" ==> (k in r.1 <==> k in attrs)
    ensures forall k :: k in r.1 ==> k in attrs && r.1[k] == attrs[k]
  {
    if cls.Some? then (cls.value, attrs)
    else (if "cls" in attrs then attrs["cls"] else fallback, attrs - {"cls"})
  }

  /** What a command-kind decorator builds: the merged attributes first
      (the factory call), then the coroutine check, then the entity named
      by the explicit name or else the callback's `__name__`, carrying the
      checks already attached to the callback and no children. */
  function BuildCommand(defaults: map<string, Value>, name: Option<string>, cls: Option<Value>, fallback: Value,
                        kwargs: map<string, Value>, callback: Callback, plugin: Value, metadata: Value): (r: Result<Command>)
    ensures ApplyAttrs(defaults, kwargs, plugin, metadata).Err? ==> r == Err(AttributeError)
    ensures ApplyAttrs(defaults, kwargs, plugin, metadata).Ok? && !callback.isCoroutine ==> r == Err(TypeError)
    ensures r.Ok? <==> ApplyAttrs(defaults, kwargs, plugin, metadata).Ok? && callback.isCoroutine
    ensures r.Ok? ==>
              && r.value.name == ResolveName(name, callback)
              && r.value.callback == callback
              && r.value.checks == callback.checks
              && r.value.children == map[]
              && (r.value.cls, r.value.attrs) == ChooseClass(cls, ApplyAttrs(defaults, kwargs, plugin, metadata).value, fallback)
  {
    var attrs :- ApplyAttrs(defaults, kwargs, plugin, metadata);
    var (c, rest) := ChooseClass(cls, attrs, fallback);
    if !callback.isCoroutine then Err(TypeError)
    else Ok(Command(ResolveName(name, callback), c, callback, rest, callback.checks, map[]))
  }

  /** The `extras` of a built entity (disnake stores the `extras` keyword
      on the command). */
  function ExtrasOf(c: Command): map<string, Value> {
    if "extras" in c.attrs && c.attrs["extras"].Dict? then c.attrs["extras"].entries else map[]
  }

  /** `get_parent_plugin`: the truthy `extras["plugin"]`, else LookupError. */
  function GetParentPlugin(extras: map<string, Value>): (r: Result<Value>)
    ensures r.Ok? <==> "plugin" in extras && Truthy(extras["plugin"])
    ensures r.Ok? ==> r.value == extras["plugin"]
    ensures r.Err? ==> r.error == LookupError
  {
    if "plugin" in extras && Truthy(extras["plugin"]) then Ok(extras["plugin"]) else Err(LookupError)
  }

  /** Every entity a plugin builds knows its plugin: unless the caller put a
      "plugin" entry in `extras` themselves, `get_parent_plugin` on the
      result returns the plugin that built it. */
  lemma BuiltCommandBelongsToPlugin(defaults: map<string, Value>, name: Option<string>, cls: Option<Value>,
                                    fallback: Value, kwargs: map<string, Value>, callback: Callback,
                                    plugin: object, metadata: Value)
    requires BuildCommand(defaults, name, cls, fallback, kwargs, callback, Obj(plugin), metadata).Ok?
    requires SuppliedExtras(defaults, kwargs).Some? ==> "plugin" !in SuppliedExtras(defaults, kwargs).value.entries
    ensures GetParentPlugin(ExtrasOf(BuildCommand(defaults, name, cls, fallback, kwargs, callback, Obj(plugin), metadata).value))
            == Ok(Obj(plugin))
  {
    var attrs := ApplyAttrs(defaults, kwargs, Obj(plugin), metadata).value;
    var c := BuildCommand(defaults, name, cls, fallback, kwargs, callback, Obj(plugin), metadata).value;
    assert "extras" in c.attrs && c.attrs["extras"] == attrs["extras"];
  }

  /** The documented scenario: a slash command decorated without arguments
      takes `guild_ids` from the plugin's slash bundle; one decorated with
      its own `guild_ids` keeps its own. */
  lemma GuildIdsScenario(plugin: Value, metadata: Value)
    ensures var b := map["guild_ids" := List([Int(1234)])];
            var r := ApplyAttrs(b, map["guild_ids" := NoneValue, "extras" := NoneValue], plugin, metadata);
            r.Ok? && r.value["guild_ids"] == List([Int(1234)])
    ensures var b := map["guild_ids" := List([Int(1234)])];
            var r := ApplyAttrs(b, map["guild_ids" := List([Int(5678)]), "extras" := NoneValue], plugin, metadata);
            r.Ok? && r.value["guild_ids"] == List([Int(5678)])
  {
  }

  /** The message-command defect on a concrete plugin: with
      `message_command_attrs = {"guild_ids": [1]}` and no user bundle, the
      source's message command gets no `guild_ids`; the intended one does. */
  lemma MessageDefaultsCounterexample(plugin: Value, metadata: Value)
    ensures var b := AttrBundles(map[], map[], map["guild_ids" := List([Int(1)])], map[]);
            var written := ApplyAttrs(DefaultsAsWritten(Message, b), map[], plugin, metadata);
            var intended := ApplyAttrs(DefaultsFor(Message, b), map[], plugin, metadata);
            && written.Ok? && "guild_ids" !in written.value
            && intended.Ok? && "guild_ids" in intended.value && intended.value["guild_ids"] == List([Int(1)])
  {
    var b := AttrBundles(map[], map[], map["guild_ids" := List([Int(1)])], map[]);
    var written := ApplyAttrs(DefaultsAsWritten(Message, b), map[], plugin, metadata);
    assert written.Ok? && "guild_ids" !in written.value by {
      assert DefaultsAsWritten(Message, b) == map[];
      assert !Supplied(map[], "guild_ids");
    }
    var intended := ApplyAttrs(DefaultsFor(Message, b), map[], plugin, metadata);
    assert intended.Ok? && intended.value["guild_ids"] == List([Int(1)]) by {
      assert "guild_ids" in DefaultsFor(Message, b);
      assert !Supplied(map[], "guild_ids");
    }
  }
}
