# disnake-ext-plugins, modelled in Dafny

This project models the core of disnake-ext-plugins. The library lets a
disnake bot keep its commands, checks, listeners and loops in plugin objects
that are loaded onto a bot and unloaded from it as one unit. The model
covers these parts of the library:

- **Registration surface** (`PluginBase`). Decorators build prefix, slash,
  user and message commands from the plugin's attribute bundles and the
  per-call keyword arguments. `_apply_attrs` merges the two and stamps the
  plugin into `extras`. The built entities are filed into the plugin's
  storage, and check, listener and loop registration is modelled too.
- **Storage** (`PluginStorage`). It holds insertion-ordered command tables,
  check lists, loops and listener lists. `update` merges one storage into
  another.
- **Lifecycle** (`Plugin`, `SubPlugin`):
  - hooks;
  - `load`, which adds every command (prefix commands only on a bot that
    supports them) with the plugin-wide checks prepended, then the
    listeners and the loops;
  - `unload`;
  - sub-plugin registration and binding.
- **Lookups** by qualified name (`get_slash_command`, `get_command`).
- **Placeholders** (`SubCommandPlaceholder`, `SubCommandGroupPlaceholder`).
  These declare slash subcommands before their parent exists, queue
  autocompleters while unbound, and replay them when bound.
- **Shared context objects** (`GlobalContext`, `LocalContext`).

Python dicts are modelled by `OrderedMaps.OrderedMap`, a value holding the
keys in insertion order and the mapping. The bot is a `Host.Bot` whose only
state is the trace of calls the plugin makes on it. `load` and `unload` are
proved against functions (`Loading.Loaded`, `Loading.LoadEvents`,
`Loading.UnloadEvents`) that give the resulting storage and trace from the
storage's contents.

Modules:

- `common.dfy` (Common): Option, Result, errors, Python values and truthiness, callbacks
- `ordered_map.dfy` (OrderedMaps): insertion-ordered dict, `update`, key-by-key folds
- `entities.dfy` (Entities): commands, subcommands, groups, options, loops
- `words.dfy` (Words): `str.strip`, `str.split`, `str.partition(" ")`, `" ".join`
- `attributes.dfy` (Attributes): `PluginMetadata`, `_apply_attrs`, class choice, `get_parent_plugin`
- `storage.dfy` (Storage): `PluginStorage` and `update`
- `host.dfy` (Host): the bot as a call trace
- `loading.dfy` (Loading): what load/unload compute, mirror lemmas
- `plugin_base.dfy` (PluginBases): `PluginBase` registration
- `plugin.dfy` (Plugins): `Plugin`, `SubPlugin`, load/unload methods
- `lookup.dfy` (Lookup): `get_slash_command`, `get_command`
- `placeholder.dfy` (Placeholders): the placeholder classes and autocompleter replay
- `context.dfy` (Contexts): `GlobalContext`, `LocalContext`

## Model

| member | source | states |
|---|---|---|
| OrderedMaps.OrderedMap.Put | src/disnake/ext/plugins/plugin.py:313 | Assigning a key keeps the dict well formed. The key then maps to the new value and every other key is unchanged. An existing key keeps its position; a new key goes to the end. |
| OrderedMaps.UpdateSpec | src/disnake/ext/plugins/plugin.py:148-151 | `a.update(b)` keeps a's keys in place and appends b's new keys in b's order. Each key maps to b's value when b has it, otherwise to a's. |
| OrderedMaps.ConcatEachSpec | src/disnake/ext/plugins/plugin.py:160-164 | Merging listener tables gives every event a's list followed by b's. An event only b has is appended at the end. |
| Words.SplitStrip | src/disnake/ext/plugins/plugin.py:570 | Stripping before `split()` changes nothing. |
| Words.SplitJoin | src/disnake/ext/plugins/plugin.py:570 | Splitting a single-space join of words gives the words back. |
| Words.SplitAllSpace | src/disnake/ext/plugins/plugin.py:570-573 | `split()` is empty exactly for an all-whitespace text. |
| Attributes.PluginMetadata.constructor | src/disnake/ext/plugins/plugin.py:53-74 | The metadata record holds the name, the extras and the four attribute bundles it was given. |
| Attributes.DefaultsAsWrittenDiffer | src/disnake/ext/plugins/plugin.py:437-438 | The bundle the source passes agrees with the documented one for every kind except message commands. For message commands they agree exactly when the user and message bundles are equal. |
| Attributes.SetDefault | src/disnake/ext/plugins/plugin.py:286-288 | `setdefault` keeps an existing entry, adds a missing one and leaves every other key alone. |
| Attributes.ApplyAttrs | src/disnake/ext/plugins/plugin.py:278-290 | The merged attributes are the defaults overlaid with every non-None keyword (both directions of membership). `extras` always ends up a dict with "plugin" and "metadata" set unless already present, and the other entries are kept. A non-dict `extras` raises AttributeError, and only then. |
| Attributes.ChooseClass | src/disnake/ext/plugins/plugin.py:303-305 | With an explicit class the attributes are untouched. Without one, "cls" is popped, defaulting to the fallback class. |
| Attributes.BuildCommand | src/disnake/ext/plugins/plugin.py:300-315 | The merge happens first (AttributeError), then the coroutine check (TypeError). Otherwise the entity is named by the explicit name or `__name__`, with the chosen class and attributes, the callback's checks and no children. |
| Attributes.GetParentPlugin | src/disnake/ext/plugins/plugin.py:123-128 | Returns the truthy `extras["plugin"]`, else LookupError. |
| Attributes.DefaultsFor | src/disnake/ext/plugins/plugin.py:359-438 | The bundle a decorator starts from, as the metadata documents it (plugin.py:47-50). Message commands start from `message_command_attrs` and user commands from `user_command_attrs`. |
| Attributes.DefaultsAsWritten | src/disnake/ext/plugins/plugin.py:437-438 | The bundle the source actually uses. It is the documented one for every kind except message commands, which get the user-command bundle. |
| Attributes.BuiltCommandBelongsToPlugin | src/disnake/ext/plugins/plugin.py:286-288 | Unless the caller supplied its own "plugin" extra, `get_parent_plugin` on anything a plugin built returns the object stamped at build time. That object is the building `PluginBase` (`Obj(this)`). A `Plugin` or `SubPlugin` holds its `PluginBase` as the field `base`, which stands for the plugin object itself, since in Python `Plugin` is a subclass of `PluginBase`. |
| Attributes.GuildIdsScenario | src/disnake/ext/plugins/plugin.py:359-368 | A slash command takes `guild_ids` from the plugin bundle unless the call gives its own. |
| Attributes.MessageDefaultsCounterexample | src/disnake/ext/plugins/plugin.py:437-438 | A message bundle's `guild_ids` is lost as written and kept as intended. |
| Storage.PluginStorage.constructor | src/disnake/ext/plugins/plugin.py:131-144 | A new storage is empty and well formed. |
| Storage.PluginStorage.Store | src/disnake/ext/plugins/plugin.py:313 | Filing a command changes only its kind's table, where it is put under its name. The table stays keyed by command name. |
| Storage.PluginStorage.AppendCheck | src/disnake/ext/plugins/plugin.py:466-496 | A check is appended to its kind's list and nothing else changes. |
| Storage.PluginStorage.AppendListener | src/disnake/ext/plugins/plugin.py:508 | `setdefault(key, []).append(cb)` on the listener table, nothing else changes. |
| Storage.PluginStorage.AppendLoop | src/disnake/ext/plugins/plugin.py:540 | The loop is appended, nothing else changes. |
| Storage.PluginStorage.Update | src/disnake/ext/plugins/plugin.py:146-164 | The new storage is the merge of the old one with the other storage as it was on entry, and stays well formed. |
| Storage.ExtendListeners | src/disnake/ext/plugins/plugin.py:160-164 | The listener loop of `update` computes the key-by-key concatenation fold. |
| Storage.MergeValid | src/disnake/ext/plugins/plugin.py:146-164 | Merging keeps both storages' invariants: valid dicts, tables keyed by command name. |
| Storage.MergeCommands | src/disnake/ext/plugins/plugin.py:148-151 | After merging, a name finds the merged-in command when the other table has it, else the original one. |
| Storage.MergeLists | src/disnake/ext/plugins/plugin.py:153-164 | Check lists and loops are concatenated in order. Each event's listeners are its own followed by the merged-in ones. |
| Loading.PrependPluginChecks | src/disnake/ext/plugins/plugin.py:755-767 | The plugin-wide checks go in front of the command's own. Skipping the empty case gives the same command. |
| Loading.PrependAllGet | src/disnake/ext/plugins/plugin.py:782-796 | Prepending over a table changes each command only by its checks, in front of its own. |
| Loading.PrependAllValid | src/disnake/ext/plugins/plugin.py:782-796 | Prepending keeps the table valid, keyed, and its keys in order. |
| Loading.LoadedSpec | src/disnake/ext/plugins/plugin.py:780-796 | After load the storage is well formed and each table keeps its keys. Every command of a loaded kind carries its kind's checks in front of its own. Prefix commands are untouched on a bot without prefix support. Check lists, loops and listeners are unchanged. |
| Loading.LoadedTable | src/disnake/ext/plugins/plugin.py:780-796 | Load changes each kind's table by prepending that kind's checks. Prefix commands are changed only on a prefix-capable bot. |
| Loading.LoadedSteps | src/disnake/ext/plugins/plugin.py:780-796 | Load is the per-kind prepend steps in the source's order: prefix, slash, user, message. |
| Loading.ReloadPrependsTwice | src/disnake/ext/plugins/plugin.py:755-796 | Loading twice puts a kind's plugin-wide checks in front twice, because unload does not remove them. |
| Loading.AddCallsMirror | src/disnake/ext/plugins/plugin.py:782-796 | The command removals by stored name are the additions reversed in direction, in the same order. |
| Loading.EventCallsMirror | src/disnake/ext/plugins/plugin.py:798-800 | The listener removals for one event mirror its additions. |
| Loading.ListenerCallsMirror | src/disnake/ext/plugins/plugin.py:834-836 | The listener removals mirror the additions, event by event. |
| Loading.LoopCallsMirror | src/disnake/ext/plugins/plugin.py:838-839 | The loop cancels mirror the starts. |
| Loading.CommandsMirror | src/disnake/ext/plugins/plugin.py:821-832 | Unload's command removals on the loaded storage are exactly load's additions, flipped. |
| Loading.UnloadMirrorsLoad | src/disnake/ext/plugins/plugin.py:811-845 | Everything unload unregisters after a load with the same kind of bot is what the load registered, in the same order, each call reversed. |
| Plugins.AddCommands | src/disnake/ext/plugins/plugin.py:782-796 | The per-kind load loop adds each command in table order and returns the table with the checks prepended. |
| Plugins.AddKind | src/disnake/ext/plugins/plugin.py:786-788 | One kind's load step leaves the storage as the prepend step says and records that kind's additions. |
| Plugins.AddAllCommands | src/disnake/ext/plugins/plugin.py:781-796 | The command part of load gives `Loaded` and records the additions kind by kind. |
| Plugins.RemoveCommands | src/disnake/ext/plugins/plugin.py:825-826 | Removes the commands by stored name, in order. |
| Plugins.RemoveAllCommands | src/disnake/ext/plugins/plugin.py:821-832 | The command part of unload records the removals kind by kind. Prefix commands are removed only on a prefix-capable bot. |
| Plugins.CallListeners | src/disnake/ext/plugins/plugin.py:798-800 | Adds or removes every listener event by event. |
| Plugins.CallEvent | src/disnake/ext/plugins/plugin.py:799-800 | Adds or removes one event's listeners in list order. |
| Plugins.CallLoops | src/disnake/ext/plugins/plugin.py:802-803 | Starts or cancels every loop in order. |
| Plugins.RegisterAll | src/disnake/ext/plugins/plugin.py:781-803 | The registering middle of load: the loaded storage stays valid, and the trace is commands, then listeners, then loops. |
| Plugins.UnregisterAll | src/disnake/ext/plugins/plugin.py:821-839 | The unregistering middle of unload, in the same order. |
| Plugins.PluginRegisterLoopAsWritten | src/disnake/ext/plugins/plugin.py:735-747 | As written, `Plugin.register_loop` always raises: TypeError exactly when the loop already waits, AttributeError otherwise. In the second case the loop is left with the attached `before_loop`. |
| Plugins.PluginRegisterLoopCounterexample | src/disnake/ext/plugins/plugin.py:735-747 | A fresh loop fails with AttributeError and then with TypeError on retry. The intended registration succeeds. |
| Plugins.Plugin.constructor | src/disnake/ext/plugins/plugin.py:638-678 | A new plugin has empty storage and hooks, no bot and no sub-plugins. |
| Plugins.Plugin.CurrentBot | src/disnake/ext/plugins/plugin.py:680-688 | `bot` is the loaded bot, else RuntimeError. |
| Plugins.Plugin.RegisterSubPlugin | src/disnake/ext/plugins/plugin.py:692-713 | Adds the sub-plugin and merges its storage into this one. It then binds it, with RuntimeError when the sub-plugin is already bound; the merge still happened. Hooks and bot are unchanged. |
| Plugins.Plugin.RegisterLoop | src/disnake/ext/plugins/plugin.py:717-749 | Intended behaviour: same as `PluginBase.register_loop`. |
| Plugins.Plugin.LoadHook | src/disnake/ext/plugins/plugin.py:847-868 | Appends to the post- or pre-load hooks, as `post` says. Everything else is unchanged. |
| Plugins.Plugin.UnloadHook | src/disnake/ext/plugins/plugin.py:870-891 | Appends to the post- or pre-unload hooks, as `post` says. Everything else is unchanged. |
| Plugins.Plugin.Load | src/disnake/ext/plugins/plugin.py:769-809 | Binds the bot and leaves the storage `Loaded`. The trace is pre-load hooks, the registrations, post-load hooks, then a delayed sync. Hooks and sub-plugins are unchanged. |
| Plugins.Plugin.Unload | src/disnake/ext/plugins/plugin.py:811-845 | The trace is pre-unload hooks, the unregistrations, post-unload hooks, then a delayed sync. Storage and bot binding are untouched. |
| Plugins.SubPlugin.constructor | src/disnake/ext/plugins/plugin.py:925-944 | A new sub-plugin is unbound with empty storage. |
| Plugins.SubPlugin.Bind | src/disnake/ext/plugins/plugin.py:946-961 | The first bind sets the plugin. A later one raises RuntimeError and keeps the first plugin. |
| Plugins.SubPlugin.PluginOf | src/disnake/ext/plugins/plugin.py:963-973 | `plugin` is the bound plugin, else RuntimeError. |
| Plugins.SubPlugin.CurrentBot | src/disnake/ext/plugins/plugin.py:975-982 | `bot` is the plugin's bot. It raises RuntimeError when unbound or when the plugin was never loaded. |
| Plugins.LoadUnloadRoundTrip | src/disnake/ext/plugins/plugin.py:769-845 | Between the hook stages, an unload after a load is the load's calls reversed one by one. |
| PluginBases.AttachWaitUntilReady | src/disnake/ext/plugins/plugin.py:529-541 | Waiting attaches the `_before_loop` waiter, or raises TypeError if one is present (and only then). Without waiting, the loop is unchanged. |
| PluginBases.AddAllSpec | src/disnake/ext/plugins/plugin.py:500-508 | Adding listeners keeps the table valid. Each event's list is extended with exactly the callbacks filed under it, in call order. |
| PluginBases.RoutedToEvent | src/disnake/ext/plugins/plugin.py:507 | With an explicit event, every callback goes to it and none elsewhere. |
| PluginBases.GroupAsWritten | src/disnake/ext/plugins/plugin.py:319-344 | As written, `group` never registers: it raises AttributeError wherever the build would succeed and passes build errors through. |
| PluginBases.GroupCounterexample | src/disnake/ext/plugins/plugin.py:332-338 | A plain coroutine group fails as written and builds as intended. |
| PluginBases.PluginBase.constructor | src/disnake/ext/plugins/plugin.py:180-199 | A new base holds fresh metadata with the given name, extras and bundles, and an empty storage. |
| PluginBases.PluginBase.Register | src/disnake/ext/plugins/plugin.py:307-315 | Builds and, on success, files the entity in its kind's table under its name. On failure the storage is unchanged. |
| PluginBases.PluginBase.Command | src/disnake/ext/plugins/plugin.py:294-317 | `command` builds from the prefix bundle with default class Command and files it in the prefix table. |
| PluginBases.PluginBase.Group | src/disnake/ext/plugins/plugin.py:319-344 | The intended `group` builds with default class Group and files it in the prefix table. |
| PluginBases.PluginBase.AppCommand | src/disnake/ext/plugins/plugin.py:346-464 | Slash, user and message commands build with their fixed class and are filed in their own table. Slash and user commands start from their own bundle. Message commands start from the intended bundle, `message_command_attrs`; the source passes `user_command_attrs` (see Findings). |
| PluginBases.PluginBase.AddCheck | src/disnake/ext/plugins/plugin.py:466-496 | Appends to the kind's plugin-wide checks and returns the predicate. |
| PluginBases.PluginBase.AddListeners | src/disnake/ext/plugins/plugin.py:500-508 | The loop leaves the listener table as `AddAll` says and changes nothing else. |
| PluginBases.PluginBase.Listener | src/disnake/ext/plugins/plugin.py:510-520 | Files the one callback and returns it. |
| PluginBases.PluginBase.RegisterLoop | src/disnake/ext/plugins/plugin.py:523-545 | Appends the loop with its waiter attached. TypeError leaves the storage unchanged. |
| Lookup.GetSlashCommand | src/disnake/ext/plugins/plugin.py:564-585 | `get_slash_command` raises exactly when the name is blank, and then raises IndexError. |
| Lookup.Resolve | src/disnake/ext/plugins/plugin.py:570-585 | Looking up split segments fails (IndexError) exactly on no segments. More than three segments find nothing. Anything found lies below an existing top-level name. |
| Lookup.SlashLookupBySegments | src/disnake/ext/plugins/plugin.py:570 | Names that split alike find the same thing. |
| Lookup.SlashLookupTop | src/disnake/ext/plugins/plugin.py:573-575 | One word finds the top-level command of that name, or nothing. |
| Lookup.SlashLookupChild | src/disnake/ext/plugins/plugin.py:573-578 | Two words find the named child of the named top-level command, and nothing when the command or the child is missing. |
| Lookup.SlashLookupThree | src/disnake/ext/plugins/plugin.py:573-585 | Three words find a subcommand exactly when the first names a top-level command, the second one of its children that is a subcommand group, and the third a subcommand of that group. It is then that subcommand; in every other case the lookup finds nothing. |
| Lookup.SlashLookupQualifiedName | src/disnake/ext/plugins/plugin.py:580-583 | A subcommand in a group under a top-level command is found by its qualified name. |
| Lookup.SlashLookupPath | src/disnake/ext/plugins/plugin.py:570-585 | Looking up a single-space join of words resolves word by word. |
| Lookup.SlashLookupTooDeep | src/disnake/ext/plugins/plugin.py:585 | More than three words find nothing. |
| Lookup.GetCommand | src/disnake/ext/plugins/plugin.py:547-562 | Intended `get_command` loop: it computes the word-by-word descent, with TypeError when words remain below a non-group. |
| Lookup.Descend | src/disnake/ext/plugins/plugin.py:551-560 | Intended descent: it fails only with TypeError and only while words remain. Anything found below the current command was reached through a group. |
| Lookup.CommandAt | src/disnake/ext/plugins/plugin.py:547-562 | Intended `get_command`: a one-word name finds the prefix command stored under it, and the only error is TypeError. |
| Lookup.DescendAsWritten | src/disnake/ext/plugins/plugin.py:551-560 | Descent as written, which asks for the remainder instead of the word: it fails only with TypeError while words remain. Anything found was reached through a group. |
| Lookup.CommandAtAsWritten | src/disnake/ext/plugins/plugin.py:547-562 | `get_command` as written: a one-word name looks up the empty name, whatever the word, and the only error is TypeError. |
| Lookup.CommandAtTop | src/disnake/ext/plugins/plugin.py:548-549 | Intended: one word finds the prefix command stored under it. |
| Lookup.CommandAtChild | src/disnake/ext/plugins/plugin.py:551-560 | Intended: two words find the group's child, or TypeError when the first word names no group. |
| Lookup.GetCommandCounterexample | src/disnake/ext/plugins/plugin.py:548-549 | `get_command("ping")` finds nothing as written and finds the command as intended. |
| Contexts.GlobalContext.constructor | src/disnake/ext/plugins/context.py:34-37 | A fresh instance holds its key and default, and its value is `Undefined`. |
| Contexts.GlobalContext.Set | src/disnake/ext/plugins/context.py:42-43 | After `set`, every `get` returns the value, whatever the default. |
| Contexts.GlobalContext.Get | src/disnake/ext/plugins/context.py:53-61 | Returns the value once set. Before that: the call's default if truthy, else the instance default, and ValueError when that is Undefined. |
| Contexts.ContextTable.constructor | src/disnake/ext/plugins/context.py:25 | The class-level `__instances__` table starts empty, which trivially keeps every instance filed under its own key. |
| Contexts.ContextTable.Create | src/disnake/ext/plugins/context.py:30-40 | `__new__` returns the instance filed under the key, untouched. Otherwise it files a fresh unset one; the table stays keyed by instance key. |
| Contexts.ContextTable.New | src/disnake/ext/plugins/context.py:30-40 | `GlobalContext(key, default)`: returns the existing instance, or a fresh global one. |
| Contexts.ContextTable.NewLocal | src/disnake/ext/plugins/context.py:64-67 | `LocalContext` works the same way under the key `module:key` in the shared table. |
| Contexts.LocalKey | src/disnake/ext/plugins/context.py:66 | The local key is the module name, a colon, then the key. |
| Contexts.LocalKeyInjective | src/disnake/ext/plugins/context.py:64-67 | For colon-free module-name strings, a local key determines the module-name string and the key. Distinct module-name strings give distinct keys; callers with equal module-name strings share an instance. |
| Placeholders.OptionNamesMember | src/disnake/ext/plugins/placeholder.py:154 | A name is an option name exactly when some option has it. |
| Placeholders.Install | src/disnake/ext/plugins/placeholder.py:157-162 | Installing succeeds exactly for an existing option, else ValueError. |
| Placeholders.InstallSpec | src/disnake/ext/plugins/placeholder.py:161-162 | A successful install adds exactly that autocompleter and marks that option. |
| Placeholders.InstalledCompose | src/disnake/ext/plugins/placeholder.py:156-162 | Two installations in a row are one installation of both, the later winning. |
| Placeholders.ReplayStops | src/disnake/ext/plugins/placeholder.py:157-159 | Once the replay raises, later entries change nothing. |
| Placeholders.Replay | src/disnake/ext/plugins/placeholder.py:154-162 | Replaying the queue never renames or moves the subcommand, and a failed replay fails with ValueError. |
| Placeholders.ReplayOutcome | src/disnake/ext/plugins/placeholder.py:156-162 | The replay passes exactly when every queued option so far exists; otherwise it raises ValueError. On success the option names are unchanged. |
| Placeholders.ReplayInstalls | src/disnake/ext/plugins/placeholder.py:156-162 | The replay installs exactly the queued options before the first unknown one, each with its queued autocompleter. |
| Placeholders.ReplayAll | src/disnake/ext/plugins/placeholder.py:150-162 | The replay passes exactly when every queued option exists, and then installs all of them. |
| Placeholders.DirectInstalls | src/disnake/ext/plugins/placeholder.py:263-264 | Registering on the bound subcommand, one call after another, installs each option with its last registration. |
| Placeholders.QueuedMatchesDirect | src/disnake/ext/plugins/placeholder.py:245-270 | Queuing while unbound and then binding gives the same subcommand as binding first and registering directly. |
| Placeholders.InstallQueued | src/disnake/ext/plugins/placeholder.py:156-162 | The loop of `set_parent` computes the replay. |
| Placeholders.SubCommandAsWritten | src/disnake/ext/plugins/placeholder.py:148 | The subcommand `set_parent` builds as written is the one built with no explicit name, so its qualified name ends in the callback's name. |
| Placeholders.GroupCommandAsWritten | src/disnake/ext/plugins/placeholder.py:315 | The same for the group placeholder's `set_parent`. |
| Placeholders.ExplicitNameCounterexample | src/disnake/ext/plugins/placeholder.py:23-34 | An explicit name "b" on a callback "a": the placeholder announces "top b", while the entity built as written is "top a". |
| Placeholders.SubCommandPlaceholder.constructor | src/disnake/ext/plugins/placeholder.py:121-131 | The placeholder keeps the stripped parent name and the explicit name or `__name__`. It starts unbound with an empty queue. |
| Placeholders.SubCommandPlaceholder.Command | src/disnake/ext/plugins/placeholder.py:75-84 | `command` is the built subcommand, else RuntimeError. |
| Placeholders.SubCommandPlaceholder.SetParent | src/disnake/ext/plugins/placeholder.py:133-162 | Binds to the subcommand built under `parent` with the queue replayed (see ReplayAll/ReplayOutcome). The result's qualified name is `parent` plus the placeholder's name. |
| Placeholders.SubCommandPlaceholder.Autocomplete | src/disnake/ext/plugins/placeholder.py:245-270 | Unbound: queues the function, replacing an earlier one, and returns it. Bound: installs it, or ValueError for an unknown option, leaving the command unchanged. |
| Placeholders.BindAll | src/disnake/ext/plugins/placeholder.py:317-318 | Binds the placeholders in order up to and including the first that raises. Each bound one holds its replayed subcommand and the rest are untouched. |
| Placeholders.SubCommandGroupPlaceholder.constructor | src/disnake/ext/plugins/placeholder.py:291-301 | Same as a subcommand placeholder, with no children. |
| Placeholders.SubCommandGroupPlaceholder.Command | src/disnake/ext/plugins/placeholder.py:75-84 | `command` is the built group, else RuntimeError. |
| Placeholders.SubCommandGroupPlaceholder.SetParent | src/disnake/ext/plugins/placeholder.py:303-318 | Builds the group under `parent`, then binds its subcommand placeholders under the group's qualified name, stopping at the first failure. |
| Placeholders.SubCommandGroupPlaceholder.SubCommand | src/disnake/ext/plugins/placeholder.py:338-403 | Appends a fresh placeholder named under the group's qualified name. When the group is bound, the placeholder is bound under it at once. |

## Left out

- `PluginBase.__init__`: the name defaults to the calling module's name (`utils.get_source_module_name`), which inspects the call stack. Here the name is a parameter.
- `LocalContext`: the module part of the key comes from `utilities.get_source_module_name` (utilities.py:8). That helper returns the file-name stem of a stack frame obtained through `logging.currentframe()`. The model takes that string as a parameter. Modules whose stems are equal (two `main.py` files, or two packages' `__init__.py`) share every local key. Which frame `logging.currentframe()` returns depends on the Python version: where it is `sys._getframe(1)`, the frame is the helper's own, so every caller would get the stem "utilities" and share every local key. This is not modelled.
- Logging and the deprecated `category` properties are left out. They are side effects only.
- `create_extension_handlers`, `safe_task` and the async utilities are left out. They schedule coroutines on an event loop.
- Load and unload hooks run concurrently (`asyncio.gather`). Each stage is recorded as one event holding the hooks as a multiset. Hook exceptions are not modelled.
- Plugins.Plugin.Load: calls on the bot (`add_command`, `add_slash_command` and the other adders, `add_listener`) and `loop.start` never fail in the model. In the source any of them can raise (plugin.py:781-803). The exception then propagates with no rollback, leaving only part of the plugin registered, with the checks already prepended to the commands handled so far. That partial state is not captured.
- Plugins.Plugin.Unload: likewise, `remove_*` calls and `loop.cancel` never fail in the model (plugin.py:821-839). A failure part-way, which leaves the plugin partly registered, is not captured.
- disnake's constructors are represented by records; their own validation is not modelled.
- A subcommand's options are taken one per callback parameter (`OptionsOf`).
- The bound `autocomplete` delegates to disnake, which is modelled by `Placeholders.Install`.
- `Placeholders.Install` marks every option with the given name, whereas `set_parent` marks only the last option of that name. The two agree when option names are unique, as disnake requires.
- Placeholders.SubCommandPlaceholder.SetParent states the outcome through `Finalised`. Its success condition and the installed autocompleters come from the lemmas ReplayOutcome and ReplayAll, not from the method's own ensures.
- `docstring` on placeholders calls itself without end and is left out.
- `root_parent`, `parent`, `parents`, `description`, `connectors`, `body` and `invoke` are left out. They only forward to the built disnake entity.
- Registering a placeholder's built entity in its parent's `children` is disnake's and is not modelled.
- `get_command` delegates to disnake's `GroupMixin` check and lookup. Both are parameters.
- Error messages are not modelled; only the exception class is.
- Placeholders.SubCommandGroupPlaceholder.SubCommand: the source decides between bound and unbound when the factory `sub_command(...)` is called (placeholder.py:380-403). The decorator it returns is applied later. The model merges the two calls into one. So it does not capture a factory obtained before the group was bound and applied after: that placeholder is appended but never bound.
- PluginBases.PluginBase.AppCommand takes any keyword map. `slash_command`, `user_command` and `message_command` accept only their fixed keyword parameters (plugin.py:346-356, 388-396, 426-434), so an unknown keyword is a TypeError at the call; that error is not modelled.
- The model treats values as immutable. In the source, `update` shares the command objects, the `extras` dict and the listener lists of events new to the target (plugin.py:162) between storages, so mutating one later shows in the other. `_apply_attrs` calls `setdefault` on the `extras` dict it was given (plugin.py:286-288), mutating it in place. When two plugins build from one `extras` dict, the second finds "plugin" already set to the first and keeps it. Under that aliasing Attributes.BuiltCommandBelongsToPlugin does not hold for the second plugin: the model reads each call's `extras` as a fresh value. None of this aliasing is captured.
- `SubPlugin._command_placeholders` is left out because nothing in the library reads it.
- `typeshed.py`, `utils.py` and `__init__.py` hold typing protocols, re-exports and helpers. They are not part of this model.

## Findings

| source | as written | input that shows it | evidently intended | confidence | as-written member | corrected member |
|---|---|---|---|---|---|---|
| src/disnake/ext/plugins/plugin.py:437-438 | `message_command` merges `user_command_attrs` | a plugin with `message_command_attrs={"guild_ids": [1]}` and no user attributes: the message command gets no `guild_ids` | merge `message_command_attrs` | high, not executed | Attributes.DefaultsAsWritten, Attributes.MessageDefaultsCounterexample | Attributes.DefaultsFor, PluginBases.PluginBase.AppCommand |
| src/disnake/ext/plugins/plugin.py:548-560 | `get_command` looks up the text after the split word instead of the word | `get_command("ping")` with "ping" registered returns None | look up `part` at each level | high, not executed | Lookup.CommandAtAsWritten, Lookup.GetCommandCounterexample | Lookup.GetCommand |
| src/disnake/ext/plugins/plugin.py:746 | `Plugin.register_loop` appends to `self._loops`, which does not exist, after attaching `before_loop` | any loop: AttributeError, and a retry with `wait_until_ready=True` raises TypeError | append to the storage's loops as `PluginBase.register_loop` does | high, not executed | Plugins.PluginRegisterLoopAsWritten, Plugins.PluginRegisterLoopCounterexample | Plugins.Plugin.RegisterLoop |
| src/disnake/ext/plugins/plugin.py:338 | `group` stores into `self._commands`, which does not exist | `@plugin.group()` on any coroutine raises AttributeError | store into the storage's prefix commands | high, not executed | PluginBases.GroupAsWritten, PluginBases.GroupCounterexample | PluginBases.PluginBase.Group |
| src/disnake/ext/plugins/placeholder.py:28-34 | the explicit `name` is consumed and not passed on in `_kwargs`, so `set_parent` (lines 148, 315) builds the entity named after the callback | placeholder named "b" for callback "a" under "top": announces "top b", builds "top a" | build the entity under the placeholder's name | medium, not executed | Placeholders.SubCommandAsWritten, Placeholders.GroupCommandAsWritten, Placeholders.ExplicitNameCounterexample | Placeholders.SubCommandPlaceholder.SetParent, Placeholders.SubCommandGroupPlaceholder.SetParent |
