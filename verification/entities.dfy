/** The registrable entities as the registry sees them. Their construction
    belongs to disnake; here they are records holding what the registry
    reads or writes: names, the callback, the merged attributes, the check
    list that loading extends, and the children that path lookups walk. */
module Entities {
  import opened Common

  /** The four command kinds, each with its own map, check list, attribute
      bundle and host methods. */
  datatype CommandKind = Prefix | Slash | User | Message

  /** One option of a slash subcommand's body. */
  datatype CommandOption = CommandOption(name: string, autocomplete: bool)

  /** A slash subcommand: its name, the qualified name of the command or
      group it hangs under, its callback, the keyword arguments it was built
      with, its options and the autocompleters installed per option name. */
  datatype SubCommand = SubCommand(name: string, parentName: string, callback: Callback,
                                   kwargs: map<string, Value>, body: seq<CommandOption>,
                                   autocompleters: map<string, Callback>)
  {
    function QualifiedName(): string {
      parentName + " " + name
    }
  }

  datatype SubCommandGroup = SubCommandGroup(name: string, parentName: string, callback: Callback,
                                             kwargs: map<string, Value>, children: map<string, SubCommand>)
  {
    function QualifiedName(): string {
      parentName + " " + name
    }
  }

  /** An entry of a top-level slash command's `children`. */
  datatype Child = SubCommandChild(sub: SubCommand) | GroupChild(group: SubCommandGroup)

  /** A top-level command of any kind. `cls` is the class it was built with;
      `children` is empty for everything but slash commands with
      subcommands. A top-level command's qualified name is its name. */
  datatype Command = Command(name: string, cls: Value, callback: Callback, attrs: map<string, Value>,
                             checks: seq<Check>, children: map<string, Child>)

  /** A `tasks.Loop`: its coroutine and its `before_loop` callback, if any. */
  datatype Loop = Loop(coro: Callback, beforeLoop: Option<Callback>)
}
