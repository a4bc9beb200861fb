/** Lookups by qualified name on a plugin's tables: `get_slash_command`
    and `get_command` of `PluginBase` (src/disnake/ext/plugins/plugin.py). */
module Lookup {
  import opened Common
  import opened Entities
  import opened OrderedMaps
  import opened Words

  /** What a slash lookup finds: a top-level slash command, or a child (a
      subcommand or a subcommand group) below one. */
  datatype Found = TopLevel(command: Command) | Nested(child: Child)

  /** `get_slash_command(name)` on the plugin's slash table: the name is
      split on whitespace; one segment names a top-level command, two a
      child of it, three a subcommand of a group child; anything deeper, or
      a path through a subcommand, finds nothing. An empty name raises
      IndexError on `chain[0]`. */
  function GetSlashCommand(slash: OrderedMap<Command>, name: string): (r: Result<Option<Found>>)
    ensures r.Err? <==> AllSpace(name)
    ensures r.Err? ==> r.error == IndexError
  {
    SplitStrip(name);
    SplitAllSpace(name);
    Resolve(slash, Split(Strip(name)))
  }

  /** The lookup of `get_slash_command` once the name is split into its
      segments. */
  function Resolve(slash: OrderedMap<Command>, chain: seq<string>): (r: Result<Option<Found>>)
    ensures r.Err? <==> chain == []
    ensures r.Err? ==> r.error == IndexError
    ensures |chain| > 3 ==> r == Ok(None)
    ensures r.Ok? && r.value.Some? ==> slash.Get(chain[0]).Some?
  {
    if |chain| == 0 then Err(IndexError)
    else match slash.Get(chain[0])
      case None => Ok(None)
      case Some(top) =>
        if |chain| == 1 then Ok(Some(TopLevel(top)))
        else if |chain| == 2 then
          Ok(if chain[1] in top.children then Some(Nested(top.children[chain[1]])) else None)
        else if |chain| == 3 && chain[1] in top.children && top.children[chain[1]].GroupChild? then
          var group := top.children[chain[1]].group;
          Ok(if chain[2] in group.children then Some(Nested(SubCommandChild(group.children[chain[2]]))) else None)
        else Ok(None)
  }

  /** Only the segments matter: names that split alike (extra, leading or
      trailing whitespace of any kind) find the same thing. */
  lemma SlashLookupBySegments(slash: OrderedMap<Command>, a: string, b: string)
    requires Split(a) == Split(b)
    ensures GetSlashCommand(slash, a) == GetSlashCommand(slash, b)
  {
    SplitStrip(a);
    SplitStrip(b);
  }

  /** One segment finds the top-level entry under that name, if any. */
  lemma SlashLookupTop(slash: OrderedMap<Command>, a: string)
    requires IsWord(a)
    ensures GetSlashCommand(slash, a) == Ok(if slash.Get(a).Some? then Some(TopLevel(slash.Get(a).value)) else None)
  {
    SplitStrip(a);
    SplitJoin([a]);
  }

  /** Two segments find the named child of the named top-level command,
      and nothing when either is missing. */
  lemma SlashLookupChild(slash: OrderedMap<Command>, a: string, b: string)
    requires IsWord(a) && IsWord(b)
    ensures GetSlashCommand(slash, a + " " + b) ==
            Ok(if slash.Get(a).Some? && b in slash.Get(a).value.children
               then Some(Nested(slash.Get(a).value.children[b])) else None)
  {
    var path := [a, b];
    assert Join(path) == a + " " + b by {
      assert path[1..] == [b];
    }
    SlashLookupPath(slash, path);
  }

  /** Three segments find a subcommand exactly when the first names a
      top-level command, the second one of its children that is a
      subcommand group, and the third a subcommand of that group; in every
      other case they find nothing. */
  lemma SlashLookupThree(slash: OrderedMap<Command>, a: string, b: string, c: string)
    requires IsWord(a) && IsWord(b) && IsWord(c)
    ensures GetSlashCommand(slash, a + " " + b + " " + c).Ok?
    ensures GetSlashCommand(slash, a + " " + b + " " + c).value.Some? <==>
              && slash.Get(a).Some?
              && b in slash.Get(a).value.children
              && slash.Get(a).value.children[b].GroupChild?
              && c in slash.Get(a).value.children[b].group.children
    ensures GetSlashCommand(slash, a + " " + b + " " + c).value.Some? ==>
              GetSlashCommand(slash, a + " " + b + " " + c).value.value ==
              Nested(SubCommandChild(slash.Get(a).value.children[b].group.children[c]))
  {
    var path := [a, b, c];
    JoinThree(a, b, c);
    assert path[0] == a && path[1] == b && path[2] == c;
    SlashLookupPath(slash, path);
  }

  /** A subcommand hanging in a group under a top-level command is found by
      its qualified name, which is the three names joined by spaces. */
  lemma SlashLookupQualifiedName(slash: OrderedMap<Command>, top: Command, group: SubCommandGroup, sub: SubCommand)
    requires IsWord(top.name) && IsWord(group.name) && IsWord(sub.name)
    requires slash.Get(top.name) == Some(top)
    requires group.parentName == top.name && group.name in top.children && top.children[group.name] == GroupChild(group)
    requires sub.parentName == group.QualifiedName() && sub.name in group.children && group.children[sub.name] == sub
    ensures GetSlashCommand(slash, sub.QualifiedName()) == Ok(Some(Nested(SubCommandChild(sub))))
  {
    var path := [top.name, group.name, sub.name];
    assert sub.QualifiedName() == Join(path) by {
      JoinThree(top.name, group.name, sub.name);
    }
    assert Resolve(slash, path) == Ok(Some(Nested(SubCommandChild(sub)))) by {
      assert path[0] == top.name && path[1] == group.name && path[2] == sub.name;
    }
    SlashLookupPath(slash, path);
  }

  /** The segments joined by single spaces are looked up segment by
      segment. */
  lemma SlashLookupPath(slash: OrderedMap<Command>, path: seq<string>)
    requires forall i :: 0 <= i < |path| ==> IsWord(path[i])
    ensures GetSlashCommand(slash, Join(path)) == Resolve(slash, path)
  {
    SplitStrip(Join(path));
    SplitJoin(path);
  }

  /** Helper: sequence bookkeeping for a three-word join. */
  lemma JoinThree(a: string, b: string, c: string)
    ensures Join([a, b, c]) == a + " " + b + " " + c
  {
    assert [a, b, c][1..] == [b, c];
    assert [b, c][1..] == [c];
    assert Join([b, c]) == b + " " + c;
    assert a + " " + (b + " " + c) == a + " " + b + " " + c;
  }

  /** More than three segments never find anything. */
  lemma SlashLookupTooDeep(slash: OrderedMap<Command>, name: string)
    requires |Split(name)| > 3
    ensures GetSlashCommand(slash, name) == Ok(None)
  {
    SplitStrip(name);
  }

  /** Where `get_command` descends from a command found so far, with the
      words still to resolve: done when none are left, TypeError when there
      are words left but nothing to descend into, otherwise the next word
      (up to the first SPACE) is looked up among the group's commands.
      `isGroup` and `child` stand for disnake's `GroupMixin` test and its
      `get_command`. */
  function Descend(current: Option<Command>, rest: string,
                   isGroup: Command -> bool, child: (Command, string) -> Option<Command>): (r: Result<Option<Command>>)
    ensures r.Err? ==> r.error == TypeError && rest != ""
    ensures r.Ok? && r.value.Some? && rest != "" ==> current.Some? && isGroup(current.value)
    decreases |rest|
  {
    if rest == "" then Ok(current)
    else if current.None? || !isGroup(current.value) then Err(TypeError)
    else
      var (part, tail) := Partition(rest);
      Descend(child(current.value, part), tail, isGroup, child)
  }

  /** `get_command(name)` as evidently intended: the first word is looked up
      among the plugin's prefix commands and each further word below it. */
  function CommandAt(commands: OrderedMap<Command>, name: string,
                     isGroup: Command -> bool, child: (Command, string) -> Option<Command>): (r: Result<Option<Command>>)
    ensures ' ' !in Strip(name) ==> r == Ok(commands.Get(Strip(name)))
    ensures r.Err? ==> r.error == TypeError
  {
    var (part, rest) := Partition(Strip(name));
    Descend(commands.Get(part), rest, isGroup, child)
  }

  /** The loop of `get_command`, as intended. */
  method GetCommand(commands: OrderedMap<Command>, name: string,
                    isGroup: Command -> bool, child: (Command, string) -> Option<Command>)
    returns (r: Result<Option<Command>>)
    ensures r == CommandAt(commands, name, isGroup, child)
  {
    var (part, rest) := Partition(Strip(name));
    var command := commands.Get(part);
    while rest != ""
      invariant Descend(command, rest, isGroup, child) == CommandAt(commands, name, isGroup, child)
      decreases |rest|
    {
      if command.None? || !isGroup(command.value) {
        return Err(TypeError);
      }
      var (next, tail) := Partition(rest);
      command := child(command.value, next);
      rest := tail;
    }
    return Ok(command);
  }

  /** `get_command` as written: the table and every group are asked for the
      text after the word just split off instead of the word itself. */
  function DescendAsWritten(current: Option<Command>, rest: string,
                            isGroup: Command -> bool, child: (Command, string) -> Option<Command>): (r: Result<Option<Command>>)
    ensures r.Err? ==> r.error == TypeError && rest != ""
    ensures r.Ok? && r.value.Some? && rest != "" ==> current.Some? && isGroup(current.value)
    decreases |rest|
  {
    if rest == "" then Ok(current)
    else if current.None? || !isGroup(current.value) then Err(TypeError)
    else
      var (part, tail) := Partition(rest);
      DescendAsWritten(child(current.value, tail), tail, isGroup, child)
  }

  /** `get_command(name)` as written: a one-word name is looked up under the
      empty name. */
  function CommandAtAsWritten(commands: OrderedMap<Command>, name: string,
                              isGroup: Command -> bool, child: (Command, string) -> Option<Command>): (r: Result<Option<Command>>)
    ensures ' ' !in Strip(name) ==> r == Ok(commands.Get(""))
    ensures r.Err? ==> r.error == TypeError
  {
    var (part, rest) := Partition(Strip(name));
    DescendAsWritten(commands.Get(rest), rest, isGroup, child)
  }

  /** A word contains no SPACE. */
  lemma WordHasNoSpace(w: string)
    requires IsWord(w)
    ensures ' ' !in w
  {
    forall i | 0 <= i < |w| ensures w[i] != ' ' {
      assert !IsSpace(w[i]);
    }
  }

  /** Stripping leaves a text that starts and ends outside whitespace as
      it is. */
  lemma StripKeeps(s: string)
    requires s != [] && !IsSpace(s[0]) && !IsSpace(s[|s| - 1])
    ensures Strip(s) == s
  {
  }

  /** Partitioning `a SPACE b`, for an `a` without SPACE, gives `a` and `b`. */
  lemma {:induction false} PartitionAt(a: string, b: string)
    requires ' ' !in a
    ensures Partition(a + " " + b) == (a, b)
    decreases |a|
  {
    var s := a + " " + b;
    if a == [] {
      assert s == " " + b;
      assert s[1..] == b;
    } else {
      assert s[1..] == a[1..] + " " + b;
      assert ' ' !in a[1..] by {
        forall i | 0 <= i < |a| - 1 ensures a[1..][i] != ' ' {
          assert a[1..][i] == a[i + 1];
        }
      }
      PartitionAt(a[1..], b);
      assert a == [a[0]] + a[1..];
    }
  }

  /** One word finds the prefix command stored under it. */
  lemma CommandAtTop(commands: OrderedMap<Command>, a: string,
                     isGroup: Command -> bool, child: (Command, string) -> Option<Command>)
    requires IsWord(a)
    ensures CommandAt(commands, a, isGroup, child) == Ok(commands.Get(a))
  {
    StripKeeps(a);
    WordHasNoSpace(a);
  }

  /** Two words find the named command of the named group, and raise
      TypeError when the first names no group. */
  lemma CommandAtChild(commands: OrderedMap<Command>, a: string, b: string,
                       isGroup: Command -> bool, child: (Command, string) -> Option<Command>)
    requires IsWord(a) && IsWord(b)
    ensures commands.Get(a).Some? && isGroup(commands.Get(a).value) ==>
              CommandAt(commands, a + " " + b, isGroup, child) == Ok(child(commands.Get(a).value, b))
    ensures commands.Get(a).None? || !isGroup(commands.Get(a).value) ==>
              CommandAt(commands, a + " " + b, isGroup, child) == Err(TypeError)
  {
    var s := a + " " + b;
    assert Partition(Strip(s)) == (a, b) by {
      assert s[|s| - 1] == b[|b| - 1];
      StripKeeps(s);
      WordHasNoSpace(a);
      PartitionAt(a, b);
    }
    assert Partition(b) == (b, "") by {
      WordHasNoSpace(b);
    }
    if commands.Get(a).Some? && isGroup(commands.Get(a).value) {
      var g := commands.Get(a).value;
      assert Descend(child(g, b), "", isGroup, child) == Ok(child(g, b));
      assert Descend(Some(g), b, isGroup, child) == Ok(child(g, b));
    }
  }

  /** The source's `get_command("ping")` looks up the empty name: with
      "ping" registered and nothing under "", it finds nothing where the
      intended lookup finds the command. */
  lemma GetCommandCounterexample(ping: Command, isGroup: Command -> bool, child: (Command, string) -> Option<Command>)
    requires ping.name == "ping"
    ensures var commands := Empty<Command>().Put("ping", ping);
            && CommandAtAsWritten(commands, "ping", isGroup, child) == Ok(None)
            && CommandAt(commands, "ping", isGroup, child) == Ok(Some(ping))
  {
    var commands := Empty<Command>().Put("ping", ping);
    assert IsWord("ping");
    CommandAtTop(commands, "ping", isGroup, child);
    StripKeeps("ping");
    WordHasNoSpace("ping");
    assert Partition("ping") == ("ping", "");
  }
}
