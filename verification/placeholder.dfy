/** Placeholders for slash subcommands and subcommand groups declared
    before their parent command exists (src/disnake/ext/plugins/placeholder.py).
    A placeholder starts unbound, knowing only its name and qualified
    name; `set_parent` builds the real entity under the parent and makes it
    bound. The parent is given by its qualified name; building an entity
    under a parent (`parent.sub_command(...)`) is disnake's, modelled by
    the functions below. */
module Placeholders {
  import opened Common
  import opened Entities
  import opened OrderedMaps
  import opened Words
  import opened Attributes

  /** The options disnake derives for a subcommand: one per parameter of
      its callback, none autocompleted yet. */
  function OptionsOf(func: Callback): seq<CommandOption> {
    seq(|func.params|, i requires 0 <= i < |func.params| => CommandOption(func.params[i], false))
  }

  /** `{option.name for option in body.options}` */
  function OptionNames(body: seq<CommandOption>): set<string> {
    if body == [] then {} else OptionNames(body[..|body| - 1]) + {body[|body| - 1].name}
  }

  /** A name is among the option names exactly when some option has it. */
  lemma {:induction false} OptionNamesMember(body: seq<CommandOption>, x: string)
    ensures x in OptionNames(body) <==> exists i :: 0 <= i < |body| && body[i].name == x
    decreases |body|
  {
    if body != [] {
      var init := body[..|body| - 1];
      OptionNamesMember(init, x);
      if x in OptionNames(init) {
        var i :| 0 <= i < |init| && init[i].name == x;
        assert body[i].name == x;
      }
      if exists i :: 0 <= i < |body| && body[i].name == x {
        var i :| 0 <= i < |body| && body[i].name == x;
        if i < |init| {
          assert init[i].name == x;
        }
      }
    }
  }

  /** Bodies whose options are named alike have the same option names. */
  lemma {:induction false} SameNames(a: seq<CommandOption>, b: seq<CommandOption>)
    requires |a| == |b| && forall i :: 0 <= i < |a| ==> a[i].name == b[i].name
    ensures OptionNames(a) == OptionNames(b)
    decreases |a|
  {
    if a != [] {
      var n := |a| - 1;
      assert forall i :: 0 <= i < n ==> a[..n][i].name == b[..n][i].name by {
        forall i | 0 <= i < n ensures a[..n][i].name == b[..n][i].name {
          assert a[..n][i] == a[i] && b[..n][i] == b[i];
        }
      }
      SameNames(a[..n], b[..n]);
    }
  }

  /** The subcommand built for `func` under the parent with qualified name
      `parent`, named `name`. */
  function BuildSubCommand(name: string, parent: string, func: Callback, kwargs: map<string, Value>): SubCommand {
    SubCommand(name, parent, func, kwargs, OptionsOf(func), map[])
  }

  /** The group built for `func` under the top-level command `parent`. */
  function BuildGroup(name: string, parent: string, func: Callback, kwargs: map<string, Value>): SubCommandGroup {
    SubCommandGroup(name, parent, func, kwargs, map[])
  }

  /** `body` with every option named `option` marked as autocompleted. */
  function Mark(body: seq<CommandOption>, option: string): seq<CommandOption> {
    seq(|body|, i requires 0 <= i < |body| => if body[i].name == option then body[i].(autocomplete := true) else body[i])
  }

  /** `body` with the options named in `options` marked as autocompleted. */
  function MarkAll(body: seq<CommandOption>, options: set<string>): seq<CommandOption> {
    seq(|body|, i requires 0 <= i < |body| => body[i].(autocomplete := body[i].autocomplete || body[i].name in options))
  }

  /** The entries of `fs` for the names in `options`. */
  function Restrict(fs: map<string, Callback>, options: set<string>): map<string, Callback> {
    map k | k in options && k in fs :: fs[k]
  }

  /** `c` with the autocompleters of `options`, taken from `fs`, installed
      and those options marked as autocompleted; nothing else differs. */
  function Applied(c: SubCommand, options: set<string>, fs: map<string, Callback>): SubCommand {
    c.(autocompleters := c.autocompleters + Restrict(fs, options), body := MarkAll(c.body, options))
  }

  /** `after` is `before` with exactly the autocompleters of `options`
      installed, each taken from `fs`. */
  ghost predicate Installed(before: SubCommand, after: SubCommand, options: set<string>, fs: map<string, Callback>) {
    options <= fs.Keys && after == Applied(before, options, fs)
  }

  /** Installing one autocompleter on a built subcommand: `autocompleters[option] = f`
      and the option's `autocomplete = True`, or ValueError when the
      subcommand has no option of that name. */
  function Install(c: SubCommand, option: string, f: Callback): (r: Result<SubCommand>)
    ensures r.Ok? <==> option in OptionNames(c.body)
    ensures r.Err? ==> r.error == ValueError
  {
    if option in OptionNames(c.body) then
      Ok(c.(autocompleters := c.autocompleters[option := f], body := Mark(c.body, option)))
    else Err(ValueError)
  }

  /** A successful install installs exactly that one autocompleter. */
  lemma InstallSpec(c: SubCommand, option: string, f: Callback)
    requires option in OptionNames(c.body)
    ensures Install(c, option, f).Ok?
    ensures Installed(c, Install(c, option, f).value, {option}, map[option := f])
  {
    assert Mark(c.body, option) == MarkAll(c.body, {option});
    assert c.autocompleters[option := f] == c.autocompleters + Restrict(map[option := f], {option});
  }

  /** The replay in `set_parent` of the first `n` queued autocompleters:
      installed in queue order, stopping with ValueError at the first
      unknown option and keeping those installed before it. */
  function Replay(c: SubCommand, queued: OrderedMap<Callback>, n: nat): (r: (SubCommand, Outcome))
    requires queued.Valid() && n <= |queued.keys|
    ensures r.0.name == c.name && r.0.parentName == c.parentName
    ensures r.1.Fail? ==> r.1.error == ValueError
  {
    if n == 0 then (c, Pass)
    else
      var previous := Replay(c, queued, n - 1);
      if previous.1.Fail? then previous
      else
        var option := queued.keys[n - 1];
        match Install(previous.0, option, queued.values[option])
        case Ok(next) => (next, Pass)
        case Err(e) => (previous.0, Fail(e))
  }

  /** The number of queued options, from the front, that `names` has. */
  function KnownPrefix(names: set<string>, keys: seq<string>, n: nat): (m: nat)
    requires n <= |keys|
    ensures m <= n
    ensures forall i :: 0 <= i < m ==> keys[i] in names
    ensures m < n ==> keys[m] !in names
  {
    if n == 0 then 0
    else
      var p := KnownPrefix(names, keys, n - 1);
      if p == n - 1 && keys[n - 1] in names then n else p
  }

  /** The first `m` keys, as a set. */
  function Front(keys: seq<string>, m: nat): set<string>
    requires m <= |keys|
  {
    set i | 0 <= i < m :: keys[i]
  }

  lemma FrontStep(keys: seq<string>, m: nat)
    requires m < |keys|
    ensures Front(keys, m + 1) == Front(keys, m) + {keys[m]}
  {
  }

  /** Installing keeps the option names. */
  lemma InstalledNames(before: SubCommand, after: SubCommand, options: set<string>, fs: map<string, Callback>)
    requires Installed(before, after, options, fs)
    ensures OptionNames(after.body) == OptionNames(before.body)
  {
    SameNames(MarkAll(before.body, options), before.body);
  }

  /** Installing nothing changes nothing. */
  lemma InstalledNothing(c: SubCommand, fs: map<string, Callback>)
    ensures Installed(c, c, {}, fs)
  {
    assert MarkAll(c.body, {}) == c.body;
    assert c.autocompleters + Restrict(fs, {}) == c.autocompleters;
  }

  /** Two installations in a row are one installation of both sets, the
      later one winning on a shared option. */
  lemma InstalledCompose(c0: SubCommand, c1: SubCommand, c2: SubCommand,
                         s: set<string>, fs: map<string, Callback>, t: set<string>, gs: map<string, Callback>)
    requires Installed(c0, c1, s, fs) && Installed(c1, c2, t, gs)
    requires gs.Keys == t
    ensures Installed(c0, c2, s + t, fs + gs)
  {
    assert MarkAll(MarkAll(c0.body, s), t) == MarkAll(c0.body, s + t);
    RestrictTwice(c0.autocompleters, s, fs, t, gs);
  }

  lemma RestrictTwice(m: map<string, Callback>, s: set<string>, fs: map<string, Callback>, t: set<string>, gs: map<string, Callback>)
    requires s <= fs.Keys && gs.Keys == t
    ensures m + Restrict(fs, s) + Restrict(gs, t) == m + Restrict(fs + gs, s + t)
  {
    var lhs := m + Restrict(fs, s) + Restrict(gs, t);
    var rhs := m + Restrict(fs + gs, s + t);
    assert lhs.Keys == rhs.Keys;
    forall k | k in lhs ensures lhs[k] == rhs[k] {
    }
  }

  /** An installation is determined by what it installs. */
  lemma InstalledUnique(c: SubCommand, a: SubCommand, b: SubCommand, s: set<string>, fs: map<string, Callback>)
    requires Installed(c, a, s, fs) && Installed(c, b, s, fs)
    ensures a == b
  {
  }

  /** A failed replay stays failed however many more entries follow. */
  lemma {:induction false} ReplayStops(c: SubCommand, queued: OrderedMap<Callback>, j: nat, n: nat)
    requires queued.Valid() && j <= n <= |queued.keys|
    requires Replay(c, queued, j).1.Fail?
    ensures Replay(c, queued, n) == Replay(c, queued, j)
    decreases n
  {
    if n > j {
      ReplayStops(c, queued, j, n - 1);
    }
  }

  /** The replay fails, with ValueError, exactly when one of the queued
      options is unknown to the subcommand. */
  lemma {:induction false} ReplayOutcome(c: SubCommand, queued: OrderedMap<Callback>, n: nat)
    requires queued.Valid() && n <= |queued.keys|
    ensures Replay(c, queued, n).1 == Pass <==> KnownPrefix(OptionNames(c.body), queued.keys, n) == n
    ensures Replay(c, queued, n).1.Fail? ==> Replay(c, queued, n).1.error == ValueError
    ensures Replay(c, queued, n).1 == Pass ==> OptionNames(Replay(c, queued, n).0.body) == OptionNames(c.body)
    decreases n
  {
    if n > 0 {
      ReplayOutcome(c, queued, n - 1);
      var previous := Replay(c, queued, n - 1);
      if previous.1 == Pass {
        var option := queued.keys[n - 1];
        var r := Install(previous.0, option, queued.values[option]);
        if r.Ok? {
          InstallSpec(previous.0, option, queued.values[option]);
          InstalledNames(previous.0, r.value, {option}, map[option := queued.values[option]]);
        }
      }
    }
  }

  /** The replay installs exactly the queued options up to the first one
      the subcommand lacks, each with its queued autocompleter. */
  lemma {:induction false} ReplayInstalls(c: SubCommand, queued: OrderedMap<Callback>, n: nat)
    requires queued.Valid() && n <= |queued.keys|
    ensures Installed(c, Replay(c, queued, n).0, Front(queued.keys, KnownPrefix(OptionNames(c.body), queued.keys, n)), queued.values)
    decreases n
  {
    if n == 0 {
      InstalledNothing(c, queued.values);
      assert Front(queued.keys, 0) == {};
    } else {
      ReplayInstalls(c, queued, n - 1);
      ReplayOutcome(c, queued, n - 1);
      var previous := Replay(c, queued, n - 1);
      if previous.1 == Pass && queued.keys[n - 1] in OptionNames(c.body) {
        ReplayInstallsStep(c, queued, n, previous.0, Front(queued.keys, n - 1));
      } else {
        ReplaySkips(c, queued, n);
      }
    }
  }

  /** A step that installs nothing leaves the replay and the known prefix
      where they were. */
  lemma ReplaySkips(c: SubCommand, queued: OrderedMap<Callback>, n: nat)
    requires queued.Valid() && 0 < n <= |queued.keys|
    requires !(Replay(c, queued, n - 1).1 == Pass && queued.keys[n - 1] in OptionNames(c.body))
    requires Replay(c, queued, n - 1).1 == Pass <==> KnownPrefix(OptionNames(c.body), queued.keys, n - 1) == n - 1
    requires Replay(c, queued, n - 1).1 == Pass ==> OptionNames(Replay(c, queued, n - 1).0.body) == OptionNames(c.body)
    ensures Replay(c, queued, n).0 == Replay(c, queued, n - 1).0
    ensures KnownPrefix(OptionNames(c.body), queued.keys, n) == KnownPrefix(OptionNames(c.body), queued.keys, n - 1)
  {
  }

  /** The step of `ReplayInstalls` that installs one more option. */
  lemma ReplayInstallsStep(c: SubCommand, queued: OrderedMap<Callback>, n: nat, previous: SubCommand, s: set<string>)
    requires queued.Valid() && 0 < n <= |queued.keys|
    requires Replay(c, queued, n - 1) == (previous, Pass) && queued.keys[n - 1] in OptionNames(c.body)
    requires s == Front(queued.keys, n - 1) && Installed(c, previous, s, queued.values)
    requires KnownPrefix(OptionNames(c.body), queued.keys, n - 1) == n - 1
    ensures Installed(c, Replay(c, queued, n).0, Front(queued.keys, n), queued.values)
    ensures KnownPrefix(OptionNames(c.body), queued.keys, n) == n
  {
    var option := queued.keys[n - 1];
    InstalledNames(c, previous, s, queued.values);
    InstallExtends(c, previous, option, queued.values[option], s, queued.values);
    FrontStep(queued.keys, n - 1);
  }

  /** Installing one more autocompleter extends an installation. */
  lemma InstallExtends(c: SubCommand, previous: SubCommand, option: string, f: Callback,
                       s: set<string>, fs: map<string, Callback>)
    requires Installed(c, previous, s, fs)
    requires option in fs && fs[option] == f
    requires option in OptionNames(previous.body)
    ensures Installed(c, Install(previous, option, f).value, s + {option}, fs)
  {
    InstallSpec(previous, option, f);
    InstalledCompose(c, previous, Install(previous, option, f).value, s, fs, {option}, map[option := f]);
    assert fs + map[option := f] == fs;
  }

  /** With every queued option known, the replay succeeds and installs all
      of them. */
  lemma ReplayAll(c: SubCommand, queued: OrderedMap<Callback>)
    requires queued.Valid()
    ensures var m := KnownPrefix(OptionNames(c.body), queued.keys, |queued.keys|);
            && (Replay(c, queued, |queued.keys|).1 == Pass <==> queued.values.Keys <= OptionNames(c.body))
            && (Replay(c, queued, |queued.keys|).1 == Pass ==>
                  Installed(c, Replay(c, queued, |queued.keys|).0, queued.values.Keys, queued.values))
  {
    var n := |queued.keys|;
    ReplayOutcome(c, queued, n);
    ReplayInstalls(c, queued, n);
    var m := KnownPrefix(OptionNames(c.body), queued.keys, n);
    assert Front(queued.keys, n) == queued.values.Keys;
    if m < n {
      assert queued.keys[m] in queued.values.Keys;
    }
  }

  /** The queue that unbound `autocomplete` calls leave, registrations
      given in call order: a later registration for the same option
      replaces the earlier one in its place. */
  function Queue(registrations: seq<(string, Callback)>): (q: OrderedMap<Callback>)
    ensures q.Valid()
  {
    if registrations == [] then Empty()
    else
      var last := registrations[|registrations| - 1];
      Queue(registrations[..|registrations| - 1]).Put(last.0, last.1)
  }

  /** The same registrations made on the bound subcommand, one
      `autocomplete` call after the other. */
  function Direct(c: SubCommand, registrations: seq<(string, Callback)>): Result<SubCommand> {
    if registrations == [] then Ok(c)
    else
      var last := registrations[|registrations| - 1];
      var previous :- Direct(c, registrations[..|registrations| - 1]);
      Install(previous, last.0, last.1)
  }

  /** Helper: a map update is a union with a singleton map. */
  lemma UpdateIsUnion(m: map<string, Callback>, k: string, v: Callback)
    ensures m[k := v] == m + map[k := v]
  {
  }

  /** Registering directly on a subcommand that has every option installs
      every registered option with its last registration. */
  lemma {:induction false} DirectInstalls(c: SubCommand, registrations: seq<(string, Callback)>)
    requires forall i :: 0 <= i < |registrations| ==> registrations[i].0 in OptionNames(c.body)
    ensures Direct(c, registrations).Ok?
    ensures Installed(c, Direct(c, registrations).value, Queue(registrations).values.Keys, Queue(registrations).values)
    decreases |registrations|
  {
    if registrations == [] {
      InstalledNothing(c, map[]);
    } else {
      var init := registrations[..|registrations| - 1];
      var last := registrations[|registrations| - 1];
      assert forall i :: 0 <= i < |init| ==> init[i].0 in OptionNames(c.body) by {
        forall i | 0 <= i < |init| ensures init[i].0 in OptionNames(c.body) {
          assert init[i] == registrations[i];
        }
      }
      DirectInstalls(c, init);
      assert registrations == init + [last];
      DirectStep(c, init, last);
    }
  }

  /** One more direct registration of a known option extends the
      installation by that option. */
  lemma DirectStep(c: SubCommand, init: seq<(string, Callback)>, last: (string, Callback))
    requires Direct(c, init).Ok?
    requires Installed(c, Direct(c, init).value, Queue(init).values.Keys, Queue(init).values)
    requires last.0 in OptionNames(c.body)
    ensures Direct(c, init + [last]).Ok?
    ensures Installed(c, Direct(c, init + [last]).value, Queue(init + [last]).values.Keys, Queue(init + [last]).values)
  {
    var previous := Direct(c, init).value;
    var q := Queue(init);
    var fs := Queue(init + [last]).values;
    assert fs == q.values + map[last.0 := last.1] by {
      DirectUnfold(c, init, last);
      UpdateIsUnion(q.values, last.0, last.1);
    }
    assert last.0 in OptionNames(previous.body) by {
      InstalledNames(c, previous, q.values.Keys, q.values);
    }
    var next := Install(previous, last.0, last.1).value;
    assert Direct(c, init + [last]) == Ok(next) by {
      DirectUnfold(c, init, last);
    }
    assert Installed(c, next, q.values.Keys + {last.0}, fs) by {
      InstallSpec(previous, last.0, last.1);
      InstalledCompose(c, previous, next, q.values.Keys, q.values, {last.0}, map[last.0 := last.1]);
    }
    assert fs.Keys == q.values.Keys + {last.0};
  }

  /** One registration more, on the queue and directly. */
  lemma DirectUnfold(c: SubCommand, init: seq<(string, Callback)>, last: (string, Callback))
    ensures Queue(init + [last]).values == Queue(init).values[last.0 := last.1]
    ensures Direct(c, init).Ok? ==> Direct(c, init + [last]) == Install(Direct(c, init).value, last.0, last.1)
  {
    var registrations := init + [last];
    assert registrations[..|registrations| - 1] == init;
  }

  /** Queuing autocompleters on an unbound placeholder and binding it gives
      the same subcommand as binding first and registering them directly,
      when every registered option exists. */
  lemma QueuedMatchesDirect(c: SubCommand, registrations: seq<(string, Callback)>)
    requires forall i :: 0 <= i < |registrations| ==> registrations[i].0 in OptionNames(c.body)
    ensures Direct(c, registrations).Ok?
    ensures var q := Queue(registrations);
            Replay(c, q, |q.keys|) == (Direct(c, registrations).value, Pass)
  {
    var q := Queue(registrations);
    DirectInstalls(c, registrations);
    ReplayAll(c, q);
    assert q.values.Keys <= OptionNames(c.body) by {
      QueueKeys(registrations, OptionNames(c.body));
    }
    InstalledUnique(c, Replay(c, q, |q.keys|).0, Direct(c, registrations).value, q.values.Keys, q.values);
  }

  /** The queue holds registered options only. */
  lemma {:induction false} QueueKeys(registrations: seq<(string, Callback)>, names: set<string>)
    requires forall i :: 0 <= i < |registrations| ==> registrations[i].0 in names
    ensures Queue(registrations).values.Keys <= names
    decreases |registrations|
  {
    if registrations != [] {
      var init := registrations[..|registrations| - 1];
      assert forall i :: 0 <= i < |init| ==> init[i].0 in names by {
        forall i | 0 <= i < |init| ensures init[i].0 in names {
          assert init[i] == registrations[i];
        }
      }
      QueueKeys(init, names);
    }
  }

  /** The loop of `set_parent`: the queued autocompleters installed in
      queue order, stopping with ValueError at the first unknown option. */
  method InstallQueued(c: SubCommand, queued: OrderedMap<Callback>) returns (r: SubCommand, o: Outcome)
    requires queued.Valid()
    ensures (r, o) == Replay(c, queued, |queued.keys|)
  {
    var i := 0;
    r, o := c, Pass;
    while i < |queued.keys| && o == Pass
      invariant 0 <= i <= |queued.keys|
      invariant Replay(c, queued, i) == (r, o)
    {
      var option := queued.keys[i];
      var installed := Install(r, option, queued.values[option]);
      if installed.Ok? {
        r := installed.value;
      } else {
        o := Fail(installed.error);
      }
      i := i + 1;
    }
    if o.Fail? {
      ReplayStops(c, queued, i, |queued.keys|);
    }
  }

  /** What `set_parent` builds as written: the placeholder's name is not
      among the keyword arguments handed to `parent.sub_command`, so disnake
      names the subcommand after the callback, exactly as if no name had
      been given. */
  function SubCommandAsWritten(func: Callback, parent: string, kwargs: map<string, Value>): (r: SubCommand)
    ensures r == BuildSubCommand(ResolveName(None, func), parent, func, kwargs)
    ensures r.QualifiedName() == parent + " " + func.name
  {
    BuildSubCommand(func.name, parent, func, kwargs)
  }

  /** The same for the group's `set_parent` and `parent.sub_command_group`. */
  function GroupCommandAsWritten(func: Callback, parent: string, kwargs: map<string, Value>): (r: SubCommandGroup)
    ensures r == BuildGroup(ResolveName(None, func), parent, func, kwargs)
    ensures r.QualifiedName() == parent + " " + func.name
  {
    BuildGroup(func.name, parent, func, kwargs)
  }

  /** A placeholder declared with the explicit name "b" for a callback named
      "a" announces the qualified name "top b", while the subcommand built as
      written is "top a"; the subcommand built under the placeholder's own
      name is "top b". The same holds for groups. */
  lemma ExplicitNameCounterexample(func: Callback, kwargs: map<string, Value>)
    requires func.name == "a"
    ensures ResolveName(Some("b"), func) == "b"
    ensures SubCommandAsWritten(func, "top", kwargs).QualifiedName() == "top a"
    ensures BuildSubCommand(ResolveName(Some("b"), func), "top", func, kwargs).QualifiedName() == "top b"
    ensures GroupCommandAsWritten(func, "top", kwargs).QualifiedName() == "top a"
    ensures BuildGroup(ResolveName(Some("b"), func), "top", func, kwargs).QualifiedName() == "top b"
  {
  }

  /** `SubCommandPlaceholder`. `name` is fixed at construction: the
      explicit name, else the callback's `__name__`. */
  class SubCommandPlaceholder {
    const func: Callback
    const parentName: string
    const name: string
    const kwargs: map<string, Value>
    var command: Option<SubCommand>
    var deferred: OrderedMap<Callback>

    ghost predicate Valid()
      reads this`deferred
    {
      deferred.Valid()
    }

    /** `_shared_init`: the parent name is kept stripped. */
    constructor (func: Callback, parentName: string, name: Option<string>, kwargs: map<string, Value>)
      ensures Valid()
      ensures this.func == func && this.parentName == Strip(parentName) && this.kwargs == kwargs
      ensures this.name == ResolveName(name, func)
      ensures command == None && deferred.keys == [] && deferred.values == map[]
    {
      var stripped := Strip(parentName);
      var resolved := ResolveName(name, func);
      this.func := func;
      this.parentName := stripped;
      this.name := resolved;
      this.kwargs := kwargs;
      command := None;
      deferred := Empty();
    }

    /** `qualified_name` */
    function QualifiedName(): string {
      parentName + " " + name
    }

    /** `command`, and every property that goes through it: the built
        subcommand, or RuntimeError while unbound. */
    function Command(): (r: Result<SubCommand>)
      reads this
      ensures r.Ok? <==> command.Some?
      ensures r.Ok? ==> r.value == command.value
      ensures r.Err? ==> r.error == RuntimeError
    {
      if command.Some? then Ok(command.value) else Err(RuntimeError)
    }

    /** What `set_parent(parent)` leaves as the command, and its outcome. */
    function Finalised(parent: string): (SubCommand, Outcome)
      requires Valid()
      reads this`deferred
    {
      Replay(BuildSubCommand(name, parent, func, kwargs), deferred, |deferred.keys|)
    }

    /** `set_parent(parent)`, `parent` being the parent's qualified name:
        builds the subcommand (bound from then on, whatever follows), then
        installs the queued autocompleters in queue order, raising
        ValueError at the first option the subcommand does not have. */
    method SetParent(parent: string) returns (o: Outcome)
      requires Valid()
      modifies this`command
      ensures command.Some? && (command.value, o) == Finalised(parent)
      ensures command.value.QualifiedName() == parent + " " + name
    {
      var built := BuildSubCommand(name, parent, func, kwargs);
      command := Some(built);
      if deferred.keys == [] {
        return Pass;
      }
      var current;
      current, o := InstallQueued(built, deferred);
      command := Some(current);
    }

    /** `autocomplete(option)(f)`: while unbound, queues `f` under the
        option (replacing an earlier one) and returns it; once bound,
        installs it on the subcommand at once, or raises ValueError for an
        unknown option. */
    method Autocomplete(option: string, f: Callback) returns (r: Result<Callback>)
      requires Valid()
      modifies this
      ensures Valid()
      ensures old(command).None? ==> r == Ok(f) && command == None && deferred == old(deferred).Put(option, f)
      ensures old(command).Some? ==> deferred == old(deferred)
      ensures old(command).Some? ==> (r.Ok? <==> option in OptionNames(old(command).value.body))
      ensures old(command).Some? && r.Ok? ==> r == Ok(f) && command == Some(Install(old(command).value, option, f).value)
      ensures old(command).Some? && r.Err? ==> r == Err(ValueError) && command == old(command)
    {
      if command.Some? {
        var installed := Install(command.value, option, f);
        if installed.Ok? {
          command := Some(installed.value);
          r := Ok(f);
        } else {
          r := Err(ValueError);
        }
      } else {
        deferred := deferred.Put(option, f);
        r := Ok(f);
      }
    }
  }

  ghost predicate AllValid(cs: seq<SubCommandPlaceholder>)
    reads cs`deferred
  {
    forall i :: 0 <= i < |cs| ==> cs[i].Valid()
  }

  /** The loop of the group's `set_parent`: binds each placeholder under
      `group` in order and stops at the first one that raises. */
  method BindAll(cs: seq<SubCommandPlaceholder>, group: string) returns (o: Outcome, ghost k: nat)
    requires (forall i, j :: 0 <= i < j < |cs| ==> cs[i] != cs[j]) && AllValid(cs)
    modifies cs`command
    ensures k <= |cs|
    ensures forall j :: 0 <= j < k ==> cs[j].Finalised(group).1 == Pass
    ensures o == if k < |cs| then cs[k].Finalised(group).1 else Pass
    ensures k < |cs| ==> o.Fail?
    ensures forall j :: 0 <= j < |cs| && j <= k ==> cs[j].command == Some(cs[j].Finalised(group).0)
    ensures forall j :: k < j < |cs| ==> cs[j].command == old(cs[j].command)
  {
    var i := 0;
    while i < |cs|
      invariant 0 <= i <= |cs|
      invariant forall j :: 0 <= j < i ==> cs[j].Finalised(group).1 == Pass && cs[j].command == Some(cs[j].Finalised(group).0)
      invariant forall j :: i <= j < |cs| ==> cs[j].command == old(cs[j].command)
    {
      o := cs[i].SetParent(group);
      if o.Fail? {
        k := i;
        return;
      }
      i := i + 1;
    }
    o, k := Pass, |cs|;
  }

  /** `SubCommandGroupPlaceholder`: a group whose subcommands are
      placeholders of their own, bound when the group is. */
  class SubCommandGroupPlaceholder {
    const func: Callback
    const parentName: string
    const name: string
    const kwargs: map<string, Value>
    var command: Option<SubCommandGroup>
    var children: seq<SubCommandPlaceholder>

    /** The subcommand placeholders are distinct and each well formed. */
    ghost predicate Valid()
      reads this, children
    {
      && (forall i, j :: 0 <= i < j < |children| ==> children[i] != children[j])
      && AllValid(children)
    }

    constructor (func: Callback, parentName: string, name: Option<string>, kwargs: map<string, Value>)
      ensures Valid()
      ensures this.func == func && this.parentName == Strip(parentName) && this.kwargs == kwargs
      ensures this.name == ResolveName(name, func)
      ensures command == None && children == []
    {
      var stripped := Strip(parentName);
      var resolved := ResolveName(name, func);
      this.func := func;
      this.parentName := stripped;
      this.name := resolved;
      this.kwargs := kwargs;
      command := None;
      children := [];
    }

    /** `qualified_name` */
    function QualifiedName(): string {
      parentName + " " + name
    }

    /** `command`: the built group, or RuntimeError while unbound. */
    function Command(): (r: Result<SubCommandGroup>)
      reads this
      ensures r.Ok? <==> command.Some?
      ensures r.Ok? ==> r.value == command.value
      ensures r.Err? ==> r.error == RuntimeError
    {
      if command.Some? then Ok(command.value) else Err(RuntimeError)
    }

    /** `set_parent(parent)`: builds the group under the top-level command
        `parent`, then binds the subcommand placeholders under the group in
        order, the first one that raises ending the walk with its error.
        `k` is the index of that placeholder, or the count when none raised. */
    method SetParent(parent: string) returns (o: Outcome, ghost k: nat)
      requires Valid()
      modifies this`command, children`command
      ensures Valid()
      ensures command == Some(BuildGroup(name, parent, func, kwargs))
      ensures k <= |children|
      ensures forall j :: 0 <= j < k ==> children[j].Finalised(parent + " " + name).1 == Pass
      ensures o == if k < |children| then children[k].Finalised(parent + " " + name).1 else Pass
      ensures k < |children| ==> o.Fail?
      ensures forall j :: 0 <= j < |children| && j <= k ==>
                children[j].command == Some(children[j].Finalised(parent + " " + name).0)
      ensures forall j :: k < j < |children| ==> children[j].command == old(children[j].command)
    {
      command := Some(BuildGroup(name, parent, func, kwargs));
      o, k := BindAll(children, parent + " " + name);
    }

    /** `sub_command(...)(func)`: a new subcommand placeholder under this
        group, appended to its subcommands and, when the group is already
        bound, bound under it at once. */
    method SubCommand(subName: Option<string>, subKwargs: map<string, Value>, subFunc: Callback)
      returns (p: SubCommandPlaceholder)
      requires Valid()
      modifies this
      ensures Valid() && command == old(command)
      ensures fresh(p) && children == old(children) + [p]
      ensures p.func == subFunc && p.kwargs == subKwargs && p.name == ResolveName(subName, subFunc)
      ensures p.parentName == Strip(QualifiedName()) && p.deferred.keys == []
      ensures command.None? ==> p.command == None
      ensures command.Some? ==> p.command == Some(BuildSubCommand(p.name, command.value.QualifiedName(), subFunc, subKwargs))
    {
      p := new SubCommandPlaceholder(subFunc, QualifiedName(), subName, subKwargs);
      children := children + [p];
      if command.Some? {
        var o := p.SetParent(command.value.QualifiedName());
      }
    }
  }
}
