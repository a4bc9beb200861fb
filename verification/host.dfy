/** The host bot as the plugin sees it. The bot's own command tables,
    listener dispatch and task scheduling belong to disnake; the model keeps
    the calls a plugin makes on it, in order, as an append-only trace. */
module Host {
  import opened Common
  import opened Entities

  datatype Direction = Register | Unregister

  datatype HookStage = PreLoad | PostLoad | PreUnload | PostUnload

  datatype HostEvent =
    /** One `asyncio.gather` over a stage's hooks: they run concurrently, so
        only the collection of hooks is fixed, not their order. */
    | RunHooks(stage: HookStage, batch: multiset<Callback>)
    /** `bot.add_<kind>_command(command)` / `bot.remove_<kind>_command(name)` */
    | CommandCall(dir: Direction, kind: CommandKind, name: string)
    /** `bot.add_listener(callback, event)` / `bot.remove_listener(callback, event)` */
    | ListenerCall(dir: Direction, callback: Callback, event: string)
    /** `loop.start()` / `loop.cancel()` */
    | LoopCall(dir: Direction, loop: Loop)
    /** `bot._schedule_delayed_command_sync()` */
    | DelayedSync

  /** The same call in the opposite direction. */
  function Flip(e: HostEvent): HostEvent {
    match e
    case CommandCall(dir, kind, name) => CommandCall(Opposite(dir), kind, name)
    case ListenerCall(dir, callback, event) => ListenerCall(Opposite(dir), callback, event)
    case LoopCall(dir, loop) => LoopCall(Opposite(dir), loop)
    case _ => e
  }

  function Opposite(dir: Direction): Direction {
    if dir == Register then Unregister else Register
  }

  function FlipAll(es: seq<HostEvent>): (r: seq<HostEvent>)
    ensures |r| == |es| && forall i :: 0 <= i < |es| ==> r[i] == Flip(es[i])
  {
    if es == [] then [] else FlipAll(es[..|es| - 1]) + [Flip(es[|es| - 1])]
  }

  lemma FlipAllConcat(a: seq<HostEvent>, b: seq<HostEvent>)
    ensures FlipAll(a + b) == FlipAll(a) + FlipAll(b)
  {
  }

  /** A bot. `isBotBase` says whether it supports prefix commands
      (`commands.BotBase`) or is an interaction-only bot. */
  class Bot {
    const isBotBase: bool
    var trace: seq<HostEvent>

    constructor (isBotBase: bool)
      ensures this.isBotBase == isBotBase && trace == []
    {
      this.isBotBase := isBotBase;
      trace := [];
    }

    method Record(e: HostEvent)
      modifies this
      ensures trace == old(trace) + [e]
    {
      trace := trace + [e];
    }
  }
}
