/** The world outside the backends: the native modules, the timer and the process launcher.
    Every call a backend makes is recorded, in order, in the host's trace. What a call
    returns is chosen by the host; the outcomes of the native calls are recorded, in
    order, in `replies`. */
module Environment {
  import opened BackendTypes

  /** What a native call did: it returned, or it threw an Error with a message. */
  datatype NativeOutcome = Returned | Threw(message: string)

  /** How a launched command ended: a launch failure or non-zero exit, or standard
      output together with its JSON parse (None when the output is not valid JSON). */
  datatype ExecOutcome = ExecFailed(message: string) | ExecOutput(parsed: Option<Json>)

  /** One observable interaction with the host. */
  datatype Effect =
    | Wait(ms: int)                                // setTimeout(resolve, ms) awaited
    | Key(code: int, down: bool)                   // native.simulateKey(code, down)
    | PointerMotion(dx: int, dy: int)              // native.movePointer(dx, dy)
    | Bind(shortcut: Shortcut)                     // native.bindShortcut(shortcut)
    | Unbind(shortcut: Shortcut)                   // native.unbindShortcut(shortcut)
    | UnbindAll                                    // native.unbindAllShortcuts()
    | Exec(command: string, outcome: ExecOutcome)  // child_process.exec(command, ...)

  class Host {
    var trace: seq<Effect>
    /** What each native call returned or threw, in call order. */
    ghost var replies: seq<NativeOutcome>

    constructor ()
      ensures trace == [] && replies == []
    {
      trace := [];
      replies := [];
    }

    method Sleep(ms: int)
      modifies this
      ensures trace == old(trace) + [Wait(ms)]
      ensures replies == old(replies)
    {
      trace := trace + [Wait(ms)];
    }

    method SimulateKey(code: int, down: bool) returns (outcome: NativeOutcome)
      modifies this
      ensures trace == old(trace) + [Key(code, down)]
      ensures replies == old(replies) + [outcome]
    {
      trace := trace + [Key(code, down)];
      outcome := *;
      replies := replies + [outcome];
    }

    method MovePointer(dx: int, dy: int) returns (outcome: NativeOutcome)
      modifies this
      ensures trace == old(trace) + [PointerMotion(dx, dy)]
      ensures replies == old(replies) + [outcome]
    {
      trace := trace + [PointerMotion(dx, dy)];
      outcome := *;
      replies := replies + [outcome];
    }

    method BindShortcut(shortcut: Shortcut) returns (outcome: NativeOutcome)
      modifies this
      ensures trace == old(trace) + [Bind(shortcut)]
      ensures replies == old(replies) + [outcome]
    {
      trace := trace + [Bind(shortcut)];
      outcome := *;
      replies := replies + [outcome];
    }

    method UnbindShortcut(shortcut: Shortcut) returns (outcome: NativeOutcome)
      modifies this
      ensures trace == old(trace) + [Unbind(shortcut)]
      ensures replies == old(replies) + [outcome]
    {
      trace := trace + [Unbind(shortcut)];
      outcome := *;
      replies := replies + [outcome];
    }

    method UnbindAllShortcuts() returns (outcome: NativeOutcome)
      modifies this
      ensures trace == old(trace) + [UnbindAll]
      ensures replies == old(replies) + [outcome]
    {
      trace := trace + [UnbindAll];
      outcome := *;
      replies := replies + [outcome];
    }

    method Run(command: string) returns (outcome: ExecOutcome)
      modifies this
      ensures trace == old(trace) + [Exec(command, outcome)]
      ensures replies == old(replies)
    {
      outcome := *;
      trace := trace + [Exec(command, outcome)];
    }
  }
}
