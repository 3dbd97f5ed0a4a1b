/** The replicated state machine: what one command does to the store. */
module StateMachine {
  import opened Types

  datatype Applied = Applied(store: Store, ok: bool)

  /** A missing key reads as the nil value, so a CAS against an empty value creates it. */
  function Read(s: Store, key: string): Bytes {
    if key in s then s[key] else []
  }

  function ApplyCommand(s: Store, c: Command): Applied {
    match c.op
    case Noop => Applied(s, true)
    case Put => Applied(s[c.key := c.value], true)
    case Delete => Applied(s - {c.key}, true)
    case Cas =>
      if Read(s, c.key) == c.prevValue then Applied(s[c.key := c.value], true) else Applied(s, false)
    case Unknown => Applied(s, false)
  }

  /** The store after the commands of `xs`, in order, starting from `s`. */
  function Fold(s: Store, xs: seq<LogEntry>): Store {
    if xs == [] then s else ApplyCommand(Fold(s, xs[..|xs| - 1]), xs[|xs| - 1].command).store
  }
}
