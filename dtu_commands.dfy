/**
 * The UI commands the DTU screens queue between their input callbacks and
 * their update. The command header is not part of this model, so the
 * commands are named and any other code is kept as it is.
 */
module DtuCommands {
  import opened Machine

  datatype Command = Idle | EmpathyUp | EmpathyDown | UiRefresh | OtherCommand(code: u32)

  /** The command update acts on: the front one, or idle for an empty
      queue. */
  function Front(q: seq<Command>): (c: Command)
    ensures |q| == 0 ==> c == Idle
    ensures |q| > 0 ==> c == q[0]
  {
    if |q| == 0 then Idle else q[0]
  }

  /** Every queued command is an empathy command. */
  predicate OnlyEmpathy(q: seq<Command>)
  {
    forall k :: 0 <= k < |q| ==> q[k] == EmpathyUp || q[k] == EmpathyDown
  }
}
