/**
 * The game states of the DTU module and the errors its state routines
 * report, shared by the state machine and the module's entry points.
 */
module DtuStates {
  datatype State = NoState | ExitGame | MainMenu | NewGame | Count

  /** `normal_exit` asks the host to stop; any other error is carried by
      its code, which the error header fixes and this model does not. */
  datatype Error = NormalExit | Failure(code: int)

  /** One call of a state's load or unload routine, in the order made. */
  datatype Call = Load(loaded: State) | Unload(unloaded: State)

  /** The two-slot machine: `a` is the state running, `b` the one pushed
      to replace it, and `calls` the load and unload routines run so far. */
  datatype StateSlots = StateSlots(a: State, b: State, calls: seq<Call>)

  /** The state of the last load in `calls`, if any. */
  function LastLoaded(calls: seq<Call>): (r: State)
    decreases |calls|
  {
    if |calls| == 0 then NoState
    else if calls[|calls| - 1].Load? then calls[|calls| - 1].loaded
    else LastLoaded(calls[..|calls| - 1])
  }

  /** The running state is the last one loaded, and nothing is loaded
      while none runs. */
  predicate Inv(m: StateSlots)
  {
    m.a == LastLoaded(m.calls)
  }

  lemma LastLoadedAppend(calls: seq<Call>, c: Call)
    ensures LastLoaded(calls + [c]) == if c.Load? then c.loaded else LastLoaded(calls)
  {
    assert (calls + [c])[..|calls + [c]| - 1] == calls;
  }
}
