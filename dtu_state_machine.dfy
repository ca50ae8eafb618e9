/**
 * The DTU state machine of state_machine.cpp: a running state A and a
 * pending state B, a transition that unloads A and loads B, and the
 * per-state load, unload and update routines. Only the main menu has
 * routines of its own; what they return is an input to this model.
 */
module DtuStateMachine {
  import opened Wrappers
  import opened DtuStates

  /** What the main menu's load, unload and update routines return. */
  datatype MenuOutcomes = MenuOutcomes(load: Option<Error>, unload: Option<Error>, update: Option<Error>)

  /** push: B becomes `s`; a B already set is overwritten, with a warning. */
  function Push(m: StateSlots, s: State): (r: (StateSlots, bool))
    ensures r.0.a == m.a && r.0.b == s && r.0.calls == m.calls
    ensures r.1 <==> m.b != NoState
  {
    (m.(b := s), m.b != NoState)
  }

  /** The result of load_a or unload_a for state `s`: the main menu's own,
      and no error for every other state. */
  function RoutineResult(s: State, menu: Option<Error>): (r: Option<Error>)
    ensures s != MainMenu ==> r == None
    ensures s == MainMenu ==> r == menu
  {
    if s == MainMenu then menu else None
  }

  function LoadA(m: StateSlots, out: MenuOutcomes): (r: (StateSlots, Option<Error>))
  {
    (m.(calls := m.calls + [Load(m.a)]), RoutineResult(m.a, out.load))
  }

  function UnloadA(m: StateSlots, out: MenuOutcomes): (r: (StateSlots, Option<Error>))
  {
    (m.(calls := m.calls + [Unload(m.a)]), RoutineResult(m.a, out.unload))
  }

  /** transition: nothing without B; B into A and load it when A is empty;
      when both are set, unload A first and stop at its error. */
  function Transition(m: StateSlots, out: MenuOutcomes): (r: (StateSlots, Option<Error>))
  {
    if m.b == NoState then (m, None)
    else if m.a == NoState then LoadA(m.(a := m.b, b := NoState), out)
    else
      var (u, err) := UnloadA(m, out);
      if err.Some? then (u, err) else LoadA(u.(a := m.b, b := NoState), out)
  }

  /** destroy: unload A. */
  function Destroy(m: StateSlots, out: MenuOutcomes): (r: (StateSlots, Option<Error>))
  {
    UnloadA(m, out)
  }

  /** update: the main menu's update, `normal_exit` in exit_game, and no
      error in every other state. */
  function Update(m: StateSlots, out: MenuOutcomes): (r: Option<Error>)
    ensures m.a == ExitGame ==> r == Some(NormalExit)
    ensures m.a != ExitGame && m.a != MainMenu ==> r == None
  {
    match m.a
    case MainMenu => out.update
    case ExitGame => Some(NormalExit)
    case _ => None
  }

  /** With B empty a transition changes nothing and reports nothing. */
  lemma TransitionWithoutPending(m: StateSlots, out: MenuOutcomes)
    requires m.b == NoState
    ensures Transition(m, out) == (m, None)
  {
  }

  /** With B set and A empty, or A unloaded cleanly, B moves into A, B
      empties, and A's load runs last; a running A was unloaded just
      before. The result is the load's. */
  lemma TransitionMovesPending(m: StateSlots, out: MenuOutcomes)
    requires m.b != NoState
    requires m.a == NoState || RoutineResult(m.a, out.unload).None?
    ensures var (n, err) := Transition(m, out);
      && n.a == m.b && n.b == NoState
      && n.calls == m.calls + (if m.a == NoState then [] else [Unload(m.a)]) + [Load(m.b)]
      && err == RoutineResult(m.b, out.load)
  {
    if m.a != NoState {
      assert m.calls + [Unload(m.a)] + [Load(m.b)]
        == m.calls + (if m.a == NoState then [] else [Unload(m.a)]) + [Load(m.b)];
    }
  }

  /** When A's unload fails, A and B stay as they were, no load runs, and
      the unload's error is returned. */
  lemma TransitionStopsAtUnloadError(m: StateSlots, out: MenuOutcomes)
    requires m.a != NoState && m.b != NoState && RoutineResult(m.a, out.unload).Some?
    ensures var (n, err) := Transition(m, out);
      && n.a == m.a && n.b == m.b && n.calls == m.calls + [Unload(m.a)]
      && err == out.unload && m.a == MainMenu
  {
  }

  /** A transition that reports no error leaves B empty, so the next one
      does nothing. */
  lemma TransitionSettles(m: StateSlots, out: MenuOutcomes, next: MenuOutcomes)
    requires Transition(m, out).1.None?
    ensures Transition(m, out).0.b == NoState
    ensures Transition(Transition(m, out).0, next) == (Transition(m, out).0, None)
  {
  }

  /** Transitions keep the running state equal to the last state loaded. */
  lemma TransitionKeepsInv(m: StateSlots, out: MenuOutcomes)
    requires Inv(m)
    ensures Inv(Transition(m, out).0)
  {
    if m.b != NoState {
      LastLoadedAppend(m.calls, Unload(m.a));
      LastLoadedAppend(m.calls, Load(m.b));
      LastLoadedAppend(m.calls + [Unload(m.a)], Load(m.b));
    }
  }

}

/** The machine as an object with the two state slots and the record of
    routines run, each method proved against its function in
    DtuStateMachine. */
module DtuStateMachineObject {
  import opened Wrappers
  import opened DtuStates
  import DtuStateMachine

  class StateMachine {
    var a: State
    var b: State
    var calls: seq<Call>

    function Model(): StateSlots
      reads this
    {
      StateSlots(a, b, calls)
    }

    constructor ()
      ensures Model() == StateSlots(NoState, NoState, []) && Inv(Model())
    {
      a := NoState;
      b := NoState;
      calls := [];
    }

    method Push(s: State) returns (warned: bool)
      modifies this
      ensures (Model(), warned) == DtuStateMachine.Push(old(Model()), s)
    {
      warned := b != NoState;
      b := s;
    }

    method LoadA(out: DtuStateMachine.MenuOutcomes) returns (err: Option<Error>)
      modifies this
      ensures (Model(), err) == DtuStateMachine.LoadA(old(Model()), out)
    {
      calls := calls + [Load(a)];
      err := if a == MainMenu then out.load else None;
    }

    method UnloadA(out: DtuStateMachine.MenuOutcomes) returns (err: Option<Error>)
      modifies this
      ensures (Model(), err) == DtuStateMachine.UnloadA(old(Model()), out)
    {
      calls := calls + [Unload(a)];
      err := if a == MainMenu then out.unload else None;
    }

    method Transition(out: DtuStateMachine.MenuOutcomes) returns (err: Option<Error>)
      modifies this
      ensures (Model(), err) == DtuStateMachine.Transition(old(Model()), out)
      ensures Inv(old(Model())) ==> Inv(Model())
    {
      if Inv(Model()) {
        DtuStateMachine.TransitionKeepsInv(Model(), out);
      }
      err := None;
      if b == NoState {
        return;
      } else if a == NoState {
        a := b;
        b := NoState;
        err := LoadA(out);
      } else {
        err := UnloadA(out);
        if err.None? {
          a := b;
          b := NoState;
          err := LoadA(out);
        }
      }
    }

    method Destroy(out: DtuStateMachine.MenuOutcomes) returns (err: Option<Error>)
      modifies this
      ensures (Model(), err) == DtuStateMachine.Destroy(old(Model()), out)
    {
      err := UnloadA(out);
    }

    method Update(out: DtuStateMachine.MenuOutcomes) returns (err: Option<Error>)
      ensures err == DtuStateMachine.Update(Model(), out)
    {
      match a
      case MainMenu => err := out.update;
      case ExitGame => err := Some(NormalExit);
      case _ => err := None;
    }
  }
}
