/**
 * The flag-driven state machine shared by the plants' `StateManager` classes
 * (src/filter_plant/statemanager.py and the copy in src/hydrogen_cell/run.py). A
 * plant waits for its power, its input resource (the "dependency") and, in the
 * filter plant's version, the tick; processing may start only when the state says
 * ready, and completing it resets everything for the next tick. `tickGated` selects
 * the version: true for the filter plant, false for the hydrogen cell.
 */
module PlantState {

  datatype Phase = WaitingForPower | WaitingForDependency | WaitingForTick | ReadyToProcess | Processing | Done

  datatype Flags = Flags(power: bool, dependency: bool, tick: bool)

  datatype Signal = Power | Dependency | Tick

  /** The observable part of a state manager. */
  datatype Machine = Machine(phase: Phase, flags: Flags)

  const NO_FLAGS: Flags := Flags(false, false, false)

  /** The state after construction and after every completed tick. */
  const INITIAL: Machine := Machine(WaitingForPower, NO_FLAGS)

  /** `_update_state`: the phase the flags call for. */
  function PhaseOf(f: Flags, tickGated: bool): (p: Phase)
    ensures p != Processing && p != Done
    ensures p == ReadyToProcess <==> Complete(f, tickGated)
  {
    if f.power && f.dependency then
      (if !tickGated || f.tick then ReadyToProcess else WaitingForTick)
    else if f.power then WaitingForDependency
    else WaitingForPower
  }

  /** The flags that let processing start. */
  predicate Complete(f: Flags, tickGated: bool)
  {
    f.power && f.dependency && (!tickGated || f.tick)
  }

  function Raise(f: Flags, s: Signal): Flags
  {
    match s
      case Power => f.(power := true)
      case Dependency => f.(dependency := true)
      case Tick => f.(tick := true)
  }

  /** `receive_power` / `receive_dependency` / `receive_tick`: set the flag, then recompute the phase. */
  function Receive(m: Machine, s: Signal, tickGated: bool): (r: Machine)
    ensures Consistent(r, tickGated) && r.phase != Processing
  {
    var f := Raise(m.flags, s);
    Machine(PhaseOf(f, tickGated), f)
  }

  /** The receives of `signals`, in order. */
  function ReceiveAll(m: Machine, signals: seq<Signal>, tickGated: bool): Machine
  {
    if signals == [] then m else Receive(ReceiveAll(m, signals[..|signals| - 1], tickGated), signals[|signals| - 1], tickGated)
  }

  predicate CanStart(m: Machine)
  {
    m.phase == ReadyToProcess
  }

  /** `start_processing`. */
  function Start(m: Machine): (r: Machine)
    ensures r.flags == m.flags
    ensures r != m <==> CanStart(m)
  {
    if CanStart(m) then m.(phase := Processing) else m
  }

  /** `complete_processing`: from `PROCESSING` through `DONE` straight into the reset. */
  function Finish(m: Machine): (r: Machine)
    ensures r.phase != Processing
    ensures r == m || r == INITIAL
  {
    if m.phase == Processing then INITIAL else m
  }

  /** The states a manager can be seen in between calls. */
  ghost predicate Consistent(m: Machine, tickGated: bool)
  {
    && m.phase != Done
    && (m.phase == Processing ==> Complete(m.flags, tickGated))
    && (m.phase != Processing ==> m.phase == PhaseOf(m.flags, tickGated))
  }

  // ---------------------------------------------------------------------------
  // Properties.
  // ---------------------------------------------------------------------------

  /** The phase after a receive is decided by the flags alone, case by case. */
  lemma PhaseOfCases(f: Flags, tickGated: bool)
    ensures PhaseOf(f, tickGated) == ReadyToProcess <==> Complete(f, tickGated)
    ensures PhaseOf(f, tickGated) == WaitingForTick <==> tickGated && f.power && f.dependency && !f.tick
    ensures PhaseOf(f, tickGated) == WaitingForDependency <==> f.power && !f.dependency
    ensures PhaseOf(f, tickGated) == WaitingForPower <==> !f.power
  {
  }

  /** Every reachable state is consistent: receives, starts and completions keep it so. */
  lemma StepsStayConsistent(m: Machine, s: Signal, tickGated: bool)
    requires Consistent(m, tickGated)
    ensures Consistent(Receive(m, s, tickGated), tickGated)
    ensures Consistent(Start(m), tickGated)
    ensures Consistent(Finish(m), tickGated)
  {
  }

  /** Receiving the same signal twice is the same as receiving it once. */
  lemma ReceiveIdempotent(m: Machine, s: Signal, tickGated: bool)
    ensures Receive(Receive(m, s, tickGated), s, tickGated) == Receive(m, s, tickGated)
  {
  }

  /** Two receives commute. */
  lemma ReceiveCommutes(m: Machine, a: Signal, b: Signal, tickGated: bool)
    ensures Receive(Receive(m, a, tickGated), b, tickGated) == Receive(Receive(m, b, tickGated), a, tickGated)
  {
  }

  function RaiseSet(f: Flags, signals: set<Signal>): Flags
  {
    Flags(f.power || Power in signals, f.dependency || Dependency in signals, f.tick || Tick in signals)
  }

  /** A run of receives raises exactly the flags of the signals it contains. */
  lemma {:induction false} ReceiveAllFlags(m: Machine, signals: seq<Signal>, tickGated: bool)
    ensures ReceiveAll(m, signals, tickGated).flags == RaiseSet(m.flags, set s | s in signals)
    ensures signals != [] ==> ReceiveAll(m, signals, tickGated).phase == PhaseOf(ReceiveAll(m, signals, tickGated).flags, tickGated)
  {
    if signals != [] {
      var init := signals[..|signals| - 1];
      ReceiveAllFlags(m, init, tickGated);
      assert (set s | s in signals) == (set s | s in init) + {signals[|signals| - 1]};
    }
  }

  /** Any two non-empty runs of receives with the same signals, in any order and with repeats, end in the same state. */
  lemma ReceiveOrderIrrelevant(m: Machine, a: seq<Signal>, b: seq<Signal>, tickGated: bool)
    requires a != [] && b != []
    requires forall s :: s in a <==> s in b
    ensures ReceiveAll(m, a, tickGated) == ReceiveAll(m, b, tickGated)
  {
    ReceiveAllFlags(m, a, tickGated);
    ReceiveAllFlags(m, b, tickGated);
    assert (set s | s in a) == (set s | s in b);
  }

  /** Processing starts only from the ready state, and a second start without a receive in between fails. */
  lemma StartGuarded(m: Machine)
    ensures CanStart(m) ==> Start(m) == m.(phase := Processing)
    ensures !CanStart(m) ==> Start(m) == m
    ensures !CanStart(Start(m))
  {
  }

  /** Completing a started tick clears every flag; completing anything else changes nothing. */
  lemma FinishResets(m: Machine, tickGated: bool)
    ensures CanStart(m) ==> Finish(Start(m)) == INITIAL
    ensures m.phase != Processing ==> Finish(m) == m
    ensures Finish(Finish(m)) == Finish(m)
  {
  }

  /**
   * A receive while processing recomputes the phase from the flags, which are all
   * set, so the state falls back to ready and processing can start a second time.
   */
  lemma ReceiveDuringProcessingReopens(m: Machine, s: Signal, tickGated: bool)
    requires Consistent(m, tickGated) && m.phase == Processing
    ensures Receive(m, s, tickGated).phase == ReadyToProcess
    ensures CanStart(Receive(m, s, tickGated))
  {
  }

  /** From the initial state, power, dependency and (when gated) tick, in any order, make the plant ready. */
  lemma AllSignalsMakeReady(signals: seq<Signal>, tickGated: bool)
    requires Power in signals && Dependency in signals && (tickGated ==> Tick in signals)
    ensures CanStart(ReceiveAll(INITIAL, signals, tickGated))
  {
    ReceiveAllFlags(INITIAL, signals, tickGated);
  }

  /** Without the tick gate, a tick sets its flag and leaves the phase of a consistent waiting state alone. */
  lemma UngatedTickKeepsPhase(m: Machine)
    requires Consistent(m, false) && m.phase != Processing
    ensures Receive(m, Tick, false).phase == m.phase
    ensures Receive(m, Tick, false).flags == m.flags.(tick := true)
  {
  }
}
