/**
 * The warning engine of taro (taro/jobs/warning.py): an elapsed-time watchdog
 * registered as a state observer, and an output matcher registered as an
 * output observer. Both add warnings to the job instance they watch.
 */
module Warning {
  import opened Wrappers
  import opened Execution
  import opened Job

  const ExceededSec := "exceeded_sec"
  const MatchesKey := "matches"

  // ---------------------------------------------------------------------------
  // The elapsed-time watchdog
  // ---------------------------------------------------------------------------

  /**
   * The watchdog's `timer` field: unset, started and not yet run out, run out
   * (its check has run), or cancelled before running out.
   */
  datatype Timer = NoTimer | LiveTimer | FiredTimer | CancelledTimer

  /**
   * What the watchdog sees: a state update with the snapshot's state, or its
   * timer running out while the instance is in `current`.
   */
  datatype WatchEvent = StateUpdate(state: ExecutionState) | TimerRunsOut(current: ExecutionState)

  /** The effect of one event: the new timer, whether a warning is added, whether the assertion failed. */
  datatype Step = Step(timer: Timer, warns: bool, assertionFailed: bool)

  /**
   * `state_update` and the timer thread. An EXECUTING update asserts that no
   * timer was ever set and starts one; a TERMINAL update cancels the timer if
   * there is one; any other update changes nothing. A timer that runs out adds
   * a warning unless the instance is already terminal. A cancelled timer never
   * runs out.
   */
  function WatchStep(t: Timer, e: WatchEvent): (r: Step)
    ensures r.warns ==> t == LiveTimer && e.TimerRunsOut? && !IsTerminal(e.current)
    ensures r.assertionFailed <==> e.StateUpdate? && IsExecuting(e.state) && t != NoTimer
    ensures r.timer == NoTimer ==> t == NoTimer
    ensures r.timer == LiveTimer ==> t == LiveTimer || t == NoTimer
    ensures e.TimerRunsOut? && t == LiveTimer ==> r.timer == FiredTimer && (r.warns <==> !IsTerminal(e.current))
    ensures e.TimerRunsOut? && t != LiveTimer ==> r == Step(t, false, false)
    ensures e.StateUpdate? && IsExecuting(e.state) && t == NoTimer ==> r == Step(LiveTimer, false, false)
    ensures e.StateUpdate? && IsExecuting(e.state) && t != NoTimer ==> r == Step(t, false, true)
    ensures e.StateUpdate? && IsTerminal(e.state) ==> r == Step(if t == LiveTimer then CancelledTimer else t, false, false)
    ensures e.StateUpdate? && !IsExecuting(e.state) && !IsTerminal(e.state) ==> r == Step(t, false, false)
  {
    match e
    case StateUpdate(s) =>
      if IsExecuting(s) then
        if t == NoTimer then Step(LiveTimer, false, false) else Step(t, false, true)
      else if IsTerminal(s) && t != NoTimer then
        Step(if t == LiveTimer then CancelledTimer else t, false, false)
      else
        Step(t, false, false)
    case TimerRunsOut(current) =>
      if t == LiveTimer then Step(FiredTimer, !IsTerminal(current), false) else Step(t, false, false)
  }

  /** The timer after a sequence of events. */
  function RunTimer(t: Timer, events: seq<WatchEvent>): Timer
    decreases |events|
  {
    if events == [] then t else RunTimer(WatchStep(t, events[0]).timer, events[1..])
  }

  /** How many warnings a sequence of events adds. */
  function WarningsAdded(t: Timer, events: seq<WatchEvent>): nat
    decreases |events|
  {
    if events == [] then 0
    else (if WatchStep(t, events[0]).warns then 1 else 0) + WarningsAdded(WatchStep(t, events[0]).timer, events[1..])
  }

  /** How many warnings a timer can still produce. */
  function Budget(t: Timer): nat
  {
    if t == NoTimer || t == LiveTimer then 1 else 0
  }

  /** Whatever the events, a watchdog adds at most one warning. */
  lemma {:induction false} AtMostOneWarning(t: Timer, events: seq<WatchEvent>)
    ensures WarningsAdded(t, events) <= Budget(t)
    decreases |events|
  {
    if events != [] {
      AtMostOneWarning(WatchStep(t, events[0]).timer, events[1..]);
    }
  }

  /** Once set, the timer is never unset. */
  lemma {:induction false} TimerNeverResets(t: Timer, events: seq<WatchEvent>)
    requires t != NoTimer
    ensures RunTimer(t, events) != NoTimer
    decreases |events|
  {
    if events != [] {
      TimerNeverResets(WatchStep(t, events[0]).timer, events[1..]);
    }
  }

  /**
   * So a second EXECUTING update, after any events at all (a cancel
   * included), fails the assertion.
   */
  lemma SecondExecutingFails(first: ExecutionState, between: seq<WatchEvent>, second: ExecutionState)
    requires IsExecuting(first) && IsExecuting(second)
    ensures WatchStep(RunTimer(NoTimer, [StateUpdate(first)] + between), StateUpdate(second)).assertionFailed
  {
    var events := [StateUpdate(first)] + between;
    assert events[1..] == between;
    TimerNeverResets(LiveTimer, between);
  }

  /** A timer cancelled by a terminal update adds no warning afterwards. */
  lemma {:induction false} CancelledAddsNothing(events: seq<WatchEvent>)
    ensures WarningsAdded(CancelledTimer, events) == 0
  {
    AtMostOneWarning(CancelledTimer, events);
  }

  /**
   * An instance that runs out its time while still executing gets exactly one
   * warning; one that reaches a terminal state first gets none.
   */
  lemma WatchdogScenarios(running: ExecutionState, terminal: ExecutionState, rest: seq<WatchEvent>)
    requires IsExecuting(running) && IsTerminal(terminal)
    ensures WarningsAdded(NoTimer, [StateUpdate(running), TimerRunsOut(running)] + rest) == 1
    ensures WarningsAdded(NoTimer, [StateUpdate(running), StateUpdate(terminal)] + rest) == 0
  {
    var late := [StateUpdate(running), TimerRunsOut(running)] + rest;
    assert late[1..][1..] == rest;
    AtMostOneWarning(FiredTimer, rest);
    var early := [StateUpdate(running), StateUpdate(terminal)] + rest;
    assert early[1..][1..] == rest;
    CancelledAddsNothing(rest);
  }

  function ExceededWarn(name: string, time: real): Warn
  {
    Warn(name, map[ExceededSec := Float(time)])
  }

  /** `_ExecTimeWarning`. */
  class ExecTimeWarning {
    const instance: JobInstance
    const name: string
    const time: real
    var timer: Timer

    constructor(instance: JobInstance, name: string, time: real)
      ensures this.instance == instance && this.name == name && this.time == time
      ensures timer == NoTimer
    {
      this.instance := instance;
      this.name := name;
      this.time := time;
      timer := NoTimer;
    }

    /** `state_update(job_info)`; answers whether `assert self.timer is None` failed. */
    method OnStateUpdate(info: JobInfo) returns (assertionFailed: bool)
      modifies this
      ensures timer == WatchStep(old(timer), StateUpdate(info.State())).timer
      ensures assertionFailed == WatchStep(old(timer), StateUpdate(info.State())).assertionFailed
    {
      var s := info.State();
      assertionFailed := false;
      if IsExecuting(s) {
        if timer != NoTimer {
          assertionFailed := true;
          return;
        }
        timer := LiveTimer;
      } else if IsTerminal(s) && timer != NoTimer {
        if timer == LiveTimer {
          timer := CancelledTimer;
        }
      }
    }

    /** `_check()`: warns unless the instance's current state is terminal. */
    method Check()
      modifies instance
      ensures instance.warnings == old(instance.warnings)
        + (if IsTerminal(State(instance.lifecycle)) then [] else [ExceededWarn(name, time)])
      ensures instance.lifecycle == old(instance.lifecycle)
      ensures instance.stateObservers == old(instance.stateObservers)
      ensures instance.outputObservers == old(instance.outputObservers)
    {
      if !IsTerminal(State(instance.lifecycle)) {
        instance.AddWarning(ExceededWarn(name, time));
      }
    }

    /** The timer thread: a live timer runs out and runs `_check`. */
    method RunOut()
      modifies this, instance
      ensures var step := WatchStep(old(timer), TimerRunsOut(State(old(instance.lifecycle))));
        && timer == step.timer
        && instance.warnings == old(instance.warnings) + (if step.warns then [ExceededWarn(name, time)] else [])
      ensures instance.lifecycle == old(instance.lifecycle)
      ensures instance.stateObservers == old(instance.stateObservers)
      ensures instance.outputObservers == old(instance.outputObservers)
    {
      if timer == LiveTimer {
        timer := FiredTimer;
        Check();
      }
    }
  }

  /** `exec_time_exceeded`: registers one watchdog as a state observer of the instance. */
  method ExecTimeExceeded(instance: JobInstance, name: string, time: real) returns (w: ExecTimeWarning)
    modifies instance
    ensures fresh(w) && w.instance == instance && w.name == name && w.time == time && w.timer == NoTimer
    ensures instance.stateObservers == old(instance.stateObservers) + [w]
    ensures instance.outputObservers == old(instance.outputObservers)
    ensures instance.warnings == old(instance.warnings) && instance.lifecycle == old(instance.lifecycle)
  {
    w := new ExecTimeWarning(instance, name, time);
    instance.AddStateObserver(w);
  }

  // ---------------------------------------------------------------------------
  // The output matcher
  // ---------------------------------------------------------------------------

  function MatchWarn(id: string, line: string): Warn
  {
    Warn(id, map[MatchesKey := Text(line)])
  }

  /** The warnings that `lines` produce: one per line the search accepts, in order. */
  function MatchWarnings(id: string, search: string -> bool, lines: seq<string>): seq<Warn>
  {
    if lines == [] then []
    else MatchWarnings(id, search, lines[..|lines| - 1])
         + (if search(lines[|lines| - 1]) then [MatchWarn(id, lines[|lines| - 1])] else [])
  }

  /** How many of `lines` the search accepts. */
  function CountMatching(search: string -> bool, lines: seq<string>): nat
  {
    if lines == [] then 0
    else CountMatching(search, lines[..|lines| - 1]) + (if search(lines[|lines| - 1]) then 1 else 0)
  }

  /**
   * The instance's count for the warning name equals the number of matching
   * lines: every match counts, repeated identical lines included.
   */
  lemma {:induction false} MatchCount(id: string, search: string -> bool, lines: seq<string>)
    ensures |MatchWarnings(id, search, lines)| == CountMatching(search, lines)
    ensures CountNamed(MatchWarnings(id, search, lines), id) == CountMatching(search, lines)
  {
    if lines != [] {
      var init := lines[..|lines| - 1];
      var last := lines[|lines| - 1];
      MatchCount(id, search, init);
      var tail := if search(last) then [MatchWarn(id, last)] else [];
      CountNamedAppend(MatchWarnings(id, search, init), tail, id);
      if search(last) {
        assert tail[..0] == [];
      }
    }
  }

  /** Feeding lines one call at a time gives the same warnings as feeding them all. */
  lemma {:induction false} MatchWarningsAppend(id: string, search: string -> bool, a: seq<string>, b: seq<string>)
    ensures MatchWarnings(id, search, a + b) == MatchWarnings(id, search, a) + MatchWarnings(id, search, b)
  {
    if b == [] {
      assert a + b == a;
    } else {
      MatchWarningsAppend(id, search, a, b[..|b| - 1]);
      assert (a + b)[..|a + b| - 1] == a + b[..|b| - 1];
      assert (a + b)[|a + b| - 1] == b[|b| - 1];
    }
  }

  /** `_OutputMatchesWarning`; `search(line)` stands for `regex.search(line)` finding a match. */
  class OutputMatchesWarning {
    const instance: JobInstance
    const id: string
    const search: string -> bool

    constructor(instance: JobInstance, id: string, search: string -> bool)
      ensures this.instance == instance && this.id == id && this.search == search
    {
      this.instance := instance;
      this.id := id;
      this.search := search;
    }

    /** `output_update(job_info, output)`. */
    method OutputUpdate(info: JobInfo, output: string)
      modifies instance
      ensures instance.warnings == old(instance.warnings) + MatchWarnings(id, search, [output])
      ensures instance.lifecycle == old(instance.lifecycle)
      ensures instance.stateObservers == old(instance.stateObservers)
      ensures instance.outputObservers == old(instance.outputObservers)
    {
      assert [output][..0] == [];
      if search(output) {
        instance.AddWarning(MatchWarn(id, output));
      }
    }
  }

  /** `output_matches`: registers one matcher as an output observer of the instance. */
  method OutputMatches(instance: JobInstance, name: string, search: string -> bool) returns (w: OutputMatchesWarning)
    modifies instance
    ensures fresh(w) && w.instance == instance && w.id == name && w.search == search
    ensures instance.outputObservers == old(instance.outputObservers) + [w]
    ensures instance.stateObservers == old(instance.stateObservers)
    ensures instance.warnings == old(instance.warnings) && instance.lifecycle == old(instance.lifecycle)
  {
    w := new OutputMatchesWarning(instance, name, search);
    instance.AddOutputObserver(w);
  }
}
