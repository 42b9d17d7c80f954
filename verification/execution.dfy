/**
 * The execution framework of taro (taro/jobs/execution.py): the states an
 * execution passes through and the groups they belong to, the error that
 * denotes a failed execution, and the lifecycle ledger that records when each
 * state was entered.
 */
module Execution {
  import opened Wrappers

  // ---------------------------------------------------------------------------
  // States and groups
  // ---------------------------------------------------------------------------

  datatype ExecutionStateGroup =
    | BeforeExecution
    | Executing
    | Terminal
    | NotCompleted
    | NotExecuted
    | Failure

  /** `NoState` is the source's NONE: the state of a lifecycle with no record. */
  datatype ExecutionState =
    | NoState
    | Created | Pending | Waiting
    | Triggered | Started | Running
    | Completed
    | Stopped | Interrupted
    | Disabled | Cancelled | Skipped | Suspended
    | StartFailed | Failed | Error

  /** The fixed table that attaches a set of groups to every state. */
  function Groups(s: ExecutionState): set<ExecutionStateGroup>
  {
    match s
    case NoState => {}
    case Created | Pending | Waiting => {BeforeExecution}
    case Triggered | Started | Running => {Executing}
    case Completed => {Terminal}
    case Stopped | Interrupted => {Terminal, NotCompleted}
    case Disabled | Cancelled | Skipped | Suspended => {Terminal, NotExecuted}
    case StartFailed | Failed | Error => {Terminal, Failure}
  }

  predicate IsBeforeExecution(s: ExecutionState) { BeforeExecution in Groups(s) }
  predicate IsExecuting(s: ExecutionState) { Executing in Groups(s) }
  predicate IsIncomplete(s: ExecutionState) { NotCompleted in Groups(s) }
  predicate IsUnexecuted(s: ExecutionState) { NotExecuted in Groups(s) }
  predicate IsTerminal(s: ExecutionState) { Terminal in Groups(s) }
  predicate IsFailure(s: ExecutionState) { Failure in Groups(s) }

  function Indicator(b: bool): nat { if b then 1 else 0 }

  /**
   * The shape of the group table: NONE is in no group; every other state is in
   * exactly one of the three phases; a terminal state carries at most one
   * kind of non-success, and each kind of non-success is terminal.
   */
  lemma GroupTableShape(s: ExecutionState)
    ensures s == NoState <==> Groups(s) == {}
    ensures s != NoState ==>
      Indicator(IsBeforeExecution(s)) + Indicator(IsExecuting(s)) + Indicator(IsTerminal(s)) == 1
    ensures IsIncomplete(s) || IsUnexecuted(s) || IsFailure(s) ==> IsTerminal(s)
    ensures Indicator(IsIncomplete(s)) + Indicator(IsUnexecuted(s)) + Indicator(IsFailure(s)) <= 1
  {
  }

  /** The FAILURE group is exactly START_FAILED, FAILED and ERROR. */
  lemma FailureStates(s: ExecutionState)
    ensures IsFailure(s) <==> s == StartFailed || s == Failed || s == Error
  {
  }

  // ---------------------------------------------------------------------------
  // ExecutionError
  // ---------------------------------------------------------------------------

  /** An opaque Python exception (its class name and its text). */
  datatype Cause = Cause(kind: string, text: string)

  /** A value of an open-ended keyword-argument mapping (a Python float is a real here). */
  datatype Value = Text(text: string) | Number(number: int) | Float(seconds: real)

  datatype ExecutionError = ExecutionError(
    message: string,
    execState: ExecutionState,
    unexpectedError: Option<Cause>,
    params: map<string, Value>)

  /** The ValueError that the ExecutionError constructor raises. */
  datatype ValueError = ValueError(message: string, state: ExecutionState)

  /**
   * `ExecutionError(message, exec_state, unexpected_error, **kwargs)`: rejected
   * with a ValueError unless the state is a failure; otherwise every argument
   * is kept as given.
   */
  function NewExecutionError(message: string, execState: ExecutionState,
                             unexpectedError: Option<Cause>, params: map<string, Value>)
    : (r: Result<ExecutionError, ValueError>)
    ensures r.Ok? <==> IsFailure(execState)
    ensures r.Ok? ==> IsFailure(r.value.execState) && r.value.message == message
                      && r.value.execState == execState
                      && r.value.unexpectedError == unexpectedError && r.value.params == params
    ensures r.Err? ==> r.error.state == execState
  {
    if !IsFailure(execState) then
      Err(ValueError("exec_state must be a failure", execState))
    else
      Ok(ExecutionError(message, execState, unexpectedError, params))
  }

  /** `ExecutionError.from_unexpected_error(e)`. */
  function FromUnexpectedError(e: Cause): (r: ExecutionError)
    ensures r.message == "Unexpected error" && r.execState == Error
    ensures r.unexpectedError == Some(e) && r.params == map[]
    ensures IsFailure(r.execState)
  {
    var built := NewExecutionError("Unexpected error", Error, Some(e), map[]);
    built.value
  }

  // ---------------------------------------------------------------------------
  // The lifecycle ledger
  // ---------------------------------------------------------------------------

  /** One entry of the ledger: a state and the time it was recorded. */
  datatype StateChange = StateChange(state: ExecutionState, changed: int)

  /** An ordered dictionary never holds a key twice. */
  predicate DistinctStates(changes: seq<StateChange>)
  {
    forall i, j :: 0 <= i < j < |changes| ==> changes[i].state != changes[j].state
  }

  /**
   * `ExecutionLifecycle`: the OrderedDict from state to timestamp, as its
   * entries in insertion order.
   */
  type Lifecycle = changes: seq<StateChange> | DistinctStates(changes) witness []

  /** `states()`: the recorded states in insertion order. */
  function States(changes: seq<StateChange>): (r: seq<ExecutionState>)
    ensures |r| == |changes|
    ensures forall i :: 0 <= i < |changes| ==> r[i] == changes[i].state
  {
    seq(|changes|, i requires 0 <= i < |changes| => changes[i].state)
  }

  /** Position of the entry for `s`, or the length when there is none. */
  function IndexOf(changes: seq<StateChange>, s: ExecutionState): (i: nat)
    ensures i <= |changes|
    ensures i < |changes| ==> changes[i].state == s
    ensures forall j :: 0 <= j < i ==> changes[j].state != s
  {
    FirstIndex(States(changes), s)
  }

  /**
   * `state()`: the last inserted state, or NONE when nothing is recorded. The
   * current state is recorded, and only in the last entry.
   */
  function State(l: Lifecycle): (r: ExecutionState)
    ensures |l| == 0 ==> r == NoState
    ensures |l| > 0 ==> r in States(l) && IndexOf(l, r) == |l| - 1
  {
    if |l| == 0 then NoState else l[|l| - 1].state
  }

  /** `last_changed()`: the last timestamp, or None; it is the current state's timestamp. */
  function LastChanged(l: Lifecycle): (r: Option<int>)
    ensures r.Some? <==> |l| > 0
    ensures r.Some? ==> r == Changed(l, State(l))
  {
    if |l| == 0 then None else Some(l[|l| - 1].changed)
  }

  /** `changed(state)`: the timestamp of `s`; None stands for the KeyError. */
  function Changed(l: Lifecycle, s: ExecutionState): (r: Option<int>)
    ensures r.Some? <==> s in States(l)
    ensures forall i :: 0 <= i < |l| && l[i].state == s ==> r == Some(l[i].changed)
  {
    var i := IndexOf(l, s);
    if i < |l| then Some(l[i].changed) else None
  }

  /** Entry `i` is EXECUTING and no entry before it is. */
  predicate FirstExecutingAt(changes: seq<StateChange>, i: int)
  {
    0 <= i < |changes| && IsExecuting(changes[i].state) &&
    forall j :: 0 <= j < i ==> !IsExecuting(changes[j].state)
  }

  /** `first_executing_state()`: the earliest recorded EXECUTING state. */
  function FirstExecutingState(changes: seq<StateChange>): (r: Option<ExecutionState>)
    ensures r.None? <==> forall i :: 0 <= i < |changes| ==> !IsExecuting(changes[i].state)
    ensures r.Some? ==> exists i :: FirstExecutingAt(changes, i) && changes[i].state == r.value
  {
    if changes == [] then None
    else if IsExecuting(changes[0].state) then Some(changes[0].state)
    else
      var rest := FirstExecutingState(changes[1..]);
      assert rest.Some? ==> exists i :: FirstExecutingAt(changes, i) && changes[i].state == rest.value by {
        if rest.Some? {
          var k :| FirstExecutingAt(changes[1..], k) && changes[1..][k].state == rest.value;
          assert changes[k + 1] == changes[1..][k];
          forall j | 0 <= j < k + 1 ensures !IsExecuting(changes[j].state) {
            if j > 0 { assert changes[j] == changes[1..][j - 1]; }
          }
          assert FirstExecutingAt(changes, k + 1);
        }
      }
      rest
  }

  /** `executed()`: some recorded state is EXECUTING. */
  predicate Executed(l: Lifecycle)
    ensures Executed(l) <==> exists i :: 0 <= i < |l| && IsExecuting(l[i].state)
  {
    FirstExecutingState(l).Some?
  }

  /** `execution_started()`: the timestamp of the first EXECUTING state. */
  function ExecutionStarted(l: Lifecycle): (r: Option<int>)
    ensures r.Some? <==> Executed(l)
    ensures r.Some? ==> exists i :: FirstExecutingAt(l, i) && l[i].changed == r.value
  {
    match FirstExecutingState(l)
    case None => None
    case Some(s) => Changed(l, s)
  }

  /** `execution_finished()`: defined only once the current state is terminal. */
  function ExecutionFinished(l: Lifecycle): (r: Option<int>)
    ensures r.Some? <==> IsTerminal(State(l))
    ensures r.Some? ==> r == LastChanged(l)
  {
    var s := State(l);
    if !IsTerminal(s) then None else Changed(l, s)
  }

  /**
   * `execution_time()`: None when execution never started, otherwise the end
   * (the finish time, or `now` while still running) minus the start.
   */
  function ExecutionTime(l: Lifecycle, now: int): (r: Option<int>)
    ensures r.Some? <==> Executed(l)
    ensures r.Some? && IsTerminal(State(l)) ==> r.value == LastChanged(l).value - ExecutionStarted(l).value
    ensures r.Some? && !IsTerminal(State(l)) ==> r.value == now - ExecutionStarted(l).value
  {
    match ExecutionStarted(l)
    case None => None
    case Some(started) =>
      var finished := match ExecutionFinished(l) case Some(f) => f case None => now;
      Some(finished - started)
  }

  /** Timestamps never decrease along the ledger. */
  predicate Chronological(changes: seq<StateChange>)
  {
    forall i, j :: 0 <= i < j < |changes| ==> changes[i].changed <= changes[j].changed
  }

  /** On a chronological ledger read no earlier than its last change, the execution time is never negative. */
  lemma ExecutionTimeNonNegative(l: Lifecycle, now: int)
    requires Chronological(l)
    requires LastChanged(l).Some? ==> LastChanged(l).value <= now
    ensures ExecutionTime(l, now).Some? ==> ExecutionTime(l, now).value >= 0
  {
    if ExecutionTime(l, now).Some? {
      var i :| FirstExecutingAt(l, i) && l[i].changed == ExecutionStarted(l).value;
      assert l[i].changed <= l[|l| - 1].changed;
    }
  }

  // ---------------------------------------------------------------------------
  // Recording states
  // ---------------------------------------------------------------------------

  /**
   * `d[s] = t` on an OrderedDict: a new key is appended; a key already present
   * keeps its position and only its timestamp is replaced.
   */
  function Assign(l: Lifecycle, s: ExecutionState, t: int): (r: Lifecycle)
    ensures States(r) == if s in States(l) then States(l) else States(l) + [s]
    ensures Changed(r, s) == Some(t)
    ensures forall x :: x != s ==> Changed(r, x) == Changed(l, x)
  {
    var i := IndexOf(l, s);
    if i < |l| then
      var r := l[i := StateChange(s, t)];
      assert States(r) == States(l);
      assert forall x :: x != s ==> (x in States(r) <==> x in States(l));
      r
    else
      var r := l + [StateChange(s, t)];
      assert s !in States(l);
      assert States(r) == States(l) + [s];
      r
  }

  /** Assigning a state that is not recorded appends its entry. */
  lemma AssignAppends(l: Lifecycle, s: ExecutionState, t: int)
    requires s !in States(l)
    ensures Assign(l, s, t) == l + [StateChange(s, t)]
  {
    forall j | 0 <= j < |l| ensures l[j].state != s {
      assert States(l)[j] == l[j].state;
    }
    assert IndexOf(l, s) == |l|;
  }

  /** Assigning a recorded state replaces its entry where it stands. */
  lemma AssignOverwrites(l: Lifecycle, s: ExecutionState, t: int)
    requires s in States(l)
    ensures IndexOf(l, s) < |l|
    ensures Assign(l, s, t) == l[IndexOf(l, s) := StateChange(s, t)]
  {
    var j :| 0 <= j < |States(l)| && States(l)[j] == s;
    assert l[j].state == s;
  }

  /** Whether `set_state(newState)` records anything: not None, not NONE, not the current state. */
  predicate Applies(l: Lifecycle, newState: Option<ExecutionState>)
  {
    newState.Some? && newState.value != NoState && newState.value != State(l)
  }

  /** The ledger after `set_state(newState)` at time `now`. */
  function Apply(l: Lifecycle, newState: Option<ExecutionState>, now: int): Lifecycle
  {
    if Applies(l, newState) then Assign(l, newState.value, now) else l
  }

  /** `ExecutionLifecycle(*state_changes)`: the pairs assigned one by one into an empty OrderedDict. */
  function FromPairs(pairs: seq<StateChange>): Lifecycle
  {
    if pairs == [] then []
    else
      var last := pairs[|pairs| - 1];
      Assign(FromPairs(pairs[..|pairs| - 1]), last.state, last.changed)
  }

  /** The states of a sequence with every repeat of an earlier state dropped. */
  function FirstOccurrences(ss: seq<ExecutionState>): seq<ExecutionState>
  {
    if ss == [] then []
    else
      var init := FirstOccurrences(ss[..|ss| - 1]);
      if ss[|ss| - 1] in init then init else init + [ss[|ss| - 1]]
  }

  /** The timestamp of the last pair for `s`, or None. */
  function LastTime(pairs: seq<StateChange>, s: ExecutionState): Option<int>
  {
    if pairs == [] then None
    else if pairs[|pairs| - 1].state == s then Some(pairs[|pairs| - 1].changed)
    else LastTime(pairs[..|pairs| - 1], s)
  }

  /**
   * Building a lifecycle from pairs keeps each state at its first position and
   * gives it the timestamp of its last pair.
   */
  lemma {:induction false} FromPairsContents(pairs: seq<StateChange>)
    ensures States(FromPairs(pairs)) == FirstOccurrences(States(pairs))
    ensures forall s :: Changed(FromPairs(pairs), s) == LastTime(pairs, s)
  {
    if pairs != [] {
      var init := pairs[..|pairs| - 1];
      FromPairsContents(init);
      assert States(pairs)[..|pairs| - 1] == States(init);
    }
  }

  /** Dropping the last entry keeps the states distinct, and the last state is not among the rest. */
  lemma DropLast(changes: seq<StateChange>)
    requires DistinctStates(changes) && changes != []
    ensures DistinctStates(changes[..|changes| - 1])
    ensures changes[|changes| - 1].state !in States(changes[..|changes| - 1])
    ensures States(changes) == States(changes[..|changes| - 1]) + [changes[|changes| - 1].state]
  {
    var init := changes[..|changes| - 1];
    forall j | 0 <= j < |init| ensures States(init)[j] != changes[|changes| - 1].state {
      assert init[j] == changes[j];
    }
  }

  /** `__deepcopy__` rebuilds the lifecycle from its own pairs and gets the same ledger. */
  lemma {:induction false} DeepCopyPreserves(l: Lifecycle)
    ensures FromPairs(l) == l
  {
    if l != [] {
      DropLast(l);
      var init: Lifecycle := l[..|l| - 1];
      var last := l[|l| - 1];
      DeepCopyPreserves(init);
      calc {
        FromPairs(l);
        Assign(FromPairs(init), last.state, last.changed);
        Assign(init, last.state, last.changed);
        { AssignAppends(init, last.state, last.changed); }
        init + [last];
        l;
      }
    }
  }

  /** Setting a state that is neither NONE nor recorded appends it and makes it current. */
  lemma ApplyNew(l: Lifecycle, s: ExecutionState, t: int)
    requires s != NoState && s !in States(l)
    ensures Apply(l, Some(s), t) == l + [StateChange(s, t)]
    ensures States(Apply(l, Some(s), t)) == States(l) + [s]
    ensures State(Apply(l, Some(s), t)) == s
  {
    assert |l| > 0 ==> State(l) == States(l)[|l| - 1];
    AssignAppends(l, s, t);
  }

  /** The ledger after `set_state` is called for each step in turn. */
  function Record(l: Lifecycle, steps: seq<StateChange>): Lifecycle
  {
    if steps == [] then l
    else
      var last := steps[|steps| - 1];
      Apply(Record(l, steps[..|steps| - 1]), Some(last.state), last.changed)
  }

  /**
   * Recording distinct, new, non-NONE states one after another lists them in
   * insertion order, and the current state is the last one recorded.
   */
  lemma {:induction false} RecordInOrder(l: Lifecycle, steps: seq<StateChange>)
    requires DistinctStates(steps)
    requires forall i :: 0 <= i < |steps| ==> steps[i].state != NoState && steps[i].state !in States(l)
    ensures States(Record(l, steps)) == States(l) + States(steps)
    ensures steps != [] ==> State(Record(l, steps)) == steps[|steps| - 1].state
  {
    if steps != [] {
      var init := steps[..|steps| - 1];
      var last := steps[|steps| - 1];
      DropLast(steps);
      forall i | 0 <= i < |init| ensures init[i].state != NoState && init[i].state !in States(l) {
        assert init[i] == steps[i];
      }
      RecordInOrder(l, init);
      var before := Record(l, init);
      assert last.state !in States(before);
      ApplyNew(before, last.state, last.changed);
      assert Record(l, steps) == Apply(before, Some(last.state), last.changed);
      assert (States(l) + States(init)) + [last.state] == States(l) + (States(init) + [last.state]);
    }
  }

  /** Setting the current state, or a state just recorded for the first time, again changes nothing. */
  lemma RepeatIsNoOp(l: Lifecycle, s: ExecutionState, t1: int, t2: int)
    requires s !in States(l) || s == State(l)
    ensures Apply(Apply(l, Some(s), t1), Some(s), t2) == Apply(l, Some(s), t1)
  {
    var once := Apply(l, Some(s), t1);
    if Applies(l, Some(s)) {
      assert States(once) == States(l) + [s];
      assert once[|once| - 1].state == States(once)[|once| - 1];
    }
  }

  /**
   * Setting a recorded state that is not the current one overwrites its
   * timestamp in place: the order of states and the current state stay as
   * they were.
   */
  lemma ReRecordKeepsPosition(l: Lifecycle, s: ExecutionState, t: int)
    requires s != NoState && s in States(l) && s != State(l)
    ensures Applies(l, Some(s))
    ensures States(Apply(l, Some(s), t)) == States(l)
    ensures State(Apply(l, Some(s), t)) == State(l)
    ensures Changed(Apply(l, Some(s), t), s) == Some(t)
  {
    var i := IndexOf(l, s);
    AssignOverwrites(l, s, t);
    var r := l[i := StateChange(s, t)];
    assert Apply(l, Some(s), t) == Assign(l, s, t) == r;
    assert r[|r| - 1].state == l[|l| - 1].state;
  }

  /**
   * Hence the ledger's order is not always chronological: re-setting CREATED
   * after RUNNING leaves CREATED first with the later timestamp.
   */
  lemma ReRecordBreaksChronology()
    ensures var l: Lifecycle := [StateChange(Created, 1), StateChange(Running, 2)];
            Chronological(l) && !Chronological(Apply(l, Some(Created), 3))
  {
    var l: Lifecycle := [StateChange(Created, 1), StateChange(Running, 2)];
    assert States(l)[0] == Created;
    assert State(l) == Running;
    AssignOverwrites(l, Created, 3);
    assert IndexOf(l, Created) == 0;
    var r := Apply(l, Some(Created), 3);
    assert r == [StateChange(Created, 3), StateChange(Running, 2)];
  }

  /** Recording a new state no earlier than the last change keeps the ledger chronological. */
  lemma NewStateKeepsChronology(l: Lifecycle, s: ExecutionState, now: int)
    requires Chronological(l) && s !in States(l)
    requires LastChanged(l).Some? ==> LastChanged(l).value <= now
    ensures Chronological(Apply(l, Some(s), now))
  {
    if Applies(l, Some(s)) {
      AssignAppends(l, s, now);
      var r := l + [StateChange(s, now)];
      assert Apply(l, Some(s), now) == r;
      forall i, j | 0 <= i < j < |r| ensures r[i].changed <= r[j].changed {
        if j == |l| {
          assert r[i] == l[i] && l[i].changed <= l[|l| - 1].changed;
        } else {
          assert r[i] == l[i] && r[j] == l[j];
        }
      }
    }
  }

  /** `ExecutionLifecycleManagement`: the mutable ledger the runner owns. */
  class LifecycleManagement {
    var changes: Lifecycle

    constructor(initial: seq<StateChange>)
      ensures changes == FromPairs(initial)
    {
      changes := FromPairs(initial);
    }

    /**
     * `set_state(new_state)`: ignores None, NONE and the current state and
     * answers false; otherwise records the state at `now` and answers true.
     */
    method SetState(newState: Option<ExecutionState>, now: int) returns (changed: bool)
      modifies this
      ensures changed <==> newState.Some? && newState.value != NoState && newState.value != State(old(changes))
      ensures changes == Apply(old(changes), newState, now)
      ensures changed ==> Changed(changes, newState.value) == Some(now)
    {
      if newState.None? || newState.value == NoState || State(changes) == newState.value {
        changed := false;
      } else {
        changes := Assign(changes, newState.value, now);
        changed := true;
      }
    }
  }
}
