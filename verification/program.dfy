/**
 * The process execution of taro (taro/jobs/program.py). The operating-system
 * process is abstracted into a `ProcessRun`: what launching and waiting for it
 * produced, including the output lines read while it ran and any `stop()` or
 * `interrupt()` that another thread made during the wait.
 */
module Program {
  import opened Wrappers
  import opened Execution

  // ---------------------------------------------------------------------------
  // Output observers and their fan-out
  // ---------------------------------------------------------------------------

  /** What an observer object is: an `ExecutionOutputObserver`, a plain callable, or neither. */
  datatype ObserverShape = Listener | Callable | Unsupported

  /** A registered observer; `id` is its identity. */
  datatype OutputObserver = OutputObserver(id: nat, shape: ObserverShape)

  /** What delivering one line to one observer did. */
  datatype DeliveryOutcome =
    | Updated            // `output_update(output)` returned
    | Called             // `observer(output)` returned
    | LoggedUnsupported  // logged as an unsupported observer
    | LoggedException    // the observer raised; the exception was logged

  datatype Delivery = Delivery(observer: OutputObserver, output: string, outcome: DeliveryOutcome)

  /**
   * One delivery; `raises(o, line)` says whether observer `o`'s own code
   * raises on `line`, which is outside this model.
   */
  function Deliver(o: OutputObserver, output: string, raises: (OutputObserver, string) -> bool): Delivery
  {
    match o.shape
    case Listener => Delivery(o, output, if raises(o, output) then LoggedException else Updated)
    case Callable => Delivery(o, output, if raises(o, output) then LoggedException else Called)
    case Unsupported => Delivery(o, output, LoggedUnsupported)
  }

  /**
   * The deliveries of one line: every observer, in list order, each delivery
   * depending on that observer alone, so that one that raises or is of an
   * unsupported shape does not keep the line from the others.
   */
  function FanOut(observers: seq<OutputObserver>, output: string, raises: (OutputObserver, string) -> bool)
    : (r: seq<Delivery>)
    ensures |r| == |observers|
    ensures forall i :: 0 <= i < |observers| ==>
      r[i].observer == observers[i] && r[i].output == output && r[i] == Deliver(observers[i], output, raises)
  {
    if observers == [] then []
    else [Deliver(observers[0], output, raises)] + FanOut(observers[1..], output, raises)
  }

  /** Python's `str.isspace` on one character. */
  predicate IsSpace(c: char)
  {
    c == ' ' || c == '\t' || c == '\n' || c == '\r' || c == '\U{0B}' || c == '\U{0C}'
    || ('\U{1C}' <= c <= '\U{1F}') || c == '\U{85}' || c == '\U{A0}' || c == '\U{1680}'
    || ('\U{2000}' <= c <= '\U{200A}') || c == '\U{2028}' || c == '\U{2029}'
    || c == '\U{202F}' || c == '\U{205F}' || c == '\U{3000}'
  }

  /** `line.rstrip()`: the longest prefix that does not end in whitespace. */
  function RStrip(s: string): (r: string)
    ensures |r| <= |s| && r == s[..|r|]
    ensures r == [] || !IsSpace(r[|r| - 1])
    ensures forall i :: |r| <= i < |s| ==> IsSpace(s[i])
  {
    if s == [] || !IsSpace(s[|s| - 1]) then s else RStrip(s[..|s| - 1])
  }

  /** The deliveries made while reading `lines`: each stripped line fanned out in turn. */
  function ReadDeliveries(observers: seq<OutputObserver>, lines: seq<string>,
                          raises: (OutputObserver, string) -> bool): seq<Delivery>
  {
    if lines == [] then []
    else ReadDeliveries(observers, lines[..|lines| - 1], raises)
         + FanOut(observers, RStrip(lines[|lines| - 1]), raises)
  }

  /** The fan-out to one more observer adds that observer's delivery. */
  lemma FanOutStep(observers: seq<OutputObserver>, i: nat, output: string, raises: (OutputObserver, string) -> bool)
    requires i < |observers|
    ensures FanOut(observers[..i + 1], output, raises)
            == FanOut(observers[..i], output, raises) + [Deliver(observers[i], output, raises)]
  {
    var longer := FanOut(observers[..i + 1], output, raises);
    var shorter := FanOut(observers[..i], output, raises) + [Deliver(observers[i], output, raises)];
    assert |longer| == |shorter|;
    forall k | 0 <= k < |longer| ensures longer[k] == shorter[k] {
      assert observers[..i + 1][k] == observers[k];
      if k < i {
        assert observers[..i][k] == observers[k];
      }
    }
  }

  /** Regrouping a concatenation; kept as a call so loop proofs stay within their resource budget. */
  lemma AppendAssoc<T>(a: seq<T>, b: seq<T>, c: seq<T>)
    ensures (a + b) + c == a + (b + c)
  {
  }

  /** Reading one more line adds that line's fan-out. */
  lemma ReadDeliveriesStep(observers: seq<OutputObserver>, lines: seq<string>, i: nat,
                           raises: (OutputObserver, string) -> bool)
    requires i < |lines|
    ensures ReadDeliveries(observers, lines[..i + 1], raises)
            == ReadDeliveries(observers, lines[..i], raises) + FanOut(observers, RStrip(lines[i]), raises)
  {
    assert lines[..i + 1][..i] == lines[..i];
    assert lines[..i + 1][i] == lines[i];
  }

  /** One more line's worth of deliveries; the product is nonlinear, so it is stated apart. */
  lemma MulStep(k: nat, m: nat)
    ensures k * m + m == (k + 1) * m
  {
  }

  /** Each line read yields one delivery per observer. */
  lemma {:induction false} ReadDeliveriesLength(observers: seq<OutputObserver>, lines: seq<string>,
                                                raises: (OutputObserver, string) -> bool)
    ensures |ReadDeliveries(observers, lines, raises)| == |lines| * |observers|
  {
    if lines != [] {
      var n := |lines|;
      var m := |observers|;
      var init := lines[..n - 1];
      ReadDeliveriesLength(observers, init, raises);
      assert |init| == n - 1;
      var last := FanOut(observers, RStrip(lines[n - 1]), raises);
      assert ReadDeliveries(observers, lines, raises) == ReadDeliveries(observers, init, raises) + last;
      assert |last| == m;
      MulStep(n - 1, m);
    }
  }

  /** `list.remove(x)`: drops the first occurrence of `x` and keeps the rest in order. */
  function RemoveFirst<T(==)>(s: seq<T>, x: T): (r: seq<T>)
    requires x in s
    ensures |r| == |s| - 1
    ensures FirstIndex(s, x) < |s| && r == s[..FirstIndex(s, x)] + s[FirstIndex(s, x) + 1..]
  {
    if s[0] == x then
      s[1..]
    else
      var rest := RemoveFirst(s[1..], x);
      var k := FirstIndex(s[1..], x);
      assert FirstIndex(s, x) == k + 1;
      assert s[..k + 1] == [s[0]] + s[1..][..k];
      assert s[k + 1 + 1..] == s[1..][k + 1..];
      [s[0]] + rest
  }

  // ---------------------------------------------------------------------------
  // Decimal text of a return code
  // ---------------------------------------------------------------------------

  function DigitChar(d: nat): char
    requires d < 10
  {
    "0123456789"[d]
  }

  function DigitValue(c: char): nat
  {
    if '0' <= c <= '9' then (c as int - '0' as int) as nat else 0
  }

  function NatToString(n: nat): string
    decreases n
  {
    if n < 10 then [DigitChar(n)] else NatToString(n / 10) + [DigitChar(n % 10)]
  }

  /** `str(n)` for a Python int. */
  function IntToString(n: int): string
  {
    if n < 0 then "-" + NatToString(-n) else NatToString(n)
  }

  function ParseNat(s: string): nat
  {
    if s == [] then 0 else 10 * ParseNat(s[..|s| - 1]) + DigitValue(s[|s| - 1])
  }

  /** Reads back a decimal integer with an optional leading '-'. */
  function ParseInt(s: string): int
  {
    if |s| > 0 && s[0] == '-' then -(ParseNat(s[1..]) as int) else ParseNat(s)
  }

  lemma {:induction false} NatToStringRoundTrip(n: nat)
    ensures |NatToString(n)| > 0 && NatToString(n)[0] != '-'
    ensures ParseNat(NatToString(n)) == n
    decreases n
  {
    var s := NatToString(n);
    if n >= 10 {
      NatToStringRoundTrip(n / 10);
      assert s[..|s| - 1] == NatToString(n / 10);
      assert s[0] == NatToString(n / 10)[0];
    }
  }

  /** The decimal text of every integer reads back as that integer. */
  lemma IntToStringRoundTrip(n: int)
    ensures ParseInt(IntToString(n)) == n
  {
    var s := IntToString(n);
    if n < 0 {
      var digits := NatToString(-n);
      NatToStringRoundTrip(-n);
      assert s == "-" + digits;
      assert s[0] == '-' && s[1..] == digits;
      assert ParseInt(s) == -(ParseNat(digits) as int);
    } else {
      NatToStringRoundTrip(n);
      assert s == NatToString(n);
      assert ParseInt(s) == ParseNat(s);
    }
  }

  // ---------------------------------------------------------------------------
  // Outcome classification
  // ---------------------------------------------------------------------------

  /** What launching and waiting for the process produced. */
  datatype ProcessRun =
    | Exited(code: int, lines: seq<string>, stopDuringWait: bool, interruptDuringWait: bool)
    | FileNotFound(message: string)
    | KeyboardInterrupt
    | SystemExit

  /** What `execute()` raises: an ExecutionError, or the ValueError its constructor raised instead. */
  datatype Raised = ExecutionFailed(error: ExecutionError) | InvalidState(cause: ValueError)

  /** `raise ExecutionError(...)`: what propagates once the constructor has run. */
  function RaiseOf(built: Result<ExecutionError, ValueError>): Raised
  {
    match built
    case Ok(e) => ExecutionFailed(e)
    case Err(v) => InvalidState(v)
  }

  const NonZeroPrefix := "Process returned non-zero code "

  /** The end of `execute()`: the flags decide, else the return code is a failure. */
  function AfterWait(stopped: bool, interrupted: bool, retCode: int): Result<ExecutionState, Raised>
  {
    if stopped then Ok(Stopped)
    else if interrupted then Ok(Interrupted)
    else Err(RaiseOf(NewExecutionError(NonZeroPrefix + IntToString(retCode), Failed, None, map[])))
  }

  /** Whether `execute()` starts the process: no flag set beforehand and the launch succeeded. */
  predicate Launches(stopped: bool, interrupted: bool, run: ProcessRun)
  {
    !stopped && !interrupted && run.Exited?
  }

  /**
   * The result of `execute()` given the flags set before it and what the
   * process did. The return code starts at -1 and stays so when nothing runs.
   */
  function ExecuteOutcome(stopped: bool, interrupted: bool, run: ProcessRun): (r: Result<ExecutionState, Raised>)
    ensures r.Ok? ==> IsTerminal(r.value) && !IsFailure(r.value)
    ensures r.Err? && r.error.ExecutionFailed? ==> r.error.error.execState == Failed
    ensures r.Err? && r.error.InvalidState? ==> run == SystemExit && r.error.cause.state == Interrupted
  {
    if stopped || interrupted then AfterWait(stopped, interrupted, -1)
    else
      match run
      case Exited(code, _, stopDuring, interruptDuring) =>
        if code == 0 then Ok(Completed) else AfterWait(stopDuring, interruptDuring, code)
      case FileNotFound(message) =>
        Err(RaiseOf(NewExecutionError(message, Failed, None, map[])))
      case KeyboardInterrupt => Ok(Stopped)
      case SystemExit => Err(RaiseOf(NewExecutionError("System exit", Interrupted, None, map[])))
  }

  /**
   * A flag set before `execute()` wins over anything the process would have
   * done, and a stop wins over an interrupt.
   */
  lemma FlagBeforeExecute(stopped: bool, interrupted: bool, run: ProcessRun)
    requires stopped || interrupted
    ensures !Launches(stopped, interrupted, run)
    ensures ExecuteOutcome(stopped, interrupted, run) == Ok(if stopped then Stopped else Interrupted)
  {
  }

  /** Return code 0 completes, whatever flag was raised during the wait. */
  lemma ZeroCodeCompletes(lines: seq<string>, stopDuring: bool, interruptDuring: bool)
    ensures ExecuteOutcome(false, false, Exited(0, lines, stopDuring, interruptDuring)) == Ok(Completed)
  {
  }

  /**
   * A non-zero code: STOPPED if stopped during the wait, else INTERRUPTED if
   * interrupted, else a FAILED ExecutionError whose message ends in the code.
   */
  lemma NonZeroCode(code: int, lines: seq<string>, stopDuring: bool, interruptDuring: bool)
    requires code != 0
    ensures var r := ExecuteOutcome(false, false, Exited(code, lines, stopDuring, interruptDuring));
      && (stopDuring ==> r == Ok(Stopped))
      && (!stopDuring && interruptDuring ==> r == Ok(Interrupted))
      && (!stopDuring && !interruptDuring ==>
            && r.Err? && r.error.ExecutionFailed?
            && r.error.error.execState == Failed
            && r.error.error.message == NonZeroPrefix + IntToString(code)
            && ParseInt(r.error.error.message[|NonZeroPrefix|..]) == code)
  {
    var message := NonZeroPrefix + IntToString(code);
    assert message[|NonZeroPrefix|..] == IntToString(code);
    IntToStringRoundTrip(code);
  }

  /**
   * A missing executable is a FAILED ExecutionError with the OS message; a
   * keyboard interrupt is STOPPED; a SystemExit builds an ExecutionError with
   * INTERRUPTED, which is no failure, so the constructor's ValueError is what
   * propagates.
   */
  lemma ExceptionalRuns(message: string)
    ensures ExecuteOutcome(false, false, FileNotFound(message))
              == Err(ExecutionFailed(ExecutionError(message, Failed, None, map[])))
    ensures ExecuteOutcome(false, false, KeyboardInterrupt) == Ok(Stopped)
    ensures ExecuteOutcome(false, false, SystemExit)
              == Err(InvalidState(ValueError("exec_state must be a failure", Interrupted)))
  {
  }

  // ---------------------------------------------------------------------------
  // ProgramExecution
  // ---------------------------------------------------------------------------

  datatype RemoveError = NotInList

  class ProgramExecution {
    const args: seq<string>
    const readOutput: bool
    /** `_popen is not None`. */
    var launched: bool
    var status: Option<string>
    var stopped: bool
    var interrupted: bool
    /** How many times `terminate()` was sent to the process. */
    var terminateRequests: nat
    var observers: seq<OutputObserver>
    /** Every delivery made to an output observer, in order. */
    var deliveries: seq<Delivery>

    constructor(args: seq<string>, readOutput: bool)
      ensures this.args == args && this.readOutput == readOutput
      ensures !launched && status == None && !stopped && !interrupted
      ensures terminateRequests == 0 && observers == [] && deliveries == []
    {
      this.args := args;
      this.readOutput := readOutput;
      launched := false;
      status := None;
      stopped := false;
      interrupted := false;
      terminateRequests := 0;
      observers := [];
      deliveries := [];
    }

    /** A program execution is synchronous. */
    function IsAsync(): (r: bool)
      ensures !r
    {
      false
    }

    /** `stop()`: sets the sticky flag; terminates the process only if there is one. */
    method Stop()
      modifies this
      ensures stopped && interrupted == old(interrupted)
      ensures terminateRequests == old(terminateRequests) + (if launched then 1 else 0)
      ensures launched == old(launched) && status == old(status)
      ensures observers == old(observers) && deliveries == old(deliveries)
    {
      stopped := true;
      if launched {
        terminateRequests := terminateRequests + 1;
      }
    }

    /** `interrupt()`: the same with the interrupt flag. */
    method Interrupt()
      modifies this
      ensures interrupted && stopped == old(stopped)
      ensures terminateRequests == old(terminateRequests) + (if launched then 1 else 0)
      ensures launched == old(launched) && status == old(status)
      ensures observers == old(observers) && deliveries == old(deliveries)
    {
      interrupted := true;
      if launched {
        terminateRequests := terminateRequests + 1;
      }
    }

    /** `add_output_observer`: appends, keeping duplicates. */
    method AddOutputObserver(o: OutputObserver)
      modifies this
      ensures observers == old(observers) + [o]
      ensures deliveries == old(deliveries) && status == old(status)
      ensures stopped == old(stopped) && interrupted == old(interrupted)
      ensures launched == old(launched) && terminateRequests == old(terminateRequests)
    {
      observers := observers + [o];
    }

    /** `remove_output_observer`: removes the first occurrence; ValueError when absent. */
    method RemoveOutputObserver(o: OutputObserver) returns (r: Result<(), RemoveError>)
      modifies this
      ensures r.Ok? <==> o in old(observers)
      ensures observers == if o in old(observers) then RemoveFirst(old(observers), o) else old(observers)
      ensures deliveries == old(deliveries) && status == old(status)
      ensures stopped == old(stopped) && interrupted == old(interrupted)
      ensures launched == old(launched) && terminateRequests == old(terminateRequests)
    {
      if o in observers {
        observers := RemoveFirst(observers, o);
        r := Ok(());
      } else {
        r := Err(NotInList);
      }
    }

    /** `_notify_output_observers(output)`. */
    method NotifyOutputObservers(output: string, raises: (OutputObserver, string) -> bool)
      modifies this
      ensures deliveries == old(deliveries) + FanOut(observers, output, raises)
      ensures observers == old(observers) && status == old(status)
      ensures stopped == old(stopped) && interrupted == old(interrupted)
      ensures launched == old(launched) && terminateRequests == old(terminateRequests)
    {
      var i := 0;
      while i < |observers|
        invariant 0 <= i <= |observers|
        invariant observers == old(observers) && status == old(status)
        invariant stopped == old(stopped) && interrupted == old(interrupted)
        invariant launched == old(launched) && terminateRequests == old(terminateRequests)
        invariant deliveries == old(deliveries) + FanOut(observers[..i], output, raises)
      {
        var o := observers[i];
        var outcome: DeliveryOutcome;
        if o.shape == Listener {
          outcome := if raises(o, output) then LoggedException else Updated;
        } else if o.shape == Callable {
          outcome := if raises(o, output) then LoggedException else Called;
        } else {
          outcome := LoggedUnsupported;
        }
        assert Delivery(o, output, outcome) == Deliver(o, output, raises);
        FanOutStep(observers, i, output, raises);
        AppendAssoc(old(deliveries), FanOut(observers[..i], output, raises), [Delivery(o, output, outcome)]);
        deliveries := deliveries + [Delivery(o, output, outcome)];
        i := i + 1;
      }
      assert observers[..i] == observers;
    }

    /** `_read_output()`: each line, stripped, becomes the status and is fanned out. */
    method ReadOutput(lines: seq<string>, raises: (OutputObserver, string) -> bool)
      modifies this
      ensures deliveries == old(deliveries) + ReadDeliveries(observers, lines, raises)
      ensures status == if lines == [] then old(status) else Some(RStrip(lines[|lines| - 1]))
      ensures observers == old(observers)
      ensures stopped == old(stopped) && interrupted == old(interrupted)
      ensures launched == old(launched) && terminateRequests == old(terminateRequests)
    {
      var i := 0;
      while i < |lines|
        invariant 0 <= i <= |lines|
        invariant observers == old(observers)
        invariant stopped == old(stopped) && interrupted == old(interrupted)
        invariant launched == old(launched) && terminateRequests == old(terminateRequests)
        invariant deliveries == old(deliveries) + ReadDeliveries(observers, lines[..i], raises)
        invariant status == if i == 0 then old(status) else Some(RStrip(lines[i - 1]))
      {
        var stripped := RStrip(lines[i]);
        status := Some(stripped);
        NotifyOutputObservers(stripped, raises);
        ReadDeliveriesStep(observers, lines, i, raises);
        AppendAssoc(old(deliveries), ReadDeliveries(observers, lines[..i], raises), FanOut(observers, stripped, raises));
        i := i + 1;
      }
      assert lines[..i] == lines;
    }

    /** `execute()`. */
    method Execute(run: ProcessRun, raises: (OutputObserver, string) -> bool)
      returns (r: Result<ExecutionState, Raised>)
      modifies this
      ensures r == ExecuteOutcome(old(stopped), old(interrupted), run)
      ensures var started := Launches(old(stopped), old(interrupted), run);
        && launched == (old(launched) || started)
        && stopped == (old(stopped) || (started && run.stopDuringWait))
        && interrupted == (old(interrupted) || (started && run.interruptDuringWait))
        && terminateRequests == old(terminateRequests)
             + (if started && run.stopDuringWait then 1 else 0)
             + (if started && run.interruptDuringWait then 1 else 0)
        && deliveries == old(deliveries)
             + (if started && readOutput then ReadDeliveries(observers, run.lines, raises) else [])
        && status == (if started && readOutput && run.lines != []
                      then Some(RStrip(run.lines[|run.lines| - 1])) else old(status))
      ensures observers == old(observers)
    {
      var retCode := -1;
      if !stopped && !interrupted {
        match run {
          case Exited(code, lines, stopDuring, interruptDuring) =>
            launched := true;
            if readOutput {
              ReadOutput(lines, raises);
            }
            if stopDuring {
              Stop();
            }
            if interruptDuring {
              Interrupt();
            }
            retCode := code;
            if retCode == 0 {
              return Ok(Completed);
            }
          case FileNotFound(message) =>
            return Err(RaiseOf(NewExecutionError(message, Failed, None, map[])));
          case KeyboardInterrupt =>
            return Ok(Stopped);
          case SystemExit =>
            return Err(RaiseOf(NewExecutionError("System exit", Interrupted, None, map[])));
        }
      }
      if stopped {
        return Ok(Stopped);
      }
      if interrupted {
        return Ok(Interrupted);
      }
      return Err(RaiseOf(NewExecutionError(NonZeroPrefix + IntToString(retCode), Failed, None, map[])));
    }
  }
}
