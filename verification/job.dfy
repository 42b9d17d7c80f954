/**
 * The job framework of taro (taro/jobs/job.py): instance identifiers, the
 * immutable `JobInfo` snapshot handed to observers and persistence, and the
 * part of a live job instance that the warning engine talks to.
 */
module Job {
  import opened Wrappers
  import opened Execution

  // ---------------------------------------------------------------------------
  // Identifiers
  // ---------------------------------------------------------------------------

  /** The first `c` is at `j` when `s[j]` is `c` and nothing before it is. */
  lemma FirstIndexAt(s: string, c: char, j: nat)
    requires j < |s| && s[j] == c
    requires forall k :: 0 <= k < j ==> s[k] != c
    ensures FirstIndex(s, c) == j
  {
  }

  datatype JobInstanceID = JobInstanceID(jobId: string, instanceId: string)
  {
    /** `__repr__`: the job id and the instance id joined by '@'. */
    function Display(): (r: string)
      ensures |r| == |jobId| + 1 + |instanceId|
      ensures r[..|jobId|] == jobId && r[|jobId|] == '@' && r[|jobId| + 1..] == instanceId
    {
      jobId + "@" + instanceId
    }
  }

  /** Reads a display form back, splitting at its first '@'. */
  function ParseDisplay(s: string): (r: Option<JobInstanceID>)
    ensures r.Some? <==> '@' in s
    ensures r.Some? ==> '@' !in r.value.jobId
    ensures r.Some? ==> r.value.Display() == s
  {
    var i := FirstIndex(s, '@');
    if i < |s| then
      assert s == s[..i] + "@" + s[i + 1..];
      Some(JobInstanceID(s[..i], s[i + 1..]))
    else None
  }

  /** The display form identifies the instance whenever the job id holds no '@'. */
  lemma DisplayRoundTrip(id: JobInstanceID)
    requires '@' !in id.jobId
    ensures ParseDisplay(id.Display()) == Some(id)
  {
    var d := id.Display();
    var n := |id.jobId|;
    forall k | 0 <= k < n ensures d[k] != '@' {
      assert d[k] == d[..n][k] == id.jobId[k];
    }
    FirstIndexAt(d, '@', n);
  }

  /** Without that condition the display form is ambiguous. */
  lemma DisplayAmbiguous()
    ensures JobInstanceID("a@b", "c") != JobInstanceID("a", "b@c")
    ensures JobInstanceID("a@b", "c").Display() == JobInstanceID("a", "b@c").Display()
  {
  }

  // ---------------------------------------------------------------------------
  // Snapshots
  // ---------------------------------------------------------------------------

  /** `Warn(name, params)`: one warning event. */
  datatype Warn = Warn(name: string, params: map<string, Value>)

  /** `JobInfo`: the immutable snapshot of a job instance. */
  datatype JobInfo = JobInfo(
    id: JobInstanceID,
    lifecycle: Lifecycle,
    status: Option<string>,
    warnings: map<string, nat>,
    execError: Option<ExecutionError>,
    params: map<string, Value>)
  {
    function JobId(): string { id.jobId }

    function InstanceId(): string { id.instanceId }

    /** `state`: the current state of the held lifecycle. */
    function State(): ExecutionState { Execution.State(lifecycle) }

    /**
     * `params`: a copy of the keyword parameters. A Dafny map is a value, so a
     * caller that changes its copy cannot change the snapshot.
     */
    function Params(): map<string, Value> { params }

    /**
     * `matches(instance, job_matching_strategy)`: the strategy accepts the job
     * id, or the instance id glob-matches; both matchers are parameters.
     */
    predicate Matches(pattern: string, strategy: (string, string) -> bool, glob: (string, string) -> bool)
    {
      strategy(JobId(), pattern) || glob(InstanceId(), pattern)
    }
  }

  /** The projections of a snapshot are the parts it was built from. */
  lemma SnapshotProjections(info: JobInfo)
    ensures JobInstanceID(info.JobId(), info.InstanceId()) == info.id
    ensures |info.lifecycle| == 0 ==> info.State() == NoState
    ensures |info.lifecycle| > 0 ==> info.State() == States(info.lifecycle)[|info.lifecycle| - 1]
    ensures info.Params() == info.params
  {
  }

  /**
   * With the default strategy (the glob itself), a snapshot matches exactly
   * when its job id or its instance id matches; a more permissive strategy
   * never loses a match.
   */
  lemma MatchesCases(info: JobInfo, pattern: string,
                     strategy: (string, string) -> bool, wider: (string, string) -> bool,
                     glob: (string, string) -> bool)
    ensures info.Matches(pattern, glob, glob) <==> glob(info.id.jobId, pattern) || glob(info.id.instanceId, pattern)
    ensures (strategy(info.id.jobId, pattern) ==> wider(info.id.jobId, pattern)) ==>
              (info.Matches(pattern, strategy, glob) ==> info.Matches(pattern, wider, glob))
    ensures !glob(info.id.instanceId, pattern) ==>
              (info.Matches(pattern, strategy, glob) <==> strategy(info.id.jobId, pattern))
  {
  }

  /** `JobInfoCollection`: the snapshots given to its constructor. */
  datatype JobInfoCollection = JobInfoCollection(items: seq<JobInfo>)
  {
    /** `jobs`: a list of the snapshots, in the order given. */
    function Jobs(): (r: seq<JobInfo>)
      ensures |r| == |items| && forall i :: 0 <= i < |items| ==> r[i] == items[i]
    {
      items
    }
  }

  // ---------------------------------------------------------------------------
  // The job instance, as seen by the warning engine
  // ---------------------------------------------------------------------------

  /** How many warnings in `ws` carry `name`. */
  function CountNamed(ws: seq<Warn>, name: string): nat
  {
    if ws == [] then 0
    else CountNamed(ws[..|ws| - 1], name) + (if ws[|ws| - 1].name == name then 1 else 0)
  }

  /** Counting distributes over concatenation. */
  lemma {:induction false} CountNamedAppend(a: seq<Warn>, b: seq<Warn>, name: string)
    ensures CountNamed(a + b, name) == CountNamed(a, name) + CountNamed(b, name)
  {
    if b == [] {
      assert a + b == a;
    } else {
      CountNamedAppend(a, b[..|b| - 1], name);
      assert (a + b)[..|a + b| - 1] == a + b[..|b| - 1];
      assert (a + b)[|a + b| - 1] == b[|b| - 1];
    }
  }

  /**
   * `JobInstance` is abstract in the source and implemented by the runner,
   * which is not part of this model. This class keeps what the warning engine
   * reads and changes: the instance's id and lifecycle, every warning passed
   * to `add_warning` in order, and the observers registered on it.
   */
  class JobInstance {
    const id: JobInstanceID
    var lifecycle: Lifecycle
    var warnings: seq<Warn>
    var stateObservers: seq<object>
    var outputObservers: seq<object>

    constructor(id: JobInstanceID, lifecycle: Lifecycle)
      ensures this.id == id && this.lifecycle == lifecycle
      ensures warnings == [] && stateObservers == [] && outputObservers == []
    {
      this.id := id;
      this.lifecycle := lifecycle;
      warnings := [];
      stateObservers := [];
      outputObservers := [];
    }

    /** `job_id`. */
    function JobId(): (r: string)
      ensures JobInstanceID(r, InstanceId()) == id
    {
      id.jobId
    }

    /** `instance_id`. */
    function InstanceId(): string
    {
      id.instanceId
    }

    /** The occurrence count of a warning name: one per `add_warning` call with that name. */
    function WarningCount(name: string): nat
      reads this
    {
      CountNamed(warnings, name)
    }

    method AddWarning(w: Warn)
      modifies this
      ensures warnings == old(warnings) + [w]
      ensures WarningCount(w.name) == old(WarningCount(w.name)) + 1
      ensures forall n :: n != w.name ==> WarningCount(n) == old(WarningCount(n))
      ensures lifecycle == old(lifecycle)
      ensures stateObservers == old(stateObservers) && outputObservers == old(outputObservers)
    {
      warnings := warnings + [w];
      assert warnings[..|warnings| - 1] == old(warnings);
    }

    method AddStateObserver(o: object)
      modifies this
      ensures stateObservers == old(stateObservers) + [o]
      ensures warnings == old(warnings) && lifecycle == old(lifecycle)
      ensures outputObservers == old(outputObservers)
    {
      stateObservers := stateObservers + [o];
    }

    method AddOutputObserver(o: object)
      modifies this
      ensures outputObservers == old(outputObservers) + [o]
      ensures warnings == old(warnings) && lifecycle == old(lifecycle)
      ensures stateObservers == old(stateObservers)
    {
      outputObservers := outputObservers + [o];
    }
  }
}
