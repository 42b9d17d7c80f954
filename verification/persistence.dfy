/**
 * The persistence facade of taro (taro/jobs/persistence.py): plugin
 * resolution, the process-wide cache of backend instances, the stub used when
 * persistence is disabled, and the facade operations that go through the
 * cache. Backends themselves are external: the model keeps, in order, every
 * call the facade makes on a backend and answers it by `Reply`.
 */
module Persistence {
  import opened Wrappers
  import opened Execution
  import opened Job

  /** `taro.jobs.db.__name__`: the package holding the backend plugins. */
  const DbPackage := "taro.jobs.db"

  /** The module name a backend type resolves to. */
  function FullName(type_: string): (r: string)
    ensures |r| == |DbPackage| + 1 + |type_|
    ensures r[..|DbPackage|] == DbPackage && r[|DbPackage|] == '.' && r[|DbPackage| + 1..] == type_
  {
    DbPackage + "." + type_
  }

  // ---------------------------------------------------------------------------
  // Backends, faults and backend calls
  // ---------------------------------------------------------------------------

  /**
   * A backend instance: the disabled stub, or what a plugin module's
   * `create_persistence()` produced. `serial` tells instances apart, as the
   * identity of Python objects does.
   */
  datatype Backend = NoPersistence(serial: nat) | Plugin(name: string, serial: nat)

  /**
   * What a persistence operation raises: `PersistenceNotFoundError`,
   * `PersistenceDisabledError`, or the `TypeError` Python raises when a call's
   * arguments do not bind to the called method's parameters.
   */
  datatype Fault = NotFound(moduleName: string) | PersistenceDisabled | SignatureMismatch(operation: string)
  {
    /** The exception text; a binding failure's text comes from Python itself and is left abstract. */
    function Message(): (r: string)
      ensures NotFound? ==> r == "Cannot find persistence module " + moduleName + NotFoundAdvice
      ensures PersistenceDisabled? ==> r == DisabledMessage
      ensures SignatureMismatch? ==> r == operation
    {
      match this
      case NotFound(m) => "Cannot find persistence module " + m + NotFoundAdvice
      case PersistenceDisabled => DisabledMessage
      case SignatureMismatch(op) => op
    }
  }

  const NotFoundAdvice := ". Ensure the module is installed or check that persistence type value in the config is correct."
  const DisabledMessage := "Executed logic depends on data persistence; however, persistence is disabled in the config."

  /** `SortCriteria`. */
  datatype SortCriteria = ByCreated | ByFinished | ByTime

  /** A call on a backend, with the arguments the facade passes. */
  datatype Operation =
    | StoreOp(info: JobInfo)
    | RemoveOp(id: string)
    | ReadOp(filter: Option<string>, sort: SortCriteria, asc: bool, limit: int, last: bool)
    | CleanUpOp(maxRecords: int, maxAge: Option<int>)
    | CloseOp

  datatype Call = Call(backend: Backend, op: Operation)

  /** The method name an operation calls. */
  function OpName(op: Operation): string
  {
    match op
    case StoreOp(_) => "store_job"
    case RemoveOp(_) => "remove_job"
    case ReadOp(_, _, _, _, _) => "read_jobs"
    case CleanUpOp(_, _) => "clean_up"
    case CloseOp => "close"
  }

  /** How a call passes its arguments: how many positionally, and the keyword names. */
  datatype Args = Args(positional: nat, keywords: set<string>)

  /**
   * The facade's call sites: `store_job(job_info)`, `remove_job(id_=...)`,
   * `read_jobs(id_=..., sort=..., asc=..., limit=..., last=...)`,
   * `clean_up(max_records, max_age)` and `close()`.
   */
  function ArgsOf(op: Operation): Args
  {
    match op
    case StoreOp(_) => Args(1, {})
    case RemoveOp(_) => Args(0, {"id_"})
    case ReadOp(_, _, _, _, _) => Args(0, {"id_", "sort", "asc", "limit", "last"})
    case CleanUpOp(_, _) => Args(2, {})
    case CloseOp => Args(0, {})
  }

  /**
   * A method's parameters after `self`: positional-or-keyword names (none of
   * them with a default in the stub), keyword-only names, and the keyword-only
   * names that have no default.
   */
  datatype Signature = Signature(params: seq<string>, keywordOnly: set<string>, required: set<string>)

  /** The signatures of `NoPersistence`'s methods. */
  function StubSignature(op: Operation): Signature
  {
    match op
    case StoreOp(_) => Signature(["job_info"], {}, {})
    case RemoveOp(_) => Signature(["id_"], {}, {})
    case ReadOp(_, _, _, _, _) => Signature([], {"id_", "sort", "asc", "limit"}, {"sort", "asc", "limit"})
    case CleanUpOp(_, _) => Signature([], {}, {})
    case CloseOp => Signature([], {}, {})
  }

  /**
   * Python's argument binding: no more positional arguments than parameters,
   * every keyword names a parameter not already filled positionally, and every
   * parameter without a default ends up bound.
   */
  predicate Binds(sig: Signature, args: Args)
  {
    args.positional <= |sig.params| &&
    var rest := set k | k in sig.params[args.positional..];
    args.keywords <= rest + sig.keywordOnly &&
    rest <= args.keywords &&
    sig.required <= args.keywords
  }

  /**
   * How a backend answers a call. The stub raises the binding error when the
   * arguments do not fit its method, does nothing on `close`, and otherwise
   * raises `PersistenceDisabledError`. A plugin answers `read_jobs` with
   * `rows` and every other call with nothing.
   */
  function Reply(b: Backend, op: Operation, rows: seq<JobInfo>): (r: Result<seq<JobInfo>, Fault>)
    ensures b.Plugin? ==> r.Ok? && (op.ReadOp? ==> r.value == rows)
    ensures b.NoPersistence? ==> (r.Ok? <==> op.CloseOp?)
  {
    match b
    case NoPersistence(_) =>
      if !Binds(StubSignature(op), ArgsOf(op)) then Err(SignatureMismatch(OpName(op)))
      else if op.CloseOp? then Ok([])
      else Err(PersistenceDisabled)
    case Plugin(_, _) =>
      Ok(if op.ReadOp? then rows else [])
  }

  /**
   * The stub refuses every data operation: store and remove with the disabled
   * error, while the facade's `read_jobs` (which passes `last`) and
   * `clean_up` (which passes two arguments) do not even bind. `close` does
   * nothing.
   */
  lemma StubReplies(n: nat, op: Operation, rows: seq<JobInfo>)
    ensures op.StoreOp? || op.RemoveOp? ==> Reply(NoPersistence(n), op, rows) == Err(PersistenceDisabled)
    ensures op.ReadOp? ==> Reply(NoPersistence(n), op, rows) == Err(SignatureMismatch("read_jobs"))
    ensures op.CleanUpOp? ==> Reply(NoPersistence(n), op, rows) == Err(SignatureMismatch("clean_up"))
    ensures op.CloseOp? ==> Reply(NoPersistence(n), op, rows) == Ok([])
  {
    var sig := StubSignature(op);
    var args := ArgsOf(op);
    match op
    case StoreOp(_) =>
      assert sig.params[1..] == [];
      assert (set k | k in sig.params[1..]) == {};
    case RemoveOp(_) =>
      assert sig.params[0..] == ["id_"];
      assert (set k | k in sig.params[0..]) == {"id_"};
    case ReadOp(_, _, _, _, _) =>
      assert "last" in args.keywords && "last" !in sig.keywordOnly;
    case CleanUpOp(_, _) =>
    case CloseOp =>
      assert (set k | k in sig.params[0..]) == {};
  }

  // ---------------------------------------------------------------------------
  // Resolving a backend type
  // ---------------------------------------------------------------------------

  /** `_load_persistence(type_)`, with the installed plugin module names as `plugins`. */
  function Resolve(enabled: bool, plugins: seq<string>, type_: string, serial: nat): (r: Result<Backend, Fault>)
    ensures r.Err? <==> enabled && FullName(type_) !in plugins
    ensures r.Err? ==> r.error == NotFound(FullName(type_))
    ensures r.Ok? ==> r.value.serial == serial && (r.value.NoPersistence? <==> !enabled)
    ensures r.Ok? && r.value.Plugin? ==> r.value.name == FullName(type_) && r.value.name in plugins
  {
    if !enabled then Ok(NoPersistence(serial))
    else if FullName(type_) in plugins then Ok(Plugin(FullName(type_), serial))
    else Err(NotFound(FullName(type_)))
  }

  /**
   * `_load_persistence(type_)`: the stub when persistence is disabled, whatever
   * the type; otherwise the first plugin module whose name is the package, a
   * dot and the type; otherwise `PersistenceNotFoundError` naming that module.
   */
  method LoadPersistence(enabled: bool, plugins: seq<string>, type_: string, serial: nat)
    returns (r: Result<Backend, Fault>)
    ensures !enabled ==> r == Ok(NoPersistence(serial))
    ensures enabled && FullName(type_) in plugins ==> r == Ok(Plugin(FullName(type_), serial))
    ensures enabled && FullName(type_) !in plugins ==> r == Err(NotFound(FullName(type_)))
    ensures r == Resolve(enabled, plugins, type_, serial)
  {
    if !enabled {
      return Ok(NoPersistence(serial));
    }
    var name := FullName(type_);
    var i := 0;
    while i < |plugins|
      invariant 0 <= i <= |plugins|
      invariant forall j :: 0 <= j < i ==> plugins[j] != name
    {
      if plugins[i] == name {
        return Ok(Plugin(plugins[i], serial));
      }
      i := i + 1;
    }
    return Err(NotFound(name));
  }

  // ---------------------------------------------------------------------------
  // The backend cache
  // ---------------------------------------------------------------------------

  /**
   * The state behind `PersistenceHolder`: its entries (type name, backend) in
   * insertion order, every backend ever loaded, in order, and every call made
   * on a backend, in order.
   */
  datatype HolderState = HolderState(cache: seq<(string, Backend)>, loads: seq<Backend>, calls: seq<Call>)

  /** The backends the cache holds. */
  function Backends(cache: seq<(string, Backend)>): set<Backend>
  {
    set e | e in cache :: e.1
  }

  /** `self[key]` when `key` is present. */
  function CachedFor(cache: seq<(string, Backend)>, key: string): (r: Option<Backend>)
    ensures r.Some? <==> exists e :: e in cache && e.0 == key
    ensures r.Some? ==> (key, r.value) in cache
  {
    if cache == [] then None
    else if cache[0].0 == key then Some(cache[0].1)
    else
      var r := CachedFor(cache[1..], key);
      assert forall e :: e in cache && e.0 == key ==> e in cache[1..];
      r
  }

  /** One `close()` call per cached backend, in the cache's order. */
  function CloseCalls(cache: seq<(string, Backend)>): (r: seq<Call>)
    ensures |r| == |cache|
    ensures forall i :: 0 <= i < |cache| ==> r[i] == Call(cache[i].1, CloseOp)
  {
    if cache == [] then []
    else CloseCalls(cache[..|cache| - 1]) + [Call(cache[|cache| - 1].1, CloseOp)]
  }

  /** A backend has been closed. */
  predicate Retired(h: HolderState, b: Backend)
  {
    Call(b, CloseOp) in h.calls
  }

  /**
   * What the cache keeps true: at most one backend is cached, loaded backends
   * are numbered in order, the cached backend was loaded, and every loaded
   * backend that is no longer cached has been closed.
   */
  predicate Inv(h: HolderState)
  {
    |h.cache| <= 1 &&
    (forall i :: 0 <= i < |h.loads| ==> h.loads[i].serial == i) &&
    (forall e :: e in h.cache ==> e.1 in h.loads) &&
    (forall b :: b in h.loads && b !in Backends(h.cache) ==> Retired(h, b))
  }

  /** `PersistenceHolder.close()`: close every cached backend, then clear. */
  function CloseAll(h: HolderState): HolderState
  {
    HolderState([], h.loads, h.calls + CloseCalls(h.cache))
  }

  /**
   * `_persistence[key]`: a cached key answers its backend and changes nothing;
   * a missing key (`__missing__`) first closes and clears everything, then
   * loads the type and caches it under the key. A failed load leaves the
   * holder empty.
   */
  function Lookup(h: HolderState, key: string, enabled: bool, plugins: seq<string>): (HolderState, Result<Backend, Fault>)
  {
    match CachedFor(h.cache, key)
    case Some(b) => (h, Ok(b))
    case None =>
      var closed := CloseAll(h);
      var loaded := Resolve(enabled, plugins, key, |h.loads|);
      if loaded.Ok? then (HolderState([(key, loaded.value)], closed.loads + [loaded.value], closed.calls), loaded)
      else (closed, loaded)
  }

  /** Closing leaves nothing cached and nothing open, and closing again closes nothing more. */
  lemma CloseRetiresAll(h: HolderState)
    requires Inv(h)
    ensures Inv(CloseAll(h))
    ensures forall b :: b in h.loads ==> Retired(CloseAll(h), b)
    ensures CloseAll(CloseAll(h)) == CloseAll(h)
  {
    var c := CloseAll(h);
    var closes := CloseCalls(h.cache);
    forall b | b in h.loads ensures Retired(c, b) {
      if b in Backends(h.cache) {
        var e :| e in h.cache && e.1 == b;
        var i :| 0 <= i < |h.cache| && h.cache[i] == e;
        assert c.calls[|h.calls| + i] == closes[i];
      } else {
        assert Call(b, CloseOp) in h.calls;
      }
    }
    assert CloseCalls([]) == [];
    assert c.calls + [] == c.calls;
  }

  /**
   * A lookup keeps the invariant, so after any run of lookups at most one
   * backend is cached and every other backend ever loaded has been closed.
   */
  lemma LookupKeepsInv(h: HolderState, key: string, enabled: bool, plugins: seq<string>)
    requires Inv(h)
    ensures Inv(Lookup(h, key, enabled, plugins).0)
  {
    if CachedFor(h.cache, key).None? {
      CloseRetiresAll(h);
      var c := CloseAll(h);
      var loaded := Resolve(enabled, plugins, key, |h.loads|);
      if loaded.Ok? {
        var n := HolderState([(key, loaded.value)], c.loads + [loaded.value], c.calls);
        assert Lookup(h, key, enabled, plugins).0 == n;
        assert Backends(n.cache) == {loaded.value};
        forall b | b in n.loads && b !in Backends(n.cache) ensures Retired(n, b) {
          assert b in h.loads;
        }
      }
    }
  }

  /**
   * Switching to a type that is not cached closes every backend cached before
   * and evicts it; whatever is loaded is a fresh instance.
   */
  lemma SwitchClosesPrevious(h: HolderState, key: string, enabled: bool, plugins: seq<string>)
    requires Inv(h)
    requires CachedFor(h.cache, key).None?
    ensures var (n, r) := Lookup(h, key, enabled, plugins);
      && (forall e :: e in h.cache ==> Retired(n, e.1) && e.1 !in Backends(n.cache))
      && (r.Ok? ==> r.value !in h.loads && n.cache == [(key, r.value)])
      && (r.Err? ==> n.cache == [])
  {
    CloseRetiresAll(h);
  }

  /** Looking the same type up again hits the cache: same backend, no change. */
  lemma LookupTwice(h: HolderState, key: string, enabled: bool, plugins: seq<string>)
    ensures var (n, r) := Lookup(h, key, enabled, plugins);
      r.Ok? ==> Lookup(n, key, enabled, plugins) == (n, r)
  {
  }

  /** The mutable `PersistenceHolder` dict. */
  class PersistenceHolder {
    var cache: seq<(string, Backend)>
    var loads: seq<Backend>
    var calls: seq<Call>

    constructor()
      ensures State() == HolderState([], [], []) && Inv(State())
    {
      cache := [];
      loads := [];
      calls := [];
    }

    function State(): HolderState
      reads this
    {
      HolderState(cache, loads, calls)
    }

    /** `close()`: calls `close` on every cached backend in order, then clears. */
    method Close()
      modifies this
      ensures State() == CloseAll(old(State()))
    {
      var i := 0;
      while i < |cache|
        invariant 0 <= i <= |cache|
        invariant cache == old(cache) && loads == old(loads)
        invariant calls == old(calls) + CloseCalls(cache[..i])
      {
        assert cache[..i + 1][..i] == cache[..i];
        calls := calls + [Call(cache[i].1, CloseOp)];
        i := i + 1;
      }
      assert cache[..i] == cache;
      cache := [];
    }

    /** `self[key]`, including `__missing__`. */
    method Get(key: string, enabled: bool, plugins: seq<string>) returns (r: Result<Backend, Fault>)
      modifies this
      ensures (State(), r) == Lookup(old(State()), key, enabled, plugins)
    {
      var hit := CachedFor(cache, key);
      if hit.Some? {
        return Ok(hit.value);
      }
      ghost var before := State();
      Close();
      assert State() == CloseAll(before);
      r := LoadPersistence(enabled, plugins, key, |loads|);
      if r.Ok? {
        cache := cache + [(key, r.value)];
        loads := loads + [r.value];
        assert State() == HolderState([(key, r.value)], CloseAll(before).loads + [r.value], CloseAll(before).calls);
      }
    }

    /** A call on a backend: recorded, then answered. */
    method Invoke(b: Backend, op: Operation, rows: seq<JobInfo>) returns (r: Result<seq<JobInfo>, Fault>)
      modifies this
      ensures (State(), r) == InvokeEffect(old(State()), b, op, rows)
    {
      calls := calls + [Call(b, op)];
      r := Reply(b, op, rows);
    }
  }

  /** A call on a backend, as a state change of the holder. */
  function InvokeEffect(h: HolderState, b: Backend, op: Operation, rows: seq<JobInfo>): (HolderState, Result<seq<JobInfo>, Fault>)
  {
    (h.(calls := h.calls + [Call(b, op)]), Reply(b, op, rows))
  }

  // ---------------------------------------------------------------------------
  // The facade
  // ---------------------------------------------------------------------------

  /** The configuration values the facade reads. `maxAge` is the raw duration text. */
  datatype Config = Config(enabled: bool, persistenceType: string, maxAge: Option<string>, maxRecords: int)

  /**
   * What the facade depends on besides the holder: the configuration, the
   * installed plugin module names, and the ISO 8601 duration parser (None
   * stands for its ValueError).
   */
  datatype Env = Env(config: Config, plugins: seq<string>, parseDuration: string -> Option<int>)

  /** The `max_age` `clean_up` computes: absent when unset or empty, Err when the text does not parse. */
  function ParsedMaxAge(env: Env): (r: Result<Option<int>, string>)
    ensures r.Err? <==> env.config.maxAge.Some? && env.config.maxAge.value != ""
                        && env.parseDuration(env.config.maxAge.value).None?
    ensures r.Ok? && r.value.Some? ==>
              env.config.maxAge.Some? && env.parseDuration(env.config.maxAge.value) == r.value
    ensures env.config.maxAge.None? || env.config.maxAge.value == "" ==> r == Ok(None)
    ensures (env.config.maxAge.Some? && env.config.maxAge.value != ""
             && env.parseDuration(env.config.maxAge.value).Some?) ==> r == Ok(env.parseDuration(env.config.maxAge.value))
  {
    match env.config.maxAge
    case None => Ok(None)
    case Some(text) =>
      if text == "" then Ok(None)
      else match env.parseDuration(text)
        case None => Err(text)
        case Some(d) => Ok(Some(d))
  }

  /** `_instance()`. */
  function InstanceEffect(h: HolderState, env: Env): (HolderState, Result<Backend, Fault>)
  {
    Lookup(h, env.config.persistenceType, env.config.enabled, env.plugins)
  }

  /** Looks the backend up, then calls it. */
  function OnInstance(h: HolderState, env: Env, op: Operation, rows: seq<JobInfo>): (HolderState, Result<seq<JobInfo>, Fault>)
  {
    var (h1, b) := InstanceEffect(h, env);
    match b
    case Err(f) => (h1, Err(f))
    case Ok(backend) => InvokeEffect(h1, backend, op, rows)
  }

  /** `read_jobs(...)`; `rows` is what a plugin holds. */
  function ReadJobsEffect(h: HolderState, env: Env, id: Option<string>, sort: SortCriteria, asc: bool,
                          limit: int, last: bool, rows: seq<JobInfo>): (HolderState, Result<seq<JobInfo>, Fault>)
  {
    OnInstance(h, env, ReadOp(id, sort, asc, limit, last), rows)
  }

  /** `num_of_job(id_)`: the length of the unlimited read. */
  function NumOfJobEffect(h: HolderState, env: Env, id: Option<string>, rows: seq<JobInfo>): (HolderState, Result<nat, Fault>)
  {
    var (h1, r) := ReadJobsEffect(h, env, id, ByCreated, false, -1, false, rows);
    (h1, match r case Ok(jobs) => Ok(|jobs|) case Err(f) => Err(f))
  }

  /** `remove_job(id_)`. */
  function RemoveJobEffect(h: HolderState, env: Env, id: string): (HolderState, Result<(), Fault>)
  {
    var (h1, r) := OnInstance(h, env, RemoveOp(id), []);
    (h1, match r case Ok(_) => Ok(()) case Err(f) => Err(f))
  }

  /**
   * `clean_up()`: an unparsable max age is reported (on stderr) and ends the
   * call before the backend is even looked up.
   */
  function CleanUpEffect(h: HolderState, env: Env): (HolderState, Result<(), Fault>)
  {
    match ParsedMaxAge(env)
    case Err(_) => (h, Ok(()))
    case Ok(maxAge) =>
      var (h1, r) := OnInstance(h, env, CleanUpOp(env.config.maxRecords, maxAge), []);
      (h1, match r case Ok(_) => Ok(()) case Err(f) => Err(f))
  }

  /** `store_job(job_info)`: store, then clean up. */
  function StoreJobEffect(h: HolderState, env: Env, info: JobInfo): (HolderState, Result<(), Fault>)
  {
    var (h1, r) := OnInstance(h, env, StoreOp(info), []);
    match r
    case Err(f) => (h1, Err(f))
    case Ok(_) => CleanUpEffect(h1, env)
  }

  /** The backend calls `clean_up` makes once the backend `b` is cached under the configured type. */
  function CleanUpCalls(env: Env, b: Backend): seq<Call>
  {
    match ParsedMaxAge(env)
    case Err(_) => []
    case Ok(maxAge) => [Call(b, CleanUpOp(env.config.maxRecords, maxAge))]
  }

  /**
   * `store_job` calls `store_job` on the backend first, and `clean_up` on the
   * same backend only after the store returned and only when the max age
   * parses; the second lookup hits the cache and changes nothing. When the
   * lookup fails nothing is called.
   */
  lemma StoreThenCleanUp(h: HolderState, env: Env, info: JobInfo)
    ensures var (h1, lb) := InstanceEffect(h, env);
            var (h2, r) := StoreJobEffect(h, env, info);
      && (lb.Err? ==> h2 == h1 && r == Err(lb.error))
      && (lb.Ok? ==> h2.cache == h1.cache && h2.loads == h1.loads)
      && (lb.Ok? && Reply(lb.value, StoreOp(info), []).Err? ==>
            h2.calls == h1.calls + [Call(lb.value, StoreOp(info))] && r == Err(Reply(lb.value, StoreOp(info), []).error))
      && (lb.Ok? && Reply(lb.value, StoreOp(info), []).Ok? ==>
            h2.calls == h1.calls + [Call(lb.value, StoreOp(info))] + CleanUpCalls(env, lb.value))
  {
    var (h1, lb) := InstanceEffect(h, env);
    if lb.Ok? {
      var key := env.config.persistenceType;
      assert CachedFor(h1.cache, key) == Some(lb.value);
      var s := InvokeEffect(h1, lb.value, StoreOp(info), []).0;
      assert CachedFor(s.cache, key) == Some(lb.value);
      assert InstanceEffect(s, env) == (s, lb);
    }
  }

  /**
   * An unparsable max age makes `clean_up` return normally without touching
   * the holder; a parsable one calls `clean_up(max_records, max_age)` on the
   * configured backend.
   */
  lemma CleanUpMaxAge(h: HolderState, env: Env)
    ensures ParsedMaxAge(env).Err? ==> CleanUpEffect(h, env) == (h, Ok(()))
    ensures var (h1, lb) := InstanceEffect(h, env);
      ParsedMaxAge(env).Ok? && lb.Ok? ==>
        CleanUpEffect(h, env).0.calls == h1.calls + [Call(lb.value, CleanUpOp(env.config.maxRecords, ParsedMaxAge(env).value))]
  {
  }

  /** `num_of_job` counts what a plugin reads back, without a limit. */
  lemma NumOfJobCounts(h: HolderState, env: Env, id: Option<string>, rows: seq<JobInfo>)
    ensures var (h1, lb) := InstanceEffect(h, env);
      lb.Ok? && lb.value.Plugin? ==>
        NumOfJobEffect(h, env, id, rows) == (h1.(calls := h1.calls + [Call(lb.value, ReadOp(id, ByCreated, false, -1, false))]), Ok(|rows|))
  {
  }

  /**
   * With the stub as the configured backend, every facade operation fails:
   * store and remove with the disabled error, read and `num_of_job` with the
   * binding error of `read_jobs`, and `clean_up` (unless the max age does not
   * parse) with the binding error of `clean_up`.
   */
  lemma StubFacade(h: HolderState, env: Env, info: JobInfo, id: string, filter: Option<string>, sort: SortCriteria,
                   asc: bool, limit: int, last: bool, rows: seq<JobInfo>)
    requires InstanceEffect(h, env).1.Ok? && InstanceEffect(h, env).1.value.NoPersistence?
    ensures StoreJobEffect(h, env, info).1 == Err(PersistenceDisabled)
    ensures RemoveJobEffect(h, env, id).1 == Err(PersistenceDisabled)
    ensures ReadJobsEffect(h, env, filter, sort, asc, limit, last, rows).1 == Err(SignatureMismatch("read_jobs"))
    ensures NumOfJobEffect(h, env, filter, rows).1 == Err(SignatureMismatch("read_jobs"))
    ensures CleanUpEffect(h, env).1 == if ParsedMaxAge(env).Err? then Ok(()) else Err(SignatureMismatch("clean_up"))
  {
    var n := InstanceEffect(h, env).1.value.serial;
    StubReplies(n, StoreOp(info), []);
    StubReplies(n, RemoveOp(id), []);
    StubReplies(n, ReadOp(filter, sort, asc, limit, last), rows);
    StubReplies(n, ReadOp(filter, ByCreated, false, -1, false), rows);
    if ParsedMaxAge(env).Ok? {
      StubReplies(n, CleanUpOp(env.config.maxRecords, ParsedMaxAge(env).value), []);
    }
  }

  /**
   * With persistence disabled, a type that is not cached resolves to a new
   * stub, whatever the type and the installed plugins.
   */
  lemma DisabledGivesStub(h: HolderState, env: Env)
    requires !env.config.enabled && CachedFor(h.cache, env.config.persistenceType).None?
    ensures InstanceEffect(h, env).1 == Ok(NoPersistence(|h.loads|))
  {
  }

  /** `_instance()` on the module's holder. */
  method Instance(holder: PersistenceHolder, env: Env) returns (r: Result<Backend, Fault>)
    modifies holder
    ensures (holder.State(), r) == InstanceEffect(old(holder.State()), env)
  {
    r := holder.Get(env.config.persistenceType, env.config.enabled, env.plugins);
  }

  method CallOnInstance(holder: PersistenceHolder, env: Env, op: Operation, rows: seq<JobInfo>)
    returns (r: Result<seq<JobInfo>, Fault>)
    modifies holder
    ensures (holder.State(), r) == OnInstance(old(holder.State()), env, op, rows)
  {
    var b := Instance(holder, env);
    if b.Err? {
      return Err(b.error);
    }
    r := holder.Invoke(b.value, op, rows);
  }

  /** `read_jobs(id_=..., sort=..., asc=..., limit=..., last=...)`. */
  method ReadJobs(holder: PersistenceHolder, env: Env, id: Option<string>, sort: SortCriteria, asc: bool,
                  limit: int, last: bool, rows: seq<JobInfo>) returns (r: Result<seq<JobInfo>, Fault>)
    modifies holder
    ensures (holder.State(), r) == ReadJobsEffect(old(holder.State()), env, id, sort, asc, limit, last, rows)
  {
    r := CallOnInstance(holder, env, ReadOp(id, sort, asc, limit, last), rows);
  }

  /** `num_of_job(id_)`. */
  method NumOfJob(holder: PersistenceHolder, env: Env, id: Option<string>, rows: seq<JobInfo>) returns (r: Result<nat, Fault>)
    modifies holder
    ensures (holder.State(), r) == NumOfJobEffect(old(holder.State()), env, id, rows)
  {
    var jobs := ReadJobs(holder, env, id, ByCreated, false, -1, false, rows);
    if jobs.Err? {
      return Err(jobs.error);
    }
    return Ok(|jobs.value|);
  }

  /** `remove_job(id_)`. */
  method RemoveJob(holder: PersistenceHolder, env: Env, id: string) returns (r: Result<(), Fault>)
    modifies holder
    ensures (holder.State(), r) == RemoveJobEffect(old(holder.State()), env, id)
  {
    var done := CallOnInstance(holder, env, RemoveOp(id), []);
    if done.Err? {
      return Err(done.error);
    }
    return Ok(());
  }

  /** `clean_up()`. */
  method CleanUp(holder: PersistenceHolder, env: Env) returns (r: Result<(), Fault>)
    modifies holder
    ensures (holder.State(), r) == CleanUpEffect(old(holder.State()), env)
  {
    var maxAge := ParsedMaxAge(env);
    if maxAge.Err? {
      return Ok(());
    }
    var done := CallOnInstance(holder, env, CleanUpOp(env.config.maxRecords, maxAge.value), []);
    if done.Err? {
      return Err(done.error);
    }
    return Ok(());
  }

  /** `store_job(job_info)`. */
  method StoreJob(holder: PersistenceHolder, env: Env, info: JobInfo) returns (r: Result<(), Fault>)
    modifies holder
    ensures (holder.State(), r) == StoreJobEffect(old(holder.State()), env, info)
  {
    var done := CallOnInstance(holder, env, StoreOp(info), []);
    if done.Err? {
      return Err(done.error);
    }
    r := CleanUp(holder, env);
  }

  /** `close()` of the module. */
  method Close(holder: PersistenceHolder)
    modifies holder
    ensures holder.State() == CloseAll(old(holder.State()))
  {
    holder.Close();
  }

  // ---------------------------------------------------------------------------
  // Sort keys
  // ---------------------------------------------------------------------------

  /** `KeyError`: the lifecycle has no entry for the state. */
  datatype KeyError = KeyError(state: ExecutionState)

  /**
   * `_sort_key(sort)(job)` on the job's lifecycle: the CREATED timestamp (a
   * KeyError when CREATED was never recorded), the finish time, or the
   * execution time at `now`.
   */
  function SortKey(sort: SortCriteria, l: Lifecycle, now: int): (r: Result<Option<int>, KeyError>)
    ensures r.Err? <==> sort == ByCreated && Created !in States(l)
    ensures r.Err? ==> r.error == KeyError(Created)
    ensures sort == ByCreated ==> forall i :: 0 <= i < |l| && l[i].state == Created ==> r == Ok(Some(l[i].changed))
    ensures sort == ByFinished ==> r.Ok? && (r.value.Some? <==> IsTerminal(State(l)))
                                   && (r.value.Some? ==> r.value == LastChanged(l))
    ensures sort == ByFinished ==> r == Ok(ExecutionFinished(l))
    ensures sort == ByTime ==> r.Ok? && (r.value.Some? <==> Executed(l))
    ensures sort == ByTime ==> r == Ok(ExecutionTime(l, now))
  {
    match sort
    case ByCreated =>
      (match Changed(l, Created) case Some(t) => Ok(Some(t)) case None => Err(KeyError(Created)))
    case ByFinished => Ok(ExecutionFinished(l))
    case ByTime => Ok(ExecutionTime(l, now))
  }

  /** Sorting by time never sees a negative duration on a chronological ledger read after its last change. */
  lemma SortByTimeNonNegative(l: Lifecycle, now: int)
    requires Chronological(l)
    requires LastChanged(l).Some? ==> LastChanged(l).value <= now
    ensures SortKey(ByTime, l, now).value.Some? ==> SortKey(ByTime, l, now).value.value >= 0
  {
    ExecutionTimeNonNegative(l, now);
  }
}
