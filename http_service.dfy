/**
 * A managed HTTP service process on localhost (`mountepy/http_service.py`):
 * command and environment templating, start with readiness probing and
 * cleanup on failure, stop, and the exit-hook bookkeeping around them.
 * Clock readings are integer milliseconds.
 */
module HttpService {
  import opened Wrappers
  import opened Text
  import opened ExitHooks
  import opened Processes
  import opened Readiness

  /** The default timeout of `start` and `wait_for_port`: 5.0 seconds. */
  const DefaultTimeout: int := 5000

  /** A token `str.format` handles as a plain substitution: one holding `{port}` has no other braces. */
  predicate Formattable(t: string) {
    Contains(t, Placeholder) ==> IsTemplate(t)
  }

  predicate CommandFormattable(c: Command) {
    c.Tokens? ==> forall i :: 0 <= i < |c.parts| ==> Formattable(c.parts[i])
  }

  predicate EnvFormattable(env: Option<map<string, string>>) {
    env.Some? ==> forall k :: k in env.value ==> Formattable(env.value[k])
  }

  /** One token or environment value: formatted only when it holds `{port}`. */
  function FormatPart(t: string, port: nat): (r: string)
    requires Formattable(t)
    ensures !Contains(r, Placeholder)
    ensures r == t <==> !Contains(t, Placeholder)
    ensures Contains(t, Placeholder) ==> r == Format(t, port)
  {
    if Contains(t, Placeholder) then
      FormatChangesIff(t, port);
      FormatHasNoBraces(t, port);
      NoBracesNoPlaceholder(Format(t, port));
      Format(t, port)
    else
      t
  }

  /** Every token formatted, in order. */
  function FormatParts(parts: seq<string>, port: nat): (r: seq<string>)
    requires forall i :: 0 <= i < |parts| ==> Formattable(parts[i])
    ensures |r| == |parts|
    ensures forall i :: 0 <= i < |r| ==> r[i] == FormatPart(parts[i], port)
  {
    seq(|parts|, i requires 0 <= i < |parts| => FormatPart(parts[i], port))
  }

  /** Formatting a concatenation of token lists formats each list. */
  lemma FormatPartsConcat(a: seq<string>, b: seq<string>, port: nat)
    requires forall i :: 0 <= i < |a| ==> Formattable(a[i])
    requires forall i :: 0 <= i < |b| ==> Formattable(b[i])
    ensures forall i :: 0 <= i < |a + b| ==> Formattable((a + b)[i])
    ensures FormatParts(a + b, port) == FormatParts(a, port) + FormatParts(b, port)
  {
  }

  /**
   * `_format_process_command`: a token list keeps its length and order, every
   * token holding `{port}` is substituted and every other token is kept; a
   * single string is passed through untouched, `{port}` or not.
   */
  function FormatProcessCommand(command: Command, port: nat): (r: Command)
    requires CommandFormattable(command)
    ensures command.Literal? ==> r == command
    ensures command.Tokens? ==> r.Tokens? && |r.parts| == |command.parts|
    ensures command.Tokens? ==> forall i :: 0 <= i < |r.parts| ==>
      && !Contains(r.parts[i], Placeholder)
      && (r.parts[i] == command.parts[i] <==> !Contains(command.parts[i], Placeholder))
      && (Contains(command.parts[i], Placeholder) ==> r.parts[i] == Format(command.parts[i], port))
  {
    match command
    case Literal(_) => command
    case Tokens(parts) => Tokens(FormatParts(parts, port))
  }

  const UrlPrefix: string := "http://localhost:"

  /** The service's base URL; the text after the prefix names the port. */
  function Url(port: nat): (u: string)
    ensures u == UrlPrefix + Decimal(port)
    ensures StartsWith(u, UrlPrefix)
    ensures AllDigits(u[|UrlPrefix|..]) && ParseDecimal(u[|UrlPrefix|..]) == port
  {
    DecimalRoundTrip(port);
    assert (UrlPrefix + Decimal(port))[|UrlPrefix|..] == Decimal(port);
    UrlPrefix + Decimal(port)
  }

  /** Services on different ports have different URLs. */
  lemma UrlInjective(m: nat, n: nat)
    requires Url(m) == Url(n)
    ensures m == n
  {
  }

  /** `env or {}` */
  function Given(env: Option<map<string, string>>): map<string, string> {
    if env.Some? then env.value else map[]
  }

  /**
   * The environment a service is started with: the given variables with
   * `{port}` substituted in their values, laid over the parent's
   * environment when it is copied, alone otherwise.
   */
  ghost predicate IsProcessEnv(
    e: map<string, string>, copyParentEnv: bool, env: Option<map<string, string>>,
    parentEnv: map<string, string>, port: nat)
    requires EnvFormattable(env)
  {
    var given := Given(env);
    && e.Keys == (if copyParentEnv then parentEnv.Keys + given.Keys else given.Keys)
    && (forall k :: k in given ==> e[k] == FormatPart(given[k], port))
    && (forall k :: k in parentEnv && k !in given && copyParentEnv ==> e[k] == parentEnv[k])
  }

  /** The description above fixes the environment completely. */
  lemma ProcessEnvUnique(
    e1: map<string, string>, e2: map<string, string>, copyParentEnv: bool,
    env: Option<map<string, string>>, parentEnv: map<string, string>, port: nat)
    requires EnvFormattable(env)
    requires IsProcessEnv(e1, copyParentEnv, env, parentEnv, port)
    requires IsProcessEnv(e2, copyParentEnv, env, parentEnv, port)
    ensures e1 == e2
  {
  }

  /**
   * `_format_process_env`: copies the given variables, substitutes `{port}`
   * value by value, then either returns them or overlays them on a copy of
   * the parent's environment (`os.environ`, passed in).
   */
  method FormatProcessEnv(
    copyParentEnv: bool, env: Option<map<string, string>>, parentEnv: map<string, string>, port: nat)
    returns (finalEnv: map<string, string>)
    requires EnvFormattable(env)
    ensures IsProcessEnv(finalEnv, copyParentEnv, env, parentEnv, port)
    ensures forall k :: k in Given(env) ==> !Contains(finalEnv[k], Placeholder)
  {
    var given := Given(env);
    var formatted := given;
    var pending := given.Keys;
    while pending != {}
      invariant pending <= given.Keys
      invariant formatted.Keys == given.Keys
      invariant forall k :: k in given && k !in pending ==> formatted[k] == FormatPart(given[k], port)
      invariant forall k :: k in pending ==> formatted[k] == given[k]
      decreases pending
    {
      var key :| key in pending;
      if Contains(given[key], Placeholder) {
        formatted := formatted[key := Format(given[key], port)];
      }
      pending := pending - {key};
    }
    if copyParentEnv {
      finalEnv := parentEnv + formatted;
    } else {
      finalEnv := formatted;
    }
  }

  /**
   * `wait_for_port`: connect until a connection is accepted; after any failed
   * connect sleep, then raise once the elapsed time has reached the timeout.
   */
  method WaitForPort(attempts: seq<Attempt>, start: int, timeout: int := DefaultTimeout)
    returns (outcome: WaitOutcome)
    requires Ends(attempts, start, timeout, AnyOSError, 0)
    ensures outcome == Probe(attempts, start, timeout, AnyOSError)
    ensures outcome.PortOpen? || outcome.TimedOut?
  {
    var i := 0;
    while true
      invariant i < |attempts| && Ends(attempts, start, timeout, AnyOSError, i)
      invariant Probe(attempts, start, timeout, AnyOSError) == ProbeFrom(attempts, start, timeout, AnyOSError, i)
      decreases |attempts| - i
    {
      var attempt := attempts[i];
      if attempt.result == Accepted {
        return PortOpen(i + 1);
      }
      if attempt.clockAfterSleep - start >= timeout {
        return TimedOut(i + 1);
      }
      i := i + 1;
    }
  }

  /** What `start` and `stop` raise: `TimeoutError`, or the error of stopping a service never started. */
  datatype ServiceError = PortTimeout | NoProcess

  /** The lifecycle phase, read off the process handle. */
  datatype Phase = Created | Running | Stopped

  class HttpService {
    const port: nat
    const url: string
    const processCommand: Command
    const serviceEnv: map<string, string>
    const exitHooks: ExitRegistry
    var serviceProc: Option<Process>

    /** `HttpService(process_command, port, env, copy_parent_env)`; `randomPort` stands for `port_for.select_random()`. */
    constructor (
      command: Command, randomPort: nat, parentEnv: map<string, string>, exitHooks: ExitRegistry,
      port: Option<nat> := None, env: Option<map<string, string>> := None, copyParentEnv: bool := true)
      requires CommandFormattable(command) && EnvFormattable(env)
      ensures this.port == (if port.Some? then port.value else randomPort)
      ensures url == Url(this.port)
      ensures processCommand == FormatProcessCommand(command, this.port)
      ensures IsProcessEnv(serviceEnv, copyParentEnv, env, parentEnv, this.port)
      ensures this.exitHooks == exitHooks
      ensures serviceProc == None
    {
      var p := if port.Some? then port.value else randomPort;
      var e := FormatProcessEnv(copyParentEnv, env, parentEnv, p);
      this.port := p;
      url := Url(p);
      processCommand := FormatProcessCommand(command, p);
      serviceEnv := e;
      this.exitHooks := exitHooks;
      serviceProc := None;
    }

    function Phase(): Phase
      reads this
    {
      match serviceProc
      case None => Created
      case Some(p) => if p.reaped then Stopped else Running
    }

    /**
     * `start`: spawn the process with the formatted command and environment,
     * register this service's exit hook, then probe the port; when the probe
     * raises, stop the service and raise the probe's error.
     */
    method Start(pid: nat, attempts: seq<Attempt>, start: int, timeout: int := DefaultTimeout)
      returns (r: Outcome<ServiceError>)
      requires Ends(attempts, start, timeout, AnyOSError, 0)
      modifies this, exitHooks
      ensures serviceProc.Some? && serviceProc.value.pid == pid
      ensures serviceProc.value.command == processCommand && serviceProc.value.env == Some(serviceEnv)
      ensures r.Pass? <==> Probe(attempts, start, timeout, AnyOSError).PortOpen?
      ensures r.Pass? ==> Phase() == Running && serviceProc.value.signals == []
      ensures r.Pass? ==> exitHooks.hooks == old(exitHooks.hooks) + [this]
      ensures r.Fail? ==> r.error == PortTimeout && Phase() == Stopped && serviceProc.value.signals == [SigInt]
      ensures r.Fail? ==> exitHooks.hooks == Without(old(exitHooks.hooks), this)
    {
      serviceProc := Some(Spawn(pid, processCommand, Some(serviceEnv)));
      exitHooks.Register(this);
      var probe := WaitForPort(attempts, start, timeout);
      if !probe.PortOpen? {
        var stopped := Stop();
        WithoutAppended(old(exitHooks.hooks), this);
        return Fail(PortTimeout);
      }
      r := Pass;
    }

    /**
     * `stop`: unregister the exit hook, then interrupt the process and wait
     * for it; without a process the call fails after unregistering.
     */
    method Stop() returns (r: Outcome<ServiceError>)
      modifies this, exitHooks
      ensures exitHooks.hooks == Without(old(exitHooks.hooks), this)
      ensures old(serviceProc).None? ==> r == Fail(NoProcess) && serviceProc == None
      ensures old(serviceProc).Some? ==> r == Pass && serviceProc == Some(SignalAndWait(old(serviceProc).value, SigInt))
      ensures old(serviceProc).Some? ==> Phase() == Stopped
    {
      exitHooks.Unregister(this);
      if serviceProc.None? {
        return Fail(NoProcess);
      }
      serviceProc := Some(SignalAndWait(serviceProc.value, SigInt));
      r := Pass;
    }

    /**
     * `with service:` — `__enter__` starts with the default timeout and
     * `__exit__` stops; a start that raises has already stopped the service.
     * Either way this service's hook is gone from the registry afterwards,
     * which leaves a registry it was not in as it began.
     */
    method With(pid: nat, attempts: seq<Attempt>, start: int) returns (r: Outcome<ServiceError>)
      requires Ends(attempts, start, DefaultTimeout, AnyOSError, 0)
      modifies this, exitHooks
      ensures r.Pass? <==> Probe(attempts, start, DefaultTimeout, AnyOSError).PortOpen?
      ensures exitHooks.hooks == Without(old(exitHooks.hooks), this)
      ensures this !in old(exitHooks.hooks) ==> exitHooks.hooks == old(exitHooks.hooks)
      ensures Phase() == Stopped
    {
      r := Start(pid, attempts, start);
      if r.Pass? {
        var stopped := Stop();
        WithoutAppended(old(exitHooks.hooks), this);
      }
      if this !in old(exitHooks.hooks) {
        WithoutAbsent(old(exitHooks.hooks), this);
      }
    }
  }
}
