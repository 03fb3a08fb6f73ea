/**
 * The first, single-file release (`mountepy/mountepy.py`): a service class
 * without environment handling whose probe retries only refused connections
 * and whose stop kills the process, and a Mountebank client whose imposter
 * calls return nothing.
 */
module Legacy {
  import opened Wrappers
  import opened Text
  import opened ExitHooks
  import opened Processes
  import opened Readiness
  import opened Imposters
  import Current = HttpService
  import Mb = Mountebank

  /**
   * `_format_process_command` (`type(command) != str`): the same templating
   * as the later release.
   */
  function FormatProcessCommand(command: Command, port: nat): (r: Command)
    requires Current.CommandFormattable(command)
    ensures r == Current.FormatProcessCommand(command, port)
  {
    if !command.Literal? then
      Tokens(seq(|command.parts|, i requires 0 <= i < |command.parts| => Current.FormatPart(command.parts[i], port)))
    else
      command
  }

  /**
   * `_wait_for_port`: like the later probe, except that only a refused
   * connection is retried; any other connect error escapes at once.
   */
  method WaitForPort(attempts: seq<Attempt>, start: int, timeout: int := Current.DefaultTimeout)
    returns (outcome: WaitOutcome)
    requires Ends(attempts, start, timeout, RefusedOnly, 0)
    ensures outcome == Probe(attempts, start, timeout, RefusedOnly)
  {
    var i := 0;
    while true
      invariant i < |attempts| && Ends(attempts, start, timeout, RefusedOnly, i)
      invariant Probe(attempts, start, timeout, RefusedOnly) == ProbeFrom(attempts, start, timeout, RefusedOnly, i)
      decreases |attempts| - i
    {
      var attempt := attempts[i];
      if attempt.result == Accepted {
        return PortOpen(i + 1);
      }
      if attempt.result != Refused {
        return ConnectFailed(i + 1);
      }
      if attempt.clockAfterSleep - start >= timeout {
        return TimedOut(i + 1);
      }
      i := i + 1;
    }
  }

  /** `TimeoutError`, a connect error other than refusal, or stopping a service never started. */
  datatype ServiceError = PortTimeout | ConnectError | NoProcess

  function ProbeError(outcome: WaitOutcome): ServiceError {
    if outcome.TimedOut? then PortTimeout else ConnectError
  }

  class HttpService {
    const port: nat
    const processCommand: Command
    const exitHooks: ExitRegistry
    var serviceProc: Option<Process>

    /** `HttpService(process_command, port)`; `randomPort` stands for `port_for.select_random()`. */
    constructor (command: Command, randomPort: nat, exitHooks: ExitRegistry, port: Option<nat> := None)
      requires Current.CommandFormattable(command)
      ensures this.port == (if port.Some? then port.value else randomPort)
      ensures processCommand == Current.FormatProcessCommand(command, this.port)
      ensures this.exitHooks == exitHooks && serviceProc == None
    {
      var p := if port.Some? then port.value else randomPort;
      this.port := p;
      processCommand := FormatProcessCommand(command, p);
      this.exitHooks := exitHooks;
      serviceProc := None;
    }

    /**
     * `start`: spawn the process (inheriting the environment), register the
     * exit hook, probe the port; when the probe raises, stop and re-raise.
     */
    method Start(pid: nat, attempts: seq<Attempt>, start: int, timeout: int := Current.DefaultTimeout)
      returns (r: Outcome<ServiceError>)
      requires Ends(attempts, start, timeout, RefusedOnly, 0)
      modifies this, exitHooks
      ensures serviceProc.Some? && serviceProc.value.pid == pid
      ensures serviceProc.value.command == processCommand && serviceProc.value.env == None
      ensures r.Pass? <==> Probe(attempts, start, timeout, RefusedOnly).PortOpen?
      ensures r.Pass? ==> !serviceProc.value.reaped && serviceProc.value.signals == []
      ensures r.Pass? ==> exitHooks.hooks == old(exitHooks.hooks) + [this]
      ensures r.Fail? ==> r.error == ProbeError(Probe(attempts, start, timeout, RefusedOnly))
      ensures r.Fail? ==> serviceProc.value.reaped && serviceProc.value.signals == [SigKill]
      ensures r.Fail? ==> exitHooks.hooks == Without(old(exitHooks.hooks), this)
    {
      serviceProc := Some(Spawn(pid, processCommand, None));
      exitHooks.Register(this);
      var probe := WaitForPort(attempts, start, timeout);
      if !probe.PortOpen? {
        var stopped := Stop();
        WithoutAppended(old(exitHooks.hooks), this);
        return Fail(ProbeError(probe));
      }
      r := Pass;
    }

    /** `stop`: unregister the exit hook, then kill the process and wait for it. */
    method Stop() returns (r: Outcome<ServiceError>)
      modifies this, exitHooks
      ensures exitHooks.hooks == Without(old(exitHooks.hooks), this)
      ensures old(serviceProc).None? ==> r == Fail(NoProcess) && serviceProc == None
      ensures old(serviceProc).Some? ==> r == Pass && serviceProc == Some(SignalAndWait(old(serviceProc).value, SigKill))
    {
      exitHooks.Unregister(this);
      if serviceProc.None? {
        return Fail(NoProcess);
      }
      serviceProc := Some(SignalAndWait(serviceProc.value, SigKill));
      r := Pass;
    }
  }

  /** The first release's Mountebank command. */
  const MbCommand: seq<string> := ["mb", "--port", Placeholder]

  /** The command formats to `mb --port <port>`. */
  lemma MbCommandFormat(port: nat)
    ensures Current.CommandFormattable(Tokens(MbCommand))
    ensures Current.FormatProcessCommand(Tokens(MbCommand), port) == Tokens(["mb", "--port", Decimal(port)])
  {
    NoOpenBraceNoPlaceholder("mb");
    NoOpenBraceNoPlaceholder("--port");
    assert Contains(Placeholder, Placeholder);
    FormatPlaceholder(port);
  }

  /** The dictionary literal of `add_imposter_simple`: exactly the one-stub document of the multi-stub builder. */
  function SimpleImposterConfig(port: nat, httpMethod: string, path: string, statusCode: int, response: string)
    : (c: ImposterConfig)
    ensures c == ConfigFor(port, [HttpStub(httpMethod, path, statusCode, response)])
  {
    assert StubsFor([HttpStub(httpMethod, path, statusCode, response)])[0]
      == StubFor(HttpStub(httpMethod, path, statusCode, response));
    ImposterConfig(port, "http", [
      Stub([Is(statusCode, map["Content-Type" := "application/json"], response)],
           [And([Equals(path, httpMethod)])])
    ])
  }

  class Mountebank {
    const service: HttpService
    const impostersUrl: string

    /** `Mountebank(port)`: runs `mb --port {port}`. */
    constructor (randomPort: nat, exitHooks: ExitRegistry, port: Option<nat> := None)
      ensures fresh(service)
      ensures service.port == (if port.Some? then port.value else randomPort)
      ensures service.processCommand == Tokens(["mb", "--port", Decimal(service.port)])
      ensures service.exitHooks == exitHooks && service.serviceProc == None
      ensures impostersUrl == Current.Url(service.port) + "/imposters"
    {
      MbCommandFormat(if port.Some? then port.value else randomPort);
      var s := new HttpService(Tokens(MbCommand), randomPort, exitHooks, port);
      service := s;
      impostersUrl := Mb.ImpostersUrl(s.port);
    }

    /** `add_imposter`: POST the document; an HTTP error status raises, nothing is returned. */
    function AddImposter(config: ImposterConfig, postStatus: int): (r: Outcome<int>)
      ensures r.Fail? <==> Mb.IsHttpError(postStatus)
      ensures r.Fail? ==> r.error == postStatus
    {
      if Mb.IsHttpError(postStatus) then Fail(postStatus) else Pass
    }

    /** `add_imposter_simple`: posts the one-stub document built from the arguments. */
    method AddImposterSimple(
      port: nat, httpMethod: string, path: string, statusCode: int, response: string, postStatus: int)
      returns (config: ImposterConfig, r: Outcome<int>)
      ensures config.port == port && config.protocol == "http"
      ensures ReadStubs(config.stubs) == Some([HttpStub(httpMethod, path, statusCode, response)])
      ensures r == AddImposter(config, postStatus)
    {
      config := SimpleImposterConfig(port, httpMethod, path, statusCode, response);
      r := AddImposter(config, postStatus);
    }

    /** `add_imposters_simple`: appends one stub document per stub, in order, and posts the result. */
    method AddImpostersSimple(port: nat, stubs: seq<HttpStub>, postStatus: int)
      returns (config: ImposterConfig, r: Outcome<int>)
      ensures config == ConfigFor(port, stubs)
      ensures r == AddImposter(config, postStatus)
    {
      config := ImposterConfig(port, "http", []);
      for i := 0 to |stubs|
        invariant config == ImposterConfig(port, "http", StubsFor(stubs[..i]))
      {
        assert stubs[..i + 1][..i] == stubs[..i];
        config := config.(stubs := config.stubs + [StubFor(stubs[i])]);
      }
      assert stubs[..|stubs|] == stubs;
      r := AddImposter(config, postStatus);
    }
  }
}
