/**
 * The Mountebank client (`mountepy/mountebank.py`): a Mountebank server run
 * as a managed service, imposter documents built from simplified stubs, and
 * the imposter handles returned for them. The HTTP calls themselves are
 * represented by the status code of the response.
 */
module Mountebank {
  import opened Wrappers
  import opened Text
  import opened ExitHooks
  import opened Processes
  import opened HttpService
  import opened Imposters

  /** The arguments appended to the Mountebank command. */
  const MockArgs: seq<string> := ["--mock", "--port", Placeholder]

  /**
   * The Mountebank command formatted for a port: the mb command's own tokens
   * formatted as any command token, then `--mock --port <port>`.
   */
  lemma MountebankCommandFormat(mbCommand: seq<string>, port: nat)
    requires forall i :: 0 <= i < |mbCommand| ==> Formattable(mbCommand[i])
    ensures CommandFormattable(Tokens(mbCommand + MockArgs))
    ensures FormatProcessCommand(Tokens(mbCommand + MockArgs), port)
      == Tokens(FormatParts(mbCommand, port) + ["--mock", "--port", Decimal(port)])
  {
    NoOpenBraceNoPlaceholder("--mock");
    NoOpenBraceNoPlaceholder("--port");
    assert Contains(Placeholder, Placeholder);
    FormatPlaceholder(port);
    assert FormatParts(MockArgs, port) == ["--mock", "--port", Decimal(port)];
    FormatPartsConcat(mbCommand, MockArgs, port);
  }

  /** The Mountebank server's imposter collection, under its base URL. */
  function ImpostersUrl(mbPort: nat): (u: string)
    ensures u == Url(mbPort) + "/imposters"
  {
    Url(mbPort) + "/imposters"
  }

  /** A created imposter: its management URL and the port it listens on. */
  datatype Imposter = Imposter(url: string, port: nat)

  /** `Imposter(mountebank_port, port)`: the imposter's URL is its port under the imposters URL. */
  function NewImposter(mountebankPort: nat, port: nat): (imp: Imposter)
    ensures imp.port == port
    ensures imp.url == ImpostersUrl(mountebankPort) + "/" + Decimal(port)
  {
    Imposter("http://localhost:" + Decimal(mountebankPort) + "/imposters/" + Decimal(port), port)
  }

  /** An imposter URL names one Mountebank port and one imposter port. */
  lemma ImposterUrlInjective(m1: nat, p1: nat, m2: nat, p2: nat)
    requires NewImposter(m1, p1).url == NewImposter(m2, p2).url
    ensures m1 == m2 && p1 == p2
  {
    SplitAroundSeparator("http://localhost:", "/imposters/", Decimal(m1), Decimal(p1), Decimal(m2), Decimal(p2));
    DecimalInjective(m1, m2);
    DecimalInjective(p1, p2);
  }

  /** `prefix + x + sep + y` with x a run of digits and sep starting with a non-digit determines x and y. */
  lemma SplitAroundSeparator(prefix: string, sep: string, x1: string, y1: string, x2: string, y2: string)
    requires AllDigits(x1) && AllDigits(x2)
    requires sep != [] && !IsDigit(sep[0])
    requires prefix + x1 + sep + y1 == prefix + x2 + sep + y2
    ensures x1 == x2 && y1 == y2
  {
    var u1, u2 := prefix + x1 + sep + y1, prefix + x2 + sep + y2;
    assert u1[|prefix|..] == x1 + (sep + y1);
    assert u2[|prefix|..] == x2 + (sep + y2);
    DigitPrefixUnique(x1, sep + y1, x2, sep + y2);
    assert y1 == (sep + y1)[|sep|..];
    assert y2 == (sep + y2)[|sep|..];
  }

  /** `raise_for_status`: an HTTP error status raises. */
  predicate IsHttpError(status: int) {
    400 <= status < 600
  }

  class Mountebank {
    const service: HttpService
    const impostersUrl: string

    /**
     * `Mountebank(port)`: a service running the mb command (`get_mb_command()`,
     * passed in) with `--mock --port {port}`, inheriting the parent's environment.
     */
    constructor (
      randomPort: nat, mbCommand: seq<string>, parentEnv: map<string, string>, exitHooks: ExitRegistry,
      port: Option<nat> := None)
      requires forall i :: 0 <= i < |mbCommand| ==> Formattable(mbCommand[i])
      ensures fresh(service)
      ensures service.port == (if port.Some? then port.value else randomPort)
      ensures service.processCommand
        == Tokens(FormatParts(mbCommand, service.port) + ["--mock", "--port", Decimal(service.port)])
      ensures IsProcessEnv(service.serviceEnv, true, None, parentEnv, service.port)
      ensures service.exitHooks == exitHooks && service.serviceProc == None
      ensures impostersUrl == service.url + "/imposters"
    {
      MountebankCommandFormat(mbCommand, if port.Some? then port.value else randomPort);
      var s := new HttpService(Tokens(mbCommand + MockArgs), randomPort, parentEnv, exitHooks, port);
      service := s;
      impostersUrl := ImpostersUrl(s.port);
    }

    /**
     * `add_imposter`: POST the document (answered with `postStatus`); on
     * success, the imposter on the document's port.
     */
    function AddImposter(config: ImposterConfig, postStatus: int): (r: Result<Imposter, int>)
      ensures r.Failure? <==> IsHttpError(postStatus)
      ensures r.Failure? ==> r.error == postStatus
      ensures r.Success? ==> r.value.port == config.port
      ensures r.Success? ==> r.value.url == ImpostersUrl(service.port) + "/" + Decimal(config.port)
    {
      if IsHttpError(postStatus) then Failure(postStatus) else Success(NewImposter(service.port, config.port))
    }

    /**
     * `add_multi_stub_imposter_simple`: starts a document with the port,
     * protocol `http` and no stubs, appends one stub document per stub, and
     * posts it.
     */
    method AddMultiStubImposterSimple(port: nat, stubs: seq<HttpStub>, postStatus: int)
      returns (config: ImposterConfig, r: Result<Imposter, int>)
      ensures config == ConfigFor(port, stubs)
      ensures r == AddImposter(config, postStatus)
    {
      config := ImposterConfig(port, "http", []);
      for i := 0 to |stubs|
        invariant config == ImposterConfig(port, "http", StubsFor(stubs[..i]))
      {
        assert stubs[..i + 1][..i] == stubs[..i];
        config := config.(stubs := config.stubs + [StubFor(stubs[i])]);
      }
      assert stubs[..|stubs|] == stubs;
      r := AddImposter(config, postStatus);
    }

    /**
     * `add_imposter_simple`: an imposter with a single stub built from the
     * arguments, defaulting to `GET /` answered with 200 and an empty body;
     * without a port, `randomPort` (`port_for.select_random()`) is used.
     */
    method AddImposterSimple(
      randomPort: nat, postStatus: int, port: Option<nat> := None, httpMethod: string := "GET",
      path: string := "/", statusCode: int := 200, response: string := "")
      returns (config: ImposterConfig, r: Result<Imposter, int>)
      ensures config.port == (if port.Some? then port.value else randomPort)
      ensures config.protocol == "http"
      ensures ReadStubs(config.stubs) == Some([HttpStub(httpMethod, path, statusCode, response)])
      ensures r == AddImposter(config, postStatus)
    {
      var p := if port.Some? then port.value else randomPort;
      config, r := AddMultiStubImposterSimple(p, [HttpStub(httpMethod, path, statusCode, response)], postStatus);
    }
  }
}
