/**
 * The imposter configuration both Mountebank clients build from simplified
 * HTTP stubs, as the nested JSON document Mountebank receives, and a reader
 * that recovers the stubs from such a document.
 */
module Imposters {
  import opened Wrappers

  /** `HttpStub(method, path, status_code, response)` */
  datatype HttpStub = HttpStub(httpMethod: string, path: string, statusCode: int, response: string)

  /** `{'is': {'statusCode': …, 'headers': {…}, 'body': …}}` */
  datatype Response = Is(statusCode: int, headers: map<string, string>, body: string)

  /** `{'equals': {'path': …, 'method': …}}` */
  datatype Clause = Equals(path: string, httpMethod: string)

  /** `{'and': [...]}` */
  datatype Predicate = And(clauses: seq<Clause>)

  /** `{'responses': [...], 'predicates': [...]}` */
  datatype Stub = Stub(responses: seq<Response>, predicates: seq<Predicate>)

  /** `{'port': …, 'protocol': …, 'stubs': [...]}` */
  datatype ImposterConfig = ImposterConfig(port: nat, protocol: string, stubs: seq<Stub>)

  const JsonHeaders: map<string, string> := map["Content-Type" := "application/json"]

  /**
   * The stub document for one simplified stub: a single JSON response with
   * the stub's status and body, matched by a single `and` of one `equals` on
   * the stub's path and method.
   */
  function StubFor(s: HttpStub): (j: Stub)
    ensures ReadStub(j) == Some(s)
  {
    Stub([Is(s.statusCode, JsonHeaders, s.response)], [And([Equals(s.path, s.httpMethod)])])
  }

  /** Reads a simplified stub back from a stub document of the shape StubFor builds. */
  function ReadStub(j: Stub): (r: Option<HttpStub>)
    ensures r.Some? ==> |j.responses| == 1 && j.responses[0].headers == JsonHeaders
    ensures r.Some? ==> |j.predicates| == 1 && |j.predicates[0].clauses| == 1
  {
    if |j.responses| == 1 && j.responses[0].headers == JsonHeaders
       && |j.predicates| == 1 && |j.predicates[0].clauses| == 1
    then
      var response, clause := j.responses[0], j.predicates[0].clauses[0];
      Some(HttpStub(clause.httpMethod, clause.path, response.statusCode, response.body))
    else
      None
  }

  /** The stub documents for a list of stubs: one per stub, in the same order. */
  function StubsFor(stubs: seq<HttpStub>): (r: seq<Stub>)
    ensures |r| == |stubs|
    ensures forall i :: 0 <= i < |r| ==> r[i] == StubFor(stubs[i])
    ensures forall i :: 0 <= i < |r| ==> ReadStub(r[i]) == Some(stubs[i])
    decreases |stubs|
  {
    if stubs == [] then [] else StubsFor(stubs[..|stubs| - 1]) + [StubFor(stubs[|stubs| - 1])]
  }

  /** The imposter document for a port and a list of stubs. */
  function ConfigFor(port: nat, stubs: seq<HttpStub>): (c: ImposterConfig)
    ensures c.port == port && c.protocol == "http"
    ensures ReadStubs(c.stubs) == Some(stubs)
  {
    ReadStubsRoundTrip(stubs);
    ImposterConfig(port, "http", StubsFor(stubs))
  }

  /** Reads every stub back; fails when one of them is not of the simplified shape. */
  function ReadStubs(docs: seq<Stub>): (r: Option<seq<HttpStub>>)
    ensures r.Some? ==> |r.value| == |docs|
    decreases |docs|
  {
    if docs == [] then Some([])
    else
      match (ReadStubs(docs[..|docs| - 1]), ReadStub(docs[|docs| - 1]))
      case (Some(init), Some(last)) => Some(init + [last])
      case _ => None
  }

  /** Building the documents for a list of stubs loses nothing: reading them back gives the list. */
  lemma {:induction false} ReadStubsRoundTrip(stubs: seq<HttpStub>)
    ensures ReadStubs(StubsFor(stubs)) == Some(stubs)
    decreases |stubs|
  {
    if stubs != [] {
      var docs := StubsFor(stubs);
      assert docs[..|docs| - 1] == StubsFor(stubs[..|stubs| - 1]);
      ReadStubsRoundTrip(stubs[..|stubs| - 1]);
      assert stubs == stubs[..|stubs| - 1] + [stubs[|stubs| - 1]];
    }
  }

  /** Different stub lists give different imposter documents. */
  lemma ConfigForInjective(p: nat, q: nat, a: seq<HttpStub>, b: seq<HttpStub>)
    requires ConfigFor(p, a) == ConfigFor(q, b)
    ensures p == q && a == b
  {
  }
}
