/**
  `McpTools` of src/mcp_tools.py (and of its older copy mcp_tools.py, whose
  behaviour is the same): a client for a remote tool server. The HTTP
  transport is a parameter; the model keeps the URLs it builds and the way
  each outcome of an exchange becomes the value the client returns.
*/
module Mcp {
  import opened Wrappers
  import opened Text
  import opened JsonModel

  /** How an HTTP exchange ends, as the client code sees it. */
  datatype HttpOutcome =
      /** `requests` raised a `RequestException`: no connection, a timeout, or
          `raise_for_status()` on a 4xx or 5xx status; `message` is `str(e)`. */
    | RequestFailed(message: string)
      /** A response was received; `body` is None when `response.json()`
          raises `ValueError`. */
    | Received(body: Option<Json>)

  /** The constructor's normalisation: append '/' unless already there. */
  function NormalizeUrl(url: string): (r: string)
    ensures EndsWith(r, "/")
    ensures StartsWith(r, url) && |r| <= |url| + 1
    ensures EndsWith(url, "/") ==> r == url
  {
    if EndsWith(url, "/") then url else url + "/"
  }

  /** Normalising twice is normalising once. */
  lemma NormalizeIdempotent(url: string)
    ensures NormalizeUrl(NormalizeUrl(url)) == NormalizeUrl(url)
  {
  }

  function ToolsEndpoint(base: string): string {
    base + "tools"
  }

  function ExecuteEndpoint(base: string, toolName: string): string {
    base + "execute/" + toolName
  }

  /** The endpoints hang off the configured URL with exactly one '/'
      between them, whether or not the URL was given with a trailing '/'. */
  lemma EndpointsJoinOnce(url: string, toolName: string)
    ensures !EndsWith(url, "/") ==>
      && ToolsEndpoint(NormalizeUrl(url)) == url + "/tools"
      && ExecuteEndpoint(NormalizeUrl(url), toolName) == url + "/execute/" + toolName
    ensures EndsWith(url, "/") ==>
      && ToolsEndpoint(NormalizeUrl(url)) == url + "tools"
      && ExecuteEndpoint(NormalizeUrl(url), toolName) == url + "execute/" + toolName
  {
  }

  /** Python's `len(x)` is defined on the JSON values that are lists,
      objects or strings; on the others it raises `TypeError`. */
  predicate HasLength(j: Json) {
    j.JArray? || j.JObject? || j.JString?
  }

  class McpTools {
    /** `self.server_url`, set once by the constructor. */
    const serverUrl: string

    constructor(serverUrl: string)
      ensures this.serverUrl == NormalizeUrl(serverUrl)
      ensures EndsWith(this.serverUrl, "/")
    {
      this.serverUrl := NormalizeUrl(serverUrl);
    }

    /** `get_mcp_tools()`: GET `<server>tools`. Transport and decoding
        failures give the empty list; None stands for the `TypeError` that
        `len(tools)` in the log line raises when the body is a JSON scalar. */
    function GetMcpTools(get: string -> HttpOutcome): (tools: Option<Json>)
      ensures get(ToolsEndpoint(serverUrl)).RequestFailed? ==> tools == Some(JArray([]))
      ensures get(ToolsEndpoint(serverUrl)) == Received(None) ==> tools == Some(JArray([]))
      ensures get(ToolsEndpoint(serverUrl)).Received? && get(ToolsEndpoint(serverUrl)).body.Some? ==>
        var body := get(ToolsEndpoint(serverUrl)).body.value;
        tools == (if HasLength(body) then Some(body) else None)
    {
      match get(ToolsEndpoint(serverUrl))
      case RequestFailed(_) => Some(JArray([]))
      case Received(None) => Some(JArray([]))
      case Received(Some(body)) => if HasLength(body) then Some(body) else None
    }

    /** `execute_mcp_tool(tool_name, parameters)`: POST the parameters to
        `<server>execute/<tool_name>`. It never raises: a failed exchange
        becomes a failure result carrying the error text. */
    function ExecuteMcpTool(toolName: string, parameters: Json, post: (string, Json) -> HttpOutcome): (result: Json)
      ensures post(ExecuteEndpoint(serverUrl, toolName), parameters).RequestFailed? ==>
        result == FailureResult(post(ExecuteEndpoint(serverUrl, toolName), parameters).message)
      ensures post(ExecuteEndpoint(serverUrl, toolName), parameters) == Received(None) ==>
        result == FailureResult("Invalid JSON response from server.")
      ensures post(ExecuteEndpoint(serverUrl, toolName), parameters).Received? ==>
        post(ExecuteEndpoint(serverUrl, toolName), parameters).body.Some? ==>
        result == post(ExecuteEndpoint(serverUrl, toolName), parameters).body.value
    {
      match post(ExecuteEndpoint(serverUrl, toolName), parameters)
      case RequestFailed(message) => FailureResult(message)
      case Received(None) => FailureResult("Invalid JSON response from server.")
      case Received(Some(body)) => body
    }
  }

  /** Discovery never raises for an unreachable or misbehaving transport:
      whatever the exchange, the client yields either the empty list, the
      server's body, or (for a scalar body only) the `len` error. */
  lemma DiscoveryFailsSoft(client: McpTools, get: string -> HttpOutcome)
    ensures var o := get(ToolsEndpoint(client.serverUrl));
      (o.RequestFailed? || o == Received(None)) ==> client.GetMcpTools(get) == Some(JArray([]))
    ensures client.GetMcpTools(get).None? ==>
      var o := get(ToolsEndpoint(client.serverUrl));
      o.Received? && o.body.Some? && !HasLength(o.body.value)
  {
  }
}
