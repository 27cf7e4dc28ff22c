/** mcp_openapi/api_client.py: the upstream base URL and the client that issues requests. */
module ApiClient {

  import opened Wrappers
  import opened Dicts
  import opened Urls
  import opened OpenApi

  /**
   * The base URL of the upstream API: the first declared server, resolved
   * against the URL the specification was loaded from when it names no host.
   */
  function ExtractBaseUrl(spec: Specification, specUrl: Url): (r: Result<Url, Error>)
    ensures r.Failure? <==> spec.servers == []
    ensures r.Failure? ==> r.error == NoServers
    ensures r.Success? && IsAbsolute(spec.servers[0].url) ==> r.value == spec.servers[0].url
    ensures r.Success? && !IsAbsolute(spec.servers[0].url) ==> r.value == Resolve(specUrl, spec.servers[0].url)
    ensures r.Success? && !IsAbsolute(spec.servers[0].url) && spec.servers[0].url.scheme.None?
            ==> r.value.scheme == specUrl.scheme && r.value.authority == specUrl.authority
    ensures r.Success? && IsAbsolute(specUrl) && spec.servers[0].url.scheme.None? ==> IsAbsolute(r.value)
  {
    if spec.servers == [] then Failure(NoServers)
    else
      var serverUrl := spec.servers[0].url;
      if !IsAbsolute(serverUrl) then Success(Resolve(specUrl, serverUrl)) else Success(serverUrl)
  }

  /** Only the first server entry is consulted. */
  lemma OnlyFirstServerCounts(spec: Specification, other: Specification, specUrl: Url)
    requires spec.servers != [] && other.servers != [] && spec.servers[0] == other.servers[0]
    ensures ExtractBaseUrl(spec, specUrl) == ExtractBaseUrl(other, specUrl)
  {
  }

  /** An absolute first server makes the specification's own URL irrelevant. */
  lemma AbsoluteServerIgnoresSpecUrl(spec: Specification, specUrl: Url, otherUrl: Url)
    requires spec.servers != [] && IsAbsolute(spec.servers[0].url)
    ensures ExtractBaseUrl(spec, specUrl) == ExtractBaseUrl(spec, otherUrl)
  {
  }

  /** One request as the session sends it: method, path, query parameters and JSON body. */
  datatype HttpRequest = HttpRequest(verb: string, path: string, query: Dict<string, string>, body: Dict<string, string>)

  /**
   * `APIClient`.  The aiohttp session is represented by the base URL it was
   * opened on and by the requests issued through it so far.
   */
  class APIClient {
    const spec: Specification
    const baseUrl: Url
    const sessionBaseUrl: string
    var issued: seq<HttpRequest>

    constructor Init(spec: Specification, baseUrl: Url)
      ensures this.spec == spec && this.baseUrl == baseUrl
      ensures sessionBaseUrl == ToString(baseUrl)
      ensures issued == []
    {
      this.spec := spec;
      this.baseUrl := baseUrl;
      this.sessionBaseUrl := ToString(baseUrl);
      this.issued := [];
    }

    /** `APIClient(spec, spec_url)`: raises when the specification declares no server. */
    static method Create(spec: Specification, specUrl: Url) returns (r: Result<APIClient, Error>)
      ensures r.Failure? <==> spec.servers == []
      ensures r.Failure? ==> r.error == NoServers
      ensures r.Success? ==> fresh(r.value) && r.value.issued == []
      ensures r.Success? ==> r.value.spec == spec && Success(r.value.baseUrl) == ExtractBaseUrl(spec, specUrl)
      ensures r.Success? ==> r.value.sessionBaseUrl == ToString(r.value.baseUrl)
    {
      var baseUrl := ExtractBaseUrl(spec, specUrl);
      if baseUrl.Failure? {
        return Failure(baseUrl.error);
      }
      var client := new APIClient.Init(spec, baseUrl.value);
      return Success(client);
    }

    /**
     * `call`: issues exactly one request; the upstream's reply text is the
     * parameter `response`.  The base URL is never changed.
     */
    method Call(verb: string, path: string, query: Dict<string, string>, body: Dict<string, string>, response: string)
      returns (text: string)
      modifies this
      ensures issued == old(issued) + [HttpRequest(verb, path, query, body)]
      ensures text == response
    {
      issued := issued + [HttpRequest(verb, path, query, body)];
      text := response;
    }
  }
}
