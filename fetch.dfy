/** The part of `fetch` (handlers.py) that runs before the network: the API-key
    check and the write of the key into the caller's parameter map. The HTTP
    exchange itself is the `provider` argument, an opaque function from the
    request actually sent to the decoded body or an error message. */
module Fetching {
  import opened Results
  import opened ProviderRequests

  /** A decoded JSON body; the model never looks inside a provider's answer. */
  datatype Json =
    | Null
    | Bool(b: bool)
    | Num(n: int)
    | Str(s: string)
    | Arr(elems: seq<Json>)
    | Obj(fields: map<string, Json>)

  /** What a handler returns, and the provider requests it issued to get there. */
  datatype Reply = Reply(result: Result<Json>, sent: seq<Request>)

  const KeyNotSet := "Weather API key not set."

  /** `if not WEATHER_API_KEY`: an unset and an empty key are both refused. */
  predicate KeyMissing(apiKey: Option<string>)
    ensures apiKey == None ==> KeyMissing(apiKey)
    ensures apiKey == Some("") ==> KeyMissing(apiKey)
    ensures !KeyMissing(apiKey) ==> apiKey.Some? && |apiKey.value| > 0
    ensures apiKey.Some? && |apiKey.value| > 0 ==> !KeyMissing(apiKey)
  {
    apiKey.None? || apiKey.value == []
  }

  /** `params["key"] = key`: the key is set and every other entry is as it was. */
  function WithKey(params: Params, key: string): (m: Params)
    ensures "key" in m && m["key"] == Text(key)
    ensures m.Keys == params.Keys + {"key"}
    ensures forall k :: k in params && k != "key" ==> m[k] == params[k]
  {
    params["key" := Text(key)]
  }

  /** `fetch(endpoint, params)`: with no usable key it fails before any request;
      otherwise it sends exactly one request, carrying the key, and returns the
      provider's answer unchanged. */
  function FetchSpec(apiKey: Option<string>, req: Request, provider: Request -> Result<Json>): (r: Reply)
    ensures KeyMissing(apiKey) <==> r.sent == []
    ensures KeyMissing(apiKey) ==> r.result == Err(KeyNotSet)
    ensures !KeyMissing(apiKey) ==> r.sent == [Request(req.endpoint, WithKey(req.params, apiKey.value))]
    ensures !KeyMissing(apiKey) ==> r.result == provider(r.sent[0])
  {
    if KeyMissing(apiKey) then Reply(Err(KeyNotSet), [])
    else
      var sent := Request(req.endpoint, WithKey(req.params, apiKey.value));
      Reply(provider(sent), [sent])
  }

  /** A Python `dict` of query parameters, which `fetch` updates in place and
      the caller may still hold. */
  class ParamDict {
    var entries: Params

    constructor (init: Params)
      ensures entries == init
    {
      entries := init;
    }
  }

  /** `fetch` as written: the key goes into the caller's own map object before
      the request is sent. */
  method Fetch(apiKey: Option<string>, endpoint: string, params: ParamDict, provider: Request -> Result<Json>)
      returns (r: Result<Json>)
    modifies params
    ensures KeyMissing(apiKey) ==> params.entries == old(params.entries)
    ensures !KeyMissing(apiKey) ==> params.entries == WithKey(old(params.entries), apiKey.value)
    ensures !KeyMissing(apiKey) ==> r == provider(Request(endpoint, params.entries))
    ensures r == FetchSpec(apiKey, Request(endpoint, old(params.entries)), provider).result
  {
    if KeyMissing(apiKey) {
      return Err(KeyNotSet);
    }
    params.entries := params.entries["key" := Text(apiKey.value)];
    r := provider(Request(endpoint, params.entries));
  }

  /** Everything a handler's own map literal held reaches the provider, and the
      key is the one entry added. */
  lemma SentRequestExtendsParams(apiKey: Option<string>, req: Request, provider: Request -> Result<Json>)
    requires !KeyMissing(apiKey) && "key" !in req.params
    ensures var sent := FetchSpec(apiKey, req, provider).sent[0];
      sent.endpoint == req.endpoint && sent.params - {"key"} == req.params
  {
    var sent := FetchSpec(apiKey, req, provider).sent[0];
    assert (sent.params - {"key"}).Keys == req.params.Keys;
  }
}
