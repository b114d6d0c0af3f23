/** SourceClientREST: reads system information from a remote cluster through its HTTP REST API.
    The model covers the constructor's configuration, the base URL normalisation, the REST
    operation each information type calls and the query parameters sent with it. The HTTP call
    itself is not modelled. */
module SourceClientRest {
  import opened Wrappers
  import opened JavaNumbers
  import opened Settings
  import opened Utils

  const PARAM_INDEX := "index"
  const PARAM_NODE_ID := "nodeId"

  /** prepareAPIURLFromBaseURL: null for a null or blank base URL, otherwise the URL ending in
      exactly one added or kept trailing slash. */
  function PrepareAPIURLFromBaseURL(baseURL: Option<string>): (r: Option<string>)
    ensures r.None? <==> IsEmpty(baseURL)
    ensures r.Some? ==> EndsWith(r.value, "/") && |baseURL.value| <= |r.value| && r.value[..|baseURL.value|] == baseURL.value
    ensures r.Some? && EndsWith(baseURL.value, "/") ==> r.value == baseURL.value
    ensures r.Some? && !EndsWith(baseURL.value, "/") ==> r.value == baseURL.value + "/"
  {
    if IsEmpty(baseURL) then None
    else if EndsWith(baseURL.value, "/") then baseURL
    else Some(baseURL.value + "/")
  }

  /** Normalising an already normalised URL changes nothing. */
  lemma PrepareAPIURLIdempotent(baseURL: Option<string>)
    requires PrepareAPIURLFromBaseURL(baseURL).Some?
    ensures PrepareAPIURLFromBaseURL(PrepareAPIURLFromBaseURL(baseURL)) == PrepareAPIURLFromBaseURL(baseURL)
  {
    var r := PrepareAPIURLFromBaseURL(baseURL);
    assert !IsBlank(r.value) by { assert !IsBlank(baseURL.value); }
  }

  /** Whether a pair survives the removal of removeParamName. */
  predicate Kept(p: Param, removeParamName: Option<string>)
  {
    removeParamName.None? || removeParamName.value != p.name
  }

  /** The pairs of params, in order, without the one named removeParamName. */
  function WithoutParam(params: seq<Param>, removeParamName: Option<string>): (r: seq<Param>)
    ensures |r| <= |params|
    ensures forall p :: p in r <==> p in params && Kept(p, removeParamName)
    ensures |params| == 1 ==> r == (if Kept(params[0], removeParamName) then params else [])
  {
    if |params| == 0 then []
    else
      var last := params[|params| - 1];
      var init := params[..|params| - 1];
      assert params == init + [last];
      WithoutParam(init, removeParamName) + (if Kept(last, removeParamName) then [last] else [])
  }

  /** Filtering keeps the map's order: the pairs kept from a + b are those kept from a, followed
      by those kept from b. */
  lemma {:induction false} WithoutParamAppend(a: seq<Param>, b: seq<Param>, removeParamName: Option<string>)
    ensures WithoutParam(a + b, removeParamName) == WithoutParam(a, removeParamName) + WithoutParam(b, removeParamName)
    decreases |b|
  {
    if |b| == 0 {
      assert a + b == a;
    } else {
      var init := b[..|b| - 1];
      assert (a + b)[..|a + b| - 1] == a + init;
      assert (a + b)[|a + b| - 1] == b[|b| - 1];
      WithoutParamAppend(a, init, removeParamName);
    }
  }

  /** The parameters prepareRequestParams sends: none for a null or empty map or for a map holding
      only the removed name, otherwise every other pair in the map's order. */
  function RequestParams(params: Option<seq<Param>>, removeParamName: Option<string>): Option<seq<Param>>
  {
    if params.None? || |params.value| == 0
       || (|params.value| == 1 && removeParamName.Some? && HasParam(params.value, removeParamName.value))
    then None
    else Some(WithoutParam(params.value, removeParamName))
  }

  /** prepareRequestParams, building the array pair by pair. */
  method PrepareRequestParams(params: Option<seq<Param>>, removeParamName: Option<string>) returns (r: Option<seq<Param>>)
    ensures r == RequestParams(params, removeParamName)
  {
    if params.None? || |params.value| == 0
       || (|params.value| == 1 && removeParamName.Some? && HasParam(params.value, removeParamName.value))
    {
      return None;
    }
    var ps := params.value;
    var paramsOut: seq<Param> := [];
    var i := 0;
    while i < |ps|
      invariant 0 <= i <= |ps|
      invariant paramsOut == WithoutParam(ps[..i], removeParamName)
    {
      assert ps[..i + 1][..i] == ps[..i];
      if Kept(ps[i], removeParamName) {
        paramsOut := paramsOut + [ps[i]];
      }
      i := i + 1;
    }
    assert ps[..i] == ps;
    return Some(paramsOut);
  }

  /** Removing a name drops exactly the pair with that name: with distinct keys the query is one
      pair shorter when the name is present and the whole map when it is not, and it is never an
      empty array. */
  lemma {:induction false} WithoutParamLength(params: seq<Param>, name: string)
    requires DistinctNames(params)
    ensures |WithoutParam(params, Some(name))| == |params| - (if HasParam(params, name) then 1 else 0)
    decreases |params|
  {
    if |params| > 0 {
      var last := params[|params| - 1];
      var init := params[..|params| - 1];
      assert DistinctNames(init);
      WithoutParamLength(init, name);
      assert HasParam(params, name) <==> HasParam(init, name) || last.name == name by {
        if HasParam(params, name) {
          var i :| 0 <= i < |params| && params[i].name == name;
          if i < |params| - 1 { assert init[i].name == name; }
        }
        if HasParam(init, name) {
          var i :| 0 <= i < |init| && init[i].name == name;
          assert params[i].name == name;
        }
      }
      assert HasParam(init, name) ==> last.name != name by {
        if HasParam(init, name) {
          var i :| 0 <= i < |init| && init[i].name == name;
          assert params[i] == init[i];
        }
      }
    }
  }

  lemma WithoutAbsentParam(params: seq<Param>)
    ensures WithoutParam(params, None) == params
  {
  }

  lemma RequestParamsNeverEmpty(params: Option<seq<Param>>, removeParamName: Option<string>)
    requires params.Some? ==> DistinctNames(params.value)
    ensures RequestParams(params, removeParamName).Some? ==> |RequestParams(params, removeParamName).value| > 0
    ensures RequestParams(params, None) == (if params.None? || |params.value| == 0 then None else params)
  {
    if params.Some? {
      if removeParamName.Some? {
        WithoutParamLength(params.value, removeParamName.value);
      }
      WithoutAbsentParam(params.value);
    }
  }

  /** The value a read operation puts in its path: the parameter's value when the map holds a
      non-blank one. */
  function Selector(params: Option<seq<Param>>, key: string): (r: Option<string>)
    ensures r.Some? <==> params.Some? && !IsEmpty(ParamValue(params.value, key))
    ensures r.Some? ==> Param(key, r.value) in params.value
  {
    if params.Some? && !IsEmpty(ParamValue(params.value, key)) then ParamValue(params.value, key) else None
  }

  /** A call to the REST API: the operation appended to the base URL and its GET parameters. */
  datatype RestCall = RestCall(operation: string, query: Option<seq<Param>>)

  /** The parameter a call names in its path never reaches its query, whether it was used in the
      path or was blank; every other pair is sent unchanged. */
  lemma SelectorNotInQuery(params: Option<seq<Param>>, key: string)
    ensures var q := RequestParams(params, Some(key));
      q.Some? ==> forall p :: p in q.value ==> p.name != key
    ensures var q := RequestParams(params, Some(key));
      params.Some? ==> forall p :: p in params.value && p.name != key ==> q.Some? && p in q.value
  {
  }

  function ReadClusterStateInfo(params: Option<seq<Param>>): (c: RestCall)
    ensures c.operation == "_cluster/state"
    ensures c.query == RequestParams(params, None)
  {
    RestCall("_cluster/state", RequestParams(params, None))
  }

  function ReadClusterHealthInfo(params: Option<seq<Param>>): (c: RestCall)
    ensures Selector(params, PARAM_INDEX).None? ==> c.operation == "_cluster/health"
    ensures Selector(params, PARAM_INDEX).Some? ==> c.operation == "_cluster/health/" + Selector(params, PARAM_INDEX).value
    ensures c.query == RequestParams(params, Some(PARAM_INDEX))
  {
    var op := "_cluster/health";
    var op := match Selector(params, PARAM_INDEX) case Some(index) => op + "/" + index case None => op;
    RestCall(op, RequestParams(params, Some(PARAM_INDEX)))
  }

  function ReadClusterNodesInfoInfo(params: Option<seq<Param>>): (c: RestCall)
    ensures Selector(params, PARAM_NODE_ID).None? ==> c.operation == "_cluster/nodes"
    ensures Selector(params, PARAM_NODE_ID).Some? ==> c.operation == "_cluster/nodes/" + Selector(params, PARAM_NODE_ID).value
    ensures c.query == RequestParams(params, Some(PARAM_NODE_ID))
  {
    var op := "_cluster/nodes";
    var op := match Selector(params, PARAM_NODE_ID) case Some(node) => op + "/" + node case None => op;
    RestCall(op, RequestParams(params, Some(PARAM_NODE_ID)))
  }

  function ReadClusterNodesStatsInfo(params: Option<seq<Param>>): (c: RestCall)
    ensures Selector(params, PARAM_NODE_ID).None? ==> c.operation == "_nodes/stats"
    ensures Selector(params, PARAM_NODE_ID).Some? ==> c.operation == "_nodes/" + Selector(params, PARAM_NODE_ID).value + "/stats"
    ensures c.query == RequestParams(params, Some(PARAM_NODE_ID))
  {
    var op := "_nodes";
    var op := match Selector(params, PARAM_NODE_ID) case Some(node) => op + "/" + node case None => op;
    RestCall(op + "/stats", RequestParams(params, Some(PARAM_NODE_ID)))
  }

  /** The index-level operations: the index names, when given, prefix the operation. */
  function IndicesCall(params: Option<seq<Param>>, operation: string): (c: RestCall)
    ensures Selector(params, PARAM_INDEX).None? ==> c.operation == operation
    ensures Selector(params, PARAM_INDEX).Some? ==> c.operation == Selector(params, PARAM_INDEX).value + "/" + operation
    ensures c.query == RequestParams(params, Some(PARAM_INDEX))
  {
    var op := match Selector(params, PARAM_INDEX) case Some(index) => index + "/" case None => "";
    RestCall(op + operation, RequestParams(params, Some(PARAM_INDEX)))
  }

  function ReadIndicesStatusInfo(params: Option<seq<Param>>): (c: RestCall)
    ensures c == IndicesCall(params, "_status")
  {
    IndicesCall(params, "_status")
  }

  function ReadIndicesStatsInfo(params: Option<seq<Param>>): (c: RestCall)
    ensures c == IndicesCall(params, "_stats")
  {
    IndicesCall(params, "_stats")
  }

  function ReadIndicesSegmentsInfo(params: Option<seq<Param>>): (c: RestCall)
    ensures c == IndicesCall(params, "_segments")
  {
    IndicesCall(params, "_segments")
  }

  /** What the configuring constructor keeps: the normalised API URL, the socket and connection
      timeout in milliseconds, and the preemptive basic authentication credentials. */
  datatype RestClientConfig = RestClientConfig(
    restAPIUrlBase: string,
    timeout: int,
    isAuthConfigured: bool,
    username: Option<string>,
    password: Option<string>)

  /** The configuring constructor. isWellFormedURL stands for java.net.URL's parser. A missing,
      blank or malformed urlBase is a SettingsException; a non-string urlBase, username or pwd is a
      ClassCastException; the timeout defaults to 5 seconds and is narrowed to an int;
      authentication is configured exactly when a non-blank username is given. */
  function NewSourceClientREST(settings: seq<Entry>, isWellFormedURL: string -> bool): (r: Result<RestClientConfig>)
    ensures IsEmptyValue(Get(settings, "urlBase")) ==> r.Err? && r.error.SettingsError?
    ensures r.Ok? ==> Get(settings, "urlBase").Str?
    ensures r.Ok? ==> Some(r.value.restAPIUrlBase) == PrepareAPIURLFromBaseURL(Some(Get(settings, "urlBase").s))
    ensures r.Ok? ==> isWellFormedURL(r.value.restAPIUrlBase)
    ensures r.Ok? ==> INT_MIN <= r.value.timeout <= INT_MAX
    ensures r.Ok? && !ContainsKey(settings, "timeout") ==> r.value.timeout == 5000
    ensures r.Ok? ==> (r.value.isAuthConfigured <==> !IsEmpty(r.value.username))
    ensures r.Ok? ==> Get(settings, "username") == (if r.value.username.Some? then Str(r.value.username.value) else Null)
    ensures r.Ok? ==> Get(settings, "pwd") == (if r.value.password.Some? then Str(r.value.password.value) else Null)
    ensures r.Ok? ==> var t := ParseTimeValue(Some(settings), "timeout", 5, Some(Seconds));
      t.Ok? && r.value.timeout == IntValue(t.value)
  {
    match AsString(Get(settings, "urlBase"))
    case Err(e) => Err(e)
    case Ok(baseURL) =>
      var api := PrepareAPIURLFromBaseURL(baseURL);
      if api.None? then Err(SettingsError("Parameter es_connection/urlBase must be set!"))
      else if !isWellFormedURL(api.value) then Err(SettingsError("Parameter es_connection/urlBase is malformed"))
      else RestClientSettings(settings, api.value)
  }

  /** A timeout written as a number with a unit suffix, such as "8s", is kept in milliseconds
      whenever it fits an int. */
  lemma RestTimeoutOfWritten(settings: seq<Entry>, api: string, n: int, u: Suffix)
    requires LONG_MIN <= n <= LONG_MAX && INT_MIN <= n * SuffixMillis(u) <= INT_MAX
    requires Get(settings, "timeout") == Str(Decimal(n) + SuffixText(u))
    ensures RestClientSettings(settings, api).Ok? ==> RestClientSettings(settings, api).value.timeout == n * SuffixMillis(u)
  {
    ParseTimeValueOfWritten(settings, "timeout", n, u, 5, Some(Seconds));
  }

  /** The part of the constructor after the URL check: timeout and credentials. */
  function RestClientSettings(settings: seq<Entry>, api: string): (r: Result<RestClientConfig>)
    ensures r.Ok? ==> r.value.restAPIUrlBase == api
    ensures r.Ok? ==> INT_MIN <= r.value.timeout <= INT_MAX
    ensures r.Ok? && !ContainsKey(settings, "timeout") ==> r.value.timeout == 5000
    ensures r.Ok? ==> (r.value.isAuthConfigured <==> !IsEmpty(r.value.username))
    ensures r.Ok? ==> Get(settings, "username") == (if r.value.username.Some? then Str(r.value.username.value) else Null)
    ensures r.Ok? ==> Get(settings, "pwd") == (if r.value.password.Some? then Str(r.value.password.value) else Null)
    ensures r.Ok? ==> var t := ParseTimeValue(Some(settings), "timeout", 5, Some(Seconds));
      t.Ok? && r.value.timeout == IntValue(t.value)
  {
    match ParseTimeValue(Some(settings), "timeout", 5, Some(Seconds))
    case Err(e) => Err(e)
    case Ok(timeout) =>
      match AsString(Get(settings, "username"))
      case Err(e) => Err(e)
      case Ok(username) =>
        match AsString(Get(settings, "pwd"))
        case Err(e) => Err(e)
        case Ok(password) => Ok(RestClientConfig(api, IntValue(timeout), !IsEmpty(username), username, password))
  }
}
