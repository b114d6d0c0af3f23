/** local/LocalRestRequest: the RestRequest that SourceClientLocal hands to ElasticSearch's REST
    handlers. It is a GET without content whose parameters live in a string map. */
module LocalRestRequests {
  import opened Wrappers
  import opened RestRequests

  class LocalRestRequest {
    /** The parameter map (a HashMap<String, String>). */
    var params: map<string, string>

    /** A request with an empty parameter map. */
    constructor ()
      ensures params == map[]
    {
      params := map[];
    }

    function Method(): (m: HttpMethod)
      ensures m == GET
    {
      GET
    }

    function Uri(): (u: string)
      ensures u == ""
    {
      ""
    }

    function RawPath(): (p: string)
      ensures p == ""
    {
      ""
    }

    function HasContent(): (b: bool)
      ensures !b
    {
      false
    }

    function ContentUnsafe(): (b: bool)
      ensures !b
    {
      false
    }

    /** The request body: null. */
    function Content(): (c: Option<seq<bv8>>)
      ensures c.None?
    {
      None
    }

    /** Every header reads as null. */
    function Header(name: string): (h: Option<string>)
      ensures h.None?
    {
      None
    }

    /** hasParam: whether the map holds the key. */
    function HasParam(key: string): (b: bool)
      reads this
      ensures b <==> key in params
    {
      key in params
    }

    /** param: the value held under the key, or null. */
    function Param(key: string): (v: Option<string>)
      reads this
      ensures v.Some? <==> key in params
      ensures v.Some? ==> v.value == params[key]
    {
      if key in params then Some(params[key]) else None
    }

    /** param with a default: the value held under the key, otherwise the default. */
    function ParamOr(key: string, defaultValue: Option<string>): (v: Option<string>)
      reads this
      ensures key in params ==> v == Some(params[key])
      ensures key !in params ==> v == defaultValue
    {
      if HasParam(key) then Param(key) else defaultValue
    }

    /** addParam: puts the key and value into the map and returns this request. */
    method AddParam(key: string, value: string) returns (r: LocalRestRequest)
      modifies this
      ensures r == this && params == old(params)[key := value]
      ensures HasParam(key) && Param(key) == Some(value)
      ensures forall k :: k != key ==> Param(k) == old(Param(k))
    {
      params := params[key := value];
      r := this;
    }
  }
}
