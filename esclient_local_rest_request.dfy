/** esclient/LocalRestRequest: the RestRequest that SourceClientESClient hands to ElasticSearch's
    REST handlers. It is a GET without content whose parameters live in a string map. */
module EsClientRestRequests {
  import opened Wrappers
  import opened RestRequests

  class LocalRestRequest {
    /** The parameter map (a HashMap<String, String>). */
    var params: map<string, string>

    /** Uses the given parameter map, or a new empty one when it is null. */
    constructor (params: Option<map<string, string>>)
      ensures this.params == if params.Some? then params.value else map[]
    {
      this.params := if params.Some? then params.value else map[];
    }

    function Method(): (m: HttpMethod)
      ensures m == GET
    {
      GET
    }

    function Uri(): (u: string)
      ensures u == ""
    {
      ""
    }

    function RawPath(): (p: string)
      ensures p == ""
    {
      ""
    }

    function HasContent(): (b: bool)
      ensures !b
    {
      false
    }

    function ContentUnsafe(): (b: bool)
      ensures !b
    {
      false
    }

    /** The request body: null. */
    function Content(): (c: Option<seq<bv8>>)
      ensures c.None?
    {
      None
    }

    /** Every header reads as the empty string. */
    function Header(name: string): (h: Option<string>)
      ensures h == Some("")
    {
      Some("")
    }

    /** The header list: null. */
    function Headers(): (hs: Option<seq<(string, string)>>)
      ensures hs.None?
    {
      None
    }

    /** hasParam: whether the map holds the key. */
    function HasParam(key: string): (b: bool)
      reads this
      ensures b <==> key in params
    {
      key in params
    }

    /** param: the value held under the key, or null. */
    function Param(key: string): (v: Option<string>)
      reads this
      ensures v.Some? <==> key in params
      ensures v.Some? ==> v.value == params[key]
    {
      if key in params then Some(params[key]) else None
    }

    /** param with a default: the value held under the key, otherwise the default. */
    function ParamOr(key: string, defaultValue: Option<string>): (v: Option<string>)
      reads this
      ensures key in params ==> v == Some(params[key])
      ensures key !in params ==> v == defaultValue
    {
      if HasParam(key) then Param(key) else defaultValue
    }

    /** addParam: puts the key and value into the map and returns this request. */
    method AddParam(key: string, value: string) returns (r: LocalRestRequest)
      modifies this
      ensures r == this && params == old(params)[key := value]
      ensures HasParam(key) && Param(key) == Some(value)
      ensures forall k :: k != key ==> Param(k) == old(Param(k))
    {
      params := params[key := value];
      r := this;
    }
  }
}
