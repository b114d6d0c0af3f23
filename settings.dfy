/** The river settings document: the nested Map<String, Object> that ElasticSearch builds from
    the river's JSON configuration, read through Map.get, Map.containsKey and toString. */
module Settings {
  import opened Wrappers
  import opened JavaNumbers

  /** A settings value. Null is Java's null, which is also what Map.get returns for an absent key;
      Obj is a map whose entries keep their iteration order. */
  datatype Node =
    | Null
    | Str(s: string)
    | Int(i: int)
    | Bool(b: bool)
    | List(items: seq<Node>)
    | Obj(entries: seq<Entry>)

  datatype Entry = Entry(key: string, value: Node)

  predicate ContainsKey(entries: seq<Entry>, key: string)
  {
    exists i :: 0 <= i < |entries| && entries[i].key == key
  }

  /** Map.get: the value stored under key, or null when the key is absent. */
  function Get(entries: seq<Entry>, key: string): (r: Node)
    ensures !ContainsKey(entries, key) ==> r == Null
    ensures ContainsKey(entries, key) ==> exists i :: 0 <= i < |entries| && entries[i].key == key && entries[i].value == r
  {
    if |entries| == 0 then Null
    else if entries[0].key == key then entries[0].value
    else
      var r := Get(entries[1..], key);
      assert ContainsKey(entries, key) ==> ContainsKey(entries[1..], key) by {
        if ContainsKey(entries, key) {
          var i :| 0 <= i < |entries| && entries[i].key == key;
          assert entries[1..][i - 1].key == key;
        }
      }
      assert ContainsKey(entries[1..], key) ==> ContainsKey(entries, key) by {
        if ContainsKey(entries[1..], key) {
          var i :| 0 <= i < |entries[1..]| && entries[1..][i].key == key;
          assert entries[i + 1].key == key;
        }
      }
      r
  }

  function Keys(entries: seq<Entry>): (r: seq<string>)
    ensures |r| == |entries| && forall i :: 0 <= i < |r| ==> r[i] == entries[i].key
  {
    if |entries| == 0 then [] else [entries[0].key] + Keys(entries[1..])
  }

  /** Object.toString of a settings value (AbstractCollection and AbstractMap rendering for lists
      and maps). */
  function Render(n: Node): string
  {
    match n
    case Null => "null"
    case Str(s) => s
    case Int(i) => Decimal(i)
    case Bool(b) => if b then "true" else "false"
    case List(items) => "[" + RenderItems(items) + "]"
    case Obj(entries) => "{" + RenderEntries(entries) + "}"
  }

  function RenderItems(items: seq<Node>): string
  {
    if |items| == 0 then ""
    else Render(items[0]) + (if |items| == 1 then "" else ", " + RenderItems(items[1..]))
  }

  function RenderEntries(entries: seq<Entry>): string
  {
    if |entries| == 0 then ""
    else
      var rest := if |entries| == 1 then "" else ", " + RenderEntries(entries[1..]);
      entries[0].key + "=" + Render(entries[0].value) + rest
  }

  /** XContentMapValues.nodeStringValue(node, null): null stays null, any other value becomes
      its toString; a string is returned unchanged. */
  function NodeStringValue(n: Node): (r: Option<string>)
    ensures r.None? <==> n.Null?
    ensures n.Str? ==> r == Some(n.s)
  {
    if n.Null? then None else Some(Render(n))
  }

  /** The Java cast (String) value: null stays null, a string passes, anything else is a
      ClassCastException. */
  function AsString(n: Node): (r: Result<Option<string>>)
    ensures r.Ok? <==> (n.Null? || n.Str?)
    ensures r == Ok(None) <==> n.Null?
    ensures n.Str? ==> r == Ok(Some(n.s))
  {
    match n
    case Null => Ok(None)
    case Str(s) => Ok(Some(s))
    case _ => Err(ClassCast)
  }

  /** One pair of a Map<String, String>; a map is its pairs in iteration order. */
  datatype Param = Param(name: string, value: string)

  /** A java.util.Map holds each key once. */
  predicate DistinctNames(ps: seq<Param>)
  {
    forall i, j :: 0 <= i < j < |ps| ==> ps[i].name != ps[j].name
  }

  predicate HasParam(ps: seq<Param>, name: string)
  {
    exists i :: 0 <= i < |ps| && ps[i].name == name
  }

  /** Map.get on a Map<String, String>: the value stored under name, or null. */
  function ParamValue(ps: seq<Param>, name: string): (r: Option<string>)
    ensures r.None? <==> !HasParam(ps, name)
    ensures r.Some? ==> Param(name, r.value) in ps
  {
    if |ps| == 0 then None
    else if ps[0].name == name then Some(ps[0].value)
    else
      assert forall i :: 1 <= i < |ps| ==> ps[i] == ps[1..][i - 1];
      ParamValue(ps[1..], name)
  }

  /** The same map seen as a Map<String, Object>. */
  function ParamsAsEntries(ps: seq<Param>): (r: seq<Entry>)
    ensures |r| == |ps|
    ensures forall i :: 0 <= i < |r| ==> r[i] == Entry(ps[i].name, Str(ps[i].value))
  {
    if |ps| == 0 then [] else [Entry(ps[0].name, Str(ps[0].value))] + ParamsAsEntries(ps[1..])
  }
}
