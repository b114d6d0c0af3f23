/** The kinds of system information an indexer can store, and their parsing from the
    configuration's info_type value. */
module SysinfoTypes {
  import opened Wrappers
  import opened Utils

  datatype SysinfoType = ClusterHealth | ClusterState | ClusterNodesInfo | ClusterNodesStats | IndicesStatus

  /** SysinfoType.values(), in declaration order. */
  const Values: seq<SysinfoType> := [ClusterHealth, ClusterState, ClusterNodesInfo, ClusterNodesStats, IndicesStatus]

  /** SysinfoType.getName: the name used in configuration files. */
  function Name(t: SysinfoType): string
  {
    match t
    case ClusterHealth => "cluster_health"
    case ClusterState => "cluster_state"
    case ClusterNodesInfo => "cluster_nodes_info"
    case ClusterNodesStats => "cluster_nodes_stats"
    case IndicesStatus => "indices_status"
  }

  /** Character.toLowerCase restricted to ASCII letters. */
  function LowerAscii(c: char): char
  {
    if 'A' <= c <= 'Z' then ((c as int) + 32) as char else c
  }

  /** String.equalsIgnoreCase for ASCII text. */
  predicate EqualsIgnoreCase(a: string, b: string)
  {
    |a| == |b| && forall i :: 0 <= i < |a| ==> LowerAscii(a[i]) == LowerAscii(b[i])
  }

  lemma EqualsIgnoreCaseTransitive(a: string, b: string, c: string)
    requires EqualsIgnoreCase(a, b) && EqualsIgnoreCase(b, c)
    ensures EqualsIgnoreCase(a, c)
  {
  }

  /** No two constants have names that are equal ignoring case. */
  lemma NamesDistinct(t: SysinfoType, u: SysinfoType)
    requires EqualsIgnoreCase(Name(t), Name(u))
    ensures t == u
  {
    assert |Name(t)| == |Name(u)|;
    assert LowerAscii(Name(t)[0]) == LowerAscii(Name(u)[0]);
  }

  /** values() lists every constant. */
  lemma ValuesComplete()
    ensures forall t: SysinfoType :: t in Values
  {
    forall t: SysinfoType
      ensures t in Values
    {
      match t
      case ClusterHealth =>
      case ClusterState =>
      case ClusterNodesInfo =>
      case ClusterNodesStats =>
      case IndicesStatus =>
    }
  }

  /** The first constant of ts whose name equals value ignoring case. */
  function FirstMatch(ts: seq<SysinfoType>, value: string): (r: Option<SysinfoType>)
    ensures r.Some? ==> r.value in ts && EqualsIgnoreCase(Name(r.value), value)
    ensures r.None? <==> forall t :: t in ts ==> !EqualsIgnoreCase(Name(t), value)
  {
    if |ts| == 0 then None
    else if EqualsIgnoreCase(Name(ts[0]), value) then Some(ts[0])
    else
      assert forall t :: t in ts ==> t == ts[0] || t in ts[1..];
      FirstMatch(ts[1..], value)
  }

  /** SysinfoType.parseConfiguration: a null or blank value and a value matching no constant's name
      are SettingsExceptions; otherwise the constant whose name equals the value ignoring case. */
  function ParseConfiguration(value: Option<string>): (r: Result<SysinfoType>)
    ensures IsEmpty(value) ==> r.Err?
    ensures r.Err? ==> r.error.SettingsError?
    ensures r.Ok? ==> EqualsIgnoreCase(Name(r.value), value.value)
    ensures !IsEmpty(value) ==> (r.Err? <==> forall t: SysinfoType :: !EqualsIgnoreCase(Name(t), value.value))
  {
    if IsEmpty(value) then Err(SettingsError("indexers/info_type must be defined"))
    else
      match FirstMatch(Values, value.value)
      case Some(t) => Ok(t)
      case None =>
        ValuesComplete();
        Err(SettingsError("indexers/info_type contains unsupported name: " + value.value))
  }

  /** A value parses to t exactly when it equals t's name ignoring case; in particular every
      constant's own name parses back to that constant. */
  lemma ParseConfigurationIff(value: string, t: SysinfoType)
    ensures ParseConfiguration(Some(value)) == Ok(t) <==> EqualsIgnoreCase(Name(t), value)
  {
    if EqualsIgnoreCase(Name(t), value) {
      assert !IsTrimmable(value[0]) by { assert LowerAscii(value[0]) == LowerAscii(Name(t)[0]); }
      assert !IsEmpty(Some(value));
      var r := ParseConfiguration(Some(value));
      assert r.Ok?;
      EqualsIgnoreCaseTransitive(Name(r.value), value, Name(t));
      NamesDistinct(r.value, t);
    }
  }
}
