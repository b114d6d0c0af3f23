/** SysinfoRiver: the river that configures a source client and a set of indexers from its
    settings, runs one thread per indexer while started, and registers itself by name for the
    management actions. The static registry of running rivers is an explicit object here, and
    threads are values recorded in the river's fields. */
module River {
  import opened Wrappers
  import opened Settings
  import opened Utils
  import opened SysinfoTypes
  import opened SourceClients
  import opened Indexer
  import TransportClientSource
  import SourceClientRest

  /** The value of es_connection/type, read with nodeStringValue. */
  function ConnectionType(sourceClientSettings: seq<Entry>): Option<string>
  {
    NodeStringValue(Get(sourceClientSettings, "type"))
  }

  /** The source client part of configure: es_connection must be present and be a map with a
      non-blank type, which selects, ignoring case, the local client, a transport client or a REST
      client configured from the same map. */
  function SourceClientOf(settings: seq<Entry>, client: ClientHandle, isWellFormedURL: string -> bool): (r: Result<SourceClient>)
    ensures !ContainsKey(settings, "es_connection") ==> r.Err? && r.error.SettingsError?
    ensures Get(settings, "es_connection").Obj? && IsEmpty(ConnectionType(Get(settings, "es_connection").entries)) ==>
      r.Err? && r.error.SettingsError?
    ensures r.Ok? ==> Get(settings, "es_connection").Obj? && !IsEmpty(ConnectionType(Get(settings, "es_connection").entries))
    ensures r.Ok? && r.value.ESClient? ==>
      EqualsIgnoreCase("local", ConnectionType(Get(settings, "es_connection").entries).value) && r.value.client == client
    ensures r.Ok? && r.value.TransportClient? ==>
      EqualsIgnoreCase("remote", ConnectionType(Get(settings, "es_connection").entries).value)
      && TransportClientSource.TransportSettingsOf(Get(settings, "es_connection").entries) == Ok((r.value.addresses, r.value.settingsConf))
    ensures r.Ok? && r.value.RestClient? ==>
      EqualsIgnoreCase("rest", ConnectionType(Get(settings, "es_connection").entries).value)
      && SourceClientRest.NewSourceClientREST(Get(settings, "es_connection").entries, isWellFormedURL) == Ok(r.value.config)
  {
    if !ContainsKey(settings, "es_connection") then
      Err(SettingsError("'es_connection' element of river configuration structure not found"))
    else
      var conn := Get(settings, "es_connection");
      if conn.Null? then Err(NullPointer)
      else if !conn.Obj? then Err(ClassCast)
      else
        var connType := ConnectionType(conn.entries);
        if IsEmpty(connType) then
          Err(SettingsError("es_connection/type element of configuration structure not found or empty"))
        else if EqualsIgnoreCase("local", connType.value) then Ok(ESClient(client))
        else if EqualsIgnoreCase("remote", connType.value) then
          match TransportClientSource.TransportSettingsOf(conn.entries)
          case Ok(t) => Ok(TransportClient(t.0, t.1))
          case Err(e) => Err(e)
        else if EqualsIgnoreCase("rest", connType.value) then
          match SourceClientRest.NewSourceClientREST(conn.entries, isWellFormedURL)
          case Ok(config) => Ok(RestClient(config))
          case Err(e) => Err(e)
        else Err(SettingsError("es_connection/type value '" + connType.value + "' is invalid. Use one of local, remote, rest"))
  }

  /** A type value other than local, remote and rest (in any case) is rejected. */
  lemma UnknownConnectionType(settings: seq<Entry>, client: ClientHandle, isWellFormedURL: string -> bool)
    requires Get(settings, "es_connection").Obj?
    requires ConnectionType(Get(settings, "es_connection").entries).Some?
    requires var t := ConnectionType(Get(settings, "es_connection").entries).value;
      !EqualsIgnoreCase("local", t) && !EqualsIgnoreCase("remote", t) && !EqualsIgnoreCase("rest", t)
    ensures SourceClientOf(settings, client, isWellFormedURL).Err?
    ensures SourceClientOf(settings, client, isWellFormedURL).error.SettingsError?
  {
    assert ContainsKey(settings, "es_connection");
  }

  /** configMandatoryString: the value must be a string (a ClassCastException otherwise) that is
      not blank (a SettingsException otherwise). */
  function ConfigMandatoryString(settings: seq<Entry>, key: string, parentName: string): (r: Result<string>)
    ensures r.Ok? ==> Get(settings, key) == Str(r.value) && !IsBlank(r.value)
    ensures IsEmptyValue(Get(settings, key)) ==> r.Err? && r.error.SettingsError?
  {
    match AsString(Get(settings, key))
    case Err(e) => Err(e)
    case Ok(s) =>
      if IsEmpty(s) then Err(SettingsError("'indexers/" + parentName + "/" + key + "' river configuration element not found or is empty"))
      else Ok(s.value)
  }

  /** The indexer's info_type: a String (a ClassCastException otherwise) naming a sysinfo type. */
  function InfoTypeOf(settings: seq<Entry>): (r: Result<SysinfoType>)
    ensures r.Ok? ==> Get(settings, "info_type").Str? && ParseConfiguration(Some(Get(settings, "info_type").s)) == r
    ensures Get(settings, "info_type").Null? ==> r.Err? && r.error.SettingsError?
  {
    var text :- AsString(Get(settings, "info_type"));
    ParseConfiguration(text)
  }

  /** The indexer's optional params map; a value of another class is a ClassCastException. */
  function ParamsOf(settings: seq<Entry>): (r: Result<Option<seq<Entry>>>)
    ensures r.Ok? <==> Get(settings, "params").Null? || Get(settings, "params").Obj?
    ensures r.Ok? ==> Get(settings, "params") == (if r.value.Some? then Obj(r.value.value) else Null)
  {
    var params := Get(settings, "params");
    if params.Null? then Ok(None)
    else if params.Obj? then Ok(Some(params.entries))
    else Err(ClassCast)
  }

  /** The indexer configured from one indexers section: it must be a map; info_type, index_name and
      index_type are mandatory, period defaults to 30 seconds and params is optional. */
  function IndexerConfigOf(name: string, ic: Node, sourceClient: SourceClient, client: ClientHandle): (r: Result<IndexerConfig>)
    ensures ic.Null? ==> r == Err(NullPointer)
    ensures r.Ok? ==> ic.Obj?
    ensures r.Ok? ==> r.value.name == name && r.value.sourceClient == sourceClient && r.value.targetClient == client
    ensures r.Ok? ==> Get(ic.entries, "index_name") == Str(r.value.indexName) && !IsBlank(r.value.indexName)
    ensures r.Ok? ==> Get(ic.entries, "index_type") == Str(r.value.typeName) && !IsBlank(r.value.typeName)
    ensures r.Ok? ==> InfoTypeOf(ic.entries) == Ok(r.value.infoType)
    ensures r.Ok? ==> ParseTimeValue(Some(ic.entries), "period", 30, Some(Seconds)) == Ok(r.value.indexingPeriod)
    ensures r.Ok? ==> ParamsOf(ic.entries) == Ok(r.value.params)
  {
    if ic.Null? then Err(NullPointer)
    else if !ic.Obj? then Err(ClassCast)
    else
      var e := ic.entries;
      var infoType :- InfoTypeOf(e);
      var indexName :- ConfigMandatoryString(e, "index_name", name);
      var typeName :- ConfigMandatoryString(e, "index_type", name);
      var indexingPeriod :- ParseTimeValue(Some(e), "period", 30, Some(Seconds));
      var params :- ParamsOf(e);
      Ok(IndexerConfig(name, sourceClient, client, infoType, indexName, typeName, indexingPeriod, params))
  }

  /** IndexerConfigOf for a given source and target client. */
  function ConfigOfFor(sourceClient: SourceClient, client: ClientHandle): (string, Node) -> Result<IndexerConfig>
  {
    (name, ic) => IndexerConfigOf(name, ic, sourceClient, client)
  }

  /** The trimmed keys of the indexers section, in order. */
  function TrimmedKeys(entries: seq<Entry>): (r: seq<string>)
    ensures |r| == |entries|
  {
    seq(|entries|, k requires 0 <= k < |entries| => Trim(entries[k].key))
  }

  /** The values of the indexers section, in order. */
  function ValuesOf(entries: seq<Entry>): (r: seq<Node>)
    ensures |r| == |entries|
  {
    seq(|entries|, k requires 0 <= k < |entries| => entries[k].value)
  }

  /** Why the loop over the indexers section stopped. */
  datatype Stop = AllAdded | DuplicateName(name: string) | InvalidIndexer(error: Error)

  /** The loop of configure over the indexers section, given names already configured, the names
      to add and the configuration section of each: each name adds one indexer configured from
      its own section, until a name already present or an invalid section stops the loop. */
  function AddIndexers(names: seq<string>, keys: seq<string>, values: seq<Node>, configOf: (string, Node) -> Result<IndexerConfig>): (r: (seq<IndexerConfig>, Stop))
    requires |keys| == |values|
    ensures |r.0| <= |keys|
    ensures r.1.AllAdded? <==> |r.0| == |keys|
    decreases |keys|
  {
    if |keys| == 0 then ([], AllAdded)
    else if keys[0] in names then ([], DuplicateName(keys[0]))
    else
      match configOf(keys[0], values[0])
      case Err(e) => ([], InvalidIndexer(e))
      case Ok(c) => Prepend([c], AddIndexers(names + [keys[0]], keys[1..], values[1..], configOf))
  }

  /** Indexers added before the rest of the loop's result. */
  function Prepend(added: seq<IndexerConfig>, rest: (seq<IndexerConfig>, Stop)): (seq<IndexerConfig>, Stop)
  {
    (added + rest.0, rest.1)
  }

  /** What the loop adds: the i-th indexer is configured from the i-th name and section; none of the
      added names was configured before and no two are equal; and the loop stops at the first name
      already present (configured before or added by the loop) or the first invalid section. */
  lemma {:induction false} AddIndexersAdds(names: seq<string>, keys: seq<string>, values: seq<Node>, configOf: (string, Node) -> Result<IndexerConfig>)
    requires |keys| == |values|
    ensures var r := AddIndexers(names, keys, values, configOf);
      && (forall k :: 0 <= k < |r.0| ==> configOf(keys[k], values[k]) == Ok(r.0[k]))
      && (forall k :: 0 <= k < |r.0| ==> keys[k] !in names)
      && (forall j, k :: 0 <= j < k < |r.0| ==> keys[j] != keys[k])
      && (r.1.DuplicateName? ==> r.1.name == keys[|r.0|] && keys[|r.0|] in names + keys[..|r.0|])
      && (r.1.InvalidIndexer? ==> keys[|r.0|] !in names + keys[..|r.0|] && configOf(keys[|r.0|], values[|r.0|]) == Err(r.1.error))
    decreases |keys|
  {
    if |keys| > 0 && keys[0] !in names && configOf(keys[0], values[0]).Ok? {
      var rest := AddIndexers(names + [keys[0]], keys[1..], values[1..], configOf);
      AddIndexersAdds(names + [keys[0]], keys[1..], values[1..], configOf);
      assert forall k :: 1 <= k < |keys| ==> keys[k] == keys[1..][k - 1] && values[k] == values[1..][k - 1];
      assert |rest.0| < |keys| - 1 ==> keys[..|rest.0| + 1] == [keys[0]] + keys[1..][..|rest.0|];
    }
  }

  /** No name is configured already, the names are distinct and every section is valid. */
  predicate AllAddable(names: seq<string>, keys: seq<string>, values: seq<Node>, configOf: (string, Node) -> Result<IndexerConfig>)
    requires |keys| == |values|
  {
    (forall k :: 0 <= k < |keys| ==> keys[k] !in names && configOf(keys[k], values[k]).Ok?)
    && (forall j, k :: 0 <= j < k < |keys| ==> keys[j] != keys[k])
  }

  /** Every name gets one indexer exactly when none is configured already, the names are distinct
      and every section is valid. */
  lemma {:induction false} AddIndexersAllAdded(names: seq<string>, keys: seq<string>, values: seq<Node>, configOf: (string, Node) -> Result<IndexerConfig>)
    requires |keys| == |values|
    ensures AddIndexers(names, keys, values, configOf).1 == AllAdded <==> AllAddable(names, keys, values, configOf)
    decreases |keys|
  {
    if |keys| > 0 {
      assert forall k :: 1 <= k < |keys| ==> keys[k] == keys[1..][k - 1] && values[k] == values[1..][k - 1];
      AddIndexersAllAdded(names + [keys[0]], keys[1..], values[1..], configOf);
    }
  }

  /** The indexers section: a non-empty map; null, a missing key and an empty map are rejected and
      a value of another class is a ClassCastException. */
  function IndexersSection(settings: seq<Entry>): (r: Result<seq<Entry>>)
    ensures r.Ok? <==> Get(settings, "indexers").Obj? && |Get(settings, "indexers").entries| > 0
    ensures r.Ok? ==> r.value == Get(settings, "indexers").entries
    ensures Get(settings, "indexers").Null? || Get(settings, "indexers") == Obj([]) ==> r.Err? && r.error.SettingsError?
  {
    var section := Get(settings, "indexers");
    if section.Null? || (section.Obj? && |section.entries| == 0) then
      Err(SettingsError("'indexers' element of river configuration structure not found or is empty"))
    else if !section.Obj? then Err(ClassCast)
    else Ok(section.entries)
  }

  /** The error a stopped loop over the indexers section reports. */
  function StopError(stop: Stop): (r: Option<Error>)
    ensures r.None? <==> stop.AllAdded?
  {
    match stop
    case AllAdded => None
    case DuplicateName(name) => Some(SettingsError("Duplicate 'indexers/" + name + "' section"))
    case InvalidIndexer(e) => Some(e)
  }

  /** What configure does to a stopped river: the source client it sets (None when it fails before
      that), the names and configurations of the indexers it adds, and the error it stops with.
      Indexers added before an error stay configured. */
  datatype Configuration = Configuration(source: Option<SourceClient>, addedNames: seq<string>, added: seq<IndexerConfig>, error: Option<Error>)

  /** For each source client, how an indexer section is configured against it (IndexerConfigOf,
      with client as the target). */
  function IndexerConfigsFor(client: ClientHandle): SourceClient -> (string, Node) -> Result<IndexerConfig>
  {
    sc => ConfigOfFor(sc, client)
  }

  /** configure for a river whose configured indexer names are names, once the source client part
      has given source (see SourceClientOf); configOf says how a section is configured for a
      source client (IndexerConfigsFor). */
  function ConfigureSpec(names: seq<string>, source: Result<SourceClient>, section: Result<seq<Entry>>, configOf: SourceClient -> (string, Node) -> Result<IndexerConfig>): (c: Configuration)
    ensures |c.addedNames| == |c.added|
    ensures source.Err? ==> c == Configuration(None, [], [], Some(source.error))
    ensures source.Ok? ==> c.source == Some(source.value)
    ensures c.error.None? ==> source.Ok? && section.Ok?
  {
    match source
    case Err(e) => Configuration(None, [], [], Some(e))
    case Ok(sc) =>
      match section
      case Err(e) => Configuration(Some(sc), [], [], Some(e))
      case Ok(entries) =>
        var keys := TrimmedKeys(entries);
        var r := AddIndexers(names, keys, ValuesOf(entries), configOf(sc));
        Configuration(Some(sc), keys[..|r.0|], r.0, StopError(r.1))
  }

  /** configure keeps indexer names distinct: the added names are the trimmed keys of the section,
      none of them configured before and no two equal. */
  lemma ConfigureDistinctNames(names: seq<string>, source: Result<SourceClient>, section: Result<seq<Entry>>, configOf: SourceClient -> (string, Node) -> Result<IndexerConfig>)
    requires forall j, k :: 0 <= j < k < |names| ==> names[j] != names[k]
    ensures var c := ConfigureSpec(names, source, section, configOf);
      var all := names + c.addedNames;
      forall j, k :: 0 <= j < k < |all| ==> all[j] != all[k]
  {
    var c := ConfigureSpec(names, source, section, configOf);
    if source.Ok? && section.Ok? {
      var entries := section.value;
      AddIndexersAdds(names, TrimmedKeys(entries), ValuesOf(entries), configOf(source.value));
    }
    var all := names + c.addedNames;
    forall j, k | 0 <= j < k < |all| ensures all[j] != all[k] {
      if k >= |names| {
        assert all[k] == c.addedNames[k - |names|];
        if j >= |names| { assert all[j] == c.addedNames[j - |names|]; }
      }
    }
  }

  /** configure succeeds exactly when the source client can be created, the indexers section is a
      non-empty map, its trimmed keys are new and distinct and every section configures an
      indexer; then every key is added. */
  lemma ConfigureSucceedsIff(names: seq<string>, source: Result<SourceClient>, section: Result<seq<Entry>>, configOf: SourceClient -> (string, Node) -> Result<IndexerConfig>)
    ensures var c := ConfigureSpec(names, source, section, configOf);
      c.error.None? <==>
        source.Ok? && section.Ok?
        && var entries := section.value;
           AllAddable(names, TrimmedKeys(entries), ValuesOf(entries), configOf(source.value))
    ensures var c := ConfigureSpec(names, source, section, configOf);
      c.error.None? ==> c.addedNames == TrimmedKeys(section.value)
  {
    var c := ConfigureSpec(names, source, section, configOf);
    if source.Ok? && section.Ok? {
      var entries := section.value;
      var keys, values := TrimmedKeys(entries), ValuesOf(entries);
      AddIndexersAllAdded(names, keys, values, configOf(source.value));
      if c.error.None? {
        assert keys[..|keys|] == keys;
      }
    }
  }

  /** The section configure (as written) reads for an entry of the indexers map: the one stored
      under the entry's TRIMMED key. */
  function AsWrittenSections(entries: seq<Entry>): (r: seq<Node>)
    ensures |r| == |entries|
  {
    seq(|entries|, k requires 0 <= k < |entries| => Get(entries, Trim(entries[k].key)))
  }

  /** Where no key carries surrounding blanks and keys are distinct, the as-written lookup finds each
      entry's own section. */
  lemma AsWrittenSectionsForTrimmedKeys(entries: seq<Entry>)
    requires forall k :: 0 <= k < |entries| ==> Trim(entries[k].key) == entries[k].key
    requires forall j, k :: 0 <= j < k < |entries| ==> entries[j].key != entries[k].key
    ensures AsWrittenSections(entries) == ValuesOf(entries)
  {
    forall k | 0 <= k < |entries| ensures AsWrittenSections(entries)[k] == ValuesOf(entries)[k] {
      GetAt(entries, k);
    }
  }

  /** The first entry under a key is the one Get returns. */
  lemma {:induction false} GetAt(entries: seq<Entry>, k: nat)
    requires k < |entries|
    requires forall j :: 0 <= j < k ==> entries[j].key != entries[k].key
    ensures Get(entries, entries[k].key) == entries[k].value
  {
    if k > 0 {
      assert forall j :: 0 <= j < k - 1 ==> entries[1..][j] == entries[j + 1];
      GetAt(entries[1..], k - 1);
    }
  }

  /** As written, configure looks an entry whose key carries blanks up under the trimmed key. In a
      map holding only that entry the lookup finds nothing, and reading the null section fails with
      a NullPointerException, whatever the section says. */
  lemma PaddedKeyAsWritten(key: string, section: Node, sc: SourceClient, client: ClientHandle)
    requires Trim(key) != key
    ensures AddIndexers([], TrimmedKeys([Entry(key, section)]), AsWrittenSections([Entry(key, section)]), ConfigOfFor(sc, client))
      == ([], InvalidIndexer(NullPointer))
  {
    var entries := [Entry(key, section)];
    assert AsWrittenSections(entries)[0] == Get(entries, Trim(key)) == Null;
  }

  /** Reading the entry's own section instead configures the indexer under the trimmed key
      whenever the section is valid. */
  lemma PaddedKeyCorrected(key: string, section: Node, configOf: (string, Node) -> Result<IndexerConfig>)
    requires configOf(Trim(key), section).Ok?
    ensures AddIndexers([], TrimmedKeys([Entry(key, section)]), ValuesOf([Entry(key, section)]), configOf)
      == ([configOf(Trim(key), section).value], AllAdded)
  {
    var entries := [Entry(key, section)];
    var keys, values := TrimmedKeys(entries), ValuesOf(entries);
    assert keys == [Trim(key)] && values == [section];
    assert keys[1..] == [] && values[1..] == [];
    var names: seq<string> := [];
    assert names + [Trim(key)] == [Trim(key)];
    assert AddIndexers([Trim(key)], [], [], configOf) == ([], AllAdded);
    assert [configOf(Trim(key), section).value] + [] == [configOf(Trim(key), section).value];
  }

  /** Keys with blanks around them exist: " ch " trims to "ch". */
  lemma TrimOfPadded()
    ensures Trim(" ch ") == "ch"
  {
    assert TrimLeading(" ch ") == "ch ";
    assert TrimTrailing("ch ") == "ch";
  }

  /** The configurations of indexers, in order. */
  function ConfigsOf(indexers: seq<SysinfoIndexer>): (r: seq<IndexerConfig>)
    ensures |r| == |indexers|
    ensures forall k :: 0 <= k < |indexers| ==> r[k] == indexers[k].Config()
  {
    if |indexers| == 0 then []
    else ConfigsOf(indexers[..|indexers| - 1]) + [indexers[|indexers| - 1].Config()]
  }

  /** An indexer thread: the daemon thread acquireThread creates for an indexer, named after it. */
  datatype IndexerThread = IndexerThread(threadName: string, runnable: SysinfoIndexer)

  /** The threads start creates for indexers, one per indexer and in their order. */
  function ThreadsOf(indexers: seq<SysinfoIndexer>): (r: seq<IndexerThread>)
    ensures |r| == |indexers|
    ensures forall k :: 0 <= k < |indexers| ==> r[k] == IndexerThread("sysinfo_river_" + indexers[k].name, indexers[k])
  {
    if |indexers| == 0 then []
    else ThreadsOf(indexers[..|indexers| - 1]) + [IndexerThread("sysinfo_river_" + indexers[|indexers| - 1].name, indexers[|indexers| - 1])]
  }

  /** A call the river makes on its source client. */
  datatype SourceCall = StartSource(client: SourceClient) | CloseSource(client: SourceClient)

  /** No name occurs twice in names. */
  ghost predicate Distinct(names: seq<string>)
  {
    forall j, k :: 0 <= j < k < |names| ==> names[j] != names[k]
  }

  /** The registry of running rivers the management operations dispatch through, by river name. */
  class RiverRegistry {
    var instances: map<string, SysinfoRiver>

    constructor()
      ensures instances == map[]
    {
      instances := map[];
    }

    /** addRunningInstance: the river is registered under its name, replacing any river there. */
    method AddRunningInstance(river: SysinfoRiver)
      modifies this
      ensures instances == old(instances)[river.riverName := river]
      ensures GetRunningInstance(Some(river.riverName)) == Some(river)
    {
      instances := instances[river.riverName := river];
    }

    /** getRunningInstance: no river for a null name, otherwise the river registered under it. */
    function GetRunningInstance(riverName: Option<string>): (r: Option<SysinfoRiver>)
      reads this
      ensures riverName.None? ==> r.None?
      ensures riverName.Some? ==> (r.Some? <==> riverName.value in instances)
      ensures r.Some? ==> r.value == instances[riverName.value]
    {
      if riverName.None? then None
      else if riverName.value in instances then Some(instances[riverName.value])
      else None
    }

    /** getRunningInstances: the names of the registered rivers. */
    function GetRunningInstances(): (r: set<string>)
      reads this
      ensures forall n :: n in r <==> GetRunningInstance(Some(n)).Some?
    {
      instances.Keys
    }
  }

  class SysinfoRiver {
    const riverName: string
    /** The local client the indexers store into. */
    const client: ClientHandle
    /** True while the river is stopped; configure needs it and start clears it. */
    var closed: bool
    var sourceClient: Option<SourceClient>
    /** The configured indexers in insertion order, with the names they were added under; the
        two sequences together are the river's linked map from name to indexer. */
    var indexerNames: seq<string>
    var indexers: seq<SysinfoIndexer>
    var indexerThreads: seq<IndexerThread>
    /** The threads close has interrupted, in order. */
    var interrupted: seq<IndexerThread>
    /** The calls made on the source client, in order. */
    var sourceLog: seq<SourceCall>

    /** Each name maps to one indexer, and no name twice. */
    ghost predicate Valid()
      reads this
    {
      |indexers| == |indexerNames| && Distinct(indexerNames)
    }

    /** The indexer registered under name, as the map lookup of the source gives it. */
    function IndexerOf(name: string): (r: Option<SysinfoIndexer>)
      reads this
      requires Valid()
      ensures r.Some? <==> name in indexerNames
      ensures r.Some? ==> exists k :: 0 <= k < |indexerNames| && indexerNames[k] == name && r.value == indexers[k]
    {
      IndexerAt(indexerNames, indexers, name)
    }

    /** The constructor for a river nothing has configured yet: stopped, no source client and no
        indexers. */
    constructor(riverName: string, client: ClientHandle)
      ensures Valid()
      ensures this.riverName == riverName && this.client == client
      ensures closed && sourceClient == None && indexerNames == [] && indexers == []
      ensures indexerThreads == [] && interrupted == [] && sourceLog == []
    {
      this.riverName := riverName;
      this.client := client;
      closed := true;
      sourceClient := None;
      indexerNames := [];
      indexers := [];
      indexerThreads := [];
      interrupted := [];
      sourceLog := [];
    }

    /** configure: only a stopped river may be configured. The source client is replaced when
        es_connection is valid, and the indexers of the indexers section are added one by one
        until the first error, as ConfigureSpec says; indexers configured before stay. */
    method Configure(settings: seq<Entry>, isWellFormedURL: string -> bool) returns (r: Outcome)
      requires Valid()
      modifies this`sourceClient, this`indexers, this`indexerNames
      ensures Valid()
      ensures !old(closed) ==> r.Fail? && r.error.IllegalState?
      ensures !old(closed) ==> sourceClient == old(sourceClient) && indexerNames == old(indexerNames) && indexers == old(indexers)
      ensures old(closed) ==>
        var c := ConfigureSpec(old(indexerNames), SourceClientOf(settings, client, isWellFormedURL), IndexersSection(settings), IndexerConfigsFor(client));
        && r == (if c.error.Some? then Fail(c.error.value) else Done)
        && sourceClient == (if c.source.Some? then c.source else old(sourceClient))
        && indexerNames == old(indexerNames) + c.addedNames
        && ConfigsOf(indexers) == ConfigsOf(old(indexers)) + c.added
      ensures |old(indexers)| <= |indexers| && indexers[..|old(indexers)|] == old(indexers)
      ensures forall k :: |old(indexers)| <= k < |indexers| ==> fresh(indexers[k]) && indexers[k].closed
    {
      if !closed {
        return Fail(IllegalState("Sysinfo River must be stopped to configure it!"));
      }
      r := ConfigureFrom(SourceClientOf(settings, client, isWellFormedURL), IndexersSection(settings), IndexerConfigsFor(client));
    }

    /** configure once the source client part has given source. */
    method ConfigureFrom(source: Result<SourceClient>, section: Result<seq<Entry>>, configOf: SourceClient -> (string, Node) -> Result<IndexerConfig>) returns (r: Outcome)
      requires Valid()
      modifies this`sourceClient, this`indexers, this`indexerNames
      ensures Valid()
      ensures var c := ConfigureSpec(old(indexerNames), source, section, configOf);
        && r == (if c.error.Some? then Fail(c.error.value) else Done)
        && sourceClient == (if c.source.Some? then c.source else old(sourceClient))
        && indexerNames == old(indexerNames) + c.addedNames
        && ConfigsOf(indexers) == ConfigsOf(old(indexers)) + c.added
      ensures |old(indexers)| <= |indexers| && indexers[..|old(indexers)|] == old(indexers)
      ensures forall k :: |old(indexers)| <= k < |indexers| ==> fresh(indexers[k]) && indexers[k].closed
    {
      if source.Err? {
        assert indexers[..|indexers|] == indexers;
        return Fail(source.error);
      }
      sourceClient := Some(source.value);
      if section.Err? {
        assert indexers[..|indexers|] == indexers;
        return Fail(section.error);
      }
      var entries := section.value;
      r := AddIndexerSections(TrimmedKeys(entries), ValuesOf(entries), configOf(source.value));
    }

    /** The loop over the indexers section: each name not configured yet gets a new indexer from
        its section, until a duplicate name or an invalid section; see AddIndexers. */
    method AddIndexerSections(keys: seq<string>, values: seq<Node>, configOf: (string, Node) -> Result<IndexerConfig>) returns (r: Outcome)
      requires Valid()
      requires |keys| == |values|
      modifies this`indexers, this`indexerNames
      ensures Valid()
      ensures var a := AddIndexers(old(indexerNames), keys, values, configOf);
        && r == (if StopError(a.1).Some? then Fail(StopError(a.1).value) else Done)
        && indexerNames == old(indexerNames) + keys[..|a.0|]
        && ConfigsOf(indexers) == ConfigsOf(old(indexers)) + a.0
      ensures |old(indexers)| <= |indexers| && indexers[..|old(indexers)|] == old(indexers)
      ensures forall k :: |old(indexers)| <= k < |indexers| ==> fresh(indexers[k]) && indexers[k].closed
    {
      ghost var names0, list0 := indexerNames, indexers;
      ghost var added, created;
      r, added, created := AcceptSections(keys, values, configOf);
      AddIndexersStops(names0, keys, values, configOf, added);
      Settle(list0, created, added);
    }

    /** The loop itself: added are the configurations of the sections accepted before it stopped,
        and r says why it stopped. */
    method AcceptSections(keys: seq<string>, values: seq<Node>, configOf: (string, Node) -> Result<IndexerConfig>)
      returns (r: Outcome, ghost added: seq<IndexerConfig>, ghost created: seq<SysinfoIndexer>)
      requires Valid()
      requires |keys| == |values|
      modifies this`indexers, this`indexerNames
      ensures Valid()
      ensures Accepted(old(indexerNames), keys, values, configOf, added)
      ensures r == StopOutcome(old(indexerNames), keys, values, configOf, |added|)
      ensures r.Done? ==> |added| == |keys|
      ensures indexerNames == old(indexerNames) + keys[..|added|]
      ensures indexers == old(indexers) + created && |created| == |added|
      ensures forall k :: 0 <= k < |created| ==> created[k].Config() == added[k]
      ensures forall x :: x in created ==> fresh(x) && x.closed
    {
      ghost var names0, list0 := indexerNames, indexers;
      created := [];
      added := [];
      var i := 0;
      while i < |keys|
        invariant 0 <= i <= |keys| && |added| == i
        invariant Valid()
        invariant indexerNames == names0 + keys[..i]
        invariant Accepted(names0, keys, values, configOf, added)
        invariant indexers == list0 + created && |created| == |added|
        invariant forall k :: 0 <= k < |created| ==> created[k].Config() == added[k]
        invariant forall x :: x in created ==> fresh(x) && x.closed
      {
        var name := keys[i];
        if name in indexerNames {
          return Fail(SettingsError("Duplicate 'indexers/" + name + "' section")), added, created;
        }
        var ic := configOf(name, values[i]);
        if ic.Err? {
          return Fail(ic.error), added, created;
        }
        AcceptedExtend(names0, keys, values, configOf, added, ic.value);
        ghost var indexer := Register(name, ic.value);
        SliceExtend(keys, i);
        created := created + [indexer];
        added := added + [ic.value];
        i := i + 1;
      }
      return Done, added, created;
    }

    /** The body of configure's loop for a name not configured yet: a new indexer is built from
        its configuration and put under the name, after the indexers already there. */
    method Register(name: string, c: IndexerConfig) returns (ghost indexer: SysinfoIndexer)
      requires Valid() && name !in indexerNames
      modifies this`indexers, this`indexerNames
      ensures Valid()
      ensures indexerNames == old(indexerNames) + [name]
      ensures indexers == old(indexers) + [indexer]
      ensures indexer.Config() == c && fresh(indexer) && indexer.closed
    {
      var created := new SysinfoIndexer(c);
      DistinctExtend(indexerNames, name);
      indexers := indexers + [created];
      indexerNames := indexerNames + [name];
      indexer := created;
    }

    /** start: a running river cannot be started again. Otherwise the river is registered as
        running, its source client is started, and one thread is created per indexer, in the
        order they were configured. With no source client the start fails after the river has
        been registered, and the river stays stopped. */
    method Start(registry: RiverRegistry) returns (r: Outcome)
      modifies this`closed, this`indexerThreads, this`sourceLog, registry
      ensures !old(closed) ==> r.Fail? && r.error.IllegalState?
      ensures !old(closed) ==>
        && !closed && indexerThreads == old(indexerThreads) && sourceLog == old(sourceLog)
        && registry.instances == old(registry.instances)
      ensures old(closed) ==> registry.instances == old(registry.instances)[riverName := this]
      ensures old(closed) && sourceClient.None? ==>
        && r.Fail? && r.error.NullPointer?
        && closed && indexerThreads == old(indexerThreads) && sourceLog == old(sourceLog)
      ensures old(closed) && sourceClient.Some? ==>
        && r == Done && !closed
        && sourceLog == old(sourceLog) + [StartSource(sourceClient.value)]
        && indexerThreads == old(indexerThreads) + ThreadsOf(indexers)
    {
      if !closed {
        return Fail(IllegalState("Can't start already running river"));
      }
      registry.AddRunningInstance(this);
      if sourceClient.None? {
        return Fail(NullPointer);
      }
      sourceLog := sourceLog + [StartSource(sourceClient.value)];
      closed := false;
      AcquireThreads();
      r := Done;
    }

    /** start's loop: a thread named after each indexer, in the order of the indexers. */
    method AcquireThreads()
      modifies this`indexerThreads
      ensures indexerThreads == old(indexerThreads) + ThreadsOf(indexers)
    {
      var i := 0;
      while i < |indexers|
        invariant 0 <= i <= |indexers|
        invariant indexerThreads == old(indexerThreads) + ThreadsOf(indexers[..i])
      {
        assert indexers[..i + 1][..i] == indexers[..i];
        indexerThreads := indexerThreads + [IndexerThread("sysinfo_river_" + indexers[i].name, indexers[i])];
        i := i + 1;
      }
      assert indexers[..i] == indexers;
    }

    /** close: the river is marked stopped, every indexer is closed, the indexer threads are
        interrupted and forgotten, the source client is closed, and the river leaves the registry
        even when there is no source client to close. */
    method Close(registry: RiverRegistry) returns (r: Outcome)
      modifies this`closed, this`indexerThreads, this`interrupted, this`sourceLog, registry, indexers
      ensures closed
      ensures forall k :: 0 <= k < |indexers| ==> indexers[k].closed
      ensures interrupted == old(interrupted) + old(indexerThreads) && indexerThreads == []
      ensures sourceClient.None? ==> r.Fail? && r.error.NullPointer? && sourceLog == old(sourceLog)
      ensures sourceClient.Some? ==> r == Done && sourceLog == old(sourceLog) + [CloseSource(sourceClient.value)]
      ensures registry.instances == old(registry.instances) - {riverName}
      ensures registry.GetRunningInstance(Some(riverName)).None?
    {
      closed := true;
      CloseIndexers();
      InterruptThreads();
      if sourceClient.None? {
        r := Fail(NullPointer);
      } else {
        sourceLog := sourceLog + [CloseSource(sourceClient.value)];
        r := Done;
      }
      registry.instances := registry.instances - {riverName};
    }

    /** close's second loop: every indexer thread is interrupted, then the list is cleared. */
    method InterruptThreads()
      modifies this`interrupted, this`indexerThreads
      ensures interrupted == old(interrupted) + old(indexerThreads) && indexerThreads == []
    {
      var i := 0;
      while i < |indexerThreads|
        invariant 0 <= i <= |indexerThreads| && indexerThreads == old(indexerThreads)
        invariant interrupted == old(interrupted) + indexerThreads[..i]
      {
        interrupted := interrupted + [indexerThreads[i]];
        i := i + 1;
      }
      assert indexerThreads[..i] == indexerThreads;
      indexerThreads := [];
    }

    /** close's first loop: every indexer is told to stop. */
    method CloseIndexers()
      modifies indexers
      ensures forall k :: 0 <= k < |indexers| ==> indexers[k].closed
    {
      var i := 0;
      while i < |indexers|
        invariant 0 <= i <= |indexers|
        invariant forall k :: 0 <= k < i ==> indexers[k].closed
      {
        indexers[i].Close();
        i := i + 1;
      }
    }
  }

  /** The indexer the first occurrence of name is paired with. */
  function IndexerAt(names: seq<string>, indexers: seq<SysinfoIndexer>, name: string): (r: Option<SysinfoIndexer>)
    requires |names| == |indexers|
    ensures r.Some? <==> name in names
    ensures r.Some? ==> exists k :: 0 <= k < |names| && names[k] == name && r.value == indexers[k]
  {
    if |names| == 0 then None
    else if names[0] == name then Some(indexers[0])
    else
      var r := IndexerAt(names[1..], indexers[1..], name);
      if r.Some? then
        var k :| 0 <= k < |names| - 1 && names[1..][k] == name && r.value == indexers[1..][k];
        assert names[k + 1] == name && r.value == indexers[k + 1];
        r
      else r
  }

  /** The prefix of the indexers section that AddIndexers has accepted: each of its names is new
      and distinct from the others, and its section gave the configuration in added. */
  ghost predicate Accepted(names: seq<string>, keys: seq<string>, values: seq<Node>, configOf: (string, Node) -> Result<IndexerConfig>, added: seq<IndexerConfig>)
  {
    |added| <= |keys| == |values|
    && (forall k :: 0 <= k < |added| ==> keys[k] !in names && configOf(keys[k], values[k]) == Ok(added[k]))
    && (forall j, k :: 0 <= j < k < |added| ==> keys[j] != keys[k])
  }

  /** Why the loop over the indexers section stops after accepting i sections: the end of the
      section, a name seen before, or else an invalid section. */
  ghost function StopOutcome(names: seq<string>, keys: seq<string>, values: seq<Node>, configOf: (string, Node) -> Result<IndexerConfig>, i: nat): Outcome
    requires i <= |keys| == |values|
  {
    if i == |keys| then Done
    else if keys[i] in names + keys[..i] then Fail(SettingsError("Duplicate 'indexers/" + keys[i] + "' section"))
    else if configOf(keys[i], values[i]).Err? then Fail(configOf(keys[i], values[i]).error)
    else Done
  }

  /** Accepting one more name that is new and whose section is valid. */
  lemma AcceptedExtend(names: seq<string>, keys: seq<string>, values: seq<Node>, configOf: (string, Node) -> Result<IndexerConfig>, added: seq<IndexerConfig>, c: IndexerConfig)
    requires Accepted(names, keys, values, configOf, added) && |added| < |keys|
    requires keys[|added|] !in names + keys[..|added|]
    requires configOf(keys[|added|], values[|added|]) == Ok(c)
    ensures Accepted(names, keys, values, configOf, added + [c])
  {
    var i := |added|;
    forall j | 0 <= j < i ensures keys[j] != keys[i] {
      assert keys[j] == (names + keys[..i])[|names| + j];
    }
  }

  /** Where the accepted prefix ends, AddIndexers stops: with everything added at the end of the
      section, at the first repeated name, or at the first invalid section. */
  lemma {:induction false} AddIndexersStops(names: seq<string>, keys: seq<string>, values: seq<Node>, configOf: (string, Node) -> Result<IndexerConfig>, added: seq<IndexerConfig>)
    requires Accepted(names, keys, values, configOf, added)
    ensures |added| == |keys| ==> AddIndexers(names, keys, values, configOf) == (added, AllAdded)
    ensures |added| < |keys| && keys[|added|] in names + keys[..|added|] ==>
      AddIndexers(names, keys, values, configOf) == (added, DuplicateName(keys[|added|]))
    ensures |added| < |keys| && keys[|added|] !in names + keys[..|added|] && configOf(keys[|added|], values[|added|]).Err? ==>
      AddIndexers(names, keys, values, configOf) == (added, InvalidIndexer(configOf(keys[|added|], values[|added|]).error))
    decreases |added|
  {
    if |added| > 0 {
      assert keys[0] !in names;
      var names', keys', values' := names + [keys[0]], keys[1..], values[1..];
      assert forall k :: 0 <= k < |added| - 1 ==> keys'[k] == keys[k + 1] && values'[k] == values[k + 1] && added[1..][k] == added[k + 1];
      assert Accepted(names', keys', values', configOf, added[1..]);
      AddIndexersStops(names', keys', values', configOf, added[1..]);
      assert names' + keys'[..|added| - 1] == names + keys[..|added|];
      assert [added[0]] + added[1..] == added;
    } else {
      assert names + keys[..0] == names;
    }
  }

  /** ConfigsOf distributes over concatenation. */
  lemma ConfigsOfConcat(a: seq<SysinfoIndexer>, b: seq<SysinfoIndexer>)
    ensures ConfigsOf(a + b) == ConfigsOf(a) + ConfigsOf(b)
  {
    assert |ConfigsOf(a + b)| == |ConfigsOf(a) + ConfigsOf(b)|;
    forall k | 0 <= k < |a + b| ensures ConfigsOf(a + b)[k] == (ConfigsOf(a) + ConfigsOf(b))[k] {
      if k >= |a| { assert (a + b)[k] == b[k - |a|]; }
    }
  }

  /** What the indexers list looks like once created, configured from added, has been appended
      to list0. */
  lemma Settle(list0: seq<SysinfoIndexer>, created: seq<SysinfoIndexer>, added: seq<IndexerConfig>)
    requires |created| == |added| && forall k :: 0 <= k < |created| ==> created[k].Config() == added[k]
    ensures ConfigsOf(list0 + created) == ConfigsOf(list0) + added
    ensures (list0 + created)[..|list0|] == list0
    ensures forall k :: |list0| <= k < |list0 + created| ==> (list0 + created)[k] in created
  {
    ConfigsOfConcat(list0, created);
    assert ConfigsOf(created) == added;
    forall k | |list0| <= k < |list0 + created| ensures (list0 + created)[k] in created {
      assert (list0 + created)[k] == created[k - |list0|];
    }
  }

  /** One more element of a prefix. */
  lemma SliceExtend<T>(s: seq<T>, i: nat)
    requires i < |s|
    ensures s[..i + 1] == s[..i] + [s[i]]
  {
  }

  /** Appending a new name keeps the names distinct. */
  lemma DistinctExtend(names: seq<string>, name: string)
    requires Distinct(names) && name !in names
    ensures Distinct(names + [name])
  {
  }
}
