# elasticsearch-river-sysinfo, modelled in Dafny

The System Info River is an ElasticSearch river. At a fixed period it reads system information
(cluster health, cluster state, node info and stats, index status) from a source cluster and
stores each reading as a document in an index of the local cluster. This project models its core:

- **Configuring the river.** `SysinfoRiver.configure` reads the `es_connection` section. Its
  `type` picks the source client: `local`, `remote` (an ElasticSearch TransportClient) or `rest`
  (the HTTP REST API). It then reads the `indexers` section, where each trimmed key names one
  indexer and each value configures it: `info_type`, `index_name`, `index_type`, `period` and
  `params`. The source looks each section up under the trimmed key, which reads the wrong
  section, or none, for a key with blanks around it; the model configures from each entry's own
  section instead (see "## Findings").
- **Running the river.** `start` and `close` register the river with the registry of running
  rivers. `start` starts one thread per indexer. `close` stops the indexers and interrupts the
  threads.
- **The indexer loop.** Each `SysinfoIndexer` reads from the source client, stores the reading,
  and sleeps for the rest of its period. A failed poll does not stop the loop; only `close()` and
  interrupts end it.
- **The source clients.** For the REST client, the model covers URL normalisation, the REST
  operation and query of each information type, and the timeout and credentials. For the
  transport client, it covers the address list, the client settings and the start/close life
  cycle. `readSysinfoValue` dispatches on the information type.
- **The utilities.** `trimToNull`, `isEmpty`, `parseTimeValue` (a number with an optional unit
  suffix `ms`, `s`, `m`, `h`, `d` or `w`) and `nodeIntegerValue` (32-bit narrowing).
- **The "change indexer period" management operation.**
  - Its REST endpoint: the path parameters become a `JRPeriodRequest`, and the answer becomes an
    `OK` or `NOT_FOUND` reply.
  - Its request builder.
  - The request, node request, node response and aggregate response, with their transport
    encodings. Each encoding is proved to round-trip.
  - The node-side handler, and the choice of the node that answered for the river.
- **The two `LocalRestRequest` classes** that carry parameters to ElasticSearch's REST handlers.

ElasticSearch's transport streams are modelled as sequences of typed tokens. A
`StreamOutput.tokens` list grows as values are written, and a `StreamInput.remaining` list
shrinks as they are read. Settings documents are a `Node` datatype whose maps keep their entries
in iteration order. Threads, clocks and the remote calls become inputs: ticks of a script, or
functions passed in.

## Model

| member | source | states |
|---|---|---|
| Utils.Trim | src/main/java/org/jboss/elasticsearch/river/sysinfo/Utils.java:37 | String.trim: the result is empty exactly for a blank string; otherwise it neither starts nor ends with a character <= U+0020 |
| Utils.TrimSlice | src/main/java/org/jboss/elasticsearch/river/sysinfo/Utils.java:37 | the trimmed string is a slice of the input, and everything cut off before and after it is blank |
| Utils.TrimIdempotent | src/main/java/org/jboss/elasticsearch/river/sysinfo/Utils.java:37 | trimming twice is trimming once |
| Utils.IsEmpty | src/main/java/org/jboss/elasticsearch/river/sysinfo/Utils.java:50-52 | isEmpty(String) holds exactly for null or a blank string |
| Utils.IsEmptyValue | src/main/java/org/jboss/elasticsearch/river/sysinfo/Utils.java:60-62 | isEmpty(Object) holds exactly for null or a blank String; a value of another class is never empty |
| Utils.TrimToNull | src/main/java/org/jboss/elasticsearch/river/sysinfo/Utils.java:33-42 | null exactly when the input is empty; otherwise the trimmed input, which is never blank |
| Utils.SuffixOf | src/main/java/org/jboss/elasticsearch/river/sysinfo/Utils.java:91-92 | the unit suffix recognised in a time value is never longer than the text |
| Utils.SuffixOfNumber | src/main/java/org/jboss/elasticsearch/river/sysinfo/Utils.java:91-92 | a number followed by a suffix is read with that suffix |
| Utils.DurationRoundTrip | src/main/java/org/jboss/elasticsearch/river/sysinfo/Utils.java:91-92 | writing any long number with any unit suffix and parsing it back gives the number times the unit's milliseconds |
| Utils.ParseTimeValue | src/main/java/org/jboss/elasticsearch/river/sysinfo/Utils.java:82-98 | null settings or a missing key give the default in milliseconds, or 0 when there is no default unit; a present null value gives the default, or a NullPointerException without a default unit; any other present value is read through its string form, succeeds exactly when that parses, and then gives the parsed number of milliseconds; a parse error names the key |
| Utils.ParseTimeValueOfNumber | src/main/java/org/jboss/elasticsearch/river/sysinfo/Utils.java:82-98 | a numeric setting such as `"period": 60000` reads as that many milliseconds, through its decimal string form |
| Utils.ParseTimeValueOfWritten | src/main/java/org/jboss/elasticsearch/river/sysinfo/Utils.java:82-98 | a setting holding any long number followed by any unit suffix reads back as that number times the unit's milliseconds, whatever the default |
| Utils.NodeIntegerValue | src/main/java/org/jboss/elasticsearch/river/sysinfo/Utils.java:108-119 | null gives null; a number is narrowed to an int that agrees with it modulo 2^32 and is unchanged when in range; a string succeeds exactly when Integer.parseInt accepts it; other values are a NumberFormatException |
| JavaNumbers.IntValue | src/main/java/org/jboss/elasticsearch/river/sysinfo/Utils.java:115 | Number.intValue: an int congruent to the input modulo 2^32, equal to it when in range |
| JavaNumbers.ParseDecimal | src/main/java/org/jboss/elasticsearch/river/sysinfo/Utils.java:118 | a parsed value is in range and comes from an optional sign followed by digits |
| JavaNumbers.DecimalRoundTrip | src/main/java/org/jboss/elasticsearch/river/sysinfo/Utils.java:118 | parsing the decimal rendering of an in-range value gives the value back |
| Settings.NodeStringValue | src/main/java/org/jboss/elasticsearch/river/sysinfo/SysinfoRiver.java:134 | nodeStringValue(node, null) is null exactly for null, and returns a string unchanged |
| Settings.AsString | src/main/java/org/jboss/elasticsearch/river/sysinfo/SysinfoRiver.java:176 | the (String) cast succeeds exactly for null and strings, and keeps them |
| Settings.ParamValue | src/main/java/org/jboss/elasticsearch/river/sysinfo/mgm/period/RestJRPeriodAction.java:43 | a parameter is null exactly when absent; otherwise it is a pair of the map |
| Settings.ParamsAsEntries | src/main/java/org/jboss/elasticsearch/river/sysinfo/mgm/period/RestJRPeriodAction.java:44 | the parameter map seen as a Map<String, Object> has the same pairs in the same order |
| SysinfoTypes.NamesDistinct | src/main/java/org/jboss/elasticsearch/river/sysinfo/SysinfoType.java:23-39 | no two constants have names equal ignoring case |
| SysinfoTypes.ValuesComplete | src/main/java/org/jboss/elasticsearch/river/sysinfo/SysinfoType.java:67 | values() lists every constant |
| SysinfoTypes.FirstMatch | src/main/java/org/jboss/elasticsearch/river/sysinfo/SysinfoType.java:67-70 | the loop finds a constant whose name matches ignoring case, or none exactly when no constant matches |
| SysinfoTypes.ParseConfiguration | src/main/java/org/jboss/elasticsearch/river/sysinfo/SysinfoType.java:63-72 | a null or blank value is rejected; otherwise the result matches the value ignoring case, and it fails exactly when no name matches; every failure is a SettingsException |
| SysinfoTypes.ParseConfigurationIff | src/main/java/org/jboss/elasticsearch/river/sysinfo/SysinfoType.java:63-72 | a value parses to a constant exactly when it equals that constant's name ignoring case |
| SourceClientBase.ReadSysinfoValue | src/main/java/org/jboss/elasticsearch/river/sysinfo/SourceClientBase.java:18-30 | null is an IllegalArgumentException; HEALTH and STATE give their readers' results; any other type is an UnsupportedOperationException |
| SourceClientRest.PrepareAPIURLFromBaseURL | src/main/java/org/jboss/elasticsearch/river/sysinfo/SourceClientREST.java:118-125 | null exactly for an empty base URL; otherwise the URL, which it extends, ends in "/", with a slash added only when missing |
| SourceClientRest.PrepareAPIURLIdempotent | src/main/java/org/jboss/elasticsearch/river/sysinfo/SourceClientREST.java:118-125 | normalising a normalised URL changes nothing |
| SourceClientRest.WithoutParam | src/main/java/org/jboss/elasticsearch/river/sysinfo/SourceClientREST.java:211-215 | the pairs kept are exactly the pairs of the map that do not carry the removed name; a single pair is kept exactly when it does not carry it |
| SourceClientRest.WithoutParamAppend | src/main/java/org/jboss/elasticsearch/river/sysinfo/SourceClientREST.java:211-215 | the pairs kept from two consecutive parts of the map are those kept from the first part followed by those kept from the second, so the query keeps the map's iteration order |
| SourceClientRest.PrepareRequestParams | src/main/java/org/jboss/elasticsearch/river/sysinfo/SourceClientREST.java:205-218 | the loop builds the query of RequestParams: none for a null or empty map or a map holding only the removed name, else every other pair, in the map's iteration order (WithoutParam with WithoutParamAppend) |
| SourceClientRest.WithoutParamLength | src/main/java/org/jboss/elasticsearch/river/sysinfo/SourceClientREST.java:211-215 | with distinct keys, removing a name drops exactly one pair when it is present and none when it is absent |
| SourceClientRest.WithoutAbsentParam | src/main/java/org/jboss/elasticsearch/river/sysinfo/SourceClientREST.java:212 | with no name to remove every pair is kept |
| SourceClientRest.RequestParamsNeverEmpty | src/main/java/org/jboss/elasticsearch/river/sysinfo/SourceClientREST.java:206-208 | the query is never an empty array, and with no removed name it is the map itself |
| SourceClientRest.Selector | src/main/java/org/jboss/elasticsearch/river/sysinfo/SourceClientREST.java:143 | a path selector exists exactly when the map holds a non-blank value for the key, and it is that value |
| SourceClientRest.SelectorNotInQuery | src/main/java/org/jboss/elasticsearch/river/sysinfo/SourceClientREST.java:141-146 | the selector parameter never reaches the query, and every other pair does |
| SourceClientRest.ReadClusterStateInfo | src/main/java/org/jboss/elasticsearch/river/sysinfo/SourceClientREST.java:136-138 | calls _cluster/state with the whole map as query |
| SourceClientRest.ReadClusterHealthInfo | src/main/java/org/jboss/elasticsearch/river/sysinfo/SourceClientREST.java:141-147 | calls _cluster/health, with /index when an index is given, and a query without the index |
| SourceClientRest.ReadClusterNodesInfoInfo | src/main/java/org/jboss/elasticsearch/river/sysinfo/SourceClientREST.java:150-156 | calls _cluster/nodes, with /nodeId when a node id is given, and a query without the node id |
| SourceClientRest.ReadClusterNodesStatsInfo | src/main/java/org/jboss/elasticsearch/river/sysinfo/SourceClientREST.java:159-166 | calls _nodes/stats or _nodes/nodeId/stats, with a query without the node id |
| SourceClientRest.IndicesCall | src/main/java/org/jboss/elasticsearch/river/sysinfo/SourceClientREST.java:169-196 | index operations are prefixed with "index/" when an index is given, with a query without the index |
| SourceClientRest.ReadIndicesStatusInfo | src/main/java/org/jboss/elasticsearch/river/sysinfo/SourceClientREST.java:169-176 | the _status index operation |
| SourceClientRest.ReadIndicesStatsInfo | src/main/java/org/jboss/elasticsearch/river/sysinfo/SourceClientREST.java:179-186 | the _stats index operation |
| SourceClientRest.ReadIndicesSegmentsInfo | src/main/java/org/jboss/elasticsearch/river/sysinfo/SourceClientREST.java:189-196 | the _segments index operation |
| SourceClientRest.NewSourceClientREST | src/main/java/org/jboss/elasticsearch/river/sysinfo/SourceClientREST.java:66-103 | an empty urlBase is a SettingsException; on success the API URL is the normalised, well-formed urlBase, the timeout is the `timeout` setting read by parseTimeValue with a 5-second default and narrowed to an int, the username and password are the `username` and `pwd` strings (null when absent), and authentication is configured exactly when the username is not blank |
| SourceClientRest.RestClientSettings | src/main/java/org/jboss/elasticsearch/river/sysinfo/SourceClientREST.java:84-102 | keeps the API URL; the timeout is parseTimeValue of `timeout` (default 5 seconds) narrowed to an int; the username and password are the `username` and `pwd` strings, null when absent; authentication is configured exactly for a non-blank username |
| SourceClientRest.RestTimeoutOfWritten | src/main/java/org/jboss/elasticsearch/river/sysinfo/SourceClientREST.java:84 | a timeout written as a number with a unit suffix, such as `"8s"`, is configured as that many milliseconds (8000) whenever it fits an int |
| TransportClientSource.AddressOf | src/main/java/org/jboss/elasticsearch/river/sysinfo/esclient/SourceClientESTransportClient.java:71-80 | an empty host or port is a SettingsException; on success the host is the non-blank host string and the port is the int nodeIntegerValue reads, which must lie in 0..65535; a port outside that range is the IllegalArgumentException of InetSocketAddress |
| TransportClientSource.MapResults | src/main/java/org/jboss/elasticsearch/river/sysinfo/esclient/SourceClientESTransportClient.java:70-81 | succeeds exactly when every element converts, keeping order; otherwise fails with an element's error |
| TransportClientSource.MapResultsFailedPrefix | src/main/java/org/jboss/elasticsearch/river/sysinfo/esclient/SourceClientESTransportClient.java:70-81 | once an element fails, later elements do not change the result |
| TransportClientSource.AddressesOf | src/main/java/org/jboss/elasticsearch/river/sysinfo/esclient/SourceClientESTransportClient.java:68-81 | one address per list element in order, or the error of a failing element |
| TransportClientSource.TransportSettingsOf | src/main/java/org/jboss/elasticsearch/river/sysinfo/esclient/SourceClientESTransportClient.java:64-86 | a missing or empty address list is a SettingsException; on success the addresses are the converted non-empty list, and the settings are exactly the entries of the settings map, or empty when it is null; a settings value that is neither null nor a map fails |
| TransportClientSource.FillArray | src/main/java/org/jboss/elasticsearch/river/sysinfo/esclient/SourceClientESTransportClient.java:68-81 | the array-filling loop succeeds exactly when MapResults does, and then holds its elements in a fresh array |
| TransportClientSource.NewSourceClientESTransportClient | src/main/java/org/jboss/elasticsearch/river/sysinfo/esclient/SourceClientESTransportClient.java:62-87 | the constructor succeeds exactly when TransportSettingsOf does and keeps its addresses and settings, with no client running |
| TransportClientSource.SourceClientESTransportClient.constructor | src/main/java/org/jboss/elasticsearch/river/sysinfo/esclient/SourceClientESTransportClient.java:62-87 | keeps the addresses and the settings; no client yet |
| TransportClientSource.SourceClientESTransportClient.Start | src/main/java/org/jboss/elasticsearch/river/sysinfo/esclient/SourceClientESTransportClient.java:97-105 | a second start is ignored; otherwise a client is built from the settings and addresses |
| TransportClientSource.SourceClientESTransportClient.Close | src/main/java/org/jboss/elasticsearch/river/sysinfo/esclient/SourceClientESTransportClient.java:108-116 | closes the running client, if any, and forgets it |
| Indexer.LoopTask | src/main/java/org/jboss/elasticsearch/river/sysinfo/SysinfoIndexer.java:116-119 | reads with the indexer's type and params first, then stores the content under its index and type when the read succeeded; it never sleeps |
| Indexer.TickStep | src/main/java/org/jboss/elasticsearch/river/sysinfo/SysinfoIndexer.java:72-95 | one iteration ends the run exactly when closed before or after the poll, interrupted in the poll, or interrupted in a positive sleep, and each of these four yields its own exit; an iteration that is neither closed nor interrupted in the poll sleeps for the rest of the period if and only if that rest is positive, and no other iteration sleeps |
| Indexer.RunSpec | src/main/java/org/jboss/elasticsearch/river/sysinfo/SysinfoIndexer.java:71-96 | every read, store and sleep of a run uses the indexer's own configuration, and sleeps are positive |
| Indexer.RunSpecUnfold | src/main/java/org/jboss/elasticsearch/river/sysinfo/SysinfoIndexer.java:71-96 | a run is its first iteration, then, unless that ended it, the run of the rest |
| Indexer.RunKeepsGoing | src/main/java/org/jboss/elasticsearch/river/sysinfo/SysinfoIndexer.java:76-84 | the loop keeps going exactly as long as no iteration closes or interrupts it; failed polls never stop it |
| Indexer.RunSpecStep | src/main/java/org/jboss/elasticsearch/river/sysinfo/SysinfoIndexer.java:71-96 | after the trace of the first i iterations, iteration i either ends the run with its own exit or the run continues with the rest of the script |
| Indexer.LoopTaskReadsOnce | src/main/java/org/jboss/elasticsearch/river/sysinfo/SysinfoIndexer.java:116-119 | processLoopTask reads exactly once, whether or not it stores |
| Indexer.OnePollPerTick | src/main/java/org/jboss/elasticsearch/river/sysinfo/SysinfoIndexer.java:76-84 | while it keeps going, each iteration polls exactly once |
| Indexer.SysinfoIndexer.constructor | src/main/java/org/jboss/elasticsearch/river/sysinfo/SysinfoIndexer.java:46-56 | keeps every argument; the indexer starts closed |
| Indexer.SysinfoIndexer.Close | src/main/java/org/jboss/elasticsearch/river/sysinfo/SysinfoIndexer.java:106-108 | marks the indexer closed |
| Indexer.SysinfoIndexer.LoopIteration | src/main/java/org/jboss/elasticsearch/river/sysinfo/SysinfoIndexer.java:72-95 | one pass of the loop body does what TickStep says |
| Indexer.SysinfoIndexer.Run | src/main/java/org/jboss/elasticsearch/river/sysinfo/SysinfoIndexer.java:67-101 | the run follows RunSpec, and the indexer is closed exactly when the run returned |
| Indexer.SysinfoIndexer.RunLoop | src/main/java/org/jboss/elasticsearch/river/sysinfo/SysinfoIndexer.java:71-96 | the loop produces the trace of RunSpec |
| River.SourceClientOf | src/main/java/org/jboss/elasticsearch/river/sysinfo/SysinfoRiver.java:132-150 | a missing es_connection or an empty type is a SettingsException; a client is chosen only for a non-empty type: local gives the river's client, remote a transport client configured from the section, rest a REST client configured from it |
| River.UnknownConnectionType | src/main/java/org/jboss/elasticsearch/river/sysinfo/SysinfoRiver.java:144-146 | a type other than local, remote and rest, in any case, is a SettingsException |
| River.ConfigMandatoryString | src/main/java/org/jboss/elasticsearch/river/sysinfo/SysinfoRiver.java:175-182 | an empty value is a SettingsException; a result is the non-blank string stored under the key |
| River.InfoTypeOf | src/main/java/org/jboss/elasticsearch/river/sysinfo/SysinfoRiver.java:160 | info_type must be a string that parseConfiguration accepts; null is a SettingsException |
| River.ParamsOf | src/main/java/org/jboss/elasticsearch/river/sysinfo/SysinfoRiver.java:164 | params is accepted exactly when it is null or a map, and is that map |
| River.IndexerConfigOf | src/main/java/org/jboss/elasticsearch/river/sysinfo/SysinfoRiver.java:159-166 | a null section is a NullPointerException; an indexer gets the name, both clients, the parsed info_type, the mandatory index_name and index_type, the period (default 30 s) and the params |
| River.TrimmedKeys | src/main/java/org/jboss/elasticsearch/river/sysinfo/SysinfoRiver.java:154-155 | one trimmed name per section |
| River.ValuesOf | src/main/java/org/jboss/elasticsearch/river/sysinfo/SysinfoRiver.java:159 | one section per entry, the entry's own section (the corrected lookup) |
| River.AddIndexers | src/main/java/org/jboss/elasticsearch/river/sysinfo/SysinfoRiver.java:154-167 | the loop adds at most one indexer per name and ends normally exactly when every name was added |
| River.AddIndexersAdds | src/main/java/org/jboss/elasticsearch/river/sysinfo/SysinfoRiver.java:154-167 | each added indexer comes from its own name and section; added names are new and distinct; the loop stops at the first duplicate name or the first invalid section, with that error |
| River.AddIndexersAllAdded | src/main/java/org/jboss/elasticsearch/river/sysinfo/SysinfoRiver.java:154-167 | every name is added exactly when the names are new and distinct and every section is valid |
| River.IndexersSection | src/main/java/org/jboss/elasticsearch/river/sysinfo/SysinfoRiver.java:152-170 | accepted exactly when indexers is a non-empty map; null or an empty map is a SettingsException |
| River.StopError | src/main/java/org/jboss/elasticsearch/river/sysinfo/SysinfoRiver.java:157 | the loop reports no error exactly when it added everything |
| River.ConfigureSpec | src/main/java/org/jboss/elasticsearch/river/sysinfo/SysinfoRiver.java:127-170 | a source client error stops configure before any indexer; a success sets the source client; no error means both sections were valid |
| River.ConfigureDistinctNames | src/main/java/org/jboss/elasticsearch/river/sysinfo/SysinfoRiver.java:154-158 | configure keeps the river's indexer names distinct |
| River.ConfigureSucceedsIff | src/main/java/org/jboss/elasticsearch/river/sysinfo/SysinfoRiver.java:127-170 | configure succeeds exactly when the source client is valid, the section is a non-empty map, the trimmed names are new and distinct and every section is valid; then all names are added |
| River.AsWrittenSections | src/main/java/org/jboss/elasticsearch/river/sysinfo/SysinfoRiver.java:155-159 | as written, the section is looked up under the trimmed key, one lookup per entry |
| River.AsWrittenSectionsForTrimmedKeys | src/main/java/org/jboss/elasticsearch/river/sysinfo/SysinfoRiver.java:155-159 | when no key carries blanks, the as-written lookup finds each entry's own section |
| River.PaddedKeyAsWritten | src/main/java/org/jboss/elasticsearch/river/sysinfo/SysinfoRiver.java:155-160 | as written, a key with surrounding blanks fails with a NullPointerException whatever its section says |
| River.PaddedKeyCorrected | src/main/java/org/jboss/elasticsearch/river/sysinfo/SysinfoRiver.java:155-166 | reading the entry's own section configures the indexer under the trimmed name |
| River.TrimOfPadded | src/main/java/org/jboss/elasticsearch/river/sysinfo/SysinfoRiver.java:155 | a padded key exists: " ch " trims to "ch" |
| River.ConfigsOf | src/main/java/org/jboss/elasticsearch/river/sysinfo/SysinfoRiver.java:165-166 | the configuration of each indexer, in order |
| River.ThreadsOf | src/main/java/org/jboss/elasticsearch/river/sysinfo/SysinfoRiver.java:194-198 | one thread per indexer, in order, named sysinfo_river_ plus the indexer name |
| River.IndexerAt | src/main/java/org/jboss/elasticsearch/river/sysinfo/SysinfoRiver.java:156 | a name maps to an indexer exactly when configured, to the indexer paired with it |
| River.RiverRegistry.constructor | src/main/java/org/jboss/elasticsearch/river/sysinfo/SysinfoRiver.java:69 | the registry starts empty |
| River.RiverRegistry.AddRunningInstance | src/main/java/org/jboss/elasticsearch/river/sysinfo/SysinfoRiver.java:258-260 | registers the river under its name, replacing any river there; looking it up then finds it |
| River.RiverRegistry.GetRunningInstance | src/main/java/org/jboss/elasticsearch/river/sysinfo/SysinfoRiver.java:245-249 | null for a null name; otherwise the river registered under the name, if any |
| River.RiverRegistry.GetRunningInstances | src/main/java/org/jboss/elasticsearch/river/sysinfo/SysinfoRiver.java:269-271 | exactly the names that have a running river |
| River.SysinfoRiver.IndexerOf | src/main/java/org/jboss/elasticsearch/river/sysinfo/SysinfoRiver.java:89 | the indexers map gives an indexer exactly for a configured name |
| River.SysinfoRiver.constructor | src/main/java/org/jboss/elasticsearch/river/sysinfo/SysinfoRiver.java:117-119 | the river starts closed, without source client, indexers or threads |
| River.SysinfoRiver.Configure | src/main/java/org/jboss/elasticsearch/river/sysinfo/SysinfoRiver.java:127-173 | a running river is an IllegalStateException and changes nothing; otherwise the source client, names and indexers change as ConfigureSpec says, earlier indexers stay and new ones are fresh and closed |
| River.SysinfoRiver.ConfigureFrom | src/main/java/org/jboss/elasticsearch/river/sysinfo/SysinfoRiver.java:152-170 | the effect of configure once the source client part has run, as ConfigureSpec says |
| River.SysinfoRiver.AddIndexerSections | src/main/java/org/jboss/elasticsearch/river/sysinfo/SysinfoRiver.java:153-167 | the loop adds the indexers AddIndexers gives under their names and reports its stop error |
| River.SysinfoRiver.AcceptSections | src/main/java/org/jboss/elasticsearch/river/sysinfo/SysinfoRiver.java:154-167 | the loop accepts a prefix of new, distinct, valid sections, adds one fresh closed indexer for each, and stops as the first refused section says |
| River.SysinfoRiver.Register | src/main/java/org/jboss/elasticsearch/river/sysinfo/SysinfoRiver.java:165-166 | puts a fresh closed indexer built from the configuration under a new name, after the others |
| River.SysinfoRiver.Start | src/main/java/org/jboss/elasticsearch/river/sysinfo/SysinfoRiver.java:185-200 | a running river is an IllegalStateException; otherwise it is registered, its source client started, one thread per indexer created in order, and the river is running |
| River.SysinfoRiver.AcquireThreads | src/main/java/org/jboss/elasticsearch/river/sysinfo/SysinfoRiver.java:194-198 | appends one thread per indexer, in order |
| River.SysinfoRiver.Close | src/main/java/org/jboss/elasticsearch/river/sysinfo/SysinfoRiver.java:203-235 | the river and every indexer are closed, all threads are interrupted and cleared, the source client is closed, and the river leaves the registry even without a source client |
| River.SysinfoRiver.InterruptThreads | src/main/java/org/jboss/elasticsearch/river/sysinfo/SysinfoRiver.java:221-224 | interrupts every thread in order and clears the list |
| River.SysinfoRiver.CloseIndexers | src/main/java/org/jboss/elasticsearch/river/sysinfo/SysinfoRiver.java:207-213 | every indexer is closed |
| Wire.StringArrayRoundTrip | src/main/java/org/jboss/elasticsearch/river/sysinfo/mgm/period/JRPeriodRequest.java:46-56 | readStringArray gives back the array writeStringArray wrote |
| Wire.StreamOutput.WriteStringArray | src/main/java/org/jboss/elasticsearch/river/sysinfo/mgm/period/JRPeriodRequest.java:56 | appends the length, then each string in order |
| Wire.StreamInput.ReadStringArrayTokens | src/main/java/org/jboss/elasticsearch/river/sysinfo/mgm/period/JRPeriodRequest.java:46 | the read loop reads the length, then that many strings, as ReadStringArray says |
| PeriodRequests.Encode | src/main/java/org/jboss/elasticsearch/river/sysinfo/mgm/period/JRPeriodRequest.java:52-59 | writing fails exactly for a null river name |
| PeriodRequests.NamesRoundTrip | src/main/java/org/jboss/elasticsearch/river/sysinfo/mgm/period/JRPeriodRequest.java:45-57 | the names come back when written; with the flag false the previous names are kept |
| PeriodRequests.RoundTrip | src/main/java/org/jboss/elasticsearch/river/sysinfo/mgm/period/JRPeriodRequest.java:43-59 | a read-back request has the river name and period written; its names are the names written, or the target's previous names when none were written |
| PeriodRequests.RoundTripIntoEmpty | src/main/java/org/jboss/elasticsearch/river/sysinfo/mgm/period/JRPeriodRequest.java:25-59 | a request read into a new empty request equals the request written |
| PeriodRequests.NewPeriodRequest | src/main/java/org/jboss/elasticsearch/river/sysinfo/mgm/period/JRPeriodRequest.java:36-40 | a null river name is an IllegalArgumentException; otherwise the three values are kept |
| PeriodRequests.PeriodRequest.Empty | src/main/java/org/jboss/elasticsearch/river/sysinfo/mgm/period/JRPeriodRequest.java:25-27 | no river name, no names, period 0 |
| PeriodRequests.PeriodRequest.constructor | src/main/java/org/jboss/elasticsearch/river/sysinfo/mgm/period/JRPeriodRequest.java:36-40 | keeps the river name, the names and the period |
| PeriodRequests.PeriodRequest.SetRiverName | src/main/java/org/jboss/elasticsearch/river/sysinfo/mgm/period/JRPeriodRequestBuilder.java:30 | changes only the river name |
| PeriodRequests.PeriodRequest.SetIndexerNames | src/main/java/org/jboss/elasticsearch/river/sysinfo/mgm/period/JRPeriodRequest.java:65-67 | changes only the names |
| PeriodRequests.PeriodRequest.SetPeriod | src/main/java/org/jboss/elasticsearch/river/sysinfo/mgm/period/JRPeriodRequest.java:73-75 | changes only the period |
| PeriodRequests.PeriodRequest.WriteTo | src/main/java/org/jboss/elasticsearch/river/sysinfo/mgm/period/JRPeriodRequest.java:52-59 | a null river name fails and writes nothing; otherwise it appends Encode of the request |
| PeriodRequests.PeriodRequest.WriteNames | src/main/java/org/jboss/elasticsearch/river/sysinfo/mgm/period/JRPeriodRequest.java:54-57 | appends the presence flag, then the names only when present |
| PeriodRequests.PeriodRequest.ReadFrom | src/main/java/org/jboss/elasticsearch/river/sysinfo/mgm/period/JRPeriodRequest.java:43-49 | leaves the request and the stream as Decode says, or fails with its error |
| NodeRequests.EncodeNodeRequest | src/main/java/org/jboss/elasticsearch/river/sysinfo/mgm/NodeJRMgmBaseRequest.java:53-56 | writing succeeds exactly when the node id, the request and its river name are not null |
| NodeRequests.NodeRequestRoundTrip | src/main/java/org/jboss/elasticsearch/river/sysinfo/mgm/NodeJRMgmBaseRequest.java:43-56 | the node id and every request field come back, null names included |
| NodeRequests.ReadNodeId | src/main/java/org/jboss/elasticsearch/river/sysinfo/mgm/NodeJRMgmBaseRequest.java:45 | reads the node id string |
| NodeRequests.NodePeriodRequest.Empty | src/main/java/org/jboss/elasticsearch/river/sysinfo/mgm/NodeJRMgmBaseRequest.java:24-26 | no node id and no request |
| NodeRequests.NodePeriodRequest.constructor | src/main/java/org/jboss/elasticsearch/river/sysinfo/mgm/NodeJRMgmBaseRequest.java:34-37 | keeps the node id and that very request |
| NodeRequests.NodePeriodRequest.WriteTo | src/main/java/org/jboss/elasticsearch/river/sysinfo/mgm/NodeJRMgmBaseRequest.java:53-56 | a null node id, request or river name is a NullPointerException; otherwise appends the node id, then the request's encoding |
| NodeRequests.NodePeriodRequest.ReadFrom | src/main/java/org/jboss/elasticsearch/river/sysinfo/mgm/NodeJRMgmBaseRequest.java:44-48 | reads the node id, then a fresh request, as DecodeNodeRequest says |
| NodeResponses.EncodeNodeResponse | src/main/java/org/jboss/elasticsearch/river/sysinfo/mgm/period/NodeJRPeriodResponse.java:54-58 | writing fails exactly when there is no node |
| NodeResponses.NodeResponseRoundTrip | src/main/java/org/jboss/elasticsearch/river/sysinfo/mgm/period/NodeJRPeriodResponse.java:48-58 | the node and both flags come back |
| NodeResponses.NodePeriodResponse.Empty | src/main/java/org/jboss/elasticsearch/river/sysinfo/mgm/period/NodeJRPeriodResponse.java:24-25 | no node, both flags false |
| NodeResponses.NodePeriodResponse.OfNode | src/main/java/org/jboss/elasticsearch/river/sysinfo/mgm/period/NodeJRPeriodResponse.java:32-34 | the node, both flags false |
| NodeResponses.NodePeriodResponse.constructor | src/main/java/org/jboss/elasticsearch/river/sysinfo/mgm/period/NodeJRPeriodResponse.java:43-46 | keeps the node and both flags |
| NodeResponses.NodePeriodResponse.WriteTo | src/main/java/org/jboss/elasticsearch/river/sysinfo/mgm/period/NodeJRPeriodResponse.java:54-58 | no node is a NullPointerException that writes nothing; otherwise appends the encoding |
| NodeResponses.NodePeriodResponse.ReadFrom | src/main/java/org/jboss/elasticsearch/river/sysinfo/mgm/period/NodeJRPeriodResponse.java:48-52 | leaves the response and the stream as DecodeNodeResponse says |
| PeriodResponses.EncodeResponse | src/test/java/org/jboss/elasticsearch/river/sysinfo/mgm/period/JRPeriodResponseTest.java:68-71 | writing succeeds exactly when the cluster name and the array are present and every element has a node |
| PeriodResponses.ReadNodeResponses | src/main/java/org/jboss/elasticsearch/river/sysinfo/mgm/period/JRPeriodResponse.java:31-34 | reading n node responses gives n of them |
| PeriodResponses.NodesRoundTrip | src/main/java/org/jboss/elasticsearch/river/sysinfo/mgm/period/JRPeriodResponse.java:26-34 | node responses written one after another are read back in order |
| PeriodResponses.ResponseRoundTrip | src/test/java/org/jboss/elasticsearch/river/sysinfo/mgm/period/JRPeriodResponseTest.java:40-75 | a read-back response has the cluster name and the node responses written, in order |
| PeriodResponses.FirstSuccessMeaning | src/test/java/org/jboss/elasticsearch/river/sysinfo/mgm/period/JRPeriodResponseTest.java:80-125 | the success node reports the river and no node before it does; none exactly when no node reports it |
| PeriodResponses.ValuesOf | src/main/java/org/jboss/elasticsearch/river/sysinfo/mgm/period/JRPeriodResponse.java:22-24 | the state of each element of the node array, null as None |
| PeriodResponses.FlagsOf | src/main/java/org/jboss/elasticsearch/river/sysinfo/mgm/period/JRPeriodResponse.java:22-24 | the riverFound flag of each element of the node array, null as None |
| PeriodResponses.WriteNodes | src/test/java/org/jboss/elasticsearch/river/sysinfo/mgm/period/JRPeriodResponseTest.java:68-71 | appends each node response in order, or fails on a null or node-less element |
| PeriodResponses.ReadNodes | src/main/java/org/jboss/elasticsearch/river/sysinfo/mgm/period/JRPeriodResponse.java:31-34 | reads n node responses, each into a fresh NodeJRPeriodResponse |
| PeriodResponses.PeriodResponse.Empty | src/main/java/org/jboss/elasticsearch/river/sysinfo/mgm/period/JRPeriodResponse.java:18-20 | no cluster name, no node array |
| PeriodResponses.PeriodResponse.constructor | src/main/java/org/jboss/elasticsearch/river/sysinfo/mgm/period/JRPeriodResponse.java:22-24 | keeps the cluster name and that very node array |
| PeriodResponses.PeriodResponse.GetSuccessNodeResponse | src/test/java/org/jboss/elasticsearch/river/sysinfo/mgm/period/JRPeriodResponseTest.java:80-125 | null without an array; otherwise the element FirstSuccess selects, or null when there is none |
| PeriodResponses.PeriodResponse.WriteTo | src/test/java/org/jboss/elasticsearch/river/sysinfo/mgm/period/JRPeriodResponseTest.java:68-71 | appends EncodeResponse of the cluster name and the array, or fails when that cannot be written |
| PeriodResponses.PeriodResponse.ReadFrom | src/main/java/org/jboss/elasticsearch/river/sysinfo/mgm/period/JRPeriodResponse.java:26-34 | reads the cluster name and a fresh node response per element, as DecodeResponse says |
| TransportPeriodAction.PerformOperationOnRiver | src/main/java/org/jboss/elasticsearch/river/sysinfo/mgm/period/TransportJRPeriodAction.java:32-39 | makes one changeIndexerPeriod call with the request's names and period; the response reports the node, river found, and the river's answer as indexerFound |
| TransportPeriodAction.OperatedNodeIsSelected | src/main/java/org/jboss/elasticsearch/river/sysinfo/mgm/period/TransportJRPeriodAction.java:32-39 | the node that ran the operation is selected as the success node over nodes that did not find the river; derived from PeriodResponses.FirstSuccessMeaning |
| TransportPeriodAction.NewRequest | src/main/java/org/jboss/elasticsearch/river/sysinfo/mgm/period/TransportJRPeriodAction.java:41-44 | a fresh empty request |
| TransportPeriodAction.NewEmptyNodeRequest | src/main/java/org/jboss/elasticsearch/river/sysinfo/mgm/period/TransportJRPeriodAction.java:46-49 | a fresh node request without id or request |
| TransportPeriodAction.NewNodeRequest | src/main/java/org/jboss/elasticsearch/river/sysinfo/mgm/period/TransportJRPeriodAction.java:51-54 | a fresh node request for the node id and that very request |
| TransportPeriodAction.NewNodeResponse | src/main/java/org/jboss/elasticsearch/river/sysinfo/mgm/period/TransportJRPeriodAction.java:56-59 | a fresh response of the local node, river not found |
| TransportPeriodAction.NewNodeResponseArray | src/main/java/org/jboss/elasticsearch/river/sysinfo/mgm/period/TransportJRPeriodAction.java:61-64 | len slots, all null |
| TransportPeriodAction.NewResponse | src/main/java/org/jboss/elasticsearch/river/sysinfo/mgm/period/TransportJRPeriodAction.java:66-69 | a fresh response with the cluster name and that very array |
| RestPeriodAction.SplitPieces | src/main/java/org/jboss/elasticsearch/river/sysinfo/mgm/period/RestJRPeriodAction.java:75 | every piece of the split is non-empty and free of commas |
| RestPeriodAction.SplitJoin | src/main/java/org/jboss/elasticsearch/river/sysinfo/mgm/period/RestJRPeriodAction.java:75 | splitting comma-joined pieces gives the pieces back |
| RestPeriodAction.SplitIndexerNames | src/main/java/org/jboss/elasticsearch/river/sysinfo/mgm/period/RestJRPeriodAction.java:71-76 | an empty parameter gives no names; every name given is non-empty and free of commas |
| RestPeriodAction.SplitIndexerNamesRoundTrip | src/main/java/org/jboss/elasticsearch/river/sysinfo/mgm/period/RestJRPeriodAction.java:71-76 | a non-blank comma-joined list of names is split back into those names |
| RestPeriodAction.ParamsContainKey | src/main/java/org/jboss/elasticsearch/river/sysinfo/mgm/period/RestJRPeriodAction.java:44 | the parameters seen as a settings map hold the same keys |
| RestPeriodAction.ParamsGet | src/main/java/org/jboss/elasticsearch/river/sysinfo/mgm/period/RestJRPeriodAction.java:44 | and the same value under each key |
| RestPeriodAction.PeriodRequestOfMeaning | src/main/java/org/jboss/elasticsearch/river/sysinfo/mgm/period/RestJRPeriodAction.java:43-46 | the request has the riverName parameter and the split indexerName parameter; the period is 60000 ms when absent, else the parsed value; it fails exactly when the period does not parse or the river name is missing |
| RestPeriodAction.HandleRiverResponse | src/main/java/org/jboss/elasticsearch/river/sysinfo/mgm/period/RestJRPeriodAction.java:58-65 | OK exactly when the indexer was found, with the "Period changed to" message; otherwise NOT_FOUND naming the indexers |
| PeriodRequestBuilders.PeriodRequestBuilder.constructor | src/main/java/org/jboss/elasticsearch/river/sysinfo/mgm/period/JRPeriodRequestBuilder.java:19-21 | a builder over a fresh empty request, nothing dispatched |
| PeriodRequestBuilders.PeriodRequestBuilder.SetRiverName | src/main/java/org/jboss/elasticsearch/river/sysinfo/mgm/period/JRPeriodRequestBuilder.java:29-32 | sets only the river name and returns the builder |
| PeriodRequestBuilders.PeriodRequestBuilder.SetIndexerNames | src/main/java/org/jboss/elasticsearch/river/sysinfo/mgm/period/JRPeriodRequestBuilder.java:40-43 | sets only the names and returns the builder |
| PeriodRequestBuilders.PeriodRequestBuilder.SetPeriod | src/main/java/org/jboss/elasticsearch/river/sysinfo/mgm/period/JRPeriodRequestBuilder.java:51-54 | sets only the period and returns the builder |
| PeriodRequestBuilders.PeriodRequestBuilder.DoExecute | src/main/java/org/jboss/elasticsearch/river/sysinfo/mgm/period/JRPeriodRequestBuilder.java:57-61 | without a river name, an IllegalArgumentException and nothing dispatched; otherwise exactly one dispatch of the request with the listener |
| EsClientRestRequests.LocalRestRequest.constructor | src/main/java/org/jboss/elasticsearch/river/sysinfo/esclient/LocalRestRequest.java:24-27 | uses the given map, or an empty one for null |
| EsClientRestRequests.LocalRestRequest.Method | src/main/java/org/jboss/elasticsearch/river/sysinfo/esclient/LocalRestRequest.java:30-106 | the constant answers: `method()` is GET, `uri()` and `rawPath()` are empty, `hasContent()` and `contentUnsafe()` are false, `content()` is null, every `header` is the empty string and `headers()` is null; the other constant getters are covered by this row |
| EsClientRestRequests.LocalRestRequest.HasParam | src/main/java/org/jboss/elasticsearch/river/sysinfo/esclient/LocalRestRequest.java:65-67 | exactly the keys of the map |
| EsClientRestRequests.LocalRestRequest.Param | src/main/java/org/jboss/elasticsearch/river/sysinfo/esclient/LocalRestRequest.java:70-72 | the value under the key, null exactly when absent |
| EsClientRestRequests.LocalRestRequest.ParamOr | src/main/java/org/jboss/elasticsearch/river/sysinfo/esclient/LocalRestRequest.java:80-84 | the value under the key, or the default when absent |
| EsClientRestRequests.LocalRestRequest.AddParam | src/main/java/org/jboss/elasticsearch/river/sysinfo/esclient/LocalRestRequest.java:93-96 | puts the pair, returns the request; the key then reads as the value and other keys are unchanged |
| LocalRestRequests.LocalRestRequest.constructor | src/main/java/org/jboss/elasticsearch/river/sysinfo/local/LocalRestRequest.java:22 | starts with an empty map |
| LocalRestRequests.LocalRestRequest.Method | src/main/java/org/jboss/elasticsearch/river/sysinfo/local/LocalRestRequest.java:25-57 | the constant answers: `method()` is GET, `uri()` and `rawPath()` are empty, `hasContent()` and `contentUnsafe()` are false, `content()` is null and every `header` is null; the other constant getters are covered by this row |
| LocalRestRequests.LocalRestRequest.HasParam | src/main/java/org/jboss/elasticsearch/river/sysinfo/local/LocalRestRequest.java:60-62 | exactly the keys of the map |
| LocalRestRequests.LocalRestRequest.Param | src/main/java/org/jboss/elasticsearch/river/sysinfo/local/LocalRestRequest.java:65-67 | the value under the key, null exactly when absent |
| LocalRestRequests.LocalRestRequest.ParamOr | src/main/java/org/jboss/elasticsearch/river/sysinfo/local/LocalRestRequest.java:75-79 | the value under the key, or the default when absent |
| LocalRestRequests.LocalRestRequest.AddParam | src/main/java/org/jboss/elasticsearch/river/sysinfo/local/LocalRestRequest.java:88-91 | puts the pair, returns the request; the key then reads as the value and other keys are unchanged |

## Left out

- Logging, `toString`, `loadJSONFromJarPackagedFile` and the `getClient`/`getTransportAddresses`/`getSettingsConf` getters are left out: they carry no logic beyond returning a field.
- Threads, the clock and `Thread.sleep` are not modelled as such. An indexer run is driven by a script of ticks that says when `close()` and interrupts happen, what the clock reads and how each poll goes. A thread is a value recorded by `start`. The 200 ms pause in `close` is left out.
- The registry of running rivers is a static map in the source. Here it is an explicit `RiverRegistry` object passed to `start` and `close`, and it is not synchronised.
- The public river constructor (SysinfoRiver.java:105-109) is modelled as the test constructor followed by `Configure`.
- `SourceClientESClient`, `SourceClientLocal`, `LocalRestChannel` and the HTTP call of `performRESTCall` are not part of this model. The river refers to a local client by its handle, and a REST read is the operation and query it would call.
- `java.net.URL`'s parser is the function parameter `isWellFormedURL`.
- The transport client's start creates a client identified by a number the caller passes.
- Indexer.LoopTask: the content read and the outcome of the store are inputs (`PollOutcome`); the source client is not called.
- Utils.ParseTimeValue: only integer numbers are read. `TimeValue` also accepts fractions, which go through floating point. Products that leave the 64-bit range are not saturated as Java's double-to-long cast saturates them: the model's integers are unbounded.
- PeriodRequests.RequestFields: the period is an unbounded integer, so the 64-bit range of `long` is not enforced.
- River.ConfigureSpec / River.ConfigureSucceedsIff / River.SysinfoRiver.Configure: configure is modelled with the corrected lookup, each section being the value of its own entry. It differs from the source only on keys with blanks around them. For such a key the source reads the section stored under the trimmed key: it reads another entry's section when the trimmed key is also a key, and it throws a `NullPointerException` when there is none (River.PaddedKeyAsWritten). On keys without surrounding blanks the two lookups agree (River.AsWrittenSectionsForTrimmedKeys).
- SysinfoTypes.EqualsIgnoreCase: case folding covers ASCII letters only. Java's `equalsIgnoreCase` also folds other letters.
- RestPeriodAction.SplitIndexerNames: ElasticSearch's `Strings.splitStringByCommaToArray` is not part of this model. It is modelled as splitting at every comma, dropping empty pieces and not trimming.
- The unchecked generic casts of the settings check only the outer class: a map, a list or a string, as the Java cast does. A later `ClassCastException`, raised when a map element of the wrong class is used, is not modelled.
- JRMgmBaseRequest, JRMgmBaseResponse, NodeJRMgmBaseResponse, TransportJRMgmBaseAction, JRMgmBaseActionListener and RestJRMgmBaseAction are not part of this model. Their behaviour is assumed as follows:
  - a request's encoding begins with the river name, and writing a null name is a `NullPointerException`;
  - the public request constructor rejects a null river name with an `IllegalArgumentException`;
  - a node response writes its node, then `riverFound`;
  - the aggregate response writes the cluster name, the number of nodes, then each node;
  - the success node is the first element whose `riverFound` is set, as the response's tests show, and a null element met before it is a `NullPointerException`.
- JRMgmBaseActionListener is left out: the reply sent when no node runs the river, and the message document that `buildMessageDocument` builds around the text.
- The broadcast to nodes is left out.
- ElasticSearch's StreamInput and StreamOutput are not part of this model. The transport streams are token sequences, and a `DiscoveryNode` is written as its id only.
- When a read fails halfway, the model does not say what the partly read object or stream holds.
- NodeRequests.NodePeriodRequest.WriteTo: on a `NullPointerException` the model does not state what was already written.
- `SysinfoRiver.changeIndexerPeriod` is not in the source revision of the river. Its answer is the function parameter of `PerformOperationOnRiver`. An exception it throws is not modelled: the parameter always answers.
- Settings values have no floating-point case. A port, period or timeout given as a JSON floating-point number is not modelled.
- Maps and arrays shared between objects are held as values: a `seq` or a `map`. A caller that changes such a map or array afterwards is not modelled. Null keys and null values in parameter maps are not modelled either.
- The `JRPeriodAction` name, the REST handler registration of `RestJRPeriodAction` and the `Client.execute` call are left out. The request builder records what it would dispatch.
- SourceClientBase.ReadSysinfoValue follows the revision of `readSysinfoValue` whose information types are `HEALTH` and `STATE`. `SysinfoType` in this revision names five other constants, so that dispatch is modelled over its own type.

## Findings

| source | as written | input that shows it | evidently intended | confidence | as-written member | corrected member |
|---|---|---|---|---|---|---|
| src/main/java/org/jboss/elasticsearch/river/sysinfo/SysinfoRiver.java:155-159 | the loop trims the key and then looks the section up with the trimmed key | an `indexers` map whose only key is `" ch "`: `get("ch")` returns null and `ic.get("info_type")` throws a `NullPointerException` | read the section stored under the original key, and register the indexer under the trimmed name | not executed | River.PaddedKeyAsWritten | River.PaddedKeyCorrected |
