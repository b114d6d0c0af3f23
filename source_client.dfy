/** The source clients a river can be configured with. The river and its indexers refer to a
    source client by what it was configured from. */
module SourceClients {
  import opened Settings
  import TransportClientSource
  import SourceClientRest

  /** An ElasticSearch Client the river is given (the local node's client, used both as the
      "local" source and as the target the indexers store into). */
  type ClientHandle = nat

  datatype SourceClient =
    /** SourceClientESClient over the river's own client ("local"). */
    | ESClient(client: ClientHandle)
    /** SourceClientESTransportClient ("remote"). */
    | TransportClient(addresses: seq<TransportClientSource.TransportAddress>, settingsConf: seq<Entry>)
    /** SourceClientREST ("rest"). */
    | RestClient(config: SourceClientRest.RestClientConfig)
}
