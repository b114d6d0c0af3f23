/** What the two local REST request classes share with ElasticSearch's RestRequest. */
module RestRequests {
  /** RestRequest.Method. */
  datatype HttpMethod = GET | POST | PUT | DELETE | OPTIONS | HEAD
}
