/** SourceClientESTransportClient: reads system information from a remote cluster through an
    ElasticSearch TransportClient, configured from a list of host/port addresses and an optional
    map of client settings. */
module TransportClientSource {
  import opened Wrappers
  import opened JavaNumbers
  import opened Settings
  import opened Utils

  /** The largest port InetSocketAddress accepts. */
  const MAX_PORT := 65535

  datatype TransportAddress = InetSocketTransportAddress(host: string, port: int)

  /** The TransportClient start() creates: an identity of its own, built from the client settings
      and connected to the configured addresses. */
  datatype TransportClientHandle = TransportClientHandle(id: nat, settings: seq<Entry>, addresses: seq<TransportAddress>)

  /** One element of the addresses list: it must be a map (a ClassCastException otherwise, a
      NullPointerException for null) whose host and port are present and non-blank; the host must
      be a string and the port a value nodeIntegerValue accepts. InetSocketAddress rejects a port
      outside 0..65535 with an IllegalArgumentException. */
  function AddressOf(a: Node): (r: Result<TransportAddress>)
    ensures a.Obj? && (IsEmptyValue(Get(a.entries, "host")) || IsEmptyValue(Get(a.entries, "port"))) ==>
      r.Err? && r.error.SettingsError?
    ensures r.Ok? ==> a.Obj? && Get(a.entries, "host") == Str(r.value.host) && !IsBlank(r.value.host)
    ensures r.Ok? ==> 0 <= r.value.port <= MAX_PORT && NodeIntegerValue(Get(a.entries, "port")) == Ok(Some(r.value.port))
    ensures a.Obj? && Get(a.entries, "port").Int? && !(0 <= IntValue(Get(a.entries, "port").i) <= MAX_PORT) ==>
      r.Err?
  {
    if a.Null? then Err(NullPointer)
    else if !a.Obj? then Err(ClassCast)
    else
      var entries := a.entries;
      if IsEmptyValue(Get(entries, "host")) then
        Err(SettingsError("es_connection/addresses/host element of configuration structure not found or is empty"))
      else if IsEmptyValue(Get(entries, "port")) then
        Err(SettingsError("es_connection/addresses/port element of configuration structure not found or is empty"))
      else
        match AsString(Get(entries, "host"))
        case Err(e) => Err(e)
        case Ok(host) =>
          match NodeIntegerValue(Get(entries, "port"))
          case Err(e) => Err(e)
          case Ok(port) =>
            if 0 <= port.value <= MAX_PORT then Ok(InetSocketTransportAddress(host.value, port.value))
            else Err(IllegalArgument("port out of range:" + Decimal(port.value)))
  }

  /** f applied to each item in order; the first item that fails decides the error. */
  function MapResults<A, B>(f: A -> Result<B>, items: seq<A>): (r: Result<seq<B>>)
    ensures r.Ok? ==> |r.value| == |items| && forall i :: 0 <= i < |items| ==> f(items[i]) == Ok(r.value[i])
    ensures (forall i :: 0 <= i < |items| ==> f(items[i]).Ok?) ==> r.Ok?
    ensures r.Err? ==> exists i :: 0 <= i < |items| && f(items[i]) == Err(r.error)
  {
    if |items| == 0 then Ok([])
    else
      var init := items[..|items| - 1];
      var prefix := MapResults(f, init);
      var last := f(items[|items| - 1]);
      assert forall i :: 0 <= i < |init| ==> items[i] == init[i];
      if prefix.Err? then Err(prefix.error)
      else if last.Err? then Err(last.error)
      else Ok(prefix.value + [last.value])
  }

  /** Once an item fails, the items after it change nothing. */
  lemma {:induction false} MapResultsFailedPrefix<A, B>(f: A -> Result<B>, items: seq<A>, k: nat)
    requires k <= |items|
    requires MapResults(f, items[..k]).Err?
    ensures MapResults(f, items) == MapResults(f, items[..k])
    decreases |items| - k
  {
    if k < |items| {
      assert items[..k + 1][..k] == items[..k];
      MapResultsFailedPrefix(f, items, k + 1);
    } else {
      assert items[..k] == items;
    }
  }

  /** The addresses in list order; the first element that fails decides the error. */
  function AddressesOf(items: seq<Node>): (r: Result<seq<TransportAddress>>)
    ensures r.Ok? ==> |r.value| == |items| && forall i :: 0 <= i < |items| ==> AddressOf(items[i]) == Ok(r.value[i])
    ensures (forall i :: 0 <= i < |items| ==> AddressOf(items[i]).Ok?) ==> r.Ok?
    ensures r.Err? ==> exists i :: 0 <= i < |items| && AddressOf(items[i]) == Err(r.error)
  {
    MapResults(AddressOf, items)
  }

  /** The configuring constructor, as a function: a missing or empty addresses list is a
      SettingsException, a value that is not a list or a settings value that is not a map a
      ClassCastException; the settings default to an empty map. */
  function TransportSettingsOf(sourceClientSettings: seq<Entry>): (r: Result<(seq<TransportAddress>, seq<Entry>)>)
    ensures Get(sourceClientSettings, "addresses") == Null || Get(sourceClientSettings, "addresses") == List([]) ==>
      r.Err? && r.error.SettingsError?
    ensures r.Ok? ==> Get(sourceClientSettings, "addresses").List?
    ensures r.Ok? ==> Ok(r.value.0) == AddressesOf(Get(sourceClientSettings, "addresses").items) && |r.value.0| > 0
    ensures r.Ok? ==> var conf := Get(sourceClientSettings, "settings");
      (conf.Obj? && r.value.1 == conf.entries) || (conf.Null? && r.value.1 == [])
    ensures var conf := Get(sourceClientSettings, "settings"); !conf.Null? && !conf.Obj? ==> r.Err?
  {
    var adr := Get(sourceClientSettings, "addresses");
    if adr.Null? || adr == List([]) then
      Err(SettingsError("es_connection/addresses element of configuration structure not found or is empty"))
    else if !adr.List? then Err(ClassCast)
    else
      match AddressesOf(adr.items)
      case Err(e) => Err(e)
      case Ok(addresses) =>
        match Get(sourceClientSettings, "settings")
        case Null => Ok((addresses, []))
        case Obj(conf) => Ok((addresses, conf))
        case _ => Err(ClassCast)
  }

  class SourceClientESTransportClient {
    const transportAddresses: array<TransportAddress>
    const settingsConf: seq<Entry>
    /** The running TransportClient, null before start() and after close(). */
    var client: Option<TransportClientHandle>

    constructor(transportAddresses: array<TransportAddress>, settingsConf: seq<Entry>)
      ensures this.transportAddresses == transportAddresses && this.settingsConf == settingsConf
      ensures client.None?
    {
      this.transportAddresses := transportAddresses;
      this.settingsConf := settingsConf;
      client := None;
    }

    /** start: creates a client from the settings and addresses, unless one is running already,
        in which case the call is ignored. newId names the client it would create. */
    method Start(newId: nat)
      modifies this
      ensures old(client).Some? ==> client == old(client)
      ensures old(client).None? ==> client == Some(TransportClientHandle(newId, settingsConf, transportAddresses[..]))
    {
      if client.Some? {
        return;
      }
      client := Some(TransportClientHandle(newId, settingsConf, transportAddresses[..]));
    }

    /** close: closes the running client, if any, and forgets it; closed names the client closed. */
    method Close() returns (closed: Option<TransportClientHandle>)
      modifies this
      ensures closed == old(client)
      ensures client.None?
    {
      closed := client;
      client := None;
    }
  }

  /** The constructor's loop, for any element conversion f: the array is filled element by
      element in list order, and the first element f rejects ends the loop with its error. */
  method FillArray<A, B>(f: A -> Result<B>, items: seq<A>, filler: B) returns (r: Result<array<B>>)
    ensures r.Ok? <==> MapResults(f, items).Ok?
    ensures r.Err? ==> r.error == MapResults(f, items).error
    ensures r.Ok? ==> fresh(r.value) && r.value[..] == MapResults(f, items).value
  {
    var a := new B[|items|](_ => filler);
    var i := 0;
    while i < |items|
      invariant 0 <= i <= |items|
      invariant MapResults(f, items[..i]) == Ok(a[..i])
      modifies a
    {
      var x := f(items[i]);
      assert items[..i + 1][..i] == items[..i];
      if x.Err? {
        MapResultsFailedPrefix(f, items, i + 1);
        return Err(x.error);
      }
      ghost var done := a[..i];
      a[i] := x.value;
      assert a[..i + 1] == done + [x.value];
      i := i + 1;
    }
    assert items[..i] == items;
    return Ok(a);
  }

  /** The configuring constructor. */
  method NewSourceClientESTransportClient(sourceClientSettings: seq<Entry>) returns (r: Result<SourceClientESTransportClient>)
    ensures r.Ok? <==> TransportSettingsOf(sourceClientSettings).Ok?
    ensures r.Err? ==> r.error == TransportSettingsOf(sourceClientSettings).error
    ensures r.Ok? ==> fresh(r.value) && fresh(r.value.transportAddresses) && r.value.client.None?
    ensures r.Ok? ==> (r.value.transportAddresses[..], r.value.settingsConf) == TransportSettingsOf(sourceClientSettings).value
  {
    var adrNode := Get(sourceClientSettings, "addresses");
    if adrNode.Null? || adrNode == List([]) {
      return Err(SettingsError("es_connection/addresses element of configuration structure not found or is empty"));
    }
    if !adrNode.List? {
      return Err(ClassCast);
    }
    var addresses := FillArray(AddressOf, adrNode.items, InetSocketTransportAddress("", 0));
    if addresses.Err? {
      return Err(addresses.error);
    }
    var conf := Get(sourceClientSettings, "settings");
    if !conf.Null? && !conf.Obj? {
      return Err(ClassCast);
    }
    var settingsConf := if conf.Obj? then conf.entries else [];
    var c := new SourceClientESTransportClient(addresses.value, settingsConf);
    return Ok(c);
  }
}
