/**
 * RemoteFeedLoader.swift: one GET of the configured URL per `load`, the
 * transport result mapped to a feed or to `connectivity`/`invalidData`. The
 * client callback captures the loader weakly (`alive`).
 */
module RemoteFeedLoading {
  import opened Wrappers
  import opened FeedFeature
  import opened HttpClients
  import opened FeedItemsMapper

  /** `mapToItems()`: each remote item becomes a feed image, `image` becoming `url`, in order. */
  function MapToItems(remote: seq<RemoteFeedItem>): (feed: seq<FeedImage>)
    ensures |feed| == |remote|
    ensures forall j :: 0 <= j < |remote| ==>
      feed[j] == FeedImage(remote[j].id, remote[j].image, remote[j].description, remote[j].location)
  {
    if remote == [] then []
    else [FeedImage(remote[0].id, remote[0].image, remote[0].description, remote[0].location)] + MapToItems(remote[1..])
  }

  /** `map(response:data:)`: the mapper's items as a feed, or the mapper's error passed through. */
  function MapResponse(decode: Decoder, response: HttpResponse, data: Bytes): (r: FeedResult)
    ensures r.Success? <==> response.statusCode == OK_200 && decode(data).Some?
    ensures r.Success? ==> r.value == MapToItems(decode(data).value)
    ensures r.Failure? ==> r.error == RemoteFeedError(InvalidData)
  {
    match Map(decode, data, response)
    case Success(items) => Success(MapToItems(items))
    case Failure(e) => Failure(e)
  }

  /** What the client callback of `load` delivers for a transport result. */
  function LoadOutcome(decode: Decoder, result: HttpResult): (r: FeedResult)
    ensures result.Failure? ==> r == Failure(RemoteFeedError(Connectivity))
    ensures result.Success? ==>
      var reply := result.value;
      if reply.response.statusCode == OK_200 && decode(reply.data).Some? then
        r == Success(MapToItems(decode(reply.data).value))
      else
        r == Failure(RemoteFeedError(InvalidData))
  {
    match result
    case Success(reply) => MapResponse(decode, reply.response, reply.data)
    case Failure(_) => Failure(RemoteFeedError(Connectivity))
  }

  /** The feed a 200 response yields has the remote items' length and order, and an empty payload is an empty feed. */
  lemma LoadKeepsItems(decode: Decoder, data: Bytes, items: seq<RemoteFeedItem>)
    requires decode(data) == Some(items)
    ensures var r := LoadOutcome(decode, Success(HttpReply(HttpResponse(OK_200), data)));
      r.Success? && |r.value| == |items| &&
      (forall j :: 0 <= j < |items| ==> r.value[j].id == items[j].id && r.value[j].url == items[j].image)
    ensures items == [] ==> LoadOutcome(decode, Success(HttpReply(HttpResponse(OK_200), data))) == Success([])
  {
  }

  /** One invocation of the completion passed to `load` call number `call`. */
  datatype FeedDelivery = FeedDelivery(call: nat, result: FeedResult)

  class RemoteFeedLoader {
    const client: HttpClient<nat>
    const url: Url
    const decode: Decoder
    var alive: bool
    var delivered: seq<FeedDelivery>
    var calls: nat

    /** `init(from:httClient:)`: requests nothing. */
    constructor (url: Url, client: HttpClient<nat>, decode: Decoder)
      ensures this.url == url && this.client == client && this.decode == decode
      ensures alive && delivered == [] && calls == 0
    {
      this.url := url;
      this.client := client;
      this.decode := decode;
      alive := true;
      delivered := [];
      calls := 0;
    }

    /** `load(completion:)`: one GET of `url`; no de-duplication. */
    method Load() returns (call: nat)
      modifies this, client
      ensures call == old(calls) && calls == old(calls) + 1
      ensures alive == old(alive) && delivered == old(delivered)
      ensures client.requestedURLs == old(client.requestedURLs) + [url]
      ensures client.cancelledURLs == old(client.cancelledURLs)
      ensures client.pending == old(client.pending) + [PendingGet(url, call)]
    {
      call := calls;
      calls := calls + 1;
      var _ := client.Get(url, call);
    }

    /** The owner drops its last reference to the loader. */
    method Release()
      modifies this
      ensures !alive && delivered == old(delivered) && calls == old(calls)
    {
      alive := false;
    }

    /** The transport delivers `result` for pending request `i`; a released loader ignores it. */
    method ClientCompletes(i: nat, result: HttpResult)
      requires i < |client.pending|
      modifies this, client
      ensures alive == old(alive) && calls == old(calls)
      ensures client.requestedURLs == old(client.requestedURLs) && client.cancelledURLs == old(client.cancelledURLs)
      ensures client.pending == Removed(old(client.pending), i)
      ensures delivered == old(delivered) +
        (if old(alive) then [FeedDelivery(old(client.pending[i].callback), LoadOutcome(decode, result))] else [])
    {
      var call := client.Complete(i);
      if alive {
        delivered := delivered + [FeedDelivery(call, LoadOutcome(decode, result))];
      }
    }
  }

  /** Two loads send two requests for the configured URL. */
  method LoadTwice(url: Url, decode: Decoder) returns (requested: seq<Url>)
    ensures requested == [url, url]
  {
    var client := new HttpClient<nat>();
    var loader := new RemoteFeedLoader(url, client, decode);
    var first := loader.Load();
    var second := loader.Load();
    requested := client.requestedURLs;
  }

  /** A loader released before the transport answers delivers nothing; a live one delivers exactly one result. */
  method ReleasedBeforeResponse(url: Url, decode: Decoder, result: HttpResult)
    returns (whileAlive: seq<FeedDelivery>, afterRelease: seq<FeedDelivery>)
    ensures whileAlive == [FeedDelivery(0, LoadOutcome(decode, result))]
    ensures afterRelease == whileAlive
  {
    var client := new HttpClient<nat>();
    var loader := new RemoteFeedLoader(url, client, decode);
    var first := loader.Load();
    loader.ClientCompletes(0, result);
    whileAlive := loader.delivered;
    var second := loader.Load();
    loader.Release();
    loader.ClientCompletes(0, result);
    afterRelease := loader.delivered;
  }
}
