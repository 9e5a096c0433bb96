/**
 * RemoteFeedImageLoader.swift: one GET per image; a 200 response with a
 * non-empty body gives the bytes. The returned `RemoteFeedImageTask` forwards
 * `cancel()` to the HTTP task and empties its completion slot; the client
 * callback captures the loader weakly (`alive`).
 */
module RemoteImageLoading {
  import opened Wrappers
  import opened FeedFeature
  import opened HttpClients

  const OK_200: int := 200

  /** `isValid(_:)`. */
  predicate IsValid(response: HttpResponse, data: Bytes)
  {
    response.statusCode == OK_200 && data != []
  }

  /** `handle(httpResult:)`. */
  function Handle(result: HttpResult): (r: ImageDataResult)
    ensures result.Failure? ==> r == Failure(RemoteImageError(Connectivity))
    ensures result.Success? ==>
      r == (if IsValid(result.value.response, result.value.data) then Success(result.value.data)
            else Failure(RemoteImageError(InvalidData)))
  {
    match result
    case Failure(_) => Failure(RemoteImageError(Connectivity))
    case Success(reply) =>
      if IsValid(reply.response, reply.data) then Success(reply.data) else Failure(RemoteImageError(InvalidData))
  }

  /** Only a 200 response with a non-empty body yields bytes, and then exactly those bytes. */
  lemma HandleYieldsDataExactly(result: HttpResult)
    ensures Handle(result).Success? <==>
      result.Success? && result.value.response.statusCode == OK_200 && |result.value.data| > 0
    ensures Handle(result).Success? ==> Handle(result).value == result.value.data
  {
  }

  /**
   * `RemoteFeedImageTask`: `hasCompletion` says whether the optional
   * `completion` slot still holds the caller's closure; `received` is what
   * that closure has been handed.
   */
  class RemoteFeedImageTask {
    var hasCompletion: bool
    var wrappedHttpTask: HttpClientTask?<RemoteFeedImageTask>
    var received: seq<ImageDataResult>

    constructor ()
      ensures hasCompletion && wrappedHttpTask == null && received == []
    {
      hasCompletion := true;
      wrappedHttpTask := null;
      received := [];
    }

    /** The client whose request `cancel()` reaches, if the HTTP task is set. */
    function Wrapped(): set<HttpClient<RemoteFeedImageTask>>
      reads this
    {
      if wrappedHttpTask != null then {wrappedHttpTask.client} else {}
    }

    /** `cancel()`: cancels the HTTP request, then empties the completion slot. */
    method Cancel()
      modifies this, Wrapped()
      ensures !hasCompletion && received == old(received) && wrappedHttpTask == old(wrappedHttpTask)
      ensures wrappedHttpTask != null ==>
        var client := wrappedHttpTask.client;
        client.cancelledURLs == old(client.cancelledURLs) + [wrappedHttpTask.url] &&
        client.requestedURLs == old(client.requestedURLs) && client.pending == old(client.pending)
    {
      if wrappedHttpTask != null {
        wrappedHttpTask.Cancel();
      }
      hasCompletion := false;
    }

    /** `complete(with:)`: calls the completion if the slot still holds it. */
    method Complete(result: ImageDataResult)
      modifies this
      ensures hasCompletion == old(hasCompletion) && wrappedHttpTask == old(wrappedHttpTask)
      ensures received == old(received) + (if old(hasCompletion) then [result] else [])
    {
      if hasCompletion {
        received := received + [result];
      }
    }
  }

  class RemoteFeedImageLoader {
    const client: HttpClient<RemoteFeedImageTask>
    var alive: bool

    /** `init(httpClient:)`: requests nothing. */
    constructor (client: HttpClient<RemoteFeedImageTask>)
      ensures this.client == client && alive
    {
      this.client := client;
      alive := true;
    }

    /** `loadImageData(from:completion:)`: one GET of `url`; the task wraps that request. */
    method LoadImageData(url: Url) returns (task: RemoteFeedImageTask)
      modifies client
      ensures fresh(task) && task.hasCompletion && task.received == []
      ensures task.wrappedHttpTask != null && fresh(task.wrappedHttpTask)
      ensures task.wrappedHttpTask.client == client && task.wrappedHttpTask.url == url
      ensures client.requestedURLs == old(client.requestedURLs) + [url]
      ensures client.cancelledURLs == old(client.cancelledURLs)
      ensures client.pending == old(client.pending) + [PendingGet(url, task)]
    {
      task := new RemoteFeedImageTask();
      task.wrappedHttpTask := client.Get(url, task);
    }

    /** The owner drops its last reference to the loader. */
    method Release()
      modifies this
      ensures !alive
    {
      alive := false;
    }

    /** The transport delivers `result` for pending request `i`; a live loader hands it to the task. */
    method ClientCompletes(i: nat, result: HttpResult)
      requires i < |client.pending|
      modifies client, client.pending[i].callback
      ensures client.requestedURLs == old(client.requestedURLs) && client.cancelledURLs == old(client.cancelledURLs)
      ensures client.pending == Removed(old(client.pending), i)
      ensures var task := old(client.pending[i].callback);
        task.hasCompletion == old(task.hasCompletion) && task.wrappedHttpTask == old(task.wrappedHttpTask) &&
        task.received == old(task.received) + (if alive && old(task.hasCompletion) then [Handle(result)] else [])
    {
      var task := client.Complete(i);
      if alive {
        task.Complete(Handle(result));
      }
    }
  }

  /** No request is cancelled until the task is, and cancelling it cancels exactly its request. */
  method CancelForwardsToClient(url: Url) returns (before: seq<Url>, after: seq<Url>)
    ensures before == [] && after == [url]
  {
    var client := new HttpClient<RemoteFeedImageTask>();
    var loader := new RemoteFeedImageLoader(client);
    var task := loader.LoadImageData(url);
    before := client.cancelledURLs;
    task.Cancel();
    after := client.cancelledURLs;
  }

  /** After `cancel()` nothing is delivered, whatever the transport reports. */
  method CancelledTaskStaysSilent(url: Url, result: HttpResult) returns (received: seq<ImageDataResult>)
    ensures received == []
  {
    var client := new HttpClient<RemoteFeedImageTask>();
    var loader := new RemoteFeedImageLoader(client);
    var task := loader.LoadImageData(url);
    task.Cancel();
    loader.ClientCompletes(0, result);
    received := task.received;
  }

  /** A live loader delivers the handled result once; a released one delivers nothing. */
  method ReleasedBeforeResponse(url: Url, result: HttpResult)
    returns (whileAlive: seq<ImageDataResult>, afterRelease: seq<ImageDataResult>)
    ensures whileAlive == [Handle(result)]
    ensures afterRelease == []
  {
    var client := new HttpClient<RemoteFeedImageTask>();
    var loader := new RemoteFeedImageLoader(client);
    var first := loader.LoadImageData(url);
    loader.ClientCompletes(0, result);
    whileAlive := first.received;
    var second := loader.LoadImageData(url);
    loader.Release();
    loader.ClientCompletes(0, result);
    afterRelease := second.received;
  }
}
