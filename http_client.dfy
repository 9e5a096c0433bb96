/**
 * HTTPClient.swift: the transport, as a client that records every URL it is
 * asked for and every request cancelled, and keeps each request's callback
 * pending until the environment delivers that request's result.
 */
module HttpClients {
  import opened Wrappers
  import opened FeedFeature

  /** The part of `HTTPURLResponse` the loaders look at. */
  datatype HttpResponse = HttpResponse(statusCode: int)

  /** `HTTPClient.Result`: a response with its body, or a transport error. */
  datatype HttpReply = HttpReply(response: HttpResponse, data: Bytes)

  type HttpResult = Result<HttpReply, Error>

  datatype PendingGet<K> = PendingGet(url: Url, callback: K)

  class HttpClient<K> {
    var requestedURLs: seq<Url>
    var cancelledURLs: seq<Url>
    var pending: seq<PendingGet<K>>

    constructor ()
      ensures requestedURLs == [] && cancelledURLs == [] && pending == []
    {
      requestedURLs := [];
      cancelledURLs := [];
      pending := [];
    }

    /** `get(from:completion:)`: returns the request's cancellable task. */
    method Get(url: Url, callback: K) returns (task: HttpClientTask<K>)
      modifies this
      ensures fresh(task) && task.client == this && task.url == url
      ensures requestedURLs == old(requestedURLs) + [url]
      ensures cancelledURLs == old(cancelledURLs)
      ensures pending == old(pending) + [PendingGet(url, callback)]
    {
      requestedURLs := requestedURLs + [url];
      pending := pending + [PendingGet(url, callback)];
      task := new HttpClientTask(this, url);
    }

    /** The transport finishes request `i`; the caller runs the returned callback with its result. */
    method Complete(i: nat) returns (callback: K)
      requires i < |pending|
      modifies this
      ensures callback == old(pending[i].callback)
      ensures requestedURLs == old(requestedURLs) && cancelledURLs == old(cancelledURLs)
      ensures pending == Removed(old(pending), i)
    {
      callback := pending[i].callback;
      pending := Removed(pending, i);
    }

    /** Records that the request for `url` was cancelled. */
    method CancelRequest(url: Url)
      modifies this
      ensures cancelledURLs == old(cancelledURLs) + [url]
      ensures requestedURLs == old(requestedURLs) && pending == old(pending)
    {
      cancelledURLs := cancelledURLs + [url];
    }
  }

  /** `HTTPClientTask`: the handle of one request. */
  class HttpClientTask<K> {
    const client: HttpClient<K>
    const url: Url

    constructor (client: HttpClient<K>, url: Url)
      ensures this.client == client && this.url == url
    {
      this.client := client;
      this.url := url;
    }

    /** `cancel()`. */
    method Cancel()
      modifies client
      ensures client.cancelledURLs == old(client.cancelledURLs) + [url]
      ensures client.requestedURLs == old(client.requestedURLs) && client.pending == old(client.pending)
    {
      client.CancelRequest(url);
    }
  }
}
