/**
 * FeedStore.swift: the persistence interface the local feed loader drives,
 * modelled as an in-memory store that holds at most one cached feed, logs
 * every message it receives, and keeps each request's callback pending until
 * the environment resolves it (with success or with an injected error).
 */
module FeedStores {
  import opened Wrappers
  import opened FeedFeature

  /** `LocalFeedImage`: the persistence-side copy of a `FeedImage`. */
  datatype LocalFeedImage = LocalFeedImage(id: Uuid, url: Url, description: Option<string>, location: Option<string>)

  /** `CachedFeed`: one persisted snapshot and the moment it was written. */
  datatype CachedFeed = CachedFeed(feed: seq<LocalFeedImage>, timestamp: Timestamp)

  /** The messages a store receives, in the order the spy in the tests records them. */
  datatype StoreMessage =
    | Deletion
    | Insertion(feed: seq<LocalFeedImage>, timestamp: Timestamp)
    | Retrieval

  /** What the store hands to a request's callback. */
  datatype StoreReply =
    | Deleted(deletion: Completion)
    | Inserted(insertion: Completion)
    | Retrieved(retrieval: Result<Option<CachedFeed>, Error>)

  /** A request the store has received and not yet answered, with the callback it will call. */
  datatype Pending<K> = Pending(message: StoreMessage, callback: K)

  /** The reply to `message` when the store holds `cache`; `failure` is the error the store meets, if any. */
  function Reply(cache: Option<CachedFeed>, message: StoreMessage, failure: Option<Error>): (r: StoreReply)
    ensures r.Deleted? <==> message.Deletion?
    ensures r.Inserted? <==> message.Insertion?
    ensures r.Retrieved? ==> r.retrieval == (if failure.Some? then Failure(failure.value) else Success(cache))
    ensures !r.Retrieved? ==> (r.Deleted? && r.deletion == CompletionOf(failure)) || (r.Inserted? && r.insertion == CompletionOf(failure))
  {
    match message
    case Deletion => Deleted(CompletionOf(failure))
    case Insertion(_, _) => Inserted(CompletionOf(failure))
    case Retrieval =>
      Retrieved(match failure case None => Success(cache) case Some(e) => Failure(e))
  }

  /**
   * The cache after the store has handled `message`: a failed operation
   * changes nothing, a delete empties it, an insert replaces it.
   */
  function CacheAfter(cache: Option<CachedFeed>, message: StoreMessage, failure: Option<Error>): (c: Option<CachedFeed>)
    ensures failure.Some? || message.Retrieval? ==> c == cache
    ensures failure.None? && message.Deletion? ==> c == None
    ensures failure.None? && message.Insertion? ==> c == Some(CachedFeed(message.feed, message.timestamp))
  {
    if failure.Some? then cache
    else match message
      case Deletion => None
      case Insertion(feed, timestamp) => Some(CachedFeed(feed, timestamp))
      case Retrieval => cache
  }

  class FeedStore<K> {
    var cache: Option<CachedFeed>
    var messages: seq<StoreMessage>
    var pending: seq<Pending<K>>

    constructor (cache: Option<CachedFeed>)
      ensures this.cache == cache && messages == [] && pending == []
    {
      this.cache := cache;
      messages := [];
      pending := [];
    }

    /** `deleteCachedFeed(completion:)`. */
    method DeleteCachedFeed(callback: K)
      modifies this
      ensures cache == old(cache)
      ensures messages == old(messages) + [Deletion]
      ensures pending == old(pending) + [Pending(Deletion, callback)]
    {
      messages := messages + [Deletion];
      pending := pending + [Pending(Deletion, callback)];
    }

    /** `insert(_:timestamp:completion:)`. */
    method Insert(feed: seq<LocalFeedImage>, timestamp: Timestamp, callback: K)
      modifies this
      ensures cache == old(cache)
      ensures messages == old(messages) + [Insertion(feed, timestamp)]
      ensures pending == old(pending) + [Pending(Insertion(feed, timestamp), callback)]
    {
      messages := messages + [Insertion(feed, timestamp)];
      pending := pending + [Pending(Insertion(feed, timestamp), callback)];
    }

    /** `retrieveCachedFeed(completion:)`. */
    method RetrieveCachedFeed(callback: K)
      modifies this
      ensures cache == old(cache)
      ensures messages == old(messages) + [Retrieval]
      ensures pending == old(pending) + [Pending(Retrieval, callback)]
    {
      messages := messages + [Retrieval];
      pending := pending + [Pending(Retrieval, callback)];
    }

    /**
     * The store finishes the `i`-th pending request, failing with `failure`
     * if that is given, and hands back the callback and the reply to run it with.
     */
    method Complete(i: nat, failure: Option<Error>) returns (callback: K, reply: StoreReply)
      requires i < |pending|
      modifies this
      ensures callback == old(pending[i].callback)
      ensures reply == Reply(old(cache), old(pending[i].message), failure)
      ensures cache == CacheAfter(old(cache), old(pending[i].message), failure)
      ensures messages == old(messages)
      ensures pending == Removed(old(pending), i)
    {
      var request := pending[i];
      callback := request.callback;
      reply := Reply(cache, request.message, failure);
      cache := CacheAfter(cache, request.message, failure);
      pending := Removed(pending, i);
    }
  }
}
