/**
 * LocalFeedLoader.swift: save (delete, then insert), load (retrieve, serve only
 * a fresh cache) and validateCache (retrieve, then delete a failed or stale cache)
 * against a FeedStore.
 *
 * Every store call is asynchronous: the store keeps the loader's callback
 * pending until the environment resolves the request. The callbacks capture
 * the loader weakly; `alive` says whether the loader still exists, and a
 * guarded callback whose loader is gone does nothing. What the callers'
 * completion closures receive is recorded in `delivered`, each entry tagged
 * with the number of the call it answers.
 *
 * The behaviour is given twice: as pure functions on a `LoaderState` (used by
 * the lemmas) and as the `LocalFeedLoader` class, whose methods are proved to
 * move its state exactly as those functions say.
 */
module LocalFeedLoading {
  import opened Wrappers
  import opened FeedFeature
  import opened FeedStores
  import FeedCachePolicy

  /** The callback a loader operation hands to the store. */
  datatype Continuation =
    | SaveAfterDeletion(call: nat, feed: seq<FeedImage>)   // guarded; inserts on success
    | SaveAfterInsertion(call: nat)                         // guarded
    | LoadAfterRetrieval(call: nat)                         // guarded
    | ValidateAfterRetrieval(call: nat)                     // guarded; may delete
    | ValidationDeletion(call: nat)                         // the caller's completion itself, unguarded

  /** What a caller's completion receives. */
  datatype Outcome = Saved(save: Completion) | Loaded(load: FeedResult) | Validated(validation: Completion)

  /** One invocation of the completion passed to call number `call`. */
  datatype Delivery = Delivery(call: nat, outcome: Outcome)

  // ---------------------------------------------------------------------------
  // mapToLocal / mapToModel

  function ToLocal(image: FeedImage): LocalFeedImage
  {
    LocalFeedImage(image.id, image.url, image.description, image.location)
  }

  function ToModel(local: LocalFeedImage): FeedImage
  {
    FeedImage(local.id, local.url, local.description, local.location)
  }

  /** `mapToLocal()`: each image copied field by field, in order. */
  function MapToLocal(feed: seq<FeedImage>): (local: seq<LocalFeedImage>)
    ensures |local| == |feed|
    ensures forall j :: 0 <= j < |feed| ==>
      local[j] == LocalFeedImage(feed[j].id, feed[j].url, feed[j].description, feed[j].location)
  {
    if feed == [] then [] else [ToLocal(feed[0])] + MapToLocal(feed[1..])
  }

  /** `mapToModel()`: each local image copied field by field, in order. */
  function MapToModel(local: seq<LocalFeedImage>): (feed: seq<FeedImage>)
    ensures |feed| == |local|
    ensures forall j :: 0 <= j < |local| ==>
      feed[j] == FeedImage(local[j].id, local[j].url, local[j].description, local[j].location)
  {
    if local == [] then [] else [ToModel(local[0])] + MapToModel(local[1..])
  }

  /** What is saved is what is loaded back: the two mappings are inverse. */
  lemma MapRoundTrip(feed: seq<FeedImage>)
    ensures MapToModel(MapToLocal(feed)) == feed
  {
  }

  // ---------------------------------------------------------------------------
  // The decisions taken when a retrieval comes back

  /** `load`'s answer to a retrieval at time `now`. */
  function LoadDecision(retrieval: Result<Option<CachedFeed>, Error>, now: Timestamp): (r: FeedResult)
    ensures retrieval.Failure? ==> r == Failure(retrieval.error)
    ensures retrieval == Success(None) ==> r == Success([])
    ensures retrieval.Success? && retrieval.value.Some? ==>
      var cache := retrieval.value.value;
      r == if cache.timestamp > now - FeedCachePolicy.MaxCacheAge then Success(MapToModel(cache.feed)) else Success([])
  {
    match retrieval
    case Failure(e) => Failure(e)
    case Success(Some(cache)) =>
      if FeedCachePolicy.Validate(cache.timestamp, now) then Success(MapToModel(cache.feed)) else Success([])
    case Success(None) => Success([])
  }

  /** `validateCache` deletes when the retrieval failed or found a stale feed. */
  predicate ValidationDeletes(retrieval: Result<Option<CachedFeed>, Error>, now: Timestamp): (deletes: bool)
    ensures deletes <==>
      retrieval.Failure? ||
      (retrieval.value.Some? && retrieval.value.value.timestamp <= now - FeedCachePolicy.MaxCacheAge)
  {
    match retrieval
    case Failure(_) => true
    case Success(Some(cache)) => !FeedCachePolicy.Validate(cache.timestamp, now)
    case Success(None) => false
  }

  /** `load` serves the cached feed only when `validateCache` would keep it. */
  lemma LoadServesWhatValidationKeeps(retrieval: Result<Option<CachedFeed>, Error>, now: Timestamp)
    requires retrieval.Success? && retrieval.value.Some?
    ensures !ValidationDeletes(retrieval, now) ==>
      LoadDecision(retrieval, now) == Success(MapToModel(retrieval.value.value.feed))
    ensures ValidationDeletes(retrieval, now) ==> LoadDecision(retrieval, now) == Success([])
  {
  }

  // ---------------------------------------------------------------------------
  // Running a callback

  /** What running a callback does: completions it delivers and the store request it issues, if any. */
  datatype Reaction = Reaction(deliveries: seq<Delivery>, followUp: Option<Pending<Continuation>>)

  const Silent: Reaction := Reaction([], None)

  function Deliver(call: nat, outcome: Outcome): Reaction
  {
    Reaction([Delivery(call, outcome)], None)
  }

  function Issue(message: StoreMessage, callback: Continuation): Reaction
  {
    Reaction([], Some(Pending(message, callback)))
  }

  /** Whether `reply` is of the kind the request behind `callback` gets back. */
  predicate Answers(reply: StoreReply, callback: Continuation)
  {
    match callback
    case SaveAfterDeletion(_, _) => reply.Deleted?
    case SaveAfterInsertion(_) => reply.Inserted?
    case LoadAfterRetrieval(_) => reply.Retrieved?
    case ValidateAfterRetrieval(_) => reply.Retrieved?
    case ValidationDeletion(_) => reply.Deleted?
  }

  /** The operation a completion reports on is the one the callback belongs to. */
  predicate Reports(outcome: Outcome, callback: Continuation)
  {
    match callback
    case SaveAfterDeletion(_, _) => outcome.Saved?
    case SaveAfterInsertion(_) => outcome.Saved?
    case LoadAfterRetrieval(_) => outcome.Loaded?
    case ValidateAfterRetrieval(_) => outcome.Validated?
    case ValidationDeletion(_) => outcome.Validated?
  }

  /**
   * Running `callback` on the store's `reply` at time `now` (the value
   * `currentDate()` returns then). A reply of another kind than the request
   * the callback was registered for cannot occur and is ignored.
   *
   * A callback that runs (the loader lives, or it is the unguarded delete of
   * `validateCache`) either completes its own call once or sends exactly one
   * follow-up request for that call: a save's insert after its delete, or
   * `validateCache`'s delete.
   */
  function React(callback: Continuation, reply: StoreReply, alive: bool, now: Timestamp): (r: Reaction)
    ensures Answers(reply, callback) && (alive || !Guarded(callback)) ==>
      (|r.deliveries| == 1 && r.followUp.None?) || (r.deliveries == [] && r.followUp.Some?)
    ensures !Answers(reply, callback) ==> r == Silent
    ensures forall d :: d in r.deliveries ==> d.call == callback.call && Reports(d.outcome, callback)
    ensures r.followUp.Some? ==> r.deliveries == []
    ensures r.followUp.Some? ==> callback.SaveAfterDeletion? || callback.ValidateAfterRetrieval?
    ensures r.followUp.Some? && callback.SaveAfterDeletion? ==>
      r.followUp.value == Pending(Insertion(MapToLocal(callback.feed), now), SaveAfterInsertion(callback.call))
    ensures r.followUp.Some? && callback.ValidateAfterRetrieval? ==>
      r.followUp.value == Pending(Deletion, ValidationDeletion(callback.call))
  {
    match callback
    case SaveAfterDeletion(call, feed) =>
      if !alive || !reply.Deleted? then Silent
      else if reply.deletion.Success? then Issue(Insertion(MapToLocal(feed), now), SaveAfterInsertion(call))
      else Deliver(call, Saved(Failure(reply.deletion.error)))
    case SaveAfterInsertion(call) =>
      if !alive || !reply.Inserted? then Silent
      else Deliver(call, Saved(reply.insertion))
    case LoadAfterRetrieval(call) =>
      if !alive || !reply.Retrieved? then Silent
      else Deliver(call, Loaded(LoadDecision(reply.retrieval, now)))
    case ValidateAfterRetrieval(call) =>
      if !alive || !reply.Retrieved? then Silent
      else if ValidationDeletes(reply.retrieval, now) then Issue(Deletion, ValidationDeletion(call))
      else Deliver(call, Validated(Success(())))
    case ValidationDeletion(call) =>
      if !reply.Deleted? then Silent
      else Deliver(call, Validated(reply.deletion))
  }

  /** A callback that checks the loader is still alive before it does anything. */
  predicate Guarded(callback: Continuation)
  {
    !callback.ValidationDeletion?
  }

  /** Once the loader is gone, a guarded callback neither delivers nor sends anything. */
  lemma ReleasedGuardedIsSilent(callback: Continuation, reply: StoreReply, now: Timestamp)
    requires Guarded(callback)
    ensures React(callback, reply, false, now) == Silent
  {
  }

  // ---------------------------------------------------------------------------
  // The loader and its store as one state

  datatype LoaderState = LoaderState(
    cache: Option<CachedFeed>,
    messages: seq<StoreMessage>,
    pending: seq<Pending<Continuation>>,
    alive: bool,
    delivered: seq<Delivery>,
    calls: nat)

  /** `save(feed:completion:)`: only the delete is sent. */
  function AfterSave(s: LoaderState, feed: seq<FeedImage>): LoaderState
  {
    s.(messages := s.messages + [Deletion],
       pending := s.pending + [Pending(Deletion, SaveAfterDeletion(s.calls, feed))],
       calls := s.calls + 1)
  }

  /** `load(completion:)`. */
  function AfterLoad(s: LoaderState): LoaderState
  {
    s.(messages := s.messages + [Retrieval],
       pending := s.pending + [Pending(Retrieval, LoadAfterRetrieval(s.calls))],
       calls := s.calls + 1)
  }

  /** `validateCache(completion:)`. */
  function AfterValidateCache(s: LoaderState): LoaderState
  {
    s.(messages := s.messages + [Retrieval],
       pending := s.pending + [Pending(Retrieval, ValidateAfterRetrieval(s.calls))],
       calls := s.calls + 1)
  }

  /** The owner lets go of the loader. */
  function AfterRelease(s: LoaderState): LoaderState
  {
    s.(alive := false)
  }

  function FollowUpMessages(r: Reaction): seq<StoreMessage>
  {
    if r.followUp.Some? then [r.followUp.value.message] else []
  }

  function FollowUpRequests(r: Reaction): seq<Pending<Continuation>>
  {
    if r.followUp.Some? then [r.followUp.value] else []
  }

  /** The store finishes pending request `i` (failing with `failure`, if given) and runs its callback at time `now`. */
  function AfterResolve(s: LoaderState, i: nat, failure: Option<Error>, now: Timestamp): LoaderState
    requires i < |s.pending|
  {
    var request := s.pending[i];
    var reaction := React(request.callback, Reply(s.cache, request.message, failure), s.alive, now);
    s.(cache := CacheAfter(s.cache, request.message, failure),
       messages := s.messages + FollowUpMessages(reaction),
       pending := Removed(s.pending, i) + FollowUpRequests(reaction),
       delivered := s.delivered + reaction.deliveries)
  }

  // ---------------------------------------------------------------------------
  // Properties of the three operations

  /** `load` sends one retrieve and nothing else, and completes with `LoadDecision` while the loader lives. */
  lemma LoadResolves(s: LoaderState, failure: Option<Error>, now: Timestamp)
    ensures var t := AfterResolve(AfterLoad(s), |s.pending|, failure, now);
      t.messages == s.messages + [Retrieval] && t.pending == s.pending && t.cache == s.cache &&
      t.delivered == s.delivered +
        (if s.alive then [Delivery(s.calls, Loaded(LoadDecision(Reply(s.cache, Retrieval, failure).retrieval, now)))] else [])
  {
    var s1 := AfterLoad(s);
    assert Removed(s1.pending, |s.pending|) == s.pending;
  }

  /** A failed delete ends `save`: its error is delivered and no insert is sent. */
  lemma SaveWhenDeletionFails(s: LoaderState, feed: seq<FeedImage>, e: Error, now: Timestamp)
    requires s.alive
    ensures var t := AfterResolve(AfterSave(s, feed), |s.pending|, Some(e), now);
      t.messages == s.messages + [Deletion] && t.pending == s.pending && t.cache == s.cache &&
      t.delivered == s.delivered + [Delivery(s.calls, Saved(Failure(e)))]
  {
    var s1 := AfterSave(s, feed);
    assert Removed(s1.pending, |s.pending|) == s.pending;
  }

  /**
   * After a successful delete, `save` sends exactly one insert of the mapped
   * feed stamped with the time the delete came back, and completes with the
   * insert's outcome. If the insert fails the store is left empty.
   */
  lemma SaveWhenDeletionSucceeds(s: LoaderState, feed: seq<FeedImage>, now: Timestamp, failure: Option<Error>, later: Timestamp)
    requires s.alive
    ensures var t := AfterResolve(AfterSave(s, feed), |s.pending|, None, now);
      t.messages == s.messages + [Deletion, Insertion(MapToLocal(feed), now)] &&
      t.pending == s.pending + [Pending(Insertion(MapToLocal(feed), now), SaveAfterInsertion(s.calls))] &&
      t.cache == None && t.delivered == s.delivered && t.alive
    ensures var t := AfterResolve(AfterResolve(AfterSave(s, feed), |s.pending|, None, now), |s.pending|, failure, later);
      t.messages == s.messages + [Deletion, Insertion(MapToLocal(feed), now)] && t.pending == s.pending &&
      t.cache == (if failure.None? then Some(CachedFeed(MapToLocal(feed), now)) else None) &&
      t.delivered == s.delivered + [Delivery(s.calls, Saved(CompletionOf(failure)))]
  {
    var s1 := AfterSave(s, feed);
    assert Removed(s1.pending, |s.pending|) == s.pending;
    var s2 := AfterResolve(s1, |s.pending|, None, now);
    assert Removed(s2.pending, |s.pending|) == s.pending;
  }

  /**
   * `validateCache` sends a delete exactly when the retrieval failed or found a
   * stale feed; otherwise it completes with success and sends nothing more.
   */
  lemma ValidateCacheResolves(s: LoaderState, failure: Option<Error>, now: Timestamp)
    requires s.alive
    ensures var t := AfterResolve(AfterValidateCache(s), |s.pending|, failure, now);
      t.cache == s.cache &&
      if ValidationDeletes(Reply(s.cache, Retrieval, failure).retrieval, now) then
        t.messages == s.messages + [Retrieval, Deletion] &&
        t.pending == s.pending + [Pending(Deletion, ValidationDeletion(s.calls))] &&
        t.delivered == s.delivered
      else
        t.messages == s.messages + [Retrieval] && t.pending == s.pending &&
        t.delivered == s.delivered + [Delivery(s.calls, Validated(Success(())))]
  {
    var s1 := AfterValidateCache(s);
    assert Removed(s1.pending, |s.pending|) == s.pending;
  }

  /**
   * The delete `validateCache` sends carries the caller's completion itself:
   * its outcome is delivered whether or not the loader still lives.
   */
  lemma ValidationDeletionAlwaysCompletes(s: LoaderState, i: nat, failure: Option<Error>, now: Timestamp)
    requires i < |s.pending| && s.pending[i].message == Deletion && s.pending[i].callback.ValidationDeletion?
    ensures var t := AfterResolve(s, i, failure, now);
      t.delivered == s.delivered + [Delivery(s.pending[i].callback.call, Validated(CompletionOf(failure)))] &&
      t.messages == s.messages && t.cache == (if failure.None? then None else s.cache)
  {
  }

  /** Saving a feed and loading it back while it is fresh gives the same feed, in the same order. */
  lemma SaveThenLoadWhileFresh(s: LoaderState, feed: seq<FeedImage>, now: Timestamp, later: Timestamp)
    requires s.alive && FeedCachePolicy.Validate(now, later)
    ensures var saved := AfterResolve(AfterResolve(AfterSave(s, feed), |s.pending|, None, now), |s.pending|, None, now);
      var loaded := AfterResolve(AfterLoad(saved), |s.pending|, None, later);
      loaded.delivered == s.delivered + [Delivery(s.calls, Saved(Success(()))), Delivery(s.calls + 1, Loaded(Success(feed)))]
  {
    SaveWhenDeletionSucceeds(s, feed, now, None, now);
    var saved := AfterResolve(AfterResolve(AfterSave(s, feed), |s.pending|, None, now), |s.pending|, None, now);
    LoadResolves(saved, None, later);
    MapRoundTrip(feed);
  }

  // ---------------------------------------------------------------------------
  // A released loader stays silent

  /** One resolution by the store: which request, whether it fails, and the time its callback sees. */
  datatype Resolution = Resolution(index: nat, failure: Option<Error>, now: Timestamp)

  /** The state after the store resolves the requests in `steps`, one after the other (an index out of range resolves nothing). */
  function Run(s: LoaderState, steps: seq<Resolution>): LoaderState
    decreases |steps|
  {
    if steps == [] then s
    else
      var r := steps[0];
      Run(if r.index < |s.pending| then AfterResolve(s, r.index, r.failure, r.now) else s, steps[1..])
  }

  /** Every pending callback checks the loader is alive. */
  predicate AllGuarded(pending: seq<Pending<Continuation>>)
  {
    forall j :: 0 <= j < |pending| ==> Guarded(pending[j].callback)
  }

  /**
   * Once the loader is released, and unless a `validateCache` delete was
   * already sent, however the store later resolves its requests no completion
   * is delivered and no further message is sent.
   */
  lemma {:induction false} ReleasedLoaderStaysSilent(s: LoaderState, steps: seq<Resolution>)
    requires !s.alive && AllGuarded(s.pending)
    ensures Run(s, steps).delivered == s.delivered
    ensures Run(s, steps).messages == s.messages
    ensures |Run(s, steps).pending| <= |s.pending|
    decreases |steps|
  {
    if steps != [] {
      var r := steps[0];
      if r.index < |s.pending| {
        var request := s.pending[r.index];
        ReleasedGuardedIsSilent(request.callback, Reply(s.cache, request.message, r.failure), r.now);
        var next := AfterResolve(s, r.index, r.failure, r.now);
        assert next.pending == Removed(s.pending, r.index);
        ReleasedLoaderStaysSilent(next, steps[1..]);
      } else {
        ReleasedLoaderStaysSilent(s, steps[1..]);
      }
    }
  }

  // ---------------------------------------------------------------------------
  // The loader

  class LocalFeedLoader {
    const store: FeedStore<Continuation>
    var alive: bool
    var delivered: seq<Delivery>
    var calls: nat

    ghost function State(): LoaderState
      reads this, store
    {
      LoaderState(store.cache, store.messages, store.pending, alive, delivered, calls)
    }

    /** `init(store:currentDate:)`: sends nothing to the store. */
    constructor (store: FeedStore<Continuation>)
      ensures this.store == store
      ensures State() == LoaderState(store.cache, store.messages, store.pending, true, [], 0)
    {
      this.store := store;
      alive := true;
      delivered := [];
      calls := 0;
    }

    /** `save(feed:completion:)`; returns the number of this call. */
    method Save(feed: seq<FeedImage>) returns (call: nat)
      modifies this, store
      ensures call == old(calls)
      ensures State() == AfterSave(old(State()), feed)
    {
      call := calls;
      calls := calls + 1;
      store.DeleteCachedFeed(SaveAfterDeletion(call, feed));
    }

    /** `load(completion:)`. */
    method Load() returns (call: nat)
      modifies this, store
      ensures call == old(calls)
      ensures State() == AfterLoad(old(State()))
    {
      call := calls;
      calls := calls + 1;
      store.RetrieveCachedFeed(LoadAfterRetrieval(call));
    }

    /** `validateCache(completion:)`. */
    method ValidateCache() returns (call: nat)
      modifies this, store
      ensures call == old(calls)
      ensures State() == AfterValidateCache(old(State()))
    {
      call := calls;
      calls := calls + 1;
      store.RetrieveCachedFeed(ValidateAfterRetrieval(call));
    }

    /** The owner drops its last reference to the loader. */
    method Release()
      modifies this
      ensures State() == AfterRelease(old(State()))
    {
      alive := false;
    }

    /**
     * The store finishes pending request `i` and calls its callback;
     * `now` is what `currentDate()` returns while that callback runs.
     */
    method CompleteStoreRequest(i: nat, failure: Option<Error>, now: Timestamp)
      requires i < |store.pending|
      modifies this, store
      ensures State() == AfterResolve(old(State()), i, failure, now)
    {
      var callback, reply := store.Complete(i, failure);
      match callback
      case SaveAfterDeletion(call, feed) =>
        if alive && reply.Deleted? {
          match reply.deletion
          case Success(_) =>
            store.Insert(MapToLocal(feed), now, SaveAfterInsertion(call));
          case Failure(e) =>
            delivered := delivered + [Delivery(call, Saved(Failure(e)))];
        }
      case SaveAfterInsertion(call) =>
        if alive && reply.Inserted? {
          delivered := delivered + [Delivery(call, Saved(reply.insertion))];
        }
      case LoadAfterRetrieval(call) =>
        if alive && reply.Retrieved? {
          delivered := delivered + [Delivery(call, Loaded(LoadDecision(reply.retrieval, now)))];
        }
      case ValidateAfterRetrieval(call) =>
        if alive && reply.Retrieved? {
          if ValidationDeletes(reply.retrieval, now) {
            store.DeleteCachedFeed(ValidationDeletion(call));
          } else {
            delivered := delivered + [Delivery(call, Validated(Success(())))];
          }
        }
      case ValidationDeletion(call) =>
        if reply.Deleted? {
          delivered := delivered + [Delivery(call, Validated(reply.deletion))];
        }
    }
  }
}
