/**
 * LocalFeedImageDataLoader.swift: loading and saving one image's bytes
 * through a FeedImageDataStore. A load returns an `ImageDataLoadTask` whose
 * completion slot `cancel()` empties; the store callbacks capture the loader
 * weakly (`alive`).
 */
module LocalImageDataLoading {
  import opened Wrappers
  import opened FeedFeature
  import opened ImageDataStores

  /**
   * `ImageDataLoadTask`: `hasCompletion` says whether the optional
   * `completion` slot still holds the caller's closure; `received` is what
   * that closure has been handed so far.
   */
  class ImageDataLoadTask {
    var hasCompletion: bool
    var received: seq<ImageDataResult>

    constructor ()
      ensures hasCompletion && received == []
    {
      hasCompletion := true;
      received := [];
    }

    /** `cancel()`: empties the completion slot. */
    method Cancel()
      modifies this
      ensures !hasCompletion
      ensures received == old(received)
    {
      hasCompletion := false;
    }

    /** `complete(with:)`: calls the completion if the slot still holds it. */
    method Complete(result: ImageDataResult)
      modifies this
      ensures hasCompletion == old(hasCompletion)
      ensures received == old(received) + (if old(hasCompletion) then [result] else [])
    {
      if hasCompletion {
        received := received + [result];
      }
    }
  }

  /** The callback the loader hands to the store. Both capture the loader weakly. */
  datatype ImageContinuation =
    | LoadAfterRetrieval(task: ImageDataLoadTask)
    | SaveAfterInsertion(call: nat)

  /** The task a callback completes, if any. */
  function TaskOf(callback: ImageContinuation): set<ImageDataLoadTask>
  {
    if callback.LoadAfterRetrieval? then {callback.task} else {}
  }

  /** One invocation of the completion passed to `saveImageData` call number `call`. */
  datatype SaveDelivery = SaveDelivery(call: nat, result: Completion)

  /** `handle(storeRetrieveResult:)`. */
  function Handle(retrieval: Result<Option<Bytes>, Error>): (r: ImageDataResult)
    ensures retrieval.Failure? ==> r == Failure(LocalImageLoadError(Failed))
    ensures retrieval == Success(None) ==> r == Failure(LocalImageLoadError(NotFound))
    ensures retrieval.Success? && retrieval.value.Some? ==> r == Success(retrieval.value.value)
  {
    match retrieval
    case Failure(_) => Failure(LocalImageLoadError(Failed))
    case Success(data) =>
      match data
      case Some(bytes) => Success(bytes)
      case None => Failure(LocalImageLoadError(NotFound))
  }

  /** The `mapError` of `saveImageData`. */
  function MapSaveResult(insertion: Completion): (r: Completion)
    ensures r.Success? <==> insertion.Success?
    ensures r.Failure? ==> r.error == LocalImageSaveError(SaveFailed)
  {
    match insertion
    case Success(_) => Success(())
    case Failure(_) => Failure(LocalImageSaveError(SaveFailed))
  }

  /** After a successful insert, loading that URL gives back exactly the bytes saved, empty ones included. */
  lemma SavedDataLoadsBack(images: map<Url, Bytes>, data: Bytes, url: Url)
    ensures var stored := ImagesAfter(images, ImageInsertion(data, url), None);
      Handle(ImageReply(stored, ImageRetrieval(url), None).retrieval) == Success(data)
  {
  }

  /** A URL the store holds nothing for loads as `notFound`; a store error loads as `failed`. */
  lemma MissingDataIsNotFound(images: map<Url, Bytes>, url: Url, e: Error)
    ensures url !in images ==>
      Handle(ImageReply(images, ImageRetrieval(url), None).retrieval) == Failure(LocalImageLoadError(NotFound))
    ensures Handle(ImageReply(images, ImageRetrieval(url), Some(e)).retrieval) == Failure(LocalImageLoadError(Failed))
  {
  }

  class LocalFeedImageDataLoader {
    const store: FeedImageDataStore<ImageContinuation>
    var alive: bool
    var saved: seq<SaveDelivery>
    var calls: nat

    /** `init(store:)`: sends nothing to the store. */
    constructor (store: FeedImageDataStore<ImageContinuation>)
      ensures this.store == store && alive && saved == [] && calls == 0
    {
      this.store := store;
      alive := true;
      saved := [];
      calls := 0;
    }

    /** `loadImageData(from:completion:)`: one retrieve for `url`, and a fresh task. */
    method LoadImageData(url: Url) returns (task: ImageDataLoadTask)
      modifies store
      ensures fresh(task) && task.hasCompletion && task.received == []
      ensures store.images == old(store.images)
      ensures store.messages == old(store.messages) + [ImageRetrieval(url)]
      ensures store.pending == old(store.pending) + [PendingImageRequest(ImageRetrieval(url), LoadAfterRetrieval(task))]
    {
      task := new ImageDataLoadTask();
      store.RetrieveImageData(url, LoadAfterRetrieval(task));
    }

    /** `saveImageData(_:for:completion:)`: one insert, repeated saves included. */
    method SaveImageData(data: Bytes, url: Url) returns (call: nat)
      modifies this, store
      ensures call == old(calls) && calls == old(calls) + 1
      ensures alive == old(alive) && saved == old(saved)
      ensures store.images == old(store.images)
      ensures store.messages == old(store.messages) + [ImageInsertion(data, url)]
      ensures store.pending == old(store.pending) + [PendingImageRequest(ImageInsertion(data, url), SaveAfterInsertion(call))]
    {
      call := calls;
      calls := calls + 1;
      store.InsertImageData(data, url, SaveAfterInsertion(call));
    }

    /** The owner drops its last reference to the loader. */
    method Release()
      modifies this
      ensures !alive && saved == old(saved) && calls == old(calls)
    {
      alive := false;
    }

    /**
     * The store finishes pending request `i` and calls its callback: a live
     * loader hands a retrieval to the task and an insertion to the save's
     * completion; a released one does nothing.
     */
    method CompleteStoreRequest(i: nat, failure: Option<Error>)
      requires i < |store.pending|
      modifies this, store, TaskOf(store.pending[i].callback)
      ensures var request := old(store.pending[i]);
        store.images == ImagesAfter(old(store.images), request.message, failure) &&
        store.messages == old(store.messages) &&
        store.pending == Removed(old(store.pending), i)
      ensures alive == old(alive) && calls == old(calls)
      ensures var request := old(store.pending[i]);
        var reply := ImageReply(old(store.images), request.message, failure);
        request.callback.LoadAfterRetrieval? ==>
          var task := request.callback.task;
          saved == old(saved) &&
          task.hasCompletion == old(task.hasCompletion) &&
          task.received == old(task.received) +
            (if old(alive) && old(task.hasCompletion) && reply.ImageRetrieved? then [Handle(reply.retrieval)] else [])
      ensures var request := old(store.pending[i]);
        var reply := ImageReply(old(store.images), request.message, failure);
        request.callback.SaveAfterInsertion? ==>
          saved == old(saved) +
            (if old(alive) && reply.ImageInserted? then [SaveDelivery(request.callback.call, MapSaveResult(reply.insertion))] else [])
    {
      var callback, reply := store.Complete(i, failure);
      match callback
      case LoadAfterRetrieval(task) =>
        if alive && reply.ImageRetrieved? {
          task.Complete(Handle(reply.retrieval));
        }
      case SaveAfterInsertion(call) =>
        if alive && reply.ImageInserted? {
          saved := saved + [SaveDelivery(call, MapSaveResult(reply.insertion))];
        }
    }
  }

  /** Saving bytes and then loading the same URL delivers those bytes, and the save succeeds. */
  method SaveThenLoad(data: Bytes, url: Url) returns (saveResults: seq<SaveDelivery>, loadResults: seq<ImageDataResult>)
    ensures saveResults == [SaveDelivery(0, Success(()))]
    ensures loadResults == [Success(data)]
  {
    var store := new FeedImageDataStore<ImageContinuation>(map[]);
    var loader := new LocalFeedImageDataLoader(store);
    var call := loader.SaveImageData(data, url);
    loader.CompleteStoreRequest(0, None);
    var task := loader.LoadImageData(url);
    loader.CompleteStoreRequest(0, None);
    saveResults, loadResults := loader.saved, task.received;
  }

  /** A task cancelled before the store answers receives nothing, whatever the store answers. */
  method CancelBeforeRetrieval(images: map<Url, Bytes>, url: Url, failure: Option<Error>)
    returns (messages: seq<ImageStoreMessage>, loadResults: seq<ImageDataResult>)
    ensures messages == [ImageRetrieval(url)]
    ensures loadResults == []
  {
    var store := new FeedImageDataStore<ImageContinuation>(images);
    var loader := new LocalFeedImageDataLoader(store);
    var task := loader.LoadImageData(url);
    task.Cancel();
    task.Cancel();
    loader.CompleteStoreRequest(0, failure);
    messages, loadResults := store.messages, task.received;
  }

  /** A released loader delivers neither a load nor a save result. */
  method ReleasedBeforeStoreAnswers(images: map<Url, Bytes>, data: Bytes, url: Url, failure: Option<Error>)
    returns (saveResults: seq<SaveDelivery>, loadResults: seq<ImageDataResult>, stored: map<Url, Bytes>)
    ensures saveResults == [] && loadResults == []
    ensures stored == (if failure.None? then images[url := data] else images)
  {
    var store := new FeedImageDataStore<ImageContinuation>(images);
    var loader := new LocalFeedImageDataLoader(store);
    var task := loader.LoadImageData(url);
    var call := loader.SaveImageData(data, url);
    loader.Release();
    loader.CompleteStoreRequest(1, failure);
    loader.CompleteStoreRequest(0, failure);
    saveResults, loadResults, stored := loader.saved, task.received, store.images;
  }

  /** Every load and every save reaches the store, in call order; identical saves are not merged. */
  method RepeatedCalls(data: Bytes, url: Url, otherURL: Url) returns (messages: seq<ImageStoreMessage>)
    ensures messages == [ImageRetrieval(url), ImageRetrieval(otherURL), ImageInsertion(data, url), ImageInsertion(data, url)]
  {
    var store := new FeedImageDataStore<ImageContinuation>(map[]);
    var loader := new LocalFeedImageDataLoader(store);
    var first := loader.LoadImageData(url);
    var second := loader.LoadImageData(otherURL);
    var save1 := loader.SaveImageData(data, url);
    var save2 := loader.SaveImageData(data, url);
    messages := store.messages;
  }

  /** Cancelling twice leaves the task as cancelling once does. */
  method CancelIsIdempotent(result: ImageDataResult) returns (once: (bool, seq<ImageDataResult>), twice: (bool, seq<ImageDataResult>))
    ensures once == twice == (false, [])
  {
    var a := new ImageDataLoadTask();
    a.Cancel();
    a.Complete(result);
    once := (a.hasCompletion, a.received);
    var b := new ImageDataLoadTask();
    b.Cancel();
    b.Cancel();
    b.Complete(result);
    twice := (b.hasCompletion, b.received);
  }
}
