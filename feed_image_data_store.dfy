/**
 * FeedImageDataStore.swift: per-URL blob storage, modelled as an in-memory
 * map that logs every message and keeps each request's callback pending until
 * the environment resolves it. An insert overwrites whatever the URL held.
 */
module ImageDataStores {
  import opened Wrappers
  import opened FeedFeature

  datatype ImageStoreMessage =
    | ImageRetrieval(url: Url)
    | ImageInsertion(data: Bytes, url: Url)

  datatype ImageStoreReply =
    | ImageRetrieved(retrieval: Result<Option<Bytes>, Error>)
    | ImageInserted(insertion: Completion)

  datatype PendingImageRequest<K> = PendingImageRequest(message: ImageStoreMessage, callback: K)

  /** What the store answers to `message` when it holds `images`; `failure` is the error it meets, if any. */
  function ImageReply(images: map<Url, Bytes>, message: ImageStoreMessage, failure: Option<Error>): (r: ImageStoreReply)
    ensures r.ImageRetrieved? <==> message.ImageRetrieval?
    ensures r.ImageInserted? ==> r.insertion == CompletionOf(failure)
    ensures r.ImageRetrieved? && failure.Some? ==> r.retrieval == Failure(failure.value)
    ensures r.ImageRetrieved? && failure.None? ==>
      r.retrieval == Success(if message.url in images then Some(images[message.url]) else None)
  {
    match message
    case ImageRetrieval(url) =>
      ImageRetrieved(
        match failure
        case Some(e) => Failure(e)
        case None => Success(if url in images then Some(images[url]) else None))
    case ImageInsertion(_, _) => ImageInserted(CompletionOf(failure))
  }

  /** The blobs after the store handled `message`: only a successful insert changes them. */
  function ImagesAfter(images: map<Url, Bytes>, message: ImageStoreMessage, failure: Option<Error>): (m: map<Url, Bytes>)
    ensures failure.Some? || message.ImageRetrieval? ==> m == images
    ensures failure.None? && message.ImageInsertion? ==> m == images[message.url := message.data]
  {
    if failure.None? && message.ImageInsertion? then images[message.url := message.data] else images
  }

  class FeedImageDataStore<K> {
    var images: map<Url, Bytes>
    var messages: seq<ImageStoreMessage>
    var pending: seq<PendingImageRequest<K>>

    constructor (images: map<Url, Bytes>)
      ensures this.images == images && messages == [] && pending == []
    {
      this.images := images;
      messages := [];
      pending := [];
    }

    /** `retrieveImageData(for:completion:)`. */
    method RetrieveImageData(url: Url, callback: K)
      modifies this
      ensures images == old(images)
      ensures messages == old(messages) + [ImageRetrieval(url)]
      ensures pending == old(pending) + [PendingImageRequest(ImageRetrieval(url), callback)]
    {
      messages := messages + [ImageRetrieval(url)];
      pending := pending + [PendingImageRequest(ImageRetrieval(url), callback)];
    }

    /** `insertImageData(_:for:completion:)`. */
    method InsertImageData(data: Bytes, url: Url, callback: K)
      modifies this
      ensures images == old(images)
      ensures messages == old(messages) + [ImageInsertion(data, url)]
      ensures pending == old(pending) + [PendingImageRequest(ImageInsertion(data, url), callback)]
    {
      messages := messages + [ImageInsertion(data, url)];
      pending := pending + [PendingImageRequest(ImageInsertion(data, url), callback)];
    }

    /** The store finishes the `i`-th pending request and hands back its callback and reply. */
    method Complete(i: nat, failure: Option<Error>) returns (callback: K, reply: ImageStoreReply)
      requires i < |pending|
      modifies this
      ensures callback == old(pending[i].callback)
      ensures reply == ImageReply(old(images), old(pending[i].message), failure)
      ensures images == ImagesAfter(old(images), old(pending[i].message), failure)
      ensures messages == old(messages)
      ensures pending == Removed(old(pending), i)
    {
      var request := pending[i];
      callback := request.callback;
      reply := ImageReply(images, request.message, failure);
      images := ImagesAfter(images, request.message, failure);
      pending := Removed(pending, i);
    }
  }
}
