/**
 * The domain entities shared by every loader: the feed image (FeedImage.swift),
 * the time, address and byte types, and the error kinds the loaders report.
 */
module FeedFeature {
  import opened Wrappers

  /** A point in time, in whole seconds (Foundation's `Date`). */
  type Timestamp = int

  /** A `URL`; only compared for equality. */
  type Url = string

  /** A `UUID`; only compared for equality. */
  type Uuid = string

  /** Foundation's `Data`. */
  type Bytes = seq<bv8>

  /** One feed entry. Two images are equal exactly when all four fields are. */
  datatype FeedImage = FeedImage(id: Uuid, url: Url, description: Option<string>, location: Option<string>)

  /** The cases of `RemoteFeedLoader.Error` and of `RemoteFeedImageLoader.Error`. */
  datatype RemoteError = Connectivity | InvalidData

  /** `LocalFeedImageDataLoader.LoadError`. */
  datatype LoadError = Failed | NotFound

  /** `LocalFeedImageDataLoader.SaveError`, whose only case is `failed`. */
  datatype SaveError = SaveFailed

  /**
   * Swift's existential `Error`: either an error a collaborator reported
   * (a store or the transport), carried unchanged, or one of the loaders' own kinds.
   */
  datatype Error =
    | Reported(code: int)
    | RemoteFeedError(remote: RemoteError)
    | RemoteImageError(remote: RemoteError)
    | LocalImageLoadError(load: LoadError)
    | LocalImageSaveError(save: SaveError)

  /** `FeedLoader.Result`. */
  type FeedResult = Result<seq<FeedImage>, Error>

  /** `FeedImageDataLoader.Result`. */
  type ImageDataResult = Result<Bytes, Error>

  /** `Result<Void, Error>`: the outcome of a save, an insert, a delete or a cache validation. */
  type Completion = Result<(), Error>

  /** The completion a collaborator reports when it failed with `failure`, or succeeded when that is `None`. */
  function CompletionOf(failure: Option<Error>): (r: Completion)
    ensures r.Success? <==> failure.None?
    ensures r.Failure? ==> r.error == failure.value
  {
    match failure
    case None => Success(())
    case Some(e) => Failure(e)
  }

  /** `s` with the element at index `i` taken out, the rest in order. */
  function Removed<T>(s: seq<T>, i: nat): (r: seq<T>)
    requires i < |s|
    ensures |r| == |s| - 1
    ensures forall j :: 0 <= j < i ==> r[j] == s[j]
    ensures forall j :: i <= j < |r| ==> r[j] == s[j + 1]
  {
    s[..i] + s[i + 1..]
  }
}
