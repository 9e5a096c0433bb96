# Feed client: caching and loading orchestration, modelled in Dafny

This project models the layer of the Feedfetcher iOS client that decides, for
the image feed and for individual image payloads, when to trust the local
cache, when to overwrite or invalidate it, and how remote results are mapped:

- `FeedCachePolicy` (feed_cache_policy.dfy): a cached feed is fresh when its
  timestamp is strictly later than seven days before now.
- `LocalFeedLoading` (local_feed_loader.dfy): `LocalFeedLoader.save`
  (delete, then insert with the injected current date), `load` (retrieve,
  serve only a fresh cache) and `validateCache` (retrieve, then delete a
  failed or stale cache), with `mapToLocal`/`mapToModel`.
- `LocalImageDataLoading` (local_feed_image_data_loader.dfy):
  `LocalFeedImageDataLoader` with its cancellable `ImageDataLoadTask`.
- `FeedItemsMapper` and `RemoteFeedLoading` (feed_items_mapper.dfy,
  remote_feed_loader.dfy): the status gate, the decode and the mapping of
  remote items to feed images.
- `RemoteImageLoading` (remote_feed_image_loader.dfy): `RemoteFeedImageLoader`
  and `RemoteFeedImageTask`, which forwards `cancel()` to the HTTP task.

The collaborators are small classes. `FeedStores.FeedStore`,
`ImageDataStores.FeedImageDataStore` and `HttpClients.HttpClient` stand for the
protocols in FeedStore.swift, FeedImageDataStore.swift and HTTPClient.swift.
Each one logs the messages it receives and keeps every request's callback
pending. The environment then resolves a chosen request, with success or with
an error. The stores keep their contents in memory: at most one cached feed,
and one blob per URL.

Asynchrony is modelled as explicit steps. A loader call only sends a message
and registers a callback. A separate method (`CompleteStoreRequest`,
`ClientCompletes`) plays the collaborator finishing request `i` and running
that callback. The source's callbacks capture the loader with `[weak self]`.
Each loader has an `alive` flag for that, cleared by `Release()`. What the
callers' completion closures receive is appended to a log: `delivered`,
`saved`, or a task's `received`. "No completion" therefore means the log did
not change.

The local feed loader is specified twice. Pure functions on a `LoaderState`
(`AfterSave`, `AfterLoad`, `AfterValidateCache`, `AfterRelease`,
`AfterResolve`) describe the behaviour. The `LocalFeedLoader` class is proved to
move its state exactly as those functions say, and the lemmas are stated on
the functions.

Two details of the source shape the model:
- `FeedCachePolicy.validate(_:against:)` (FeedCachePolicy.swift:16-22)
  subtracts seven calendar days through a Gregorian calendar and treats a
  calendar failure as stale. The calendar is a parameter of `ValidateUsing`;
  the loaders use fixed 86400-second days.
- `ImageDataLoadTask.complete(with:)` (LocalFeedImageDataLoader.swift:62-64)
  and `RemoteFeedImageTask.complete(with:)` (RemoteFeedImageLoader.swift:63-65)
  do not clear the completion slot after delivering; only `cancel()` clears it.
  The model assumes that the store and the HTTP client call each completion at
  most once: a resolved request leaves `pending`. Under that assumption a task
  is handed at most one result. The protocols themselves do not promise this
  (see "## Left out").

## Model

| member | source | states |
|---|---|---|
| `FeedCachePolicy.ValidateUsing` | Feedfetcher/FeedFetcherCache/FeedCachePolicy.swift:16-22 | Valid exactly when the calendar can form "seven days before" and the timestamp is strictly later than that date. When the calendar cannot, the cache is never valid. |
| `FeedCachePolicy.Validate` | Feedfetcher/FeedFetcherCache/FeedCachePolicy.swift:12-22 | Valid exactly when the timestamp is strictly later than now minus 7 × 86400 seconds. |
| `FeedCachePolicy.BoundaryIsInvalid` | Feedfetcher/FeedFetcherCache/FeedCachePolicy.swift:21 | A timestamp exactly seven days old is stale. |
| `FeedCachePolicy.OneSecondFromBoundary` | Feedfetcher/FeedFetcherCacheTests/LoadFeedFromCacheUseCaseTests.swift:44-81 | One second after the boundary is fresh; one second before it is stale. |
| `FeedCachePolicy.ValidateMonotone` | Feedfetcher/FeedFetcherCache/FeedCachePolicy.swift:21 | For any calendar, a timestamp later than a valid one is valid too. |
| `FeedCachePolicy.NowIsValid` | Feedfetcher/FeedFetcherCache/FeedCachePolicy.swift:17-21 | A cache stamped with the current date is fresh. |
| `FeedStores.Reply` | Feedfetcher/FeedFetcherCache/FeedStore.swift:9-24 | A reply has the kind of its request. A failure is reported as is. A successful retrieve returns what the store holds. |
| `FeedStores.CacheAfter` | Feedfetcher/FeedFetcherCache/FeedStore.swift:19-23 | A failed operation leaves the cache alone. A delete empties it. An insert replaces it with the new feed and timestamp. |
| `FeedStores.FeedStore.DeleteCachedFeed` | Feedfetcher/FeedFetcherCache/FeedStore.swift:19 | Records one delete and keeps its completion pending; the cache is untouched until the store answers. |
| `FeedStores.FeedStore.Insert` | Feedfetcher/FeedFetcherCache/FeedStore.swift:21 | Records one insert of exactly that feed and timestamp and keeps its completion pending; the cache is untouched until the store answers. |
| `FeedStores.FeedStore.RetrieveCachedFeed` | Feedfetcher/FeedFetcherCache/FeedStore.swift:23 | Records one retrieve and keeps its completion pending; the cache is untouched. |
| `FeedStores.FeedStore.Complete` | Feedfetcher/FeedFetcherCache/FeedStore.swift:19-23 | Finishing request `i` returns its callback and reply, applies the operation, and removes only that request. |
| `LocalFeedLoading.MapToLocal` | Feedfetcher/FeedFetcherCache/LocalFeedLoader.swift:80-90 | Same length; element j copies id, url, description and location of image j. |
| `LocalFeedLoading.MapToModel` | Feedfetcher/FeedFetcherCache/LocalFeedLoader.swift:92-102 | Same length; element j copies the four fields of local image j. |
| `LocalFeedLoading.MapRoundTrip` | Feedfetcher/FeedFetcherCache/LocalFeedLoader.swift:80-102 | Mapping to local and back gives the original feed. |
| `LocalFeedLoading.LoadDecision` | Feedfetcher/FeedFetcherCache/LocalFeedLoader.swift:50-57 | A retrieval error is passed on unchanged. An empty store gives `[]`. A cached feed gives its items when stamped later than now minus 7 × 86400 seconds, and `[]` otherwise. |
| `LocalFeedLoading.ValidationDeletes` | Feedfetcher/FeedFetcherCache/LocalFeedLoader.swift:68-75 | `validateCache` deletes exactly when retrieval failed or the cached feed is seven or more days old. |
| `LocalFeedLoading.LoadServesWhatValidationKeeps` | Feedfetcher/FeedFetcherCache/LocalFeedLoader.swift:50-75 | For a cached feed, `load` serves it when `validateCache` would keep it and serves `[]` when it would delete it. |
| `LocalFeedLoading.React` | Feedfetcher/FeedFetcherCache/LocalFeedLoader.swift:21-76 | A callback that runs on the reply it was registered for either completes its own call once, with the result of its own operation, or sends exactly one follow-up: the insert of the mapped feed stamped `now` after a save's delete, or `validateCache`'s delete. It never does both. A callback runs when the loader lives, or when it is `validateCache`'s delete completion. |
| `LocalFeedLoading.ReleasedGuardedIsSilent` | Feedfetcher/FeedFetcherCache/LocalFeedLoader.swift:22-67 | Once the loader is gone, every `[weak self]`-guarded callback delivers nothing and sends nothing. |
| `LocalFeedLoading.LoadResolves` | Feedfetcher/FeedFetcherCache/LocalFeedLoader.swift:47-59 | `load` sends one retrieve and never a delete or insert. It leaves the store unchanged and completes once with the load decision, only while the loader lives. |
| `LocalFeedLoading.SaveWhenDeletionFails` | Feedfetcher/FeedFetcherCache/LocalFeedLoader.swift:21-31 | If the delete fails, `save` completes with that error and sends no insert. |
| `LocalFeedLoading.SaveWhenDeletionSucceeds` | Feedfetcher/FeedFetcherCache/LocalFeedLoader.swift:21-43 | After a successful delete, exactly one insert of the mapped feed is sent, stamped with the time the delete came back. `save` completes with the insert's outcome. If the insert fails, the store is left empty. |
| `LocalFeedLoading.ValidateCacheResolves` | Feedfetcher/FeedFetcherCache/LocalFeedLoader.swift:65-76 | A delete is sent exactly when retrieval failed or the feed is stale. Otherwise `validateCache` completes with success and sends nothing more. |
| `LocalFeedLoading.ValidationDeletionAlwaysCompletes` | Feedfetcher/FeedFetcherCache/LocalFeedLoader.swift:68-72 | The delete sent by `validateCache` carries the caller's completion directly, so its outcome is delivered even after the loader is released. |
| `LocalFeedLoading.SaveThenLoadWhileFresh` | Feedfetcher/FeedFetcherCache/LocalFeedLoader.swift:21-59 | Saving a feed and loading it while fresh delivers save success, then the same feed in the same order. |
| `LocalFeedLoading.ReleasedLoaderStaysSilent` | Feedfetcher/FeedFetcherCache/LocalFeedLoader.swift:21-76 | After release, with no `validateCache` delete outstanding, no sequence of store resolutions delivers a completion or sends a message. |
| `LocalFeedLoading.LocalFeedLoader.constructor` | Feedfetcher/FeedFetcherCache/LocalFeedLoader.swift:12-15 | Creating a loader sends nothing to the store. |
| `LocalFeedLoading.LocalFeedLoader.Save` | Feedfetcher/FeedFetcherCache/LocalFeedLoader.swift:21-22 | `save` sends only a delete at first; the state moves as `AfterSave`. |
| `LocalFeedLoading.LocalFeedLoader.Load` | Feedfetcher/FeedFetcherCache/LocalFeedLoader.swift:47-48 | `load` sends one retrieve; the state moves as `AfterLoad`. |
| `LocalFeedLoading.LocalFeedLoader.ValidateCache` | Feedfetcher/FeedFetcherCache/LocalFeedLoader.swift:65-66 | `validateCache` sends one retrieve; the state moves as `AfterValidateCache`. |
| `LocalFeedLoading.LocalFeedLoader.Release` | Feedfetcher/FeedFetcherCache/LocalFeedLoader.swift:22-23 | The owner releasing the loader only marks it gone. |
| `LocalFeedLoading.LocalFeedLoader.CompleteStoreRequest` | Feedfetcher/FeedFetcherCache/LocalFeedLoader.swift:21-76 | Running the callbacks of `save`, `cache`, `load` and `validateCache` moves the state exactly as `AfterResolve`. |
| `ImageDataStores.FeedImageDataStore.RetrieveImageData` | Feedfetcher/FeedFetcherCache/FeedImageDataStore.swift:11 | Records one retrieve for the URL and keeps its completion pending; the blobs are untouched. |
| `ImageDataStores.FeedImageDataStore.InsertImageData` | Feedfetcher/FeedFetcherCache/FeedImageDataStore.swift:12 | Records one insert of exactly that data for the URL and keeps its completion pending; the blobs are untouched until the store answers. |
| `ImageDataStores.FeedImageDataStore.Complete` | Feedfetcher/FeedFetcherCache/FeedImageDataStore.swift:11-12 | Finishing request `i` returns its callback and its reply, applies a successful insert, and removes only that request. |
| `ImageDataStores.ImageReply` | Feedfetcher/FeedFetcherCache/FeedImageDataStore.swift:7-13 | A retrieve returns the URL's bytes, `nil` if none, or the store's error. An insert reports success or its error. |
| `ImageDataStores.ImagesAfter` | Feedfetcher/FeedFetcherCache/FeedImageDataStore.swift:12 | Only a successful insert changes the blobs, and it overwrites the URL's entry. |
| `LocalImageDataLoading.ImageDataLoadTask.constructor` | Feedfetcher/FeedFetcherCache/LocalFeedImageDataLoader.swift:54-56 | A new task holds its completion and has delivered nothing. |
| `LocalImageDataLoading.ImageDataLoadTask.Cancel` | Feedfetcher/FeedFetcherCache/LocalFeedImageDataLoader.swift:58-68 | `cancel()` empties the completion slot and delivers nothing. |
| `LocalImageDataLoading.ImageDataLoadTask.Complete` | Feedfetcher/FeedFetcherCache/LocalFeedImageDataLoader.swift:62-64 | `complete(with:)` delivers the result exactly when the slot is filled. |
| `LocalImageDataLoading.Handle` | Feedfetcher/FeedFetcherCache/LocalFeedImageDataLoader.swift:37-47 | Any store error becomes `failed`. Stored `nil` becomes `notFound`. Stored data is delivered as is. |
| `LocalImageDataLoading.MapSaveResult` | Feedfetcher/FeedFetcherCache/LocalFeedImageDataLoader.swift:85 | Insert success is save success. Any insert error becomes `SaveError.failed`. |
| `LocalImageDataLoading.SavedDataLoadsBack` | Feedfetcher/FeedFetcherCache/LocalFeedImageDataLoader.swift:40-46 | After a successful insert, loading the URL gives exactly the saved bytes, zero-length data included. |
| `LocalImageDataLoading.MissingDataIsNotFound` | Feedfetcher/FeedFetcherCache/LocalFeedImageDataLoader.swift:37-47 | A URL with no stored bytes loads as `notFound`; a failed retrieve loads as `failed`. |
| `LocalImageDataLoading.LocalFeedImageDataLoader.constructor` | Feedfetcher/FeedFetcherCache/LocalFeedImageDataLoader.swift:11-13 | Creating the loader sends nothing. |
| `LocalImageDataLoading.LocalFeedImageDataLoader.LoadImageData` | Feedfetcher/FeedFetcherCache/LocalFeedImageDataLoader.swift:24-35 | Sends exactly one retrieve for the URL and returns a fresh task with its completion in place. |
| `LocalImageDataLoading.LocalFeedImageDataLoader.SaveImageData` | Feedfetcher/FeedFetcherCache/LocalFeedImageDataLoader.swift:81-82 | Sends exactly one insert of the data for the URL. |
| `LocalImageDataLoading.LocalFeedImageDataLoader.Release` | Feedfetcher/FeedFetcherCache/LocalFeedImageDataLoader.swift:28 | The owner releasing the loader only marks it gone. |
| `LocalImageDataLoading.LocalFeedImageDataLoader.CompleteStoreRequest` | Feedfetcher/FeedFetcherCache/LocalFeedImageDataLoader.swift:27-88 | A live loader passes the handled retrieval to the task, or the mapped insert result to the save completion. A released loader delivers nothing. No other task is touched. |
| `LocalImageDataLoading.SaveThenLoad` | Feedfetcher/FeedFetcherCache/LocalFeedImageDataLoader.swift:24-89 | Saving bytes and loading the same URL gives save success and then exactly those bytes. |
| `LocalImageDataLoading.CancelBeforeRetrieval` | Feedfetcher/FeedFetcherCache/LocalFeedImageDataLoader.swift:58-68 | A task cancelled before the store answers receives nothing, whatever the answer. The store still received the retrieve. |
| `LocalImageDataLoading.ReleasedBeforeStoreAnswers` | Feedfetcher/FeedFetcherCache/LocalFeedImageDataLoader.swift:27-87 | A released loader delivers neither load nor save results, while the store still performs the insert. |
| `LocalImageDataLoading.RepeatedCalls` | Feedfetcher/FeedFetcherCacheTests/CacheFeedImageDataUseCaseTests.swift:40-49 | Loads and saves reach the store in call order, and identical saves are not de-duplicated. |
| `LocalImageDataLoading.CancelIsIdempotent` | Feedfetcher/FeedFetcherCache/LocalFeedImageDataLoader.swift:58-68 | Cancelling twice leaves the same state as cancelling once. |
| `HttpClients.HttpClient.Get` | Feedfetcher/FeedFetcherAPI/HTTPClient.swift:11-16 | Records the requested URL and returns that request's task. |
| `HttpClients.HttpClientTask.Cancel` | Feedfetcher/FeedFetcherAPI/HTTPClient.swift:7-9 | Records that its request was cancelled. |
| `FeedItemsMapper.Map` | Feedfetcher/FeedFetcherAPI/FeedItemsMapper.swift:14-20 | Success exactly for status 200 with a body that decodes, and then the decoded items unchanged. Otherwise `invalidData`. |
| `FeedItemsMapper.MapStatusGate` | Feedfetcher/FeedFetcherAPITests/RemoteFeedLoaderTests.swift:45-72 | A non-200 status is `invalidData` whatever the body. A 200 whose body decodes to no items gives the empty list. |
| `RemoteFeedLoading.MapToItems` | Feedfetcher/FeedFetcherAPI/RemoteFeedLoader.swift:48-58 | Same length and order; element j copies id, `image` as url, description and location. |
| `RemoteFeedLoading.MapResponse` | Feedfetcher/FeedFetcherAPI/RemoteFeedLoader.swift:38-45 | Success exactly for status 200 with a body that decodes, and then the decoded items mapped to feed images. Otherwise the mapper's `invalidData`. |
| `RemoteFeedLoading.LoadOutcome` | Feedfetcher/FeedFetcherAPI/RemoteFeedLoader.swift:24-45 | A transport failure is `connectivity`. A 200 that decodes gives the mapped items. Anything else passes on the mapper's `invalidData`. |
| `RemoteFeedLoading.LoadKeepsItems` | Feedfetcher/FeedFetcherAPI/RemoteFeedLoader.swift:38-58 | A decodable 200 response gives as many images as remote items, in order. An empty payload is a successful empty feed. |
| `RemoteFeedLoading.RemoteFeedLoader.constructor` | Feedfetcher/FeedFetcherAPI/RemoteFeedLoader.swift:19-22 | Creating the loader requests nothing. |
| `RemoteFeedLoading.RemoteFeedLoader.Load` | Feedfetcher/FeedFetcherAPI/RemoteFeedLoader.swift:24-25 | Each `load` issues exactly one GET of the configured URL. |
| `RemoteFeedLoading.RemoteFeedLoader.Release` | Feedfetcher/FeedFetcherAPI/RemoteFeedLoader.swift:26 | The owner releasing the loader only marks it gone. |
| `RemoteFeedLoading.RemoteFeedLoader.ClientCompletes` | Feedfetcher/FeedFetcherAPI/RemoteFeedLoader.swift:25-35 | A live loader delivers the mapped transport result once. A released loader delivers nothing. |
| `RemoteFeedLoading.LoadTwice` | Feedfetcher/FeedFetcherAPITests/RemoteFeedLoaderTests.swift:26-34 | Two loads issue two requests for the configured URL. |
| `RemoteFeedLoading.ReleasedBeforeResponse` | Feedfetcher/FeedFetcherAPI/RemoteFeedLoader.swift:25-31 | A live loader delivers exactly one result; after release the same response delivers nothing. |
| `RemoteImageLoading.Handle` | Feedfetcher/FeedFetcherAPI/RemoteFeedImageLoader.swift:31-39 | A transport failure is `connectivity`. A valid response gives its bytes. Any other response is `invalidData`. |
| `RemoteImageLoading.HandleYieldsDataExactly` | Feedfetcher/FeedFetcherAPI/RemoteFeedImageLoader.swift:31-45 | Bytes are delivered exactly for status 200 with a non-empty body, which is what `isValid` (`RemoteImageLoading.IsValid`) checks. They are then delivered unchanged. |
| `RemoteImageLoading.RemoteFeedImageTask.constructor` | Feedfetcher/FeedFetcherAPI/RemoteFeedImageLoader.swift:54-56 | A new task holds its completion and has no HTTP task yet. |
| `RemoteImageLoading.RemoteFeedImageTask.Cancel` | Feedfetcher/FeedFetcherAPI/RemoteFeedImageLoader.swift:58-61 | `cancel()` cancels the wrapped HTTP request, when there is one, and empties the completion slot. |
| `RemoteImageLoading.RemoteFeedImageTask.Complete` | Feedfetcher/FeedFetcherAPI/RemoteFeedImageLoader.swift:63-65 | `complete(with:)` delivers the result exactly when the slot is filled. |
| `RemoteImageLoading.RemoteFeedImageLoader.constructor` | Feedfetcher/FeedFetcherAPI/RemoteFeedImageLoader.swift:16-18 | Creating the loader requests nothing. |
| `RemoteImageLoading.RemoteFeedImageLoader.LoadImageData` | Feedfetcher/FeedFetcherAPI/RemoteFeedImageLoader.swift:20-29 | Issues exactly one GET of the URL and returns a fresh task wrapping that request. |
| `RemoteImageLoading.RemoteFeedImageLoader.Release` | Feedfetcher/FeedFetcherAPI/RemoteFeedImageLoader.swift:23 | The owner releasing the loader only marks it gone. |
| `RemoteImageLoading.RemoteFeedImageLoader.ClientCompletes` | Feedfetcher/FeedFetcherAPI/RemoteFeedImageLoader.swift:22-27 | A live loader hands the handled result to the task that made the request. A released loader hands it nothing. |
| `RemoteImageLoading.CancelForwardsToClient` | Feedfetcher/FeedFetcherAPITests/RemoteFeedImageLoaderTests.swift:85-94 | No request is cancelled before `cancel()`. Afterwards exactly the task's request is. |
| `RemoteImageLoading.CancelledTaskStaysSilent` | Feedfetcher/FeedFetcherAPI/RemoteFeedImageLoader.swift:58-69 | After `cancel()` nothing is delivered, whatever the transport reports. |
| `RemoteImageLoading.ReleasedBeforeResponse` | Feedfetcher/FeedFetcherAPI/RemoteFeedImageLoader.swift:22-27 | A live loader delivers the handled result once; a released one delivers nothing. |

## Left out

- `FeedCachePolicy.Validate`: uses days of exactly 86400 seconds. It does not model Gregorian calendar arithmetic, where a day can be longer or shorter across a daylight-saving change. A calendar that fails is covered only through the `ValidateUsing` parameter.
- Timestamps are whole seconds, not floating-point `Date` values.
- The injected `currentDate` closure is the `now` argument of each callback step: the value the closure returns while that callback runs.
- The Core Data store (CoreDataFeedStore and its extensions, ManagedCache, ManagedFeedImage) is replaced by in-memory stores.
- The real `insertImageData` only updates an image row that already exists. The model's store overwrites or adds the URL's entry instead.
- A failed store operation leaves the store's contents unchanged.
- Store and HTTP requests each resolve at most once: `Complete` removes the request from `pending`. The protocols (FeedStore.swift:19-23, FeedImageDataStore.swift:11-12, HTTPClient.swift:15) do not promise this, and the test doubles can complete one request repeatedly. Because the image tasks do not clear their completion slot after delivering, repeated calls to a completion would hand a task that was not cancelled one result per call. The model does not represent that repetition.
- URLSessionHttpClient is replaced by a client that records requested and cancelled URLs. A cancelled request can still deliver a result, as the test double allows.
- JSON decoding is the `Decoder` parameter. UUID and URL parsing are left out; identifiers and URLs are strings compared for equality.
- `LocalFeedImage` is defined in LocalFeedImage.swift, which is not part of this model. Its shape is taken from how LocalFeedLoader.swift:83-87 builds it.
- ARC and weak references are only the `alive` flag. Threads, dispatch queues and `context.perform` are not modelled. Requests resolve in whatever order the environment picks.
- Presentation and UI code (FeedPresenter and the view models) is not modelled.
