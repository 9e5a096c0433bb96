/** FeedItemsMapper.swift and RemoteFeedItem.swift: turning a feed response into remote items. */
module FeedItemsMapper {
  import opened Wrappers
  import opened FeedFeature
  import opened HttpClients

  /** `RemoteFeedItem`: one entry of the payload; the image address is called `image` there. */
  datatype RemoteFeedItem = RemoteFeedItem(id: Uuid, image: Url, description: Option<string>, location: Option<string>)

  const OK_200: int := 200

  /**
   * `JSONDecoder().decode(Items.self, from:)` followed by `.items`: a library
   * decoder the model cannot see, so it is a parameter; `None` is a body that
   * does not decode.
   */
  type Decoder = Bytes -> Option<seq<RemoteFeedItem>>

  /** `map(data:from:)`: the decoded items of a 200 response, `invalidData` otherwise. */
  function Map(decode: Decoder, data: Bytes, response: HttpResponse): (r: Result<seq<RemoteFeedItem>, Error>)
    ensures r.Success? <==> response.statusCode == OK_200 && decode(data).Some?
    ensures r.Success? ==> r.value == decode(data).value
    ensures r.Failure? ==> r.error == RemoteFeedError(InvalidData)
  {
    if response.statusCode != OK_200 then Failure(RemoteFeedError(InvalidData))
    else match decode(data)
      case None => Failure(RemoteFeedError(InvalidData))
      case Some(items) => Success(items)
  }

  /** Whatever the body, a status other than 200 is `invalidData`, and `{"items": []}` with 200 is the empty list. */
  lemma MapStatusGate(decode: Decoder, data: Bytes, response: HttpResponse)
    ensures response.statusCode != OK_200 ==> Map(decode, data, response) == Failure(RemoteFeedError(InvalidData))
    ensures response.statusCode == OK_200 && decode(data) == Some([]) ==> Map(decode, data, response) == Success([])
  {
  }
}
