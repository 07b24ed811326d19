/** The decoded records of src/main.rs (`Search`, `SearchElement`, `Select`,
    `SelectEpisode`, `Episode`, `Source`) and the ways a request can fail.
    JSON decoding itself is not modelled: these values are what
    `serde_json::from_str` would produce. */
module Records {
  import opened Wrappers
  import opened Decimal

  /** One search hit; `subOrDub` is the language track, `"sub"` or `"dub"`. */
  datatype SearchElement = SearchElement(id: string, title: string, subOrDub: string)

  /** Body of the upstream search endpoint. */
  datatype Search = Search(results: seq<SearchElement>)

  /** One episode of a series. `number` is an `f32` upstream; here it is the
      text its `Display` implementation prints, supplied with the record. */
  datatype SelectEpisode = SelectEpisode(id: string, number: string)

  /** Body of the upstream `info/<id>` endpoint. */
  datatype Select = Select(
    title: string,
    image: string,
    releaseDate: Option<string>,
    description: Option<string>,
    status: string,
    totalEpisodes: u8,
    episodes: seq<SelectEpisode>)

  /** One playable stream of an episode and its quality label. */
  datatype Source = Source(url: string, quality: string)

  /** Body of the upstream `watch/<id>` endpoint. */
  datatype Episode = Episode(sources: seq<Source>)

  /** Every way a request ends without a fragment. In the gateway each of
      these is a `panic!` or a failing `unwrap()`/index. */
  datatype Failure =
    | UnreadableForm      // body is not form-encoded pairs: "error reading request headers"
    | EmptyForm           // no pair at all: `request[0]` is out of bounds
    | InvalidRequestType  // first key is not the route's key: "invalid request type"
    | ApiUnreachable      // the upstream GET failed: "error getting API response"
    | ApiBodyUnreadable   // the upstream body is not text: "error deserializing"
    | MalformedJson       // the body does not have the expected shape: `serde_json` `unwrap()`
    | NoSource            // no source survives selection: `sources[0]` is out of bounds
}
