/** The four POST handlers of src/main.rs (`index`, `select`, `info`,
    `search`) after the request body has been read and form-decoded, and the
    URL `searchapi` fetches. Every `panic!` after the body has been read
    becomes a `Failure`. */
module Dispatch {
  import opened Wrappers
  import opened Seqs
  import opened Records
  import opened SearchFilter
  import opened Sources
  import opened OptionsHtml
  import opened Fragments

  datatype Route = IndexRoute | SelectRoute | InfoRoute | SearchRoute

  /** One decoded `key=value` pair of the form body. */
  type Pair = (string, string)

  /** The upstream metadata API every request goes to. */
  const ApiBase: string := "http://localhost:3000/anime/gogoanime/"

  /** The key the first form pair must carry on each route. The info route
      shares the select route's key. */
  function ExpectedKey(route: Route): (r: string)
    ensures r == "index" <==> route == IndexRoute
    ensures r == "select" <==> route == SelectRoute || route == InfoRoute
    ensures r == "searchbox" <==> route == SearchRoute
  {
    match route
    case IndexRoute => "index"
    case SelectRoute => "select"
    case InfoRoute => "select"
    case SearchRoute => "searchbox"
  }

  /** The argument of a request: the value of the first decoded pair, which
      must carry the route's key. Pairs after the first are never looked at.
      `form` is `None` when the body is not form-encoded pairs. */
  function RequestArgument(route: Route, form: Option<seq<Pair>>): (r: Result<string, Failure>)
    ensures r.Success? <==> form.Some? && |form.value| > 0 && form.value[0].0 == ExpectedKey(route)
    ensures r.Success? ==> r.value == form.value[0].1
    ensures form.None? ==> r == Failure(UnreadableForm)
    ensures form == Some([]) ==> r == Failure(EmptyForm)
    ensures form.Some? && |form.value| > 0 && form.value[0].0 != ExpectedKey(route) ==> r == Failure(InvalidRequestType)
  {
    match form
    case None => Failure(UnreadableForm)
    case Some(request) =>
      if |request| == 0 then Failure(EmptyForm)
      else if request[0].0 == ExpectedKey(route) then Success(request[0].1)
      else Failure(InvalidRequestType)
  }

  /** The path under `ApiBase` a route asks for: the episode's sources, the
      series' info (select and info alike), or the raw search text. */
  function UpstreamPath(route: Route, arg: string): (r: string)
    ensures |arg| <= |r| && r[|r| - |arg|..] == arg
    ensures route == IndexRoute ==> r[..|r| - |arg|] == "watch/"
    ensures route == SelectRoute || route == InfoRoute ==> r[..|r| - |arg|] == "info/"
    ensures route == SearchRoute ==> r == arg
  {
    match route
    case IndexRoute => "watch/" + arg
    case SelectRoute => "info/" + arg
    case InfoRoute => "info/" + arg
    case SearchRoute => arg
  }

  /** The URL `searchapi` requests: `ApiBase` followed by the path. */
  function ApiUrl(path: string): (r: string)
    ensures |r| == |ApiBase| + |path|
    ensures r[..|ApiBase|] == ApiBase
    ensures r[|ApiBase|..] == path
  {
    ApiBase + path
  }

  /** The three typed readings of one upstream body; `None` where
      `serde_json` rejects the body for that shape. */
  datatype Reply = Reply(search: Option<Search>, select: Option<Select>, episode: Option<Episode>)

  /** What the upstream GET yields: a transport error, a body that is not
      text, or a text body. */
  datatype Upstream = Unreachable | Unreadable | Body(reply: Reply)

  /** `searchapi` followed by the handler's `let Ok(json) = … else panic!`. */
  function ReadReply(upstream: Upstream): (r: Result<Reply, Failure>)
    ensures r.Success? <==> upstream.Body?
    ensures upstream.Unreachable? ==> r == Failure(ApiUnreachable)
    ensures upstream.Unreadable? ==> r == Failure(ApiBodyUnreadable)
    ensures upstream.Body? ==> r.value == upstream.reply
  {
    match upstream
    case Unreachable => Failure(ApiUnreachable)
    case Unreadable => Failure(ApiBodyUnreadable)
    case Body(reply) => Success(reply)
  }

  /** Whether the reply decodes to the shape the route expects. */
  predicate Decodes(route: Route, reply: Reply) {
    match route
    case IndexRoute => reply.episode.Some?
    case SelectRoute => reply.select.Some?
    case InfoRoute => reply.select.Some?
    case SearchRoute => reply.search.Some?
  }

  /** The route's decoder and renderer applied to the upstream reply. A
      reply of the wrong shape is `MalformedJson`; the only other failure is
      the index route's source selection. */
  function Render(route: Route, reply: Reply): (r: Result<string, Failure>)
    ensures !Decodes(route, reply) ==> r == Failure(MalformedJson)
    ensures r.Success? <==> Decodes(route, reply) && (route == IndexRoute ==> GetUrl(reply.episode.value.sources).Success?)
    ensures r.Failure? ==> r.error == MalformedJson || (route == IndexRoute && r.error == NoSource)
  {
    match route
    case IndexRoute =>
      (match reply.episode
       case None => Failure(MalformedJson)
       case Some(episode) =>
         var url :- GetUrl(episode.sources);
         Success(IndexHtml(url)))
    case SelectRoute =>
      (match reply.select
       case None => Failure(MalformedJson)
       case Some(series) => Success(EpisodeOptions(series.episodes)))
    case InfoRoute =>
      (match reply.select
       case None => Failure(MalformedJson)
       case Some(series) => Success(InfoHtml(series)))
    case SearchRoute =>
      (match reply.search
       case None => Failure(MalformedJson)
       case Some(found) => Success(SearchOptions(FilterSub(found.results))))
  }

  /** One request on `route`: check the first form pair, fetch the one URL
      it determines from `api`, and render the reply. A fragment is only
      produced for a well-keyed request whose fetch returned a text body. */
  function Serve(route: Route, form: Option<seq<Pair>>, api: string -> Upstream): (r: Result<string, Failure>)
    ensures form.None? ==> r == Failure(UnreadableForm)
    ensures form == Some([]) ==> r == Failure(EmptyForm)
    ensures form.Some? && |form.value| > 0 && form.value[0].0 != ExpectedKey(route) ==> r == Failure(InvalidRequestType)
    ensures r.Success? ==>
              && form.Some? && |form.value| > 0 && form.value[0].0 == ExpectedKey(route)
              && api(ApiUrl(UpstreamPath(route, form.value[0].1))).Body?
  {
    var arg :- RequestArgument(route, form);
    var reply :- ReadReply(api(ApiUrl(UpstreamPath(route, arg))));
    Render(route, reply)
  }

  // ---- Properties of the dispatcher -------------------------------------

  /** Only the first pair is consulted: dropping the others changes nothing. */
  lemma ServeFirstPairOnly(route: Route, request: seq<Pair>, api: string -> Upstream)
    requires |request| > 0
    ensures Serve(route, Some(request), api) == Serve(route, Some(request[..1]), api)
  {
    assert request[..1][0] == request[0];
  }

  /** Only one URL is consulted: two upstreams that agree on it give the
      same outcome. */
  lemma ServeConsultsOneUrl(route: Route, request: seq<Pair>, api1: string -> Upstream, api2: string -> Upstream)
    requires |request| > 0
    requires api1(ApiUrl(UpstreamPath(route, request[0].1))) == api2(ApiUrl(UpstreamPath(route, request[0].1)))
    ensures Serve(route, Some(request), api1) == Serve(route, Some(request), api2)
  {
  }

  /** Distinct paths are distinct URLs. */
  lemma ApiUrlInjective(p: string, q: string)
    requires ApiUrl(p) == ApiUrl(q)
    ensures p == q
  {
    assert p == ApiUrl(p)[|ApiBase|..];
  }

  /** The select and info routes accept the same requests and fetch the same
      URL, so one succeeds exactly when the other does. */
  lemma SelectInfoAgree(form: Option<seq<Pair>>, api: string -> Upstream)
    ensures Serve(SelectRoute, form, api).Success? <==> Serve(InfoRoute, form, api).Success?
    ensures Serve(SelectRoute, form, api).Failure? ==> Serve(SelectRoute, form, api) == Serve(InfoRoute, form, api)
  {
  }

  /** The search text is used as a path unchanged, so a search for
      `info/<id>` or `watch/<id>` fetches the same URL as the select or
      index request for `<id>`. */
  lemma SearchTextIsRawPath(id: string)
    ensures ApiUrl(UpstreamPath(SearchRoute, "info/" + id)) == ApiUrl(UpstreamPath(SelectRoute, id))
    ensures ApiUrl(UpstreamPath(SearchRoute, "watch/" + id)) == ApiUrl(UpstreamPath(IndexRoute, id))
  {
  }

  /** The `<option>` a search hit contributes: its tag when subtitled,
      nothing otherwise. */
  function SubTag(e: SearchElement): string {
    if e.subOrDub == "sub" then SearchTag(e) else ""
  }

  /** The search response, stated element by element: each hit in upstream
      order contributes its tag when subtitled and nothing when not. */
  lemma {:induction false} SearchResponseByElement(results: seq<SearchElement>)
    ensures SearchOptions(FilterSub(results)) == ConcatMap(results, SubTag)
    decreases |results|
  {
    if |results| > 0 {
      var init, last := results[..|results| - 1], results[|results| - 1];
      assert results == init + [last];
      SearchResponseByElement(init);
      FilterSubAppend(init, [last]);
      SearchOptionsAppend(FilterSub(init), FilterSub([last]));
      assert [last][1..] == [];
      if last.subOrDub == "sub" {
        assert FilterSub([last]) == [last];
        assert [last][..0] == [];
      } else {
        assert FilterSub([last]) == [];
      }
    }
  }

  /** End to end on the index route: a link is returned exactly when the
      episode has a single `"default"` source, and it links that source. */
  lemma ServeIndexOutcome(id: string, rest: seq<Pair>, api: string -> Upstream, episode: Episode)
    requires api(ApiUrl("watch/" + id)).Body?
    requires api(ApiUrl("watch/" + id)).reply.episode == Some(episode)
    ensures Serve(IndexRoute, Some([("index", id)] + rest), api).Success?
            <==> |Retain(episode.sources, IsDefault)| == 1
    ensures Serve(IndexRoute, Some([("index", id)] + rest), api).Success? ==>
              Serve(IndexRoute, Some([("index", id)] + rest), api).value
              == IndexHtml(Retain(episode.sources, IsDefault)[0].url)
    ensures Serve(IndexRoute, Some([("index", id)] + rest), api).Failure? ==>
              Serve(IndexRoute, Some([("index", id)] + rest), api).error == NoSource
  {
    assert ([("index", id)] + rest)[0] == ("index", id);
  }

  /** A well-keyed request whose reply does not decode to the route's shape
      fails with `MalformedJson`; on the select, info and search routes a
      reply that does decode always yields a fragment. */
  lemma ServeDecodeOutcome(route: Route, request: seq<Pair>, api: string -> Upstream)
    requires |request| > 0 && request[0].0 == ExpectedKey(route)
    requires api(ApiUrl(UpstreamPath(route, request[0].1))).Body?
    ensures var reply := api(ApiUrl(UpstreamPath(route, request[0].1))).reply;
            && (!Decodes(route, reply) ==> Serve(route, Some(request), api) == Failure(MalformedJson))
            && (route != IndexRoute ==> (Serve(route, Some(request), api).Success? <==> Decodes(route, reply)))
  {
  }

  /** What a well-keyed request returns, by what its one URL yields: the
      transport failures, and the fragment each of the select, info and
      search routes renders from a decoded reply. */
  lemma ServeFragments(route: Route, request: seq<Pair>, api: string -> Upstream)
    requires |request| > 0 && request[0].0 == ExpectedKey(route)
    ensures var up := api(ApiUrl(UpstreamPath(route, request[0].1)));
            up.Unreachable? ==> Serve(route, Some(request), api) == Failure(ApiUnreachable)
    ensures var up := api(ApiUrl(UpstreamPath(route, request[0].1)));
            up.Unreadable? ==> Serve(route, Some(request), api) == Failure(ApiBodyUnreadable)
    ensures var up := api(ApiUrl(UpstreamPath(route, request[0].1)));
            route == SelectRoute && up.Body? && up.reply.select.Some? ==>
              Serve(route, Some(request), api) == Success(EpisodeOptions(up.reply.select.value.episodes))
    ensures var up := api(ApiUrl(UpstreamPath(route, request[0].1)));
            route == InfoRoute && up.Body? && up.reply.select.Some? ==>
              Serve(route, Some(request), api) == Success(InfoHtml(up.reply.select.value))
    ensures var up := api(ApiUrl(UpstreamPath(route, request[0].1)));
            route == SearchRoute && up.Body? && up.reply.search.Some? ==>
              Serve(route, Some(request), api) == Success(SearchOptions(FilterSub(up.reply.search.value.results)))
  {
  }
}
