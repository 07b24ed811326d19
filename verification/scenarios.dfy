/** Concrete requests traced through the dispatcher. */
module Scenarios {
  import opened Wrappers
  import opened Records
  import opened SearchFilter
  import opened Sources
  import opened OptionsHtml
  import opened Fragments
  import opened Dispatch

  /** A search for "naruto" answered with one subtitled and one dubbed hit
      offers only the subtitled one. */
  lemma SearchKeepsOnlySub(api: string -> Upstream)
    requires api(ApiUrl("naruto")) == Body(Reply(Some(Search([
               SearchElement("a1", "Naruto", "sub"),
               SearchElement("a2", "Naruto Dub", "dub")])), None, None))
    ensures Serve(SearchRoute, Some([("searchbox", "naruto")]), api)
            == Success("<option value=\"a1\">Naruto</option>")
  {
    assert UpstreamPath(SearchRoute, "naruto") == "naruto";
    ServeFragments(SearchRoute, [("searchbox", "naruto")], api);
    NarutoHitsRender();
  }

  lemma NarutoHitsRender()
    ensures SearchOptions(FilterSub([SearchElement("a1", "Naruto", "sub"), SearchElement("a2", "Naruto Dub", "dub")]))
            == "<option value=\"a1\">Naruto</option>"
  {
    var hits := [SearchElement("a1", "Naruto", "sub"), SearchElement("a2", "Naruto Dub", "dub")];
    assert hits == [hits[0]] + [hits[1]];
    FilterSubAppend([hits[0]], [hits[1]]);
    FilterSubExtremes([hits[0]]);
    FilterSubExtremes([hits[1]]);
    assert FilterSub(hits) == [hits[0]];
    OptionsBaseCases(hits[0], SelectEpisode("e1", "1"));
  }

  /** The episode list of series "a1" with one episode numbered "1". */
  lemma SelectListsEpisodes(api: string -> Upstream, series: Select)
    requires series.episodes == [SelectEpisode("e1", "1")]
    requires api(ApiUrl("info/a1")) == Body(Reply(None, Some(series), None))
    ensures Serve(SelectRoute, Some([("select", "a1")]), api)
            == Success("<option value=\"e1\">1</option>")
  {
    assert UpstreamPath(SelectRoute, "a1") == "info/a1";
    assert series.episodes[..0] == [];
    assert Serve(SelectRoute, Some([("select", "a1")]), api) == Success(EpisodeOptions(series.episodes));
    OptionsBaseCases(SearchElement("a1", "Naruto", "sub"), series.episodes[0]);
    assert EpisodeOptions(series.episodes) == "<option value=\"e1\">1</option>";
  }

  /** A single `"default"` source is linked. */
  lemma IndexLinksDefault(api: string -> Upstream)
    requires api(ApiUrl("watch/e1")) == Body(Reply(None, None, Some(Episode([
               Source("http://x/default.m3u8", "default")]))))
    ensures Serve(IndexRoute, Some([("index", "e1")]), api)
            == Success("<a href=\"https://haiku.leafatshredder.xyz/player/#http://x/default.m3u8\">enjoy!</a>")
  {
    assert UpstreamPath(IndexRoute, "e1") == "watch/e1";
    GetUrlUniqueDefault([Source("http://x/default.m3u8", "default")], 0);
    assert Serve(IndexRoute, Some([("index", "e1")]), api) == Success(IndexHtml("http://x/default.m3u8"));
    DefaultStreamLink();
  }

  lemma DefaultStreamLink()
    ensures IndexHtml("http://x/default.m3u8")
            == "<a href=\"https://haiku.leafatshredder.xyz/player/#http://x/default.m3u8\">enjoy!</a>"
  {
  }

  /** Two `"default"` sources and a `"backup"` one: the backup is never
      reached and the request fails. */
  lemma IndexTwoDefaultsFails(api: string -> Upstream)
    requires api(ApiUrl("watch/e1")) == Body(Reply(None, None, Some(Episode([
               Source("http://x/a.m3u8", "default"),
               Source("http://x/b.m3u8", "default"),
               Source("http://x/backup.m3u8", "backup")]))))
    ensures Serve(IndexRoute, Some([("index", "e1")]), api) == Failure(NoSource)
  {
    assert UpstreamPath(IndexRoute, "e1") == "watch/e1";
    GetUrlAmbiguousDefault([Source("http://x/a.m3u8", "default"),
                            Source("http://x/b.m3u8", "default"),
                            Source("http://x/backup.m3u8", "backup")], 0, 1);
  }

  /** An episode without sources fails. */
  lemma IndexNoSourcesFails(api: string -> Upstream)
    requires api(ApiUrl("watch/e1")) == Body(Reply(None, None, Some(Episode([]))))
    ensures Serve(IndexRoute, Some([("index", "e1")]), api) == Failure(NoSource)
  {
    assert UpstreamPath(IndexRoute, "e1") == "watch/e1";
    GetUrlNoDefault([]);
  }

  /** A body whose first key belongs to another route is refused, even when
      a later pair carries the right key. */
  lemma WrongFirstKeyFails(api: string -> Upstream)
    ensures Serve(SearchRoute, Some([("select", "a1"), ("searchbox", "naruto")]), api) == Failure(InvalidRequestType)
  {
  }
}
