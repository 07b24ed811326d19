/** `get_url` (src/main.rs:45-56): choose the stream URL of an episode. */
module Sources {
  import opened Wrappers
  import opened Seqs
  import opened Records

  predicate IsDefault(s: Source) {
    s.quality == "default"
  }

  predicate IsBackup(s: Source) {
    s.quality == "backup"
  }

  /** `sources[0].url`, with the out-of-bounds panic as `NoSource`. */
  function FirstUrl(sources: seq<Source>): (r: Result<string, Failure>)
    ensures r.Success? <==> |sources| > 0
    ensures r.Success? ==> r.value == sources[0].url
    ensures r.Failure? ==> r.error == NoSource
  {
    if |sources| == 0 then Failure(NoSource) else Success(sources[0].url)
  }

  /** The gateway's selection as written: keep the `"default"` sources; if
      exactly one is left, its URL is the answer; otherwise keep the
      `"backup"` sources OF THAT ALREADY FILTERED LIST and index the first.
      The second filter therefore always leaves nothing, and that branch can
      only fail. A URL is returned exactly when one `"default"` source
      exists, and it is that source's URL. */
  function GetUrl(sources: seq<Source>): (r: Result<string, Failure>)
    ensures r.Success? <==> |Retain(sources, IsDefault)| == 1
    ensures r.Success? ==> exists i :: 0 <= i < |sources| && sources[i].quality == "default" && r.value == sources[i].url
    ensures r.Failure? ==> r.error == NoSource
  {
    var defaults := Retain(sources, IsDefault);
    if |defaults| == 1 then
      Success(defaults[0].url)
    else
      BackupOfDefaultsIsEmpty(sources);
      FirstUrl(Retain(defaults, IsBackup))
  }

  /** No `"default"` source is a `"backup"` source: the second retain of
      `get_url` always yields an empty list. */
  lemma BackupOfDefaultsIsEmpty(sources: seq<Source>)
    ensures Retain(Retain(sources, IsDefault), IsBackup) == []
  {
    var defaults := Retain(sources, IsDefault);
    RetainNoneKept(defaults, IsBackup);
  }

  /** With exactly one `"default"` source, its URL is chosen, whatever the
      other sources are. */
  lemma GetUrlUniqueDefault(sources: seq<Source>, i: nat)
    requires i < |sources| && sources[i].quality == "default"
    requires forall j :: 0 <= j < |sources| && j != i ==> sources[j].quality != "default"
    ensures GetUrl(sources) == Success(sources[i].url)
  {
    RetainSingle(sources, IsDefault, i);
  }

  /** With two or more `"default"` sources the request fails, even when a
      `"backup"` source is present. */
  lemma GetUrlAmbiguousDefault(sources: seq<Source>, i: nat, j: nat)
    requires i < j < |sources|
    requires sources[i].quality == "default" && sources[j].quality == "default"
    ensures GetUrl(sources) == Failure(NoSource)
  {
    RetainTwo(sources, IsDefault, i, j);
  }

  /** With no `"default"` source the request fails, even when a `"backup"`
      source is present. */
  lemma GetUrlNoDefault(sources: seq<Source>)
    requires forall j :: 0 <= j < |sources| ==> sources[j].quality != "default"
    ensures GetUrl(sources) == Failure(NoSource)
  {
    RetainNoneKept(sources, IsDefault);
  }

  /** Conversely, a URL is returned only when some source is the one and
      only `"default"` source, and the URL is that source's. */
  lemma GetUrlSuccessMeansUniqueDefault(sources: seq<Source>) returns (i: nat)
    requires GetUrl(sources).Success?
    ensures i < |sources| && sources[i].quality == "default" && GetUrl(sources).value == sources[i].url
    ensures forall j :: 0 <= j < |sources| && j != i ==> sources[j].quality != "default"
  {
    i :| 0 <= i < |sources| && sources[i].quality == "default" && GetUrl(sources).value == sources[i].url;
    forall j | 0 <= j < |sources| && j != i
      ensures sources[j].quality != "default"
    {
      if sources[j].quality == "default" {
        if i < j {
          RetainTwo(sources, IsDefault, i, j);
        } else {
          RetainTwo(sources, IsDefault, j, i);
        }
      }
    }
  }
}
