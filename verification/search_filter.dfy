/** `filter_sub` (src/main.rs:198-210): keep only the subtitled search hits. */
module SearchFilter {
  import opened Seqs
  import opened Records

  predicate IsSub(e: SearchElement) {
    e.subOrDub == "sub"
  }

  /** The hits whose track is `"sub"`, moved out in their upstream order.
      Every survivor is an unchanged input element, every `"sub"` input
      element survives, and the order is the input's. */
  function FilterSub(results: seq<SearchElement>): (r: seq<SearchElement>)
    ensures forall i :: 0 <= i < |r| ==> r[i].subOrDub == "sub" && r[i] in results
    ensures forall i :: 0 <= i < |results| && results[i].subOrDub == "sub" ==> results[i] in r
    ensures IsSubsequence(r, results)
  {
    RetainIsSubsequence(results, IsSub);
    Retain(results, IsSub)
  }

  /** Filtering a concatenation filters each part and keeps them in order. */
  lemma FilterSubAppend(a: seq<SearchElement>, b: seq<SearchElement>)
    ensures FilterSub(a + b) == FilterSub(a) + FilterSub(b)
  {
    RetainAppend(a, b, IsSub);
  }

  /** Filtering an already filtered list changes nothing. */
  lemma FilterSubIdempotent(results: seq<SearchElement>)
    ensures FilterSub(FilterSub(results)) == FilterSub(results)
  {
    RetainIdempotent(results, IsSub);
  }

  /** A list of subtitled hits passes through untouched; a list without any
      comes out empty. */
  lemma FilterSubExtremes(results: seq<SearchElement>)
    ensures (forall i :: 0 <= i < |results| ==> results[i].subOrDub == "sub") ==> FilterSub(results) == results
    ensures (forall i :: 0 <= i < |results| ==> results[i].subOrDub != "sub") ==> FilterSub(results) == []
  {
    if forall i :: 0 <= i < |results| ==> results[i].subOrDub == "sub" {
      RetainAllKept(results, IsSub);
    }
    if forall i :: 0 <= i < |results| ==> results[i].subOrDub != "sub" {
      RetainNoneKept(results, IsSub);
    }
  }
}
