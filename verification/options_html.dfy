/** The two `<option>` list renderers: `construct_search_html`
    (src/main.rs:212-218) and `construct_select_html` (src/main.rs:92-101),
    together with a reader that recovers the (value, label) pairs from a
    rendered list. */
module OptionsHtml {
  import opened Wrappers
  import opened Seqs
  import opened Records

  const OptionOpen: string := "<option value=\""
  const OptionMid: string := "\">"
  const OptionClose: string := "</option>"

  /** `<option value="{value}">{text}</option>`; nothing is escaped. */
  function OptionTag(value: string, text: string): string {
    OptionOpen + value + OptionMid + text + OptionClose
  }

  /** A search hit is offered under its id and labelled with its title. */
  function SearchTag(e: SearchElement): string {
    OptionTag(e.id, e.title)
  }

  /** An episode is offered under its id and labelled with its number. */
  function EpisodeTag(e: SelectEpisode): string {
    OptionTag(e.id, e.number)
  }

  function SearchOptions(elements: seq<SearchElement>): string {
    ConcatMap(elements, SearchTag)
  }

  function EpisodeOptions(episodes: seq<SelectEpisode>): string {
    ConcatMap(episodes, EpisodeTag)
  }

  /** The loop of `construct_search_html`: one `push_str` per hit. */
  method ConstructSearchHtml(elements: seq<SearchElement>) returns (construct: string)
    ensures construct == SearchOptions(elements)
  {
    construct := "";
    for i := 0 to |elements|
      invariant construct == SearchOptions(elements[..i])
    {
      assert elements[..i + 1][..i] == elements[..i];
      construct := construct + SearchTag(elements[i]);
    }
    assert elements[..|elements|] == elements;
  }

  /** The loop of `construct_select_html` over the series' episodes. */
  method ConstructSelectHtml(series: Select) returns (construct: string)
    ensures construct == EpisodeOptions(series.episodes)
  {
    var element := series.episodes;
    construct := "";
    for i := 0 to |element|
      invariant construct == EpisodeOptions(element[..i])
    {
      assert element[..i + 1][..i] == element[..i];
      construct := construct + EpisodeTag(element[i]);
    }
    assert element[..|element|] == element;
  }

  /** An empty list renders as the empty string; a one-element list as the
      single tag, labelled with the title (search) or number (episodes). */
  lemma OptionsBaseCases(e: SearchElement, ep: SelectEpisode)
    ensures SearchOptions([]) == "" && EpisodeOptions([]) == ""
    ensures SearchOptions([e]) == "<option value=\"" + e.id + "\">" + e.title + "</option>"
    ensures EpisodeOptions([ep]) == "<option value=\"" + ep.id + "\">" + ep.number + "</option>"
  {
    assert [e][..0] == [];
    assert [ep][..0] == [];
  }

  /** Rendering `a + b` is rendering `a` followed by rendering `b`. */
  lemma SearchOptionsAppend(a: seq<SearchElement>, b: seq<SearchElement>)
    ensures SearchOptions(a + b) == SearchOptions(a) + SearchOptions(b)
  {
    ConcatMapAppend(a, b, SearchTag);
  }

  lemma EpisodeOptionsAppend(a: seq<SelectEpisode>, b: seq<SelectEpisode>)
    ensures EpisodeOptions(a + b) == EpisodeOptions(a) + EpisodeOptions(b)
  {
    ConcatMapAppend(a, b, EpisodeTag);
  }

  /** The tag of element `i` follows the tags of the elements before it. */
  lemma SearchOptionsAt(elements: seq<SearchElement>, i: nat)
    requires i < |elements|
    ensures SearchOptions(elements)
         == SearchOptions(elements[..i]) + OptionTag(elements[i].id, elements[i].title) + SearchOptions(elements[i + 1..])
  {
    ConcatMapAt(elements, SearchTag, i);
  }

  lemma EpisodeOptionsAt(episodes: seq<SelectEpisode>, i: nat)
    requires i < |episodes|
    ensures EpisodeOptions(episodes)
         == EpisodeOptions(episodes[..i]) + OptionTag(episodes[i].id, episodes[i].number) + EpisodeOptions(episodes[i + 1..])
  {
    ConcatMapAt(episodes, EpisodeTag, i);
  }

  // ---- Reading a rendered list back -------------------------------------

  predicate StartsWith(s: string, prefix: string) {
    |prefix| <= |s| && s[..|prefix|] == prefix
  }

  /** Position of the first `c` in `s`, or `|s|` when there is none. */
  function IndexOf(s: string, c: char): (k: nat)
    ensures k <= |s|
    ensures forall j :: 0 <= j < k ==> s[j] != c
    ensures k < |s| ==> s[k] == c
  {
    if |s| == 0 then 0 else if s[0] == c then 0 else 1 + IndexOf(s[1..], c)
  }

  lemma {:induction false} IndexOfAfter(a: string, b: string, c: char)
    requires c !in a && |b| > 0 && b[0] == c
    ensures IndexOf(a + b, c) == |a|
    decreases |a|
  {
    if |a| > 0 {
      assert (a + b)[0] == a[0];
      assert (a + b)[1..] == a[1..] + b;
      IndexOfAfter(a[1..], b, c);
    }
  }

  /** A pair that survives rendering unambiguously: the value has no `"`
      (which would close the attribute) and the label no `<` (which would
      start the closing tag). */
  predicate Readable(p: (string, string)) {
    '"' !in p.0 && '<' !in p.1
  }

  /** Reads one `<option value="v">l</option>` off the front of `s`:
      the value, the label, and the remaining text. */
  function ParseOptionTag(s: string): (r: Option<(string, string, string)>)
    ensures r.Some? ==> |r.value.2| < |s|
  {
    if !StartsWith(s, OptionOpen) then None
    else
      var t := s[|OptionOpen|..];
      var k := IndexOf(t, '"');
      var t2 := t[k..];
      if !StartsWith(t2, OptionMid) then None
      else
        var t3 := t2[|OptionMid|..];
        var m := IndexOf(t3, '<');
        var t4 := t3[m..];
        if !StartsWith(t4, OptionClose) then None
        else Some((t[..k], t3[..m], t4[|OptionClose|..]))
  }

  /** Reads a whole rendered list back into its (value, label) pairs. */
  function ParseOptions(s: string): Option<seq<(string, string)>>
    decreases |s|
  {
    if |s| == 0 then Some([])
    else match ParseOptionTag(s)
      case None => None
      case Some(t) =>
        match ParseOptions(t.2)
        case None => None
        case Some(rest) => Some([(t.0, t.1)] + rest)
  }

  lemma ParseOptionTagOf(value: string, text: string, rest: string)
    requires Readable((value, text))
    ensures ParseOptionTag(OptionTag(value, text) + rest) == Some((value, text, rest))
  {
    var s := OptionTag(value, text) + rest;
    assert s == OptionOpen + (value + (OptionMid + (text + (OptionClose + rest))));
    var t := s[|OptionOpen|..];
    assert t == value + (OptionMid + (text + (OptionClose + rest)));
    IndexOfAfter(value, OptionMid + (text + (OptionClose + rest)), '"');
    var t2 := t[|value|..];
    assert t2 == OptionMid + (text + (OptionClose + rest));
    var t3 := t2[|OptionMid|..];
    assert t3 == text + (OptionClose + rest);
    IndexOfAfter(text, OptionClose + rest, '<');
    var t4 := t3[|text|..];
    assert t4 == OptionClose + rest;
    assert t[..|value|] == value;
    assert t3[..|text|] == text;
  }

  /** Any rendering of readable pairs reads back as exactly those pairs, in
      order. */
  lemma {:induction false} ParseRenderedOptions<T>(xs: seq<T>, f: T -> string, pairs: seq<(string, string)>)
    requires |pairs| == |xs|
    requires forall i :: 0 <= i < |xs| ==> f(xs[i]) == OptionTag(pairs[i].0, pairs[i].1) && Readable(pairs[i])
    ensures ParseOptions(ConcatMap(xs, f)) == Some(pairs)
    decreases |xs|
  {
    if |xs| == 0 {
    } else {
      var tail := xs[1..];
      assert xs == [xs[0]] + tail;
      ConcatMapAppend([xs[0]], tail, f);
      assert [xs[0]][..0] == [];
      assert ConcatMap([xs[0]], f) == f(xs[0]);
      ParseRenderedOptions(tail, f, pairs[1..]);
      ParseOptionTagOf(pairs[0].0, pairs[0].1, ConcatMap(tail, f));
      assert pairs == [(pairs[0].0, pairs[0].1)] + pairs[1..];
    }
  }

  /** The (id, title) pairs of a list of search hits. */
  function SearchPairs(elements: seq<SearchElement>): (r: seq<(string, string)>)
    ensures |r| == |elements|
    ensures forall i :: 0 <= i < |r| ==> r[i] == (elements[i].id, elements[i].title)
  {
    seq(|elements|, i requires 0 <= i < |elements| => (elements[i].id, elements[i].title))
  }

  /** The (id, number) pairs of a list of episodes. */
  function EpisodePairs(episodes: seq<SelectEpisode>): (r: seq<(string, string)>)
    ensures |r| == |episodes|
    ensures forall i :: 0 <= i < |r| ==> r[i] == (episodes[i].id, episodes[i].number)
  {
    seq(|episodes|, i requires 0 <= i < |episodes| => (episodes[i].id, episodes[i].number))
  }

  /** Round trip: a rendered search list reads back as the hits' (id, title)
      pairs, provided no id holds `"` and no title holds `<`. */
  lemma SearchOptionsRoundTrip(elements: seq<SearchElement>)
    requires forall i :: 0 <= i < |elements| ==> Readable((elements[i].id, elements[i].title))
    ensures ParseOptions(SearchOptions(elements)) == Some(SearchPairs(elements))
  {
    ParseRenderedOptions(elements, SearchTag, SearchPairs(elements));
  }

  /** Round trip: a rendered episode list reads back as the episodes'
      (id, number) pairs, provided no id holds `"` and no number `<`. */
  lemma EpisodeOptionsRoundTrip(episodes: seq<SelectEpisode>)
    requires forall i :: 0 <= i < |episodes| ==> Readable((episodes[i].id, episodes[i].number))
    ensures ParseOptions(EpisodeOptions(episodes)) == Some(EpisodePairs(episodes))
  {
    ParseRenderedOptions(episodes, EpisodeTag, EpisodePairs(episodes));
  }
}
