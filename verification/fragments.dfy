/** The two single-record renderers: `construct_index_html`
    (src/main.rs:58-64), the player link, and `construct_info_html`
    (src/main.rs:129-170), the series-info block. Nothing is escaped. */
module Fragments {
  import opened Wrappers
  import opened Decimal
  import opened Records

  // ---- Player link --------------------------------------------------------

  const PlayerPrefix: string := "<a href=\"https://haiku.leafatshredder.xyz/player/#"
  const PlayerSuffix: string := "\">enjoy!</a>"

  /** The link to the hosted player with the stream URL as the fragment:
      the fixed prefix, the URL verbatim, the fixed suffix. */
  function IndexHtml(url: string): (r: string)
    ensures |r| == |PlayerPrefix| + |url| + |PlayerSuffix|
    ensures r[..|PlayerPrefix|] == PlayerPrefix
    ensures r[|PlayerPrefix|..|r| - |PlayerSuffix|] == url
    ensures r[|r| - |PlayerSuffix|..] == PlayerSuffix
  {
    PlayerPrefix + url + PlayerSuffix
  }

  /** The stream URL of a player link, or `None` for any other text. */
  function LinkTarget(html: string): Option<string> {
    if |PlayerPrefix| + |PlayerSuffix| <= |html|
       && html[..|PlayerPrefix|] == PlayerPrefix
       && html[|html| - |PlayerSuffix|..] == PlayerSuffix
    then Some(html[|PlayerPrefix|..|html| - |PlayerSuffix|])
    else None
  }

  /** Reading the URL back out of a player link gives the URL. */
  lemma LinkTargetOfIndexHtml(url: string)
    ensures LinkTarget(IndexHtml(url)) == Some(url)
  {
  }

  /** Every text `LinkTarget` accepts is the player link of what it reads. */
  lemma IndexHtmlOfLinkTarget(html: string)
    requires LinkTarget(html).Some?
    ensures IndexHtml(LinkTarget(html).value) == html
  {
    var p, u, q := html[..|PlayerPrefix|], html[|PlayerPrefix|..|html| - |PlayerSuffix|], html[|html| - |PlayerSuffix|..];
    assert html == p + u + q;
  }

  /** Distinct URLs give distinct links. */
  lemma IndexHtmlInjective(u: string, v: string)
    requires IndexHtml(u) == IndexHtml(v)
    ensures u == v
  {
    LinkTargetOfIndexHtml(u);
    LinkTargetOfIndexHtml(v);
  }

  // ---- Series-info block ----------------------------------------------------
  // The source writes these pieces as indented raw strings; the model keeps
  // their markup and drops the indentation and line breaks between tags.

  const InfoOpen: string := "<div id=info><hr /><img src=\""
  const ImageClose: string := "\" class=\"img\" style=\"float:right;\"/><div class=\"info\" style=\"float:left\"><h1 class=\"title\">"
  const TitleClose: string := "</h1><div class=\"fields\"><i>episodes: "
  const ReleaseMark: string := "<br>release year: "
  const StatusMark: string := "<br>status: "
  const StatusClose: string := "</i></div>"
  const DescriptionOpen: string := "<p>"
  const DescriptionClose: string := "</p>"
  const InfoClose: string := "</div></div>"

  /** Image, title and episode count: always present, in that order. */
  function InfoHead(series: Select): string {
    InfoOpen + series.image + ImageClose + series.title + TitleClose + DecimalString(series.totalEpisodes as nat)
  }

  /** `<br>release year: …` only when a release date was supplied. */
  function ReleaseSegment(releaseDate: Option<string>): string {
    match releaseDate
    case None => ""
    case Some(year) => ReleaseMark + year
  }

  /** The status, printed as given (`as_uncased` changes comparison only). */
  function StatusSegment(status: string): string {
    StatusMark + status + StatusClose
  }

  /** `<p>…</p>` only when a description was supplied. */
  function DescriptionSegment(description: Option<string>): string {
    match description
    case None => ""
    case Some(text) => DescriptionOpen + text + DescriptionClose
  }

  /** The series-info block: the five pieces `construct_info_html` pushes,
      in order. Every text field it is given is pushed in full, so the block
      is longer than those fields together; `InfoFrame`, the toggle lemmas
      and `InfoFieldsInOrder` say where each one sits. */
  function InfoHtml(series: Select): (r: string)
    ensures |series.image| + |series.title| + |series.status| < |r|
  {
    InfoHead(series) + ReleaseSegment(series.releaseDate) + StatusSegment(series.status)
      + DescriptionSegment(series.description) + InfoClose
  }

  /** The block opens with the fixed opening markup followed by the image
      URL verbatim, and ends with the fixed closing markup. */
  lemma InfoFrame(series: Select)
    ensures var r := InfoHtml(series);
            && |InfoOpen| + |series.image| + |InfoClose| <= |r|
            && r[..|InfoOpen|] == InfoOpen
            && r[|InfoOpen|..|InfoOpen| + |series.image|] == series.image
            && r[|r| - |InfoClose|..] == InfoClose
  {
    var rest := ImageClose + series.title + TitleClose + DecimalString(series.totalEpisodes as nat)
                + ReleaseSegment(series.releaseDate) + StatusSegment(series.status) + DescriptionSegment(series.description);
    assert InfoHtml(series) == InfoOpen + series.image + rest + InfoClose;
    SliceMiddle(InfoOpen, series.image, rest + InfoClose);
  }

  // The helper lemmas below restate the pieces of `InfoHtml` over plain
  // string variables, so that the solver reasons about concatenation without
  // unfolding the long markup constants. An absent optional segment renders
  // as `""`, which is why `+ ""` appears in their statements.

  /** Putting `x` after `h` in `h + s + d + c` is inserting it at offset
      `|h|`. */
  lemma InsertAfterFirst(h: string, x: string, s: string, d: string, c: string)
    ensures |h| <= |h + "" + s + d + c|
    ensures var w := h + "" + s + d + c;
            h + x + s + d + c == w[..|h|] + x + w[|h|..]
  {
    var w := h + "" + s + d + c;
    var tail := s + d + c;
    assert w == h + tail;
    assert w[..|h|] == h;
    assert w[|h|..] == tail;
    assert h + x + s + d + c == h + x + tail;
  }

  /** Putting `x` before `c` in `a + c` is inserting it at offset `|a|`. */
  lemma InsertBeforeLast(a: string, x: string, c: string)
    ensures |a| <= |a + "" + c|
    ensures var w := a + "" + c;
            a + x + c == w[..|w| - |c|] + x + w[|w| - |c|..]
  {
    var w := a + "" + c;
    assert w == a + c;
    assert w[..|w| - |c|] == a;
    assert w[|w| - |c|..] == c;
  }

  /** With nothing between them, `m` starts right where `h` ends. */
  lemma FollowsAt(h: string, m: string, u: string, v: string, d: string, c: string)
    ensures var w := h + "" + (m + u + v) + d + c;
            |h| + |m| <= |w| && w[|h|..|h| + |m|] == m
  {
    var w := h + "" + (m + u + v) + d + c;
    assert w == h + m + (u + v + d + c);
  }

  /** With nothing between them, `c` ends right where `e` starts. */
  lemma EndsBefore(x: string, a: string, b: string, c: string, e: string)
    ensures var w := x + (a + b + c) + "" + e;
            |c| + |e| <= |w| && w[|w| - |e| - |c|..|w| - |e|] == c
  {
    var w := x + (a + b + c) + "" + e;
    assert w == (x + a + b) + c + e;
  }

  /** In `a + b + c`, the text at offset `|a|` of length `|b|` is `b`. */
  lemma SliceMiddle(a: string, b: string, c: string)
    ensures |a| + |b| <= |a + b + c|
    ensures (a + b + c)[|a|..|a| + |b|] == b
  {
  }

  /** Supplying a release date inserts exactly `<br>release year: {year}`
      right after the episode count, and changes nothing else. */
  lemma InfoReleaseToggle(series: Select, year: string)
    ensures var without := InfoHtml(series.(releaseDate := None));
            var k := |InfoHead(series)|;
            k <= |without|
            && InfoHtml(series.(releaseDate := Some(year))) == without[..k] + ReleaseMark + year + without[k..]
  {
    var head := InfoHead(series);
    var st := StatusSegment(series.status);
    var ds := DescriptionSegment(series.description);
    var x := ReleaseMark + year;
    assert InfoHtml(series.(releaseDate := None)) == head + "" + st + ds + InfoClose;
    assert InfoHtml(series.(releaseDate := Some(year))) == head + x + st + ds + InfoClose;
    InsertAfterFirst(head, x, st, ds, InfoClose);
  }

  /** Without a release date, the status markup directly follows the
      episode count: no release segment is rendered. */
  lemma InfoReleaseAbsent(series: Select)
    requires series.releaseDate == None
    ensures var r := InfoHtml(series);
            var k := |InfoHead(series)|;
            k + |StatusMark| <= |r| && r[k..k + |StatusMark|] == StatusMark
  {
    var ds := DescriptionSegment(series.description);
    assert InfoHtml(series) == InfoHead(series) + "" + (StatusMark + series.status + StatusClose) + ds + InfoClose;
    FollowsAt(InfoHead(series), StatusMark, series.status, StatusClose, ds, InfoClose);
  }

  /** Supplying a description inserts exactly `<p>{text}</p>` right before
      the closing markup, and changes nothing else. */
  lemma InfoDescriptionToggle(series: Select, text: string)
    ensures var without := InfoHtml(series.(description := None));
            var k := |without| - |InfoClose|;
            InfoHtml(series.(description := Some(text))) == without[..k] + DescriptionOpen + text + DescriptionClose + without[k..]
  {
    var body := InfoHead(series) + ReleaseSegment(series.releaseDate) + StatusSegment(series.status);
    var x := DescriptionOpen + text + DescriptionClose;
    assert InfoHtml(series.(description := None)) == body + "" + InfoClose;
    assert InfoHtml(series.(description := Some(text))) == body + x + InfoClose;
    InsertBeforeLast(body, x, InfoClose);
  }

  /** Without a description, the close of the status markup directly
      precedes the closing markup: no `<p>` segment is rendered. */
  lemma InfoDescriptionAbsent(series: Select)
    requires series.description == None
    ensures var r := InfoHtml(series);
            var k := |r| - |InfoClose|;
            |StatusClose| <= k && r[k - |StatusClose|..k] == StatusClose
  {
    var front := InfoHead(series) + ReleaseSegment(series.releaseDate);
    assert InfoHtml(series) == front + (StatusMark + series.status + StatusClose) + "" + InfoClose;
    EndsBefore(front, StatusMark, series.status, StatusClose, InfoClose);
  }

  /** Offsets of the title, count and status inside a block assembled
      the way `InfoHtml` assembles it. */
  lemma {:induction false} PieceOffsets(o: string, im: string, ic: string, ti: string, tc: string, d: string,
                                        rel: string, sm: string, st: string, sc: string, ds: string, cl: string)
    ensures var r := (o + im + ic + ti + tc + d) + rel + (sm + st + sc) + ds + cl;
            var t := |o| + |im| + |ic|;
            var n := t + |ti| + |tc|;
            var s := n + |d| + |rel| + |sm|;
            && s + |st| <= |r|
            && r[t..t + |ti|] == ti
            && r[n..n + |d|] == d
            && r[s..s + |st|] == st
  {
    var r := (o + im + ic + ti + tc + d) + rel + (sm + st + sc) + ds + cl;
    var p1 := o + im + ic;
    var p2 := p1 + ti + tc;
    var p3 := p2 + d + rel + sm;
    var rest := sc + ds + cl;
    assert r == p3 + st + rest;
    SliceMiddle(p3, st, rest);
    var afterD := rel + sm + st + rest;
    assert r == p2 + d + afterD;
    SliceMiddle(p2, d, afterD);
    var afterT := tc + d + afterD;
    assert r == p1 + ti + afterT;
    SliceMiddle(p1, ti, afterT);
  }

  /** The fields can be read back at fixed offsets: the title after the
      image markup, the episode count (as a numeral) after the title
      markup, and the status, unchanged, after the optional release
      segment. */
  lemma InfoFieldsInOrder(series: Select)
    ensures var r := InfoHtml(series);
            var t := |InfoOpen| + |series.image| + |ImageClose|;
            var n := t + |series.title| + |TitleClose|;
            var d := DecimalString(series.totalEpisodes as nat);
            var s := n + |d| + |ReleaseSegment(series.releaseDate)| + |StatusMark|;
            && s + |series.status| <= |r|
            && r[t..t + |series.title|] == series.title
            && IsDigits(r[n..n + |d|])
            && ParseDecimal(r[n..n + |d|]) == series.totalEpisodes as int
            && r[s..s + |series.status|] == series.status
  {
    PieceOffsets(InfoOpen, series.image, ImageClose, series.title, TitleClose,
                 DecimalString(series.totalEpisodes as nat), ReleaseSegment(series.releaseDate),
                 StatusMark, series.status, StatusClose, DescriptionSegment(series.description), InfoClose);
    ParseDecimalString(series.totalEpisodes as nat);
  }
}
