# haiku gateway — a Dafny model of its request handling

haiku is a small Rocket server (`src/main.rs`) in front of an anime metadata
API. Each of its four POST routes (`/index`, `/select`, `/info`, `/search`)
reads a form-encoded body, checks the first `key=value` pair, fetches one URL
from the upstream API at `http://localhost:3000/anime/gogoanime/`, decodes
the JSON reply, and returns an HTML fragment:

- `/search` — the subtitled search hits as `<option>` tags (`filter_sub`,
  `construct_search_html`);
- `/select` — the series' episodes as `<option>` tags (`construct_select_html`);
- `/info` — a series-info block (`construct_info_html`);
- `/index` — a link to the hosted player for the chosen stream (`get_url`,
  `construct_index_html`).

This project models everything that happens after decoding, as pure
functions over immutable records, and proves what those steps promise.

| file | module | models |
|---|---|---|
| `wrappers.dfy` | `Wrappers` | `Option`, `Result` |
| `seqs.dfy` | `Seqs` | `Vec::retain`, the `push_str` loop, subsequences |
| `decimal.dfy` | `Decimal` | `u8` and its decimal rendering |
| `records.dfy` | `Records` | `Search`, `SearchElement`, `Select`, `SelectEpisode`, `Episode`, `Source`, and the failure kinds |
| `search_filter.dfy` | `SearchFilter` | `filter_sub` |
| `sources.dfy` | `Sources` | `get_url` |
| `options_html.dfy` | `OptionsHtml` | `construct_search_html`, `construct_select_html`, and a reader for their output |
| `fragments.dfy` | `Fragments` | `construct_index_html`, `construct_info_html` |
| `dispatch.dfy` | `Dispatch` | the four route handlers and `searchapi`'s URL |
| `scenarios.dfy` | `Scenarios` | concrete requests traced end to end |

Every `panic!`, failing `unwrap()` and out-of-bounds index after the body has
been read is a `Failure` value in the model (`UnreadableForm`, `EmptyForm`,
`InvalidRequestType`, `ApiUnreachable`, `ApiBodyUnreadable`, `MalformedJson`,
`NoSource`), so each property says which failure a bad request ends in.

The upstream API is a parameter `api: string -> Upstream` of `Serve`. An
`Upstream` is a transport error, a non-text body, or a text body given as its
three typed readings (search results, series info, episode sources), each
`None` where the JSON decoder would reject it.

Four behaviours of the code are easy to misread, and the model keeps them as written:

- Source selection. After keeping the `"default"` sources, the `"backup"`
  filter runs on that already-filtered list, not on the original one. So
  when the number of `"default"` sources is not exactly one, no URL is ever
  produced and the request fails (`NoSource`). No fallback to a backup
  source exists.
- Status. `as_uncased()` only changes how the string compares, so the status
  is printed exactly as received, not lower-cased.
- Episode label. The option label is the upstream episode number as
  received, not the episode's position in the list.
- Escaping. No text is HTML-escaped.

## Model

| member | source | states |
|---|---|---|
| Seqs.Retain | src/main.rs:48 | `Vec::retain`: survivors all pass the test, every passing value occurs in the result, none is invented, length does not grow (order and multiplicity are fixed by `Seqs.RetainAppend`) |
| Seqs.RetainAppend | src/main.rs:202-208 | retaining distributes over concatenation, which is order preservation |
| Decimal.DecimalString | src/main.rs:143 | the count renders as a non-empty digit string with no leading zero (except `0` itself) |
| Decimal.ParseDecimalString | src/main.rs:143 | reading the rendered count back yields the count |
| Decimal.U8Width | src/main.rs:259 | a `u8` count renders in one to three digits |
| SearchFilter.FilterSub | src/main.rs:198-210 | exactly the `"sub"` hits survive, unchanged, and the result is a subsequence of the input |
| SearchFilter.FilterSubAppend | src/main.rs:198-210 | filtering `a + b` is filtering `a` then `b`: relative order is preserved |
| SearchFilter.FilterSubIdempotent | src/main.rs:198-210 | filtering twice equals filtering once |
| SearchFilter.FilterSubExtremes | src/main.rs:198-210 | an all-`"sub"` list is returned unchanged; a list with no `"sub"` hit becomes empty |
| Sources.FirstUrl | src/main.rs:53 | `sources[0].url` succeeds exactly on a non-empty list, otherwise `NoSource` |
| Sources.GetUrl | src/main.rs:45-56 | a URL is returned iff exactly one source is `"default"`, and it is a `"default"` source's URL; otherwise `NoSource` |
| Sources.BackupOfDefaultsIsEmpty | src/main.rs:48-53 | the `"backup"` retain on the `"default"`-only list always leaves nothing |
| Sources.GetUrlUniqueDefault | src/main.rs:48-50 | with one `"default"` source, its URL is chosen whatever the other sources are |
| Sources.GetUrlAmbiguousDefault | src/main.rs:49-53 | two `"default"` sources make the request fail, even with a `"backup"` present |
| Sources.GetUrlSuccessMeansUniqueDefault | src/main.rs:48-50 | a returned URL is the URL of some source that is the only `"default"` one; that source's index is returned (the converse of `GetUrlUniqueDefault`) |
| Sources.GetUrlNoDefault | src/main.rs:49-53 | no `"default"` source makes the request fail, even with a `"backup"` present |
| OptionsHtml.ConstructSearchHtml | src/main.rs:212-218 | the `push_str` loop produces the in-order concatenation of one `<option>` per hit |
| OptionsHtml.ConstructSelectHtml | src/main.rs:92-101 | the `push_str` loop produces the in-order concatenation of one `<option>` per episode |
| OptionsHtml.OptionsBaseCases | src/main.rs:98 | empty lists render as `""`; one element renders as `<option value="{id}">{label}</option>` with label title (search) or number (episodes) |
| OptionsHtml.SearchOptionsAppend | src/main.rs:212-218 | rendering `a + b` is rendering `a` followed by rendering `b` |
| OptionsHtml.EpisodeOptionsAppend | src/main.rs:96-100 | rendering `a + b` is rendering `a` followed by rendering `b` |
| OptionsHtml.SearchOptionsAt | src/main.rs:214-216 | hit `i`'s tag sits between the tags of the hits before and after it |
| OptionsHtml.EpisodeOptionsAt | src/main.rs:97-99 | episode `i`'s tag sits between the tags of the episodes before and after it |
| OptionsHtml.SearchOptionsRoundTrip | src/main.rs:215 | reading a rendered search list back gives the hits' (id, title) pairs in order, when ids hold no `"` and titles no `<` |
| OptionsHtml.EpisodeOptionsRoundTrip | src/main.rs:98 | reading a rendered episode list back gives the (id, number) pairs in order, under the same condition |
| Fragments.IndexHtml | src/main.rs:58-64 | the link is the fixed player prefix, the URL verbatim, then `">enjoy!</a>` |
| Fragments.LinkTargetOfIndexHtml | src/main.rs:58-64 | the URL can be read back out of the link |
| Fragments.IndexHtmlOfLinkTarget | src/main.rs:58-64 | every text the reader accepts is the link of the URL it reads |
| Fragments.IndexHtmlInjective | src/main.rs:58-64 | distinct URLs give distinct links |
| Fragments.InfoHtml | src/main.rs:129-170 | the five pushed pieces in order; every text field is pushed in full, so the block is longer than image, title and status together (positions in InfoFrame, the Info*Toggle/Absent lemmas and InfoFieldsInOrder) |
| Fragments.InfoFrame | src/main.rs:129-170 | the block opens with the image URL verbatim and ends with the closing markup |
| Fragments.InfoReleaseToggle | src/main.rs:147-149 | a release date adds exactly `<br>release year: {date}` after the episode count and nothing else |
| Fragments.InfoReleaseAbsent | src/main.rs:147-153 | without a release date, the status markup directly follows the episode count |
| Fragments.InfoDescriptionToggle | src/main.rs:160-162 | a description adds exactly `<p>{text}</p>` before the closing markup and nothing else |
| Fragments.InfoDescriptionAbsent | src/main.rs:150-168 | without a description, the status markup's closing `</i></div>` directly precedes the block's closing markup |
| Fragments.InfoFieldsInOrder | src/main.rs:132-159 | title, episode count and status appear in that order at fixed offsets; the count reads back as the number and the status is printed as given |
| Dispatch.RequestArgument | src/main.rs:29-33 | the argument is the first pair's value, accepted iff the first key is the route's key; undecodable, empty and wrongly keyed bodies give their own failures |
| Dispatch.UpstreamPath | src/main.rs:34 | the request argument ends the path; the path is `watch/<arg>` on index (line 34), `info/<arg>` on select and info (lines 81, 118), and the argument itself on search (line 187) |
| Dispatch.ApiUrl | src/main.rs:222 | the fetched URL is the fixed API base followed by the path |
| Dispatch.ExpectedKey | src/main.rs:33 | the first key is `index` on index, `select` on select and on info, and `searchbox` on search (lines 80, 117, 186), and each key belongs to exactly those routes |
| Dispatch.ApiUrlInjective | src/main.rs:222 | distinct paths give distinct URL strings |
| Dispatch.ReadReply | src/main.rs:221-226 | a transport error and a non-text body fail with their own failures; a text body is passed on |
| Dispatch.Render | src/main.rs:37 | a reply of the wrong shape gives `MalformedJson`; rendering succeeds iff the reply decodes and, on index, source selection succeeds (lines 37, 84, 121, 190); `NoSource` arises only on index |
| Dispatch.Serve | src/main.rs:173-196 | on all four handlers (index 20-43, select 67-90, info 104-127, search 173-196): a fragment is produced only for a well-keyed first pair whose URL returned a text body; each malformed request gets its failure |
| Dispatch.ServeFirstPairOnly | src/main.rs:33-34 | pairs after the first never change the outcome |
| Dispatch.ServeConsultsOneUrl | src/main.rs:34 | the outcome depends on the upstream only through the one URL the first pair determines |
| Dispatch.SelectInfoAgree | src/main.rs:80-118 | select and info accept the same key and fetch the same `info/<id>` URL, so they succeed or fail together, with the same failure |
| Dispatch.SearchTextIsRawPath | src/main.rs:187 | the search text is the path itself, so `info/<id>` or `watch/<id>` typed as a search fetches the select or index URL |
| Dispatch.SearchResponseByElement | src/main.rs:190 | the search response is, hit by hit in upstream order, the hit's tag when subtitled and nothing when dubbed |
| Dispatch.ServeFragments | src/main.rs:186-192 | for a well-keyed request on any handler (select 80-86, info 117-123, search 186-192, with the upstream failures of each of 20-43, 67-90, 104-127, 173-196): an unreachable upstream gives `ApiUnreachable`, a non-text body `ApiBodyUnreadable`; a decoded reply gives the episode options (select), the info block (info) or the options of the sub hits (search) |
| Dispatch.ServeDecodeOutcome | src/main.rs:92-93 | on every handler (the decodes in index 20-43, select 67-90, info 104-127, search 173-196): a reply that does not decode to the route's shape gives `MalformedJson`; on select, info and search a decoded reply always gives a fragment |
| Dispatch.ServeIndexOutcome | src/main.rs:33-39 | the index route links the sole `"default"` source, and fails with `NoSource` in every other case |
| Scenarios.SearchKeepsOnlySub | src/main.rs:186-192 | a search answered with one sub and one dub hit offers only the sub one |
| Scenarios.SelectListsEpisodes | src/main.rs:80-86 | an episode numbered `1` with id `e1` is offered as `<option value="e1">1</option>` |
| Scenarios.IndexLinksDefault | src/main.rs:33-39 | a single `"default"` source is linked through the player |
| Scenarios.IndexTwoDefaultsFails | src/main.rs:48-53 | two `"default"` sources and one `"backup"` give `NoSource`, not the backup |
| Scenarios.IndexNoSourcesFails | src/main.rs:48-53 | an episode with no sources gives `NoSource` |
| Scenarios.WrongFirstKeyFails | src/main.rs:186-195 | a body whose first key is not `searchbox` is refused even if a later pair has that key |

## Left out

- Rocket bootstrap, the static `FileServer` and route mounting (src/main.rs:11-17): wiring only.
- Reading the body with its 2 MiB cap and the `async`/`.await` plumbing: I/O. The model starts from the decoded pair list.
- `serde_urlencoded` and `serde_json` decoding: foreign library code. Their results are inputs; a rejected form is `None`, and a JSON body that does not fit a shape is `None` in the `Reply`.
- The `reqwest` GET and `.text()` call: network I/O. Only the URL is modelled. The reply is whatever the `api` parameter returns for it.
- Dispatch.ApiUrlInjective: distinct URL strings, not distinct resources. `reqwest` parses the string as a URL, which percent-encodes spaces, resolves `..` segments and keeps `#…` from the server, so `a b` and `a%20b` reach the same resource. The `api` parameter absorbs that parsing.
- Reading the body as UTF-8 (src/main.rs:26, 73, 110, 179): the `.unwrap()` there panics on a non-UTF-8 body, which the model does not represent; it starts from an already decoded string.
- `Display` of the `f32` episode number: floating-point formatting. The rendered number is an opaque string carried by each `SelectEpisode`.
- Inter-tag whitespace of the raw strings in `construct_info_html`: the markup is kept as named constants, but indentation and line breaks are dropped.
- `_typeof` and `_echo`: debug helpers that are never called.
- HTTP status codes and Rocket's handling of a panicking handler: the model stops at the `Failure` value.
- A unified single-route variant that picks the operation from the first key: this source has no such route.
- OptionsHtml.SearchOptionsRoundTrip: holds only for ids without `"` and labels without `<`. Because nothing is escaped, other inputs can render ambiguously.
