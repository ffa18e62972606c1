# Music downloader: a verified model

This project models the core of `downloader.py`, a command-line tool. The
tool takes a list of page or track URLs, works out for each one which
service it belongs to (Internet Archive, SoundCloud, Bandcamp, or a plain
direct link), and optionally scrapes the page for links to audio files. It
then hands the URL and every discovered link to the `yt_dlp` extraction
backend, one by one.

The model has five modules:

- `Text` (`text.dfy`): Python's substring test `sub in s`, `str.endswith`,
  and the case folding behind `argv[-2].lower() == 'true'`.
- `Classifier` (`classifier.dfy`): the source types and
  `detect_source_type`. It tests for `archive.org`, then `soundcloud.com`,
  then `bandcamp.com`, and falls back to `direct_link`. Source types are
  strings in the program. Here the four known ones are constructors and any
  other string is `Other(name)`; `TypeName` and `TypeNamed` convert between
  the two forms.
- `LinkParsing` (`link_parser.dfy`): `LinkParser.handle_starttag`, as a
  class whose `links` field the methods append to. It is fed start-tag
  events that the HTML tokenizer has already produced. `HrefLinks`,
  `TagLinks` and `PageLinks` are the specification functions the methods
  are proved against.
- `Orchestrator` (`orchestrator.dfy`): `MusicDownloader.download`, with
  `scrape_internal_links` and `download_track`.
  - The page fetch and the extraction backend are an `Env`: arbitrary
    functions of the call number and the URL, so one `Env` can describe any
    behaviour of the real services, even one that changes between calls.
  - A `Services` object records the URLs each collaborator was called with.
  - `RunJob` is the specification of one `download` call: its result, the
    pages it fetched and the tracks it attempted.
- `Cli` (`cli.dfy`): `main`. It parses the argument vector, then calls
  `download` once per URL, in order, whatever the earlier calls returned.

Exceptions are modelled as the code raises and catches them:

- Creating the backend (`yt_dlp.YoutubeDL(...)`) and entering and leaving
  its `with` block happen outside the `try` in `download_track`. An
  exception raised there (`SetupFailed`) escapes to
  `download`'s handler, which turns the job into a failure and skips the
  remaining links.
- An error inside `extract_info` (`ExtractFailed`) is caught and logged, so
  the job still succeeds.
- A failed fetch or decode makes `scrape_internal_links` return no links.
- An anchor with a valueless `href` (`<a href>`) makes the tokenizer pass
  `None` as the value. `value.endswith` then raises. The `try` in
  `scrape_internal_links` covers only the fetch, so this exception reaches
  `download`, which returns false. One might expect a link scraper never to
  raise on malformed HTML; this one does, and the model follows the code
  (`RaisesOn`, `PageLinksRaised`, `ScrapeOutcome.ParseRaised`).

## Model

| member | source | states |
|---|---|---|
| Text.ContainsIff | downloader.py:88-92 | `Contains(s, sub)` (Python's `sub in s`) holds exactly when `sub` occurs at some index of `s` |
| Text.EndsWithIff | downloader.py:27-29 | `EndsWith(s, x)` (`s.endswith(x)`) holds exactly when `s` is some string followed by `x` |
| Text.AsciiLower | downloader.py:132 | lower-casing keeps the length of the argument |
| Text.LowerIsTrueIff | downloader.py:132 | the lower-cased flag argument equals `"true"` exactly when the argument is "true" in any mix of cases |
| Classifier.TypeNamed | downloader.py:59-70 | reading a source-type string gives back a type named by that same string; it is `Other` exactly when the string is none of the four known names |
| Classifier.NameRoundTrip | downloader.py:86-95 | naming any source type the program can hold and reading the name back gives the same type |
| Classifier.DetectSourceType | downloader.py:86-95 | always one of the four known types; `archive` iff the URL contains `archive.org`; `soundcloud` iff it does not but contains `soundcloud.com`; `bandcamp` iff neither but `bandcamp.com`; `direct_link` iff none of the three |
| Classifier.ArchiveHasPriority | downloader.py:88-89 | an occurrence of `archive.org` at any index makes the type `archive`, whatever other hosts the URL names |
| Classifier.NoPlatformHost | downloader.py:86-95 | a URL naming neither platform host is classified `archive` or `direct_link`, decided by `archive.org` alone |
| LinkParsing.HrefLinks | downloader.py:23-32 | one anchor never yields more links than it has attributes |
| LinkParsing.HrefLinksSpec | downloader.py:24-32 | an anchor raises iff it has a valueless `href`; every link is the `urljoin` of one of its audio `href`s; without a raise, every audio `href` yields its link |
| LinkParsing.HrefLinksAppend | downloader.py:25-32 | collecting over attributes `a + b` is collecting over `a` and then, unless `a` raised, over `b`: links come out in attribute order |
| LinkParsing.KeepsDuplicates | downloader.py:31-32 | the same audio `href` twice yields its resolved link twice; nothing is de-duplicated |
| LinkParsing.PageLinksRaised | downloader.py:24-27 | a page raises iff one of its `a` tags has a valueless `href` |
| LinkParsing.PageLinksSound | downloader.py:23-32 | every link a page yields is the resolution, against the page URL, of an audio `href` of one of its `a` tags |
| LinkParsing.PageLinksComplete | downloader.py:23-32 | a page that does not raise yields the resolution, against the page URL, of every audio `href` of every one of its `a` tags |
| LinkParsing.PageLinksAppend | downloader.py:23-32 | feeding two pieces of a page is feeding the first and then, unless it raised, the second: links come out in document order |
| LinkParsing.DocumentOrder | downloader.py:23-32 | two anchors with a relative `.mp3` and an absolute `.wav` come back resolved, in document order |
| LinkParsing.LinkParser.constructor | downloader.py:18-21 | a new parser keeps its base URL and starts with no links |
| LinkParsing.LinkParser.HandleStartTag | downloader.py:23-32 | a non-`a` tag leaves `links` unchanged; an `a` tag appends exactly `HrefLinks` of its attributes, and raises exactly when `HrefLinks` does |
| LinkParsing.LinkParser.Feed | downloader.py:110-111 | feeding a page appends exactly `PageLinks` of its events and raises exactly when `PageLinks` does |
| Orchestrator.ParseHint | downloader.py:59-60 | the argument asks for auto-detection iff it is `auto_detect`; otherwise the given type is the one the argument names (`archive` reads as `Archive`, never as `Other("archive")`) |
| Orchestrator.DownloadAll | downloader.py:73-78 | a run of `download_track` calls attempts at most as many URLs as it is given |
| Orchestrator.DownloadAllPrefix | downloader.py:73-78 | the tracks attempted are a prefix of the URLs, and all of them unless a call raised |
| Orchestrator.DownloadAllStops | downloader.py:116-123 | a run that escapes stops right after the first call that raises; a run that does not escape met no such call |
| Orchestrator.DownloadAllSpec | downloader.py:73-80 | prefix, escape iff some call raises, every URL attempted in order otherwise, stop right after the first raise |
| Orchestrator.RejectedJobDoesNothing | downloader.py:63-66 | a job the domain guard rejects returns false with no page fetch and no backend call |
| Orchestrator.AutoDetectRejectsIff | downloader.py:59-66 | under `auto_detect` the guard rejects exactly the URLs that name none of `archive.org`, `soundcloud.com`, `bandcamp.com` |
| Orchestrator.GivenTypeIsTrusted | downloader.py:59-63 | a type other than `auto_detect` is used as given, without consulting the classifier, and the guard judges that type |
| Orchestrator.FetchesIff | downloader.py:69-71 | a job fetches its own page, once, iff the guard passes and scraping was asked for or the type is `archive`; it fetches nothing else |
| Orchestrator.FailedFetchDownloadsPageOnly | downloader.py:102-107 | when the page fetch fails the job downloads only its own URL, and succeeds iff that call does not raise |
| Orchestrator.JobOutcome | downloader.py:53-84 | a job succeeds iff the guard passes, scraping does not raise and no `download_track` call raises; then it called the backend on the URL and then on every discovered link in order, whatever their outcomes; when the guard passes and scraping does not raise, even a failing job attempted a prefix of that list; when the guard passes and the page parse raises, the job made no backend call |
| Orchestrator.PrimaryFailureStillSucceeds | downloader.py:73-80 | a primary download whose extraction fails, followed by links that all download, still gives a successful job |
| Orchestrator.DownloadAllStable | downloader.py:116-123 | with a backend that answers each URL the same way every time, the call numbers do not change a run of downloads |
| Orchestrator.JobIdempotent | downloader.py:53-84 | against collaborators that answer each URL the same way every time, repeating a job gives the same result, fetches and backend calls |
| Orchestrator.Services.Urlopen | downloader.py:101-103 | a page fetch is recorded as the next fetch and answers as the environment says for that call number |
| Orchestrator.Services.Extract | downloader.py:118-120 | a backend call is recorded as the next call and answers as the environment says for that call number |
| Orchestrator.MusicDownloader.DownloadTrack | downloader.py:116-123 | calls the backend once on the URL; an extraction error is swallowed; reports an escape exactly when something outside the `try` (creating, entering or leaving the `YoutubeDL` block) raised |
| Orchestrator.MusicDownloader.ScrapeInternalLinks | downloader.py:97-114 | fetches the page once; a failed fetch gives no links; otherwise gives exactly the page's links, or the parser's exception |
| Orchestrator.MusicDownloader.DownloadEach | downloader.py:73-78 | calls `download_track` on the URLs in order, stopping only at a raise: the new backend calls and the escape are exactly those of `DownloadAll` |
| Orchestrator.MusicDownloader.Download | downloader.py:53-84 | result, pages fetched and backend calls are exactly those of `RunJob` for the current call numbers |
| Cli.ParseArgv | downloader.py:125-136 | a usage error iff fewer than four arguments; otherwise the URLs are everything between the program name and the last two, the flag is set iff its argument spells "true" in any case, and the source type is the last argument |
| Cli.DownloadUrls | downloader.py:138-143 | one `download` per URL, in order, each starting after the fetches and backend calls of the ones before; the records grow by exactly those calls |
| Cli.Run | downloader.py:125-143 | status 1 and no work with fewer than four arguments; otherwise status 0 and one `download` per parsed URL, in order, whatever the earlier ones returned |

## Left out

- The extraction backend itself (`yt_dlp`): its options (format, output
  template, FLAC post-processing, verbosity), the network and the files it
  writes. Each call is reduced to `TrackOutcome`, given by the environment.
- `urlopen` and UTF-8 decoding: a fetch either fails (`FetchFailed`, which
  covers both a network error and a decoding error) or yields the page's
  start-tag events.
- HTML tokenizing by `html.parser` is not part of this model. Tag and
  attribute names arrive already lower-cased and entity references already
  decoded. A self-closing `<a .../>` arrives as a start tag. `feed` without
  `close` may hold back an unfinished final tag; such a tag is simply not
  among the events.
- `urljoin` is the `UrlJoin` parameter. Its rules for resolving references
  are not modelled, and it is total here: the `ValueError` it can raise on a
  malformed URL is not modelled.
- Logging, the usage message, and creating the `downloads` directory at
  import time: these are output and file-system effects. `main`'s log line
  for each failed URL is represented by `results`.
- Text.AsciiLower: lower-cases only `A`–`Z`, not the whole of Unicode. For
  the one use, `== 'true'`, this gives the same answer: no other character
  lower-cases to one of `t`, `r`, `u`, `e`.
- Orchestrator.MusicDownloader.DownloadEach and Cli.DownloadUrls are the
  loops of `download` and `main`, written as methods of their own. The
  order and number of calls are unchanged.
- Orchestrator.MusicDownloader.Download: the default values of
  `download`'s parameters (`scrape_internal_links=False`,
  `source_type='auto_detect'`) are not modelled; the method takes all three
  arguments, as `main`, the only caller, always passes them.
- Exceptions other than those described above are not modelled. For
  example, a failing logger call inside `download` would also end the job
  with false.
