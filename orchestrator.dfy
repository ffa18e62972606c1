/**
 * The download orchestrator: `MusicDownloader.download` with the control
 * flow of `scrape_internal_links` and `download_track`.
 *
 * The page fetch (`urlopen` plus UTF-8 decoding) and the extraction
 * backend (`yt_dlp`) are external collaborators. An `Env` gives their
 * behaviour as arbitrary functions of the call number and the URL, so any
 * behaviour of the real services, changing from call to call, is one
 * `Env`. A `Services` object records the URLs each collaborator was
 * called with, in call order.
 */
module Orchestrator {
  import opened Text
  import opened Classifier
  import opened LinkParsing

  /** The source-type string that asks for classification. */
  const AutoDetectName := "auto_detect"

  /** The source type a job is given: classify the URL, or use the type as it is. */
  datatype Hint = AutoDetect | Given(t: SourceType)

  /** Reads the source-type argument of `download`. */
  function ParseHint(s: string): (h: Hint)
    ensures h == AutoDetect <==> s == AutoDetectName
    ensures h.Given? ==> TypeName(h.t) == s && h.t == TypeNamed(s)
  {
    if s == AutoDetectName then AutoDetect else Given(TypeNamed(s))
  }

  /** What fetching and decoding a page gave: an error, or the page's start tags. */
  datatype FetchResult = FetchFailed | Page(events: seq<StartTag>)

  /**
   * One backend call: the track downloaded; `extract_info` or the log line
   * after it raised (caught and logged inside `download_track`); or something
   * raised outside the `try` of `download_track`, which it does not catch:
   * creating the `YoutubeDL` object, entering its `with` block, or leaving it.
   */
  datatype TrackOutcome = Completed | ExtractFailed | SetupFailed

  /** The external collaborators, as functions of (call number, URL). */
  datatype Env = Env(
    fetchPage: (nat, string) -> FetchResult,
    extract: (nat, string) -> TrackOutcome,
    join: UrlJoin)

  /** The result of scraping: the discovered links, or an exception from the parser. */
  datatype ScrapeOutcome = Found(links: seq<string>) | ParseRaised

  /** URLs handed to `download_track`, and whether one of those calls raised. */
  datatype Tracks = Tracks(attempted: seq<string>, escaped: bool)

  /** What one job does: its result, the pages it fetched and the tracks it attempted. */
  datatype JobRun = JobRun(ok: bool, fetched: seq<string>, attempted: seq<string>)

  /** The source type a job works with: the given one, unless it is the sentinel. */
  function ResolveType(hint: Hint, url: string): SourceType
  {
    match hint
    case AutoDetect => DetectSourceType(url)
    case Given(t) => t
  }

  /** The domain guard: a platform or direct-link type whose URL names neither platform. */
  predicate GuardRejects(t: SourceType, url: string)
  {
    (t == SoundCloud || t == Bandcamp || t == DirectLink) &&
    !Contains(url, SoundCloudHost) && !Contains(url, BandcampHost)
  }

  /** Whether the job is rejected before doing anything. */
  predicate Rejected(hint: Hint, url: string)
  {
    GuardRejects(ResolveType(hint, url), url)
  }

  /** Scraping is asked for, or the type is an archive. */
  predicate ShouldScrape(flag: bool, t: SourceType)
  {
    flag || t == Archive
  }

  /** `scrape_internal_links` as the `nf`-th page fetch: a failed fetch yields no links. */
  function Scrape(env: Env, url: string, nf: nat): ScrapeOutcome
  {
    match env.fetchPage(nf, url)
    case FetchFailed => Found([])
    case Page(events) =>
      var s := PageLinks(url, env.join, events);
      if s.raised then ParseRaised else Found(s.links)
  }

  /** The links a job discovers: those scraped, or none when it does not scrape. */
  function Discovered(env: Env, url: string, flag: bool, t: SourceType, nf: nat): ScrapeOutcome
  {
    if ShouldScrape(flag, t) then Scrape(env, url, nf) else Found([])
  }

  /** The `n`-th backend call, on `url`, raises out of `download_track`. */
  predicate Escapes(env: Env, n: nat, url: string)
  {
    env.extract(n, url) == SetupFailed
  }

  /** Calls `download_track` on each URL in turn, from backend call number `n`, until one raises. */
  function DownloadAll(env: Env, urls: seq<string>, n: nat): (r: Tracks)
    ensures |r.attempted| <= |urls|
  {
    if urls == [] then Tracks([], false)
    else if Escapes(env, n, urls[0]) then Tracks([urls[0]], true)
    else
      var rest := DownloadAll(env, urls[1..], n + 1);
      Tracks([urls[0]] + rest.attempted, rest.escaped)
  }

  /**
   * One `download` call, as the `nf`-th page fetch and `nt`-th backend call
   * onwards: resolve the type, apply the guard, maybe scrape, then download
   * the URL and every discovered link.
   */
  function RunJob(env: Env, url: string, flag: bool, hint: Hint, nf: nat, nt: nat): JobRun
  {
    var t := ResolveType(hint, url);
    if GuardRejects(t, url) then
      JobRun(false, [], [])
    else
      var fetched := if ShouldScrape(flag, t) then [url] else [];
      match Discovered(env, url, flag, t, nf)
      case ParseRaised => JobRun(false, fetched, [])
      case Found(links) =>
        var d := DownloadAll(env, [url] + links, nt);
        JobRun(!d.escaped, fetched, d.attempted)
  }

  /** The tracks attempted are a prefix of the URLs, all of them unless a call raised. */
  lemma {:induction false} DownloadAllPrefix(env: Env, urls: seq<string>, n: nat)
    ensures var r := DownloadAll(env, urls, n);
      && r.attempted == urls[..|r.attempted|]
      && (!r.escaped ==> |r.attempted| == |urls|)
  {
    if urls != [] && !Escapes(env, n, urls[0]) {
      DownloadAllPrefix(env, urls[1..], n + 1);
      var rest := DownloadAll(env, urls[1..], n + 1);
      assert [urls[0]] + urls[1..][..|rest.attempted|] == urls[..|rest.attempted| + 1];
    }
  }

  /**
   * A run that escapes stops right after the first call that raises; a run
   * that does not escape met no call that raises.
   */
  lemma {:induction false} DownloadAllStops(env: Env, urls: seq<string>, n: nat)
    ensures var r := DownloadAll(env, urls, n);
      && (r.escaped ==> |r.attempted| > 0 && Escapes(env, n + |r.attempted| - 1, urls[|r.attempted| - 1]))
      && (forall i :: 0 <= i < |r.attempted| - 1 ==> !Escapes(env, n + i, urls[i]))
      && (!r.escaped ==> forall i :: 0 <= i < |urls| ==> !Escapes(env, n + i, urls[i]))
  {
    if urls != [] && !Escapes(env, n, urls[0]) {
      DownloadAllStops(env, urls[1..], n + 1);
      assert forall i :: 1 <= i < |urls| ==> urls[i] == urls[1..][i - 1];
    }
  }

  /**
   * The tracks attempted are a prefix of the URLs; the run escapes exactly
   * when some call raises, and then stops right after the first such call;
   * otherwise every URL is attempted, in order.
   */
  lemma DownloadAllSpec(env: Env, urls: seq<string>, n: nat)
    ensures var r := DownloadAll(env, urls, n);
      && r.attempted == urls[..|r.attempted|]
      && (r.escaped <==> exists i :: 0 <= i < |urls| && Escapes(env, n + i, urls[i]))
      && (!r.escaped ==> r.attempted == urls)
      && (r.escaped ==> |r.attempted| > 0 && Escapes(env, n + |r.attempted| - 1, urls[|r.attempted| - 1]))
      && (forall i :: 0 <= i < |r.attempted| - 1 ==> !Escapes(env, n + i, urls[i]))
  {
    DownloadAllPrefix(env, urls, n);
    DownloadAllStops(env, urls, n);
  }

  /**
   * One turn of the track loop: with `after` the backend calls once the
   * `i`-th URL is handed over, the calls still owed by the rest shrink
   * accordingly.
   */
  lemma DownloadAllStep(env: Env, urls: seq<string>, i: int, n: nat,
                        before: seq<string>, after: seq<string>, escaped: bool)
    requires 0 <= i < |urls|
    requires after == before + [urls[i]]
    requires escaped == Escapes(env, n, urls[i])
    ensures DownloadAll(env, urls[i..], n).escaped == (escaped || DownloadAll(env, urls[i + 1..], n + 1).escaped)
    ensures escaped ==> before + DownloadAll(env, urls[i..], n).attempted == after
    ensures !escaped ==>
              before + DownloadAll(env, urls[i..], n).attempted == after + DownloadAll(env, urls[i + 1..], n + 1).attempted
  {
    assert urls[i..][0] == urls[i] && urls[i..][1..] == urls[i + 1..];
    if !escaped {
      var rest := DownloadAll(env, urls[i + 1..], n + 1).attempted;
      assert before + ([urls[i]] + rest) == after + rest;
    }
  }

  /** A rejected job fails without fetching a page or calling the backend. */
  lemma RejectedJobDoesNothing(env: Env, url: string, flag: bool, hint: Hint, nf: nat, nt: nat)
    requires Rejected(hint, url)
    ensures RunJob(env, url, flag, hint, nf, nt) == JobRun(false, [], [])
  {
  }

  /**
   * Under auto-detection the guard rejects exactly the URLs that mention
   * none of `archive.org`, `soundcloud.com` and `bandcamp.com`.
   */
  lemma AutoDetectRejectsIff(url: string)
    ensures Rejected(AutoDetect, url) <==>
              !Contains(url, ArchiveHost) && !Contains(url, SoundCloudHost) && !Contains(url, BandcampHost)
  {
  }

  /** A given source type is used as it is: the classifier is not consulted. */
  lemma GivenTypeIsTrusted(s: string, url: string)
    requires s != AutoDetectName
    ensures ResolveType(ParseHint(s), url) == TypeNamed(s)
    ensures Rejected(ParseHint(s), url) <==> GuardRejects(TypeNamed(s), url)
  {
  }

  /**
   * A job fetches its own page, once, exactly when the guard passes and
   * scraping is asked for or the type is an archive; it fetches nothing else.
   */
  lemma FetchesIff(env: Env, url: string, flag: bool, hint: Hint, nf: nat, nt: nat)
    ensures var run := RunJob(env, url, flag, hint, nf, nt);
      run.fetched == (if !Rejected(hint, url) && ShouldScrape(flag, ResolveType(hint, url)) then [url] else [])
  {
  }

  /**
   * A scrape whose fetch fails discovers nothing: the job still downloads
   * the URL itself, and succeeds unless that call raises.
   */
  lemma FailedFetchDownloadsPageOnly(env: Env, url: string, flag: bool, hint: Hint, nf: nat, nt: nat)
    requires !Rejected(hint, url) && ShouldScrape(flag, ResolveType(hint, url))
    requires env.fetchPage(nf, url) == FetchFailed
    ensures var run := RunJob(env, url, flag, hint, nf, nt);
      run.fetched == [url] && run.attempted == [url] && (run.ok <==> !Escapes(env, nt, url))
  {
    assert Discovered(env, url, flag, ResolveType(hint, url), nf) == Found([]);
    assert ([url] + [])[1..] == [];
    assert DownloadAll(env, [url], nt) == Tracks([url], Escapes(env, nt, url));
  }

  /**
   * A job succeeds exactly when the guard passes, scraping (if any) does not
   * raise, and no backend call raises out of `download_track`; then the
   * backend has been called on the URL and then on every discovered link,
   * in order, whatever each call's outcome. Even a failing job attempted a
   * prefix of that list, and a job whose page parse raised called the
   * backend not at all.
   */
  lemma {:induction false} JobOutcome(env: Env, url: string, flag: bool, hint: Hint, nf: nat, nt: nat)
    ensures var run := RunJob(env, url, flag, hint, nf, nt);
      var d := Discovered(env, url, flag, ResolveType(hint, url), nf);
      && (run.ok <==>
            && !Rejected(hint, url)
            && d.Found?
            && forall i :: 0 <= i < |[url] + d.links| ==> !Escapes(env, nt + i, ([url] + d.links)[i]))
      && (run.ok ==> run.attempted == [url] + d.links)
      && (!Rejected(hint, url) && d.Found? ==>
            run.attempted == ([url] + d.links)[..|run.attempted|])
      && (!Rejected(hint, url) && d.ParseRaised? ==> run.attempted == [])
  {
    if !Rejected(hint, url) && Discovered(env, url, flag, ResolveType(hint, url), nf).Found? {
      var d := Discovered(env, url, flag, ResolveType(hint, url), nf);
      DownloadAllSpec(env, [url] + d.links, nt);
    }
  }

  /**
   * A primary download whose extraction fails, followed by discovered links
   * that all download, still makes the job succeed.
   */
  lemma PrimaryFailureStillSucceeds(env: Env, url: string, flag: bool, hint: Hint, nf: nat, nt: nat)
    requires !Rejected(hint, url)
    requires Discovered(env, url, flag, ResolveType(hint, url), nf).Found?
    requires env.extract(nt, url) == ExtractFailed
    requires var links := Discovered(env, url, flag, ResolveType(hint, url), nf).links;
      forall i :: 0 <= i < |links| ==> env.extract(nt + 1 + i, links[i]) == Completed
    ensures RunJob(env, url, flag, hint, nf, nt).ok
  {
    var links := Discovered(env, url, flag, ResolveType(hint, url), nf).links;
    JobOutcome(env, url, flag, hint, nf, nt);
    assert forall i :: 1 <= i < |[url] + links| ==> ([url] + links)[i] == links[i - 1];
  }

  /** Every page fetch depends on the URL only. */
  ghost predicate StableFetch(env: Env)
  {
    forall k, k', u :: env.fetchPage(k, u) == env.fetchPage(k', u)
  }

  /** Every backend call depends on the URL only. */
  ghost predicate StableBackend(env: Env)
  {
    forall k, k', u :: env.extract(k, u) == env.extract(k', u)
  }

  /** With a backend that depends only on the URL, the call numbers do not matter. */
  lemma {:induction false} DownloadAllStable(env: Env, urls: seq<string>, n: nat, n': nat)
    requires StableBackend(env)
    ensures DownloadAll(env, urls, n) == DownloadAll(env, urls, n')
  {
    if urls != [] {
      assert env.extract(n, urls[0]) == env.extract(n', urls[0]);
      DownloadAllStable(env, urls[1..], n + 1, n' + 1);
    }
  }

  /**
   * Running the same job again against collaborators that answer each URL
   * the same way every time gives the same result, the same fetches and
   * the same backend calls.
   */
  lemma JobIdempotent(env: Env, url: string, flag: bool, hint: Hint, nf: nat, nt: nat, nf': nat, nt': nat)
    requires StableFetch(env) && StableBackend(env)
    ensures RunJob(env, url, flag, hint, nf, nt) == RunJob(env, url, flag, hint, nf', nt')
  {
    var t := ResolveType(hint, url);
    assert env.fetchPage(nf, url) == env.fetchPage(nf', url);
    assert Discovered(env, url, flag, t, nf) == Discovered(env, url, flag, t, nf');
    match Discovered(env, url, flag, t, nf)
    case ParseRaised =>
    case Found(links) => DownloadAllStable(env, [url] + links, nt, nt');
  }

  /**
   * The collaborators as seen by the program, with a record of the URLs
   * each was called with.
   */
  class Services {
    const env: Env
    var fetched: seq<string>
    var attempted: seq<string>

    constructor (env: Env)
      ensures this.env == env && fetched == [] && attempted == []
    {
      this.env := env;
      fetched := [];
      attempted := [];
    }

    /** `urlopen(url)` and decoding: the next page fetch. */
    method Urlopen(url: string) returns (r: FetchResult)
      modifies this
      ensures fetched == old(fetched) + [url] && attempted == old(attempted)
      ensures r == env.fetchPage(|old(fetched)|, url)
    {
      r := env.fetchPage(|fetched|, url);
      fetched := fetched + [url];
    }

    /** Setting up the backend and calling `extract_info(url)`: the next backend call. */
    method Extract(url: string) returns (r: TrackOutcome)
      modifies this
      ensures attempted == old(attempted) + [url] && fetched == old(fetched)
      ensures r == env.extract(|old(attempted)|, url)
    {
      r := env.extract(|attempted|, url);
      attempted := attempted + [url];
    }
  }

  /** The downloader, holding the collaborators it calls. */
  class MusicDownloader {
    const services: Services

    constructor (services: Services)
      ensures this.services == services
    {
      this.services := services;
    }

    /**
     * Downloads one track. An extraction error is logged and swallowed;
     * a failure to set up the backend escapes, reported as `escaped`.
     */
    method DownloadTrack(url: string) returns (escaped: bool)
      modifies services
      ensures services.attempted == old(services.attempted) + [url]
      ensures services.fetched == old(services.fetched)
      ensures escaped == Escapes(services.env, |old(services.attempted)|, url)
    {
      var outcome := services.Extract(url);
      match outcome
      case Completed =>
        escaped := false;
      case ExtractFailed =>
        escaped := false;
      case SetupFailed =>
        escaped := true;
    }

    /**
     * Fetches the page and collects its audio links. A failed fetch gives
     * no links; an exception from the parser is passed on as `ParseRaised`.
     */
    method ScrapeInternalLinks(url: string) returns (r: ScrapeOutcome)
      modifies services
      ensures services.fetched == old(services.fetched) + [url]
      ensures services.attempted == old(services.attempted)
      ensures r == Scrape(services.env, url, |old(services.fetched)|)
    {
      var page := services.Urlopen(url);
      match page
      case FetchFailed =>
        r := Found([]);
      case Page(events) =>
        var parser := new LinkParser(url, services.env.join);
        var raised := parser.Feed(events);
        if raised {
          r := ParseRaised;
        } else {
          r := Found(parser.links);
        }
    }

    /**
     * Calls `download_track` on each URL in turn, stopping only when a call
     * raises: the primary download followed by the loop over the
     * discovered links.
     */
    method DownloadEach(urls: seq<string>) returns (escaped: bool)
      modifies services
      ensures var d := DownloadAll(services.env, urls, |old(services.attempted)|);
        && escaped == d.escaped
        && services.attempted == old(services.attempted) + d.attempted
      ensures services.fetched == old(services.fetched)
    {
      ghost var n0 := |services.attempted|;
      escaped := false;
      var i := 0;
      while i < |urls|
        invariant 0 <= i <= |urls|
        invariant services.fetched == old(services.fetched)
        invariant |services.attempted| == n0 + i
        invariant old(services.attempted) + DownloadAll(services.env, urls, n0).attempted ==
                  services.attempted + DownloadAll(services.env, urls[i..], n0 + i).attempted
        invariant DownloadAll(services.env, urls, n0).escaped == DownloadAll(services.env, urls[i..], n0 + i).escaped
      {
        ghost var before := services.attempted;
        escaped := DownloadTrack(urls[i]);
        DownloadAllStep(services.env, urls, i, n0 + i, before, services.attempted, escaped);
        if escaped {
          return;
        }
        i := i + 1;
      }
    }

    /**
     * Runs one job. Returns false when the guard rejects the URL or an
     * exception escapes; true otherwise, whatever the tracks' outcomes.
     */
    method Download(url: string, scrapeInternalLinks: bool, sourceType: string) returns (ok: bool)
      modifies services
      ensures var run := RunJob(services.env, url, scrapeInternalLinks, ParseHint(sourceType),
                                |old(services.fetched)|, |old(services.attempted)|);
        && ok == run.ok
        && services.fetched == old(services.fetched) + run.fetched
        && services.attempted == old(services.attempted) + run.attempted
    {
      var t: SourceType;
      if sourceType == AutoDetectName {
        t := DetectSourceType(url);
      } else {
        t := TypeNamed(sourceType);
      }
      if t == SoundCloud || t == Bandcamp || t == DirectLink {
        if !(Contains(url, SoundCloudHost) || Contains(url, BandcampHost)) {
          return false;
        }
      }
      var internalLinks: seq<string> := [];
      if scrapeInternalLinks || t == Archive {
        var scraped := ScrapeInternalLinks(url);
        if scraped.ParseRaised? {
          return false;
        }
        internalLinks := scraped.links;
      }
      var escaped := DownloadEach([url] + internalLinks);
      return !escaped;
    }
  }
}
