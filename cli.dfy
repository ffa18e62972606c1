/**
 * The command-line driver, `main`: split the argument vector into URLs, a
 * scrape flag and a source type, then run one job per URL in order,
 * continuing after failures.
 */
module Cli {
  import opened Text
  import opened Orchestrator

  /** The parsed command line. */
  datatype Args = Args(urls: seq<string>, scrape: bool, sourceType: string)

  /** Too few arguments (exit status 1), or the parsed arguments. */
  datatype Parsed = UsageError | Parsed(args: Args)

  /**
   * Splits `argv` (program name first): at least four entries are needed;
   * the last two are the scrape flag and the source type, the ones between
   * the program name and those two are the URLs. The flag is set exactly
   * when its argument spells "true" in any case.
   */
  function ParseArgv(argv: seq<string>): (r: Parsed)
    ensures r.UsageError? <==> |argv| < 4
    ensures r.Parsed? ==>
              && |r.args.urls| == |argv| - 3 >= 1
              && argv == [argv[0]] + r.args.urls + [argv[|argv| - 2], r.args.sourceType]
              && (r.args.scrape <==> SpellsTrue(argv[|argv| - 2]))
  {
    if |argv| < 4 then
      UsageError
    else
      LowerIsTrueIff(argv[|argv| - 2]);
      Parsed(Args(argv[1..|argv| - 2], AsciiLower(argv[|argv| - 2]) == "true", argv[|argv| - 1]))
  }

  /** The pages fetched by a sequence of jobs, in order. */
  function Fetches(runs: seq<JobRun>): seq<string>
  {
    if runs == [] then [] else Fetches(runs[..|runs| - 1]) + runs[|runs| - 1].fetched
  }

  /** The backend calls made by a sequence of jobs, in order. */
  function Attempts(runs: seq<JobRun>): seq<string>
  {
    if runs == [] then [] else Attempts(runs[..|runs| - 1]) + runs[|runs| - 1].attempted
  }

  /** A job of a batch: what it does, given its URL and the call numbers it starts from. */
  type Job = (string, nat, nat) -> JobRun

  /** The job `main` runs for each URL: `download` with the shared flag and source type. */
  function DownloadJob(env: Env, flag: bool, hint: Hint): Job
  {
    (url: string, nf: nat, nt: nat) => RunJob(env, url, flag, hint, nf, nt)
  }

  /**
   * The `k`-th run of a batch is `job` on the `k`-th URL, started after
   * exactly the page fetches and backend calls of the runs before it.
   */
  ghost predicate JobInBatch(job: Job, urls: seq<string>, nf: nat, nt: nat, runs: seq<JobRun>, k: int)
    requires 0 <= k < |runs| <= |urls|
  {
    runs[k] == job(urls[k], nf + |Fetches(runs[..k])|, nt + |Attempts(runs[..k])|)
  }

  /**
   * Appending the next run to a batch: the earlier runs keep their place, and
   * the new one is in place when it starts after everything the earlier ones did.
   */
  lemma {:induction false} BatchStep(job: Job, urls: seq<string>, nf: nat, nt: nat, runs: seq<JobRun>, run: JobRun)
    requires |runs| < |urls|
    requires forall k :: 0 <= k < |runs| ==> JobInBatch(job, urls, nf, nt, runs, k)
    requires run == job(urls[|runs|], nf + |Fetches(runs)|, nt + |Attempts(runs)|)
    ensures forall k :: 0 <= k <= |runs| ==> JobInBatch(job, urls, nf, nt, runs + [run], k)
    ensures Fetches(runs + [run]) == Fetches(runs) + run.fetched
    ensures Attempts(runs + [run]) == Attempts(runs) + run.attempted
  {
    var runs' := runs + [run];
    assert runs'[..|runs|] == runs;
    assert JobInBatch(job, urls, nf, nt, runs', |runs|);
    forall k | 0 <= k < |runs|
      ensures JobInBatch(job, urls, nf, nt, runs', k)
    {
      assert runs'[..k] == runs[..k];
      assert runs'[k] == runs[k];
      assert JobInBatch(job, urls, nf, nt, runs, k);
    }
  }

  /**
   * One turn of `main`'s loop, on the traces: after the next run, the batch
   * and the recorded calls have both grown by that run.
   */
  lemma BatchTraceStep(job: Job, urls: seq<string>, f0: seq<string>, a0: seq<string>, runs: seq<JobRun>,
                       run: JobRun, f: seq<string>, a: seq<string>)
    requires |runs| < |urls|
    requires forall k :: 0 <= k < |runs| ==> JobInBatch(job, urls, |f0|, |a0|, runs, k)
    requires run == job(urls[|runs|], |f0 + Fetches(runs)|, |a0 + Attempts(runs)|)
    requires f == f0 + Fetches(runs) + run.fetched && a == a0 + Attempts(runs) + run.attempted
    ensures forall k :: 0 <= k <= |runs| ==> JobInBatch(job, urls, |f0|, |a0|, runs + [run], k)
    ensures f == f0 + Fetches(runs + [run]) && a == a0 + Attempts(runs + [run])
  {
    BatchStep(job, urls, |f0|, |a0|, runs, run);
    assert f == f0 + (Fetches(runs) + run.fetched);
    assert a == a0 + (Attempts(runs) + run.attempted);
  }

  /**
   * The loop of `main`: one `download` per URL, in order and whatever the
   * earlier ones returned. `results` holds what each call returned (the
   * source logs the URL of each false one); `runs` is what each call did.
   */
  method DownloadUrls(downloader: MusicDownloader, urls: seq<string>, scrape: bool, sourceType: string)
    returns (results: seq<bool>, ghost runs: seq<JobRun>)
    modifies downloader.services
    ensures |runs| == |results| == |urls|
    ensures forall k :: 0 <= k < |urls| ==> results[k] == runs[k].ok
    ensures forall k :: 0 <= k < |urls| ==>
              JobInBatch(DownloadJob(downloader.services.env, scrape, ParseHint(sourceType)), urls,
                         |old(downloader.services.fetched)|, |old(downloader.services.attempted)|, runs, k)
    ensures downloader.services.fetched == old(downloader.services.fetched) + Fetches(runs)
    ensures downloader.services.attempted == old(downloader.services.attempted) + Attempts(runs)
  {
    var services := downloader.services;
    ghost var env := services.env;
    ghost var nf0, nt0 := |services.fetched|, |services.attempted|;
    ghost var job := DownloadJob(env, scrape, ParseHint(sourceType));
    results, runs := [], [];
    var i := 0;
    while i < |urls|
      invariant 0 <= i <= |urls|
      invariant |runs| == |results| == i
      invariant forall k :: 0 <= k < i ==> results[k] == runs[k].ok
      invariant forall k :: 0 <= k < i ==> JobInBatch(job, urls, nf0, nt0, runs, k)
      invariant services.fetched == old(services.fetched) + Fetches(runs)
      invariant services.attempted == old(services.attempted) + Attempts(runs)
    {
      ghost var run := job(urls[i], |services.fetched|, |services.attempted|);
      var ok := downloader.Download(urls[i], scrape, sourceType);
      BatchTraceStep(job, urls, old(services.fetched), old(services.attempted), runs, run,
                     services.fetched, services.attempted);
      assert forall k :: 0 <= k < i ==> (runs + [run])[k] == runs[k];
      runs := runs + [run];
      results := results + [ok];
      i := i + 1;
    }
  }

  /**
   * `main` on an argument vector: status 1 and no work with fewer than four
   * entries; otherwise the downloads of every URL, with the parsed flag and
   * source type.
   */
  method Run(argv: seq<string>, services: Services) returns (status: int, results: seq<bool>, ghost runs: seq<JobRun>)
    modifies services
    ensures |argv| < 4 ==>
              && status == 1 && results == [] && runs == []
              && services.fetched == old(services.fetched) && services.attempted == old(services.attempted)
    ensures |argv| >= 4 ==>
              var args := ParseArgv(argv).args;
              && status == 0
              && |runs| == |results| == |args.urls|
              && (forall k :: 0 <= k < |runs| ==>
                    && results[k] == runs[k].ok
                    && JobInBatch(DownloadJob(services.env, args.scrape, ParseHint(args.sourceType)), args.urls,
                                  |old(services.fetched)|, |old(services.attempted)|, runs, k))
              && services.fetched == old(services.fetched) + Fetches(runs)
              && services.attempted == old(services.attempted) + Attempts(runs)
  {
    if |argv| < 4 {
      return 1, [], [];
    }
    var scrape := AsciiLower(argv[|argv| - 2]) == "true";
    var sourceType := argv[|argv| - 1];
    var urls := argv[1..|argv| - 2];
    var downloader := new MusicDownloader(services);
    results, runs := DownloadUrls(downloader, urls, scrape, sourceType);
    status := 0;
  }
}
