/**
 * `YTDownloadManager` of yt_download_manager.py: the ledger of finished downloads, the
 * skip-if-downloaded rule, the progress hook that turns engine events into a 0..100 value, and
 * the yt-dlp options built from the settings. The yt-dlp engine and the file system are a
 * `Backend` of oracle functions; the worker's stop flag is the `Cancellation` flag.
 */
module DownloadManager {
  import opened Wrappers
  import opened Text
  import opened AppSettings
  import opened Cancellation

  /** The keys of yt-dlp's info dictionary that the downloader reads. */
  datatype Info = Info(
    kind: Option<string>,          // "_type"
    title: Option<string>,
    channel: Option<string>,
    uploader: Option<string>,
    description: Option<string>,
    uploadDate: Option<string>,    // "upload_date", YYYYMMDD
    webpageUrl: Option<string>,
    id: Option<string>,
    entries: Option<seq<Option<Info>>>)

  /** The URL-to-path ledger (`downloaded_files`); `None` stands for a missing `webpage_url`. */
  type Ledger = map<Option<string>, string>

  // ---------------------------------------------------------------- progress hook

  /** The keys of one progress dictionary that the hook reads. */
  datatype ProgressEvent = ProgressEvent(
    status: Option<string>,
    totalBytes: Option<nat>,
    totalBytesEstimate: Option<nat>,
    downloadedBytes: Option<nat>)

  /** What one call of the hook does: raise `DownloadCancelled`, report a value, or nothing. */
  datatype HookResult = Cancel | Report(percent: int) | Silent

  /** The statuses the hook reports on. */
  predicate KnownStatus(s: Option<string>) {
    s == Some("downloading") || s == Some("finished") || s == Some("error")
    || s == Some("started") || s == Some("extracting")
  }

  /** `d.get('total_bytes') or d.get('total_bytes_estimate')`, with 0 standing for "unknown". */
  function TotalBytes(d: ProgressEvent): nat {
    if d.totalBytes.Some? && d.totalBytes.value != 0 then d.totalBytes.value
    else d.totalBytesEstimate.GetOr(0)
  }

  /**
   * `progress_hook(d)`, given the value `is_stopped()` returned. The percentage is the integer
   * part of downloaded/total*100.
   */
  function ProgressHook(stopped: bool, d: ProgressEvent): (r: HookResult)
    ensures r.Cancel? <==> stopped
    ensures r.Silent? <==> !stopped && !KnownStatus(d.status)
    ensures r.Report? && d.status == Some("downloading") && TotalBytes(d) > 0
            ==> r.percent * TotalBytes(d) <= d.downloadedBytes.GetOr(0) * 100
                < (r.percent + 1) * TotalBytes(d)
    ensures r.Report? && d.status == Some("downloading") && TotalBytes(d) == 0 ==> r.percent == 0
    ensures r.Report? && d.status == Some("finished") ==> r.percent == 100
    ensures r.Report? && d.status == Some("extracting") ==> r.percent == 50
    ensures r.Report? && (d.status == Some("error") || d.status == Some("started")) ==> r.percent == 0
  {
    if stopped then Cancel
    else if d.status == Some("downloading") then
      var total := TotalBytes(d);
      if total > 0 then Report(d.downloadedBytes.GetOr(0) * 100 / total) else Report(0)
    else if d.status == Some("finished") then Report(100)
    else if d.status == Some("error") || d.status == Some("started") then Report(0)
    else if d.status == Some("extracting") then Report(50)
    else Silent
  }

  /** An event whose byte counts never pass the total. */
  predicate Sane(d: ProgressEvent) {
    d.downloadedBytes.GetOr(0) <= TotalBytes(d)
  }

  /** Every value the hook reports for a sane event lies in 0..100. */
  lemma ProgressHookBounded(stopped: bool, d: ProgressEvent)
    requires Sane(d)
    ensures ProgressHook(stopped, d).Report? ==> 0 <= ProgressHook(stopped, d).percent <= 100
  {
    var r := ProgressHook(stopped, d);
    if r.Report? && d.status == Some("downloading") && TotalBytes(d) > 0 {
      var n, t := d.downloadedBytes.GetOr(0), TotalBytes(d);
      assert r.percent * t <= n * 100 <= t * 100 < 101 * t;
      MulCancel(r.percent, 101, t);
      assert 0 * t <= n * 100 < (r.percent + 1) * t;
      MulCancel(0, r.percent + 1, t);
    }
  }

  /** With the same total, more downloaded bytes never report a smaller value. */
  lemma ProgressHookMonotone(d: ProgressEvent, e: ProgressEvent)
    requires d.status == e.status == Some("downloading")
    requires TotalBytes(d) == TotalBytes(e)
    requires d.downloadedBytes.GetOr(0) <= e.downloadedBytes.GetOr(0)
    ensures ProgressHook(false, d).percent <= ProgressHook(false, e).percent
  {
    var t := TotalBytes(d);
    if t > 0 {
      var p, q := ProgressHook(false, d).percent, ProgressHook(false, e).percent;
      assert p * t < (q + 1) * t;
      MulCancel(p, q + 1, t);
    }
  }

  /** A product with a positive factor keeps the order of the other factors. */
  lemma MulCancel(a: int, b: int, t: int)
    requires t > 0 && a * t < b * t
    ensures a < b
  {
    assert a * t - b * t == (a - b) * t;
  }

  /** The hooks over the engine's events: the flag after them, the values reported, and whether one cancelled. */
  datatype HookRun = HookRun(flag: Flag, reports: seq<int>, cancelled: bool)

  /**
   * yt-dlp calls the hook once per event, reading the stop flag each time; the first
   * `DownloadCancelled` ends the download, so later events are never seen.
   */
  function RunHooks(f: Flag, events: seq<ProgressEvent>): (r: HookRun)
    ensures Later(f, r.flag)
    ensures |r.reports| <= |events|
    ensures f.stopped && events != [] ==> r.cancelled && r.reports == []
    ensures !r.cancelled ==> r.flag.polls == f.polls + |events|
    decreases |events|
  {
    if events == [] then HookRun(f, [], false)
    else
      var (f1, s) := Poll(f);
      match ProgressHook(s, events[0])
      case Cancel => HookRun(f1, [], true)
      case Report(p) => var rest := RunHooks(f1, events[1..]); rest.(reports := [p] + rest.reports)
      case Silent => RunHooks(f1, events[1..])
  }

  /** A run in which nobody stops the flag reports on every known event and never cancels. */
  lemma {:induction false} RunHooksUnstopped(f: Flag, events: seq<ProgressEvent>)
    requires NeverStops(f)
    ensures !RunHooks(f, events).cancelled && NeverStops(RunHooks(f, events).flag)
    ensures RunHooks(f, events).reports == Percents(KnownEvents(events))
    decreases |events|
  {
    if events != [] {
      PollNeverStops(f);
      RunHooksUnstopped(Poll(f).0, events[1..]);
      var k := KnownEvents(events[1..]);
      if KnownStatus(events[0].status) {
        assert ([events[0]] + k)[0] == events[0] && ([events[0]] + k)[1..] == k;
      } else {
        assert [] + k == k;
      }
    }
  }

  /** The values the hook reports, with the flag clear, for events whose status it knows. */
  function Percents(known: seq<ProgressEvent>): (ps: seq<int>)
    requires forall d :: d in known ==> KnownStatus(d.status)
    ensures |ps| == |known|
    ensures forall i :: 0 <= i < |known| ==> ProgressHook(false, known[i]) == Report(ps[i])
  {
    if known == [] then []
    else
      assert known[0] in known;
      assert forall d :: d in known[1..] ==> d in known;
      [ProgressHook(false, known[0]).percent] + Percents(known[1..])
  }

  /** The events whose status the hook knows. */
  function KnownEvents(events: seq<ProgressEvent>): (k: seq<ProgressEvent>)
    ensures |k| <= |events|
    ensures forall d :: d in k ==> d in events && KnownStatus(d.status)
  {
    if events == [] then []
    else (if KnownStatus(events[0].status) then [events[0]] else []) + KnownEvents(events[1..])
  }

  /** Every value the hooks report over sane events lies in 0..100. */
  lemma {:induction false} RunHooksBounded(f: Flag, events: seq<ProgressEvent>)
    requires forall d :: d in events ==> Sane(d)
    ensures forall p :: p in RunHooks(f, events).reports ==> 0 <= p <= 100
    decreases |events|
  {
    if events != [] {
      var (f1, s) := Poll(f);
      ProgressHookBounded(s, events[0]);
      assert forall d :: d in events[1..] ==> d in events;
      RunHooksBounded(f1, events[1..]);
    }
  }

  // ---------------------------------------------------------------- options

  /** The postprocessors yt-dlp is asked to run. */
  datatype Postprocessor = ExtractAudio(codec: string, quality: string) | FfmpegMetadata

  /** `ydl_opts` as passed to `yt_dlp.YoutubeDL`; the logger and the two hooks are implicit. */
  datatype YdlOpts = YdlOpts(
    outtmpl: string,
    format: string,
    mergeOutputFormat: Option<string>,
    postprocessors: seq<Postprocessor>,
    writeSubtitles: bool,
    writeAutomaticSub: bool,
    cookieFile: Option<string>,
    ignoreErrors: bool,
    quiet: bool,
    noWarnings: bool,
    writeThumbnail: bool,
    writeDescription: bool,
    writeInfoJson: bool,
    embedMetadata: bool,
    embedThumbnail: bool,
    continueDl: bool,
    retries: nat,
    fragmentRetries: nat,
    concurrentFragmentDownloads: nat)

  /** The dictionary literal before the format-dependent update. */
  function BaseOpts(outtmpl: string): YdlOpts {
    YdlOpts(outtmpl, "", None, [], true, true, None,
            true, true, true, true, true, true, false, false, true, 3, 3, 5)
  }

  /**
   * The options `download_video` builds: the format-dependent update, the subtitle switch and
   * the cookie file.
   */
  function YdlOptions(settings: Settings, cookiesFile: Option<string>, outtmpl: string): (o: YdlOpts)
    ensures var fmt := Lower(GetText(settings, "output_format", "mp4"));
            var quality := GetText(settings, "download_quality", "best");
            && (fmt == "mp3" ==> o.format == quality + "/bestaudio/best"
                                 && o.postprocessors == [ExtractAudio("mp3", "192"), FfmpegMetadata]
                                 && o.mergeOutputFormat.None?)
            && (fmt != "mp3" ==> o.format == quality + "+bestaudio/best" && o.postprocessors == []
                                 && o.mergeOutputFormat == Some(if fmt == "mkv" then "mkv" else "mp4"))
    ensures o.writeSubtitles == o.writeAutomaticSub == GetFlag(settings, "download_subtitles", false)
    ensures o.cookieFile.Some? <==> cookiesFile.Some? && cookiesFile.value != ""
    ensures o.cookieFile.Some? ==> o.cookieFile == cookiesFile
    ensures o.outtmpl == outtmpl
    ensures o.ignoreErrors && o.continueDl && !o.embedMetadata && !o.embedThumbnail && o.quiet && o.noWarnings
    ensures o.writeThumbnail && o.writeDescription && o.writeInfoJson
    ensures o.retries == 3 && o.fragmentRetries == 3 && o.concurrentFragmentDownloads == 5
  {
    var quality := GetText(settings, "download_quality", "best");
    var fmt := Lower(GetText(settings, "output_format", "mp4"));
    var o := BaseOpts(outtmpl);
    var o :=
      if fmt == "mp3" then
        o.(format := quality + "/bestaudio/best",
           postprocessors := [ExtractAudio("mp3", "192"), FfmpegMetadata])
      else if fmt == "mp4" || fmt == "mkv" then
        o.(format := quality + "+bestaudio/best", mergeOutputFormat := Some(fmt), postprocessors := [])
      else
        o.(format := quality + "+bestaudio/best", mergeOutputFormat := Some("mp4"), postprocessors := []);
    var subs := GetFlag(settings, "download_subtitles", false);
    var o := o.(writeSubtitles := subs, writeAutomaticSub := subs);
    if cookiesFile.Some? && cookiesFile.value != "" then o.(cookieFile := cookiesFile) else o
  }

  /** The merge container is always mp4 or mkv, and only mp3 output asks yt-dlp to post-process. */
  lemma YdlOptionsContainer(settings: Settings, cookiesFile: Option<string>, outtmpl: string)
    ensures var o := YdlOptions(settings, cookiesFile, outtmpl);
            && (o.mergeOutputFormat.Some? ==> o.mergeOutputFormat.value in {"mp4", "mkv"})
            && (o.postprocessors != [] <==> o.mergeOutputFormat.None?)
  {
  }

  // ---------------------------------------------------------------- ledger and download

  /** `output_template % {"ext": "mp4"}`: the path the skip check and the ledger use. */
  function OutputFilePath(template: string): (p: string)
    ensures !Contains(template, "%(ext)s") ==> p == template
  {
    var p := Replace(template, "%(ext)s", "mp4");
    assert !Contains(template, "%(ext)s") ==> p == template by {
      if !Contains(template, "%(ext)s") {
        ReplaceAbsent(template, "%(ext)s", "mp4");
      }
    }
    p
  }

  /** A template `prefix.%(ext)s` names the file `prefix.mp4` when `prefix` holds no placeholder. */
  lemma {:induction false} OutputFileOfTemplate(prefix: string)
    requires !Contains(prefix, "%(ext)s")
    ensures OutputFilePath(prefix + ".%(ext)s") == prefix + ".mp4"
    decreases |prefix|
  {
    var pat, s := "%(ext)s", prefix + ".%(ext)s";
    NoPlaceholderFirst(prefix);
    assert Replace(s, pat, "mp4") == [s[0]] + Replace(s[1..], pat, "mp4");
    if prefix == [] {
      assert s[1..] == pat && pat[..|pat|] == pat && pat[|pat|..] == [];
      assert Replace(pat, pat, "mp4") == "mp4" + Replace([], pat, "mp4") == "mp4";
    } else {
      if Contains(prefix[1..], pat) {
        ContainsTail(prefix, pat);
      }
      OutputFileOfTemplate(prefix[1..]);
      assert s[1..] == prefix[1..] + ".%(ext)s";
      assert [prefix[0]] + (prefix[1..] + ".mp4") == prefix + ".mp4";
    }
  }

  /** The placeholder does not start a template `prefix.%(ext)s` whose prefix does not hold it. */
  lemma NoPlaceholderFirst(prefix: string)
    requires !Contains(prefix, "%(ext)s")
    ensures (prefix + ".%(ext)s")[..7] != "%(ext)s"
  {
    var pat, s := "%(ext)s", prefix + ".%(ext)s";
    if |prefix| >= |pat| {
      assert !OccursAt(prefix, pat, 0);
      assert s[..|pat|] == prefix[..|pat|];
    } else {
      assert s[..|pat|][|prefix|] == '.' && pat[|prefix|] != '.';
    }
  }

  /** `info_dict.get('title') or f"video_{info_dict.get('id', 'unknown')}"`. */
  function VideoTitle(info: Info): (t: string)
    ensures info.title.Some? && info.title.value != "" ==> t == info.title.value
    ensures (info.title.None? || info.title.value == "") ==> t == "video_" + info.id.GetOr("unknown")
  {
    if info.title.Some? && info.title.value != "" then info.title.value
    else "video_" + info.id.GetOr("unknown")
  }

  /** The template handed to yt-dlp: the given template used as a folder, then the title. */
  function Outtmpl(template: string, info: Info): (o: string)
    ensures StartsWith(o, template + "/") && EndsWith(o, VideoTitle(info) + ".%(ext)s")
    ensures |o| == |template| + 1 + |VideoTitle(info)| + 8
  {
    template + "/" + VideoTitle(info) + ".%(ext)s"
  }

  /** What the engine does for one `ydl.download([url])`: the progress events, then how it ends. */
  datatype EngineEnd = Returned | Raised(msg: string)
  datatype EngineRun = EngineRun(events: seq<ProgressEvent>, end: EngineEnd)

  /** The oracles: the yt-dlp engine and `Path(p).exists()`. */
  datatype Backend = Backend(
    download: (Option<string>, YdlOpts) -> EngineRun,
    fileExists: string -> bool)

  /** How `download_video` ends: skipped, recorded in the ledger (possibly cancelled), or raising. */
  datatype Outcome = Skipped | Recorded(cancelled: bool) | Failed(msg: string)

  /** The effect of one `download_video` call. */
  datatype Download = Download(outcome: Outcome, flag: Flag, ledger: Ledger, reports: seq<int>)

  /** True when `download_video` returns at the skip check. */
  predicate SkipDownload(ledger: Ledger, url: Option<string>, template: string, b: Backend)
    ensures url in ledger ==> SkipDownload(ledger, url, template, b)
    ensures SkipDownload(ledger, url, template, b) <==> url in ledger || b.fileExists(OutputFilePath(template))
  {
    url in ledger || b.fileExists(OutputFilePath(template))
  }

  /** `download_video(url, template, info, callback, is_stopped)` as a function of the state. */
  function DownloadSpec(settings: Settings, cookiesFile: Option<string>, ledger: Ledger, flag: Flag,
                        url: Option<string>, template: string, info: Info, b: Backend): (d: Download)
    ensures d.outcome.Skipped? <==> SkipDownload(ledger, url, template, b)
    ensures d.outcome.Skipped? ==> d.ledger == ledger && d.flag == flag && d.reports == []
    ensures d.outcome.Recorded? ==> d.ledger == ledger[url := OutputFilePath(template)]
    ensures d.outcome.Failed? ==> d.ledger == ledger
    ensures forall k :: k in ledger ==> k in d.ledger && d.ledger[k] == ledger[k]
    ensures Later(flag, d.flag)
    ensures !SkipDownload(ledger, url, template, b) ==>
              var run := b.download(url, YdlOptions(settings, cookiesFile, Outtmpl(template, info)));
              var h := RunHooks(flag, run.events);
              && d.flag == h.flag && d.reports == h.reports
              && (d.outcome.Recorded? <==> h.cancelled || run.end.Returned?)
              && (d.outcome.Recorded? ==> d.outcome.cancelled == h.cancelled)
              && (d.outcome.Failed? ==> run.end == Raised(d.outcome.msg))
  {
    if SkipDownload(ledger, url, template, b) then Download(Skipped, flag, ledger, [])
    else
      var run := b.download(url, YdlOptions(settings, cookiesFile, Outtmpl(template, info)));
      var h := RunHooks(flag, run.events);
      if h.cancelled || run.end.Returned? then
        Download(Recorded(h.cancelled), h.flag, ledger[url := OutputFilePath(template)], h.reports)
      else
        Download(Failed(run.end.msg), h.flag, ledger, h.reports)
  }

  /** A download nobody stops is never cancelled and leaves the flag unstopped. */
  lemma DownloadUnstopped(settings: Settings, cookiesFile: Option<string>, ledger: Ledger, flag: Flag,
                          url: Option<string>, template: string, info: Info, b: Backend)
    requires NeverStops(flag)
    ensures var d := DownloadSpec(settings, cookiesFile, ledger, flag, url, template, info, b);
            d.outcome != Recorded(true) && NeverStops(d.flag)
  {
    if !SkipDownload(ledger, url, template, b) {
      RunHooksUnstopped(flag, b.download(url, YdlOptions(settings, cookiesFile, Outtmpl(template, info))).events);
    }
  }

  /** After a recorded download, asking for the same URL again is skipped. */
  lemma DownloadTwiceSkips(settings: Settings, cookiesFile: Option<string>, ledger: Ledger, flag: Flag,
                           url: Option<string>, template: string, info: Info, b: Backend,
                           template2: string, info2: Info)
    requires DownloadSpec(settings, cookiesFile, ledger, flag, url, template, info, b).outcome.Recorded?
    ensures var d := DownloadSpec(settings, cookiesFile, ledger, flag, url, template, info, b);
            DownloadSpec(settings, cookiesFile, d.ledger, d.flag, url, template2, info2, b).outcome.Skipped?
  {
  }

  /**
   * A download started with the flag already set, and reaching the engine with at least one
   * event, is cancelled by the first hook call: nothing is reported and the URL is recorded.
   */
  lemma DownloadStoppedCancels(settings: Settings, cookiesFile: Option<string>, ledger: Ledger, flag: Flag,
                               url: Option<string>, template: string, info: Info, b: Backend)
    requires flag.stopped && !SkipDownload(ledger, url, template, b)
    requires b.download(url, YdlOptions(settings, cookiesFile, Outtmpl(template, info))).events != []
    ensures var d := DownloadSpec(settings, cookiesFile, ledger, flag, url, template, info, b);
            d.outcome == Recorded(true) && d.reports == [] && url in d.ledger
  {
  }

  /** One step of `RunHooks`. */
  lemma RunHooksUnfold(f: Flag, events: seq<ProgressEvent>)
    requires events != []
    ensures var (f1, s) := Poll(f);
            var rest := RunHooks(f1, events[1..]);
            RunHooks(f, events) == match ProgressHook(s, events[0])
                                   case Cancel => HookRun(f1, [], true)
                                   case Report(p) => Continue([p], rest)
                                   case Silent => rest
  {
  }

  /** `RunHooks` split after the first `reports` values are already out. */
  function Continue(reports: seq<int>, h: HookRun): HookRun {
    h.(reports := reports + h.reports)
  }

  /**
   * yt-dlp's side of the progress hook: the hook called once per event until one raises
   * `DownloadCancelled`; `reports` are the values passed to the progress callback.
   */
  method RunProgressHooks(events: seq<ProgressEvent>, flag: StopFlag) returns (reports: seq<int>, cancelled: bool)
    modifies flag
    ensures HookRun(flag.State(), reports, cancelled) == RunHooks(old(flag.State()), events)
  {
    ghost var h0 := RunHooks(flag.State(), events);
    reports := [];
    cancelled := false;
    var i := 0;
    while i < |events| && !cancelled
      invariant 0 <= i <= |events|
      invariant !cancelled ==> Continue(reports, RunHooks(flag.State(), events[i..])) == h0
      invariant cancelled ==> HookRun(flag.State(), reports, true) == h0
      decreases |events| - i, if cancelled then 0 else 1
    {
      RunHooksUnfold(flag.State(), events[i..]);
      assert events[i..][0] == events[i] && events[i..][1..] == events[i + 1..];
      var stopped := flag.Read();
      var r := ProgressHook(stopped, events[i]);
      if r.Cancel? {
        cancelled := true;
      } else {
        if r.Report? {
          reports := reports + [r.percent];
        }
        i := i + 1;
      }
    }
    if !cancelled {
      assert events[i..] == [];
    }
  }

  /** The download manager object. */
  class Manager {
    const settings: Settings
    const cookiesFile: Option<string>
    /** `downloaded_files`. */
    var downloaded: Ledger
    /** The URLs handed to the engine so far. */
    ghost var engineCalls: seq<Option<string>>

    /** `YTDownloadManager(settings, cookies_file)` with the ledger the JSON file held. */
    constructor (settings: Settings, cookiesFile: Option<string>, loaded: Ledger)
      ensures this.settings == settings && this.cookiesFile == cookiesFile
      ensures downloaded == loaded && engineCalls == []
    {
      this.settings := settings;
      this.cookiesFile := cookiesFile;
      downloaded := loaded;
      engineCalls := [];
    }

    /** `save_downloaded_file(url, path)`: one ledger entry set, every other entry kept. */
    method SaveDownloadedFile(url: Option<string>, path: string)
      modifies this
      ensures downloaded == old(downloaded)[url := path]
      ensures engineCalls == old(engineCalls)
    {
      downloaded := downloaded[url := path];
    }

    /**
     * `download_video`: the skip check, then one engine run whose progress events go through
     * the hook (reading `flag` each time), then the ledger update unless the engine raised.
     * `reports` are the values passed to the progress callback.
     */
    method DownloadVideo(url: Option<string>, template: string, info: Info, flag: StopFlag, b: Backend)
      returns (reports: seq<int>, outcome: Outcome)
      modifies this, flag
      ensures var d := DownloadSpec(settings, cookiesFile, old(downloaded), old(flag.State()), url, template, info, b);
              outcome == d.outcome && reports == d.reports && downloaded == d.ledger && flag.State() == d.flag
      ensures engineCalls == old(engineCalls) + (if outcome.Skipped? then [] else [url])
    {
      if url in downloaded || b.fileExists(OutputFilePath(template)) {
        return [], Skipped;
      }
      var run := b.download(url, YdlOptions(settings, cookiesFile, Outtmpl(template, info)));
      engineCalls := engineCalls + [url];
      var cancelled;
      reports, cancelled := RunProgressHooks(run.events, flag);
      if cancelled || run.end.Returned? {
        SaveDownloadedFile(url, OutputFilePath(template));
        outcome := Recorded(cancelled);
      } else {
        outcome := Failed(run.end.msg);
      }
    }
  }
}
