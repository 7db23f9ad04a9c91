/**
 * `DownloadThread` of download_thread.py: the worker that walks the URL list, asks the
 * extractor what each URL is, downloads single videos and playlist entries through the
 * download manager, and reports through its signals. The signals are the `events` log; the
 * extractor and the engine are oracles; `is_stopped` is the `Cancellation` flag.
 *
 * The behaviour is first given as functions on a `Batch`, a snapshot of everything the
 * worker changes; the `Thread` class then carries out each step on its fields and is proved
 * to end in the state the function describes.
 */
module DownloadThread {
  import opened Wrappers
  import opened Text
  import opened AppSettings
  import opened Cancellation
  import opened Utils
  import opened DownloadManager

  /** One entry of `failed_urls`: `{"url": ..., "reason": ...}`. */
  datatype Failure = Failure(url: string, reason: string)

  /** One emitted signal, or a cool-off pause. */
  datatype Event =
    | Status(msg: string)                      // status_update
    | ItemProgress(percent: int)               // progress_update
    | TotalProgress(percent: int)              // total_progress_update
    | CurrentVideo(title: string)              // current_video_update
    | Description(text: string)                // update_description
    | FailedDownloads(failures: seq<Failure>)  // failed_downloads_signal
    | CoolOff(count: nat)                      // the sleep after every tenth URL
    | Finished                                 // finished

  const StoppedMsg: string := "Download stopped by user."
  const CompleteMsg: string := "Download complete"

  /** What `extract_info(url, download=False)` gives: an exception, or the info (None for no metadata). */
  datatype Extraction = ExtractError(msg: string) | Extracted(info: Option<Info>)

  /** The worker's fixed inputs and its oracles. */
  datatype Env = Env(
    output: string,
    settings: Settings,
    cookiesFile: Option<string>,
    extract: string -> Extraction,
    backend: Backend)

  /** Everything the worker changes: the flag, the manager's ledger, its own fields and the signals. */
  datatype Batch = Batch(
    flag: Flag,
    ledger: Ledger,
    failed: seq<Failure>,
    total: nat,
    completed: nat,
    counter: nat,
    events: seq<Event>)

  /** `a` is `b` extended at its end. */
  predicate Extends<T(==)>(a: seq<T>, b: seq<T>) {
    |a| <= |b| && b[..|a|] == a
  }

  /**
   * `r` can follow `b`: the flag only moves forward, ledger entries are never changed,
   * failures and signals are only appended, and the counters never go down.
   */
  predicate Grows(b: Batch, r: Batch) {
    && Later(b.flag, r.flag)
    && (forall k :: k in b.ledger ==> k in r.ledger && r.ledger[k] == b.ledger[k])
    && Extends(b.failed, r.failed)
    && Extends(b.events, r.events)
    && b.total <= r.total && b.completed <= r.completed && b.counter <= r.counter
  }

  lemma GrowsTrans(a: Batch, b: Batch, c: Batch)
    requires Grows(a, b) && Grows(b, c)
    ensures Grows(a, c)
  {
    assert c.failed[..|a.failed|] == c.failed[..|b.failed|][..|a.failed|];
    assert c.events[..|a.events|] == c.events[..|b.events|][..|a.events|];
  }

  function Emit(b: Batch, e: Event): (r: Batch)
    ensures Grows(b, r) && r.events == b.events + [e]
  {
    b.(events := b.events + [e])
  }

  function Fail(b: Batch, url: string, reason: string): (r: Batch)
    ensures Grows(b, r) && r.failed == b.failed + [Failure(url, reason)]
  {
    b.(failed := b.failed + [Failure(url, reason)])
  }

  /** The value `update_total_progress` emits. */
  function TotalProgressValue(completed: nat, total: nat): (p: int)
    ensures total > 0 ==> p * total <= completed * 100 < (p + 1) * total
    ensures total == 0 ==> p == 0
    ensures p >= 0
  {
    if total > 0 then completed * 100 / total else 0
  }

  /** While no more items are completed than counted, the overall progress stays within 100. */
  lemma TotalProgressBounded(completed: nat, total: nat)
    requires completed <= total
    ensures TotalProgressValue(completed, total) <= 100
  {
    var p := TotalProgressValue(completed, total);
    if total > 0 {
      assert p * total <= completed * 100 <= total * 100;
      MulCancel(p, 101, total);
    }
  }

  /** `update_total_progress()`. */
  function UpdateTotal(b: Batch): (r: Batch)
    ensures Grows(b, r) && r.events == b.events + [TotalProgress(TotalProgressValue(b.completed, b.total))]
  {
    Emit(b, TotalProgress(TotalProgressValue(b.completed, b.total)))
  }

  /** `self.completed_items += 1; self.update_total_progress()`. */
  function CompleteOne(b: Batch): (r: Batch)
    ensures Grows(b, r) && r.completed == b.completed + 1 && r.total == b.total
    ensures r.failed == b.failed && r.flag == b.flag && r.counter == b.counter
  {
    UpdateTotal(b.(completed := b.completed + 1))
  }

  /** `self.total_items += n`. */
  function AddTotal(b: Batch, n: nat): (r: Batch)
    ensures Grows(b, r) && r.total == b.total + n
    ensures r.completed == b.completed && r.counter == b.counter && r.failed == b.failed
  {
    b.(total := b.total + n)
  }

  /** A read of `self.is_stopped`. */
  function ReadFlag(b: Batch): (r: (Batch, bool))
    ensures Grows(b, r.0) && r.0 == b.(flag := Poll(b.flag).0) && r.1 == Poll(b.flag).1
  {
    var (f, s) := Poll(b.flag);
    (b.(flag := f), s)
  }

  // ---------------------------------------------------------------- paths

  /** A cleaned name never starts a path at the root, nor does anything appended to it that does not. */
  lemma CleanNotRooted(s: string, x: string)
    requires x == [] || x[0] != '/'
    ensures !StartsWith(CleanFilename(s), "/") && !StartsWith(CleanFilename(s) + x, "/")
  {
    var n := CleanFilename(s);
    if n != [] {
      assert n[0] in n && InvalidChars[4] == '/';
      assert (n + x)[0] == n[0];
    }
  }

  /** `os.path.join(a, b)` on POSIX for two parts. */
  function PathJoin(a: string, b: string): (r: string)
    ensures EndsWith(r, b)
    ensures !StartsWith(b, "/") && a != "" ==> StartsWith(r, a)
  {
    if StartsWith(b, "/") then b
    else if a == "" || EndsWith(a, "/") then a + b
    else a + "/" + b
  }

  /** Text after a relative last component stays at the end of the joined path. */
  lemma PathJoinAppend(a: string, b: string, x: string)
    requires !StartsWith(b, "/") && !StartsWith(b + x, "/")
    ensures PathJoin(a, b + x) == PathJoin(a, b) + x
  {
    if a == "" || EndsWith(a, "/") {
      assert a + (b + x) == (a + b) + x;
    } else {
      assert a + "/" + (b + x) == (a + "/" + b) + x;
    }
  }

  /** The folder `process_single_video` downloads into: a year subfolder when enabled and known. */
  function VideoFolder(settings: Settings, info: Info, base: string): (folder: string)
    ensures folder != base ==> GetFlag(settings, "use_year_subfolders", false)
    ensures UsesYearFolder(settings, info) ==> folder == PathJoin(base, info.uploadDate.value[..4])
    ensures !UsesYearFolder(settings, info) ==> folder == base
  {
    if UsesYearFolder(settings, info) then PathJoin(base, info.uploadDate.value[..4]) else base
  }

  /** Year subfolders are enabled and the upload date has at least four characters. */
  predicate UsesYearFolder(settings: Settings, info: Info) {
    GetFlag(settings, "use_year_subfolders", false) && info.uploadDate.Some? && |info.uploadDate.value| >= 4
  }

  /** The output template `process_single_video` hands to the manager. */
  function VideoTemplate(settings: Settings, info: Info, base: string): (t: string)
    ensures EndsWith(t, CleanFilename(info.title.GetOr("Unknown_Title")) + ".%(ext)s")
    ensures VideoFolder(settings, info, base) != "" ==> StartsWith(t, VideoFolder(settings, info, base))
  {
    CleanNotRooted(info.title.GetOr("Unknown_Title"), ".%(ext)s");
    PathJoin(VideoFolder(settings, info, base), CleanFilename(info.title.GetOr("Unknown_Title")) + ".%(ext)s")
  }

  /**
   * The file the manager's skip check looks for is the cleaned title with `.mp4` in the video's
   * folder, when neither holds the placeholder.
   */
  lemma VideoOutputFile(settings: Settings, info: Info, base: string)
    requires !Contains(PathJoin(VideoFolder(settings, info, base), CleanFilename(info.title.GetOr("Unknown_Title"))), "%(ext)s")
    ensures OutputFilePath(VideoTemplate(settings, info, base))
         == PathJoin(VideoFolder(settings, info, base), CleanFilename(info.title.GetOr("Unknown_Title"))) + ".mp4"
  {
    var folder, name := VideoFolder(settings, info, base), CleanFilename(info.title.GetOr("Unknown_Title"));
    CleanNotRooted(info.title.GetOr("Unknown_Title"), ".%(ext)s");
    PathJoinAppend(folder, name, ".%(ext)s");
    OutputFileOfTemplate(PathJoin(folder, name));
  }

  // ---------------------------------------------------------------- one video

  /** The `progress_update` signals for the values the progress callback received. */
  function Reported(reports: seq<int>): (es: seq<Event>)
    ensures |es| == |reports|
    ensures forall i :: 0 <= i < |reports| ==> es[i] == ItemProgress(reports[i])
  {
    if reports == [] then [] else [ItemProgress(reports[0])] + Reported(reports[1..])
  }

  /**
   * The download part of `process_single_video`: one `download_video` call into the folder for
   * the video, its progress values passed on as signals, and a download error recorded under
   * the video's page URL.
   */
  function FetchVideo(b: Batch, env: Env, info: Info, base: string): (r: Batch)
    ensures Grows(b, r)
    ensures r.total == b.total && r.completed == b.completed && r.counter == b.counter
    ensures |r.failed| <= |b.failed| + 1
    ensures r == Downloaded(b, DownloadSpec(env.settings, env.cookiesFile, b.ledger, b.flag, info.webpageUrl,
                                            VideoTemplate(env.settings, info, base), info, env.backend),
                            info.webpageUrl)
  {
    var d := DownloadSpec(env.settings, env.cookiesFile, b.ledger, b.flag, info.webpageUrl,
                          VideoTemplate(env.settings, info, base), info, env.backend);
    var r := Downloaded(b, d, info.webpageUrl);
    assert Grows(b, b.(flag := d.flag, ledger := d.ledger, events := b.events + Reported(d.reports)));
    r
  }

  /** The worker's state after a `download_video` call that ended as `d`. */
  function Downloaded(b: Batch, d: Download, url: Option<string>): (r: Batch)
    ensures r.flag == d.flag && r.ledger == d.ledger && r.events == b.events + Reported(d.reports)
    ensures r.failed == b.failed + (if d.outcome.Failed? then [Failure(url.GetOr("Unknown URL"), d.outcome.msg)] else [])
    ensures r.total == b.total && r.completed == b.completed && r.counter == b.counter
  {
    var b1 := b.(flag := d.flag, ledger := d.ledger, events := b.events + Reported(d.reports));
    if d.outcome.Failed? then b1.(failed := b1.failed + [Failure(url.GetOr("Unknown URL"), d.outcome.msg)])
    else b1
  }

  /**
   * `process_single_video(info, manager, folder)`: the result's second part is true when it
   * raises `DownloadCancelled` (the flag was set on entry); otherwise the title and the
   * description are shown and the video is fetched.
   */
  function SingleVideo(b: Batch, env: Env, info: Info, base: string): (r: (Batch, bool))
    ensures Grows(b, r.0)
    ensures r.0.total == b.total && r.0.completed == b.completed && r.0.counter == b.counter
    ensures r.1 <==> Poll(b.flag).1
    ensures r.1 ==> r.0 == b.(flag := Poll(b.flag).0)
    ensures |r.0.failed| <= |b.failed| + 1
    ensures !r.1 ==> Extends(b.events + [CurrentVideo(info.title.GetOr("Unknown Title")),
                                         Description(info.description.GetOr(""))], r.0.events)
    ensures !r.1 ==> r.0 == FetchVideo(b.(flag := Poll(b.flag).0,
                                          events := b.events + [CurrentVideo(info.title.GetOr("Unknown Title")),
                                                                Description(info.description.GetOr(""))]),
                                       env, info, base)
  {
    var (b1, stopped) := ReadFlag(b);
    if stopped then (b1, true)
    else
      var shown := [CurrentVideo(info.title.GetOr("Unknown Title")), Description(info.description.GetOr(""))];
      var b2 := b1.(events := b.events + shown);
      assert Grows(b, b2) by {
        assert b2.events[..|b.events|] == b.events;
      }
      var b3 := FetchVideo(b2, env, info, base);
      GrowsTrans(b, b2, b3);
      (b3, false)
  }

  /** A video nobody stops is never cancelled, and the flag stays unstopped. */
  lemma SingleVideoUnstopped(b: Batch, env: Env, info: Info, base: string)
    requires NeverStops(b.flag)
    ensures !SingleVideo(b, env, info, base).1 && NeverStops(SingleVideo(b, env, info, base).0.flag)
  {
    PollNeverStops(b.flag);
    var b1 := ReadFlag(b).0;
    DownloadUnstopped(env.settings, env.cookiesFile, b1.ledger, b1.flag, info.webpageUrl,
                      VideoTemplate(env.settings, info, base), info, env.backend);
  }

  // ---------------------------------------------------------------- playlists

  /**
   * One pass of `process_playlist`'s entry loop; the second part is true when the loop ends
   * there (the flag was found set, or the entry's download was cancelled). A None entry is
   * recorded as a failure; every other entry not cancelled counts as completed.
   */
  function PlaylistEntry(b: Batch, env: Env, entry: Option<Info>, folder: string): (r: (Batch, bool))
    ensures Grows(b, r.0)
    ensures r.0.total == b.total && r.0.counter == b.counter
    ensures r.0.completed <= b.completed + 1
    ensures Poll(b.flag).1 ==> r == (b.(flag := Poll(b.flag).0), true)
    ensures !Poll(b.flag).1 && entry.None? ==>
              && !r.1 && r.0.completed == b.completed + 1
              && r.0.failed == b.failed + [Failure("Unknown Playlist Entry", "Entry is None.")]
    ensures !Poll(b.flag).1 && entry.Some? ==>
              (r.1 <==> SingleVideo(b.(flag := Poll(b.flag).0), env, entry.value, folder).1)
    ensures !Poll(b.flag).1 && entry.Some? && r.1 ==>
              r.0.completed == b.completed && r.0.events != [] && r.0.events[|r.0.events| - 1] == Status(StoppedMsg)
    ensures !Poll(b.flag).1 && entry.Some? && !r.1 ==> r.0.completed == b.completed + 1
  {
    var (b1, stopped) := ReadFlag(b);
    if stopped then (b1, true)
    else if entry.None? then
      var b2 := CompleteOne(Fail(b1, "Unknown Playlist Entry", "Entry is None."));
      GrowsTrans(b, b1, b2);
      (b2, false)
    else
      var (b2, cancelled) := SingleVideo(b1, env, entry.value, folder);
      GrowsTrans(b, b1, b2);
      var b3 := if cancelled then Emit(b2, Status(StoppedMsg)) else CompleteOne(b2);
      GrowsTrans(b, b2, b3);
      (b3, cancelled)
  }

  /** The entry loop of `process_playlist`, from the given entries on. */
  function PlaylistEntries(b: Batch, env: Env, entries: seq<Option<Info>>, folder: string): (r: Batch)
    ensures Grows(b, r)
    ensures r.total == b.total && r.counter == b.counter
    ensures r.completed <= b.completed + |entries|
    ensures b.flag.stopped && entries != [] ==> r == b.(flag := Poll(b.flag).0)
    decreases |entries|
  {
    if entries == [] then b
    else
      var (b1, stop) := PlaylistEntry(b, env, entries[0], folder);
      if stop then b1
      else
        var r := PlaylistEntries(b1, env, entries[1..], folder);
        GrowsTrans(b, b1, r);
        r
  }

  lemma PlaylistEntriesUnfold(b: Batch, env: Env, entries: seq<Option<Info>>, folder: string)
    requires entries != []
    ensures var (b1, stop) := PlaylistEntry(b, env, entries[0], folder);
            PlaylistEntries(b, env, entries, folder) == if stop then b1 else PlaylistEntries(b1, env, entries[1..], folder)
  {
  }

  /** The folder `process_playlist` downloads into. */
  function PlaylistFolder(p: Info, base: string): (folder: string)
    ensures EndsWith(folder, CleanFilename(p.title.GetOr("Unknown_Playlist")))
    ensures base != "" ==> StartsWith(folder, base)
  {
    CleanNotRooted(p.title.GetOr("Unknown_Playlist"), []);
    PathJoin(base, CleanFilename(p.title.GetOr("Unknown_Playlist")))
  }

  /** `process_playlist(info, manager, base)`: count all entries up front, then visit them. */
  function Playlist(b: Batch, env: Env, p: Info, base: string): (r: Batch)
    ensures Grows(b, r)
    ensures r.total == b.total + |p.entries.GetOr([])| && r.counter == b.counter
    ensures r.completed <= b.completed + |p.entries.GetOr([])|
  {
    var b1 := AddTotal(b, |p.entries.GetOr([])|);
    var r := PlaylistEntries(b1, env, p.entries.GetOr([]), PlaylistFolder(p, base));
    GrowsTrans(b, b1, r);
    r
  }

  /** Without a stop, a playlist completes exactly as many items as it counts. */
  lemma {:induction false} PlaylistEntriesUnstopped(b: Batch, env: Env, entries: seq<Option<Info>>, folder: string)
    requires NeverStops(b.flag)
    ensures var r := PlaylistEntries(b, env, entries, folder);
            r.completed == b.completed + |entries| && NeverStops(r.flag)
    decreases |entries|
  {
    if entries != [] {
      PollNeverStops(b.flag);
      var b1 := ReadFlag(b).0;
      if entries[0].Some? {
        SingleVideoUnstopped(b1, env, entries[0].value, folder);
      }
      PlaylistEntriesUnstopped(PlaylistEntry(b, env, entries[0], folder).0, env, entries[1..], folder);
    }
  }

  /** An answer that is a list of playlists: its first entry is itself a playlist. */
  predicate NestedPlaylists(entries: seq<Option<Info>>)
    ensures NestedPlaylists(entries) ==> entries != [] && entries[0].Some? && Kind(entries[0].value) == "playlist"
  {
    |entries| > 0 && entries[0].Some? && entries[0].value.kind == Some("playlist")
  }

  /**
   * One pass of the loop over a list of playlists in `run`; the second part is true when the
   * flag was found set. A None child is recorded under the URL and completes one item that was
   * never counted; any other child is processed as a playlist.
   */
  function ChildPlaylist(b: Batch, env: Env, url: string, child: Option<Info>, base: string): (r: (Batch, bool))
    ensures Grows(b, r.0) && r.0.counter == b.counter
    ensures r.1 <==> Poll(b.flag).1
    ensures child.None? && !r.1 ==> r.0.failed == b.failed + [Failure(url, "Playlist entry is None.")]
    ensures child.None? && !r.1 ==> r.0.total == b.total && r.0.completed == b.completed + 1
  {
    var (b1, stopped) := ReadFlag(b);
    if stopped then (b1, true)
    else
      var b2 := if child.None? then CompleteOne(Fail(b1, url, "Playlist entry is None."))
                else Playlist(b1, env, child.value, base);
      GrowsTrans(b, b1, b2);
      (b2, false)
  }

  /** The loop over a list of playlists in `run`, from the given children on. */
  function ChildPlaylists(b: Batch, env: Env, url: string, children: seq<Option<Info>>, base: string): (r: Batch)
    ensures Grows(b, r) && r.counter == b.counter
    decreases |children|
  {
    if children == [] then b
    else
      var (b1, stop) := ChildPlaylist(b, env, url, children[0], base);
      if stop then b1
      else
        var r := ChildPlaylists(b1, env, url, children[1..], base);
        GrowsTrans(b, b1, r);
        r
  }

  lemma ChildPlaylistsUnfold(b: Batch, env: Env, url: string, children: seq<Option<Info>>, base: string)
    requires children != []
    ensures var (b1, stop) := ChildPlaylist(b, env, url, children[0], base);
            ChildPlaylists(b, env, url, children, base)
            == if stop then b1 else ChildPlaylists(b1, env, url, children[1..], base)
  {
  }

  // ---------------------------------------------------------------- one URL

  /**
   * How the body of `run`'s loop ends for one URL: reaching its end, the `continue` after an
   * answer without metadata, or the `break` after a cancelled single video.
   */
  datatype UrlStep = Next(b: Batch) | Continue(b: Batch) | Break(b: Batch)

  /** `info_dict.get("channel", info_dict.get("uploader", "Unknown_Channel"))`, cleaned. */
  function ChannelFolder(output: string, info: Info): (folder: string)
    ensures EndsWith(folder, CleanFilename(info.channel.GetOr(info.uploader.GetOr("Unknown_Channel"))))
    ensures output != "" ==> StartsWith(folder, output)
  {
    CleanNotRooted(info.channel.GetOr(info.uploader.GetOr("Unknown_Channel")), []);
    PathJoin(output, CleanFilename(info.channel.GetOr(info.uploader.GetOr("Unknown_Channel"))))
  }

  /** `_type` with its default. */
  function Kind(info: Info): (k: string)
    ensures info.kind.Some? ==> k == info.kind.value
    ensures info.kind.None? ==> k == "video"
  {
    info.kind.GetOr("video")
  }

  /** The `try` part of the loop body for an answer with metadata. */
  function Classify(b: Batch, env: Env, url: string, info: Info): (r: UrlStep)
    ensures !r.Continue? && Grows(b, r.b) && r.b.counter == b.counter
    ensures Kind(info) == "video" ==> r.b.total == b.total + 1
    ensures Kind(info) != "video" && Kind(info) != "playlist"
            ==> r == Next(Fail(b, url, "Unhandled type: " + Kind(info)))
    ensures r.Break? ==> Kind(info) == "video" && r.b.completed == b.completed
    ensures Kind(info) == "video" ==> r == VideoUrl(b, env, info, ChannelFolder(env.output, info))
    ensures Kind(info) == "playlist" ==>
              var entries := info.entries.GetOr([]);
              r == Next(if NestedPlaylists(entries) then ChildPlaylists(b, env, url, entries, ChannelFolder(env.output, info))
                        else Playlist(b, env, info, ChannelFolder(env.output, info)))
  {
    var base := ChannelFolder(env.output, info);
    if Kind(info) == "playlist" then
      var entries := info.entries.GetOr([]);
      if NestedPlaylists(entries) then Next(ChildPlaylists(b, env, url, entries, base))
      else Next(Playlist(b, env, info, base))
    else if Kind(info) == "video" then VideoUrl(b, env, info, base)
    else Next(Fail(b, url, "Unhandled type: " + Kind(info)))
  }

  /**
   * The single-video branch of `run`'s loop body: count the video, download it, and either
   * `break` after a cancellation or complete the item.
   */
  function VideoUrl(b: Batch, env: Env, info: Info, base: string): (r: UrlStep)
    ensures !r.Continue? && Grows(b, r.b) && r.b.counter == b.counter && r.b.total == b.total + 1
    ensures r.Break? <==> Poll(b.flag).1
    ensures r.Break? ==> r.b.completed == b.completed && r.b.failed == b.failed
    ensures r.Next? ==> r.b.completed == b.completed + 1
  {
    var b1 := AddTotal(b, 1);
    var sv := SingleVideo(b1, env, info, base);
    var r := AfterVideo(sv);
    GrowsTrans(b, b1, sv.0);
    GrowsTrans(b, sv.0, r.b);
    r
  }

  /** What follows `process_single_video` in that branch: `break` when cancelled, else complete. */
  function AfterVideo(sv: (Batch, bool)): (r: UrlStep)
    ensures !r.Continue? && Grows(sv.0, r.b) && r.Break? == sv.1
    ensures r.b.counter == sv.0.counter && r.b.total == sv.0.total && r.b.failed == sv.0.failed
    ensures r.b.completed == sv.0.completed + (if sv.1 then 0 else 1)
  {
    if sv.1 then Break(Emit(sv.0, Status(StoppedMsg))) else Next(CompleteOne(sv.0))
  }

  /** The status line announcing URL `index` of `count`. */
  function ProcessingMsg(index: nat, count: nat, url: string): string {
    "Processing URL " + NatToString(index) + "/" + NatToString(count) + ": " + url
  }

  /** The `try` and `except` parts of the loop body: extract, then dispatch on the answer. */
  function ExtractAndDispatch(b: Batch, env: Env, url: string): (r: UrlStep)
    ensures Grows(b, r.b) && r.b.counter == b.counter
    ensures r.Continue? <==> env.extract(url) == Extracted(None)
    ensures r.Continue? ==> r.b.failed == b.failed + [Failure(url, "No metadata found.")]
    ensures env.extract(url).ExtractError? ==> r.b.failed == b.failed + [Failure(url, env.extract(url).msg)]
    ensures env.extract(url).ExtractError? || env.extract(url) == Extracted(None)
            ==> r.b.completed == b.completed + 1 && r.b.total == b.total
    ensures env.extract(url).Extracted? && env.extract(url).info.Some?
            ==> r == Classify(b, env, url, env.extract(url).info.value)
  {
    match env.extract(url)
    case ExtractError(msg) => Next(CompleteOne(Fail(b, url, msg)))
    case Extracted(None) => Continue(CompleteOne(Fail(b, url, "No metadata found.")))
    case Extracted(Some(info)) => Classify(b, env, url, info)
  }

  /**
   * The body of `run`'s loop for URL `index` (from 1) once the flag was found clear: announce,
   * extract and dispatch, and reset the item progress in the `finally`.
   */
  function ProcessUrl(b: Batch, env: Env, index: nat, count: nat, url: string): (r: UrlStep)
    ensures Grows(b, r.b) && r.b.counter == b.counter
    ensures Extends(b.events + [Status(ProcessingMsg(index, count, url))], r.b.events)
    ensures r.b.events[|r.b.events| - 1] == ItemProgress(0)
    ensures r.Continue? <==> env.extract(url) == Extracted(None)
    ensures r.Continue? ==> r.b.failed == b.failed + [Failure(url, "No metadata found.")]
    ensures env.extract(url).ExtractError? ==> r.b.failed == b.failed + [Failure(url, env.extract(url).msg)]
  {
    var b1 := Emit(b, Status(ProcessingMsg(index, count, url)));
    var step := ExtractAndDispatch(b1, env, url);
    var r := Finally(step);
    GrowsTrans(b, b1, step.b);
    GrowsTrans(b, step.b, r.b);
    GrowsTrans(b1, step.b, r.b);
    r
  }

  /** The `finally` of the loop body: the item progress goes back to 0. */
  function Finally(step: UrlStep): (r: UrlStep)
    ensures r.b == Emit(step.b, ItemProgress(0))
    ensures r.Next? == step.Next? && r.Continue? == step.Continue?
  {
    match step
    case Next(b) => Next(Emit(b, ItemProgress(0)))
    case Continue(b) => Continue(Emit(b, ItemProgress(0)))
    case Break(b) => Break(Emit(b, ItemProgress(0)))
  }

  /** The tail of the loop body: count the URL and cool off after every tenth. */
  function CountUrl(b: Batch): (r: Batch)
    ensures Grows(b, r) && r.counter == b.counter + 1
    ensures r.failed == b.failed && r.total == b.total && r.completed == b.completed
    ensures r.events == b.events + (if r.counter % 10 == 0 then [CoolOff(r.counter)] else [])
  {
    var b1 := b.(counter := b.counter + 1);
    if b1.counter % 10 == 0 then Emit(b1, CoolOff(b1.counter)) else b1
  }

  /**
   * One pass of `run`'s loop for URL `index` (from 1) of `count`; the second part is true when
   * the loop ends there: the flag was found set (announced with the stopped message), or a
   * single video was cancelled. Every URL that reaches the end of the body is counted; one that
   * breaks out of the loop, or skips to the next URL, is not.
   */
  function UrlIteration(b: Batch, env: Env, index: nat, count: nat, url: string): (r: (Batch, bool))
    ensures Grows(b, r.0) && r.0.counter <= b.counter + 1
    ensures Poll(b.flag).1 ==> r == (Emit(b.(flag := Poll(b.flag).0), Status(StoppedMsg)), true)
    ensures !Poll(b.flag).1 && env.extract(url).ExtractError?
            ==> !r.1 && r.0.counter == b.counter + 1
                && r.0.failed == b.failed + [Failure(url, env.extract(url).msg)]
    ensures !Poll(b.flag).1 && env.extract(url) == Extracted(None)
            ==> !r.1 && r.0.counter == b.counter
                && r.0.failed == b.failed + [Failure(url, "No metadata found.")]
    ensures !Poll(b.flag).1 ==>
              var step := ProcessUrl(ReadFlag(b).0, env, index, count, url);
              && r.1 == step.Break?
              && r.0.counter == b.counter + (if step.Next? then 1 else 0)
  {
    var (b1, stopped) := ReadFlag(b);
    if stopped then (Emit(b1, Status(StoppedMsg)), true)
    else
      var step := ProcessUrl(b1, env, index, count, url);
      GrowsTrans(b, b1, step.b);
      match step
      case Next(b2) =>
        var b3 := CountUrl(b2);
        GrowsTrans(b, b2, b3);
        (b3, false)
      case Continue(b2) => (b2, false)
      case Break(b2) => (b2, true)
  }

  /** `run`'s loop from the URL at position `i` (from 0). */
  function UrlLoop(b: Batch, env: Env, urls: seq<string>, i: nat): (r: Batch)
    requires i <= |urls|
    ensures Grows(b, r)
    ensures r.counter <= b.counter + (|urls| - i)
    ensures b.flag.stopped && i < |urls| ==> r == Emit(b.(flag := Poll(b.flag).0), Status(StoppedMsg))
    decreases |urls| - i
  {
    if i == |urls| then b
    else
      var (b1, stop) := UrlIteration(b, env, i + 1, |urls|, urls[i]);
      if stop then b1
      else
        var r := UrlLoop(b1, env, urls, i + 1);
        GrowsTrans(b, b1, r);
        r
  }

  lemma UrlLoopUnfold(b: Batch, env: Env, urls: seq<string>, i: nat)
    requires i < |urls|
    ensures var (b1, stop) := UrlIteration(b, env, i + 1, |urls|, urls[i]);
            UrlLoop(b, env, urls, i) == if stop then b1 else UrlLoop(b1, env, urls, i + 1)
  {
  }

  /**
   * The end of `run`: the failures once if there are any, the stopped message if the flag is
   * set, then "Download complete" and `finished`.
   */
  function Finish(b: Batch): (r: Batch)
    ensures Grows(b, r) && r.failed == b.failed
    ensures r.events == b.events
                        + (if b.failed != [] then [FailedDownloads(b.failed)] else [])
                        + (if Poll(b.flag).1 then [Status(StoppedMsg)] else [])
                        + [Status(CompleteMsg), Finished]
  {
    var b1 := if b.failed != [] then Emit(b, FailedDownloads(b.failed)) else b;
    var (b2, stopped) := ReadFlag(b1);
    var b3 := if stopped then Emit(b2, Status(StoppedMsg)) else b2;
    GrowsTrans(b, b1, b2);
    GrowsTrans(b, b2, b3);
    Emit(Emit(b3, Status(CompleteMsg)), Finished)
  }

  /** The state of a new worker whose manager loaded `ledger`: no failures, zero counters. */
  function Start(flag: Flag, ledger: Ledger): Batch {
    Batch(flag, ledger, [], 0, 0, 0, [])
  }

  /**
   * `run()` as a whole, from the state `b` it is called in: it zeroes both item counters,
   * walks the URLs and finishes. Failures, the URL counter and the signals carry over.
   */
  function RunSpec(env: Env, urls: seq<string>, b: Batch): (r: Batch)
    ensures Grows(b.(total := 0, completed := 0), r)
    ensures |r.events| >= 2 && r.events[|r.events| - 2..] == [Status(CompleteMsg), Finished]
    ensures r.counter <= b.counter + |urls|
  {
    var b0 := b.(total := 0, completed := 0);
    var b1 := UrlLoop(b0, env, urls, 0);
    var r := Finish(b1);
    GrowsTrans(b0, b1, r);
    r
  }

  // ---------------------------------------------------------------- properties of a run

  /** A stop already requested when `run` starts: nothing is processed and "stopped" shows twice. */
  lemma RunStoppedFirst(env: Env, urls: seq<string>, flag: Flag, ledger: Ledger)
    requires Poll(flag).1 && urls != []
    ensures var r := RunSpec(env, urls, Start(flag, ledger));
            && r.events == [Status(StoppedMsg), Status(StoppedMsg), Status(CompleteMsg), Finished]
            && r.ledger == ledger && r.failed == [] && r.counter == 0 && r.total == 0
  {
    var b0 := Start(flag, ledger);
    assert b0.(total := 0, completed := 0) == b0;
    UrlLoopUnfold(b0, env, urls, 0);
    var b1 := UrlLoop(b0, env, urls, 0);
    assert b1 == Emit(b0.(flag := Poll(flag).0), Status(StoppedMsg));
    assert Poll(b1.flag).1;
  }

  /** The URLs `run` counts towards the cool-off when nothing stops it: all but those without metadata. */
  function CountedUrls(env: Env, urls: seq<string>): (n: nat)
    ensures n <= |urls|
  {
    if urls == [] then 0
    else (if env.extract(urls[0]) == Extracted(None) then 0 else 1) + CountedUrls(env, urls[1..])
  }

  /** Without a stop, no single video breaks the loop. */
  lemma ClassifyUnstopped(b: Batch, env: Env, url: string, info: Info)
    requires NeverStops(b.flag)
    ensures !Classify(b, env, url, info).Break?
  {
    PollNeverStops(b.flag);
  }

  /** Without a stop, one pass of the URL loop never ends it and counts the URL unless it had no metadata. */
  lemma UrlIterationUnstopped(b: Batch, env: Env, index: nat, count: nat, url: string)
    requires NeverStops(b.flag)
    ensures var r := UrlIteration(b, env, index, count, url);
            && !r.1 && NeverStops(r.0.flag)
            && r.0.counter == b.counter + (if env.extract(url) == Extracted(None) then 0 else 1)
  {
    PollNeverStops(b.flag);
    var b1 := Emit(ReadFlag(b).0, Status(ProcessingMsg(index, count, url)));
    if env.extract(url).Extracted? && env.extract(url).info.Some? {
      ClassifyUnstopped(b1, env, url, env.extract(url).info.value);
    }
    LaterNeverStops(b.flag, UrlIteration(b, env, index, count, url).0.flag);
  }

  lemma {:induction false} UrlLoopUnstopped(b: Batch, env: Env, urls: seq<string>, i: nat)
    requires i <= |urls| && NeverStops(b.flag)
    ensures var r := UrlLoop(b, env, urls, i);
            r.counter == b.counter + CountedUrls(env, urls[i..]) && NeverStops(r.flag)
    decreases |urls| - i
  {
    if i < |urls| {
      UrlIterationUnstopped(b, env, i + 1, |urls|, urls[i]);
      var b1 := UrlIteration(b, env, i + 1, |urls|, urls[i]).0;
      UrlLoopUnstopped(b1, env, urls, i + 1);
      assert urls[i..][0] == urls[i] && urls[i..][1..] == urls[i + 1..];
    }
  }

  /**
   * A run nobody stops visits every URL, counts all but those without metadata, and ends with
   * the failures (if any), "Download complete" and `finished`, never with the stopped message.
   */
  lemma RunUnstopped(env: Env, urls: seq<string>, flag: Flag, ledger: Ledger)
    requires NeverStops(flag)
    ensures var b := UrlLoop(Start(flag, ledger), env, urls, 0);
            var r := RunSpec(env, urls, Start(flag, ledger));
            && r.counter == CountedUrls(env, urls)
            && r.events == b.events + (if b.failed != [] then [FailedDownloads(b.failed)] else [])
                           + [Status(CompleteMsg), Finished]
  {
    var b0 := Start(flag, ledger);
    assert b0.(total := 0, completed := 0) == b0;
    UrlLoopUnstopped(b0, env, urls, 0);
    assert urls[0..] == urls;
    PollNeverStops(UrlLoop(b0, env, urls, 0).flag);
  }

  /**
   * A URL whose extraction fails completes an item it never counted: with one video done out
   * of one, the overall progress signal then says 200.
   */
  lemma ExtractErrorOvercounts(b: Batch, env: Env, index: nat, count: nat, url: string)
    requires !Poll(b.flag).1 && env.extract(url).ExtractError?
    ensures var r := UrlIteration(b, env, index, count, url).0;
            && r.completed == b.completed + 1 && r.total == b.total
            && TotalProgress(TotalProgressValue(b.completed + 1, b.total)) in r.events
            && (b.completed == b.total == 1 ==> TotalProgress(200) in r.events)
  {
    var b1 := Emit(ReadFlag(b).0, Status(ProcessingMsg(index, count, url)));
    var b2 := CompleteOne(Fail(b1, url, env.extract(url).msg));
    var e := TotalProgress(TotalProgressValue(b.completed + 1, b.total));
    assert b2.events[|b2.events| - 1] == e;
    var r := UrlIteration(b, env, index, count, url).0;
    assert Grows(b2, r);
    assert r.events[|b2.events| - 1] == e;
  }

  // ---------------------------------------------------------------- the worker object

  /** How the class's loop body for one URL ends. */
  datatype StepKind = NextUrl | ContinueUrl | BreakUrl

  /** The kind of a spec step. */
  function KindOf(s: UrlStep): StepKind {
    match s
    case Next(_) => NextUrl
    case Continue(_) => ContinueUrl
    case Break(_) => BreakUrl
  }

  /** The worker object: its fields are those `run` and the `process_*` methods update. */
  class Thread {
    const urls: seq<string>
    const output: string
    const settings: Settings
    const cookiesFile: Option<string>
    /** `is_stopped`, shared with the window's thread. */
    const flag: StopFlag
    var failed: seq<Failure>
    var total: nat
    var completed: nat
    var counter: nat
    /** The signals emitted so far, in order. */
    var events: seq<Event>

    /** The worker's state together with the manager's ledger. */
    function Snapshot(m: Manager): Batch
      reads this, flag, m
    {
      Batch(flag.State(), m.downloaded, failed, total, completed, counter, events)
    }

    /** `env` and `m` were built from this worker's inputs. */
    predicate Serves(env: Env, m: Manager)
      reads m
    {
      env.output == output && env.settings == settings && env.cookiesFile == cookiesFile
      && m.settings == settings && m.cookiesFile == cookiesFile
    }

    /** `DownloadThread(urls, output_path, settings, cookies_file)`, with the stop schedule. */
    constructor (urls: seq<string>, output: string, settings: Settings, cookiesFile: Option<string>,
                 requestAt: Option<nat>)
      ensures this.urls == urls && this.output == output && this.settings == settings
      ensures this.cookiesFile == cookiesFile
      ensures fresh(flag) && flag.State() == Fresh(requestAt)
      ensures failed == [] && counter == 0 && events == []
    {
      this.urls := urls;
      this.output := output;
      this.settings := settings;
      this.cookiesFile := cookiesFile;
      flag := new StopFlag(requestAt);
      failed := [];
      total := 0;
      completed := 0;
      counter := 0;
      events := [];
    }

    /** `stop()`: sets the flag and nothing else. */
    method Stop()
      modifies flag
      ensures flag.stopped && flag.polls == old(flag.polls)
    {
      flag.Stop();
    }

    /** `update_total_progress()`. */
    method UpdateTotalProgress()
      modifies this
      ensures events == old(events) + [TotalProgress(TotalProgressValue(completed, total))]
      ensures failed == old(failed) && total == old(total) && completed == old(completed)
      ensures counter == old(counter)
    {
      if total > 0 {
        events := events + [TotalProgress(completed * 100 / total)];
      } else {
        events := events + [TotalProgress(0)];
      }
    }

    /** `completed_items += 1` followed by `update_total_progress()`. */
    method CompleteItem(ghost m: Manager)
      modifies this
      ensures Snapshot(m) == CompleteOne(old(Snapshot(m)))
    {
      completed := completed + 1;
      UpdateTotalProgress();
    }

    /** The download part of `process_single_video`. */
    method Fetch(info: Info, m: Manager, base: string, env: Env)
      requires Serves(env, m)
      modifies this, flag, m
      ensures Snapshot(m) == FetchVideo(old(Snapshot(m)), env, info, base)
    {
      var template := VideoTemplate(settings, info, base);
      var reports, outcome := m.DownloadVideo(info.webpageUrl, template, info, flag, env.backend);
      Record(reports, outcome, info.webpageUrl);
    }

    /** Keeps the progress reports of one download and, when it failed, the failure. */
    method Record(reports: seq<int>, outcome: Outcome, url: Option<string>)
      modifies this
      ensures events == old(events) + Reported(reports)
      ensures failed == old(failed) + (if outcome.Failed? then [Failure(url.GetOr("Unknown URL"), outcome.msg)] else [])
      ensures total == old(total) && completed == old(completed) && counter == old(counter)
    {
      events := events + Reported(reports);
      if outcome.Failed? {
        failed := failed + [Failure(url.GetOr("Unknown URL"), outcome.msg)];
      }
    }

    /** `process_single_video(info, manager, folder)`; `cancelled` is the raised `DownloadCancelled`. */
    method ProcessSingleVideo(info: Info, m: Manager, base: string, env: Env) returns (cancelled: bool)
      requires Serves(env, m)
      modifies this, flag, m
      ensures (Snapshot(m), cancelled) == SingleVideo(old(Snapshot(m)), env, info, base)
    {
      cancelled := flag.Read();
      if cancelled {
        return;
      }
      events := events + [CurrentVideo(info.title.GetOr("Unknown Title")), Description(info.description.GetOr(""))];
      Fetch(info, m, base, env);
    }

    /** One pass of `process_playlist`'s entry loop; `stop` ends the loop. */
    method HandleEntry(entry: Option<Info>, m: Manager, folder: string, env: Env) returns (stop: bool)
      requires Serves(env, m)
      modifies this, flag, m
      ensures (Snapshot(m), stop) == PlaylistEntry(old(Snapshot(m)), env, entry, folder)
    {
      stop := flag.Read();
      if stop {
        return;
      }
      if entry.None? {
        failed := failed + [Failure("Unknown Playlist Entry", "Entry is None.")];
        CompleteItem(m);
      } else {
        stop := ProcessSingleVideo(entry.value, m, folder, env);
        if stop {
          events := events + [Status(StoppedMsg)];
        } else {
          CompleteItem(m);
        }
      }
    }

    /** `process_playlist(info, manager, base)`. */
    method ProcessPlaylist(p: Info, m: Manager, base: string, env: Env)
      requires Serves(env, m)
      modifies this, flag, m
      ensures Snapshot(m) == Playlist(old(Snapshot(m)), env, p, base)
    {
      var folder := PlaylistFolder(p, base);
      var entries := p.entries.GetOr([]);
      AddItems(m, |entries|);
      ghost var goal := Playlist(old(Snapshot(m)), env, p, base);
      assert goal == PlaylistEntries(Snapshot(m), env, entries, folder);
      var i := 0;
      while i < |entries|
        invariant 0 <= i <= |entries|
        invariant PlaylistEntries(Snapshot(m), env, entries[i..], folder) == goal
      {
        ghost var before := Snapshot(m);
        PlaylistEntriesUnfold(before, env, entries[i..], folder);
        assert entries[i..][0] == entries[i] && entries[i..][1..] == entries[i + 1..];
        var stop := HandleEntry(entries[i], m, folder, env);
        if stop {
          return;
        }
        i := i + 1;
      }
    }

    /** One pass of the loop over a list of playlists in `run`; `stop` ends the loop. */
    method HandleChild(url: string, child: Option<Info>, m: Manager, base: string, env: Env) returns (stop: bool)
      requires Serves(env, m)
      modifies this, flag, m
      ensures (Snapshot(m), stop) == ChildPlaylist(old(Snapshot(m)), env, url, child, base)
    {
      stop := flag.Read();
      if stop {
        return;
      }
      if child.None? {
        failed := failed + [Failure(url, "Playlist entry is None.")];
        CompleteItem(m);
      } else {
        ProcessPlaylist(child.value, m, base, env);
      }
    }

    /** The loop over a list of playlists in `run`. */
    method ProcessChildPlaylists(url: string, children: seq<Option<Info>>, m: Manager, base: string, env: Env)
      requires Serves(env, m)
      modifies this, flag, m
      ensures Snapshot(m) == ChildPlaylists(old(Snapshot(m)), env, url, children, base)
    {
      ghost var goal := ChildPlaylists(Snapshot(m), env, url, children, base);
      var i := 0;
      while i < |children|
        invariant 0 <= i <= |children|
        invariant ChildPlaylists(Snapshot(m), env, url, children[i..], base) == goal
      {
        ChildPlaylistsUnfold(Snapshot(m), env, url, children[i..], base);
        assert children[i..][0] == children[i] && children[i..][1..] == children[i + 1..];
        var stop := HandleChild(url, children[i], m, base, env);
        if stop {
          return;
        }
        i := i + 1;
      }
    }

    /** `total_items += n`. */
    method AddItems(ghost m: Manager, n: nat)
      modifies this
      ensures Snapshot(m) == AddTotal(old(Snapshot(m)), n)
    {
      total := total + n;
    }

    /** The single-video branch of `run`'s loop body; `brk` is the `break` after a cancellation. */
    method HandleVideo(info: Info, m: Manager, base: string, env: Env) returns (brk: bool)
      requires Serves(env, m)
      modifies this, flag, m
      ensures VideoUrl(old(Snapshot(m)), env, info, base) == if brk then Break(Snapshot(m)) else Next(Snapshot(m))
    {
      AddItems(m, 1);
      brk := ProcessSingleVideo(info, m, base, env);
      if brk {
        events := events + [Status(StoppedMsg)];
      } else {
        CompleteItem(m);
      }
    }

    /** The `try` part of `run`'s loop body for an answer with metadata; `brk` is the `break`. */
    method ClassifyInfo(url: string, info: Info, m: Manager, env: Env) returns (brk: bool)
      requires Serves(env, m)
      modifies this, flag, m
      ensures Classify(old(Snapshot(m)), env, url, info) == if brk then Break(Snapshot(m)) else Next(Snapshot(m))
    {
      var base := ChannelFolder(output, info);
      brk := false;
      if Kind(info) == "playlist" {
        var entries := info.entries.GetOr([]);
        if NestedPlaylists(entries) {
          ProcessChildPlaylists(url, entries, m, base, env);
        } else {
          ProcessPlaylist(info, m, base, env);
        }
      } else if Kind(info) == "video" {
        brk := HandleVideo(info, m, base, env);
      } else {
        failed := failed + [Failure(url, "Unhandled type: " + Kind(info))];
      }
    }

    /** The `try` and `except` parts of `run`'s loop body: extract, then dispatch on the answer. */
    method Dispatch(url: string, m: Manager, env: Env) returns (kind: StepKind)
      requires Serves(env, m)
      modifies this, flag, m
      ensures var step := ExtractAndDispatch(old(Snapshot(m)), env, url);
              Snapshot(m) == step.b && kind == KindOf(step)
    {
      match env.extract(url)
      case ExtractError(msg) =>
        failed := failed + [Failure(url, msg)];
        CompleteItem(m);
        kind := NextUrl;
      case Extracted(None) =>
        failed := failed + [Failure(url, "No metadata found.")];
        CompleteItem(m);
        kind := ContinueUrl;
      case Extracted(Some(info)) =>
        var brk := ClassifyInfo(url, info, m, env);
        kind := if brk then BreakUrl else NextUrl;
    }

    /** The body of `run`'s loop for the URL at position `i` once the flag was found clear. */
    method ProcessUrlBody(i: nat, m: Manager, env: Env) returns (kind: StepKind)
      requires i < |urls| && Serves(env, m)
      modifies this, flag, m
      ensures var step := ProcessUrl(old(Snapshot(m)), env, i + 1, |urls|, urls[i]);
              Snapshot(m) == step.b && kind == KindOf(step)
    {
      events := events + [Status(ProcessingMsg(i + 1, |urls|, urls[i]))];
      kind := Dispatch(urls[i], m, env);
      events := events + [ItemProgress(0)];
    }

    /** One pass of `run`'s loop for the URL at position `i` (from 0); `stop` ends the loop. */
    method HandleUrl(i: nat, m: Manager, env: Env) returns (stop: bool)
      requires i < |urls| && Serves(env, m)
      modifies this, flag, m
      ensures (Snapshot(m), stop) == UrlIteration(old(Snapshot(m)), env, i + 1, |urls|, urls[i])
    {
      stop := flag.Read();
      if stop {
        events := events + [Status(StoppedMsg)];
        return;
      }
      var kind := ProcessUrlBody(i, m, env);
      if kind == BreakUrl {
        stop := true;
      } else if kind == NextUrl {
        counter := counter + 1;
        if counter % 10 == 0 {
          events := events + [CoolOff(counter)];
        }
      }
    }

    /** The end of `run`: the failures, the stopped message, "Download complete", `finished`. */
    method FinishRun(ghost m: Manager)
      modifies this, flag
      ensures Snapshot(m) == Finish(old(Snapshot(m)))
    {
      if failed != [] {
        events := events + [FailedDownloads(failed)];
      }
      var stopped := flag.Read();
      if stopped {
        events := events + [Status(StoppedMsg)];
      }
      events := events + [Status(CompleteMsg), Finished];
    }

    /**
     * `run()`: builds the manager on the ledger the JSON file held, zeroes the item counters,
     * walks the URLs and finishes.
     */
    method Run(env: Env, loaded: Ledger) returns (m: Manager)
      requires env.output == output && env.settings == settings && env.cookiesFile == cookiesFile
      modifies this, flag
      ensures fresh(m)
      ensures Snapshot(m) == RunSpec(env, urls, Batch(old(flag.State()), loaded, old(failed), old(total),
                                                      old(completed), old(counter), old(events)))
    {
      total := 0;
      completed := 0;
      m := new Manager(settings, cookiesFile, loaded);
      ghost var looped := UrlLoop(Snapshot(m), env, urls, 0);
      var i := 0;
      while i < |urls|
        invariant 0 <= i <= |urls| && Serves(env, m)
        invariant UrlLoop(Snapshot(m), env, urls, i) == looped
      {
        UrlLoopUnfold(Snapshot(m), env, urls, i);
        var stop := HandleUrl(i, m, env);
        if stop {
          assert Snapshot(m) == looped;
          break;
        }
        i := i + 1;
      }
      FinishRun(m);
    }
  }
}
