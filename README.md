# DownloadAllOfIt, modelled in Dafny

DownloadAllOfIt is a desktop batch video downloader built on yt-dlp. The user pastes URLs
into a window and picks an output folder. A worker thread (`DownloadThread`) then handles
each URL in turn:

- it asks yt-dlp's extractor what the URL is: a video, a playlist, or a list of playlists;
- it hands every video to the download manager (`YTDownloadManager`);
- it reports progress, current title and failures through Qt signals.

The manager skips URLs its ledger already holds, and files that already exist. It turns
yt-dlp's progress events into a 0..100 value and builds yt-dlp's options from the settings.
After yt-dlp has finished a file, it:

- writes a three-section metadata text;
- adds the description with ffmpeg;
- looks for a thumbnail;
- sets the files' times to the upload time.

Failures are shown in a dialog as `url - reason` lines. The user can send the URLs read back
from that dialog to the download queue again. A separate script writes browser cookies as a
Netscape `cookies.txt`.

This project models that logic and proves its properties. The modules follow the source files.

| module (file) | models |
|---|---|
| `Wrappers` (wrappers.dfy) | `Option`, for Python's `None` and for missing dictionary keys |
| `Text` (text.dfy) | the Python `str` operations the code uses: `strip`, `splitlines`, `split`, `find`, `in`, `replace`, `rsplit`, `lower`, `join`, `str(int)` |
| `AppSettings` (settings.dfy) | the settings dictionary and `settings.get(key, default)` |
| `Utils` (utils.dfy) | `clean_filename` |
| `GenerateCookies` (cookies.dfy) | `save_cookies_txt`: the domain filter and the Netscape text |
| `Cancellation` (cancellation.dfy) | the `is_stopped` flag shared by the window and the worker |
| `DownloadManager` (download_manager.dfy) | the ledger, the skip check, `progress_hook`, `ydl_opts`, `download_video` |
| `PostProcessing` (post_processing.dfy) | `prepare_metadata`, the ffmpeg command, the thumbnail search, the PNG path, `postprocessor_hook`, `set_file_times` |
| `DownloadThread` (download_thread.dfy) | `DownloadThread`: `stop`, `run`, `update_total_progress`, `process_playlist`, `process_single_video` |
| `Dialogs` (dialogs.dfy) | `FailedDownloadsDialog.get_failed_urls`, `SettingsDialog` and `save_settings` |
| `GuiInterface` (gui.dfy) | reading the URL box, the start checks, the failure lines and the retry |

Code that changes state step by step is modelled as classes with loops:

- the worker object `DownloadThread.Thread`;
- the manager `DownloadManager.Manager` and its ledger;
- the stop flag `Cancellation.StopFlag`;
- the settings dialog `Dialogs.SettingsDialog`;
- the file-time store `PostProcessing.Disk`.

Each method is proved to end in the state that a function of the old state describes. For
the worker that function is written on a `Batch`, a snapshot of everything the worker
changes: flag, ledger, failures, counters, and the signals it emitted. The properties of a run
are then proved as lemmas about those functions.

Outside code is passed in as oracle functions: yt-dlp's extractor and download engine, file
existence, and image conversion.

The flag needs its own treatment, because the window's thread may call `stop()` at any moment.
The worker only sees the flag when it reads it. So the flag carries a schedule: the number of
the read just before which `stop()` happens, or none. Since nothing clears the flag, this
covers every timing of `stop()`.

The model keeps one behaviour of the code that may be surprising: the "completed" counter can
pass the "total" counter. Three cases complete an item that was never counted:

- a URL whose extraction raises (download_thread.py:152-157);
- a URL for which the extractor returns no metadata (download_thread.py:102-107);
- a `None` child of a list of playlists (download_thread.py:125-130).

`DownloadThread.ExtractAndDispatch` states the first two, and `DownloadThread.ChildPlaylist`
the third. With one video done, a failing second URL makes the overall progress signal read
200 (`DownloadThread.ExtractErrorOvercounts`).

## Model

| member | source | states |
|---|---|---|
| Utils.CleanFilename | utils.py:84-97 | the result holds none of `<>:"/\|?*`, has no surrounding whitespace, and is no longer than the input |
| Utils.ReplacedAll | utils.py:94-96 | after the replacement loop the length is unchanged and no forbidden character is left |
| Utils.ReplaceEachAt | utils.py:95-96 | before the strip, each forbidden character has become exactly one `_` and every other character is kept in place |
| Utils.CleanFilenameEmpty | utils.py:94-97 | the result is empty exactly when the input is empty or all whitespace; there is no fallback name |
| Utils.CleanFilenameKeeps | utils.py:94-97 | a name without forbidden characters or surrounding whitespace is returned unchanged |
| Utils.CleanFilenameIdempotent | utils.py:94-97 | cleaning twice is cleaning once |
| GenerateCookies.FilterCookies | generate_cookies.py:22 | a cookie is kept iff some requested domain is a substring of its domain |
| GenerateCookies.FilterCookiesAppend | generate_cookies.py:22 | filtering keeps the jar's order: it distributes over concatenation |
| GenerateCookies.ExpiryField | generate_cookies.py:41 | a missing or zero expiry is written as `0` |
| GenerateCookies.Fields | generate_cookies.py:36-44 | seven fields in Netscape order; the subdomain flag is `TRUE` iff the domain starts with `.`, the secure flag `TRUE` iff the cookie is secure |
| GenerateCookies.CookiesTxt | generate_cookies.py:22-44 | nothing is written iff no cookie is kept; otherwise the text starts with the Netscape header line |
| GenerateCookies.LineFields | generate_cookies.py:36-44 | a written line split at its tabs gives back exactly the seven fields |
| GenerateCookies.CookiesTxtLines | generate_cookies.py:33-44 | the file read line by line is the header, one line per kept cookie in jar order, and nothing after the last `\n` |
| Cancellation.Poll | download_thread.py:55-63 | a read returns the flag; a set flag stays set; it becomes set only at the scheduled read |
| Cancellation.LaterNeverStops | download_thread.py:55-63 | once no stop can be observed, none is observed after any number of reads |
| Cancellation.StopFlag.constructor | download_thread.py:55 | the flag starts clear, with no reads yet |
| Cancellation.StopFlag.Stop | download_thread.py:59-63 | `stop()` sets the flag and changes nothing else |
| Cancellation.StopFlag.Read | download_thread.py:81 | one read of `is_stopped` ends in the state `Poll` describes |
| DownloadManager.ProgressHook | yt_download_manager.py:183-210 | cancels iff the flag is set; `downloading` reports the integer percentage of downloaded over total bytes (estimate as fallback, 0 if unknown); `finished` 100, `extracting` 50, `error` and `started` 0; other statuses report nothing |
| DownloadManager.ProgressHookBounded | yt_download_manager.py:188-195 | for byte counts within the total, every reported value lies in 0..100 |
| DownloadManager.ProgressHookMonotone | yt_download_manager.py:188-195 | with the same total, more downloaded bytes never report less |
| DownloadManager.RunHooks | yt_download_manager.py:183-210 | the flag only moves forward; a flag set on entry cancels at the first event before any report; without cancellation each event reads the flag once |
| DownloadManager.RunHooksUnstopped | yt_download_manager.py:183-210 | with no stop the hooks never cancel, and the values reported are, in order, the hook's percentages for the events of known status (`Percents`) |
| DownloadManager.Percents | yt_download_manager.py:188-206 | one value per event of known status, in order, each the value the hook reports for it with the flag clear |
| DownloadManager.RunHooksBounded | yt_download_manager.py:183-210 | every value reported over sane events lies in 0..100 |
| DownloadManager.RunProgressHooks | yt_download_manager.py:183-210 | calling the hook per event until one cancels gives the reports and flag state `RunHooks` describes |
| DownloadManager.YdlOptions | yt_download_manager.py:247-318 | the lower-cased format picks `quality/bestaudio/best` with mp3 extraction and metadata postprocessors, or `quality+bestaudio/best` merged into mp4 or mkv (mp4 for anything else); both subtitle switches follow `download_subtitles`; `cookiefile` is set iff a non-empty cookie path is given; the fixed switches (quiet, no warnings, ignore errors, continue, thumbnail, description and info file written, nothing embedded) and retry counts |
| DownloadManager.YdlOptionsContainer | yt_download_manager.py:269-298 | the merge container is mp4 or mkv, and postprocessors are requested exactly when there is no merge |
| DownloadManager.VideoTitle | yt_download_manager.py:174 | a present non-empty title is used, otherwise exactly `video_` followed by the id, or `video_unknown` without one |
| DownloadManager.OutputFilePath | yt_download_manager.py:170 | the `mp4` path of a template; a template without the `%(ext)s` placeholder is the path itself |
| DownloadManager.OutputFileOfTemplate | yt_download_manager.py:170 | a template `prefix.%(ext)s` whose prefix holds no placeholder names `prefix.mp4` |
| DownloadManager.Outtmpl | yt_download_manager.py:173-175 | the template handed to yt-dlp is the given template, `/`, the title (`VideoTitle`) and `.%(ext)s` |
| DownloadManager.SkipDownload | yt_download_manager.py:178 | a download is skipped iff its URL is in the ledger or the `mp4` path exists |
| DownloadManager.DownloadSpec | yt_download_manager.py:160-338 | skipped iff the URL is in the ledger or the `mp4` path exists, and then nothing changes; otherwise the engine runs once with `YdlOptions` and the reports and flag are those of the hooks over its events; the URL is recorded iff a hook cancelled or the engine returned (the outcome carries whether it cancelled), which sets exactly that URL's entry; any other engine exception is the failure, with its message, and leaves the ledger as it was; no existing entry ever changes |
| DownloadManager.DownloadUnstopped | yt_download_manager.py:183-186 | a download nobody stops is never cancelled |
| DownloadManager.DownloadTwiceSkips | yt_download_manager.py:178-180 | after a recorded download the same URL is skipped, whatever the template |
| DownloadManager.DownloadStoppedCancels | yt_download_manager.py:185-186 | with the flag set before the engine's first event, the download cancels, reports nothing, and is still recorded |
| DownloadManager.Manager.constructor | yt_download_manager.py:23-33 | the manager starts from the loaded ledger |
| DownloadManager.Manager.SaveDownloadedFile | yt_download_manager.py:45-47 | one entry set, every other entry unchanged |
| DownloadManager.Manager.DownloadVideo | yt_download_manager.py:160-338 | ends in the outcome, ledger, flag and reports `DownloadSpec` gives; the engine is called once unless skipped |
| PostProcessing.PrepareMetadata | yt_download_manager.py:340-381 | the text starts with `Basic Info:` and the title line, and ends with the `Original URL` line carrying the argument |
| PostProcessing.PrepareMetadataLines | yt_download_manager.py:348-381 | with single-line values, the text's lines are the three headed sections in fixed key order, missing values empty, lists joined by `, `, one blank line between sections |
| PostProcessing.FfmpegCommand | yt_download_manager.py:90-107 | `ffmpeg -i <video> -y`, title and author (with their defaults), comment and description only for a non-empty description, then `-c copy <video>_temp_with_comments.mp4` |
| PostProcessing.FfmpegCommandShape | yt_download_manager.py:90-112 | ffmpeg reads the video and writes a different `.mp4` file |
| PostProcessing.PngPath | yt_download_manager.py:63 | ends in `.png`; a path without `.` just gains `.png` (the case with a `.` is `PngPathLastDot`) |
| PostProcessing.PngPathLastDot | yt_download_manager.py:63 | a path whose last `.` is at `i` converts to the text before that `.` followed by `.png` |
| PostProcessing.PngPathIdempotent | yt_download_manager.py:63 | converting a converted path names the same file |
| PostProcessing.FindThumbnail | yt_download_manager.py:133-146 | the first candidate in `.png .jpg .jpeg .webp` order that exists and is a PNG or converts; none iff no candidate qualifies |
| PostProcessing.Stem | yt_download_manager.py:217 | `Path.stem`: no `/`, no longer than the path; a plain name without `.` is its own stem, and a path without `/` starts with its stem (the value for a path with a directory is `StemPlain` and `StemSuffix`) |
| PostProcessing.StemPlain | yt_download_manager.py:217 | a file name without `.` in any directory is its own stem |
| PostProcessing.StemSuffix | yt_download_manager.py:217 | a file name in any directory whose last `.` is at `i` has the text before that `.` as its stem (`d/v.mp4` gives `v`), or the whole name when that `.` is its first or last character |
| PostProcessing.TimestampTargets | yt_download_manager.py:235-241 | exactly five paths: the video; the stem (no directory part) with `.png`, `.txt` and `.info.json`; the video path with `.mp4` replaced by `.description`, which is the video path itself when it holds no `.mp4` |
| PostProcessing.PostprocessorHook | yt_download_manager.py:212-245 | the description is added iff its file exists; the metadata goes to `<stem>.txt` with the original URL defaulting to the video URL; times are set iff the timestamp is present and not 0 |
| PostProcessing.Disk.SetFileTimes | yt_download_manager.py:383-397 | every listed existing file gets the time, missing ones are skipped (none is created), other files keep their times |
| DownloadThread.TotalProgressValue | download_thread.py:178-184 | the integer part of completed/total*100, or 0 when nothing is counted |
| DownloadThread.TotalProgressBounded | download_thread.py:178-184 | the value stays within 100 while completed does not pass total |
| DownloadThread.UpdateTotal | download_thread.py:178-184 | emits exactly one overall progress signal |
| DownloadThread.CompleteOne | download_thread.py:105-106 | one more completed item, total unchanged, one progress signal |
| DownloadThread.AddTotal | download_thread.py:192 | the total grows by the entry count and nothing else changes |
| DownloadThread.ReadFlag | download_thread.py:81 | a read of `is_stopped` changes only the flag |
| DownloadThread.PathJoin | download_thread.py:249 | `os.path.join` ends with its second part and, for a relative part, starts with the first |
| DownloadThread.VideoFolder | download_thread.py:242-249 | `base/<first four characters of upload_date>` iff year folders are on and the date has at least four characters, otherwise `base` |
| DownloadThread.PathJoinAppend | download_thread.py:249-254 | text after a relative last component stays at the end of the joined path |
| DownloadThread.VideoTemplate | download_thread.py:253-254 | the template is in the video's folder and ends with the cleaned title and `.%(ext)s` |
| DownloadThread.VideoOutputFile | download_thread.py:253-254 | the file the manager's skip check looks for is the cleaned title with `.mp4` in the video's folder |
| DownloadThread.FetchVideo | download_thread.py:253-272 | the state `Downloaded` gives for the manager's `DownloadSpec` of the page URL into `VideoTemplate`: ledger, flag and reports from the manager, the failure recorded under the page URL (or `Unknown URL`) and not re-raised; counters unchanged, at most one failure added |
| DownloadThread.Downloaded | download_thread.py:258-272 | after `download_video` the worker holds the manager's ledger and flag, has emitted each report as a progress signal in order, and has appended exactly one `{url, reason}` entry, under the page URL or `Unknown URL`, iff the download raised; no counter changes |
| DownloadThread.Reported | download_thread.py:262 | each value the callback receives becomes one `progress_update` signal, in order |
| DownloadThread.SingleVideo | download_thread.py:215-272 | raises cancellation iff the flag is read as set, and then changes nothing but the flag; otherwise the signals go on with the title (`Unknown Title`) and the description (empty), and the state is that of `FetchVideo` from there |
| DownloadThread.SingleVideoUnstopped | download_thread.py:217-218 | a video nobody stops is never cancelled |
| DownloadThread.PlaylistEntry | download_thread.py:193-213 | a flag read as set ends the loop with no other change; with the flag clear, a None entry records `Entry is None.` under `Unknown Playlist Entry`, completes one item and goes on; a video ends the loop iff its download is cancelled, and then the last signal is the stopped message and no item is completed; otherwise one item is completed |
| DownloadThread.PlaylistEntries | download_thread.py:193-213 | total and counter unchanged, at most one completion per entry; a set flag stops at the first entry |
| DownloadThread.Playlist | download_thread.py:186-213 | the total grows by the number of entries up front |
| DownloadThread.PlaylistEntriesUnstopped | download_thread.py:193-213 | without a stop every entry, None or not, completes exactly one item |
| DownloadThread.PlaylistFolder | download_thread.py:188-189 | the playlist folder is in the base folder and ends with the cleaned playlist title (`Unknown_Playlist` by default) |
| DownloadThread.NestedPlaylists | download_thread.py:120 | a list of playlists has a first entry that is present and whose `_type` is playlist |
| DownloadThread.ChildPlaylist | download_thread.py:122-131 | ends the loop iff the flag is read as set; a None child records `Playlist entry is None.` under the URL and completes an uncounted item |
| DownloadThread.ChildPlaylists | download_thread.py:122-131 | the loop over a list of playlists only extends the state and leaves the URL counter alone |
| DownloadThread.ChannelFolder | download_thread.py:110-111 | the base folder is in the output folder and ends with the cleaned channel, else uploader, else `Unknown_Channel` |
| DownloadThread.Kind | download_thread.py:115 | `_type` when present, else `video` |
| DownloadThread.Classify | download_thread.py:109-151 | `_type` defaults to video; a video is `VideoUrl` into the channel folder and adds one to the total; a playlist whose first entry is a playlist is processed child by child, any other playlist once, into the channel folder; an unhandled type records `Unhandled type: <t>` and changes no counter; only a video can break the loop |
| DownloadThread.VideoUrl | download_thread.py:135-148 | a single video counts one item; it breaks iff the flag is read as set, else it completes the item |
| DownloadThread.AfterVideo | download_thread.py:140-148 | after a cancellation the stopped message and no completion, otherwise one completion |
| DownloadThread.ExtractAndDispatch | download_thread.py:89-157 | no metadata records `No metadata found.` and continues; an extraction error records its message; both complete one item without counting it in the total; an answer with metadata is dispatched by `Classify` |
| DownloadThread.ProcessUrl | download_thread.py:85-159 | announces `Processing URL i/n`, dispatches, and ends with the item progress reset to 0 |
| DownloadThread.Finally | download_thread.py:158-159 | the item progress is reset on every way out of the body |
| DownloadThread.CountUrl | download_thread.py:161-166 | the URL counter grows by one and a cool-off happens exactly at multiples of ten |
| DownloadThread.UrlIteration | download_thread.py:80-166 | a set flag emits the stopped message and ends the loop; otherwise the loop ends exactly when the URL's pass breaks, and the counter goes up by one exactly when the pass reaches the end of the body, so a cancellation break or a skip to the next URL is not counted; an extraction error is counted; a no-metadata answer is not counted |
| DownloadThread.UrlLoop | download_thread.py:80-166 | the counter grows by at most one per URL; a set flag ends the loop at once with the stopped message |
| DownloadThread.Finish | download_thread.py:168-176 | the failures once iff there are any, the stopped message iff the flag is set, then `Download complete` and `finished` |
| DownloadThread.RunSpec | download_thread.py:65-176 | the run only extends the state, ends with `Download complete` and `finished`, and counts at most one per URL |
| DownloadThread.RunStoppedFirst | download_thread.py:71-176 | a stop before the first URL processes nothing and shows the stopped message twice before `Download complete` |
| DownloadThread.ClassifyUnstopped | download_thread.py:137-143 | without a stop no single video breaks the loop |
| DownloadThread.UrlIterationUnstopped | download_thread.py:80-166 | without a stop each URL is counted unless it had no metadata |
| DownloadThread.UrlLoopUnstopped | download_thread.py:80-166 | without a stop the loop counts every URL except those without metadata |
| DownloadThread.RunUnstopped | download_thread.py:65-176 | a run nobody stops ends with the failures (if any), `Download complete` and `finished`, never the stopped message |
| DownloadThread.ExtractErrorOvercounts | download_thread.py:152-157 | an extraction error completes an uncounted item; one of one done already makes the overall progress read 200 |
| DownloadThread.Thread.constructor | download_thread.py:39-57 | no failures, zero counter, no signals, a fresh flag |
| DownloadThread.Thread.Stop | download_thread.py:59-63 | `stop()` sets the flag and nothing else |
| DownloadThread.Thread.UpdateTotalProgress | download_thread.py:178-184 | appends the overall progress signal; no field changes |
| DownloadThread.Thread.CompleteItem | download_thread.py:105-106 | the state `CompleteOne` describes |
| DownloadThread.Thread.Fetch | download_thread.py:253-272 | the state `FetchVideo` describes |
| DownloadThread.Thread.Record | download_thread.py:262-272 | the progress reports are emitted in order; a failed download appends one `{url, reason}` entry with the page URL or `Unknown URL`; the counters are untouched |
| DownloadThread.Thread.ProcessSingleVideo | download_thread.py:215-272 | the state and cancellation `SingleVideo` describes |
| DownloadThread.Thread.HandleEntry | download_thread.py:193-213 | the state and loop exit `PlaylistEntry` describes |
| DownloadThread.Thread.ProcessPlaylist | download_thread.py:186-213 | the state `Playlist` describes |
| DownloadThread.Thread.HandleChild | download_thread.py:122-131 | the state and loop exit `ChildPlaylist` describes |
| DownloadThread.Thread.ProcessChildPlaylists | download_thread.py:122-131 | the state `ChildPlaylists` describes |
| DownloadThread.Thread.AddItems | download_thread.py:192 | the state `AddTotal` describes |
| DownloadThread.Thread.HandleVideo | download_thread.py:135-148 | the state and `break` `VideoUrl` describes |
| DownloadThread.Thread.ClassifyInfo | download_thread.py:109-151 | the state and `break` `Classify` describes |
| DownloadThread.Thread.Dispatch | download_thread.py:89-157 | the state and exit kind `ExtractAndDispatch` describes |
| DownloadThread.Thread.ProcessUrlBody | download_thread.py:85-159 | the state and exit kind `ProcessUrl` describes |
| DownloadThread.Thread.HandleUrl | download_thread.py:80-166 | the state and loop exit `UrlIteration` describes |
| DownloadThread.Thread.FinishRun | download_thread.py:168-176 | the state `Finish` describes |
| DownloadThread.Thread.Run | download_thread.py:65-176 | the state `RunSpec` describes, over a new manager holding the loaded ledger |
| Dialogs.ParseLines | dialogs.py:183 | at most one URL per line, each stripped |
| Dialogs.GetFailedUrls | dialogs.py:174-183 | the URLs read from the dialog's text, each stripped |
| Dialogs.ParseOneLine | dialogs.py:183 | a line without ` - ` gives nothing; a line with it gives the stripped text before the first ` - ` |
| Dialogs.ParseLinesAppend | dialogs.py:183 | lines are read independently and in order |
| Dialogs.LineUrlHasNoSeparator | dialogs.py:183 | a URL read back never contains ` - ` |
| Dialogs.ParseLinesNoSeparator | dialogs.py:183 | no URL read from any text contains ` - ` |
| Dialogs.FindSeparator | dialogs.py:183 | in `url - rest`, the first ` - ` is the one after the URL when the URL neither contains ` - ` nor ends with ` -` |
| Dialogs.LineUrlOfFormatted | dialogs.py:183 | a `url - reason` line reads back as the URL |
| Dialogs.ComboStart | dialogs.py:80-83 | the combo box shows the setting if it is one of its items, otherwise its first item |
| Dialogs.SavedSettings | dialogs.py:112-114 | exactly the three keys are written, with the widget values; every other key is unchanged |
| Dialogs.ReopenShowsSaved | dialogs.py:69-95 | a dialog opened on saved settings shows the saved values |
| Dialogs.SaveIdempotent | dialogs.py:112-114 | saving the same values twice is saving them once |
| Dialogs.SettingsDialog.constructor | dialogs.py:57-96 | the checkbox and combo boxes start from the settings, with their defaults |
| Dialogs.SettingsDialog.Edit | dialogs.py:78-96 | a combo box only ever holds one of its items; the settings are untouched until saved |
| Dialogs.SettingsDialog.SaveSettings | dialogs.py:108-115 | the settings become `SavedSettings` of the old settings and the widgets; widgets unchanged |
| GuiInterface.KeepUrls | gui_interface.py:298 | only stripped, non-empty lines are kept, never more than there were; with `KeepUrlsOne` and `KeepUrlsAppend`, each line gives its stripped text unless that is empty, in order |
| GuiInterface.NormaliseUrls | gui_interface.py:297-298 | every URL from the box is non-empty and stripped |
| GuiInterface.KeepUrlsKeeps | gui_interface.py:298 | stripped, non-empty lines are all kept, in order, unchanged |
| GuiInterface.KeepUrlsOne | gui_interface.py:298 | one line gives its stripped text, or nothing when that is empty |
| GuiInterface.KeepUrlsAppend | gui_interface.py:298 | lines are kept independently and in order: keeping distributes over concatenation |
| GuiInterface.NormaliseJoined | gui_interface.py:297-298 | single-line, stripped, non-empty URLs put in the box one per line read back as the same list |
| GuiInterface.NormaliseIdempotent | gui_interface.py:297-298 | reading back what the box yields, joined by `\n`, yields it again |
| GuiInterface.StartDownload | gui_interface.py:291-319 | no URLs is refused first, then an empty output folder; a download starts iff both are present, with the normalised URLs |
| GuiInterface.FormatFailure | gui_interface.py:461-464 | every failure line contains ` - ` |
| GuiInterface.FromThread | download_thread.py:168-170 | the worker's failures always carry both the URL and the reason |
| GuiInterface.FormatFailures | gui_interface.py:461-464 | one line per failure, in order |
| GuiInterface.FailedUrlsOf | gui_interface.py:462 | the failures' URLs in order, `Unknown URL` for a missing one |
| GuiInterface.HandleFailedDownloads | gui_interface.py:449-479 | no dialog iff no failures; it shows the formatted lines; declined iff not accepted; nothing is retried iff accepted but no URL is read back; otherwise the read-back list goes into the box joined by `\n` and is started again |
| GuiInterface.ParseFormatted | gui_interface.py:461-464 | reading back the formatted lines gives the failures' URLs in order |
| GuiInterface.RetryRoundTrip | gui_interface.py:461-479 | when no URL contains ` - `, ends with ` -` or spans lines, and no reason spans lines, accepting restarts the download with exactly the failed URLs in order |

## Left out

- The Qt user interface is not modelled: layouts, widgets, message boxes, signal wiring, log_handler.py and main.py. Signals are an event log; the URL box, the chosen folder and the dialog's answer are parameters.
- download_app.py is not part of this model. It is an older window whose only logic repeats `on_start_download_clicked` and the failure formatting without the default texts.
- `YTDownloadManager.closeEvent` is window code placed in the manager and is not modelled.
- yt-dlp's extractor and download engine are oracles given as functions. So are file existence, the PNG conversion of `convert_thumbnail_to_png` and the reading of the description file. The `requests` thumbnail fetch is left out: its result only feeds a preview signal.
- JSON loading and saving of the ledger and the settings are left out. The manager starts from the loaded ledger, and `save_downloaded_file` is modelled as the map update alone.
- `os.makedirs`, ffmpeg's run, mutagen's cover embedding and the metadata file write are left out. So is any exception they raise, including the generic handlers at download_thread.py:144-146 and 152-157 when the cause is not the extractor.
- The cool-off's random delay and sleep are left out; only when a cool-off happens is modelled, as a `CoolOff` event.
- Concurrency is reduced to the stop flag's schedule: `stop()` takes effect just before some read of the flag.
- DownloadManager.ProgressHook: the float expression `int(downloaded / total * 100)` is modelled as the exact integer part, `downloaded * 100 / total` in integer division. Where the float product falls just below a whole number the code reports one less: 29 of 100 bytes gives 28 in the code and 29 in the model.
- DownloadThread.TotalProgressValue: the float percentage is modelled the same way and can likewise be one higher than the code's value: 29 of 50 items gives 57 in the code and 58 in the model.
- DownloadThread.Kind: a `_type` key present with the value None is not told apart from a missing key. Both mean a video here, as at download_thread.py:135.
- The model does not tell a dictionary value that is present but None apart from a missing key. This affects `info_dict.get('title', ...)` and similar calls, where Python would return None.
- AppSettings.GetText: a settings value that is not a string is read as the default. The code would pass it to `.lower()`, `findText` or string concatenation and fail.
- Dialogs.SettingsDialog.constructor: a non-boolean `use_year_subfolders` is read by truthiness. Qt's `setChecked` would reject it.
- Dialogs.SettingsDialog.Edit stands in for the user's interaction with the widgets; there is no source operation for it.
- `SettingsDialog` edits the window's own settings dictionary in place. The model keeps the dialog's copy only, with no aliasing. `get_settings` returns that dictionary and is not modelled separately.
- Text.Lower: only ASCII letters are lower-cased. Python's `str.lower()` also maps other Unicode letters. This matters only for the `output_format` setting, whose meaningful values are ASCII.
- Output templates are modelled as plain text with one `%(ext)s` placeholder. A `%` in a title or folder name, which Python's `%` formatting would reject or reinterpret, is not modelled.
- The `embed_metadata` dictionary built in `download_video` is never used by the code and is not modelled.
- `QTextEdit.setText` may treat text that looks like HTML as rich text. The failed-downloads dialog's text is taken to be plain.
- Three runtime defects of the code are not modelled:
  - the worker passes `logger=` to a manager constructor that does not accept it (download_thread.py:74-78);
  - several file-path methods are called on plain strings (yt_download_manager.py:111, 137, 148, 216-222, 392);
  - `progress_hook` calls the callback unguarded for `downloading`.

  The model follows the evident intent of each.
- The wiring of the `postprocessor_hooks` callback into yt-dlp is not modelled: `PostprocessorHook` is a function of the finished file's info. Of the hook's statuses, only "finished" is modelled.
