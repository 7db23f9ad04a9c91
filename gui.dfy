/**
 * The logic inside the main window's slots in gui_interface.py: turning the URL box into the
 * URL list and deciding whether a download may start (`on_start_download_clicked`), and
 * showing the failures and restarting with the URLs the user accepts
 * (`handle_failed_downloads`). Widgets, message boxes and the thread's signal wiring are not
 * modelled; the box's text, the chosen folder and the dialog's answer are parameters.
 */
module GuiInterface {
  import opened Wrappers
  import opened Text
  import opened Dialogs
  import DownloadThread

  // ---------------------------------------------------------------- starting a download

  /** The kept, stripped lines of the URL box, in order. */
  function KeepUrls(lines: seq<string>): (urls: seq<string>)
    ensures |urls| <= |lines|
    ensures forall u :: u in urls ==> u != "" && Stripped(u)
  {
    if lines == [] then []
    else (if Strip(lines[0]) != "" then [Strip(lines[0])] else []) + KeepUrls(lines[1..])
  }

  /** `[url.strip() for url in text.splitlines() if url.strip()]`. */
  function NormaliseUrls(text: string): (urls: seq<string>)
    ensures forall u :: u in urls ==> u != "" && Stripped(u)
  {
    KeepUrls(SplitLines(text))
  }

  /** One line gives its stripped text, or nothing when that is empty. */
  lemma KeepUrlsOne(line: string)
    ensures KeepUrls([line]) == if Strip(line) != "" then [Strip(line)] else []
  {
    assert [line][1..] == [];
  }

  /** Lines are read independently and in order: keeping distributes over concatenation. */
  lemma {:induction false} KeepUrlsAppend(a: seq<string>, b: seq<string>)
    ensures KeepUrls(a + b) == KeepUrls(a) + KeepUrls(b)
  {
    if a == [] {
      assert a + b == b;
    } else {
      var h := if Strip(a[0]) != "" then [Strip(a[0])] else [];
      assert (a + b)[0] == a[0] && (a + b)[1..] == a[1..] + b;
      assert KeepUrls(a + b) == h + KeepUrls(a[1..] + b);
      KeepUrlsAppend(a[1..], b);
      assert h + (KeepUrls(a[1..]) + KeepUrls(b)) == (h + KeepUrls(a[1..])) + KeepUrls(b);
    }
  }

  /** Stripping never brings a line boundary into a line. */
  lemma {:induction false} KeepUrlsSingleLine(lines: seq<string>)
    requires forall i :: 0 <= i < |lines| ==> NoLineBreak(lines[i])
    ensures forall i :: 0 <= i < |KeepUrls(lines)| ==> NoLineBreak(KeepUrls(lines)[i])
  {
    if lines != [] {
      KeepUrlsSingleLine(lines[1..]);
      var t := Strip(lines[0]);
      assert forall c :: c in t ==> c in lines[0];
      forall k | 0 <= k < |t| ensures !IsLineBreak(t[k]) {
        assert t[k] in lines[0];
      }
    }
  }

  /** Lines that are already stripped and non-empty are all kept as they are. */
  lemma {:induction false} KeepUrlsKeeps(urls: seq<string>)
    requires forall u :: u in urls ==> u != "" && Stripped(u)
    ensures KeepUrls(urls) == urls
  {
    if urls != [] {
      assert urls[0] in urls;
      forall u | u in urls[1..] ensures u != "" && Stripped(u) {
        assert u in urls;
      }
      KeepUrlsKeeps(urls[1..]);
    }
  }

  /** A URL list that has gone through the box once comes out of it unchanged. */
  predicate BoxReady(urls: seq<string>) {
    forall i :: 0 <= i < |urls| ==> urls[i] != "" && Stripped(urls[i]) && NoLineBreak(urls[i])
  }

  /** Putting such a list back into the box, one URL per line, reads back the same list. */
  lemma NormaliseJoined(urls: seq<string>)
    requires BoxReady(urls)
    ensures NormaliseUrls(Join(urls, "\n")) == urls
  {
    SplitLinesJoin(urls);
    forall u | u in urls ensures u != "" && Stripped(u) {
      var i :| 0 <= i < |urls| && urls[i] == u;
    }
    KeepUrlsKeeps(urls);
  }

  /** Reading the box is idempotent: what it yields, joined back, yields itself. */
  lemma NormaliseIdempotent(text: string)
    ensures NormaliseUrls(Join(NormaliseUrls(text), "\n")) == NormaliseUrls(text)
  {
    var urls := NormaliseUrls(text);
    KeepUrlsSingleLine(SplitLines(text));
    forall i | 0 <= i < |urls| ensures urls[i] != "" && Stripped(urls[i]) {
      assert urls[i] in urls;
    }
    NormaliseJoined(urls);
  }

  /** What pressing "Start Download" does. */
  datatype StartDecision =
    | NoUrls                                       // "Please enter at least one valid URL."
    | NoOutputFolder                               // "Please select an output folder."
    | Start(urls: seq<string>, output: string)     // a new `DownloadThread(urls, output, ...)`

  /** The checks of `on_start_download_clicked`: URLs first, then the output folder. */
  function StartDownload(text: string, outputFolder: Option<string>): (d: StartDecision)
    ensures d.NoUrls? <==> NormaliseUrls(text) == []
    ensures d.NoOutputFolder? <==> NormaliseUrls(text) != [] && outputFolder.GetOr("") == ""
    ensures d.Start? ==> d.urls == NormaliseUrls(text) && d.urls != []
                         && outputFolder == Some(d.output) && d.output != ""
  {
    var urls := NormaliseUrls(text);
    if urls == [] then NoUrls
    else if outputFolder.GetOr("") == "" then NoOutputFolder
    else Start(urls, outputFolder.value)
  }

  // ---------------------------------------------------------------- failed downloads

  /** One entry of the list the worker signals, read with `.get`: either key may be missing. */
  datatype FailureItem = FailureItem(url: Option<string>, reason: Option<string>)

  /** `f"{item.get('url', 'Unknown URL')} - {item.get('reason', 'No reason provided')}"`. */
  function FormatFailure(item: FailureItem): (line: string)
    ensures Contains(line, Separator)
  {
    var url, reason := item.url.GetOr("Unknown URL"), item.reason.GetOr("No reason provided");
    assert OccursAt(url + Separator + reason, Separator, |url|) by {
      assert (url + Separator + reason)[|url|..|url| + 3] == Separator;
    }
    url + Separator + reason
  }

  /** The failures as the worker thread signals them: both keys are always present. */
  function FromThread(failed: seq<DownloadThread.Failure>): (items: seq<FailureItem>)
    ensures |items| == |failed|
    ensures forall i :: 0 <= i < |failed| ==> items[i] == FailureItem(Some(failed[i].url), Some(failed[i].reason))
  {
    if failed == [] then []
    else [FailureItem(Some(failed[0].url), Some(failed[0].reason))] + FromThread(failed[1..])
  }

  /** The formatted list, one line per failure in order. */
  function FormatFailures(items: seq<FailureItem>): (lines: seq<string>)
    ensures |lines| == |items|
    ensures forall i :: 0 <= i < |items| ==> lines[i] == FormatFailure(items[i])
  {
    if items == [] then [] else [FormatFailure(items[0])] + FormatFailures(items[1..])
  }

  /** The URLs of the failures, with the same default. */
  function FailedUrlsOf(items: seq<FailureItem>): (urls: seq<string>)
    ensures |urls| == |items|
    ensures forall i :: 0 <= i < |items| ==> urls[i] == items[i].url.GetOr("Unknown URL")
  {
    if items == [] then [] else [items[0].url.GetOr("Unknown URL")] + FailedUrlsOf(items[1..])
  }

  /** What `handle_failed_downloads` does, given whether the user accepts the dialog. */
  datatype RetryDecision =
    | NoDialog                                        // no failures: nothing is shown
    | Declined(shown: string)                         // the dialog is cancelled
    | NothingToRetry(shown: string)                   // accepted, but no URL could be read back
    | Retry(shown: string, input: string, start: StartDecision)  // the box is refilled and started

  /**
   * `handle_failed_downloads(failed_urls)`: show the formatted failures; on acceptance read the
   * URLs back, put them into the box one per line and press "Start Download" again.
   */
  function HandleFailedDownloads(items: seq<FailureItem>, accepted: bool, outputFolder: Option<string>): (d: RetryDecision)
    ensures d.NoDialog? <==> items == []
    ensures !d.NoDialog? ==> d.shown == DialogText(FormatFailures(items))
    ensures d.Declined? <==> items != [] && !accepted
    ensures d.NothingToRetry? <==> items != [] && accepted && GetFailedUrls(DialogText(FormatFailures(items))) == []
    ensures d.Retry? ==> accepted && d.input == Join(GetFailedUrls(d.shown), "\n") && GetFailedUrls(d.shown) != []
    ensures d.Retry? ==> d.start == StartDownload(d.input, outputFolder)
  {
    if items == [] then NoDialog
    else
      var shown := DialogText(FormatFailures(items));
      if !accepted then Declined(shown)
      else
        var urls := GetFailedUrls(shown);
        if urls == [] then NothingToRetry(shown)
        else
          var input := Join(urls, "\n");
          Retry(shown, input, StartDownload(input, outputFolder))
  }

  /** A failure whose URL and reason survive the dialog's text unchanged. */
  predicate Retryable(item: FailureItem) {
    var url := item.url.GetOr("Unknown URL");
    && Separable(url) && Stripped(url) && url != "" && NoLineBreak(url)
    && NoLineBreak(item.reason.GetOr("No reason provided"))
  }

  /** Formatting then reading back gives the URLs of the failures, in order. */
  lemma {:induction false} ParseFormatted(items: seq<FailureItem>)
    requires forall i :: 0 <= i < |items| ==> Retryable(items[i])
    ensures ParseLines(FormatFailures(items)) == FailedUrlsOf(items)
  {
    if items != [] {
      var it := items[0];
      LineUrlOfFormatted(it.url.GetOr("Unknown URL"), it.reason.GetOr("No reason provided"));
      ParseFormatted(items[1..]);
    }
  }

  /** A formatted line holds no line boundary when neither of its parts does. */
  lemma FormattedSingleLine(item: FailureItem)
    requires Retryable(item)
    ensures NoLineBreak(FormatFailure(item))
  {
    var url, reason := item.url.GetOr("Unknown URL"), item.reason.GetOr("No reason provided");
    var s := url + Separator + reason;
    forall k | 0 <= k < |s| ensures !IsLineBreak(s[k]) {
      if k < |url| {
        assert s[k] == url[k];
      } else if k >= |url| + 3 {
        assert s[k] == reason[k - |url| - 3];
      }
    }
  }

  /**
   * Accepting the dialog restarts the download with exactly the failed URLs, in order, when
   * every URL and reason survives the dialog's text.
   */
  lemma RetryRoundTrip(items: seq<FailureItem>, outputFolder: Option<string>)
    requires items != []
    requires forall i :: 0 <= i < |items| ==> Retryable(items[i])
    ensures var d := HandleFailedDownloads(items, true, outputFolder);
            var urls := FailedUrlsOf(items);
            && d == Retry(DialogText(FormatFailures(items)), Join(urls, "\n"), StartDownload(Join(urls, "\n"), outputFolder))
            && (d.start.Start? ==> d.start.urls == urls)
  {
    var lines := FormatFailures(items);
    forall i | 0 <= i < |lines| ensures NoLineBreak(lines[i]) {
      FormattedSingleLine(items[i]);
    }
    assert lines[|lines| - 1] != "" by {
      assert Contains(lines[|lines| - 1], Separator);
    }
    SplitLinesJoin(lines);
    ParseFormatted(items);
    var urls := FailedUrlsOf(items);
    assert BoxReady(urls) by {
      forall i | 0 <= i < |urls| ensures urls[i] != "" && Stripped(urls[i]) && NoLineBreak(urls[i]) {
        assert Retryable(items[i]);
      }
    }
    NormaliseJoined(urls);
  }
}
