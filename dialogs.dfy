/**
 * The two dialogs of dialogs.py that hold logic: the settings dialog, which writes its three
 * widgets back into the settings dictionary, and the failed-downloads dialog, which shows one
 * `url - reason` line per failure and reads the URLs back from its text.
 */
module Dialogs {
  import opened Wrappers
  import opened Text
  import opened AppSettings

  // ---------------------------------------------------------------- failed downloads

  /** What separates a URL from its reason on a line of the failed-downloads dialog. */
  const Separator: string := " - "

  /** The text the dialog shows: the formatted lines joined by "\n". */
  function DialogText(formatted: seq<string>): string {
    Join(formatted, "\n")
  }

  /** The URL read from one line: the text before the first separator, stripped. */
  function LineUrl(line: string): string {
    Strip(Before(line, Separator))
  }

  /** The list comprehension of `get_failed_urls` over the dialog's lines. */
  function ParseLines(lines: seq<string>): (urls: seq<string>)
    ensures |urls| <= |lines|
    ensures forall u :: u in urls ==> Stripped(u)
  {
    if lines == [] then []
    else (if Contains(lines[0], Separator) then [LineUrl(lines[0])] else []) + ParseLines(lines[1..])
  }

  /** `get_failed_urls()` on the dialog's plain text. */
  function GetFailedUrls(text: string): (urls: seq<string>)
    ensures forall u :: u in urls ==> Stripped(u)
  {
    ParseLines(SplitLines(text))
  }

  /** A line without the separator gives nothing; one with it gives exactly its URL. */
  lemma ParseOneLine(line: string)
    ensures ParseLines([line]) == if Contains(line, Separator) then [LineUrl(line)] else []
  {
    assert [line][1..] == [];
  }

  /** Lines are read independently and in order: parsing distributes over concatenation. */
  lemma {:induction false} ParseLinesAppend(a: seq<string>, b: seq<string>)
    ensures ParseLines(a + b) == ParseLines(a) + ParseLines(b)
  {
    if a == [] {
      assert a + b == b;
    } else {
      assert (a + b)[0] == a[0] && (a + b)[1..] == a[1..] + b;
      ParseLinesAppend(a[1..], b);
    }
  }

  /** An occurrence in a slice is an occurrence in the whole text. */
  lemma ContainsSlice(s: string, a: nat, b: nat, pat: string)
    requires a <= b <= |s|
    requires Contains(s[a..b], pat)
    ensures Contains(s, pat)
  {
    var t := s[a..b];
    var j := Find(t, pat).value;
    assert t[j..j + |pat|] == pat;
    forall k | 0 <= k < |pat| ensures s[a + j..a + j + |pat|][k] == pat[k] {
      assert t[j..j + |pat|][k] == t[j + k] == s[a + j + k];
    }
    assert s[a + j..a + j + |pat|] == pat;
    assert OccursAt(s, pat, a + j);
  }

  /** The text before the first separator holds no separator. */
  lemma BeforeHasNoSeparator(line: string)
    ensures !Contains(Before(line, Separator), Separator)
  {
    match Find(line, Separator)
    case None =>
    case Some(i) =>
      var p := line[..i];
      if Contains(p, Separator) {
        var j := Find(p, Separator).value;
        assert p[j..j + |Separator|] == line[j..j + |Separator|];
        assert OccursAt(line, Separator, j);
      }
  }

  /** No URL read back from the dialog holds the separator. */
  lemma LineUrlHasNoSeparator(line: string)
    ensures !Contains(LineUrl(line), Separator)
  {
    var p := Before(line, Separator);
    BeforeHasNoSeparator(line);
    var a, b := LeadingEnd(p), TrailingStart(p);
    if a < b && Contains(p[a..b], Separator) {
      ContainsSlice(p, a, b, Separator);
    }
  }

  lemma {:induction false} ParseLinesNoSeparator(lines: seq<string>)
    ensures forall u :: u in ParseLines(lines) ==> !Contains(u, Separator)
  {
    if lines != [] {
      LineUrlHasNoSeparator(lines[0]);
      ParseLinesNoSeparator(lines[1..]);
    }
  }

  /** A URL that can stand before the separator without being cut short or running into it. */
  predicate Separable(url: string) {
    !Contains(url, Separator) && !EndsWith(url, " -")
  }

  /** The separator occurs at `j` exactly when the three characters there spell it. */
  lemma OccursSeparator(s: string, j: nat)
    requires j + 3 <= |s|
    ensures OccursAt(s, Separator, j) <==> s[j] == ' ' && s[j + 1] == '-' && s[j + 2] == ' '
  {
    assert s[j..j + 3] == [s[j], s[j + 1], s[j + 2]];
  }

  /** No separator starts inside the URL of `url + " - " + rest`. */
  lemma NoSeparatorAt(url: string, rest: string, j: nat)
    requires Separable(url) && j < |url|
    ensures !OccursAt(url + Separator + rest, Separator, j)
  {
    var s := url + Separator + rest;
    if j + 3 <= |s| {
      OccursSeparator(s, j);
      if j + 3 <= |url| {
        OccursSeparator(url, j);
        assert s[j] == url[j] && s[j + 1] == url[j + 1] && s[j + 2] == url[j + 2];
      } else if j + 2 == |url| {
        assert url[|url| - 2..] == [url[j], url[j + 1]];
        assert s[j] == url[j] && s[j + 1] == url[j + 1];
      } else {
        assert s[j + 1] == Separator[0];
      }
    }
  }

  /** The first separator of `url + " - " + rest` is the one after the URL. */
  lemma FindSeparator(url: string, rest: string)
    requires Separable(url)
    ensures Find(url + Separator + rest, Separator) == Some(|url|)
  {
    var s := url + Separator + rest;
    assert s[|url|..|url| + 3] == Separator;
    assert OccursAt(s, Separator, |url|);
    forall j | 0 <= j < |url| ensures !OccursAt(s, Separator, j) {
      NoSeparatorAt(url, rest, j);
    }
  }

  /** A line written as `url - reason` reads back as the URL. */
  lemma LineUrlOfFormatted(url: string, reason: string)
    requires Separable(url) && Stripped(url)
    ensures Contains(url + Separator + reason, Separator)
    ensures LineUrl(url + Separator + reason) == url
  {
    var s := url + Separator + reason;
    FindSeparator(url, reason);
    assert s[..|url|] == url;
  }

  // ---------------------------------------------------------------- settings

  const FormatItems: seq<string> := ["mp4", "mp3", "mkv"]
  const LevelItems: seq<string> := ["DEBUG", "INFO", "WARNING", "ERROR", "CRITICAL"]

  /** The entry a combo box shows after `findText(current)`: it, if listed, else the first item. */
  function ComboStart(items: seq<string>, current: string): (r: string)
    requires |items| > 0
    ensures r in items
    ensures current in items <==> r == current
  {
    if current in items then current else items[0]
  }

  /** The keys `save_settings` writes. */
  const DialogKeys: set<string> := {"use_year_subfolders", "output_format", "logging_level"}

  /** The settings after `save_settings` with the given widget values. */
  function SavedSettings(s: Settings, year: bool, format: string, level: string): (r: Settings)
    ensures r.Keys == s.Keys + DialogKeys
    ensures r["use_year_subfolders"] == Bool(year)
    ensures r["output_format"] == Str(format) && r["logging_level"] == Str(level)
    ensures forall k :: k in s && k !in DialogKeys ==> r[k] == s[k]
  {
    s["use_year_subfolders" := Bool(year)]["output_format" := Str(format)]["logging_level" := Str(level)]
  }

  /** Saving and reopening the dialog shows the values that were saved. */
  lemma ReopenShowsSaved(s: Settings, year: bool, format: string, level: string)
    requires format in FormatItems && level in LevelItems
    ensures var r := SavedSettings(s, year, format, level);
            && GetFlag(r, "use_year_subfolders", false) == year
            && ComboStart(FormatItems, GetText(r, "output_format", "mp4")) == format
            && ComboStart(LevelItems, GetText(r, "logging_level", "DEBUG")) == level
  {
  }

  /** Saving the same widget values twice is saving them once. */
  lemma SaveIdempotent(s: Settings, year: bool, format: string, level: string)
    ensures SavedSettings(SavedSettings(s, year, format, level), year, format, level)
         == SavedSettings(s, year, format, level)
  {
  }

  /** `SettingsDialog`: the settings it edits and the state of its three widgets. */
  class SettingsDialog {
    var settings: Settings
    /** The year-subfolder checkbox. */
    var yearChecked: bool
    /** The output-format combo box's current text. */
    var format: string
    /** The logging-level combo box's current text. */
    var level: string

    /** `SettingsDialog(settings)`: the widgets start from the settings, with their defaults. */
    constructor (settings: Settings)
      ensures this.settings == settings
      ensures yearChecked == GetFlag(settings, "use_year_subfolders", false)
      ensures format == ComboStart(FormatItems, GetText(settings, "output_format", "mp4"))
      ensures level == ComboStart(LevelItems, GetText(settings, "logging_level", "DEBUG"))
    {
      this.settings := settings;
      yearChecked := GetFlag(settings, "use_year_subfolders", false);
      var current := GetText(settings, "output_format", "mp4");
      format := if current in FormatItems then current else FormatItems[0];
      var currentLevel := GetText(settings, "logging_level", "DEBUG");
      level := if currentLevel in LevelItems then currentLevel else LevelItems[0];
    }

    /** The user picks entries; a combo box only ever holds one of its items. */
    method Edit(year: bool, formatIndex: nat, levelIndex: nat)
      requires formatIndex < |FormatItems| && levelIndex < |LevelItems|
      modifies this
      ensures yearChecked == year && format == FormatItems[formatIndex] && level == LevelItems[levelIndex]
      ensures settings == old(settings)
    {
      yearChecked := year;
      format := FormatItems[formatIndex];
      level := LevelItems[levelIndex];
    }

    /** `save_settings()`: the three widget values overwrite their keys; nothing else changes. */
    method SaveSettings()
      modifies this
      ensures settings == SavedSettings(old(settings), yearChecked, format, level)
      ensures yearChecked == old(yearChecked) && format == old(format) && level == old(level)
    {
      settings := settings["use_year_subfolders" := Bool(yearChecked)];
      settings := settings["output_format" := Str(format)];
      settings := settings["logging_level" := Str(level)];
    }
  }
}
