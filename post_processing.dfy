/**
 * What yt_download_manager.py does once yt-dlp has written a file: the metadata text of
 * `prepare_metadata`, the ffmpeg command of `add_description_to_video`, the thumbnail search
 * of `embed_thumbnail` with the path rule of `convert_thumbnail_to_png`, and the files whose
 * times `postprocessor_hook` and `set_file_times` update. File existence and the image
 * conversion are oracle functions; the file system's times are a `Disk` object.
 */
module PostProcessing {
  import opened Wrappers
  import opened Text

  // ---------------------------------------------------------------- metadata text

  /**
   * The keys of the post-processed info dictionary that `prepare_metadata` reads, each value
   * as the text `str()` gives for it; `tags` and `categories` are lists of texts.
   */
  datatype MediaInfo = MediaInfo(
    title: Option<string>,
    uploader: Option<string>,
    uploadDate: Option<string>,
    duration: Option<string>,
    viewCount: Option<string>,
    likeCount: Option<string>,
    description: Option<string>,
    tags: Option<seq<string>>,
    format: Option<string>,
    formatId: Option<string>,
    resolution: Option<string>,
    fps: Option<string>,
    vcodec: Option<string>,
    acodec: Option<string>,
    categories: Option<seq<string>>,
    license: Option<string>,
    ageLimit: Option<string>,
    webpageUrl: Option<string>)

  const BasicKeys: seq<string> :=
    ["Title", "Uploader", "Upload date", "Duration", "View count", "Like count", "Description", "Tags"]
  const TechnicalKeys: seq<string> :=
    ["Format", "Format ID", "Resolution", "FPS", "Video Codec", "Audio Codec"]
  const OtherKeys: seq<string> :=
    ["Categories", "License", "Age Limit", "Webpage URL", "Original URL"]

  /** The values of the "Basic Info" section; a missing key renders as empty. */
  function BasicValues(m: MediaInfo): (v: seq<string>)
    ensures |v| == |BasicKeys|
  {
    [ m.title.GetOr(""), m.uploader.GetOr(""), m.uploadDate.GetOr(""), m.duration.GetOr(""),
      m.viewCount.GetOr(""), m.likeCount.GetOr(""), m.description.GetOr(""),
      Join(m.tags.GetOr([]), ", ") ]
  }

  /** The values of the "Technical Info" section. */
  function TechnicalValues(m: MediaInfo): (v: seq<string>)
    ensures |v| == |TechnicalKeys|
  {
    [ m.format.GetOr(""), m.formatId.GetOr(""), m.resolution.GetOr(""), m.fps.GetOr(""),
      m.vcodec.GetOr(""), m.acodec.GetOr("") ]
  }

  /** The values of the "Other Info" section; the original URL is the one given. */
  function OtherValues(m: MediaInfo, originalUrl: string): (v: seq<string>)
    ensures |v| == |OtherKeys|
  {
    [ Join(m.categories.GetOr([]), ", "), m.license.GetOr(""), m.ageLimit.GetOr(""),
      m.webpageUrl.GetOr(""), originalUrl ]
  }

  /** A section's lines: its header, then one `Key: value` per key in order. */
  function SectionLines(header: string, keys: seq<string>, values: seq<string>): (ls: seq<string>)
    requires |keys| == |values|
    ensures |ls| == |keys| + 1 && ls[0] == header
    ensures forall i :: 0 <= i < |keys| ==> ls[i + 1] == keys[i] + ": " + values[i]
  {
    [header] + seq(|keys|, i requires 0 <= i < |keys| => keys[i] + ": " + values[i])
  }

  /** One section of the text: its lines joined by "\n". */
  function Section(header: string, keys: seq<string>, values: seq<string>): string
    requires |keys| == |values|
  {
    Join(SectionLines(header, keys, values), "\n")
  }

  function BasicSection(m: MediaInfo): string {
    Section("Basic Info:", BasicKeys, BasicValues(m))
  }

  function TechnicalSection(m: MediaInfo): string {
    Section("Technical Info:", TechnicalKeys, TechnicalValues(m))
  }

  function OtherSection(m: MediaInfo, originalUrl: string): string {
    Section("Other Info:", OtherKeys, OtherValues(m, originalUrl))
  }

  /** A section starts with its header and its first `Key: value` line. */
  lemma SectionStart(header: string, keys: seq<string>, values: seq<string>)
    requires |keys| == |values| >= 1
    ensures StartsWith(Section(header, keys, values), header + "\n" + keys[0] + ": " + values[0])
  {
    var ls := SectionLines(header, keys, values);
    var first := header + "\n" + keys[0] + ": " + values[0];
    if |keys| == 1 {
      assert ls == [ls[0]] + [ls[1]];
      JoinCons(ls[0], [ls[1]], "\n");
      assert Section(header, keys, values) == first;
    } else {
      assert ls == [ls[0]] + ls[1..] && ls[1..] == [ls[1]] + ls[2..];
      JoinCons(ls[0], ls[1..], "\n");
      JoinCons(ls[1], ls[2..], "\n");
      assert Section(header, keys, values) == first + ("\n" + Join(ls[2..], "\n"));
    }
  }

  /** A section ends with its last `Key: value` line. */
  lemma SectionEnd(header: string, keys: seq<string>, values: seq<string>)
    requires |keys| == |values| >= 1
    ensures EndsWith(Section(header, keys, values), keys[|keys| - 1] + ": " + values[|keys| - 1])
  {
    var ls := SectionLines(header, keys, values);
    var i := |keys| - 1;
    assert ls[|ls| - 1] == keys[i] + ": " + values[i];
    JoinLastPart(ls, "\n");
  }

  /** `prepare_metadata(info_dict, original_url)`: three sections joined by a blank line. */
  function PrepareMetadata(m: MediaInfo, originalUrl: string): (text: string)
    ensures StartsWith(text, "Basic Info:\nTitle: " + m.title.GetOr(""))
    ensures EndsWith(text, "Original URL: " + originalUrl)
  {
    var b, t, o := BasicSection(m), TechnicalSection(m), OtherSection(m, originalUrl);
    SectionStart("Basic Info:", BasicKeys, BasicValues(m));
    SectionEnd("Other Info:", OtherKeys, OtherValues(m, originalUrl));
    JoinThree(b, t, o, "\n\n");
    StartsWithAppend(b, "\n\n" + t + "\n\n" + o, "Basic Info:\nTitle: " + m.title.GetOr(""));
    EndsWithAppend(b + "\n\n" + t + "\n\n", o, "Original URL: " + originalUrl);
    Join([b, t, o], "\n\n")
  }

  lemma JoinThree(a: string, b: string, c: string, sep: string)
    ensures Join([a, b, c], sep) == a + sep + b + sep + c
  {
    assert [a, b, c] == [a] + [b, c] && [b, c] == [b] + [c];
    JoinCons(a, [b, c], sep);
    JoinCons(b, [c], sep);
  }

  /** A prefix of the first part is a prefix of the concatenation. */
  lemma StartsWithAppend(a: string, b: string, prefix: string)
    requires StartsWith(a, prefix)
    ensures StartsWith(a + b, prefix)
  {
    assert (a + b)[..|prefix|] == a[..|prefix|];
  }

  /** A suffix of the second part is a suffix of the concatenation. */
  lemma EndsWithAppend(a: string, b: string, suffix: string)
    requires EndsWith(b, suffix)
    ensures EndsWith(a + b, suffix)
  {
    assert (a + b)[|a + b| - |suffix|..] == b[|b| - |suffix|..];
  }

  /** The last part is the end of a join. */
  lemma {:induction false} JoinLastPart(parts: seq<string>, sep: string)
    requires |parts| >= 1
    ensures EndsWith(Join(parts, sep), parts[|parts| - 1])
  {
    if |parts| > 1 {
      JoinLastPart(parts[1..], sep);
      EndsWithAppend(parts[0] + sep, Join(parts[1..], sep), parts[|parts| - 1]);
    }
  }

  /** Every line of the metadata text, in order, with the blank lines between sections. */
  function MetadataLines(m: MediaInfo, originalUrl: string): (ls: seq<string>)
    ensures |ls| == 24
  {
    SectionLines("Basic Info:", BasicKeys, BasicValues(m)) + [""]
    + SectionLines("Technical Info:", TechnicalKeys, TechnicalValues(m)) + [""]
    + SectionLines("Other Info:", OtherKeys, OtherValues(m, originalUrl))
  }

  /** No rendered value spans more than one line. */
  predicate SingleLineValues(m: MediaInfo, originalUrl: string) {
    && (forall v :: v in BasicValues(m) ==> '\n' !in v)
    && (forall v :: v in TechnicalValues(m) ==> '\n' !in v)
    && (forall v :: v in OtherValues(m, originalUrl) ==> '\n' !in v)
  }

  /** A join that starts with an empty part starts with the separator. */
  lemma JoinAfterBlank(b: seq<string>)
    requires |b| >= 1
    ensures Join([""] + b, "\n") == "\n" + Join(b, "\n")
  {
    JoinCons("", b, "\n");
    assert "" + "\n" == "\n";
  }

  lemma Glue(x: string, y: string)
    ensures x + "\n" + ("\n" + y) == x + "\n\n" + y
  {
  }

  /** Gluing two "\n"-joined blocks with a blank line is joining them with an empty line between. */
  lemma JoinBlankLine(a: seq<string>, b: seq<string>)
    requires |a| >= 1 && |b| >= 1
    ensures Join(a, "\n") + "\n\n" + Join(b, "\n") == Join(a + [""] + b, "\n")
  {
    var c := [""] + b;
    JoinAfterBlank(b);
    JoinAppend(a, c, "\n");
    assert a + [""] + b == a + c;
    Glue(Join(a, "\n"), Join(b, "\n"));
  }

  /** The three blocks glued with blank lines are all their lines joined, blanks between blocks. */
  lemma GlueSections(bl: seq<string>, tl: seq<string>, ol: seq<string>)
    requires |bl| >= 1 && |tl| >= 1 && |ol| >= 1
    ensures Join([Join(bl, "\n"), Join(tl, "\n"), Join(ol, "\n")], "\n\n")
         == Join(bl + [""] + tl + [""] + ol, "\n")
  {
    var b, t, o := Join(bl, "\n"), Join(tl, "\n"), Join(ol, "\n");
    var rest := tl + [""] + ol;
    calc {
      Join([b, t, o], "\n\n");
      { JoinThree(b, t, o, "\n\n"); }
      b + "\n\n" + t + "\n\n" + o;
      b + "\n\n" + (t + "\n\n" + o);
      { JoinBlankLine(tl, ol); }
      b + "\n\n" + Join(rest, "\n");
      { JoinBlankLine(bl, rest); }
      Join(bl + [""] + rest, "\n");
      { assert bl + [""] + rest == bl + [""] + tl + [""] + ol; }
      Join(bl + [""] + tl + [""] + ol, "\n");
    }
  }

  /** Three "\n"-joined blocks glued with blank lines split back into their lines. */
  lemma SplitSections(bl: seq<string>, tl: seq<string>, ol: seq<string>)
    requires |bl| >= 1 && |tl| >= 1 && |ol| >= 1
    requires forall l :: l in bl ==> '\n' !in l
    requires forall l :: l in tl ==> '\n' !in l
    requires forall l :: l in ol ==> '\n' !in l
    ensures Split(Join([Join(bl, "\n"), Join(tl, "\n"), Join(ol, "\n")], "\n\n"), '\n')
         == bl + [""] + tl + [""] + ol
  {
    GlueSections(bl, tl, ol);
    var all := bl + [""] + tl + [""] + ol;
    assert forall l :: l in all ==> '\n' !in l;
    forall i | 0 <= i < |all| ensures '\n' !in all[i] {
      assert all[i] in all;
    }
    SplitJoin(all, '\n');
  }

  /** No key holds a newline. */
  lemma KeysPlain()
    ensures forall k :: k in BasicKeys ==> '\n' !in k
    ensures forall k :: k in TechnicalKeys ==> '\n' !in k
    ensures forall k :: k in OtherKeys ==> '\n' !in k
  {
  }

  /** Lines built from keys, values and a header without newlines hold no newline. */
  lemma SectionLinesPlain(header: string, keys: seq<string>, values: seq<string>)
    requires |keys| == |values|
    requires '\n' !in header
    requires forall k :: k in keys ==> '\n' !in k
    requires forall v :: v in values ==> '\n' !in v
    ensures forall l :: l in SectionLines(header, keys, values) ==> '\n' !in l
  {
    var ls := SectionLines(header, keys, values);
    forall l | l in ls ensures '\n' !in l {
      var i :| 0 <= i < |ls| && ls[i] == l;
      if i > 0 {
        assert keys[i - 1] in keys && values[i - 1] in values;
      }
    }
  }

  /**
   * When no value holds a newline, reading the metadata file line by line gives the 24 lines:
   * 9 for "Basic Info", a blank, 7 for "Technical Info", a blank, 6 for "Other Info".
   */
  lemma PrepareMetadataLines(m: MediaInfo, originalUrl: string)
    requires SingleLineValues(m, originalUrl)
    ensures Split(PrepareMetadata(m, originalUrl), '\n') == MetadataLines(m, originalUrl)
  {
    var bl := SectionLines("Basic Info:", BasicKeys, BasicValues(m));
    var tl := SectionLines("Technical Info:", TechnicalKeys, TechnicalValues(m));
    var ol := SectionLines("Other Info:", OtherKeys, OtherValues(m, originalUrl));
    KeysPlain();
    SectionLinesPlain("Basic Info:", BasicKeys, BasicValues(m));
    SectionLinesPlain("Technical Info:", TechnicalKeys, TechnicalValues(m));
    SectionLinesPlain("Other Info:", OtherKeys, OtherValues(m, originalUrl));
    SplitSections(bl, tl, ol);
    assert PrepareMetadata(m, originalUrl) == Join([Join(bl, "\n"), Join(tl, "\n"), Join(ol, "\n")], "\n\n");
  }

  // ---------------------------------------------------------------- ffmpeg command

  /** The path ffmpeg writes before it replaces the video. */
  function TempOutput(video: string): string {
    video + "_temp_with_comments.mp4"
  }

  /**
   * The argument list `add_description_to_video` runs: copy the streams of `video` into a
   * temporary file, adding title and author and, when the description text is non-empty,
   * comment and description.
   */
  function FfmpegCommand(video: string, title: Option<string>, uploader: Option<string>, description: string)
    : (cmd: seq<string>)
    ensures |cmd| == if description == "" then 11 else 15
    ensures cmd[..4] == ["ffmpeg", "-i", video, "-y"]
    ensures cmd[4..8] == ["-metadata", "title=" + title.GetOr("Unknown Title"),
                          "-metadata", "author=" + uploader.GetOr("Unknown Uploader")]
    ensures description != "" ==> cmd[8..12] == ["-metadata", "comment=" + description,
                                                 "-metadata", "description=" + description]
    ensures cmd[|cmd| - 3..] == ["-c", "copy", TempOutput(video)]
  {
    ["ffmpeg", "-i", video, "-y",
     "-metadata", "title=" + title.GetOr("Unknown Title"),
     "-metadata", "author=" + uploader.GetOr("Unknown Uploader")]
    + (if description != "" then ["-metadata", "comment=" + description,
                                  "-metadata", "description=" + description] else [])
    + ["-c", "copy", TempOutput(video)]
  }

  /** ffmpeg reads the video and writes a different file, which the caller then moves over the video. */
  lemma FfmpegCommandShape(video: string, title: Option<string>, uploader: Option<string>, description: string)
    ensures var cmd := FfmpegCommand(video, title, uploader, description);
            cmd[2] == video && cmd[|cmd| - 1] != video && EndsWith(cmd[|cmd| - 1], ".mp4")
  {
    var cmd := FfmpegCommand(video, title, uploader, description);
    assert |cmd[|cmd| - 1]| > |video|;
  }

  // ---------------------------------------------------------------- thumbnail

  /** `path.rsplit('.', 1)[0] + '.png'`. */
  function PngPath(path: string): (r: string)
    ensures EndsWith(r, ".png")
    ensures '.' !in path ==> r == path + ".png"
  {
    match LastIndexOf(path, '.')
    case Some(i) => path[..i] + ".png"
    case None => path + ".png"
  }

  /** A path whose last `.` is at `i` converts to the text before it followed by `.png`. */
  lemma PngPathLastDot(path: string, i: nat)
    requires i < |path| && path[i] == '.' && '.' !in path[i + 1..]
    ensures PngPath(path) == path[..i] + ".png"
  {
    var r := LastIndexOf(path, '.');
    assert r.Some? by {
      assert path[i] in path;
    }
  }

  /** Converting a path twice names the same file as converting it once. */
  lemma PngPathIdempotent(path: string)
    ensures PngPath(PngPath(path)) == PngPath(path)
  {
    var r := PngPath(path);
    var q := r[..|r| - 4];
    assert r == q + ".png";
    assert r[|q|] == '.';
    assert LastIndexOf(r, '.') == Some(|q|);
  }

  /** The extensions `embed_thumbnail` tries, in order. */
  const ThumbnailExtensions: seq<string> := [".png", ".jpg", ".jpeg", ".webp"]

  /** `video_filepath.replace('.mp4', ext)`. */
  function Candidate(video: string, ext: string): string {
    Replace(video, ".mp4", ext)
  }

  /** The k-th candidate can be used: it exists and is a PNG or converts to one. */
  predicate Usable(video: string, k: nat, exists_: string -> bool, converts: string -> bool)
    requires k < |ThumbnailExtensions|
  {
    var c := Candidate(video, ThumbnailExtensions[k]);
    exists_(c) && (ThumbnailExtensions[k] == ".png" || converts(c))
  }

  /** The thumbnail path the k-th candidate gives: itself for a PNG, its converted copy otherwise. */
  function Chosen(video: string, k: nat): string
    requires k < |ThumbnailExtensions|
  {
    var c := Candidate(video, ThumbnailExtensions[k]);
    if ThumbnailExtensions[k] == ".png" then c else PngPath(c)
  }

  /**
   * The search loop of `embed_thumbnail`: the first candidate, in extension order, that exists
   * and is a PNG or converts to one; a failed conversion moves on to the next extension.
   * `converts(p)` is whether `convert_thumbnail_to_png(p)` succeeds.
   */
  method FindThumbnail(video: string, exists_: string -> bool, converts: string -> bool)
    returns (thumb: Option<string>)
    ensures thumb.None? <==> forall k :: 0 <= k < |ThumbnailExtensions| ==> !Usable(video, k, exists_, converts)
    ensures thumb.Some? ==>
              exists k :: 0 <= k < |ThumbnailExtensions| && Usable(video, k, exists_, converts)
                          && thumb.value == Chosen(video, k)
                          && forall j :: 0 <= j < k ==> !Usable(video, j, exists_, converts)
  {
    thumb := None;
    var k := 0;
    while k < |ThumbnailExtensions|
      invariant 0 <= k <= |ThumbnailExtensions|
      invariant forall j :: 0 <= j < k ==> !Usable(video, j, exists_, converts)
    {
      var ext := ThumbnailExtensions[k];
      var c := Candidate(video, ext);
      if exists_(c) {
        if ext != ".png" {
          if converts(c) {
            thumb := Some(PngPath(c));
            assert Usable(video, k, exists_, converts) && thumb.value == Chosen(video, k);
            return;
          }
        } else {
          thumb := Some(c);
          assert Usable(video, k, exists_, converts) && thumb.value == Chosen(video, k);
          return;
        }
      }
      k := k + 1;
    }
  }

  // ---------------------------------------------------------------- file times

  /** `Path(p).stem`: the last path component without its final suffix. */
  function Stem(path: string): (s: string)
    ensures '/' !in s && |s| <= |path|
    ensures '/' !in path && '.' !in path ==> s == path
    ensures '/' !in path ==> StartsWith(path, s)
  {
    var name := match LastIndexOf(path, '/') case Some(i) => path[i + 1..] case None => path;
    match LastIndexOf(name, '.')
    case Some(i) => if 0 < i < |name| - 1 then name[..i] else name
    case None => name
  }

  /** A file name without `.` in a directory is its own stem. */
  lemma StemPlain(dir: string, name: string)
    requires '/' !in name && '.' !in name
    ensures Stem(dir + "/" + name) == name
  {
    var path := dir + "/" + name;
    assert path[|dir|] == '/' && path[|dir| + 1..] == name;
    LastIndexOfAt(path, '/', |dir|);
  }

  /**
   * The stem of a file name in a directory whose last `.` is at `i`: the text before that `.`,
   * unless the `.` comes first or last in the name, when there is no suffix.
   */
  lemma StemSuffix(dir: string, name: string, i: nat)
    requires '/' !in name && i < |name| && name[i] == '.' && '.' !in name[i + 1..]
    ensures Stem(dir + "/" + name) == if 0 < i < |name| - 1 then name[..i] else name
  {
    var path := dir + "/" + name;
    assert path[|dir|] == '/' && path[|dir| + 1..] == name;
    LastIndexOfAt(path, '/', |dir|);
    LastIndexOfAt(name, '.', i);
  }

  /** The five files whose times the post-processor hook sets, in its order. */
  function TimestampTargets(video: string): (ps: seq<string>)
    ensures |ps| == 5 && ps[0] == video
    ensures EndsWith(ps[1], ".png") && EndsWith(ps[2], ".txt") && EndsWith(ps[3], ".info.json")
    ensures ps[1] == Stem(video) + ".png" && ps[2] == Stem(video) + ".txt" && ps[3] == Stem(video) + ".info.json"
    ensures '/' !in ps[1] && '/' !in ps[2] && '/' !in ps[3]
    ensures ps[4] == Replace(video, ".mp4", ".description")
    ensures !Contains(video, ".mp4") ==> ps[4] == video
  {
    assert !Contains(video, ".mp4") ==> Replace(video, ".mp4", ".description") == video by {
      if !Contains(video, ".mp4") {
        ReplaceAbsent(video, ".mp4", ".description");
      }
    }
    var stem := Stem(video);
    [video, stem + ".png", stem + ".txt", stem + ".info.json", Replace(video, ".mp4", ".description")]
  }

  /** What the post-processor hook does for a finished file. */
  datatype HookPlan = HookPlan(
    addDescription: bool,      // `add_description_to_video` runs
    metadataPath: string,      // the file `prepare_metadata`'s text is written to
    metadataText: string,
    touched: seq<string>)      // the paths handed to `set_file_times`

  /** The keys of the post-processed info dictionary the hook reads beyond `MediaInfo`. */
  datatype Finished = Finished(filepath: string, originalUrl: Option<string>, timestamp: Option<int>, media: MediaInfo)

  /**
   * `postprocessor_hook` for status "finished": add the description when its file exists,
   * write the metadata text, and set the file times when the timestamp is known and not 0.
   */
  function PostprocessorHook(d: Finished, videoUrl: string, exists_: string -> bool): (p: HookPlan)
    ensures p.addDescription <==> exists_(Replace(d.filepath, ".mp4", ".description"))
    ensures p.metadataPath == Stem(d.filepath) + ".txt"
    ensures p.metadataText == PrepareMetadata(d.media, d.originalUrl.GetOr(videoUrl))
    ensures p.touched != [] <==> d.timestamp.Some? && d.timestamp.value != 0
    ensures p.touched != [] ==> p.touched == TimestampTargets(d.filepath)
  {
    HookPlan(
      exists_(Replace(d.filepath, ".mp4", ".description")),
      Stem(d.filepath) + ".txt",
      PrepareMetadata(d.media, d.originalUrl.GetOr(videoUrl)),
      if d.timestamp.Some? && d.timestamp.value != 0 then TimestampTargets(d.filepath) else [])
  }

  /** The modification times of the files that exist. */
  class Disk {
    var times: map<string, int>

    constructor (times: map<string, int>)
      ensures this.times == times
    {
      this.times := times;
    }

    /**
     * `set_file_times(paths, t)`: every listed path that exists gets time t; missing paths are
     * skipped, so no file is created, and unlisted files keep their times.
     */
    method SetFileTimes(paths: seq<string>, t: int)
      modifies this
      ensures times.Keys == old(times).Keys
      ensures forall p :: p in times ==> times[p] == if p in paths then t else old(times)[p]
    {
      var i := 0;
      while i < |paths|
        invariant 0 <= i <= |paths|
        invariant times.Keys == old(times).Keys
        invariant forall p :: p in times ==> times[p] == if p in paths[..i] then t else old(times)[p]
      {
        if paths[i] in times {
          times := times[paths[i] := t];
        }
        assert paths[..i + 1] == paths[..i] + [paths[i]];
        i := i + 1;
      }
      assert paths[..i] == paths;
    }
  }
}
