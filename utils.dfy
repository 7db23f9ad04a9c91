/** `clean_filename` of utils.py: replace the nine characters Windows refuses, then strip. */
module Utils {
  import opened Text

  /** The characters `clean_filename` replaces, in the order its loop visits them. */
  const InvalidChars: string := "<>:\"/\\|?*"

  /** The loop of `clean_filename`: `filename = filename.replace(char, '_')` for each char in turn. */
  function ReplaceEach(s: string, chars: string): string
    decreases |chars|
  {
    if |chars| == 0 then s else ReplaceEach(Replace(s, [chars[0]], "_"), chars[1..])
  }

  /** `clean_filename(filename)`. */
  function CleanFilename(s: string): (r: string)
    ensures forall c :: c in r ==> c !in InvalidChars
    ensures Stripped(r)
    ensures |r| <= |s|
  {
    ReplacedAll(s);
    Strip(ReplaceEach(s, InvalidChars))
  }

  /** After the loop no forbidden character is left. */
  lemma ReplacedAll(s: string)
    ensures |ReplaceEach(s, InvalidChars)| == |s|
    ensures forall c :: c in ReplaceEach(s, InvalidChars) ==> c !in InvalidChars
  {
    var t := ReplaceEach(s, InvalidChars);
    ReplaceEachAt(s, InvalidChars);
    assert '_' !in InvalidChars;
    forall i | 0 <= i < |t| ensures t[i] !in InvalidChars {
      if s[i] in InvalidChars {
        assert t[i] == '_';
      } else {
        assert t[i] == s[i];
      }
    }
  }

  /** No forbidden character is whitespace. */
  lemma InvalidNotSpace()
    ensures forall c :: c in InvalidChars ==> !IsSpace(c)
  {
  }

  /** Replacing one character by `_` keeps the length and touches exactly that character. */
  lemma {:induction false} ReplaceCharAt(s: string, c: char)
    ensures |Replace(s, [c], "_")| == |s|
    ensures forall i :: 0 <= i < |s| ==> Replace(s, [c], "_")[i] == (if s[i] == c then '_' else s[i])
  {
    if |s| > 0 {
      ReplaceCharAt(s[1..], c);
      var rest := Replace(s[1..], [c], "_");
      assert s[..1] == [c] <==> s[0] == c;
      assert s[1..] == s[|[c]|..];
      if s[0] == c {
        assert Replace(s, [c], "_") == "_" + rest;
      } else {
        assert Replace(s, [c], "_") == [s[0]] + rest;
      }
    }
  }

  /**
   * Before the strip, every forbidden character has become exactly one `_` and every other
   * character is where it was.
   */
  lemma {:induction false} ReplaceEachAt(s: string, chars: string)
    ensures |ReplaceEach(s, chars)| == |s|
    ensures forall i :: 0 <= i < |s| ==> ReplaceEach(s, chars)[i] == (if s[i] in chars then '_' else s[i])
    decreases |chars|
  {
    if |chars| > 0 {
      var t := Replace(s, [chars[0]], "_");
      ReplaceCharAt(s, chars[0]);
      ReplaceEachAt(t, chars[1..]);
      forall i | 0 <= i < |s|
        ensures ReplaceEach(s, chars)[i] == (if s[i] in chars then '_' else s[i])
      {
        assert s[i] in chars <==> s[i] == chars[0] || s[i] in chars[1..];
      }
    }
  }

  /** Only input made of whitespace (including the empty input) cleans to the empty name. */
  lemma CleanFilenameEmpty(s: string)
    ensures CleanFilename(s) == "" <==> AllSpace(s)
  {
    ReplaceEachAt(s, InvalidChars);
    var t := ReplaceEach(s, InvalidChars);
    InvalidNotSpace();
    forall i | 0 <= i < |s| ensures IsSpace(t[i]) <==> IsSpace(s[i]) {
      if s[i] in InvalidChars {
        assert t[i] == '_';
      } else {
        assert t[i] == s[i];
      }
    }
    assert AllSpace(t) <==> AllSpace(s);
  }

  /** A name without forbidden characters or surrounding whitespace is kept as it is. */
  lemma CleanFilenameKeeps(s: string)
    requires forall c :: c in s ==> c !in InvalidChars
    requires Stripped(s)
    ensures CleanFilename(s) == s
  {
    ReplaceEachAt(s, InvalidChars);
    assert ReplaceEach(s, InvalidChars) == s;
  }

  /** Cleaning twice is cleaning once. */
  lemma CleanFilenameIdempotent(s: string)
    ensures CleanFilename(CleanFilename(s)) == CleanFilename(s)
  {
    CleanFilenameKeeps(CleanFilename(s));
  }
}
