/**
 * Path helpers of MrsWatson's platform layer (source/PlatformUtilities.c):
 * building an absolute path into a caller-owned string buffer and
 * classifying a path as absolute.
 */
module Paths {
  import opened Platform

  /**
   * The text of a C string stored in `s`: everything before the first NUL,
   * or all of `s` when it holds none.
   */
  function CStringText(s: seq<char>): (t: string)
    ensures t <= s
    ensures '\0' !in t
    ensures |t| < |s| ==> s[|t|] == '\0'
  {
    if |s| == 0 || s[0] == '\0' then [] else [s[0]] + CStringText(s[1..])
  }

  /** The text of `p`, NUL-terminated and followed by anything, is `p`. */
  lemma CStringTextOfTerminated(p: string, rest: seq<char>)
    requires '\0' !in p
    ensures CStringText(p + ['\0'] + rest) == p
  {
    var s := p + ['\0'] + rest;
    var t := CStringText(s);
    // t stops at the first NUL of s, which is the one right after p
    assert |t| >= |p|;
    assert s[|p|] == '\0';
  }

  /**
   * A `CharString`: a character buffer with its capacity. The string it
   * holds is the buffer's text up to the first NUL.
   */
  class CharString {
    var capacity: nat
    var data: array<char>

    ghost predicate Valid()
      reads this
    {
      data.Length == capacity
    }

    /** The buffer holds a NUL somewhere, so its text ends inside it. */
    ghost predicate Terminated()
      reads this, data
    {
      '\0' in data[..]
    }

    function Text(): string
      reads this, data
    {
      CStringText(data[..])
    }
  }

  // ---------------------------------------------------------------------------
  // buildAbsolutePath

  /** The full text `"%s%c%s.%s"` formats for a directory, file name and extension. */
  function FormatAbsolutePath(cfg: BuildConfig, directory: string, file: string, extension: string): string
  {
    directory + [PathDelimiter(cfg)] + file + "." + extension
  }

  /** How many characters of a text of length `len` a bounded write into `capacity` chars keeps. */
  function Kept(len: nat, capacity: nat): (n: nat)
    requires capacity > 0
    ensures n < capacity && n <= len
    ensures n == len || n == capacity - 1
  {
    if len < capacity then len else capacity - 1
  }

  /**
   * The buffer `snprintf(buf, |buf|, ...)` leaves behind when the formatted
   * text is `s`: the longest prefix of `s` that fits in `|buf| - 1` characters,
   * a NUL, and the old contents after it; a zero-length buffer is untouched.
   */
  function BoundedWrite(buf: seq<char>, s: string): (r: seq<char>)
    ensures |r| == |buf|
    ensures |buf| == 0 ==> r == buf
    ensures |buf| > 0 ==>
      r[..Kept(|s|, |buf|)] == s[..Kept(|s|, |buf|)] && r[Kept(|s|, |buf|)] == '\0' &&
      r[Kept(|s|, |buf|) + 1..] == buf[Kept(|s|, |buf|) + 1..]
  {
    if |buf| == 0 then buf
    else
      var n := Kept(|s|, |buf|);
      s[..n] + ['\0'] + buf[n + 1..]
  }

  /**
   * After a bounded write of a NUL-free text the buffer's text is the longest
   * prefix that fits, and the whole text when the buffer has room for it and
   * its NUL.
   */
  lemma BoundedWriteText(buf: seq<char>, s: string)
    requires |buf| > 0 && '\0' !in s
    ensures CStringText(BoundedWrite(buf, s)) == s[..Kept(|s|, |buf|)]
    ensures |s| < |buf| ==> CStringText(BoundedWrite(buf, s)) == s
  {
    var n := Kept(|s|, |buf|);
    assert BoundedWrite(buf, s) == s[..n] + ['\0'] + buf[n + 1..];
    CStringTextOfTerminated(s[..n], buf[n + 1..]);
  }

  /**
   * `buildAbsolutePath`: formats directory, delimiter, file, '.' and
   * extension into `outString`'s buffer, truncating silently to what fits
   * before a terminating NUL and writing nothing at or beyond its capacity.
   */
  method BuildAbsolutePath(cfg: BuildConfig, directory: CharString, file: CharString,
                           fileExtension: string, outString: CharString)
    requires directory.Valid() && file.Valid() && outString.Valid()
    requires outString.data != directory.data && outString.data != file.data
    modifies outString.data
    ensures outString.data[..] ==
      BoundedWrite(old(outString.data[..]),
                   FormatAbsolutePath(cfg, directory.Text(), file.Text(), CStringText(fileExtension)))
    ensures outString.capacity > 0 ==>
      outString.Text() ==
      FormatAbsolutePath(cfg, directory.Text(), file.Text(), CStringText(fileExtension))
        [..Kept(|FormatAbsolutePath(cfg, directory.Text(), file.Text(), CStringText(fileExtension))|, outString.capacity)]
  {
    var formatted := FormatAbsolutePath(cfg, directory.Text(), file.Text(), CStringText(fileExtension));
    ghost var before := outString.data[..];
    if outString.capacity > 0 {
      var n := Kept(|formatted|, outString.capacity);
      forall i | 0 <= i < n {
        outString.data[i] := formatted[i];
      }
      outString.data[n] := '\0';
      assert outString.data[..] == formatted[..n] + ['\0'] + before[n + 1..];
      assert outString.data[..] == BoundedWrite(before, formatted);
      BuildAbsolutePathText(cfg, directory.Text(), file.Text(), CStringText(fileExtension), before);
    }
  }

  /**
   * The formatted path holds no NUL, so after `buildAbsolutePath` the output's
   * text is its longest prefix that fits the capacity.
   */
  lemma BuildAbsolutePathText(cfg: BuildConfig, directory: string, file: string, extension: string, buf: seq<char>)
    requires '\0' !in directory && '\0' !in file && '\0' !in extension
    requires |buf| > 0
    ensures CStringText(BoundedWrite(buf, FormatAbsolutePath(cfg, directory, file, extension))) ==
      FormatAbsolutePath(cfg, directory, file, extension)[..Kept(|FormatAbsolutePath(cfg, directory, file, extension)|, |buf|)]
  {
    var formatted := FormatAbsolutePath(cfg, directory, file, extension);
    assert '\0' !in formatted;
    BoundedWriteText(buf, formatted);
  }

  /** With room for 15 characters and the NUL, POSIX builds produce "/tmp/output.wav". */
  lemma BuildAbsolutePathExample(cfg: BuildConfig, buf: seq<char>)
    requires !cfg.windows && |buf| >= 16
    ensures CStringText(BoundedWrite(buf, FormatAbsolutePath(cfg, "/tmp", "output", "wav"))) == "/tmp/output.wav"
  {
    assert FormatAbsolutePath(cfg, "/tmp", "output", "wav") == "/tmp/output.wav";
    BoundedWriteText(buf, "/tmp/output.wav");
  }

  /** A five-character buffer keeps only "/tmp" and reports nothing. */
  lemma BuildAbsolutePathTruncates(cfg: BuildConfig, buf: seq<char>)
    requires !cfg.windows && |buf| == 5
    ensures CStringText(BoundedWrite(buf, FormatAbsolutePath(cfg, "/tmp", "output", "wav"))) == "/tmp"
  {
    assert FormatAbsolutePath(cfg, "/tmp", "output", "wav") == "/tmp/output.wav";
    BoundedWriteText(buf, "/tmp/output.wav");
  }

  // ---------------------------------------------------------------------------
  // isAbsolutePath

  /**
   * Absoluteness of a path text: on Windows a drive prefix such as "C:\",
   * elsewhere a leading delimiter.
   */
  predicate AbsoluteText(cfg: BuildConfig, t: string) {
    if cfg.windows then |t| >= 3 && t[1] == ':' && t[2] == PathDelimiter(cfg)
    else |t| >= 1 && t[0] == PathDelimiter(cfg)
  }

  /**
   * `isAbsolutePath`: the guard is the buffer's capacity, not the length of
   * its text, and on Windows the first character is not examined.
   */
  function IsAbsolutePath(cfg: BuildConfig, path: CharString): (r: bool)
    reads path, path.data
    requires path.Valid()
    ensures r ==> path.capacity > (if cfg.windows then 3 else 1)
    ensures r ==> path.data[if cfg.windows then 2 else 0] == PathDelimiter(cfg)
  {
    if cfg.windows then
      path.capacity > 3 && path.data[1] == ':' && path.data[2] == PathDelimiter(cfg)
    else
      path.capacity > 1 && path.data[0] == PathDelimiter(cfg)
  }

  /** On POSIX builds a terminated path is classified by its text exactly. */
  lemma IsAbsolutePathPosix(cfg: BuildConfig, path: CharString)
    requires !cfg.windows && path.Valid() && path.Terminated()
    ensures IsAbsolutePath(cfg, path) <==> AbsoluteText(cfg, path.Text())
  {
  }

  /**
   * On Windows builds a terminated path whose text is absolute is classified
   * absolute, and the converse holds when the text is not empty.
   */
  lemma IsAbsolutePathWindows(cfg: BuildConfig, path: CharString)
    requires cfg.windows && path.Valid() && path.Terminated()
    ensures AbsoluteText(cfg, path.Text()) ==> IsAbsolutePath(cfg, path)
    ensures IsAbsolutePath(cfg, path) && path.data[0] != '\0' ==> AbsoluteText(cfg, path.Text())
  {
  }

  /**
   * The Windows test looks past the terminator: a buffer whose text is empty
   * but whose second and third characters are ':' and '\' is classified
   * absolute.
   */
  lemma IsAbsolutePathIgnoresTerminator(cfg: BuildConfig, path: CharString)
    requires cfg.windows && path.Valid() && path.capacity > 3
    requires path.data[0] == '\0' && path.data[1] == ':' && path.data[2] == '\\'
    ensures path.Text() == [] && !AbsoluteText(cfg, path.Text())
    ensures IsAbsolutePath(cfg, path)
  {
  }

  /**
   * The test gates on capacity: a full, unterminated buffer whose text is
   * absolute is rejected when the capacity is at the bound.
   */
  lemma IsAbsolutePathGatesOnCapacity(cfg: BuildConfig, path: CharString)
    requires path.Valid() && '\0' !in path.data[..]
    requires path.capacity == (if cfg.windows then 3 else 1)
    requires AbsoluteText(cfg, path.Text())
    ensures !IsAbsolutePath(cfg, path)
  {
  }
}
