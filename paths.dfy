/**
 * Output-path rules of the converter: the extension test, Python's `s[:-4]`
 * slice, POSIX `basename`/`join` over "/", and the two ways the program names
 * the `.m4a` file a conversion produces (`Song.checkExt` and `UI.convert`).
 */
module Paths {

  /** The path separator of POSIX `os.path`. */
  const Sep: char := '/'

  /** The target extension; `endswith(".m4a")` is case-sensitive. */
  const M4a: string := ".m4a"

  /** The sub-directory of the working directory that receives converted files. */
  const ConvDirName: string := "conv"

  function Max(a: int, b: int): int { if a < b then b else a }

  /** Python's `s.endswith(suffix)`. */
  predicate EndsWith(s: string, suffix: string) {
    |suffix| <= |s| && s[|s| - |suffix|..] == suffix
  }

  /** `s.endswith(suffix)` holds exactly when `s` is some prefix followed by `suffix`. */
  lemma {:induction false} EndsWithSplits(s: string, suffix: string)
    ensures EndsWith(s, suffix) <==> exists u :: u + suffix == s
  {
    if EndsWith(s, suffix) {
      assert s[..|s| - |suffix|] + suffix == s;
    }
    if exists u :: u + suffix == s {
      var u :| u + suffix == s;
      assert s[|u|..] == suffix;
    }
  }

  /** Python's `s[:-4]`: all but the last four characters, and "" when `s` is shorter. */
  function DropLast4(s: string): (r: string)
    ensures |r| == Max(|s| - 4, 0)
    ensures r <= s
  {
    if |s| >= 4 then s[..|s| - 4] else ""
  }

  /**
   * `Song.checkExt`: an `.m4a` path is returned as it is; any other path loses
   * its last four characters (whatever they are) and gains ".m4a", in the same
   * directory.
   */
  function CheckExt(songFilePath: string): (r: string)
    ensures EndsWith(r, M4a)
    ensures r == songFilePath <==> EndsWith(songFilePath, M4a)
    ensures |r| == Max(|songFilePath|, 4)
    ensures !EndsWith(songFilePath, M4a) ==> r[..|r| - 4] == DropLast4(songFilePath)
  {
    if EndsWith(songFilePath, M4a) then songFilePath
    else DropLast4(songFilePath) + M4a
  }

  /** Normalising an already normalised path changes nothing. */
  lemma {:induction false} CheckExtIdempotent(p: string)
    ensures CheckExt(CheckExt(p)) == CheckExt(p)
  {
  }

  /** The slice is not extension-aware: a five-letter extension leaves its dot behind. */
  lemma {:induction false} CheckExtKeepsDotOfLongExtension()
    ensures CheckExt("a.flac") == "a..m4a"
  {
    assert !EndsWith("a.flac", M4a) by {
      assert "a.flac"[2..] != M4a by { assert "a.flac"[2..][0] == 'f'; }
    }
    assert DropLast4("a.flac") == "a.";
  }

  /** POSIX `os.path.basename`: everything after the last "/". */
  function Basename(p: string): (r: string)
    ensures Sep !in r
    ensures |r| <= |p|
    decreases |p|
  {
    if p == [] then []
    else if p[|p| - 1] == Sep then []
    else Basename(p[..|p| - 1]) + [p[|p| - 1]]
  }

  /**
   * The base name is the longest suffix of the path without a separator: it
   * ends the path, and the character just before it, if any, is a "/".
   */
  lemma {:induction false} BasenameIsLastSegment(p: string)
    ensures EndsWith(p, Basename(p))
    ensures |Basename(p)| < |p| ==> p[|p| - |Basename(p)| - 1] == Sep
    decreases |p|
  {
    if p != [] && p[|p| - 1] != Sep {
      var init := p[..|p| - 1];
      var b := Basename(init);
      BasenameIsLastSegment(init);
      assert init[|init| - |b|..] == p[|p| - 1 - |b|..|p| - 1];
      assert p[|p| - 1 - |b|..] == p[|p| - 1 - |b|..|p| - 1] + [p[|p| - 1]];
      if |b| < |init| {
        assert init[|init| - |b| - 1] == p[|p| - |b| - 2];
      }
    }
  }

  /** Appending separator-free text to a path extends its base name by that text. */
  lemma {:induction false} BasenameAppend(a: string, b: string)
    requires Sep !in b
    ensures Basename(a + b) == Basename(a) + b
    decreases |b|
  {
    if b != [] {
      var n := |b| - 1;
      assert (a + b)[..|a + b| - 1] == a + b[..n];
      BasenameAppend(a, b[..n]);
      assert b == b[..n] + [b[n]];
    } else {
      assert a + b == a;
    }
  }

  /** A name without separators is its own base name. */
  lemma {:induction false} BasenameOfName(s: string)
    requires Sep !in s
    ensures Basename(s) == s
  {
    BasenameAppend([], s);
    assert [] + s == s;
  }

  /**
   * POSIX `os.path.join(a, b)`: an absolute `b` replaces `a`; otherwise `b` is
   * appended, with a "/" in between unless `a` is empty or already ends in one.
   */
  function Join(a: string, b: string): (r: string)
    ensures EndsWith(r, b)
    ensures !(|b| > 0 && b[0] == Sep) ==> a <= r
    ensures |b| > 0 && b[0] == Sep ==> r == b
    ensures !(|b| > 0 && b[0] == Sep) && (a == [] || a[|a| - 1] == Sep) ==> r == a + b
    ensures (|b| > 0 && b[0] == Sep) || a == [] || a[|a| - 1] == Sep || r == a + [Sep] + b
  {
    if |b| > 0 && b[0] == Sep then b
    else if a == [] || a[|a| - 1] == Sep then a + b
    else a + [Sep] + b
  }

  /** The converted file's name `basename(p)[:-4] + ".m4a"` holds no separator. */
  lemma {:induction false} ConvertedNameHasNoSep(p: string)
    ensures Sep !in DropLast4(Basename(p)) + M4a
  {
    var base := Basename(p);
    var stem := DropLast4(base);
    assert forall i :: 0 <= i < |stem| ==> stem[i] == base[i];
    assert forall i :: 0 <= i < |M4a| ==> M4a[i] != Sep;
  }

  /** The conversion directory's last character is not a separator. */
  lemma {:induction false} ConvDirEndsInName(cwd: string)
    ensures |ConvDir(cwd)| > 0 && ConvDir(cwd)[|ConvDir(cwd)| - 1] == 'v'
  {
    var d := ConvDir(cwd);
    assert d[|d| - 4..] == ConvDirName;
    assert d[|d| - 1] == d[|d| - 4..][3];
  }

  /** `os.path.join(os.getcwd(), "conv")`. */
  function ConvDir(cwd: string): (r: string)
    ensures EndsWith(r, ConvDirName)
    ensures cwd <= r
    ensures r == if cwd == [] || cwd[|cwd| - 1] == Sep then cwd + ConvDirName else cwd + [Sep] + ConvDirName
  {
    Join(cwd, ConvDirName)
  }

  /**
   * `UI.convert`'s output path: `join(conv, basename(p)[:-4] + ".m4a")`. The
   * file lands directly in the conversion directory, whatever directory `p`
   * was in, and is named after `p`'s base name.
   */
  function ConvertPath(cwd: string, preSongPath: string): (r: string)
    ensures ConvDir(cwd) <= r
    ensures EndsWith(r, DropLast4(Basename(preSongPath)) + M4a)
  {
    var stem := DropLast4(Basename(preSongPath));
    assert (stem + M4a)[0] != Sep by {
      if |stem| > 0 {
        assert (stem + M4a)[0] == Basename(preSongPath)[0];
      }
    }
    Join(ConvDir(cwd), stem + M4a)
  }

  /** `join` puts the converted file's name under the conversion directory after one "/". */
  lemma {:induction false} ConvertPathLayout(cwd: string, p: string)
    ensures ConvertPath(cwd, p) == ConvDir(cwd) + [Sep] + DropLast4(Basename(p)) + M4a
  {
    var stem := DropLast4(Basename(p));
    var name := stem + M4a;
    ConvDirEndsInName(cwd);
    assert name[0] != Sep by {
      if |stem| > 0 {
        assert name[0] == Basename(p)[0];
      } else {
        assert name[0] == '.';
      }
    }
  }

  /**
   * The converted file sits directly in the conversion directory, whatever
   * directory the input was in, ends in ".m4a", and its base name is the
   * input's base name without its last four characters, plus ".m4a".
   */
  lemma {:induction false} ConvertPathShape(cwd: string, p: string)
    ensures ConvertPath(cwd, p) == ConvDir(cwd) + [Sep] + DropLast4(Basename(p)) + M4a
    ensures EndsWith(ConvertPath(cwd, p), M4a)
    ensures Basename(ConvertPath(cwd, p)) == DropLast4(Basename(p)) + M4a
  {
    var name := DropLast4(Basename(p)) + M4a;
    var dir := ConvDir(cwd);
    ConvertPathLayout(cwd, p);
    assert ConvertPath(cwd, p) == (dir + [Sep]) + name;
    ConvertedNameHasNoSep(p);
    BasenameAppend(dir + [Sep], name);
    assert Basename(dir + [Sep]) == [];
  }

  /**
   * Under a working directory that does not end in "/", the converted file is
   * `<cwd>/conv/<name>`, its name the input's base name minus its last four
   * characters, plus ".m4a".
   */
  lemma {:induction false} ConvertPathUnderCwd(cwd: string, p: string)
    requires cwd != [] && cwd[|cwd| - 1] != Sep
    ensures ConvertPath(cwd, p) == cwd + "/conv/" + DropLast4(Basename(p)) + ".m4a"
  {
    ConvertPathLayout(cwd, p);
  }

  /** The output path depends on the input's base name only. */
  lemma {:induction false} ConvertPathUsesBaseNameOnly(cwd: string, p: string)
    ensures ConvertPath(cwd, p) == ConvertPath(cwd, Basename(p))
  {
    BasenameOfName(Basename(p));
  }

  /**
   * Both naming rules give the converted file the same base name, provided the
   * input's base name has at least four characters; with a shorter one the
   * `checkExt` slice reaches into the directory part.
   */
  lemma {:induction false} CheckExtAndConvertAgreeOnName(cwd: string, p: string)
    requires !EndsWith(p, M4a)
    requires |Basename(p)| >= 4
    ensures Basename(CheckExt(p)) == Basename(ConvertPath(cwd, p))
  {
    var base := Basename(p);
    var dir := p[..|p| - |base|];
    var stem := DropLast4(base);
    SplitAtBasename(p);
    DropLast4Append(dir, base);
    ConvertedNameHasNoSep(p);
    BasenameUnderDir(dir, stem + M4a);
    assert CheckExt(p) == dir + (stem + M4a);
    ConvertPathShape(cwd, p);
  }

  /** A path is its directory part (empty or ending in "/") followed by its base name. */
  lemma {:induction false} SplitAtBasename(p: string)
    ensures |Basename(p)| <= |p|
    ensures p == p[..|p| - |Basename(p)|] + Basename(p)
    ensures var dir := p[..|p| - |Basename(p)|]; dir == [] || dir[|dir| - 1] == Sep
  {
    BasenameIsLastSegment(p);
    var base := Basename(p);
    var dir := p[..|p| - |base|];
    if dir != [] {
      assert dir[|dir| - 1] == p[|p| - |base| - 1];
    }
  }

  lemma {:induction false} DropLast4Append(a: string, b: string)
    requires |b| >= 4
    ensures DropLast4(a + b) == a + DropLast4(b)
  {
    assert (a + b)[..|a + b| - 4] == a + b[..|b| - 4];
  }

  /** A separator-free name placed under a directory is the base name of the result. */
  lemma {:induction false} BasenameUnderDir(dir: string, name: string)
    requires dir == [] || dir[|dir| - 1] == Sep
    requires Sep !in name
    ensures Basename(dir + name) == name
  {
    BasenameAppend(dir, name);
  }

  /**
   * The path `getSelectedItem` leaves at the head of the selection: an `.m4a`
   * path as it is, anything else replaced by its conversion output.
   */
  function NormalizedPath(cwd: string, p: string): (r: string)
    ensures EndsWith(r, M4a)
    ensures r == p <==> EndsWith(p, M4a)
  {
    if EndsWith(p, M4a) then p else ConvertPath(cwd, p)
  }
}
