/** Small wrapper types shared by the model. */
module Wrappers {
  datatype Option<+T> = None | Some(value: T)
}

/**
 * The naming rule of the translation cache: where the translated copy of a
 * PDF lives. Paths are POSIX strings; `LastSegment` and `StripPdfExt` model
 * `path.basename(p, '.pdf')`, and `Join` models `path.join(dir, name)` for a
 * single file name.
 */
module Paths {
  type Path = string

  const PDF_EXT: string := ".pdf"
  /** What the translator appends to the stem of the source file. */
  const MONO_SUFFIX: string := "-mono.pdf"

  /** The part of `p` after its last '/': the longest suffix without a separator. */
  function LastSegment(p: Path): (r: string)
    ensures '/' !in r
    decreases |p|
  {
    if |p| == 0 || p[|p| - 1] == '/' then "" else LastSegment(p[..|p| - 1]) + [p[|p| - 1]]
  }

  /** `LastSegment(p)` ends `p`, and what precedes it, if anything, is a separator. */
  lemma {:induction false} LastSegmentIsSuffix(p: Path)
    ensures var r := LastSegment(p);
      && |r| <= |p| && r == p[|p| - |r|..]
      && (|r| < |p| ==> p[|p| - |r| - 1] == '/')
    decreases |p|
  {
    if |p| > 0 && p[|p| - 1] != '/' {
      var init := p[..|p| - 1];
      LastSegmentIsSuffix(init);
      assert |LastSegment(p)| == |LastSegment(init)| + 1;
      assert init[|init| - |LastSegment(init)|..] + [p[|p| - 1]] == p[|p| - |LastSegment(p)|..];
    }
  }

  /** Everything of `p` before its last segment: the directory part, separator included. */
  function Parent(p: Path): (r: Path)
    ensures p == r + LastSegment(p)
    ensures r == "" || r[|r| - 1] == '/'
  {
    LastSegmentIsSuffix(p);
    p[..|p| - |LastSegment(p)|]
  }

  predicate HasPdfExt(name: string) {
    |PDF_EXT| < |name| && name[|name| - |PDF_EXT|..] == PDF_EXT
  }

  /** `name` without a trailing ".pdf"; a name that is only ".pdf" is kept, as Node's basename does. */
  function StripPdfExt(name: string): (r: string)
    ensures r == name || r + PDF_EXT == name
    ensures r + PDF_EXT == name <==> HasPdfExt(name)
  {
    if HasPdfExt(name) then name[..|name| - |PDF_EXT|] else name
  }

  /** `path.basename(p, '.pdf')`. */
  function Stem(p: Path): (r: string)
    ensures '/' !in r
  {
    StripPdfExt(LastSegment(p))
  }

  /** `dir` ready to have a file name appended: a separator is added unless it is empty or already ends with one. */
  function AsDirectory(dir: Path): (r: Path)
    ensures r == "" || r[|r| - 1] == '/'
    ensures dir <= r
  {
    if dir == "" || dir[|dir| - 1] == '/' then dir else dir + "/"
  }

  /** `path.join(dir, name)` for a single segment `name`. */
  function Join(dir: Path, name: string): (r: Path)
    ensures dir <= r && |name| <= |r| && r[|r| - |name|..] == name
    ensures |r| <= |dir| + 1 + |name|
  {
    AsDirectory(dir) + name
  }

  /** The path of the translated copy of `source` when the output directory is `dest`. */
  function TranslationPath(source: Path, dest: Path): (r: Path)
    ensures AsDirectory(dest) <= r
    ensures |MONO_SUFFIX| <= |r| && r[|r| - |MONO_SUFFIX|..] == MONO_SUFFIX
  {
    EndsWith(AsDirectory(dest), Stem(source), MONO_SUFFIX);
    Join(dest, Stem(source) + MONO_SUFFIX)
  }

  /** `a + (b + c)` starts with `a` and ends with `c`. */
  lemma EndsWith(a: string, b: string, c: string)
    ensures a <= a + (b + c) && (a + (b + c))[|a + (b + c)| - |c|..] == c
  {
    assert a + (b + c) == (a + b) + c;
  }

  /** Appending separator-free text to a path extends its last segment by exactly that text. */
  lemma {:induction false} LastSegmentAppend(x: Path, y: string)
    requires '/' !in y
    ensures LastSegment(x + y) == LastSegment(x) + y
    decreases |y|
  {
    if |y| == 0 {
      assert x + y == x;
    } else {
      var init := y[..|y| - 1];
      assert (x + y)[..|x + y| - 1] == x + init;
      assert y == init + [y[|y| - 1]];
      assert y[|y| - 1] in y;
      LastSegmentAppend(x, init);
    }
  }

  /** `Join` and (`Parent`, `LastSegment`) are inverse: a joined path splits back into its directory and name. */
  lemma SplitJoin(dir: Path, name: string)
    requires '/' !in name
    ensures LastSegment(Join(dir, name)) == name
    ensures Parent(Join(dir, name)) == AsDirectory(dir)
  {
    var d := AsDirectory(dir);
    LastSegmentAppend(d, name);
    if d != "" {
      assert d == d[..|d| - 1] + [d[|d| - 1]];
    }
    assert LastSegment(d) == "";
  }

  /** Stripping ".pdf" from a translated file name leaves the stem with "-mono" appended. */
  lemma StripMonoName(stem: string)
    ensures '/' !in stem ==> '/' !in stem + MONO_SUFFIX
    ensures StripPdfExt(stem + MONO_SUFFIX) == stem + "-mono"
  {
    var name := stem + MONO_SUFFIX;
    assert name == (stem + "-mono") + PDF_EXT;
    assert name[|name| - |PDF_EXT|..] == PDF_EXT;
  }

  /** The translated file lies directly in `dest`, is named after the source's stem, and its own stem gains "-mono". */
  lemma TranslationName(source: Path, dest: Path)
    ensures Parent(TranslationPath(source, dest)) == AsDirectory(dest)
    ensures LastSegment(TranslationPath(source, dest)) == Stem(source) + MONO_SUFFIX
    ensures Stem(TranslationPath(source, dest)) == Stem(source) + "-mono"
  {
    StripMonoName(Stem(source));
    SplitJoin(dest, Stem(source) + MONO_SUFFIX);
  }

  /**
   * Two requests share a translated file exactly when their stems agree and
   * they write into the same directory.
   */
  lemma TranslationPathInjective(s1: Path, d1: Path, s2: Path, d2: Path)
    ensures TranslationPath(s1, d1) == TranslationPath(s2, d2)
        <==> Stem(s1) == Stem(s2) && AsDirectory(d1) == AsDirectory(d2)
  {
    TranslationName(s1, d1);
    TranslationName(s2, d2);
    if TranslationPath(s1, d1) == TranslationPath(s2, d2) {
      var n1, n2 := Stem(s1) + MONO_SUFFIX, Stem(s2) + MONO_SUFFIX;
      assert n1[..|Stem(s1)|] == Stem(s1);
      assert n2[..|Stem(s2)|] == Stem(s2);
    }
  }

  /** A translated copy never has the path of its own source. */
  lemma TranslationNeverSource(source: Path, dest: Path)
    ensures TranslationPath(source, dest) != source
  {
    TranslationName(source, dest);
    assert |Stem(TranslationPath(source, dest))| == |Stem(source)| + 5;
  }
}
