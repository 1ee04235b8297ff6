/**
 * Document identity: `clean_filename` in functions.py, which turns an upload name
 * into the name of its vector collection with `Path(name).stem.replace(" ", "_").lower()`.
 *
 * Paths are POSIX paths over `seq<char>` with '/' as the only separator. Python's
 * pathlib splits a path at '/', drops empty components and "." components, and takes
 * the last one that remains as the `name`; `stem` then cuts at the last '.' when that
 * dot is neither the first nor the last character of the name.
 */
module Identity {

  /** Index of the last occurrence of `c` in `s`, or -1 when there is none (`str.rfind`). */
  function LastIndex(s: string, c: char): (r: int)
    ensures -1 <= r < |s|
    ensures 0 <= r ==> s[r] == c
  {
    if |s| == 0 then -1
    else if s[|s| - 1] == c then |s| - 1
    else LastIndex(s[..|s| - 1], c)
  }

  /** No occurrence of `c` follows the one `LastIndex` finds. */
  lemma {:induction false} LastIndexIsLast(s: string, c: char)
    ensures forall j :: LastIndex(s, c) < j < |s| ==> s[j] != c
  {
    if |s| > 0 && s[|s| - 1] != c {
      var s' := s[..|s| - 1];
      LastIndexIsLast(s', c);
      assert forall j :: 0 <= j < |s'| ==> s'[j] == s[j];
    }
  }

  /** The three clauses of LastIndex's contract pin its result down. */
  lemma LastIndexUnique(s: string, c: char, r: int)
    requires -1 <= r < |s|
    requires 0 <= r ==> s[r] == c
    requires forall j :: r < j < |s| ==> s[j] != c
    ensures r == LastIndex(s, c)
  {
  }

  /** Appending text free of `c` keeps the last occurrence of `c`. */
  lemma LastIndexAppend(a: string, b: string, c: char)
    requires c !in b
    ensures LastIndex(a + b, c) == LastIndex(a, c)
  {
    var r := LastIndex(a, c);
    var p := a + b;
    LastIndexIsLast(a, c);
    assert 0 <= r ==> p[r] == a[r];
    forall j | r < j < |p| ensures p[j] != c {
      if j < |a| {
        assert p[j] == a[j];
      } else {
        assert p[j] == b[j - |a|];
      }
    }
    LastIndexUnique(p, c, r);
  }

  /** The text after the last separator of `p` (all of `p` when it has none). */
  function LastSegment(p: string): (t: string)
    ensures '/' !in t
  {
    LastIndexIsLast(p, '/');
    p[LastIndex(p, '/') + 1..]
  }

  /** `t` holds no component that pathlib keeps: it is made of separators and dots,
      and no two non-separators stand side by side, so every component is "" or ".". */
  ghost predicate OnlyEmptyOrDot(t: string)
  {
    && (forall i :: 0 <= i < |t| ==> t[i] == '/' || t[i] == '.')
    && (forall i, j :: 0 <= i < j < |t| && j == i + 1 ==> t[i] == '/' || t[j] == '/')
  }

  /** A slice `p[start..stop]` of a path. */
  datatype Span = Span(start: nat, stop: nat)

  /** The facts that make `b` the position of pathlib's `name` inside `p`: the last
      component that is neither empty nor ".", or (0, 0) when there is none. */
  ghost predicate IsNameBounds(p: string, b: Span)
  {
    && b.start <= b.stop <= |p|
    && '/' !in p[b.start..b.stop] && p[b.start..b.stop] != "."
    && (b.start < b.stop ==> (b.start == 0 || p[b.start - 1] == '/') && (b.stop == |p| || p[b.stop] == '/'))
    && OnlyEmptyOrDot(p[b.stop..])
    && (b.start == b.stop ==> OnlyEmptyOrDot(p))
  }

  lemma OnlyEmptyOrDotExtend(a: string, t: string)
    requires OnlyEmptyOrDot(a)
    requires t == "" || t == "."
    ensures OnlyEmptyOrDot(a + "/" + t)
  {
    var p := a + "/" + t;
    forall i | 0 <= i < |p| ensures p[i] == '/' || p[i] == '.' {
      if i < |a| { assert p[i] == a[i]; }
    }
    forall i, j | 0 <= i < j < |p| && j == i + 1 ensures p[i] == '/' || p[j] == '/' {
      if j < |a| { assert p[i] == a[i] && p[j] == a[j]; }
    }
  }

  /** Appending a trailing "/" or "/." to a path keeps the position of its name. */
  lemma IsNameBoundsExtend(a: string, t: string, b: Span)
    requires IsNameBounds(a, b)
    requires t == "" || t == "."
    ensures IsNameBounds(a + "/" + t, b)
  {
    var p := a + "/" + t;
    assert a[b.start..b.stop] == p[b.start..b.stop];
    assert p[b.stop..] == a[b.stop..] + "/" + t;
    OnlyEmptyOrDotExtend(a[b.stop..], t);
    if b.start == b.stop {
      OnlyEmptyOrDotExtend(a, t);
    }
  }

  lemma SliceToEnd(p: string, i: nat)
    requires i <= |p|
    ensures p[i..] == p[i..|p|]
  {
  }

  /** A final segment that pathlib keeps, bounded by a separator or the start, is the name. */
  lemma TailNameBounds(p: string, start: nat)
    requires start <= |p|
    requires '/' !in p[start..] && p[start..] != "" && p[start..] != "."
    requires start == 0 || p[start - 1] == '/'
    ensures IsNameBounds(p, Span(start, |p|))
  {
    assert p[start..|p|] == p[start..];
    assert p[|p|..] == [];
    assert OnlyEmptyOrDot([]);
  }

  lemma NameBoundsOfLastSegment(p: string, k: int)
    requires k == LastIndex(p, '/')
    requires p[k + 1..] != "" && p[k + 1..] != "."
    ensures 0 <= k + 1 && IsNameBounds(p, Span(k + 1, |p|))
  {
    assert LastSegment(p) == p[k + 1..];
    TailNameBounds(p, k + 1);
  }

  /** Where pathlib's `name` of `p` lies in `p`: the last segment when it is a component
      pathlib keeps, otherwise the name of what comes before the last separator. */
  function NameBounds(p: string): (b: Span)
    ensures b.start <= b.stop <= |p|
    decreases |p|
  {
    var k := LastIndex(p, '/');
    var t := p[k + 1..];
    if t != "" && t != "." then Span(k + 1, |p|)
    else if k < 0 then Span(0, 0)
    else NameBounds(p[..k])
  }

  /** `NameBounds` finds the bounds of the name as `IsNameBounds` characterises them. */
  lemma {:induction false} NameBoundsValid(p: string)
    ensures IsNameBounds(p, NameBounds(p))
    decreases |p|
  {
    var k := LastIndex(p, '/');
    var t := p[k + 1..];
    if t != "" && t != "." {
      NameBoundsOfLastSegment(p, k);
    } else if k < 0 {
      assert p == t;
      NoComponentNameBounds(p);
    } else {
      var b := NameBounds(p[..k]);
      assert NameBounds(p) == b;
      NameBoundsValid(p[..k]);
      SplitAtSeparator(p, k);
      IsNameBoundsExtend(p[..k], t, b);
    }
  }

  /** A path that is empty or a lone dot has the empty name at its start. */
  lemma NoComponentNameBounds(p: string)
    requires p == "" || p == "."
    ensures IsNameBounds(p, Span(0, 0))
  {
    assert p[0..0] == [];
    assert p[0..] == p;
  }

  /** A path is what comes before a separator, the separator, and what follows it. */
  lemma SplitAtSeparator(p: string, k: nat)
    requires k < |p| && p[k] == '/'
    ensures p == p[..k] + "/" + p[k + 1..]
  {
  }

  /** `Path(p).name`. */
  function Name(p: string): (n: string)
    ensures '/' !in n && n != "."
  {
    var b := NameBounds(p);
    NameBoundsValid(p);
    p[b.start..b.stop]
  }

  lemma NoAdjacentComponentCharacters(p: string, lo: nat, hi: nat)
    ensures OnlyEmptyOrDot(p) && lo + 1 < hi <= |p| ==>
      p[lo..hi][0] == '/' || p[lo..hi][1] == '/'
  {
    if OnlyEmptyOrDot(p) && lo + 1 < hi <= |p| {
      assert p[lo..hi][0] == p[lo] && p[lo..hi][1] == p[lo + 1];
    }
  }

  /** In a path of separators and lone dots, a separator-free slice is "" or ".". */
  lemma DotsOnlyHoldDot(p: string, lo: nat, hi: nat)
    requires lo <= hi <= |p|
    ensures OnlyEmptyOrDot(p) && '/' !in p[lo..hi] && lo < hi ==> p[lo..hi] == "."
  {
    NoAdjacentComponentCharacters(p, lo, hi);
    if OnlyEmptyOrDot(p) && '/' !in p[lo..hi] && lo < hi {
      var n := p[lo..hi];
      assert n[0] == p[lo];
      assert n == [p[lo]];
    }
  }

  /** The name is empty exactly when no component of the path survives pathlib's parsing. */
  lemma NameEmptyIff(p: string)
    ensures Name(p) == "" ==> OnlyEmptyOrDot(p)
    ensures OnlyEmptyOrDot(p) ==> Name(p) == ""
  {
    var b := NameBounds(p);
    NameBoundsValid(p);
    assert Name(p) == p[b.start..b.stop];
    assert |p[b.start..b.stop]| == b.stop - b.start;
    DotsOnlyHoldDot(p, b.start, b.stop);
  }

  /** A path whose last segment is a component pathlib keeps has that segment as its name. */
  lemma NameOfLastSegment(p: string)
    requires LastSegment(p) != "" && LastSegment(p) != "."
    ensures Name(p) == LastSegment(p)
  {
  }

  /** A slice of a prefix is a slice of the whole. */
  lemma PrefixSlice(p: string, k: nat, lo: nat, hi: nat)
    requires lo <= hi <= k <= |p|
    ensures p[..k][lo..hi] == p[lo..hi]
  {
  }

  /** A path that ends in "/" or "/." has the name of what comes before. */
  lemma NameSkipsTrailing(p: string)
    requires LastIndex(p, '/') >= 0
    requires LastSegment(p) == "" || LastSegment(p) == "."
    ensures Name(p) == Name(p[..LastIndex(p, '/')])
  {
    var k := LastIndex(p, '/');
    var b := NameBounds(p[..k]);
    assert NameBounds(p) == b;
    PrefixSlice(p, k, b.start, b.stop);
  }

  /** The last separator of `d + "/" + f`. */
  lemma LastSlashAfterDirectory(d: string, f: string)
    ensures LastIndex(d + "/" + f, '/') ==
      (if LastIndex(f, '/') < 0 then |d| else |d| + 1 + LastIndex(f, '/'))
    ensures LastSegment(d + "/" + f) == LastSegment(f)
  {
    var p := d + "/" + f;
    var k := LastIndex(f, '/');
    var kp := if k < 0 then |d| else |d| + 1 + k;
    LastIndexIsLast(f, '/');
    assert p[kp] == '/';
    forall j | kp < j < |p| ensures p[j] != '/' {
      assert p[j] == f[j - |d| - 1];
    }
    LastIndexUnique(p, '/', kp);
    assert p[kp + 1..] == f[k + 1..];
  }

  /** Cutting `f` short cuts `d + "/" + f` short at the same place. */
  lemma DirectoryPrefix(d: string, f: string, k: nat)
    requires k <= |f|
    ensures (d + "/" + f)[..|d| + 1 + k] == d + "/" + f[..k]
  {
  }

  /** Putting directories in front of a path does not change its name. */
  lemma {:induction false} NameIgnoresDirectory(d: string, f: string)
    requires Name(f) != ""
    ensures Name(d + "/" + f) == Name(f)
    decreases |f|
  {
    var p := d + "/" + f;
    LastSlashAfterDirectory(d, f);
    var k := LastIndex(f, '/');
    var t := LastSegment(f);
    if t != "" && t != "." {
      NameOfLastSegment(f);
      NameOfLastSegment(p);
    } else if k < 0 {
      assert false;
    } else {
      NameSkipsTrailing(f);
      NameSkipsTrailing(p);
      DirectoryPrefix(d, f, k);
      NameIgnoresDirectory(d, f[..k]);
    }
  }

  /** `PurePath.stem`: the name without its final suffix. */
  function Stem(n: string): (r: string)
    ensures r <= n
    ensures r == n || (0 < |r| < |n| - 1 && n[|r|] == '.' && '.' !in n[|r| + 1..])
    ensures |n| > 0 && n[|n| - 1] == '.' ==> r == n
    ensures r == n ==> forall i :: 0 < i < |n| - 1 && n[i] == '.' ==> n[|n| - 1] == '.'
  {
    var i := LastIndex(n, '.');
    LastIndexIsLast(n, '.');
    if 0 < i < |n| - 1 then n[..i] else n
  }

  predicate IsUpperAscii(c: char)
  {
    'A' <= c <= 'Z'
  }

  /** `str.lower` on one character, restricted to ASCII letters. */
  function LowerChar(c: char): (d: char)
    ensures !IsUpperAscii(d)
    ensures IsUpperAscii(c) ==> d as int == c as int + 32
    ensures !IsUpperAscii(c) ==> d == c
  {
    if IsUpperAscii(c) then (c as int - 'A' as int + 'a' as int) as char else c
  }

  /** `s.lower()` */
  function Lower(s: string): (r: string)
    ensures |r| == |s|
    ensures forall i :: 0 <= i < |s| ==> r[i] == LowerChar(s[i])
  {
    seq(|s|, i requires 0 <= i < |s| => LowerChar(s[i]))
  }

  /** `s.replace(" ", "_")` */
  function ReplaceSpaces(s: string): (r: string)
    ensures |r| == |s|
    ensures forall i :: 0 <= i < |s| ==> r[i] == (if s[i] == ' ' then '_' else s[i])
  {
    seq(|s|, i requires 0 <= i < |s| => if s[i] == ' ' then '_' else s[i])
  }

  /** `clean_filename`: the collection key of an uploaded file. */
  function CleanFilename(fileName: string): (key: string)
    ensures ' ' !in key && '/' !in key
    ensures forall i :: 0 <= i < |key| ==> !IsUpperAscii(key[i])
    ensures |key| <= |fileName|
  {
    Lower(ReplaceSpaces(Stem(Name(fileName))))
  }

  /** What `clean_filename` does to one character once the name and stem are cut out. */
  function Fold(c: char): char
  {
    LowerChar(if c == ' ' then '_' else c)
  }

  /** `f` and `g` differ at most in ASCII letter case and in space versus underscore. */
  ghost predicate SameUpToCaseAndSpace(f: string, g: string)
  {
    |f| == |g| && forall i :: 0 <= i < |f| ==> Fold(f[i]) == Fold(g[i])
  }

  lemma FoldKeepsSeparators(c: char, d: char)
    requires Fold(c) == Fold(d)
    ensures c == '/' <==> d == '/'
    ensures c == '.' <==> d == '.'
  {
  }

  lemma SameSlice(f: string, g: string, i: nat, j: nat)
    requires SameUpToCaseAndSpace(f, g)
    requires i <= j <= |f|
    ensures SameUpToCaseAndSpace(f[i..j], g[i..j])
  {
    forall k | 0 <= k < j - i ensures Fold(f[i..j][k]) == Fold(g[i..j][k]) {
      assert f[i..j][k] == f[i + k] && g[i..j][k] == g[i + k];
    }
  }

  lemma LastIndexSame(f: string, g: string, c: char)
    requires SameUpToCaseAndSpace(f, g)
    requires c == '/' || c == '.'
    ensures LastIndex(f, c) == LastIndex(g, c)
  {
    forall j | 0 <= j < |f| ensures f[j] == c <==> g[j] == c {
      FoldKeepsSeparators(f[j], g[j]);
    }
    LastIndexIsLast(f, c);
    LastIndexUnique(g, c, LastIndex(f, c));
  }

  lemma LastSegmentSame(f: string, g: string)
    requires SameUpToCaseAndSpace(f, g)
    ensures LastIndex(f, '/') == LastIndex(g, '/')
    ensures LastSegment(f) == "" <==> LastSegment(g) == ""
    ensures LastSegment(f) == "." <==> LastSegment(g) == "."
  {
    LastIndexSame(f, g, '/');
    var k := LastIndex(f, '/');
    var t, u := f[k + 1..], g[k + 1..];
    if |t| == 1 {
      assert t[0] == f[k + 1] && u[0] == g[k + 1];
      FoldKeepsSeparators(f[k + 1], g[k + 1]);
    }
  }

  lemma {:induction false} NameBoundsSame(f: string, g: string)
    requires SameUpToCaseAndSpace(f, g)
    ensures NameBounds(f) == NameBounds(g)
    decreases |f|
  {
    LastSegmentSame(f, g);
    var k := LastIndex(f, '/');
    var t := LastSegment(f);
    if k >= 0 && (t == "" || t == ".") {
      SameSlice(f, g, 0, k);
      NameBoundsSame(f[..k], g[..k]);
    }
  }

  lemma StemSame(n: string, m: string)
    requires SameUpToCaseAndSpace(n, m)
    ensures SameUpToCaseAndSpace(Stem(n), Stem(m))
  {
    LastIndexSame(n, m, '.');
    var i := LastIndex(n, '.');
    if 0 < i < |n| - 1 {
      SameSlice(n, m, 0, i);
    }
  }

  /** Names that differ only in letter case or in spaces versus underscores get the same key. */
  lemma CleanFilenameIgnoresCaseAndSpaces(f: string, g: string)
    requires |f| == |g|
    requires forall i :: 0 <= i < |f| ==> Fold(f[i]) == Fold(g[i])
    ensures CleanFilename(f) == CleanFilename(g)
  {
    NameBoundsSame(f, g);
    var b := NameBounds(f);
    SameSlice(f, g, b.start, b.stop);
    StemSame(Name(f), Name(g));
    var s, t := Stem(Name(f)), Stem(Name(g));
    assert |CleanFilename(f)| == |CleanFilename(g)|;
    forall i | 0 <= i < |s| ensures CleanFilename(f)[i] == CleanFilename(g)[i] {
      assert Fold(s[i]) == Fold(t[i]);
    }
  }

  /** Directory components never reach the key. */
  lemma CleanFilenameIgnoresDirectory(d: string, f: string)
    requires Name(f) != ""
    ensures CleanFilename(d + "/" + f) == CleanFilename(f)
  {
    NameIgnoresDirectory(d, f);
  }

  /** A suffix free of separators extends the name of a path that ends in a component. */
  lemma NameWithSuffix(s: string, x: string)
    requires LastSegment(s) != "" && LastSegment(s) != "."
    requires '/' !in x
    ensures Name(s + x) == LastSegment(s) + x
  {
    var p := s + x;
    var k := LastIndex(s, '/');
    LastIndexAppend(s, x, '/');
    assert p[k + 1..] == s[k + 1..] + x;
    NameOfLastSegment(p);
  }

  /** `Stem` cuts exactly a final "." + `ext` off a non-empty stem. */
  lemma StemOfExtension(t: string, ext: string)
    requires t != ""
    requires ext != "" && '.' !in ext
    ensures Stem(t + "." + ext) == t
  {
    var n := t + "." + ext;
    assert n[|t|] == '.';
    forall j | |t| < j < |n| ensures n[j] != '.' {
      assert n[j] == ext[j - |t| - 1];
    }
    LastIndexUnique(n, '.', |t|);
    assert n[..|t|] == t;
  }

  /** At most the final extension is dropped: when the last segment of `s` is a component,
      `s + "." + ext` has as key that whole segment, cased and with underscores, for every
      non-empty `ext` free of dots and separators. So `s + ".pdf"` and `s + ".txt"` share a key. */
  lemma CleanFilenameDropsExtension(s: string, ext: string)
    requires LastSegment(s) != "" && LastSegment(s) != "."
    requires ext != "" && '.' !in ext && '/' !in ext
    ensures CleanFilename(s + "." + ext) == Lower(ReplaceSpaces(LastSegment(s)))
  {
    assert s + "." + ext == s + ("." + ext);
    NameWithSuffix(s, "." + ext);
    assert LastSegment(s) + ("." + ext) == LastSegment(s) + "." + ext;
    StemOfExtension(LastSegment(s), ext);
  }

  lemma NoSeparatorIsOwnSegment(s: string)
    requires '/' !in s
    ensures LastSegment(s) == s
  {
    LastIndexUnique(s, '/', -1);
  }

  lemma FoldMyFile()
    ensures Lower(ReplaceSpaces("My File")) == "my_file"
    ensures Lower(ReplaceSpaces("my_file")) == "my_file"
  {
    var a, b := ReplaceSpaces("My File"), ReplaceSpaces("my_file");
    assert a == "My_File" && b == "my_file";
    var la, lb := Lower(a), Lower(b);
    assert la[0] == 'm' && la[3] == 'f';
    assert la == "my_file";
    assert lb == "my_file";
  }

  /** A separator-free name with one extension has as key the name without it. */
  lemma KeyOfPlainName(s: string, ext: string)
    requires '/' !in s && s != "" && s != "."
    requires ext != "" && '.' !in ext && '/' !in ext
    ensures CleanFilename(s + "." + ext) == Lower(ReplaceSpaces(s))
  {
    NoSeparatorIsOwnSegment(s);
    CleanFilenameDropsExtension(s, ext);
  }

  /** A separator-free path is its own name once it is more than a lone dot. */
  lemma NameOfPlainName(s: string, ext: string)
    requires '/' !in s && s != "" && s != "."
    requires '/' !in ext
    ensures Name(s + "." + ext) == s + "." + ext
  {
    NoSeparatorIsOwnSegment(s);
    assert s + "." + ext == s + ("." + ext);
    NameWithSuffix(s, "." + ext);
  }

  lemma KeyOfMyFilePdf()
    ensures Name("My File.pdf") != ""
    ensures CleanFilename("My File.pdf") == "my_file"
  {
    FoldMyFile();
    assert "My File" + "." + "pdf" == "My File.pdf";
    KeyOfPlainName("My File", "pdf");
    NameOfPlainName("My File", "pdf");
  }

  lemma KeyOfMyFileUpperPdf()
    ensures CleanFilename("my_file.PDF") == "my_file"
  {
    FoldMyFile();
    assert "my_file" + "." + "PDF" == "my_file.PDF";
    KeyOfPlainName("my_file", "PDF");
  }

  /** The example path split at its separator, kept apart from the key facts so the
      literal comparison is made in a small context. */
  lemma DirMyFileSplit()
    ensures "dir" + "/" + "My File.pdf" == "dir/My File.pdf"
  {
  }

  /** The upload names "dir/My File.pdf" and "my_file.PDF" select the same collection. */
  lemma SameKeyExample()
    ensures CleanFilename("dir/My File.pdf") == "my_file"
    ensures CleanFilename("my_file.PDF") == "my_file"
  {
    KeyOfMyFilePdf();
    CleanFilenameIgnoresDirectory("dir", "My File.pdf");
    DirMyFileSplit();
    KeyOfMyFileUpperPdf();
  }
}
