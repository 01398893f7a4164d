/**
 * File-name display: the last `/` segment the thread blocks show for a
 * path, and Node's `path.basename` as the command-line adapters use it.
 */
module Paths {
  import opened Js
  import opened Strings

  /** `path.split("/").pop()`: the text after the last `/`. */
  function LastSegment(path: string): string
  {
    var parts := Split(path, '/');
    parts[|parts| - 1]
  }

  lemma NoCountNoChar(s: string, c: char)
    requires Count(s, c) == 0
    ensures c !in s
  {
    if |s| > 0 {
      NoCountNoChar(s[1..], c);
      assert s == [s[0]] + s[1..];
    }
  }

  /** The last piece of a split is the tail of the text after the last
    * separator, or the whole text when there is none. */
  predicate LastPiece(s: string, seg: string, sep: char)
  {
    EndsWith(s, seg) && (|seg| == |s| || s[|s| - |seg| - 1] == sep)
  }

  lemma {:induction false} SplitLastSuffix(s: string, sep: char)
    ensures var parts := Split(s, sep); LastPiece(s, parts[|parts| - 1], sep)
    decreases |s|
  {
    if |s| > 0 {
      SplitLastSuffix(s[1..], sep);
      if s[0] == sep {
        SplitLastSeparator(s, sep);
      } else {
        SplitLastPlain(s, sep);
      }
    }
  }

  /** A last piece of the tail is a last piece of the text. */
  lemma TailPiece(s: string, seg: string, sep: char)
    requires |s| > 0 && LastPiece(s[1..], seg, sep) && |seg| < |s|
    requires |seg| == |s| - 1 ==> s[0] == sep
    ensures LastPiece(s, seg, sep)
  {
    assert s[1..][|s| - 1 - |seg|..] == s[|s| - |seg|..];
    if |seg| < |s| - 1 {
      assert s[1..][|s| - 1 - |seg| - 1] == s[|s| - |seg| - 1];
    }
  }

  lemma SplitLastSeparator(s: string, sep: char)
    requires |s| > 0 && s[0] == sep
    requires var rest := Split(s[1..], sep); LastPiece(s[1..], rest[|rest| - 1], sep)
    ensures var parts := Split(s, sep); LastPiece(s, parts[|parts| - 1], sep)
  {
    var rest := Split(s[1..], sep);
    var parts := Split(s, sep);
    assert parts == [""] + rest;
    assert parts[|parts| - 1] == rest[|rest| - 1];
    TailPiece(s, rest[|rest| - 1], sep);
  }

  lemma SplitLastPlain(s: string, sep: char)
    requires |s| > 0 && s[0] != sep
    requires var rest := Split(s[1..], sep); LastPiece(s[1..], rest[|rest| - 1], sep)
    ensures var parts := Split(s, sep); LastPiece(s, parts[|parts| - 1], sep)
  {
    var rest := Split(s[1..], sep);
    var parts := Split(s, sep);
    assert parts == [[s[0]] + rest[0]] + rest[1..];
    SplitCount(s[1..], sep);
    SplitPiece(s[1..], sep, |rest| - 1);
    if |rest| == 1 {
      NoCountNoChar(s[1..], sep);
      assert rest[0] == s[1..];
      assert parts[|parts| - 1] == [s[0]] + s[1..] == s;
    } else {
      assert parts[|parts| - 1] == rest[|rest| - 1];
      ShorterThanText(s[1..], rest[|rest| - 1], sep);
      TailPiece(s, rest[|rest| - 1], sep);
    }
  }

  lemma NoCharNoCount(s: string, c: char)
    requires c !in s
    ensures Count(s, c) == 0
  {
    if |s| > 0 {
      assert s[1..] <= s[1..];
      assert forall x :: x in s[1..] ==> x in s;
      NoCharNoCount(s[1..], c);
    }
  }

  /** A piece free of the separator is shorter than a text that holds one. */
  lemma ShorterThanText(t: string, seg: string, c: char)
    requires EndsWith(t, seg) && c !in seg && Count(t, c) > 0
    ensures |seg| < |t|
  {
    if |seg| >= |t| {
      assert seg == t;
      NoCharNoCount(t, c);
    }
  }

  /** The index of the last `/`, or -1. */
  function LastSlash(p: string): (k: int)
    ensures -1 <= k < |p|
    ensures k >= 0 ==> p[k] == '/'
    ensures forall j :: k < j < |p| ==> p[j] != '/'
    decreases |p|
  {
    if |p| == 0 then -1 else if p[|p| - 1] == '/' then |p| - 1 else LastSlash(p[..|p| - 1])
  }

  /** A separator-free tail that follows a `/` (or is everything) is the
    * text after the last `/`. */
  lemma PieceAfterSlash(path: string, seg: string)
    requires LastPiece(path, seg, '/') && '/' !in seg
    ensures seg == path[LastSlash(path) + 1..]
  {
    var k := |path| - |seg| - 1;
    assert seg == path[k + 1..];
    forall j | k < j < |path| ensures path[j] != '/' {
      assert path[j] == seg[j - k - 1];
    }
    var m := LastSlash(path);
    if k >= 0 {
      assert path[k] == '/';
    }
    assert m == k;
  }

  /** `split("/").pop()` is the text after the last `/`. */
  lemma LastSegmentAfterSlash(path: string)
    ensures LastSegment(path) == path[LastSlash(path) + 1..]
  {
    var parts := Split(path, '/');
    SplitLastSuffix(path, '/');
    SplitPiece(path, '/', |parts| - 1);
    PieceAfterSlash(path, LastSegment(path));
  }

  /** `filePath.split("/").pop() || filePath` */
  function ShortName(path: string): (r: string)
  {
    var seg := LastSegment(path);
    if seg != "" then seg else path
  }

  /** The short name is the text after the last `/`, the whole path when
    * it has no `/`, and the whole path again when that text is empty (a
    * trailing `/` or the empty path). */
  lemma ShortNameSpec(path: string)
    ensures LastSlash(path) == -1 ==> ShortName(path) == path
    ensures LastSlash(path) == |path| - 1 ==> ShortName(path) == path
    ensures -1 <= LastSlash(path) < |path| - 1 ==> ShortName(path) == path[LastSlash(path) + 1..]
  {
    LastSegmentAfterSlash(path);
  }

  /** The badge text of `ToolGetErrorsBlock` for one path: URLs whole,
    * other paths by their short name. */
  function ErrorBadgeName(path: string): string
  {
    if StartsWith(path, "http") then path else ShortName(path)
  }

  /** One badge per path, in input order. */
  function ErrorBadges(paths: seq<string>): (r: seq<string>)
    ensures |r| == |paths|
    ensures forall i :: 0 <= i < |paths| ==> r[i] == ErrorBadgeName(paths[i])
    ensures forall i :: 0 <= i < |paths| && StartsWith(paths[i], "http") ==> r[i] == paths[i]
  {
    seq(|paths|, i requires 0 <= i < |paths| => ErrorBadgeName(paths[i]))
  }

  /** What `ToolReadBlock` and `ToolGetErrorsBlock` show besides the names:
    * the label (`caption`), and whether a hover preview exists. */
  datatype BadgeView = BadgeView(caption: string, names: seq<string>, preview: bool)

  /** `label = "Read"`: the default replaces an absent caption only, not an
    * empty one; `content ?` shows the preview for non-empty content. */
  function ReadBlockView(filePath: string, content: Option<string>, caption: Option<string>): (r: BadgeView)
    ensures r.names == [ShortName(filePath)]
    ensures r.preview <==> content.Some? && content.value != ""
    ensures caption.None? ==> r.caption == "Read"
    ensures caption.Some? ==> r.caption == caption.value
  {
    BadgeView(if caption.None? then "Read" else caption.value, [ShortName(filePath)], content.Some? && content.value != "")
  }

  function ErrorsBlockView(filePaths: seq<string>, content: Option<string>, caption: Option<string>): (r: BadgeView)
    ensures r.names == ErrorBadges(filePaths)
    ensures r.preview <==> content.Some? && content.value != ""
    ensures caption.None? ==> r.caption == "Check errors"
    ensures caption.Some? ==> r.caption == caption.value
  {
    BadgeView(if caption.None? then "Check errors" else caption.value, ErrorBadges(filePaths), content.Some? && content.value != "")
  }

  /** Node's `path.basename(p)` for POSIX paths: trailing `/`s are dropped,
    * then the text after the last `/` is kept. */
  function Basename(p: string): (r: string)
    ensures '/' !in r
    decreases |p|
  {
    if |p| > 0 && p[|p| - 1] == '/' then Basename(p[..|p| - 1])
    else AfterLastSlashPlain(p); AfterLastSlash(p)
  }

  function AfterLastSlash(p: string): (r: string)
  {
    p[LastSlash(p) + 1..]
  }

  /** The base name holds no `/`. */
  lemma AfterLastSlashPlain(p: string)
    ensures '/' !in AfterLastSlash(p)
  {
    var k := LastSlash(p);
    var r := p[k + 1..];
    forall j | 0 <= j < |r| ensures r[j] != '/' {
      assert r[j] == p[k + 1 + j];
    }
  }

  /** `path.basename(p, ext)`: the base name without the extension, unless
    * the base name is the extension itself; a path that is the extension
    * itself gives the empty name. */
  function BasenameWithout(p: string, ext: string): (r: string)
    ensures p == ext ==> r == ""
    ensures p != ext && EndsWith(Basename(p), ext) && Basename(p) != ext ==> r + ext == Basename(p)
    ensures p != ext && !(EndsWith(Basename(p), ext) && Basename(p) != ext) ==> r == Basename(p)
    ensures '/' !in r
  {
    var b := Basename(p);
    if p == ext then ""
    else if EndsWith(b, ext) && b != ext then
      assert b[..|b| - |ext|] + ext == b;
      assert forall c :: c in b[..|b| - |ext|] ==> c in b;
      b[..|b| - |ext|]
    else b
  }

  /** A session file `dir/name.jsonl` is listed under `name`. */
  lemma SessionFileName(dir: string, name: string)
    requires name != "" && '/' !in name
    ensures BasenameWithout(dir + "/" + name + ".jsonl", ".jsonl") == name
  {
    var ext := ".jsonl";
    var t := name + ext;
    var p := dir + "/" + t;
    assert p == dir + "/" + name + ".jsonl";
    assert p[|p| - 1] == 'l';
    assert Basename(p) == AfterLastSlash(p);
    assert p[|dir|] == '/';
    forall j | |dir| < j < |p| ensures p[j] != '/' {
      assert p[j] == t[j - |dir| - 1];
      if j - |dir| - 1 < |name| {
        assert t[j - |dir| - 1] == name[j - |dir| - 1];
      } else {
        assert t[j - |dir| - 1] == ext[j - |dir| - 1 - |name|];
      }
    }
    assert LastSlash(p) == |dir|;
    assert AfterLastSlash(p) == t;
    assert t[|t| - |ext|..] == ext;
    assert t[..|t| - |ext|] == name;
  }

  /** A path without a `/` is its own base name. */
  lemma BasenameOfPlainName(p: string)
    requires '/' !in p
    ensures Basename(p) == p
  {
    if |p| > 0 {
      assert p[|p| - 1] in p;
    }
    assert LastSlash(p) == -1;
  }
}
