/**
 * The extraction of a slash command's name from a Claude user message:
 * the match of `<command-name>(.*?)<\/command-name>` and the script's
 * report on the sample message. The pattern is modelled by the search a
 * backtracking matcher performs: the leftmost opening tag whose lazy
 * capture reaches a closing tag before any line terminator.
 */
module CommandName {
  import opened Js
  import opened Strings

  const Open := "<command-name>"
  const Close := "</command-name>"

  /** The characters `.` does not match. */
  predicate IsLineTerminator(c: char)
  {
    c == '\n' || c == '\r' || c == '\U{2028}' || c == '\U{2029}'
  }

  /** The lazy `(.*?)` from `j`: the first position where the closing tag
    * starts, provided no line terminator comes before it. */
  function LazyEnd(s: string, j: nat): (r: Option<nat>)
    requires j <= |s|
    ensures r.Some? ==> j <= r.value <= |s| && OccursAt(s, Close, r.value)
    ensures r.Some? ==> forall i :: j <= i < r.value ==> !IsLineTerminator(s[i]) && !OccursAt(s, Close, i)
    decreases |s| - j
  {
    if OccursAt(s, Close, j) then Some(j)
    else if j == |s| || IsLineTerminator(s[j]) then None
    else LazyEnd(s, j + 1)
  }

  /** The capture of a match starting at `k`, if the pattern matches there. */
  function TagAt(s: string, k: nat): Option<string>
  {
    if OccursAt(s, Open, k) then
      match LazyEnd(s, k + |Open|)
      case Some(e) => Some(s[k + |Open|..e])
      case None => None
    else None
  }

  /** A match at `k` is an opening tag, a capture free of line terminators
    * and of closing tags, and a closing tag. */
  lemma TagAtShape(s: string, k: nat)
    requires TagAt(s, k).Some?
    ensures OccursAt(s, Open + TagAt(s, k).value + Close, k)
    ensures forall i :: 0 <= i < |TagAt(s, k).value| ==>
      !IsLineTerminator(TagAt(s, k).value[i]) && !OccursAt(s, Close, k + |Open| + i)
  {
    var a := k + |Open|;
    var e := LazyEnd(s, a).value;
    var x := s[a..e];
    SliceJoin(s, k, a, e);
    SliceJoin(s, k, e, e + |Close|);
    assert s[k..e + |Close|] == Open + x + Close;
    forall i | 0 <= i < |x| ensures !IsLineTerminator(x[i]) && !OccursAt(s, Close, a + i) {
      assert x[i] == s[a + i];
    }
  }

  /** The pattern tried at every position of `s`. */
  function Tags(s: string): nat -> Option<string>
  {
    (i: nat) => TagAt(s, i)
  }

  /** `content.match(pattern)`: the capture of the leftmost match. */
  function FirstTag(s: string): Option<string>
  {
    Leftmost(Tags(s), 0, |s|)
  }

  /** The match found is the leftmost one, and there is none exactly when
    * no position matches. */
  lemma FirstTagLeftmost(s: string)
    ensures FirstTag(s).Some? ==>
      exists i :: 0 <= i <= |s| && TagAt(s, i) == FirstTag(s) && forall j :: 0 <= j < i ==> TagAt(s, j).None?
    ensures FirstTag(s).None? <==> forall i :: 0 <= i <= |s| ==> TagAt(s, i).None?
  {
    var m := Tags(s);
    LeftmostFirst(m, 0, |s|);
    assert forall i: nat :: m(i) == TagAt(s, i);
  }

  /** What the script reports. */
  datatype Report = Success(name: string) | Failure(name: string) | NoMatch

  const Expected := "/iterate_plan"

  /** `match && match[1]` guards the comparison, so an empty capture is
    * reported like no match at all. */
  function ReportOf(content: string): (r: Report)
    ensures r == NoMatch <==> FirstTag(content).None? || FirstTag(content) == Some("")
    ensures r.Success? <==> FirstTag(content) == Some(Expected)
    ensures r.Failure? ==> Some(r.name) == FirstTag(content) && r.name != Expected && r.name != ""
  {
    match FirstTag(content)
    case Some(name) =>
      if name == "" then NoMatch
      else if name == Expected then Success(name)
      else Failure(name)
    case None => NoMatch
  }

  /** The sample content: a command message, a newline, then the tag. */
  const SampleContent := SamplePrefix() + Open + Expected + Close

  /** A message without an opening tag is reported as no match. */
  lemma NoTagNoMatch(content: string)
    requires forall k :: 0 <= k <= |content| ==> !OccursAt(content, Open, k)
    ensures ReportOf(content) == NoMatch
  {
    FirstTagLeftmost(content);
  }

  /** No opening tag starts at a '<' followed by anything but 'c'. */
  lemma NotOpenAt(s: string, k: nat)
    requires k < |s| && (s[k] != '<' || (k + 1 < |s| && s[k + 1] != 'c'))
    ensures !OccursAt(s, Open, k)
  {
  }

  /** No tag starts inside a stretch of text free of '<'. */
  lemma NoOpenIn(s: string, o: nat, w: string)
    requires o + |w| <= |s| && s[o..o + |w|] == w && '<' !in w
    ensures forall k :: o <= k < o + |w| ==> !OccursAt(s, Open, k) && !OccursAt(s, Close, k)
  {
    forall k | o <= k < o + |w| ensures !OccursAt(s, Open, k) && !OccursAt(s, Close, k) {
      assert s[k] == w[k - o];
      NotOpenAt(s, k);
    }
  }

  /** Text free of line terminators and of '<' between the tags is the
    * capture, when no tag opens earlier. */
  lemma {:induction false} TagOf(s: string, pre: string, x: string, post: string)
    requires s == pre + Open + x + Close + post
    requires forall k :: 0 <= k < |pre| ==> !OccursAt(s, Open, k)
    requires '<' !in x && forall i :: 0 <= i < |x| ==> !IsLineTerminator(x[i])
    ensures FirstTag(s) == Some(x)
  {
    var k := |pre|;
    var a := k + |Open|;
    var e := a + |x|;
    assert s[k..a] == Open;
    assert s[a..e] == x;
    assert s[e..e + |Close|] == Close;
    NoOpenIn(s, a, x);
    LazyEndAt(s, a, e);
    assert TagAt(s, k) == Some(x);
    FirstTagAt(s, k);
  }

  /** The lazy capture from `j` ends at the first closing tag `e` when no
    * line terminator comes first. */
  lemma {:induction false} LazyEndAt(s: string, j: nat, e: nat)
    requires j <= e <= |s| && OccursAt(s, Close, e)
    requires forall i :: j <= i < e ==> !IsLineTerminator(s[i]) && !OccursAt(s, Close, i)
    ensures LazyEnd(s, j) == Some(e)
    decreases e - j
  {
    if j < e {
      LazyEndAt(s, j + 1, e);
    }
  }

  /** The first match is at `k` when none starts before it. */
  lemma FirstTagAt(s: string, k: nat)
    requires k <= |s| && TagAt(s, k).Some?
    requires forall j :: 0 <= j < k ==> TagAt(s, j).None?
    ensures FirstTag(s) == TagAt(s, k)
  {
    LeftmostAt(Tags(s), k, 0, |s|);
  }

  /** The sample message reports SUCCESS: its only tag holds the expected
    * command name, and the command message before it opens no tag. */
  lemma SampleSucceeds()
    ensures FirstTag(SampleContent) == Some(Expected)
    ensures ReportOf(SampleContent) == Success(Expected)
  {
    var pre := SamplePrefix();
    assert SampleContent == pre + Open + Expected + Close + "";
    SamplePrefixOpensNoTag();
    TagOf(SampleContent, pre, Expected, "");
  }

  const CommandOpen := "<command-message>"
  const CommandText := "iterate_plan is running…"
  const CommandClose := "</command-message>"

  /** The command message and the newline before the tag. */
  function SamplePrefix(): string
  {
    CommandOpen + CommandText + CommandClose + "\n"
  }

  /** The middle piece of a concatenation. */
  lemma PieceAt(s: string, x: string, y: string, z: string)
    requires s == x + y + z
    ensures s[|x|..|x| + |y|] == y
  {
  }

  lemma SamplePrefixOpensNoTag()
    ensures forall k :: 0 <= k < |SamplePrefix()| ==> !OccursAt(SampleContent, Open, k)
  {
    PrefixOpensNoTag(SampleContent, Open + Expected + Close);
  }

  lemma PrefixOpensNoTag(s: string, tail: string)
    requires s == SamplePrefix() + tail
    ensures forall k :: 0 <= k < |SamplePrefix()| ==> !OccursAt(s, Open, k)
  {
    OpeningOpensNoTag(s, tail);
    TextChars();
    CloseChars();
    PiecesOpenNoTag(s, CommandOpen, CommandText, CommandClose, tail);
  }

  /** The characters of the text and of the closing tag of the command
    * message that rule out an opening tag. */
  lemma TextChars()
    ensures |CommandText| > 0 && CommandText[0] != '<' && '<' !in CommandText[1..]
  {
  }

  lemma CloseChars()
    ensures |CommandClose| > 1 && CommandClose[1] != 'c' && '<' !in CommandClose[1..]
  {
  }

  /** No tag opens in a message `o + t + c + "\n"` whose opening piece opens
    * none, whose text holds no '<' and whose closing piece starts with a
    * '<' not followed by 'c' and holds no other. */
  lemma PiecesOpenNoTag(s: string, o: string, t: string, c: string, tail: string)
    requires s == o + t + c + "\n" + tail
    requires forall k :: 0 <= k < |o| ==> !OccursAt(s, Open, k)
    requires |t| > 0 && t[0] != '<' && '<' !in t[1..]
    requires |c| > 1 && c[1] != 'c' && '<' !in c[1..]
    ensures forall k :: 0 <= k < |o| + |t| + |c| + 1 ==> !OccursAt(s, Open, k)
  {
    Assoc(o + t, c, "\n");
    Assoc(o + t, c + "\n", tail);
    NoOpenInPiece(s, o, t, c + "\n" + tail);
    Assoc(o + t + c, "\n", tail);
    NoOpenInPiece(s, o + t, c, "\n" + tail);
    NoOpenInPiece(s, o + t + c, "\n", tail);
  }

  lemma Assoc<T>(x: seq<T>, y: seq<T>, z: seq<T>)
    ensures x + y + z == x + (y + z)
  {
  }

  /** No tag opens inside a piece `w` of `s` that starts with a character
    * other than '<', or with a '<' not followed by 'c', and holds no other
    * '<'. */
  lemma NoOpenInPiece(s: string, x: string, w: string, z: string)
    requires s == x + w + z && |w| > 0
    requires w[0] != '<' || (|w| > 1 && w[1] != 'c')
    requires '<' !in w[1..]
    ensures forall k :: |x| <= k < |x| + |w| ==> !OccursAt(s, Open, k)
  {
    var o := |x|;
    PieceAt(s, x, w, z);
    assert s[o] == w[0];
    if |w| > 1 {
      assert s[o + 1] == w[1];
    }
    NotOpenAt(s, o);
    SliceOfSlice(s, o, o + |w|, 1, |w|);
    NoOpenIn(s, o + 1, w[1..]);
  }

  lemma OpeningOpensNoTag(s: string, tail: string)
    requires s == SamplePrefix() + tail
    ensures forall k :: 0 <= k < |CommandOpen| ==> !OccursAt(s, Open, k)
  {
    assert s == CommandOpen + (CommandText + CommandClose + "\n" + tail);
    assert s[..|CommandOpen|] == CommandOpen;
    assert !OccursAt(s, Open, 0) by {
      assert s[9] == 'm' && Open[9] == 'n';
    }
    assert s[1..|CommandOpen|] == CommandOpen[1..];
    NoOpenIn(s, 1, CommandOpen[1..]);
  }
}
