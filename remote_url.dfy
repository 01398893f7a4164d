/**
 * The repository shown by the `me` command: the trimmed URL of the `origin`
 * remote, or `owner/repo` when the URL holds a match of the pattern
 * `github\.com[:/]([^/]+)\/([^.]+)`. The pattern is modelled by the
 * leftmost-match search a backtracking matcher performs on it.
 */
module RemoteUrl {
  import opened Js
  import opened Strings

  const Host := "github.com"

  /** The end of the run of characters other than `stop` that starts at
    * `from`: the next `stop`, or the end of the text. */
  function RunEnd(s: string, from: nat, stop: char): (r: nat)
    requires from <= |s|
    ensures from <= r <= |s|
    ensures forall i :: from <= i < r ==> s[i] != stop
    ensures r < |s| ==> s[r] == stop
    decreases |s| - from
  {
    if from == |s| || s[from] == stop then from else RunEnd(s, from + 1, stop)
  }

  /** The pattern matched at position `k`. The greedy `[^/]+` takes the
    * whole run before the next '/', and must be followed by that '/'
    * (giving any of it back only puts a non-'/' where '/' is needed); the
    * greedy `[^.]+` takes the whole run before the next '.', and needs at
    * least one character. */
  function MatchAt(s: string, k: nat): Option<(string, string)>
  {
    if k + 11 <= |s| && OccursAt(s, Host, k) && (s[k + 10] == ':' || s[k + 10] == '/') then
      var a := k + 11;
      var e1 := RunEnd(s, a, '/');
      if a < e1 < |s| then
        var b := e1 + 1;
        var e2 := RunEnd(s, b, '.');
        if b < e2 then Some((s[a..e1], s[b..e2]))
        else None
      else None
    else None
  }

  /** A match at `k` follows the host and ':' or '/' there: a non-empty
    * owner free of '/', then '/', then a non-empty repository free of '.'
    * that ends at a '.' or at the end of the text. */
  lemma MatchAtShape(s: string, k: nat)
    requires MatchAt(s, k).Some?
    ensures var r := MatchAt(s, k).value;
      k + 11 <= |s| && OccursAt(s, Host, k) && (s[k + 10] == ':' || s[k + 10] == '/') &&
      r.0 != "" && '/' !in r.0 && r.1 != "" && '.' !in r.1 &&
      OccursAt(s, r.0 + "/" + r.1, k + 11) &&
      (k + 12 + |r.0| + |r.1| == |s| || s[k + 12 + |r.0| + |r.1|] == '.')
  {
    var a := k + 11;
    var e1 := RunEnd(s, a, '/');
    var b := e1 + 1;
    var e2 := RunEnd(s, b, '.');
    var owner, repo := s[a..e1], s[b..e2];
    assert s[e1..b] == "/";
    SliceJoin(s, a, e1, b);
    SliceJoin(s, a, b, e2);
    assert s[a..e2] == owner + "/" + repo;
  }

  /** The pattern tried at every position of `s`. */
  function Matches(s: string): nat -> Option<(string, string)>
  {
    (i: nat) => MatchAt(s, i)
  }

  /** `String.prototype.match`: the match at the leftmost position that
    * matches. */
  function FirstMatch(s: string): Option<(string, string)>
  {
    Leftmost(Matches(s), 0, |s|)
  }

  /** The match found is the leftmost one, and there is none exactly when
    * no position matches. */
  lemma FirstMatchLeftmost(s: string)
    ensures FirstMatch(s).Some? ==>
      exists i :: 0 <= i <= |s| && MatchAt(s, i) == FirstMatch(s) && forall j :: 0 <= j < i ==> MatchAt(s, j).None?
    ensures FirstMatch(s).None? <==> forall i :: 0 <= i <= |s| ==> MatchAt(s, i).None?
  {
    var m := Matches(s);
    LeftmostFirst(m, 0, |s|);
    assert forall i: nat :: m(i) == MatchAt(s, i);
  }

  /** Lines 40-44: `owner/repo` from the match, else the URL unchanged. */
  function ParseRemote(remoteUrl: string): (r: string)
    ensures FirstMatch(remoteUrl).None? ==> r == remoteUrl
    ensures FirstMatch(remoteUrl).Some? ==> r == FirstMatch(remoteUrl).value.0 + "/" + FirstMatch(remoteUrl).value.1
  {
    match FirstMatch(remoteUrl)
    case Some((owner, repo)) => owner + "/" + repo
    case None => remoteUrl
  }

  /** The repository shown for the output of `git remote get-url origin`. */
  function RepoInfo(stdout: string): (r: string)
    ensures FirstMatch(Trim(stdout)).None? ==> r == Trim(stdout)
  {
    ParseRemote(Trim(stdout))
  }

  /** A URL without the host name is shown as it is. */
  lemma NoHostUnchanged(remoteUrl: string)
    requires forall k :: 0 <= k <= |remoteUrl| ==> !OccursAt(remoteUrl, Host, k)
    ensures ParseRemote(remoteUrl) == remoteUrl
  {
    FirstMatchLeftmost(remoteUrl);
  }

  /** Whatever is shown after a match is an owner without '/' and a
    * repository name without '.', found in the URL right after the host
    * and its separator. */
  lemma MatchShape(remoteUrl: string)
    requires FirstMatch(remoteUrl).Some?
    ensures exists owner: string, repo: string, k: nat ::
      ParseRemote(remoteUrl) == owner + "/" + repo && owner != "" && '/' !in owner && repo != "" && '.' !in repo &&
      k + 11 <= |remoteUrl| && OccursAt(remoteUrl, Host, k) && OccursAt(remoteUrl, owner + "/" + repo, k + 11)
  {
    var g := FirstMatch(remoteUrl).value;
    FirstMatchLeftmost(remoteUrl);
    var k :| 0 <= k <= |remoteUrl| && MatchAt(remoteUrl, k) == Some(g);
    MatchAtShape(remoteUrl, k);
    assert ParseRemote(remoteUrl) == g.0 + "/" + g.1;
  }

  /** The run of characters other than `stop` from `from` ends at `e`. */
  lemma RunEndAt(s: string, from: nat, e: nat, stop: char)
    requires from <= e <= |s|
    requires forall i :: from <= i < e ==> s[i] != stop
    requires e < |s| ==> s[e] == stop
    ensures RunEnd(s, from, stop) == e
    decreases e - from
  {
    if from < e {
      RunEndAt(s, from + 1, e, stop);
    }
  }

  /** The pattern at `k` captures `owner` and `repo` when they follow the
    * host and a separator, and `repo` is followed by '.' or the end. */
  lemma MatchOf(s: string, k: nat, owner: string, repo: string)
    requires owner != "" && '/' !in owner && repo != "" && '.' !in repo
    requires k + 11 <= |s| && OccursAt(s, Host, k) && (s[k + 10] == ':' || s[k + 10] == '/')
    requires OccursAt(s, owner + "/" + repo, k + 11)
    requires k + 12 + |owner| + |repo| == |s| || s[k + 12 + |owner| + |repo|] == '.'
    ensures MatchAt(s, k) == Some((owner, repo))
  {
    var a := k + 11;
    var e1 := a + |owner|;
    var b := e1 + 1;
    var e2 := b + |repo|;
    var t := owner + "/" + repo;
    assert s[a..e2] == t;
    OwnerSlashRepo(owner, repo);
    SliceOfSlice(s, a, e2, 0, |owner|);
    SliceOfSlice(s, a, e2, |owner| + 1, |t|);
    assert s[a..e1] == owner;
    assert s[b..e2] == repo;
    assert s[e1] == t[|owner|];
    NotInSlice(s, a, e1, owner, '/');
    RunEndAt(s, a, e1, '/');
    NotInSlice(s, b, e2, repo, '.');
    RunEndAt(s, b, e2, '.');
  }

  lemma OwnerSlashRepo(owner: string, repo: string)
    ensures var t := owner + "/" + repo;
      t[..|owner|] == owner && t[|owner|] == '/' && t[|owner| + 1..] == repo
  {
  }

  /** The first match is at `k` when there is none before it. */
  lemma FirstMatchAt(s: string, k: nat)
    requires k <= |s| && MatchAt(s, k).Some?
    requires forall j :: 0 <= j < k ==> MatchAt(s, j).None?
    ensures FirstMatch(s) == MatchAt(s, k)
  {
    LeftmostAt(Matches(s), k, 0, |s|);
  }

  lemma HttpsPrefix(u: string)
    requires StartsWith(u, "https://")
    ensures forall j :: 0 <= j < 8 ==> !OccursAt(u, Host, j)
  {
    forall j | 0 <= j < 8 ensures !OccursAt(u, Host, j) {
      assert u[j] == "https://"[j];
    }
  }

  lemma SshPrefix(u: string)
    requires StartsWith(u, "git@github.com:")
    ensures forall j :: 0 <= j < 4 ==> !OccursAt(u, Host, j)
  {
    forall j | 0 <= j < 4 ensures !OccursAt(u, Host, j) {
      assert u[..15] == "git@github.com:";
      assert u[j] != 'g' || u[j + 3] != 'h';
    }
  }

  /** `https://github.com/owner/repo.git` and the like give `owner/repo`:
    * the repository name ends at its first '.'. */
  lemma HttpsRemote(owner: string, repo: string, rest: string)
    requires owner != "" && '/' !in owner && repo != "" && '.' !in repo
    requires rest == "" || rest[0] == '.'
    ensures ParseRemote("https://github.com/" + owner + "/" + repo + rest) == owner + "/" + repo
  {
    var u := "https://github.com/" + owner + "/" + repo + rest;
    assert u[..8] == "https://";
    assert u[8..18] == Host;
    assert u[18] == '/';
    assert u[19..19 + |owner| + 1 + |repo|] == owner + "/" + repo;
    MatchOf(u, 8, owner, repo);
    HttpsPrefix(u);
    FirstMatchAt(u, 8);
  }

  /** `git@github.com:owner/repo.git` gives `owner/repo` too: ':' is accepted
    * after the host as well as '/'. */
  lemma SshRemote(owner: string, repo: string, rest: string)
    requires owner != "" && '/' !in owner && repo != "" && '.' !in repo
    requires rest == "" || rest[0] == '.'
    ensures ParseRemote("git@github.com:" + owner + "/" + repo + rest) == owner + "/" + repo
  {
    var u := "git@github.com:" + owner + "/" + repo + rest;
    assert u[..15] == "git@github.com:";
    assert u[4..14] == Host;
    assert u[14] == ':';
    assert u[15..15 + |owner| + 1 + |repo|] == owner + "/" + repo;
    MatchOf(u, 4, owner, repo);
    SshPrefix(u);
    FirstMatchAt(u, 4);
  }

  /** The trailing newline `git` prints is trimmed before matching. */
  lemma HttpsOutput(owner: string, repo: string)
    requires owner != "" && '/' !in owner && repo != "" && '.' !in repo
    ensures RepoInfo("https://github.com/" + owner + "/" + repo + ".git\n") == owner + "/" + repo
  {
    var u := "https://github.com/" + owner + "/" + repo + ".git";
    assert "https://github.com/" + owner + "/" + repo + ".git\n" == u + "\n";
    TrimSpaceSuffix(u, "\n");
    HttpsRemote(owner, repo, ".git");
  }
}
