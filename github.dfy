/**
 * The gist helpers: the thread file of a gist is its first file whose
 * name starts with "athrd-", and a user's gist list keeps the gists with
 * such a file. Network responses are inputs; any failure yields the empty
 * result instead of an exception.
 */
module GitHub {
  import opened Js
  import opened Strings
  import opened Folds

  const ThreadFilePrefix := "athrd-"

  /** `file.filename.startsWith("athrd-")`: throws when the file has no
    * string name. */
  function IsThreadFile(file: JValue): (r: JsResult<bool>)
    ensures r.Ok? <==> IsString(Get(file, "filename")) && !file.JNull?
    ensures r == Ok(true) <==> IsString(Get(file, "filename")) && StartsWith(Get(file, "filename").value.s, ThreadFilePrefix)
  {
    var name :- Member(Some(file), "filename");
    if IsString(name) then Ok(StartsWith(name.value.s, ThreadFilePrefix)) else Err(TypeError)
  }

  /** `files.find(isThreadFile)`: the first match; the search stops at the
    * first file that throws. */
  function Find(files: seq<JValue>): (r: JsResult<Option<JValue>>)
    ensures r.Ok? && r.value.Some? ==> r.value.value in files && IsThreadFile(r.value.value) == Ok(true)
    ensures r == Ok(None) <==> forall i :: 0 <= i < |files| ==> IsThreadFile(files[i]) == Ok(false)
  {
    if |files| == 0 then Ok(None)
    else
      var hit :- IsThreadFile(files[0]);
      if hit then Ok(Some(files[0]))
      else
        assert forall i :: 1 <= i < |files| ==> files[i] == files[1..][i - 1];
        Find(files[1..])
  }

  /** None of the files before index `i` is a thread file, and none throws. */
  predicate NoneBefore(files: seq<JValue>, i: int)
    requires 0 <= i <= |files|
  {
    forall j :: 0 <= j < i ==> IsThreadFile(files[j]) == Ok(false)
  }

  lemma NoneBeforeTail(files: seq<JValue>, k: int)
    requires 0 < |files| && 0 <= k < |files| && IsThreadFile(files[0]) == Ok(false)
    requires NoneBefore(files[1..], k)
    ensures NoneBefore(files, k + 1)
  {
    assert forall j :: 1 <= j < k + 1 ==> files[j] == files[1..][j - 1];
  }

  /** The file found is the first that is a thread file, and every file
    * before it was looked at without throwing; an error comes from the
    * first file that throws. */
  lemma {:induction false} FindFirst(files: seq<JValue>)
    ensures Find(files).Ok? && Find(files).value.Some? ==>
      (exists i :: 0 <= i < |files| && files[i] == Find(files).value.value && IsThreadFile(files[i]) == Ok(true) && NoneBefore(files, i))
    ensures Find(files).Err? ==>
      (exists i :: 0 <= i < |files| && IsThreadFile(files[i]).Err? && NoneBefore(files, i))
  {
    if |files| > 0 && IsThreadFile(files[0]) == Ok(false) {
      var rest := files[1..];
      FindFirst(rest);
      assert Find(files) == Find(rest);
      if Find(rest).Ok? && Find(rest).value.Some? {
        var k :| 0 <= k < |rest| && rest[k] == Find(rest).value.value && IsThreadFile(rest[k]) == Ok(true) && NoneBefore(rest, k);
        NoneBeforeTail(files, k);
        assert files[k + 1] == rest[k];
      } else if Find(rest).Err? {
        var k :| 0 <= k < |rest| && IsThreadFile(rest[k]).Err? && NoneBefore(rest, k);
        NoneBeforeTail(files, k);
        assert files[k + 1] == rest[k];
      }
    } else if |files| > 0 {
      assert NoneBefore(files, 0);
    }
  }

  /** `findAthrdFile(gist)`: reading `gist.files` of `null` or
    * `Object.values` of a missing `files` throws. */
  function FindThreadFile(gist: JValue): (r: JsResult<Option<JValue>>)
    ensures Nullish(Get(gist, "files")) ==> r.Err?
    ensures !Nullish(Get(gist, "files")) && !gist.JNull? ==> r == Find(ObjectValues(Get(gist, "files").value))
  {
    var files :- Member(Some(gist), "files");
    if Nullish(files) then Err(TypeError) else Find(ObjectValues(files.value))
  }

  /** What `fetchGist` returns: nothing, or the gist with its thread file. */
  datatype GistResult = NoGist | GistFound(gist: JValue, file: JValue)

  /** `fetchGist`: a failed response, a gist without a thread file or any
    * exception gives `{}`; a truncated file's content is replaced by the
    * text `fetchRaw` downloads from its `raw_url` (`None` when that
    * request fails). */
  function FetchGistOf(ok: bool, json: JValue, fetchRaw: Prop -> Option<string>): (r: GistResult)
    ensures !ok ==> r == NoGist
    ensures ok && FindThreadFile(json) != Ok(None) && FindThreadFile(json).Ok? && !IsTruncated(FindThreadFile(json).value.value) ==>
      r == GistFound(json, FindThreadFile(json).value.value)
    ensures r.GistFound? ==> ok && FindThreadFile(json).Ok? && FindThreadFile(json).value.Some? && r.gist == json
    ensures r.GistFound? ==> forall k :: k != "content" ==> Get(r.file, k) == Get(FindThreadFile(json).value.value, k)
    ensures r.GistFound? && IsTruncated(FindThreadFile(json).value.value) ==>
      exists full :: Get(r.file, "content") == Some(JStr(full)) && Some(full) == fetchRaw(Get(FindThreadFile(json).value.value, "raw_url"))
    ensures ok && FindThreadFile(json).Ok? && FindThreadFile(json).value.Some? && IsTruncated(FindThreadFile(json).value.value) ==>
      (r.GistFound? <==> fetchRaw(Get(FindThreadFile(json).value.value, "raw_url")).Some?)
  {
    if !ok then NoGist
    else
      match FindThreadFile(json)
      case Err(_) => NoGist
      case Ok(None) => NoGist
      case Ok(Some(file)) =>
        if !IsTruncated(file) then GistFound(json, file)
        else
          match fetchRaw(Get(file, "raw_url"))
          case None => NoGist
          case Some(full) => GistFound(json, JObj(SetField(file.fields, "content", JStr(full))))
  }

  /** `file.truncated === true` */
  predicate IsTruncated(file: JValue)
  {
    Get(file, "truncated") == Some(JBool(true))
  }

  /** `Object.keys(gist.files).some(key => key.startsWith("athrd-"))` */
  function HasThreadKey(gist: JValue): (r: JsResult<bool>)
    ensures r.Err? <==> gist.JNull? || Nullish(Get(gist, "files"))
    ensures r.Ok? ==> (r.value <==> exists k :: k in ObjectKeys(Get(gist, "files").value) && StartsWith(k, ThreadFilePrefix))
  {
    var files :- Member(Some(gist), "files");
    if Nullish(files) then Err(TypeError) else Ok(AnyThreadKey(ObjectKeys(files.value)))
  }

  function AnyThreadKey(keys: seq<string>): (r: bool)
    ensures r <==> exists k :: k in keys && StartsWith(k, ThreadFilePrefix)
  {
    if |keys| == 0 then false
    else
      assert forall k :: k in keys <==> k == keys[0] || k in keys[1..];
      StartsWith(keys[0], ThreadFilePrefix) || AnyThreadKey(keys[1..])
  }

  /** `gists.filter(hasThreadKey)`: the kept gists in order; the first gist
    * that throws makes the filter throw. */
  function KeepThreadGists(gists: seq<JValue>): (r: JsResult<seq<JValue>>)
    ensures r.Ok? <==> forall i :: 0 <= i < |gists| ==> HasThreadKey(gists[i]).Ok?
    ensures r.Ok? ==> forall g :: g in r.value <==> g in gists && HasThreadKey(g) == Ok(true)
    ensures r.Ok? ==> |r.value| <= |gists|
    decreases |gists|
  {
    if |gists| == 0 then Ok([])
    else
      var n := |gists| - 1;
      assert forall i :: 0 <= i < n ==> gists[..n][i] == gists[i];
      assert gists == gists[..n] + [gists[n]];
      var kept :- KeepThreadGists(gists[..n]);
      var keep :- HasThreadKey(gists[n]);
      Ok(if keep then kept + [gists[n]] else kept)
  }

  /** The filter's choice for one gist: kept exactly when its thread-key
    * test says true. */
  function KeptOf(g: JValue): Option<JValue>
  {
    if HasThreadKey(g) == Ok(true) then Some(g) else None
  }

  /** The filter keeps exactly the gists whose test is true, each once, in
    * list order. */
  lemma {:induction false} KeepChosen(gists: seq<JValue>)
    requires KeepThreadGists(gists).Ok?
    ensures KeepThreadGists(gists).value == Choose(KeptOf, gists)
    decreases |gists|
  {
    if |gists| > 0 {
      var n := |gists| - 1;
      assert forall i :: 0 <= i < n ==> gists[..n][i] == gists[i];
      KeepChosen(gists[..n]);
    }
  }

  /** `fetchUserGists`: the gists with a thread file, or nothing when the
    * response failed, is not a list, or a gist cannot be read. */
  function UserGistsOf(ok: bool, json: JValue): (r: seq<JValue>)
    ensures !ok || !json.JArr? ==> r == []
    ensures ok && json.JArr? && KeepThreadGists(json.items).Ok? ==> r == KeepThreadGists(json.items).value
    ensures ok && json.JArr? && KeepThreadGists(json.items).Err? ==> r == []
    ensures forall g :: g in r ==> HasThreadKey(g) == Ok(true)
  {
    if !ok || !json.JArr? then []
    else
      match KeepThreadGists(json.items)
      case Err(_) => []
      case Ok(kept) => kept
  }

  /** The kept gists keep their relative order: they are the filter's
    * choice of the list, element by element. */
  lemma {:induction false} KeptInOrder(gists: seq<JValue>, k: nat)
    requires k <= |gists| && KeepThreadGists(gists).Ok?
    ensures KeepThreadGists(gists[..k]).Ok? && KeepThreadGists(gists[..k]).value <= KeepThreadGists(gists).value
    decreases |gists| - k
  {
    if k < |gists| {
      KeptInOrder(gists, k + 1);
      KeptDropLast(gists[..k + 1]);
      assert gists[..k + 1][..k] == gists[..k];
    } else {
      assert gists[..k] == gists;
    }
  }

  /** Dropping the last gist keeps a prefix of what was kept. */
  lemma KeptDropLast(gists: seq<JValue>)
    requires |gists| > 0 && KeepThreadGists(gists).Ok?
    ensures var n := |gists| - 1;
      KeepThreadGists(gists[..n]).Ok? && KeepThreadGists(gists[..n]).value <= KeepThreadGists(gists).value
  {
  }
}
