/**
 * The thread page's header data: which IDE recorded the thread (from its
 * `__athrd` metadata), the GitHub repository it names, and the distinct
 * models its requests or messages used; or the error view when parsing or
 * reading the content throws.
 */
module ThreadView {
  import opened Js
  import opened Folds

  datatype Ide = VSCode | Claude | Gemini | Codex

  datatype Header = Header(ide: Ide, repoName: Prop, repoUrl: Option<string>, modelsUsed: seq<Prop>)

  datatype View = ThreadShown(header: Header, content: JValue) | ErrorShown(error: JsError)

  /** `content?.__athrd?.ide` */
  function IdeField(content: JValue): Prop
  {
    OptGet(Get(content, "__athrd"), "ide")
  }

  /** The IDE: VS Code unless the metadata names another one; each later
    * test overrides an earlier one. `tag` gives the enum's string values. */
  function IdeOf(tag: Ide -> string, content: JValue): (r: Ide)
    ensures var v := IdeField(content);
      (r == Codex <==> v == Str(tag(Codex))) &&
      (r == Gemini <==> v == Str(tag(Gemini)) && v != Str(tag(Codex))) &&
      (r == Claude <==> v == Str(tag(Claude)) && v != Str(tag(Gemini)) && v != Str(tag(Codex))) &&
      (r == VSCode <==> v != Str(tag(Claude)) && v != Str(tag(Gemini)) && v != Str(tag(Codex)))
  {
    var v := IdeField(content);
    if StrictEquals(v, Str(tag(Codex))) then Codex
    else if StrictEquals(v, Str(tag(Gemini))) then Gemini
    else if StrictEquals(v, Str(tag(Claude))) then Claude
    else VSCode
  }

  /** The repository link shown for a truthy `githubRepo`. */
  function RepoUrl(repoName: Prop): (r: Option<string>)
    ensures r.Some? <==> Truthy(repoName)
    ensures r.Some? ==> r.value == "https://github.com/" + ToStr(repoName)
  {
    if Truthy(repoName) then Some("https://github.com/" + ToStr(repoName)) else None
  }

  /** The list the IDE's models are read from; VS Code and Codex read it
    * unconditionally, Claude and Gemini only when it is truthy. */
  function ItemsFor(ide: Ide, content: JValue): (r: JsResult<seq<JValue>>)
    ensures content.JNull? ==> r.Err?
    ensures ((ide == Claude || ide == Gemini) && !content.JNull? &&
             !Truthy(Get(content, if ide == Claude then "requests" else "messages"))) ==> r == Ok([])
    ensures ide == VSCode && !content.JNull? ==>
      r == Elements(Get(content, "requests"))
    ensures ide == Codex && !content.JNull? ==>
      r == Elements(Get(content, "messages"))
    ensures ide == Claude && Truthy(Get(content, "requests")) ==>
      r == Elements(Get(content, "requests"))
    ensures ide == Gemini && Truthy(Get(content, "messages")) ==>
      r == Elements(Get(content, "messages"))
  {
    var key := if ide == VSCode || ide == Claude then "requests" else "messages";
    var list :- Member(Some(content), key);
    if (ide == Claude || ide == Gemini) && !Truthy(list) then Ok([])
    else Elements(list)
  }

  /** The model one request or message contributes, if any. */
  function PickOf(ide: Ide): JValue -> JsResult<Option<Prop>>
  {
    (item: JValue) =>
      match ide
      case VSCode =>
        var model :- Member(Some(item), "modelId");
        Ok(Some(model))
      case Claude =>
        var message :- Member(Some(item), "message");
        var model :- Member(message, "model");
        Ok(Some(model))
      case Gemini =>
        var has :- In("model", Some(item));
        Ok(if has then Some(Get(item, "model")) else None)
      case Codex =>
        var kind :- Member(Some(item), "type");
        if !StrictEquals(kind, Str("turn_context")) then Ok(None)
        else
          var model :- Member(Get(item, "payload"), "model");
          Ok(Some(model))
  }

  /** A `Set` already holds `x`: primitives compare by value, while every
    * parsed object or array is a distinct reference. */
  predicate Seen(d: seq<Prop>, x: Prop)
  {
    x in d && Primitive(x)
  }

  predicate Primitive(x: Prop)
  {
    x.None? || !(x.value.JArr? || x.value.JObj?)
  }

  /** `Array.from(new Set(xs))`: the distinct values in first-occurrence order. */
  function Distinct(xs: seq<Prop>): seq<Prop>
    decreases |xs|
  {
    if |xs| == 0 then []
    else
      var d := Distinct(xs[..|xs| - 1]);
      if Seen(d, xs[|xs| - 1]) then d else d + [xs[|xs| - 1]]
  }

  function Identity(o: Option<Prop>): Option<Prop>
  {
    o
  }

  /** The models used: the picks of all items, distinct. */
  function ModelsUsed(ide: Ide, content: JValue): JsResult<seq<Prop>>
  {
    var items :- ItemsFor(ide, content);
    var picks :- MapResult(PickOf(ide), items);
    Ok(Distinct(Choose(Identity, picks)))
  }

  /** What the page shows for a gist file's content; empty content is
    * parsed as `{}`. */
  function ThreadViewOf(parse: Parser, tag: Ide -> string, fileContent: string): View
  {
    match parse(if fileContent == "" then "{}" else fileContent)
    case None => ErrorShown(SyntaxError)
    case Some(content) =>
      var ide := IdeOf(tag, content);
      var repoName := OptGet(Get(content, "__athrd"), "githubRepo");
      var repo := if Truthy(repoName) then repoName else None;
      match ModelsUsed(ide, content)
      case Err(e) => ErrorShown(e)
      case Ok(models) => ThreadShown(Header(ide, repo, RepoUrl(repo), models), content)
  }

  /** The page's `try` block: the IDE and repository reassigned as the
    * metadata is read, then the models collected. */
  method ViewThread(parse: Parser, tag: Ide -> string, fileContent: string) returns (v: View)
    ensures v == ThreadViewOf(parse, tag, fileContent)
  {
    var parsed := parse(if fileContent == "" then "{}" else fileContent);
    if parsed.None? {
      return ErrorShown(SyntaxError);
    }
    var content := parsed.value;
    var ide := VSCode;
    if StrictEquals(IdeField(content), Str(tag(Claude))) { ide := Claude; }
    if StrictEquals(IdeField(content), Str(tag(Gemini))) { ide := Gemini; }
    if StrictEquals(IdeField(content), Str(tag(Codex))) { ide := Codex; }
    var repoName: Prop := None;
    if Truthy(OptGet(Get(content, "__athrd"), "githubRepo")) {
      repoName := OptGet(Get(content, "__athrd"), "githubRepo");
    }
    var items := ItemsFor(ide, content);
    if items.Err? {
      return ErrorShown(items.error);
    }
    var models := CollectModels(ide, items.value);
    if models.Err? {
      return ErrorShown(models.error);
    }
    v := ThreadShown(Header(ide, repoName, RepoUrl(repoName), models.value), content);
  }

  /** The `forEach` that adds each item's model to the set. */
  method CollectModels(ide: Ide, items: seq<JValue>) returns (r: JsResult<seq<Prop>>)
    ensures r == (var picks :- MapResult(PickOf(ide), items); Ok(Distinct(Choose(Identity, picks))))
  {
    var models: seq<Prop> := [];
    var i := 0;
    while i < |items|
      invariant 0 <= i <= |items|
      invariant MapResult(PickOf(ide), items[..i]).Ok?
      invariant models == Distinct(Choose(Identity, MapResult(PickOf(ide), items[..i]).value))
    {
      var pick := PickOf(ide)(items[i]);
      if pick.Err? {
        MapResultStep(PickOf(ide), items, i);
        MapResultErrPrefix(PickOf(ide), items, i + 1);
        return Err(pick.error);
      }
      CollectStep(PickOf(ide), items, i);
      if pick.value.Some? && !Seen(models, pick.value.value) {
        models := models + [pick.value.value];
      }
      i := i + 1;
    }
    assert items[..i] == items;
    r := Ok(models);
  }

  /** One more item read: its pick, if any, joins the models unless seen. */
  lemma CollectStep(pickOf: JValue -> JsResult<Option<Prop>>, items: seq<JValue>, i: nat)
    requires i < |items| && MapResult(pickOf, items[..i]).Ok? && pickOf(items[i]).Ok?
    ensures MapResult(pickOf, items[..i + 1]).Ok?
    ensures var pick := pickOf(items[i]).value;
      var d := Distinct(Choose(Identity, MapResult(pickOf, items[..i]).value));
      Distinct(Choose(Identity, MapResult(pickOf, items[..i + 1]).value)) ==
        if pick.Some? && !Seen(d, pick.value) then d + [pick.value] else d
  {
    MapResultStep(pickOf, items, i);
    var pick := pickOf(items[i]).value;
    var before := MapResult(pickOf, items[..i]).value;
    var after := before + [pick];
    assert MapResult(pickOf, items[..i + 1]).value == after;
    assert after[..|after| - 1] == before;
    var chosen := Choose(Identity, after);
    if pick.Some? {
      assert chosen == Choose(Identity, before) + [pick.value];
      assert chosen[..|chosen| - 1] == Choose(Identity, before);
    } else {
      assert chosen == Choose(Identity, before);
    }
  }

  // ----- The distinct models -----

  /** A value is among the distinct ones exactly when it occurs. */
  lemma {:induction false} DistinctMembers(xs: seq<Prop>, x: Prop)
    ensures x in Distinct(xs) <==> x in xs
    decreases |xs|
  {
    if |xs| > 0 {
      var n := |xs| - 1;
      DistinctMembers(xs[..n], x);
      assert xs == xs[..n] + [xs[n]];
    }
  }

  /** No two entries are the same primitive value. */
  lemma {:induction false} DistinctUnique(xs: seq<Prop>)
    ensures forall i, j :: 0 <= i < j < |Distinct(xs)| && Primitive(Distinct(xs)[j]) ==> Distinct(xs)[i] != Distinct(xs)[j]
    decreases |xs|
  {
    if |xs| > 0 {
      var n := |xs| - 1;
      DistinctUnique(xs[..n]);
      var d := Distinct(xs[..n]);
      if !Seen(d, xs[n]) {
        var e := d + [xs[n]];
        forall i, j | 0 <= i < j < |e| && Primitive(e[j]) ensures e[i] != e[j] {
          if j == |d| {
            assert e[i] == d[i] && e[j] == xs[n];
            assert d[i] in d;
            if e[i] == e[j] {
              assert Seen(d, xs[n]);
            }
          } else {
            assert e[i] == d[i] && e[j] == d[j];
          }
        }
        assert Distinct(xs) == e;
      }
    }
  }

  /** Seeing more items only appends: the models of a prefix come first,
    * in the same order, which is first-occurrence order. */
  lemma {:induction false} DistinctPrefix(xs: seq<Prop>, k: nat)
    requires k <= |xs|
    ensures Distinct(xs[..k]) <= Distinct(xs)
    decreases |xs| - k
  {
    if k < |xs| {
      DistinctPrefix(xs, k + 1);
      assert xs[..k + 1][..k] == xs[..k];
    } else {
      assert xs[..k] == xs;
    }
  }

  /** On a parsed thread, the page shows the thread exactly when the list
    * its IDE reads can be read and no item throws. */
  lemma ViewShown(parse: Parser, tag: Ide -> string, fileContent: string)
    requires parse(if fileContent == "" then "{}" else fileContent).Some?
    ensures var content := parse(if fileContent == "" then "{}" else fileContent).value;
      var ide := IdeOf(tag, content);
      (ThreadViewOf(parse, tag, fileContent).ThreadShown? <==>
        ItemsFor(ide, content).Ok? && forall i :: 0 <= i < |ItemsFor(ide, content).value| ==> PickOf(ide)(ItemsFor(ide, content).value[i]).Ok?) &&
      (ThreadViewOf(parse, tag, fileContent).ThreadShown? ==>
        ThreadViewOf(parse, tag, fileContent).header.ide == ide)
  {
  }
}
