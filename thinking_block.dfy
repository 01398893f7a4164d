/**
 * The thinking block's header: nothing for empty thinking, else the
 * subject when there is one, else a title taken from the text: the words
 * between a leading "**" and the next "**", "Thinking" when that closing
 * marker is missing, or the whole text when it does not start with "**".
 */
module ThinkingBlock {
  import opened Js
  import opened Strings

  /** The title derived from a non-empty thinking text. */
  function TitleOf(thinking: string): (r: string)
    ensures !StartsWith(thinking, "**") ==> r == thinking
    ensures StartsWith(thinking, "**") && IndexOf(thinking, "**", 2) == -1 ==> r == "Thinking"
    ensures StartsWith(thinking, "**") && IndexOf(thinking, "**", 2) >= 0 ==>
      r == thinking[2..IndexOf(thinking, "**", 2)] && forall k :: 2 <= k < |r| + 2 ==> !OccursAt(thinking, "**", k)
  {
    if StartsWith(thinking, "**") then
      var endIndex := IndexOf(thinking, "**", 2);
      if endIndex != -1 then Substring(thinking, 2, endIndex) else "Thinking"
    else thinking
  }

  /** The header shown, or `None` when the block renders nothing; a
    * thinking value that is not a string cannot be asked `startsWith`. */
  function ThinkingHeader(thinking: Prop, subject: Prop): (r: JsResult<Option<Prop>>)
    ensures !Truthy(thinking) ==> r == Ok(None)
    ensures Truthy(thinking) && !IsString(thinking) ==> r.Err?
    ensures Truthy(thinking) && Truthy(subject) ==> r.Ok? ==> r.value == Some(subject)
    ensures Truthy(thinking) && IsString(thinking) && !Truthy(subject) ==> r == Ok(Some(Str(TitleOf(thinking.value.s))))
  {
    if !Truthy(thinking) then Ok(None)
    else if !IsString(thinking) then Err(TypeError)
    else Ok(Some(Or(subject, Str(TitleOf(thinking.value.s)))))
  }

  /** A bold lead-in free of '*' is the title, whatever follows it. */
  lemma BoldTitle(x: string, rest: string)
    requires '*' !in x
    ensures TitleOf("**" + x + "**" + rest) == x
  {
    var t := "**" + x + "**" + rest;
    assert t[..2] == "**";
    assert t[|x| + 2..|x| + 4] == "**";
    assert OccursAt(t, "**", |x| + 2);
    forall k | 2 <= k < |x| + 2 ensures !OccursAt(t, "**", k) {
      assert t[k] == x[k - 2];
    }
    var e := IndexOf(t, "**", 2);
    assert e == |x| + 2;
    assert t[2..e] == x;
  }

  /** An opening "**" with no closing one keeps the default title. */
  lemma UnclosedTitle(x: string)
    requires '*' !in x
    ensures TitleOf("**" + x) == "Thinking"
  {
    var t := "**" + x;
    assert t[..2] == "**";
    forall k | 2 <= k ensures !OccursAt(t, "**", k) {
      assert k + 2 <= |t| ==> t[k] == x[k - 2];
    }
  }
}
