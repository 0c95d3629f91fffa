/** `AgentLoop._strip_think` (nanobot/agent/loop.py): removal of
    `<think>…</think>` blocks with the semantics of `re.sub` on the lazy
    pattern `<think>[\s\S]*?</think>`, then trimming. */
module Think {
  import opened Common

  const Open: string := "<think>"
  const Close: string := "</think>"

  /** The left-to-right scan of `re.sub` from index `i`: where an opening tag
      starts and a closing tag follows it, the shortest such block is
      dropped and scanning resumes after it; otherwise the character is
      kept. */
  function RemoveFrom(s: string, i: nat): (r: string)
    ensures i <= |s| ==> |r| <= |s| - i
    decreases |s| - i
  {
    if i >= |s| then []
    else if !OccursAt(s, Open, i) then [s[i]] + RemoveFrom(s, i + 1)
    else match FindFrom(s, Close, i + |Open|)
      case Some(c) => RemoveFrom(s, c + |Close|)
      case None => [s[i]] + RemoveFrom(s, i + 1)
  }

  function RemoveBlocks(s: string): (r: string)
    ensures |r| <= |s|
  {
    RemoveFrom(s, 0)
  }

  /** `_strip_think(text)`: `None` for a missing or empty input and for a
      text that is blank once the blocks are gone; otherwise the trimmed
      remainder. */
  function StripThink(text: Option<string>): (r: Option<string>)
    ensures r.Some? ==> text.Some? && r.value != "" && r.value == Strip(RemoveBlocks(text.value))
  {
    if text.None? || text.value == "" then None
    else
      var t := Strip(RemoveBlocks(text.value));
      if t == "" then None else Some(t)
  }

  /** When `_strip_think` answers nothing, and that a present answer has no
      surrounding space. */
  lemma StripThinkSpec(text: Option<string>)
    ensures StripThink(text).None? <==> text.None? || text.value == "" || Blank(RemoveBlocks(text.value))
    ensures StripThink(text).Some? ==>
      !IsSpace(StripThink(text).value[0]) && !IsSpace(StripThink(text).value[|StripThink(text).value| - 1])
  {
    if text.Some? {
      StripEmptyIffBlank(RemoveBlocks(text.value));
    }
  }

  /** Where no opening tag starts at or after `i`, the scan copies the rest. */
  lemma {:induction false} NoOpenUnchanged(s: string, i: nat)
    requires i <= |s|
    requires forall k: nat :: i <= k ==> !OccursAt(s, Open, k)
    ensures RemoveFrom(s, i) == s[i..]
    decreases |s| - i
  {
    if i < |s| {
      NoOpenUnchanged(s, i + 1);
      assert s[i..] == [s[i]] + s[i + 1..];
    }
  }

  /** A text with no opening tag passes through unchanged. */
  lemma TagFreeUnchanged(s: string)
    requires forall k: nat :: !OccursAt(s, Open, k)
    ensures RemoveBlocks(s) == s
  {
    NoOpenUnchanged(s, 0);
  }

  /** An opening tag with no closing tag after it is left as it is, and so is
      everything after it: unbalanced input is not modified. */
  lemma {:induction false} UnclosedUnchanged(s: string, i: nat)
    requires i <= |s|
    requires forall k: nat :: i <= k && OccursAt(s, Open, k) ==> FindFrom(s, Close, k + |Open|).None?
    ensures RemoveFrom(s, i) == s[i..]
    decreases |s| - i
  {
    if i < |s| {
      UnclosedUnchanged(s, i + 1);
      assert s[i..] == [s[i]] + s[i + 1..];
    }
  }

  /** The first block is cut out: text before the first opening tag is kept,
      the block up to the first closing tag after it disappears, and the
      scan resumes right after that closing tag. */
  lemma FirstBlockRemoved(s: string, i: nat, o: nat, c: nat)
    requires i <= o
    requires forall k: nat :: i <= k < o ==> !OccursAt(s, Open, k)
    requires OccursAt(s, Open, o)
    requires FindFrom(s, Close, o + |Open|) == Some(c)
    ensures RemoveFrom(s, i) == s[i..o] + RemoveFrom(s, c + |Close|)
  {
    KeepsUntil(s, i, o);
    RemoveFromSkips(s, o, c);
  }

  /** Up to the next opening tag, the scan copies the text. */
  lemma {:induction false} KeepsUntil(s: string, i: nat, o: nat)
    requires i <= o <= |s|
    requires forall k: nat :: i <= k < o ==> !OccursAt(s, Open, k)
    ensures RemoveFrom(s, i) == s[i..o] + RemoveFrom(s, o)
    decreases o - i
  {
    if i < o {
      RemoveFromKeeps(s, i);
      KeepsUntil(s, i + 1, o);
      ConsSlice(s, i, o, RemoveFrom(s, o));
    }
  }

  lemma ConsSlice(s: string, i: nat, o: nat, rest: string)
    requires i < o <= |s|
    ensures [s[i]] + (s[i + 1..o] + rest) == s[i..o] + rest
  {
    assert s[i..o] == [s[i]] + s[i + 1..o];
  }

  /** The scan keeps a character where no opening tag starts. */
  lemma RemoveFromKeeps(s: string, i: nat)
    requires i < |s| && !OccursAt(s, Open, i)
    ensures RemoveFrom(s, i) == [s[i]] + RemoveFrom(s, i + 1)
  {
  }

  /** The scan jumps over a closed block. */
  lemma RemoveFromSkips(s: string, o: nat, c: nat)
    requires OccursAt(s, Open, o) && FindFrom(s, Close, o + |Open|) == Some(c)
    ensures RemoveFrom(s, o) == RemoveFrom(s, c + |Close|)
  {
    assert o < |s|;
  }

  /** On text without tags, `_strip_think` is plain trimming. */
  lemma StripThinkTagFree(text: string)
    requires forall k: nat :: !OccursAt(text, Open, k)
    ensures StripThink(Some(text)) == if Blank(text) then None else Some(Strip(text))
  {
    TagFreeUnchanged(text);
    StripThinkSpec(Some(text));
  }

  /** A reply that is nothing but a reasoning block yields no content. */
  lemma OnlyThinkBlockIsNone(body: string)
    requires forall k: nat :: !OccursAt(body, Close, k)
    ensures StripThink(Some(Open + body + Close)) == None
  {
    var s := Open + body + Close;
    var c := |Open| + |body|;
    assert OccursAt(s, Open, 0) by { assert s[..|Open|] == Open; }
    FirstCloseIsFinal(body);
    WholeBlockRemoved(s, c);
    StripThinkSpec(Some(s));
  }

  /** A text that is one closed block from start to end disappears. */
  lemma WholeBlockRemoved(s: string, c: nat)
    requires OccursAt(s, Open, 0) && FindFrom(s, Close, |Open|) == Some(c)
    requires c + |Close| == |s|
    ensures RemoveBlocks(s) == []
  {
    RemoveFromSkips(s, 0, c);
    assert RemoveFrom(s, c + |Close|) == [];
  }

  /** In `<think>` + body + `</think>`, with no closing tag in the body, the
      first closing tag after the opening one is the final one. */
  lemma FirstCloseIsFinal(body: string)
    requires forall k: nat :: !OccursAt(body, Close, k)
    ensures FindFrom(Open + body + Close, Close, |Open|) == Some(|Open| + |body|)
  {
    var s := Open + body + Close;
    var c := |Open| + |body|;
    forall k: nat | |Open| <= k < c ensures !OccursAt(s, Close, k) {
      NoCloseBefore(body, k);
    }
    EndsWithClose(body);
    FindFromFirst(s, Close, |Open|, c);
  }

  lemma EndsWithClose(body: string)
    ensures OccursAt(Open + body + Close, Close, |Open| + |body|)
  {
    var s := Open + body + Close;
    assert s[|Open| + |body|..] == Close;
  }

  /** No closing tag starts inside the opening tag or the body. */
  lemma NoCloseBefore(body: string, k: nat)
    requires forall k: nat :: !OccursAt(body, Close, k)
    requires |Open| <= k < |Open| + |body|
    ensures !OccursAt(Open + body + Close, Close, k)
  {
    if k + |Close| <= |Open| + |body| {
      NoCloseInBody(body, k - |Open|);
    } else {
      CloseNotStraddling(Open + body + Close, |Open| + |body|, k);
    }
  }

  /** A closing tag inside the body of `<think>` + body + `</think>` would be
      one in the body itself. */
  lemma NoCloseInBody(body: string, j: nat)
    requires forall k: nat :: !OccursAt(body, Close, k)
    requires j + |Close| <= |body|
    ensures !OccursAt(Open + body + Close, Close, |Open| + j)
  {
    var s := Open + body + Close;
    assert s[|Open| + j..|Open| + j + |Close|] == body[j..j + |Close|];
    assert !OccursAt(body, Close, j);
  }

  /** A closing tag cannot start inside another one: its only `<` is its
      first character. */
  lemma CloseNotStraddling(s: string, c: nat, k: nat)
    requires c + |Close| <= |s| && s[c..c + |Close|] == Close
    requires k < c < k + |Close|
    ensures !OccursAt(s, Close, k)
  {
    assert s[k..k + |Close|][c - k] == s[c] == Close[0] == '<';
    assert Close[c - k] != '<';
  }
}
