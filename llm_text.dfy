/**
 * Clean-up of the chat-completion text in `get_llm_recommendations`
 * (backend/main.py): code-fence markers are deleted, the text is stripped,
 * and the span from the first `[` to the last `]` is taken as the JSON list
 * of titles.
 */
module LlmText {
  import opened Base
  import opened Text

  const JsonFence: Str := "```json"
  const Fence: Str := "```"

  /** `re.sub(r'```json|```', '', s)`: scanning from the left, an occurrence
      of "```json" is deleted, else one of "```", else the character is kept. */
  function StripFences(s: Str): (r: Str)
    ensures |r| <= |s|
    decreases |s|
  {
    if s == [] then []
    else if StartsWith(s, JsonFence) then StripFences(s[|JsonFence|..])
    else if StartsWith(s, Fence) then StripFences(s[|Fence|..])
    else [s[0]] + StripFences(s[1..])
  }

  /** Text without backticks passes through unchanged. */
  lemma {:induction false} StripFencesPlainText(s: Str)
    requires '`' !in s
    ensures StripFences(s) == s
  {
    if s != [] {
      NoFenceAtPlainChar(s);
      StripFencesPlainText(s[1..]);
    }
  }

  /** A backtick-free prefix is kept and the rest is cleaned on its own. */
  lemma {:induction false} StripFencesAppend(x: Str, y: Str)
    requires '`' !in x
    ensures StripFences(x + y) == x + StripFences(y)
  {
    if x != [] {
      var s := x + y;
      assert s[1..] == x[1..] + y;
      NoFenceAtPlainChar(s);
      StripFencesAppend(x[1..], y);
      assert [x[0]] + x[1..] == x;
    } else {
      assert x + y == y;
    }
  }

  /** A text starting with a character other than a backtick starts with
      no fence, so its first character is kept. */
  lemma NoFenceAtPlainChar(s: Str)
    requires s != [] && s[0] != '`'
    ensures StripFences(s) == [s[0]] + StripFences(s[1..])
  {
    assert !StartsWith(s, JsonFence) by {
      assert JsonFence[0] == '`';
    }
    assert !StartsWith(s, Fence) by {
      assert Fence[0] == '`';
    }
  }

  /** The typical wrapped answer "```json" + list + "```" is unwrapped to the
      list itself. */
  lemma UnwrapsFencedBlock(body: Str)
    requires '`' !in body
    ensures StripFences(JsonFence + body + Fence) == body
  {
    var s := JsonFence + body + Fence;
    assert StartsWith(s, JsonFence);
    assert s[|JsonFence|..] == body + Fence;
    StripFencesAppend(body, Fence);
    assert StripFences(Fence) == [];
  }

  /** Only fence characters are deleted: every other character occurs as
      often after the clean-up as before. */
  lemma {:induction false} StripFencesKeepsOtherChars(s: Str, c: char)
    requires c != '`' && c != 'j' && c != 's' && c != 'o' && c != 'n'
    ensures multiset(StripFences(s))[c] == multiset(s)[c]
    decreases |s|
  {
    if s == [] {
    } else if StartsWith(s, JsonFence) {
      StripFencesKeepsOtherChars(s[|JsonFence|..], c);
      DroppedPrefix(s, |JsonFence|, c);
    } else if StartsWith(s, Fence) {
      StripFencesKeepsOtherChars(s[|Fence|..], c);
      DroppedPrefix(s, |Fence|, c);
    } else {
      StripFencesKeepsOtherChars(s[1..], c);
      assert s == [s[0]] + s[1..];
    }
  }

  /** Dropping a leading fence loses no copy of a character outside it. */
  lemma DroppedPrefix(s: Str, n: nat, c: char)
    requires n <= |JsonFence| && StartsWith(s, JsonFence[..n])
    requires c != '`' && c != 'j' && c != 's' && c != 'o' && c != 'n'
    ensures multiset(s)[c] == multiset(s[n..])[c]
  {
    assert s == s[..n] + s[n..];
    assert c !in s[..n] by {
      forall k | 0 <= k < n
        ensures s[..n][k] != c
      {
        assert s[..n][k] == JsonFence[k];
      }
    }
  }

  /** `re.sub(...)` followed by `.strip()`. */
  function Clean(content: Str): Str
  {
    Strip(StripFences(content))
  }

  function FirstIndexOf(s: Str, c: char): (r: Option<nat>)
    ensures r.None? <==> c !in s
    ensures r.Some? ==> r.value < |s| && s[r.value] == c
    ensures r.Some? ==> forall k :: 0 <= k < r.value ==> s[k] != c
  {
    if s == [] then None
    else if s[0] == c then Some(0)
    else match FirstIndexOf(s[1..], c)
      case None => None
      case Some(i) => Some(i + 1)
  }

  function LastIndexOf(s: Str, c: char): (r: Option<nat>)
    ensures r.None? <==> c !in s
    ensures r.Some? ==> r.value < |s| && s[r.value] == c
    ensures r.Some? ==> forall k :: r.value < k < |s| ==> s[k] != c
  {
    if s == [] then None
    else if s[|s| - 1] == c then Some(|s| - 1)
    else match LastIndexOf(s[..|s| - 1], c)
      case None => None
      case Some(i) => Some(i)
  }

  /** `re.search(r'\[.*\]', s, re.DOTALL)`: the leftmost `[` at which a match
      starts, extended greedily to the last `]`. */
  function FindBracketed(s: Str): Option<Str>
  {
    match FirstIndexOf(s, '[')
    case None => None
    case Some(i) =>
      match LastIndexOf(s, ']')
      case None => None
      case Some(j) => if i < j then Some(s[i..j + 1]) else None
  }

  /** A match exists exactly when some `[` comes before some `]`; it is then
      the slice from the first `[` of the text to its last `]`. */
  lemma FindBracketedSpec(s: Str)
    ensures FindBracketed(s).Some? <==>
      exists i, j :: 0 <= i < j < |s| && s[i] == '[' && s[j] == ']'
    ensures FindBracketed(s).Some? ==>
      exists i, j :: 0 <= i < j < |s| && FindBracketed(s).value == s[i..j + 1]
        && s[i] == '[' && '[' !in s[..i] && s[j] == ']' && ']' !in s[j + 1..]
  {
    var first, last := FirstIndexOf(s, '['), LastIndexOf(s, ']');
    if first.Some? && last.Some? && first.value < last.value {
      var i, j := first.value, last.value;
      assert '[' !in s[..i] by {
        forall k | 0 <= k < i ensures s[..i][k] != '[' { }
      }
    }
  }
}
