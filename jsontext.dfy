/** Handling of a chat model's raw reply text that the two calling services
    share: `content or '{}'` and the greedy `\{.*\}` search (with `re.DOTALL`)
    that cuts the JSON object out of the surrounding prose. */
module JsonText {
  import opened Wrappers
  import opened Strings

  /** `content or '{}'`: a missing or empty content becomes an empty object. */
  function OrEmptyObject(content: Option<string>): (r: string)
    ensures r != ""
    ensures content.Some? && content.value != "" ==> r == content.value
  {
    match content
    case None => "{}"
    case Some(s) => if s == "" then "{}" else s
  }

  /** The position of the first occurrence of `c`. */
  function FirstIndex(s: string, c: char): Option<nat> {
    if s == [] then None
    else if s[0] == c then Some(0)
    else match FirstIndex(s[1..], c)
      case None => None
      case Some(k) => Some(k + 1)
  }

  lemma {:induction false} FirstIndexSpec(s: string, c: char)
    ensures var r := FirstIndex(s, c);
      && (r.None? <==> c !in s)
      && (r.Some? ==> r.value < |s| && s[r.value] == c && c !in s[..r.value])
  {
    if s != [] && s[0] != c {
      FirstIndexSpec(s[1..], c);
      match FirstIndex(s[1..], c)
      case None =>
        assert s == [s[0]] + s[1..];
      case Some(k) =>
        assert s[..k + 1] == [s[0]] + s[1..][..k];
    }
  }

  /** The position of the last occurrence of `c`. */
  function LastIndex(s: string, c: char): Option<nat> {
    if s == [] then None
    else if s[|s| - 1] == c then Some(|s| - 1)
    else LastIndex(s[..|s| - 1], c)
  }

  lemma {:induction false} LastIndexSpec(s: string, c: char)
    ensures var r := LastIndex(s, c);
      && (r.None? <==> c !in s)
      && (r.Some? ==> r.value < |s| && s[r.value] == c && c !in s[r.value + 1..])
  {
    if s != [] && s[|s| - 1] != c {
      var init := s[..|s| - 1];
      LastIndexSpec(init, c);
      match LastIndex(init, c)
      case None =>
        assert s == init + [s[|s| - 1]];
      case Some(k) =>
        assert s[k + 1..] == init[k + 1..] + [s[|s| - 1]];
    }
  }

  /** Some `{` is followed, somewhere later, by a `}`. */
  predicate HasBracePair(s: string) {
    exists i, j | 0 <= i < j < |s| :: s[i] == '{' && s[j] == '}'
  }

  /** `re.search(r'\{.*\}', content, re.DOTALL)`: the text from the first
      `{` to the last `}` when there is a match, otherwise the whole content. */
  function ExtractJson(content: string): string {
    FirstIndexSpec(content, '{');
    LastIndexSpec(content, '}');
    match (FirstIndex(content, '{'), LastIndex(content, '}'))
    case (Some(i), Some(j)) => if i < j then content[i..j + 1] else content
    case _ => content
  }

  /** Without a `{` before a `}` the content is kept whole; otherwise the
      result is a braced stretch of it with no `{` before it and no `}`
      after it. */
  lemma ExtractJsonShape(content: string)
    ensures !HasBracePair(content) ==> ExtractJson(content) == content
    ensures var r := ExtractJson(content);
      HasBracePair(content) ==>
        exists i | 0 <= i <= |content| - |r| :: OccursAt(content, r, i)
          && |r| >= 2 && r[0] == '{' && r[|r| - 1] == '}'
          && '{' !in content[..i] && '}' !in content[i + |r|..]
  {
    FirstIndexSpec(content, '{');
    LastIndexSpec(content, '}');
    match (FirstIndex(content, '{'), LastIndex(content, '}'))
    case (Some(i), Some(j)) =>
      if i < j {
        assert OccursAt(content, content[i..j + 1], i);
      }
    case _ =>
  }

  /** A reply made of prose without `{`, then a braced object, then prose
      without `}` yields exactly that object. */
  lemma ExtractSurrounded(before: string, obj: string, after: string)
    requires '{' !in before && '}' !in after
    requires |obj| >= 2 && obj[0] == '{' && obj[|obj| - 1] == '}'
    ensures ExtractJson(before + obj + after) == obj
  {
    var s := before + obj + after;
    var i, j := |before|, |before| + |obj| - 1;
    assert s[i] == '{' && s[j] == '}';
    FirstIndexSpec(s, '{');
    LastIndexSpec(s, '}');
    var first, last := FirstIndex(s, '{'), LastIndex(s, '}');
    assert first == Some(i) && last == Some(j);
    assert s[i..j + 1] == obj;
  }
}
