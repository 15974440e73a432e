/** The string operations the actor applies to message texts. */
module Text {
  import opened Wrappers

  /** The characters `str::trim` removes (Unicode White_Space). */
  predicate IsSpace(c: char) {
    || '\U{0009}' <= c <= '\U{000D}'
    || c == ' '
    || c == '\U{0085}'
    || c == '\U{00A0}'
    || c == '\U{1680}'
    || '\U{2000}' <= c <= '\U{200A}'
    || c == '\U{2028}'
    || c == '\U{2029}'
    || c == '\U{202F}'
    || c == '\U{205F}'
    || c == '\U{3000}'
  }

  function TrimStart(s: string): string {
    if s != [] && IsSpace(s[0]) then TrimStart(s[1..]) else s
  }

  function TrimEnd(s: string): string {
    if s != [] && IsSpace(s[|s| - 1]) then TrimEnd(s[..|s| - 1]) else s
  }

  function Trim(s: string): string {
    TrimEnd(TrimStart(s))
  }

  predicate StartsWith(s: string, prefix: string) {
    prefix <= s
  }

  predicate OccursAt(s: string, pattern: string, i: nat) {
    i + |pattern| <= |s| && s[i..i + |pattern|] == pattern
  }

  /** The first occurrence of `pattern` at or after `from`. */
  function Find(s: string, pattern: string, from: nat): (r: Option<nat>)
    requires from <= |s|
    ensures r.Some? ==> from <= r.value && OccursAt(s, pattern, r.value)
    ensures forall i: nat | from <= i && (r.Some? ==> i < r.value) :: !OccursAt(s, pattern, i)
    decreases |s| - from
  {
    if from + |pattern| > |s| then None
    else if OccursAt(s, pattern, from) then Some(from)
    else Find(s, pattern, from + 1)
  }

  /** `extract_promise_tag`: the trimmed text between the promise tags, if they enclose any. */
  function ExtractPromiseTag(text: string): Option<string> {
    var start := Find(text, "<promise>", 0);
    var end := Find(text, "</promise>", 0);
    if start.None? || end.None? || end.value <= start.value + 9 then None
    else Some(Trim(text[start.value + 9..end.value]))
  }

  lemma {:induction false} TrimEndKeepsFirst(s: string)
    requires s != "" && !IsSpace(s[0])
    ensures TrimEnd(s) != "" && TrimEnd(s)[0] == s[0]
    decreases |s|
  {
    if IsSpace(s[|s| - 1]) {
      TrimEndKeepsFirst(s[..|s| - 1]);
    }
  }

  predicate FirstAfterSpaces(s: string, c: char, i: nat) {
    i < |s| && s[i] == c && forall k | 0 <= k < i :: IsSpace(s[k])
  }

  /** A trimmed text starts with `c` exactly if `c` is the first character that is no space. */
  lemma {:induction false} TrimmedStart(s: string, c: char)
    requires !IsSpace(c)
    ensures StartsWith(Trim(s), [c]) <==> exists i: nat :: FirstAfterSpaces(s, c, i)
    decreases |s|
  {
    if s == "" {
    } else if IsSpace(s[0]) {
      TrimmedStart(s[1..], c);
      if i: nat :| FirstAfterSpaces(s[1..], c, i) {
        assert FirstAfterSpaces(s, c, i + 1);
      }
      if i: nat :| FirstAfterSpaces(s, c, i) {
        assert FirstAfterSpaces(s[1..], c, i - 1);
      }
    } else {
      TrimEndKeepsFirst(s);
      assert TrimEnd(s)[..1] == [s[0]];
      if s[0] == c {
        assert FirstAfterSpaces(s, c, 0);
      }
    }
  }
}
