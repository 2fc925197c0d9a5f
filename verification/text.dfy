/** The two string operations the plugin performs with `String.prototype.replace`. */
module Text {

  import opened Optional

  /** The characters matched by the ECMAScript regular-expression class `\s`:
      the WhiteSpace code points (tab, vertical tab, form feed, space, no-break
      space, the byte order mark and the Unicode space separators) and the
      LineTerminator code points (line feed, carriage return, line and
      paragraph separators). */
  predicate IsWhitespace(c: char): (b: bool)
    ensures c < '\U{0080}' ==> (b <==> c in "\t\n\U{000B}\U{000C}\r ")
  {
    || c == '\t' || c == '\n' || c == '\U{000B}' || c == '\U{000C}' || c == '\r'
    || c == ' ' || c == '\U{00A0}' || c == '\U{1680}'
    || ('\U{2000}' <= c <= '\U{200A}')
    || c == '\U{2028}' || c == '\U{2029}' || c == '\U{202F}' || c == '\U{205F}'
    || c == '\U{3000}' || c == '\U{FEFF}'
  }

  /** `s.replace(/\s/g, '')`: every whitespace character deleted, the others kept in order. */
  function RemoveWhitespace(s: string): (r: string)
    ensures |r| <= |s|
    ensures forall i :: 0 <= i < |r| ==> !IsWhitespace(r[i])
    ensures forall c :: !IsWhitespace(c) ==> multiset(r)[c] == multiset(s)[c]
    ensures r == [] <==> forall i :: 0 <= i < |s| ==> IsWhitespace(s[i])
  {
    if s == [] then []
    else
      assert s == [s[0]] + s[1..];
      if IsWhitespace(s[0]) then RemoveWhitespace(s[1..])
      else [s[0]] + RemoveWhitespace(s[1..])
  }

  /** The blur guard's first disjunct: nothing is left once whitespace is deleted. */
  predicate Blank(s: string): (b: bool)
    ensures b <==> forall i :: 0 <= i < |s| ==> IsWhitespace(s[i])
  {
    RemoveWhitespace(s) == []
  }

  /** Where `s.indexOf(c)` finds `c`: the position of its first occurrence, if any. */
  function IndexOf(s: string, c: char): (r: Option<nat>)
    ensures r.None? <==> c !in s
    ensures r.Some? ==> r.value < |s| && s[r.value] == c && c !in s[..r.value]
  {
    if s == [] then None
    else if s[0] == c then Some(0)
    else
      match IndexOf(s[1..], c)
      case None => None
      case Some(k) =>
        assert s[..k + 1] == [s[0]] + s[1..][..k];
        Some(k + 1)
  }

  /** `s.replace(c, '')` with a one-character string pattern: only the FIRST
      occurrence of `c` is deleted, wherever it stands. */
  function RemoveFirst(s: string, c: char): (r: string)
    ensures c !in s ==> r == s
    ensures c in s ==> |r| == |s| - 1 && multiset(r) + multiset{c} == multiset(s)
    ensures c in s ==> exists k :: 0 <= k < |s| && s[k] == c && c !in s[..k] && r == s[..k] + s[k + 1..]
  {
    match IndexOf(s, c)
    case None => s
    case Some(k) =>
      assert s == s[..k] + [c] + s[k + 1..];
      s[..k] + s[k + 1..]
  }

  /** A leading `c` is the one removed, so `"#signup"` becomes `"signup"`. */
  lemma RemoveFirstDropsLeading(s: string, c: char)
    requires |s| > 0 && s[0] == c
    ensures RemoveFirst(s, c) == s[1..]
  {
  }

  /** Deleting whitespace twice deletes nothing more. */
  lemma {:induction false} RemoveWhitespaceIdempotent(s: string)
    ensures RemoveWhitespace(RemoveWhitespace(s)) == RemoveWhitespace(s)
  {
    if s != [] {
      RemoveWhitespaceIdempotent(s[1..]);
      if !IsWhitespace(s[0]) {
        var r := RemoveWhitespace(s[1..]);
        assert ([s[0]] + r)[1..] == r;
      }
    }
  }
}
