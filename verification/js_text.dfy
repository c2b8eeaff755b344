/**
 * The JavaScript string operations the hook relies on: `a || d` on a string
 * field, `s.slice(0, n)`, `s.replace(":", "")`, `s.trim()` emptiness and
 * `s.split("\n")`.
 */
module JsText {
  import opened Wrappers

  /** A string field is falsy in JavaScript when it is absent (undefined or null) or empty. */
  predicate Falsy(v: Option<string>) {
    v.None? || v.value == ""
  }

  /** `v || d` for a string-valued field. */
  function Or(v: Option<string>, d: string): (r: string)
    ensures Falsy(v) ==> r == d
    ensures !Falsy(v) ==> Some(r) == v
  {
    if Falsy(v) then d else v.value
  }

  /** `s.slice(0, n)`: the first `n` characters, or all of `s` when it is shorter. */
  function Take(s: string, n: nat): (r: string)
    ensures |r| == if |s| < n then |s| else n
    ensures r <= s
  {
    if |s| <= n then s else s[..n]
  }

  /** Position of the first occurrence of `c` in `s`. */
  function IndexOf(s: string, c: char): (k: nat)
    requires c in s
    ensures k < |s| && s[k] == c
    ensures c !in s[..k]
  {
    if s[0] == c then 0 else
      assert c in s[1..] by { assert s == [s[0]] + s[1..]; }
      var k := IndexOf(s[1..], c);
      assert s[..k + 1] == [s[0]] + s[1..][..k];
      k + 1
  }

  /** `s.replace(c, "")` with a one-character string pattern: only the first occurrence goes. */
  function RemoveFirst(s: string, c: char): (r: string)
    ensures c !in s ==> r == s
    ensures c in s ==> r == s[..IndexOf(s, c)] + s[IndexOf(s, c) + 1..]
  {
    if |s| == 0 then s
    else if s[0] == c then s[1..]
    else
      var rest := RemoveFirst(s[1..], c);
      assert c in s ==> c in s[1..] by { assert s == [s[0]] + s[1..]; }
      [s[0]] + rest
  }

  /**
   * The characters `String.prototype.trim` removes: ECMAScript WhiteSpace
   * (tab, vertical tab, form feed, space, no-break space, the byte order mark and
   * the Unicode space separators) and LineTerminator (LF, CR, LS, PS).
   */
  predicate IsJsSpace(c: char) {
    c == '\t' || c == '\U{000B}' || c == '\U{000C}' || c == ' ' || c == '\U{00A0}' ||
    c == '\U{FEFF}' || c == '\U{1680}' || ('\U{2000}' <= c <= '\U{200A}') ||
    c == '\U{202F}' || c == '\U{205F}' || c == '\U{3000}' ||
    c == '\n' || c == '\r' || c == '\U{2028}' || c == '\U{2029}'
  }

  /** `!line.trim()`: nothing but white space is left. */
  predicate IsBlank(line: string) {
    forall i :: 0 <= i < |line| ==> IsJsSpace(line[i])
  }

  /** The pieces joined back with the newline separator. */
  function JoinLines(lines: seq<string>): string
    requires |lines| > 0
  {
    if |lines| == 1 then lines[0] else lines[0] + "\n" + JoinLines(lines[1..])
  }

  /** `content.split("\n")`: always at least one piece, none containing a newline. */
  function SplitLines(s: string): (lines: seq<string>)
    ensures |lines| > 0
    ensures forall i :: 0 <= i < |lines| ==> '\n' !in lines[i]
    ensures JoinLines(lines) == s
  {
    if |s| == 0 then [""]
    else if s[0] == '\n' then
      var rest := SplitLines(s[1..]);
      assert s == "\n" + s[1..];
      [""] + rest
    else
      var rest := SplitLines(s[1..]);
      var lines := [[s[0]] + rest[0]] + rest[1..];
      assert lines[1..] == rest[1..];
      assert JoinLines(lines) == [s[0]] + JoinLines(rest);
      lines
  }

  /** Splitting undoes joining when no piece holds a newline. */
  lemma {:induction false} SplitJoinLines(lines: seq<string>)
    requires |lines| > 0
    requires forall i :: 0 <= i < |lines| ==> '\n' !in lines[i]
    ensures SplitLines(JoinLines(lines)) == lines
  {
    if |lines| == 1 {
      SplitNoNewline(lines[0]);
    } else {
      SplitJoinLines(lines[1..]);
      SplitHeadPiece(lines[0], JoinLines(lines[1..]));
    }
  }

  /** A string without a newline splits into itself. */
  lemma SplitNoNewline(s: string)
    requires '\n' !in s
    ensures SplitLines(s) == [s]
  {
  }

  /** A newline-free head followed by a newline starts a new piece. */
  lemma {:induction false} SplitHeadPiece(head: string, tail: string)
    requires '\n' !in head
    ensures SplitLines(head + "\n" + tail) == [head] + SplitLines(tail)
  {
    if |head| == 0 {
      assert head + "\n" + tail == "\n" + tail;
      assert ("\n" + tail)[1..] == tail;
    } else {
      var s := head + "\n" + tail;
      assert s[0] == head[0];
      assert s[1..] == head[1..] + "\n" + tail;
      assert '\n' !in head[1..];
      SplitHeadPiece(head[1..], tail);
      assert [head[0]] + head[1..] == head;
    }
  }
}
