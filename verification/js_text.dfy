/**
 * The few JavaScript string primitives the editor and the renderers rely on:
 * the whitespace class shared by the regular-expression escape `\s` and by
 * `String.prototype.trim`, `trim`, `toLowerCase` as far as the model needs it,
 * `split("\n")` and the "text after the last newline" that the editor reads
 * from `split("\n")`'s last element.
 */
module JsText {

  /** The ECMAScript WhiteSpace and LineTerminator code points (what `\s` and `trim` use). */
  predicate IsSpace(c: char) {
    var n := c as int;
    n == 0x09 || n == 0x0A || n == 0x0B || n == 0x0C || n == 0x0D || n == 0x20 ||
    n == 0xA0 || n == 0x1680 || (0x2000 <= n <= 0x200A) || n == 0x2028 || n == 0x2029 ||
    n == 0x202F || n == 0x205F || n == 0x3000 || n == 0xFEFF
  }

  /**
   * The property names every object literal inherits from `Object.prototype`:
   * `obj[name]` finds a function (or, for `__proto__`, an object) even when
   * the literal does not list `name`.
   */
  const ObjectPrototypeNames: set<string> := {
    "constructor", "__proto__", "hasOwnProperty", "isPrototypeOf", "propertyIsEnumerable",
    "toString", "toLocaleString", "valueOf",
    "__defineGetter__", "__defineSetter__", "__lookupGetter__", "__lookupSetter__"}

  /** `s` with its leading whitespace removed. */
  function TrimStart(s: string): (r: string)
    ensures |r| <= |s| && r == s[|s| - |r|..]
    ensures forall k :: 0 <= k < |s| - |r| ==> IsSpace(s[k])
    ensures r == [] || !IsSpace(r[0])
  {
    if s != [] && IsSpace(s[0]) then TrimStart(s[1..]) else s
  }

  /** `s` with its trailing whitespace removed. */
  function TrimEnd(s: string): (r: string)
    ensures |r| <= |s| && r == s[..|r|]
    ensures forall k :: |r| <= k < |s| ==> IsSpace(s[k])
    ensures r == [] || !IsSpace(r[|r| - 1])
  {
    if s != [] && IsSpace(s[|s| - 1]) then TrimEnd(s[..|s| - 1]) else s
  }

  /** `String.prototype.trim`. */
  function Trim(s: string): (r: string)
    ensures r == [] || (!IsSpace(r[0]) && !IsSpace(r[|r| - 1]))
    ensures r == [] <==> forall k :: 0 <= k < |s| ==> IsSpace(s[k])
    ensures r != [] ==> r[0] == TrimStart(s)[0]
  {
    var t := TrimStart(s);
    var r := TrimEnd(t);
    assert r != [] ==> r[0] == t[0];
    r
  }

  /**
   * `toLowerCase` on one character, for the characters whose lower case can
   * take part in a comparison with the lower-case ASCII and Latin-1 keys used
   * by the renderers: A-Z and the Latin-1 capitals (U+00C0..U+00DE except
   * U+00D7). Every other character is left as it is, which does not change
   * whether a lowered string equals one of those keys.
   */
  function ToLower(c: char): char {
    var n := c as int;
    if (65 <= n <= 90) || (0xC0 <= n <= 0xDE && n != 0xD7) then (n + 32) as char else c
  }

  function LowerString(s: string): (r: string)
    ensures |r| == |s|
    ensures forall i :: 0 <= i < |s| ==> r[i] == ToLower(s[i])
  {
    seq(|s|, i requires 0 <= i < |s| => ToLower(s[i]))
  }

  /** A string with no upper-case letter is its own lower case. */
  lemma LowerStringKeeps(s: string)
    requires forall i :: 0 <= i < |s| ==> ToLower(s[i]) == s[i]
    ensures LowerString(s) == s
  {
  }

  /** A string without blanks at either end is its own trim. */
  lemma TrimKeeps(s: string)
    requires s != [] && !IsSpace(s[0]) && !IsSpace(s[|s| - 1])
    ensures Trim(s) == s
  {
  }

  /** `s` holds no line break. */
  predicate NoNewline(s: string) {
    forall k :: 0 <= k < |s| ==> s[k] != '\n'
  }

  /** Where the last line of `s` starts: just after its last newline, or 0 when it has none. */
  function LineStart(s: string): (j: nat)
    ensures j <= |s| && (j == 0 || s[j - 1] == '\n')
    ensures forall k :: j <= k < |s| ==> s[k] != '\n'
    decreases |s|
  {
    if s == [] || s[|s| - 1] == '\n' then |s|
    else
      var p := s[..|s| - 1];
      var j := LineStart(p);
      assert forall k :: j <= k < |p| ==> s[k] == p[k];
      j
  }

  /** A position just after a newline (or 0) with no newline from there on is where the last line starts. */
  lemma LineStartUnique(s: string, j: nat)
    requires j <= |s| && (j == 0 || s[j - 1] == '\n')
    requires forall k :: j <= k < |s| ==> s[k] != '\n'
    ensures LineStart(s) == j
  {
  }

  /** The text after the last newline of `s` (all of `s` when it has none). */
  function LastLine(s: string): (r: string)
    ensures NoNewline(r)
    ensures |r| <= |s| && r == s[|s| - |r|..]
    ensures |r| == |s| || s[|s| - |r| - 1] == '\n'
  {
    s[LineStart(s)..]
  }

  /** A suffix without newlines that starts a line is the last line. */
  lemma LastLineUnique(s: string, r: string)
    requires NoNewline(r)
    requires |r| <= |s| && r == s[|s| - |r|..]
    requires |r| == |s| || s[|s| - |r| - 1] == '\n'
    ensures r == LastLine(s)
  {
    var j := |s| - |r|;
    forall k | j <= k < |s| ensures s[k] != '\n' {
      assert s[k] == r[k - j];
    }
    LineStartUnique(s, j);
  }

  /** `s.split("\n")`: at least one piece, none containing a newline. */
  function SplitLines(s: string): (r: seq<string>)
    ensures |r| >= 1
    ensures forall i :: 0 <= i < |r| ==> NoNewline(r[i])
    decreases |s|
  {
    var j := LineStart(s);
    if j == 0 then [s]
    else SplitLines(s[..j - 1]) + [s[j..]]
  }

  /** What the editor reads as the current line (`split("\n")`'s last piece) is the text after the last newline. */
  lemma LastSplitPieceIsLastLine(s: string)
    ensures SplitLines(s)[|SplitLines(s)| - 1] == LastLine(s)
  {
    var j := LineStart(s);
    if j != 0 {
      assert SplitLines(s) == SplitLines(s[..j - 1]) + [s[j..]];
    }
  }

  /** `lines.join("\n")`. */
  function JoinLines(lines: seq<string>): string
    requires |lines| >= 1
  {
    if |lines| == 1 then lines[0]
    else JoinLines(lines[..|lines| - 1]) + "\n" + lines[|lines| - 1]
  }

  /** Splitting on newlines loses nothing: joining the pieces gives the text back. */
  lemma {:induction false} JoinSplitLines(s: string)
    ensures JoinLines(SplitLines(s)) == s
    decreases |s|
  {
    var j := LineStart(s);
    if j != 0 {
      var p, x := s[..j - 1], s[j..];
      assert SplitLines(s) == SplitLines(p) + [x];
      JoinSplitLines(p);
      JoinAppend(SplitLines(p), x);
      CutAt(s, j - 1);
    }
  }

  /** And the other way round: lines without newlines, joined and split again, come back unchanged. */
  lemma {:induction false} SplitJoinLines(lines: seq<string>)
    requires |lines| >= 1
    requires forall i :: 0 <= i < |lines| ==> NoNewline(lines[i])
    ensures SplitLines(JoinLines(lines)) == lines
  {
    var n := |lines|;
    if n == 1 {
      LineStartUnique(lines[0], 0);
    } else {
      var init, last := lines[..n - 1], lines[n - 1];
      var p := JoinLines(init);
      var s := p + "\n" + last;
      assert JoinLines(lines) == s;
      Glue(p, last);
      LineStartUnique(s, |p| + 1);
      assert SplitLines(s) == SplitLines(p) + [last];
      forall i | 0 <= i < |init| ensures NoNewline(init[i]) {
        assert init[i] == lines[i];
      }
      SplitJoinLines(init);
      InitAndLast(lines);
    }
  }

  lemma JoinAppend(a: seq<string>, x: string)
    requires |a| >= 1
    ensures JoinLines(a + [x]) == JoinLines(a) + "\n" + x
  {
    assert (a + [x])[..|a|] == a;
  }

  lemma CutAt(s: string, i: nat)
    requires i < |s| && s[i] == '\n'
    ensures s == s[..i] + "\n" + s[i + 1..]
  {
  }

  /** Two pieces glued with a newline come apart at it, and a newline-free second piece is the last line. */
  lemma Glue(p: string, last: string)
    requires NoNewline(last)
    ensures var s := p + "\n" + last; s[..|p|] == p && s[|p| + 1..] == last && s[|p|] == '\n'
    ensures var s := p + "\n" + last; forall k :: |p| + 1 <= k < |s| ==> s[k] != '\n'
  {
    var s := p + "\n" + last;
    forall k | |p| + 1 <= k < |s| ensures s[k] != '\n' {
      assert s[k] == last[k - |p| - 1];
    }
  }

  lemma InitAndLast(s: seq<string>)
    requires |s| >= 1
    ensures s == s[..|s| - 1] + [s[|s| - 1]]
  {
  }
}
