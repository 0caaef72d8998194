/**
 * The editor's pure helpers (`src/components/editor/Editor.jsx`): the Enter
 * key inside a description continues a bullet list, and the skills list
 * gains a trimmed, not yet present label or loses the entry at an index.
 */
module Editor {
  import opened Wrappers
  import opened JsText
  import Resume

  // ---------------------------------------------------------------- bullet continuation

  /** The markers of the class `[•\-\*]`. */
  predicate IsMarker(c: char) {
    c == '•' || c == '-' || c == '*'
  }

  /** The length of the longest run of whitespace (`\s`) at the head of `s`. */
  function LeadingSpaces(s: string): (n: nat)
    ensures n <= |s|
    ensures forall k :: 0 <= k < n ==> IsSpace(s[k])
    ensures n == |s| || !IsSpace(s[n])
  {
    var t := TrimStart(s);
    assert t != [] ==> t[0] == s[|s| - |t|];
    |s| - |t|
  }

  /** The head of `s` is spaces up to `n` and `s[n]` is not a space: then `n` is the run's length. */
  lemma LeadingSpacesUnique(s: string, n: nat)
    requires n <= |s|
    requires forall k :: 0 <= k < n ==> IsSpace(s[k])
    requires n == |s| || !IsSpace(s[n])
    ensures LeadingSpaces(s) == n
  {
  }

  /** A complete bullet: whitespace, one marker, whitespace. */
  predicate IsBullet(b: string) {
    var n := LeadingSpaces(b);
    n < |b| && IsMarker(b[n]) && forall k :: n < k < |b| ==> IsSpace(b[k])
  }

  /** The match of `^(\s*[•\-\*]\s*)` against `line`, if any. */
  function BulletPrefix(line: string): (r: Option<string>)
    ensures r.Some? <==> LeadingSpaces(line) < |line| && IsMarker(line[LeadingSpaces(line)])
    ensures r.Some? ==> IsBullet(r.value) && |r.value| <= |line| && r.value == line[..|r.value|]
    ensures r.Some? ==> |r.value| == |line| || !IsSpace(line[|r.value|])
  {
    var n := LeadingSpaces(line);
    if n < |line| && IsMarker(line[n]) then
      var m := LeadingSpaces(line[n + 1..]);
      BulletShape(line, n, m);
      Some(line[..n + 1 + m])
    else None
  }

  /** The matched prefix: spaces, the marker, then the longest run of spaces after it. */
  lemma BulletShape(line: string, n: nat, m: nat)
    requires n == LeadingSpaces(line) && n < |line| && IsMarker(line[n])
    requires m == LeadingSpaces(line[n + 1..])
    ensures var b := line[..n + 1 + m];
      IsBullet(b) && (|b| == |line| || !IsSpace(line[|b|]))
  {
    var b := line[..n + 1 + m];
    var rest := line[n + 1..];
    forall k | 0 <= k < n ensures IsSpace(b[k]) {
      assert b[k] == line[k];
    }
    assert b[n] == line[n];
    LeadingSpacesUnique(b, n);
    forall k | n < k < |b| ensures IsSpace(b[k]) {
      assert b[k] == rest[k - n - 1];
    }
    if |b| < |line| {
      assert line[|b|] == rest[m];
    }
  }

  /** A bullet matches itself whole. */
  lemma BulletMatchesItself(b: string)
    requires IsBullet(b)
    ensures BulletPrefix(b) == Some(b)
  {
    var n := LeadingSpaces(b);
    LeadingSpacesUnique(b[n + 1..], |b| - n - 1);
    assert b[..|b|] == b;
  }

  /** The line the cursor is on: the last piece of `value.substring(0, start).split('\n')`. */
  function CurrentLine(value: string, start: nat): (line: string)
    requires start <= |value|
    ensures line == LastLine(value[..start])
  {
    var lines := SplitLines(value[..start]);
    LastSplitPieceIsLastLine(value[..start]);
    lines[|lines| - 1]
  }

  datatype EnterOutcome =
    | DefaultEnter                               // no bullet: the browser inserts a plain newline
    | Continue(newValue: string, cursor: nat)    // the bullet is repeated on a new line

  /** Replacing the selection `[start, end)` by a newline and `b`: what sits before and after the new cursor. */
  lemma InsertionShape(before: string, b: string, after: string)
    ensures var v := before + "\n" + b + after;
      && |before| + 1 + |b| <= |v|
      && v[..|before| + 1 + |b|] == before + "\n" + b
      && v[|before| + 1 + |b|..] == after
    ensures NoNewline(b) ==> LastLine((before + "\n" + b + after)[..|before| + 1 + |b|]) == b
  {
    var v := before + "\n" + b + after;
    assert v[..|before| + 1 + |b|] == before + "\n" + b;
    if NoNewline(b) {
      LineAfterNewline(before, b);
    }
  }

  /** `handleDescriptionKeyDown` for the Enter key, with the selection `[start, end)`. */
  function OnEnter(value: string, start: nat, end: nat): (r: EnterOutcome)
    requires start <= end <= |value|
    ensures r.Continue? <==> BulletPrefix(CurrentLine(value, start)).Some?
    ensures r.Continue? ==>
      var b := BulletPrefix(CurrentLine(value, start)).value;
      && r.cursor == start + 1 + |b| <= |r.newValue|
      && r.newValue[..r.cursor] == value[..start] + "\n" + b
      && r.newValue[r.cursor..] == value[end..]
  {
    match BulletPrefix(CurrentLine(value, start))
    case None => DefaultEnter
    case Some(b) =>
      InsertionShape(value[..start], b, value[end..]);
      Continue(value[..start] + "\n" + b + value[end..], start + 1 + |b|)
  }

  /**
   * Enter again right after an inserted bullet continues with the same
   * bullet: the continuation is a fixed point.
   */
  lemma EnterAgainContinues(value: string, start: nat, end: nat, b: string)
    requires start <= end <= |value|
    requires BulletPrefix(CurrentLine(value, start)) == Some(b)
    ensures OnEnter(value, start, end).Continue?
    ensures var r := OnEnter(value, start, end);
      && BulletPrefix(CurrentLine(r.newValue, r.cursor)) == Some(b)
      && OnEnter(r.newValue, r.cursor, r.cursor).Continue?
  {
    var line := CurrentLine(value, start);
    var r := OnEnter(value, start, end);
    assert r.newValue[..r.cursor] == value[..start] + "\n" + b;
    PrefixHasNoNewline(line, |b|);
    LineAfterNewline(value[..start], b);
    assert CurrentLine(r.newValue, r.cursor) == b;
    BulletMatchesItself(b);
  }

  /** A prefix of a newline-free line is newline-free. */
  lemma PrefixHasNoNewline(line: string, n: nat)
    requires n <= |line| && NoNewline(line)
    ensures NoNewline(line[..n])
  {
    forall k | 0 <= k < n ensures line[..n][k] != '\n' {
      assert line[..n][k] == line[k];
    }
  }

  /** Text ending in a newline and a newline-free `b` has `b` as its last line. */
  lemma LineAfterNewline(before: string, b: string)
    requires NoNewline(b)
    ensures LastLine(before + "\n" + b) == b
  {
    var s := before + "\n" + b;
    assert s[|s| - |b|..] == b;
    assert s[|s| - |b| - 1] == '\n';
    LastLineUnique(s, b);
  }

  /** A line whose first non-space character is not a marker leaves Enter alone. */
  lemma PlainLineKeepsDefault(value: string, start: nat, end: nat)
    requires start <= end <= |value|
    requires var line := CurrentLine(value, start);
      var n := LeadingSpaces(line); n == |line| || !IsMarker(line[n])
    ensures OnEnter(value, start, end) == DefaultEnter
  {
  }

  /**
   * The handler only updates experience and internship entries; the
   * document is otherwise left as it is.
   */
  function EnterInDescription(d: Resume.Document, section: string, id: int, field: string,
                              value: string, start: nat, end: nat): (r: Resume.Document)
    requires start <= end <= |value|
    ensures section != "experience" && section != "internships" ==> r == d
    ensures OnEnter(value, start, end).DefaultEnter? ==> r == d
    ensures section == "experience" ==> Resume.OnlyCollectionChanged(d, r, Resume.Experience)
    ensures section == "internships" ==> Resume.OnlyCollectionChanged(d, r, Resume.Internships)
  {
    match OnEnter(value, start, end)
    case DefaultEnter => d
    case Continue(nv, _) =>
      if section == "experience" then Resume.UpdateEntity(d, Resume.Experience, id, field, nv)
      else if section == "internships" then Resume.UpdateEntity(d, Resume.Internships, id, field, nv)
      else d
  }

  // ---------------------------------------------------------------- skills

  /** The skills list together with the text of the new-skill input. */
  datatype SkillInput = SkillInput(skills: seq<string>, draft: string)

  ghost predicate NoDuplicates(s: seq<string>) {
    forall i, j :: 0 <= i < j < |s| ==> s[i] != s[j]
  }

  /** `handleAddSkill`. */
  function AddSkill(st: SkillInput): (r: SkillInput)
    ensures Trim(st.draft) == [] ==> r == st
    ensures Trim(st.draft) != [] ==> r.draft == [] && Trim(st.draft) in r.skills
    ensures Trim(st.draft) in st.skills ==> r.skills == st.skills
    ensures Trim(st.draft) != [] && Trim(st.draft) !in st.skills ==> r.skills == st.skills + [Trim(st.draft)]
  {
    var name := Trim(st.draft);
    if name == [] then st
    else if name in st.skills then SkillInput(st.skills, "")
    else SkillInput(st.skills + [name], "")
  }

  /** `handleKeyDown`: only Enter adds. */
  function OnSkillKey(st: SkillInput, key: string): (r: SkillInput)
    ensures key != "Enter" ==> r == st
    ensures key == "Enter" ==> r == AddSkill(st)
  {
    if key == "Enter" then AddSkill(st) else st
  }

  /** Adding never introduces a duplicate. */
  lemma AddSkillKeepsDistinct(st: SkillInput)
    requires NoDuplicates(st.skills)
    ensures NoDuplicates(AddSkill(st).skills)
  {
    var r := AddSkill(st).skills;
    if r != st.skills {
      forall i, j | 0 <= i < j < |r| ensures r[i] != r[j] {
        if j == |st.skills| {
          assert r[i] == st.skills[i];
        } else {
          assert r[i] == st.skills[i] && r[j] == st.skills[j];
        }
      }
    }
  }

  /** Where `splice(index, 1)` starts deleting in a list of `len` entries. */
  function SpliceStart(len: nat, index: int): (i: nat)
    ensures i <= len
    ensures 0 <= index <= len ==> i == index
    ensures index < 0 && len + index >= 0 ==> i == len + index
    ensures index > len ==> i == len
    ensures len + index < 0 ==> i == 0
  {
    if index < 0 then (if len + index < 0 then 0 else len + index)
    else if index > len then len else index
  }

  /** `handleRemoveSkill`: a copy of the list, then `splice(index, 1)` in place. */
  method RemoveSkill(skills: seq<string>, index: int) returns (r: seq<string>)
    ensures var i := SpliceStart(|skills|, index);
      i < |skills| ==>
        && |r| == |skills| - 1
        && (forall j :: 0 <= j < i ==> r[j] == skills[j])
        && (forall j :: i <= j < |r| ==> r[j] == skills[j + 1])
    ensures SpliceStart(|skills|, index) == |skills| ==> r == skills
  {
    var a := new string[|skills|](j requires 0 <= j < |skills| => skills[j]);
    var i := SpliceStart(a.Length, index);
    if i == a.Length {
      return a[..];
    }
    var k := i;
    while k < a.Length - 1
      invariant i <= k <= a.Length - 1
      invariant forall j :: 0 <= j < i ==> a[j] == skills[j]
      invariant forall j :: i <= j < k ==> a[j] == skills[j + 1]
      invariant forall j :: k <= j < a.Length ==> a[j] == skills[j]
    {
      a[k] := a[k + 1];
      k := k + 1;
    }
    r := a[..a.Length - 1];
  }

  /** Removing a valid index keeps every other entry, in order: the list minus that one element. */
  lemma RemovedAtIndex(skills: seq<string>, i: nat, r: seq<string>)
    requires i < |skills|
    requires |r| == |skills| - 1
    requires forall j :: 0 <= j < i ==> r[j] == skills[j]
    requires forall j :: i <= j < |r| ==> r[j] == skills[j + 1]
    ensures r == skills[..i] + skills[i + 1..]
    ensures multiset(r) + multiset{skills[i]} == multiset(skills)
  {
    var spliced := skills[..i] + skills[i + 1..];
    assert |spliced| == |r|;
    forall j | 0 <= j < |r| ensures r[j] == spliced[j] {
      if j < i {
        assert spliced[j] == skills[..i][j] == skills[j];
      } else {
        assert spliced[j] == skills[i + 1..][j - i] == skills[j + 1];
      }
    }
    assert r == spliced;
    assert skills == skills[..i] + [skills[i]] + skills[i + 1..];
  }
}
