/**
 * Text the three live previews (`src/components/templates/Creative.jsx`,
 * `Modern.jsx`, `Classic.jsx`) derive from an entry: the date label built
 * with a template literal and the line-by-line description with hanging
 * indents for bullet lines.
 */
module PreviewText {
  import opened Wrappers
  import opened JsText
  import opened Resume
  import opened Render

  /** The number a string of decimal digits reads as. */
  function DigitsValue(s: string): nat
    requires forall k :: 0 <= k < |s| ==> '0' <= s[k] <= '9'
  {
    if s == [] then 0 else 10 * DigitsValue(s[..|s| - 1]) + (s[|s| - 1] as int - '0' as int)
  }

  /** The decimal digits of `n`: they read back as `n`, with no leading zero. */
  function NatString(n: nat): (r: string)
    ensures |r| >= 1
    ensures forall k :: 0 <= k < |r| ==> '0' <= r[k] <= '9'
    ensures DigitsValue(r) == n
    ensures n > 0 ==> r[0] != '0'
  {
    var d := ('0' as int + n % 10) as char;
    if n < 10 then [d]
    else
      var r := NatString(n / 10) + [d];
      assert r[..|r| - 1] == NatString(n / 10);
      r
  }

  /** How JavaScript prints an integer: an optional minus sign, then the digits of its magnitude. */
  function NumberString(n: int): (r: string)
    ensures n >= 0 ==> r == NatString(n)
    ensures n < 0 ==> r == "-" + NatString(-n)
  {
    if n < 0 then "-" + NatString(-n) else NatString(n)
  }

  /** Distinct integers print differently. */
  lemma NumberStringInjective(m: int, n: int)
    requires NumberString(m) == NumberString(n)
    ensures m == n
  {
    if m < 0 && n < 0 {
      assert NumberString(m)[1..] == NatString(-m);
      assert NumberString(n)[1..] == NatString(-n);
    }
  }

  /** `${e.key}`: a missing field prints as `undefined`, a number in decimal. */
  function Interpolated(e: Entity, key: string): (r: string)
    ensures key !in e ==> r == "undefined"
    ensures key in e && e[key].Str? ==> r == e[key].s
    ensures key in e && e[key].Num? ==> r == NumberString(e[key].n)
  {
    if key !in e then "undefined"
    else match e[key]
      case Str(s) => s
      case Num(n) => NumberString(n)
  }

  /** `{x}` as a JSX child: a missing field renders nothing. */
  function Shown(e: Entity, key: string): (r: string)
    ensures key !in e ==> r == ""
    ensures key in e && e[key].Str? ==> r == e[key].s
    ensures key in e && e[key].Num? ==> r == NumberString(e[key].n)
  {
    if key !in e then ""
    else match e[key]
      case Str(s) => s
      case Num(n) => NumberString(n)
  }

  /** `e.date || `${e.startDate} - ${e.endDate}``: experience and education. */
  function DateLabel(e: Entity): (r: string)
    ensures Text(e, "date") != "" ==> r == Text(e, "date")
    ensures Text(e, "date") == "" ==> r == Interpolated(e, "startDate") + " - " + Interpolated(e, "endDate")
  {
    if Text(e, "date") != "" then Text(e, "date")
    else Interpolated(e, "startDate") + " - " + Interpolated(e, "endDate")
  }

  /** `{e.startDate} - {e.endDate}`: internships, whatever their `date`. */
  function RangeLabel(e: Entity): (r: string)
    ensures r == Shown(e, "startDate") + " - " + Shown(e, "endDate")
  {
    Shown(e, "startDate") + " - " + Shown(e, "endDate")
  }

  /** A label is never empty: with no dates at all it still shows the separator, or `undefined`. */
  lemma LabelsNeverEmpty(e: Entity)
    ensures DateLabel(e) != "" && |RangeLabel(e)| >= 3
    ensures "startDate" !in e && "endDate" !in e && Text(e, "date") == "" ==> DateLabel(e) == "undefined - undefined"
    ensures "startDate" !in e && "endDate" !in e ==> RangeLabel(e) == " - "
  {
    assert |" - "| == 3;
  }

  /** The character class of the bullet test `/^[•\-\*]/`. */
  const Bullets: set<char> := {'•', '-', '*'}

  /** One rendered line of a description, with or without the hanging indent. */
  datatype Line = Line(text: string, indented: bool)

  /** `line.trim().match(/^[...]/)`: the trimmed line starts with a character of the class. */
  predicate StartsWithMarker(line: string, markers: set<char>) {
    var t := Trim(line);
    t != [] && t[0] in markers
  }

  /** `formatDescription(text)`: `null` for empty text, else one block per `'\n'`-separated line. */
  function FormatDescription(text: string, markers: set<char>): (r: Option<seq<Line>>)
    ensures r.None? <==> text == ""
    ensures r.Some? ==> |r.value| == |SplitLines(text)|
    ensures r.Some? ==> forall i :: 0 <= i < |r.value| ==>
      r.value[i].text == SplitLines(text)[i] && (r.value[i].indented <==> StartsWithMarker(r.value[i].text, markers))
  {
    if text == "" then None
    else
      var lines := SplitLines(text);
      Some(seq(|lines|, i requires 0 <= i < |lines| => Line(lines[i], StartsWithMarker(lines[i], markers))))
  }

  /** A description without a newline is one line, indented iff it starts with a marker. */
  lemma SingleLineFormat(text: string, markers: set<char>)
    requires text != "" && NoNewline(text)
    ensures FormatDescription(text, markers) == Some([Line(text, StartsWithMarker(text, markers))])
  {
    assert SplitLines(text) == [text];
    var r := FormatDescription(text, markers).value;
    assert |r| == 1 && r[0] == Line(text, StartsWithMarker(text, markers));
    assert r == [Line(text, StartsWithMarker(text, markers))];
  }

  function Texts(lines: seq<Line>): (r: seq<string>)
    ensures |r| == |lines| && forall i :: 0 <= i < |lines| ==> r[i] == lines[i].text
  {
    seq(|lines|, i requires 0 <= i < |lines| => lines[i].text)
  }

  /** The blocks show the description verbatim: joined back with `'\n'` they give the text, and none holds a newline. */
  lemma FormatKeepsText(text: string, markers: set<char>)
    requires text != ""
    ensures var lines := Texts(FormatDescription(text, markers).value);
      |lines| >= 1 && JoinLines(lines) == text && forall i :: 0 <= i < |lines| ==> NoNewline(lines[i])
  {
    var lines := Texts(FormatDescription(text, markers).value);
    assert lines == SplitLines(text);
    JoinSplitLines(text);
  }

  /** Which lines are indented depends only on the marker class: indentation never changes the text. */
  lemma FormatClassOnlyChangesIndent(text: string, a: set<char>, b: set<char>)
    requires text != ""
    ensures Texts(FormatDescription(text, a).value) == Texts(FormatDescription(text, b).value)
  {
  }
}
