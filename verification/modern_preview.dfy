/**
 * The Modern live preview (`src/components/templates/Modern.jsx`): a fixed
 * two-column page that never reads `sectionOrder`, hyphenated date labels,
 * and a description formatter whose bullet class is spelled with the
 * misencoded bytes of `•`.
 */
module ModernPreview {
  import opened Wrappers
  import opened JsText
  import opened Resume
  import opened Sections
  import opened Render
  import opened PreviewText

  /**
   * The class as the file spells it, `[â€¢\-\*]`: the three UTF-8 bytes of `•`
   * read as Windows-1252 characters, then `-` and `*`.
   */
  const MisencodedBullets: set<char> := {'\U{E2}', '\U{20AC}', '\U{A2}', '-', '*'}

  /** `formatDescription` as written: a line that starts with `•` gets no hanging indent. */
  function FormatAsWritten(text: string): (r: Option<seq<Line>>)
    ensures r.None? <==> text == ""
    ensures r.Some? ==> forall i :: 0 <= i < |r.value| ==>
      (r.value[i].indented <==> StartsWithMarker(r.value[i].text, MisencodedBullets))
    ensures r.Some? ==> forall i :: 0 <= i < |r.value| && StartsWithMarker(r.value[i].text, {'•'}) ==> !r.value[i].indented
  {
    FormatDescription(text, MisencodedBullets)
  }

  /** `formatDescription` with the class the other previews use: `•`, `-` and `*` lines are indented. */
  function Format(text: string): (r: Option<seq<Line>>)
    ensures r.None? <==> text == ""
    ensures r.Some? ==> forall i :: 0 <= i < |r.value| ==>
      (r.value[i].indented <==> StartsWithMarker(r.value[i].text, Bullets))
    ensures r.Some? ==> forall i :: 0 <= i < |r.value| && StartsWithMarker(r.value[i].text, {'•'}) ==> r.value[i].indented
  {
    FormatDescription(text, Bullets)
  }

  /** The two formatters only disagree on lines that start with `•` or with one of the misread characters. */
  lemma FormattersDisagreeOnlyOnBulletDot(text: string, i: int)
    requires text != "" && 0 <= i < |SplitLines(text)|
    requires var t := Trim(SplitLines(text)[i]); t == [] || t[0] !in {'•', '\U{E2}', '\U{20AC}', '\U{A2}'}
    ensures FormatAsWritten(text).value[i] == Format(text).value[i]
  {
  }

  /** A one-line description whose trimmed text starts with `•` is a plain paragraph as written and a bullet once corrected. */
  lemma BulletDotLine(line: string)
    requires NoNewline(line) && Trim(line) != [] && Trim(line)[0] == '•'
    ensures FormatAsWritten(line) == Some([Line(line, false)])
    ensures Format(line) == Some([Line(line, true)])
  {
    SingleLineFormat(line, MisencodedBullets);
    SingleLineFormat(line, Bullets);
  }

  /** A one-line description whose trimmed text starts with `â` is taken for a bullet as written. */
  lemma CircumflexLine(line: string)
    requires NoNewline(line) && Trim(line) != [] && Trim(line)[0] == '\U{E2}'
    ensures FormatAsWritten(line) == Some([Line(line, true)])
    ensures Format(line) == Some([Line(line, false)])
  {
    SingleLineFormat(line, MisencodedBullets);
    SingleLineFormat(line, Bullets);
  }

  /** The description `• x`. */
  lemma BulletLineNotIndented()
    ensures FormatAsWritten("• x") == Some([Line("• x", false)])
    ensures Format("• x") == Some([Line("• x", true)])
  {
    OneLineStartingWith("• x");
    BulletDotLine("• x");
  }

  /** The description `âge`. */
  lemma CircumflexLineIndented()
    ensures FormatAsWritten("âge") == Some([Line("âge", true)])
    ensures Format("âge") == Some([Line("âge", false)])
  {
    OneLineStartingWith("âge");
    CircumflexLine("âge");
  }

  /** A text with no blank at either end starts its trimmed form. */
  lemma OneLineStartingWith(s: string)
    requires s != [] && !IsSpace(s[0]) && !IsSpace(s[|s| - 1])
    ensures Trim(s) != [] && Trim(s)[0] == s[0]
  {
    TrimKeeps(s);
  }

  // ---------------------------------------------------------------- layout

  /** The main column's fixed order; `personal` stands for the summary. */
  const MainFixed: seq<string> := [Personal, ExperienceId, InternshipsId, EducationId, ReferencesId]

  /** The sidebar's fixed order; `personal` stands for the details block. */
  const SidebarFixed: seq<string> := [Personal, SkillsId, LanguagesId, CertificatesId]

  predicate MainRenders(p: Snapshot, id: string) {
    if id == Personal then Get(PersonalOf(p), "summary") != ""
    else if id == ExperienceId then |ListOf(p, Experience)| > 0
    else if id == InternshipsId then |ListOf(p, Internships)| > 0
    else if id == EducationId then |ListOf(p, Education)| > 0
    else if id == ReferencesId then |ListOf(p, References)| > 0
    else false
  }

  predicate SidebarRenders(p: Snapshot, id: string) {
    if id == Personal then HasBio(PersonalOf(p))
    else if id == SkillsId then |SkillsOf(p)| > 0
    else if id == LanguagesId then |ListOf(p, Languages)| > 0
    else if id == CertificatesId then |ListOf(p, Certificates)| > 0
    else false
  }

  datatype Page = Page(theme: string, main: seq<string>, sidebar: seq<string>)

  /** The main-column blocks that have something to render. */
  function MainShownIds(p: Snapshot): (r: set<string>)
    ensures forall x :: x in r <==> x in MainFixed && MainRenders(p, x)
  {
    set x | x in MainFixed && MainRenders(p, x)
  }

  /** The sidebar blocks that have something to render. */
  function SidebarShownIds(p: Snapshot): (r: set<string>)
    ensures forall x :: x in r <==> x in SidebarFixed && SidebarRenders(p, x)
  {
    set x | x in SidebarFixed && SidebarRenders(p, x)
  }

  /** The fixed main order with the blocks that render nothing left out. */
  function MainShown(p: Snapshot): (r: seq<string>)
    ensures r == KeepOnly(MainFixed, MainShownIds(p))
    ensures forall x :: x in r <==> x in MainFixed && MainRenders(p, x)
  {
    KeepOnly(MainFixed, MainShownIds(p))
  }

  /** The fixed sidebar order with the blocks that render nothing left out. */
  function SidebarShown(p: Snapshot): (r: seq<string>)
    ensures r == KeepOnly(SidebarFixed, SidebarShownIds(p))
    ensures forall x :: x in r <==> x in SidebarFixed && SidebarRenders(p, x)
  {
    KeepOnly(SidebarFixed, SidebarShownIds(p))
  }

  /**
   * The whole preview. `metadata.themeColor` and `personal.firstName` are read
   * without a default, so a document lacking either throws.
   */
  function View(p: Snapshot): (r: Attempt<Page>)
    ensures r.Threw? <==> p.metadata.None? || p.personal.None?
    ensures r.Done? ==> r.result.theme == ThemeOf(p, "#3B82F6") && r.result.theme != ""
    ensures r.Done? ==> r.result.main == KeepOnly(MainFixed, MainShownIds(p))
    ensures r.Done? ==> r.result.sidebar == KeepOnly(SidebarFixed, SidebarShownIds(p))
    ensures r.Done? ==> forall x :: x in r.result.main <==> x in MainFixed && MainRenders(p, x)
    ensures r.Done? ==> forall x :: x in r.result.sidebar <==> x in SidebarFixed && SidebarRenders(p, x)
  {
    if p.metadata.None? || p.personal.None? then Threw
    else Done(Page(ThemeOf(p, "#3B82F6"), MainShown(p), SidebarShown(p)))
  }

  /** Each block shows at most once, whatever the document. */
  lemma BlocksShowOnce(p: Snapshot)
    ensures Distinct(MainShown(p)) && Distinct(SidebarShown(p))
  {
    KeepOnlyDistinct(MainFixed, MainShownIds(p));
    KeepOnlyDistinct(SidebarFixed, SidebarShownIds(p));
  }

  /** Reordering the sections in the editor does not change this preview. */
  lemma IgnoresSectionOrder(p: Snapshot, order: Option<seq<string>>)
    ensures View(p.(sectionOrder := order)) == View(p)
  {
    var q := p.(sectionOrder := order);
    forall c ensures ListOf(q, c) == ListOf(p, c) {
    }
    assert forall x :: MainRenders(q, x) == MainRenders(p, x);
    assert forall x :: SidebarRenders(q, x) == SidebarRenders(p, x);
    assert MainShownIds(q) == MainShownIds(p);
    assert SidebarShownIds(q) == SidebarShownIds(p);
  }

  /** `{ref.position} {ref.company && `at ${ref.company}`}`. */
  function ReferenceLine(position: string, company: string): (r: string)
    ensures company == "" ==> r == position + " "
    ensures company != "" ==> r == position + " at " + company
  {
    position + " " + (if company == "" then "" else "at " + company)
  }
}
