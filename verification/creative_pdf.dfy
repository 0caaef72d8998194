/**
 * The derivations of the Creative PDF template
 * (`src/components/templates/pdf/CreativePDF.jsx`): its own copies of the
 * date range and the dot scale, the split of `sectionOrder` into a coloured
 * sidebar and a main column, the summary box and the initials placeholder.
 */
module CreativePdf {
  import opened Wrappers
  import opened JsText
  import opened Resume
  import opened Sections
  import opened Render

  /** `safeDate(start, end)`, this template's copy. */
  function SafeDate(start: string, end: string): (r: string)
    ensures start == "" && end == "" ==> r == ""
    ensures (start != "" || end != "") && (end == "" || LowerString(end) == "present") ==> r == start + " – Present"
    ensures end != "" && LowerString(end) != "present" ==> r == start + " – " + end
  {
    if start == "" && end == "" then ""
    else if end == "" || LowerString(end) == "present" then start + " – Present"
    else start + " – " + end
  }

  /** Experience and education prefer an explicit `date`; internships always show the range. */
  function EntryDate(e: Entity): (r: string)
    ensures Text(e, "date") != "" ==> r == Text(e, "date")
    ensures Text(e, "date") == "" ==> r == SafeDate(Text(e, "startDate"), Text(e, "endDate"))
  {
    DateOr(e, SafeDate(Text(e, "startDate"), Text(e, "endDate")))
  }

  function InternshipDate(e: Entity): (r: string)
    ensures r == SafeDate(Text(e, "startDate"), Text(e, "endDate"))
  {
    SafeDate(Text(e, "startDate"), Text(e, "endDate"))
  }

  // This template's copy of `profMap`.
  const LevelFive: set<string> := {"native", "nativo", "c2"}
  const LevelFour: set<string> := {"c1", "fluent", "fluente", "advanced", "avançado"}
  const LevelThree: set<string> := {"b2", "upper-intermediate", "upper intermediate", "b1", "intermediate", "intermediário"}
  const LevelTwo: set<string> := {"a2", "pre-intermediate", "elementary", "básico", "basic"}
  const LevelOne: set<string> := {"a1", "beginner", "iniciante"}
  const KnownLabels: set<string> := LevelFive + LevelFour + LevelThree + LevelTwo + LevelOne

  /** `profMap[key] ?? 3` for an own key. */
  function LevelOf(key: string): (n: int)
    ensures 1 <= n <= 5
    ensures key !in KnownLabels ==> n == 3
    ensures key in LevelFive ==> n == 5
    ensures key in LevelFour ==> n == 4
    ensures key in LevelThree ==> n == 3
    ensures key in LevelTwo ==> n == 2
    ensures key in LevelOne ==> n == 1
  {
    if key in LevelFive then 5
    else if key in LevelFour then 4
    else if key in LevelThree then 3
    else if key in LevelTwo then 2
    else if key in LevelOne then 1
    else 3
  }

  /** `(lang.proficiency || '').toLowerCase().trim()`, then the table, looked up as an own key. */
  function FilledDots(proficiency: string): (n: int)
    ensures 1 <= n <= 5
    ensures n == LevelOf(Trim(LowerString(proficiency)))
  {
    LevelOf(Trim(LowerString(proficiency)))
  }

  /** Dot `d` of `[1, 2, 3, 4, 5]` is white iff `d <= filled`. */
  function Dots(filled: int): (r: seq<bool>)
    ensures |r| == 5
    ensures forall i :: 0 <= i < 5 ==> r[i] == (i + 1 <= filled)
  {
    seq(5, i requires 0 <= i < 5 => i + 1 <= filled)
  }

  // The lookup as written: this `profMap` is an object literal too.

  /** `profMap[key] ?? 3` as written. */
  function FilledAsWritten(proficiency: string): (r: Looked)
    ensures Trim(LowerString(proficiency)) !in InheritedNames ==> r == Level(FilledDots(proficiency))
    ensures Trim(LowerString(proficiency)) in InheritedNames ==> r == Inherited
  {
    var key := Trim(LowerString(proficiency));
    InheritedNamesUnknown();
    if key in KnownLabels then Level(FilledDots(proficiency))
    else if key in InheritedNames then Inherited
    else Level(3)
  }

  /** `dot <= filled`: a comparison with a non-number is false, so no dot is white. */
  function DotsAsWritten(filled: Looked): (r: seq<bool>)
    ensures filled.Level? ==> r == Dots(filled.n)
    ensures filled.Inherited? ==> r == [false, false, false, false, false]
  {
    match filled
    case Level(n) => Dots(n)
    case Inherited => seq(5, i => false)
  }

  /** A label whose key is an inherited name shows no white dot as written, and three with an own-key lookup. */
  lemma InheritedLabelShowsNoDots(proficiency: string)
    requires Trim(LowerString(proficiency)) in InheritedNames
    ensures DotsAsWritten(FilledAsWritten(proficiency)) == [false, false, false, false, false]
    ensures Dots(FilledDots(proficiency)) == [true, true, true, false, false]
  {
    InheritedNamesUnknown();
    assert FilledDots(proficiency) == 3;
  }

  /** No inherited name is a label of this table. */
  lemma InheritedNamesUnknown()
    ensures InheritedNames !! KnownLabels
  {
  }

  // ---------------------------------------------------------------- layout

  /** `SIDEBAR_IDS`. */
  const SidebarIds: set<string> := {Personal, SkillsId, LanguagesId}

  /** `sectionOrder.filter(id => SIDEBAR_IDS.includes(id))`. */
  function SidebarColumn(order: seq<string>): (r: seq<string>)
    ensures forall x :: x in r <==> x in order && x in SidebarIds
  {
    KeepOnly(order, SidebarIds)
  }

  /** `sectionOrder.filter(id => !['skills', 'languages', 'personal'].includes(id))`. */
  function MainColumn(order: seq<string>): (r: seq<string>)
    ensures forall x :: x in r <==> x in order && x !in SidebarIds
  {
    DropAll(order, SidebarIds)
  }

  /** The two columns split the order: disjoint, and together every entry, unknown ids included. */
  lemma ColumnsPartitionOrder(order: seq<string>)
    ensures multiset(SidebarColumn(order)) + multiset(MainColumn(order)) == multiset(order)
    ensures forall x :: x in order ==> (x in SidebarColumn(order) <==> x !in MainColumn(order))
  {
    KeepDropPartition(order, SidebarIds);
  }

  /** Both columns keep the order they are given. */
  lemma ColumnsFollowOrder(s: seq<string>, t: seq<string>)
    ensures SidebarColumn(s + t) == SidebarColumn(s) + SidebarColumn(t)
    ensures MainColumn(s + t) == MainColumn(s) + MainColumn(t)
  {
    KeepOnlyAppend(s, t, SidebarIds);
    DropAllAppend(s, t, SidebarIds);
  }

  predicate SidebarRenders(p: Snapshot, id: string) {
    if id == Personal then HasBio(PersonalOf(p))
    else if id == SkillsId then |SkillsOf(p)| > 0
    else if id == LanguagesId then |ListOf(p, Languages)| > 0
    else false
  }

  /** The sections the main column has a case for; any other id renders nothing. */
  const MainCases: set<string> := {ExperienceId, InternshipsId, EducationId, CertificatesId, ReferencesId}

  predicate MainRenders(p: Snapshot, id: string) {
    if id == ExperienceId then |ListOf(p, Experience)| > 0
    else if id == InternshipsId then |ListOf(p, Internships)| > 0
    else if id == EducationId then |ListOf(p, Education)| > 0
    else if id == CertificatesId then |ListOf(p, Certificates)| > 0
    else if id == ReferencesId then |ListOf(p, References)| > 0
    else false
  }

  datatype Layout = Layout(summary: bool, main: seq<string>, sidebar: seq<string>)

  /** The main-column sections that have something to render. */
  function MainShownIds(p: Snapshot): (r: set<string>)
    ensures forall x :: x in r <==> x in MainCases && MainRenders(p, x)
    ensures r !! SidebarIds
  {
    set x | x in MainCases && MainRenders(p, x)
  }

  /** The sidebar sections that have something to render. */
  function SidebarShownIds(p: Snapshot): (r: set<string>)
    ensures forall x :: x in r <==> x in SidebarIds && SidebarRenders(p, x)
  {
    set x | x in SidebarIds && SidebarRenders(p, x)
  }

  /** The main sections of the order that render: the order filtered, repeats and all. */
  function MainShown(p: Snapshot): (r: seq<string>)
    ensures r == KeepOnly(OrderOf(p), MainShownIds(p))
    ensures forall x :: x in r <==> x in OrderOf(p) && x !in SidebarIds && MainRenders(p, x)
  {
    var shown := MainShownIds(p);
    DropThenKeep(OrderOf(p), SidebarIds, shown);
    assert shown - SidebarIds == shown;
    KeepOnly(MainColumn(OrderOf(p)), shown)
  }

  /** The sidebar sections of the order that render: the order filtered, repeats and all. */
  function SidebarShown(p: Snapshot): (r: seq<string>)
    ensures r == KeepOnly(OrderOf(p), SidebarShownIds(p))
    ensures forall x :: x in r <==> x in OrderOf(p) && x in SidebarIds && SidebarRenders(p, x)
  {
    var shown := SidebarShownIds(p);
    KeepOnlyTwice(OrderOf(p), SidebarIds, shown);
    assert SidebarIds * shown == shown;
    KeepOnly(SidebarColumn(OrderOf(p)), shown)
  }

  /** The summary box, then the main sections that render; the sidebar sections that render; each in the order's order. */
  function Arrange(p: Snapshot): (l: Layout)
    ensures l.summary <==> Get(PersonalOf(p), "summary") != ""
    ensures l.main == KeepOnly(OrderOf(p), MainShownIds(p))
    ensures l.sidebar == KeepOnly(OrderOf(p), SidebarShownIds(p))
    ensures forall x :: x in l.main <==> x in OrderOf(p) && x !in SidebarIds && MainRenders(p, x)
    ensures forall x :: x in l.sidebar <==> x in OrderOf(p) && x in SidebarIds && SidebarRenders(p, x)
  {
    Layout(Get(PersonalOf(p), "summary") != "", MainShown(p), SidebarShown(p))
  }

  /** An order made of two parts lays out as the first part's sections, then the second's, in each column. */
  lemma ArrangeFollowsOrder(p: Snapshot, s: seq<string>, t: seq<string>)
    requires OrderOf(p) == s + t
    ensures Arrange(p).main == KeepOnly(s, MainShownIds(p)) + KeepOnly(t, MainShownIds(p))
    ensures Arrange(p).sidebar == KeepOnly(s, SidebarShownIds(p)) + KeepOnly(t, SidebarShownIds(p))
  {
    KeepOnlyAppend(s, t, MainShownIds(p));
    KeepOnlyAppend(s, t, SidebarShownIds(p));
  }

  /** A section that renders appears as often as the order lists it; one that does not, never. */
  lemma ArrangeRepeats(p: Snapshot, x: string)
    ensures multiset(Arrange(p).main)[x] == if x in MainShownIds(p) then multiset(OrderOf(p))[x] else 0
    ensures multiset(Arrange(p).sidebar)[x] == if x in SidebarShownIds(p) then multiset(OrderOf(p))[x] else 0
  {
    KeepOnlyCounts(OrderOf(p), MainShownIds(p), x);
    KeepOnlyCounts(OrderOf(p), SidebarShownIds(p), x);
  }

  /** Whether the summary shows does not depend on where `personal` sits in the order, or whether it is there. */
  lemma SummaryIgnoresOrder(p: Snapshot, order: seq<string>)
    ensures Arrange(p.(sectionOrder := Some(order))).summary == Arrange(p).summary
    ensures Arrange(p.(sectionOrder := Some(order))).summary <==> Get(PersonalOf(p), "summary") != ""
  {
  }

  // ---------------------------------------------------------------- theme

  /** `metadata.themeColor || '#8B5CF6'`. */
  function Theme(p: Snapshot): (r: string)
    ensures r != ""
    ensures Get(p.metadata.GetOr(map[]), "themeColor") != "" ==> r == p.metadata.value["themeColor"]
    ensures Get(p.metadata.GetOr(map[]), "themeColor") == "" ==> r == "#8B5CF6"
  {
    ThemeOf(p, "#8B5CF6")
  }
}
