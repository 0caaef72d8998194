/**
 * The derivations of the Modern PDF template
 * (`src/components/templates/pdf/ModernPDF.jsx`): the date range, the
 * five-dot proficiency scale, the split of `sectionOrder` into a main column
 * and a sidebar, and which sections render at all.
 */
module ModernPdf {
  import opened Wrappers
  import opened JsText
  import opened Resume
  import opened Sections
  import opened Render

  // ---------------------------------------------------------------- dates

  /** `safeDate(start, end)`, both already `|| ''`. */
  function SafeDate(start: string, end: string): (r: string)
    ensures start == "" && end == "" ==> r == ""
    ensures (start != "" || end != "") && (end == "" || LowerString(end) == "present") ==> r == start + " – Present"
    ensures end != "" && LowerString(end) != "present" ==> r == start + " – " + end
  {
    if start == "" && end == "" then ""
    else if end == "" || LowerString(end) == "present" then start + " – Present"
    else start + " – " + end
  }

  /** The label is empty exactly when both ends are unknown. */
  lemma SafeDateEmptyIff(start: string, end: string)
    ensures SafeDate(start, end) == "" <==> start == "" && end == ""
  {
    if start != "" || end != "" {
      assert |SafeDate(start, end)| >= |" – "|;
    }
  }

  /** With a start, any spelling of "present" reads like an open end. */
  lemma SafeDatePresentIsOpen(start: string, end: string)
    requires start != "" && LowerString(end) == "present"
    ensures SafeDate(start, end) == SafeDate(start, "")
  {
  }

  /** Experience and education prefer an explicit `date`. */
  function EntryDate(e: Entity): (r: string)
    ensures Text(e, "date") != "" ==> r == Text(e, "date")
    ensures Text(e, "date") == "" ==> r == SafeDate(Text(e, "startDate"), Text(e, "endDate"))
  {
    DateOr(e, SafeDate(Text(e, "startDate"), Text(e, "endDate")))
  }

  /** Internships always show the range. */
  function InternshipDate(e: Entity): (r: string)
    ensures r == SafeDate(Text(e, "startDate"), Text(e, "endDate"))
  {
    SafeDate(Text(e, "startDate"), Text(e, "endDate"))
  }

  /** An internship's `date` field is never shown, unlike an experience's. */
  lemma InternshipIgnoresDate(e: Entity, date: string)
    requires date != ""
    ensures InternshipDate(e["date" := Str(date)]) == InternshipDate(e)
    ensures EntryDate(e["date" := Str(date)]) == date
  {
    assert Text(e["date" := Str(date)], "startDate") == Text(e, "startDate");
    assert Text(e["date" := Str(date)], "endDate") == Text(e, "endDate");
  }

  // ---------------------------------------------------------------- proficiency

  // `profMap`: CEFR levels and English and Portuguese words, grouped by level.
  const LevelFive: set<string> := {"native", "nativo", "c2"}
  const LevelFour: set<string> := {"c1", "fluent", "fluente", "advanced", "avançado"}
  const LevelThree: set<string> := {"b2", "upper-intermediate", "upper intermediate", "b1", "intermediate", "intermediário"}
  const LevelTwo: set<string> := {"a2", "pre-intermediate", "elementary", "básico", "basic"}
  const LevelOne: set<string> := {"a1", "beginner", "iniciante"}
  const KnownLabels: set<string> := LevelFive + LevelFour + LevelThree + LevelTwo + LevelOne

  /** `(lang.proficiency || '').toLowerCase().trim()`. */
  function ProficiencyKey(proficiency: string): string {
    Trim(LowerString(proficiency))
  }

  /** `profMap[key] ?? 3` for an own key: the table's level for a known label, 3 otherwise. */
  function LevelOf(key: string): (n: int)
    ensures 1 <= n <= 5
    ensures key !in KnownLabels ==> n == 3
    ensures key in LevelFive ==> n == 5
    ensures key in LevelFour ==> n == 4
    ensures key in LevelThree ==> n == 3
    ensures key in LevelTwo ==> n == 2
    ensures key in LevelOne ==> n == 1
  {
    if key in LevelFive then 5
    else if key in LevelFour then 4
    else if key in LevelThree then 3
    else if key in LevelTwo then 2
    else if key in LevelOne then 1
    else 3
  }

  /** The number of filled dots for a language's proficiency label. */
  function FilledDots(proficiency: string): (n: int)
    ensures 1 <= n <= 5
    ensures n == LevelOf(ProficiencyKey(proficiency))
  {
    LevelOf(ProficiencyKey(proficiency))
  }

  /** Dot `d` of `[1, 2, 3, 4, 5]` is filled iff `d <= filled`. */
  function Dots(filled: int): (r: seq<bool>)
    ensures |r| == 5
    ensures forall i :: 0 <= i < 5 ==> r[i] == (i + 1 <= filled)
  {
    seq(5, i requires 0 <= i < 5 => i + 1 <= filled)
  }

  function CountFilled(dots: seq<bool>): nat {
    if dots == [] then 0 else (if dots[0] then 1 else 0) + CountFilled(dots[1..])
  }

  /** A run of `k` filled dots followed by empty ones counts `k`. */
  lemma {:induction false} CountPrefix(r: seq<bool>, k: nat)
    requires k <= |r|
    requires forall i :: 0 <= i < |r| ==> r[i] == (i < k)
    ensures CountFilled(r) == k
  {
    if r != [] {
      CountPrefix(r[1..], if k == 0 then 0 else k - 1);
    }
  }

  /** The filled dots are a prefix and there are exactly as many as the level. */
  lemma DotsShowLevel(n: int)
    requires 0 <= n <= 5
    ensures CountFilled(Dots(n)) == n
    ensures forall i, j :: 0 <= i <= j < 5 && Dots(n)[j] ==> Dots(n)[i]
  {
    CountPrefix(Dots(n), n);
  }

  /** Labels differing only in case or surrounding blanks score alike. */
  lemma FilledDotsIgnoresCaseAndBlanks(a: string, b: string)
    requires ProficiencyKey(a) == ProficiencyKey(b)
    ensures FilledDots(a) == FilledDots(b)
  {
  }

  // The lookup as written: `profMap` is an object literal, so `profMap[key]`
  // also finds what it inherits from `Object.prototype`.

  /** `profMap[key] ?? 3` as written. */
  function FilledAsWritten(proficiency: string): (r: Looked)
    ensures ProficiencyKey(proficiency) !in InheritedNames ==> r == Level(FilledDots(proficiency))
  {
    var key := ProficiencyKey(proficiency);
    if key in KnownLabels then Level(FilledDots(proficiency))
    else if key in InheritedNames then Inherited
    else Level(3)
  }

  /** `dot <= filled`: a comparison with a non-number is false. */
  function DotsAsWritten(filled: Looked): (r: seq<bool>)
    ensures filled.Level? ==> r == Dots(filled.n)
    ensures filled.Inherited? ==> r == [false, false, false, false, false]
  {
    match filled
    case Level(n) => Dots(n)
    case Inherited => seq(5, i => false)
  }

  /** The label "constructor" is already its own key. */
  lemma ConstructorKey()
    ensures ProficiencyKey("constructor") == "constructor"
  {
    var s := "constructor";
    forall i | 0 <= i < |s| ensures ToLower(s[i]) == s[i] {
      assert 'a' <= s[i] <= 'z';
    }
    LowerStringKeeps(s);
    assert !IsSpace(s[0]) && !IsSpace(s[|s| - 1]);
    TrimKeeps(s);
  }

  /** No inherited name is a label of the table. */
  lemma InheritedNamesUnknown()
    ensures InheritedNames !! KnownLabels
  {
  }

  /** A label whose key is an inherited name shows no filled dot as written, three with an own-key lookup. */
  lemma InheritedLabelShowsNoDots(proficiency: string)
    requires ProficiencyKey(proficiency) in InheritedNames
    ensures DotsAsWritten(FilledAsWritten(proficiency)) == [false, false, false, false, false]
    ensures CountFilled(Dots(FilledDots(proficiency))) == 3
  {
    InheritedNamesUnknown();
    assert FilledAsWritten(proficiency) == Inherited;
    DotsShowLevel(3);
  }

  /** The label "constructor" is such a label. */
  lemma ConstructorLabelShowsNoDots()
    ensures DotsAsWritten(FilledAsWritten("constructor")) == [false, false, false, false, false]
    ensures CountFilled(Dots(FilledDots("constructor"))) == 3
  {
    ConstructorKey();
    InheritedLabelShowsNoDots("constructor");
  }

  // ---------------------------------------------------------------- layout

  const SidebarIds: set<string> := {Personal, SkillsId, LanguagesId, CertificatesId}
  const MainIds: set<string> := {Personal, ExperienceId, InternshipsId, EducationId, ReferencesId}

  /** `sectionOrder.filter(id => MAIN_IDS.includes(id) && id !== 'personal')`. */
  function MainColumn(order: seq<string>): (r: seq<string>)
    ensures forall x :: x in r <==> x in order && x in MainIds && x != Personal
  {
    KeepOnly(order, MainIds - {Personal})
  }

  /** `sectionOrder.filter(id => SIDEBAR_IDS.includes(id))`. */
  function SidebarColumn(order: seq<string>): (r: seq<string>)
    ensures forall x :: x in r <==> x in order && x in SidebarIds
  {
    KeepOnly(order, SidebarIds)
  }

  /** Every known id of the order lands in exactly one column, and unknown ids in none. */
  lemma ColumnsSplitKnownIds(order: seq<string>)
    ensures multiset(MainColumn(order)) + multiset(SidebarColumn(order)) == multiset(KeepOnly(order, KnownIds))
    ensures forall x :: x in KnownIds && x in order ==> (x in MainColumn(order) <==> x !in SidebarColumn(order))
  {
    var main := MainIds - {Personal};
    assert KnownIds * main == main;
    assert KnownIds * SidebarIds == SidebarIds;
    assert KnownIds == main + SidebarIds;
    KeepOnlyTwice(order, KnownIds, main);
    KeepOnlyTwice(order, KnownIds, SidebarIds);
    DisjointKeepPartition(KeepOnly(order, KnownIds), main, SidebarIds);
  }

  /** Whether the sidebar renders section `id` (`renderSidebarSection` is not null). */
  predicate SidebarRenders(p: Snapshot, id: string) {
    if id == Personal then HasBio(PersonalOf(p))
    else if id == SkillsId then |SkillsOf(p)| > 0
    else if id == LanguagesId then |ListOf(p, Languages)| > 0
    else if id == CertificatesId then |ListOf(p, Certificates)| > 0
    else false
  }

  /** Whether the main column renders section `id`. */
  predicate MainRenders(p: Snapshot, id: string) {
    if id == ExperienceId then |ListOf(p, Experience)| > 0
    else if id == InternshipsId then |ListOf(p, Internships)| > 0
    else if id == EducationId then |ListOf(p, Education)| > 0
    else if id == ReferencesId then |ListOf(p, References)| > 0
    else false
  }

  /** What the page shows: the summary box and the sections of each column, in order. */
  datatype Layout = Layout(summary: bool, main: seq<string>, sidebar: seq<string>)

  /** The main-column sections that have something to render. */
  function MainShownIds(p: Snapshot): (r: set<string>)
    ensures forall x :: x in r <==> x in MainIds && x != Personal && MainRenders(p, x)
  {
    set x | x in MainIds && x != Personal && MainRenders(p, x)
  }

  /** The sidebar sections that have something to render. */
  function SidebarShownIds(p: Snapshot): (r: set<string>)
    ensures forall x :: x in r <==> x in SidebarIds && SidebarRenders(p, x)
  {
    set x | x in SidebarIds && SidebarRenders(p, x)
  }

  /** The summary box; each column is the order filtered to its sections that render, repeats and all. */
  function Arrange(p: Snapshot): (l: Layout)
    ensures l.summary <==> Get(PersonalOf(p), "summary") != ""
    ensures l.main == KeepOnly(OrderOf(p), MainShownIds(p))
    ensures l.sidebar == KeepOnly(OrderOf(p), SidebarShownIds(p))
    ensures forall x :: x in l.main <==> x in OrderOf(p) && x in MainIds && x != Personal && MainRenders(p, x)
    ensures forall x :: x in l.sidebar <==> x in OrderOf(p) && x in SidebarIds && SidebarRenders(p, x)
  {
    var shownMain := MainShownIds(p);
    var shownSide := SidebarShownIds(p);
    KeepOnlyTwice(OrderOf(p), MainIds - {Personal}, shownMain);
    assert (MainIds - {Personal}) * shownMain == shownMain;
    KeepOnlyTwice(OrderOf(p), SidebarIds, shownSide);
    assert SidebarIds * shownSide == shownSide;
    Layout(Get(PersonalOf(p), "summary") != "",
      KeepOnly(MainColumn(OrderOf(p)), shownMain),
      KeepOnly(SidebarColumn(OrderOf(p)), shownSide))
  }

  /** An order made of two parts lays out as the first part's sections, then the second's, in each column. */
  lemma ArrangeFollowsOrder(p: Snapshot, s: seq<string>, t: seq<string>)
    requires OrderOf(p) == s + t
    ensures Arrange(p).main == KeepOnly(s, MainShownIds(p)) + KeepOnly(t, MainShownIds(p))
    ensures Arrange(p).sidebar == KeepOnly(s, SidebarShownIds(p)) + KeepOnly(t, SidebarShownIds(p))
  {
    KeepOnlyAppend(s, t, MainShownIds(p));
    KeepOnlyAppend(s, t, SidebarShownIds(p));
  }

  /** A section that renders appears as often as the order lists it; one that does not, never. */
  lemma ArrangeRepeats(p: Snapshot, x: string)
    ensures multiset(Arrange(p).main)[x] == if x in MainShownIds(p) then multiset(OrderOf(p))[x] else 0
    ensures multiset(Arrange(p).sidebar)[x] == if x in SidebarShownIds(p) then multiset(OrderOf(p))[x] else 0
  {
    KeepOnlyCounts(OrderOf(p), MainShownIds(p), x);
    KeepOnlyCounts(OrderOf(p), SidebarShownIds(p), x);
  }

  /** Empty collections and no biographical field: both columns are empty. */
  lemma NothingToShow(p: Snapshot)
    requires !HasBio(PersonalOf(p)) && |SkillsOf(p)| == 0
    requires forall c :: |ListOf(p, c)| == 0
    ensures Arrange(p).main == [] && Arrange(p).sidebar == []
  {
    assert |ListOf(p, Experience)| == 0 && |ListOf(p, Internships)| == 0;
    assert |ListOf(p, Education)| == 0 && |ListOf(p, References)| == 0;
    assert |ListOf(p, Languages)| == 0 && |ListOf(p, Certificates)| == 0;
    NoMemberIsEmpty(Arrange(p).main);
    NoMemberIsEmpty(Arrange(p).sidebar);
  }

  /** `metadata.themeColor || '#3B82F6'`. */
  function Theme(p: Snapshot): (r: string)
    ensures r != ""
    ensures Get(p.metadata.GetOr(map[]), "themeColor") != "" ==> r == p.metadata.value["themeColor"]
    ensures Get(p.metadata.GetOr(map[]), "themeColor") == "" ==> r == "#3B82F6"
  {
    ThemeOf(p, "#3B82F6")
  }
}
