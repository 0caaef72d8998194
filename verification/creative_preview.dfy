/**
 * The Creative live preview (`src/components/templates/Creative.jsx`): a
 * sidebar and a main column both filtered from `sectionOrder`, with
 * `personal` kept in both, a percentage bar per language and hyphenated date
 * labels.
 */
module CreativePreview {
  import opened Wrappers
  import opened JsText
  import opened Resume
  import opened Sections
  import opened Render
  import opened PreviewText

  /** The width `getProficiencyLevel` yields: a percentage, or something that is not a number. */
  datatype Width = Percent(n: int) | NotANumber

  /**
   * `levels[proficiency] || 50` on the exact label: no case folding and no
   * trimming. A name inherited from `Object.prototype` finds a function or an
   * object, which is truthy and is returned instead of a number.
   */
  function ProficiencyPercent(proficiency: string): (w: Width)
    ensures w.NotANumber? <==> proficiency in ObjectPrototypeNames
    ensures w.Percent? ==> w.n in {100, 90, 75, 50, 30}
    ensures proficiency == "native" ==> w == Percent(100)
    ensures proficiency == "fluent" ==> w == Percent(90)
    ensures proficiency == "advanced" ==> w == Percent(75)
    ensures proficiency == "basic" ==> w == Percent(30)
    ensures proficiency !in {"native", "fluent", "advanced", "basic"} && proficiency !in ObjectPrototypeNames ==> w == Percent(50)
  {
    if proficiency == "native" then Percent(100)
    else if proficiency == "fluent" then Percent(90)
    else if proficiency == "advanced" then Percent(75)
    else if proficiency == "intermediate" then Percent(50)
    else if proficiency == "basic" then Percent(30)
    else if proficiency in ObjectPrototypeNames then NotANumber
    else Percent(50)
  }

  /** Matching is exact: a capitalised label gets the default width. */
  lemma PercentIsCaseSensitive()
    ensures ProficiencyPercent("native") == Percent(100)
    ensures ProficiencyPercent("Native") == Percent(50)
  {
    assert "Native" != "native";
    assert "Native" !in ObjectPrototypeNames;
  }

  // ---------------------------------------------------------------- layout

  /** The ids the sidebar keeps. */
  const SidebarIds: set<string> := {Personal, SkillsId, LanguagesId}

  /** The ids the main column drops; `personal` is not among them. */
  const MainDropped: set<string> := {SkillsId, LanguagesId}

  /** `sectionOrder.filter(id => ["personal", "skills", "languages"].includes(id))`. */
  function SidebarColumn(order: seq<string>): (r: seq<string>)
    ensures forall x :: x in r <==> x in order && x in SidebarIds
  {
    KeepOnly(order, SidebarIds)
  }

  /** `sectionOrder.filter(id => !["skills", "languages"].includes(id))`. */
  function MainColumn(order: seq<string>): (r: seq<string>)
    ensures forall x :: x in r <==> x in order && x !in MainDropped
  {
    DropAll(order, MainDropped)
  }

  /** Every id of the order reaches a column, and `personal` is the only one to reach both. */
  lemma ColumnsCoverOrder(order: seq<string>)
    ensures forall x :: x in order ==> x in SidebarColumn(order) || x in MainColumn(order)
    ensures forall x :: x in SidebarColumn(order) && x in MainColumn(order) <==> x == Personal && Personal in order
    ensures multiset(KeepOnly(order, MainDropped)) + multiset(MainColumn(order)) == multiset(order)
  {
    KeepDropPartition(order, MainDropped);
  }

  predicate SidebarRenders(p: Snapshot, id: string) {
    if id == Personal then HasBio(PersonalOf(p))
    else if id == SkillsId then |SkillsOf(p)| > 0
    else if id == LanguagesId then |ListOf(p, Languages)| > 0
    else false
  }

  /** `personal` shows the summary here; the other cases of `renderMainSection`; anything else renders nothing. */
  predicate MainRenders(p: Snapshot, id: string) {
    if id == Personal then Get(PersonalOf(p), "summary") != ""
    else if id == ExperienceId then |ListOf(p, Experience)| > 0
    else if id == InternshipsId then |ListOf(p, Internships)| > 0
    else if id == EducationId then |ListOf(p, Education)| > 0
    else if id == CertificatesId then |ListOf(p, Certificates)| > 0
    else if id == ReferencesId then |ListOf(p, References)| > 0
    else false
  }

  const MainCases: set<string> := {Personal, ExperienceId, InternshipsId, EducationId, CertificatesId, ReferencesId}

  /** The main-column sections that have something to render. */
  function MainShownIds(p: Snapshot): (r: set<string>)
    ensures forall x :: x in r <==> x in MainCases && MainRenders(p, x)
    ensures r !! MainDropped
  {
    set x | x in MainCases && MainRenders(p, x)
  }

  /** The sidebar sections that have something to render. */
  function SidebarShownIds(p: Snapshot): (r: set<string>)
    ensures forall x :: x in r <==> x in SidebarIds && SidebarRenders(p, x)
  {
    set x | x in SidebarIds && SidebarRenders(p, x)
  }

  /** The main sections of the order that render: the order filtered, repeats and all. */
  function MainShown(p: Snapshot): (r: seq<string>)
    ensures r == KeepOnly(OrderOf(p), MainShownIds(p))
    ensures forall x :: x in r <==> x in OrderOf(p) && x !in MainDropped && MainRenders(p, x)
  {
    var shown := MainShownIds(p);
    assert forall x :: MainRenders(p, x) ==> x in MainCases;
    DropThenKeep(OrderOf(p), MainDropped, shown);
    assert shown - MainDropped == shown;
    KeepOnly(MainColumn(OrderOf(p)), shown)
  }

  /** The sidebar sections of the order that render: the order filtered, repeats and all. */
  function SidebarShown(p: Snapshot): (r: seq<string>)
    ensures r == KeepOnly(OrderOf(p), SidebarShownIds(p))
    ensures forall x :: x in r <==> x in OrderOf(p) && x in SidebarIds && SidebarRenders(p, x)
  {
    var shown := SidebarShownIds(p);
    KeepOnlyTwice(OrderOf(p), SidebarIds, shown);
    assert SidebarIds * shown == shown;
    KeepOnly(SidebarColumn(OrderOf(p)), shown)
  }

  datatype Page = Page(theme: string, avatar: Avatar, sidebar: seq<string>, main: seq<string>)

  /**
   * The whole preview. `metadata.themeColor` and the `personal` fields are read
   * without a default, so a document lacking either throws.
   */
  function View(p: Snapshot): (r: Attempt<Page>)
    ensures r.Threw? <==> p.metadata.None? || p.personal.None?
    ensures r.Done? ==> r.result.theme == ThemeOf(p, "#8B5CF6") && r.result.theme != ""
    ensures r.Done? ==> r.result.avatar == AvatarOf(p)
    ensures r.Done? ==> r.result.sidebar == KeepOnly(OrderOf(p), SidebarShownIds(p))
    ensures r.Done? ==> r.result.main == KeepOnly(OrderOf(p), MainShownIds(p))
    ensures r.Done? ==> forall x :: x in r.result.sidebar <==> x in OrderOf(p) && x in SidebarIds && SidebarRenders(p, x)
    ensures r.Done? ==> forall x :: x in r.result.main <==> x in OrderOf(p) && x !in MainDropped && MainRenders(p, x)
  {
    if p.metadata.None? || p.personal.None? then Threw
    else
      Done(Page(ThemeOf(p, "#8B5CF6"), AvatarOf(p), SidebarShown(p), MainShown(p)))
  }

  /** An order made of two parts shows the first part's sections, then the second's, in each column. */
  lemma ViewFollowsOrder(p: Snapshot, s: seq<string>, t: seq<string>)
    requires p.metadata.Some? && p.personal.Some? && OrderOf(p) == s + t
    ensures View(p).result.main == KeepOnly(s, MainShownIds(p)) + KeepOnly(t, MainShownIds(p))
    ensures View(p).result.sidebar == KeepOnly(s, SidebarShownIds(p)) + KeepOnly(t, SidebarShownIds(p))
  {
    KeepOnlyAppend(s, t, MainShownIds(p));
    KeepOnlyAppend(s, t, SidebarShownIds(p));
  }

  /** A section that renders appears as often as the order lists it; one that does not, never. */
  lemma ViewRepeats(p: Snapshot, x: string)
    requires p.metadata.Some? && p.personal.Some?
    ensures multiset(View(p).result.main)[x] == if x in MainShownIds(p) then multiset(OrderOf(p))[x] else 0
    ensures multiset(View(p).result.sidebar)[x] == if x in SidebarShownIds(p) then multiset(OrderOf(p))[x] else 0
  {
    KeepOnlyCounts(OrderOf(p), MainShownIds(p), x);
    KeepOnlyCounts(OrderOf(p), SidebarShownIds(p), x);
  }

  /** With details and a summary, `personal` shows in both columns; leaving it out of the order hides both. */
  lemma PersonalInBothColumns(p: Snapshot)
    requires p.metadata.Some? && p.personal.Some?
    ensures HasBio(PersonalOf(p)) && Get(PersonalOf(p), "summary") != "" && Personal in OrderOf(p) ==>
      Personal in View(p).result.sidebar && Personal in View(p).result.main
    ensures Personal !in OrderOf(p) ==> Personal !in View(p).result.sidebar && Personal !in View(p).result.main
  {
  }
}
