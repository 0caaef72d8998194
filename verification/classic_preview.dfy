/**
 * The Classic live preview (`src/components/templates/Classic.jsx`): one
 * column in a fixed order that never reads `sectionOrder`, with hyphenated
 * date labels and the shared bullet detector.
 */
module ClassicPreview {
  import opened Wrappers
  import opened JsText
  import opened Resume
  import opened Sections
  import opened Render
  import opened PreviewText

  /** `formatDescription`: `•`, `-` and `*` lines get the hanging indent. */
  function Format(text: string): (r: Option<seq<Line>>)
    ensures r.None? <==> text == ""
    ensures r.Some? ==> forall i :: 0 <= i < |r.value| ==>
      (r.value[i].indented <==> StartsWithMarker(r.value[i].text, Bullets))
  {
    FormatDescription(text, Bullets)
  }

  /** The fixed order of the blocks under the header; `personal` stands for the summary. */
  const Fixed: seq<string> :=
    [Personal, ExperienceId, InternshipsId, EducationId, SkillsId, LanguagesId, CertificatesId, ReferencesId]

  predicate Renders(p: Snapshot, id: string) {
    if id == Personal then Get(PersonalOf(p), "summary") != ""
    else if id == ExperienceId then |ListOf(p, Experience)| > 0
    else if id == InternshipsId then |ListOf(p, Internships)| > 0
    else if id == EducationId then |ListOf(p, Education)| > 0
    else if id == SkillsId then |SkillsOf(p)| > 0
    else if id == LanguagesId then |ListOf(p, Languages)| > 0
    else if id == CertificatesId then |ListOf(p, Certificates)| > 0
    else if id == ReferencesId then |ListOf(p, References)| > 0
    else false
  }

  datatype Page = Page(details: bool, blocks: seq<string>)

  /** The page: the details row when any biographical field is set, then the blocks that render, in the fixed order. */
  function View(p: Snapshot): (r: Attempt<Page>)
    ensures r.Threw? <==> p.personal.None?
    ensures r.Done? ==> (r.result.details <==> HasBio(PersonalOf(p)))
    ensures r.Done? ==> forall x :: x in r.result.blocks <==> x in Fixed && Renders(p, x)
    ensures r.Done? ==> r.result.blocks == KeepOnly(DefaultOrder, set x | x in Fixed && Renders(p, x))
  {
    if p.personal.None? then Threw
    else Done(Page(HasBio(PersonalOf(p)), KeepOnly(Fixed, set x | x in Fixed && Renders(p, x))))
  }

  /** The blocks come in the canonical order whatever `sectionOrder` says. */
  lemma IgnoresSectionOrder(p: Snapshot, order: Option<seq<string>>)
    ensures View(p.(sectionOrder := order)) == View(p)
  {
    var q := p.(sectionOrder := order);
    forall c ensures ListOf(q, c) == ListOf(p, c) {
    }
    assert forall x :: Renders(q, x) == Renders(p, x);
    assert (set x | x in Fixed && Renders(q, x)) == set x | x in Fixed && Renders(p, x);
  }

  /** `{ref.position} at {ref.company}`: the word `at` shows even when a side is empty. */
  function ReferenceLine(position: string, company: string): (r: string)
    ensures |r| == |position| + |company| + 4
    ensures r[..|position|] == position && r[|position| + 4..] == company
    ensures r[|position|..|position| + 4] == " at "
  {
    position + " at " + company
  }

  /** Once the length of the position is known, a line gives back the position and the company. */
  lemma ReferenceLineReadsBack(p1: string, c1: string, p2: string, c2: string)
    requires |p1| == |p2| && ReferenceLine(p1, c1) == ReferenceLine(p2, c2)
    ensures p1 == p2 && c1 == c2
  {
    var r := ReferenceLine(p1, c1);
    assert p1 == r[..|p1|] == p2;
    assert c1 == r[|p1| + 4..] == c2;
  }
}
