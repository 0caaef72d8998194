/**
 * The derivations of the Classic PDF template
 * (`src/components/templates/pdf/ClassicPDF.jsx`): a single column that walks
 * `sectionOrder` and emits, per id, the summary, a section or nothing. Unlike
 * the other exports it gives `personal` no default, so a document without it
 * makes the template throw.
 */
module ClassicPdf {
  import opened Wrappers
  import opened JsText
  import opened Resume
  import opened Sections
  import opened Render

  /** `safeDate(start, end)`, this template's copy. */
  function SafeDate(start: string, end: string): (r: string)
    ensures start == "" && end == "" ==> r == ""
    ensures (start != "" || end != "") && (end == "" || LowerString(end) == "present") ==> r == start + " – Present"
    ensures end != "" && LowerString(end) != "present" ==> r == start + " – " + end
  {
    if start == "" && end == "" then ""
    else if end == "" || LowerString(end) == "present" then start + " – Present"
    else start + " – " + end
  }

  /** Experience and education prefer an explicit `date`; internships always show the range. */
  function EntryDate(e: Entity): (r: string)
    ensures Text(e, "date") != "" ==> r == Text(e, "date")
    ensures Text(e, "date") == "" ==> r == SafeDate(Text(e, "startDate"), Text(e, "endDate"))
  {
    DateOr(e, SafeDate(Text(e, "startDate"), Text(e, "endDate")))
  }

  function InternshipDate(e: Entity): (r: string)
    ensures r == SafeDate(Text(e, "startDate"), Text(e, "endDate"))
  {
    SafeDate(Text(e, "startDate"), Text(e, "endDate"))
  }

  /** `• {language} ({proficiency})`: the label as typed, with no scale. */
  function LanguageLine(language: string, proficiency: string): (r: string)
    ensures |r| == |language| + |proficiency| + 5
    ensures r[..2] == "• " && r[2..2 + |language|] == language
    ensures r[2 + |language|..4 + |language|] == " ("
    ensures r[|r| - 1 - |proficiency|..|r| - 1] == proficiency
    ensures r[|r| - 1] == ')'
  {
    "• " + language + " (" + proficiency + ")"
  }

  /** Once the length of the language name is known, a line gives back the name and the label. */
  lemma LanguageLineReadsBack(l1: string, p1: string, l2: string, p2: string)
    requires |l1| == |l2| && LanguageLine(l1, p1) == LanguageLine(l2, p2)
    ensures l1 == l2 && p1 == p2
  {
    var r := LanguageLine(l1, p1);
    assert l1 == r[2..2 + |l1|] == l2;
    assert p1 == r[|r| - 1 - |p1|..|r| - 1] == p2;
  }

  /** `X && X.length > 0` for the section the id names; `default: return null` otherwise. */
  predicate SectionRenders(p: Snapshot, id: string) {
    if id == ExperienceId then |ListOf(p, Experience)| > 0
    else if id == InternshipsId then |ListOf(p, Internships)| > 0
    else if id == EducationId then |ListOf(p, Education)| > 0
    else if id == SkillsId then |SkillsOf(p)| > 0
    else if id == LanguagesId then |ListOf(p, Languages)| > 0
    else if id == CertificatesId then |ListOf(p, Certificates)| > 0
    else if id == ReferencesId then |ListOf(p, References)| > 0
    else false
  }

  /** What one entry of the order becomes on the page. */
  datatype Block = SummaryBlock | SectionBlock(id: string)

  /** The summary for `personal` when there is one, else `renderSection(id)`. */
  function BlockFor(personal: Fields, p: Snapshot, id: string): (r: seq<Block>)
    ensures |r| <= 1
    ensures r == [SummaryBlock] <==> id == Personal && Get(personal, "summary") != ""
    ensures (exists b :: r == [SectionBlock(b)]) <==> id != Personal && SectionRenders(p, id)
    ensures r != [] && r[0].SectionBlock? ==> r[0].id == id
  {
    if id == Personal && Get(personal, "summary") != "" then [SummaryBlock]
    else if SectionRenders(p, id) then [SectionBlock(id)]
    else []
  }

  /** `sectionOrder.map(...)`, with the nulls dropped. */
  function Blocks(personal: Fields, p: Snapshot, order: seq<string>): (r: seq<Block>)
    ensures |r| <= |order|
  {
    if order == [] then [] else BlockFor(personal, p, order[0]) + Blocks(personal, p, order[1..])
  }

  /** The page keeps the order it is given, block for id. */
  lemma {:induction false} BlocksAppend(personal: Fields, p: Snapshot, s: seq<string>, t: seq<string>)
    ensures Blocks(personal, p, s + t) == Blocks(personal, p, s) + Blocks(personal, p, t)
  {
    if s == [] {
      assert s + t == t;
    } else {
      assert (s + t)[0] == s[0];
      assert (s + t)[1..] == s[1..] + t;
      BlocksAppend(personal, p, s[1..], t);
    }
  }

  /** A section shows iff its id is in the order and it has content; the summary iff `personal` is in the order and the summary is set. */
  lemma {:induction false} BlocksMembership(personal: Fields, p: Snapshot, order: seq<string>)
    ensures forall id :: SectionBlock(id) in Blocks(personal, p, order) <==> id in order && id != Personal && SectionRenders(p, id)
    ensures SummaryBlock in Blocks(personal, p, order) <==> Personal in order && Get(personal, "summary") != ""
  {
    if order != [] {
      BlocksMembership(personal, p, order[1..]);
      var h := order[0];
      assert order == [h] + order[1..];
      var b := BlockFor(personal, p, h);
      if SectionRenders(p, h) && h != Personal {
        assert b == [SectionBlock(h)];
      }
      assert Blocks(personal, p, order) == b + Blocks(personal, p, order[1..]);
    }
  }

  /** The whole page: throws on `personal.firstName` when the document has no `personal`. */
  function Page(p: Snapshot): (r: Attempt<seq<Block>>)
    ensures p.personal.None? <==> r.Threw?
    ensures r.Done? ==> r.result == Blocks(p.personal.value, p, OrderOf(p))
  {
    match p.personal
    case None => Threw
    case Some(personal) => Done(Blocks(personal, p, OrderOf(p)))
  }

  /** An id listed twice is rendered twice: the template does not deduplicate the order. */
  lemma RepeatedIdRendersTwice(p: Snapshot, id: string)
    requires p.personal.Some? && id != Personal && SectionRenders(p, id)
    ensures Page(p.(sectionOrder := Some([id, id]))) == Done([SectionBlock(id), SectionBlock(id)])
  {
    var q := p.(sectionOrder := Some([id, id]));
    assert ListOf(q, Experience) == ListOf(p, Experience) && ListOf(q, Internships) == ListOf(p, Internships);
    assert ListOf(q, Education) == ListOf(p, Education) && ListOf(q, Languages) == ListOf(p, Languages);
    assert ListOf(q, Certificates) == ListOf(p, Certificates) && ListOf(q, References) == ListOf(p, References);
    assert SectionRenders(q, id);
    var personal := p.personal.value;
    assert BlockFor(personal, q, id) == [SectionBlock(id)];
    assert [id, id][1..] == [id];
    assert [id][1..] == [];
    assert Blocks(personal, q, [id]) == [SectionBlock(id)];
    assert OrderOf(q) == [id, id] && q.personal == p.personal;
    assert Blocks(personal, q, [id, id]) == [SectionBlock(id)] + Blocks(personal, q, [id]);
    assert [SectionBlock(id)] + [SectionBlock(id)] == [SectionBlock(id), SectionBlock(id)];
    assert Page(q) == Done(Blocks(personal, q, [id, id]));
  }
}
