/**
 * What every template reads from the document it is given: missing keys
 * fall back to the destructuring defaults, missing or empty fields to `''`.
 */
module Render {
  import opened Wrappers
  import opened Resume
  import Sections

  /** `entity.key || ''` for a text field. */
  function Text(e: Entity, key: string): (r: string)
    ensures key in e && e[key].Str? ==> r == e[key].s
    ensures key !in e || e[key].Num? ==> r == ""
  {
    if key in e && e[key].Str? then e[key].s else ""
  }

  /** `fields.key || ''`. */
  function Get(f: Fields, key: string): (r: string)
    ensures key in f ==> r == f[key]
    ensures key !in f ==> r == ""
  {
    if key in f then f[key] else ""
  }

  /** `personal = {}`. */
  function PersonalOf(p: Snapshot): Fields {
    p.personal.GetOr(map[])
  }

  /** `experience = []` and the other collections. */
  function ListOf(p: Snapshot, c: Collection): seq<Entity> {
    SnapshotItems(p, c).GetOr([])
  }

  function SkillsOf(p: Snapshot): seq<string> {
    p.skills.GetOr([])
  }

  /** `sectionOrder = [...]`: the eight ids when absent. */
  function OrderOf(p: Snapshot): seq<string> {
    p.sectionOrder.GetOr(Sections.DefaultOrder)
  }

  /** `metadata = {}`, then `metadata.themeColor || fallback`. */
  function ThemeOf(p: Snapshot, fallback: string): (r: string)
    ensures r == "" ==> fallback == ""
    ensures p.metadata.Some? && Get(p.metadata.value, "themeColor") != "" ==> r == p.metadata.value["themeColor"]
    ensures Get(p.metadata.GetOr(map[]), "themeColor") == "" ==> r == fallback
  {
    var color := Get(p.metadata.GetOr(map[]), "themeColor");
    if color != "" then color else fallback
  }

  /** Any of the four biographical fields is filled in. */
  predicate HasBio(f: Fields) {
    Get(f, "birthDate") != "" || Get(f, "civilStatus") != "" || Get(f, "gender") != "" || Get(f, "nationality") != ""
  }

  /** `parts.filter(Boolean).join(sep)`. */
  function JoinNonEmpty(parts: seq<string>, sep: string): string {
    if parts == [] then ""
    else
      var rest := JoinNonEmpty(parts[1..], sep);
      if parts[0] == "" then rest
      else if rest == "" then parts[0]
      else parts[0] + sep + rest
  }

  /** `[ref.position, ref.company].filter(Boolean).join(` ${at || 'at'} `)`. */
  function ReferenceLine(position: string, company: string, at: string): (r: string)
    ensures position != "" && company != "" ==> r == position + " " + (if at == "" then "at" else at) + " " + company
    ensures position == "" ==> r == company
    ensures company == "" ==> r == position
  {
    var sep := " " + (if at == "" then "at" else at) + " ";
    assert [position, company][1..] == [company] && [company][1..] == [];
    assert JoinNonEmpty([company], sep) == company;
    JoinNonEmpty([position, company], sep)
  }

  /** `entity.date || fallback`: an explicit date wins. */
  function DateOr(e: Entity, fallback: string): (r: string)
    ensures Text(e, "date") != "" ==> r == Text(e, "date")
    ensures Text(e, "date") == "" ==> r == fallback
  {
    if Text(e, "date") != "" then Text(e, "date") else fallback
  }

  /** The first character of `s`, or nothing: `(s || '')[0]` renders as empty when undefined. */
  function FirstChar(s: string): (r: string)
    ensures |r| <= 1 && (r == "" <==> s == "")
    ensures s != "" ==> r == [s[0]]
  {
    if s == "" then "" else [s[0]]
  }

  /** The photo when there is one, otherwise the initials of first and last name. */
  datatype Avatar = Photo(url: string) | Initials(letters: string)

  function AvatarOf(p: Snapshot): (a: Avatar)
    ensures Get(PersonalOf(p), "photoUrl") != "" <==> a.Photo?
    ensures a.Photo? ==> a.url == PersonalOf(p)["photoUrl"]
    ensures a.Initials? ==> |a.letters| <= 2
    ensures a.Initials? ==> (a.letters == "" <==> Get(PersonalOf(p), "firstName") == "" && Get(PersonalOf(p), "lastName") == "")
    ensures a.Initials? && Get(PersonalOf(p), "firstName") != "" && Get(PersonalOf(p), "lastName") != "" ==>
      a.letters == [Get(PersonalOf(p), "firstName")[0], Get(PersonalOf(p), "lastName")[0]]
    ensures a.Initials? && Get(PersonalOf(p), "firstName") != "" && Get(PersonalOf(p), "lastName") == "" ==>
      a.letters == [Get(PersonalOf(p), "firstName")[0]]
    ensures a.Initials? && Get(PersonalOf(p), "firstName") == "" && Get(PersonalOf(p), "lastName") != "" ==>
      a.letters == [Get(PersonalOf(p), "lastName")[0]]
  {
    var f := PersonalOf(p);
    if Get(f, "photoUrl") != "" then Photo(Get(f, "photoUrl"))
    else Initials(FirstChar(Get(f, "firstName")) + FirstChar(Get(f, "lastName")))
  }

  /**
   * Setting a photo URL replaces the initials by that photo; clearing it brings
   * back the initials, which the photo never touched.
   */
  lemma PhotoReplacesInitials(p: Snapshot, url: string)
    ensures url != "" ==> AvatarOf(p.(personal := Some(PersonalOf(p)["photoUrl" := url]))) == Photo(url)
    ensures AvatarOf(p.(personal := Some(PersonalOf(p)["photoUrl" := ""]))) ==
      Initials(FirstChar(Get(PersonalOf(p), "firstName")) + FirstChar(Get(PersonalOf(p), "lastName")))
  {
    var f := PersonalOf(p);
    assert Get(f["photoUrl" := url], "firstName") == Get(f, "firstName");
    assert Get(f["photoUrl" := url], "lastName") == Get(f, "lastName");
    assert Get(f["photoUrl" := ""], "firstName") == Get(f, "firstName");
    assert Get(f["photoUrl" := ""], "lastName") == Get(f, "lastName");
  }

  // A lookup `table[key]` in an object literal also finds what the literal
  // inherits from `Object.prototype`.

  /** The inherited names that are already lower case, so a lowered and trimmed label can reach them. */
  const InheritedNames: set<string> := {"constructor", "__proto__"}

  /** What `table[key] ?? default` evaluates to. */
  datatype Looked = Level(n: int) | Inherited   // a function or an object: not nullish, not a number
}
