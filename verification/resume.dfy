/**
 * The resume document and the functional updaters the resume context hands to
 * the editor (`src/context/ResumeContext.jsx`): every one of them is a pure
 * function of the previous document, as React's `setResumeData(prev => ...)`
 * updaters are.
 */
module Resume {
  import opened Wrappers
  import Sections

  /** A JSON scalar held by an entity: ids are numbers, every edited field a string. */
  datatype Value = Num(n: int) | Str(s: string)

  /** An entry of one of the six collections: a JSON object. */
  type Entity = map<string, Value>

  /** `metadata` and `personal`: JSON objects of strings. */
  type Fields = map<string, string>

  /** The six collections of entries with ids. */
  datatype Collection = Experience | Internships | Education | Languages | Certificates | References

  /** The two objects `updateSection` merges into. */
  datatype Group = MetadataGroup | PersonalGroup

  datatype Document = Document(
    metadata: Fields,
    personal: Fields,
    experience: seq<Entity>,
    education: seq<Entity>,
    skills: seq<string>,
    languages: seq<Entity>,
    certificates: seq<Entity>,
    references: seq<Entity>,
    internships: seq<Entity>,
    sectionOrder: seq<string>)

  function Items(d: Document, c: Collection): seq<Entity> {
    match c
    case Experience => d.experience
    case Internships => d.internships
    case Education => d.education
    case Languages => d.languages
    case Certificates => d.certificates
    case References => d.references
  }

  function GroupOf(d: Document, g: Group): Fields {
    match g
    case MetadataGroup => d.metadata
    case PersonalGroup => d.personal
  }

  /** `r` differs from `d` at most in collection `c`. */
  ghost predicate OnlyCollectionChanged(d: Document, r: Document, c: Collection) {
    && r.metadata == d.metadata && r.personal == d.personal
    && r.skills == d.skills && r.sectionOrder == d.sectionOrder
    && forall c' :: c' != c ==> Items(r, c') == Items(d, c')
  }

  function WithItems(d: Document, c: Collection, items: seq<Entity>): (r: Document)
    ensures Items(r, c) == items
    ensures OnlyCollectionChanged(d, r, c)
  {
    match c
    case Experience => d.(experience := items)
    case Internships => d.(internships := items)
    case Education => d.(education := items)
    case Languages => d.(languages := items)
    case Certificates => d.(certificates := items)
    case References => d.(references := items)
  }

  // ---------------------------------------------------------------- the initial state

  const InitialMetadata: Fields := map["templateId" := "modern", "themeColor" := "#3B82F6"]

  const InitialPersonal: Fields := map[
    "firstName" := "", "lastName" := "", "email" := "", "phone" := "",
    "photoUrl" := "", "summary" := "", "birthDate" := "", "civilStatus" := "",
    "gender" := "", "nationality" := "", "website" := "", "signatureUrl" := ""]

  const InitialExperienceEntry: Entity := map[
    "id" := Num(1), "company" := Str(""), "role" := Str(""),
    "startDate" := Str(""), "endDate" := Str(""), "description" := Str("")]

  const InitialDocument: Document := Document(
    InitialMetadata, InitialPersonal, [InitialExperienceEntry], [], [], [], [], [], [],
    Sections.DefaultOrder)

  // ---------------------------------------------------------------- field merge

  /** `r` is `{...base, ...over}`: every key of either, the value of `over` where it has one. */
  ghost predicate MergedOver(r: Fields, base: Fields, over: Fields) {
    && r.Keys == base.Keys + over.Keys
    && (forall k :: k in over ==> r[k] == over[k])
    && (forall k :: k in base && k !in over ==> r[k] == base[k])
  }

  /** Object spread `{...base, ...over}`. */
  function Merge(base: Fields, over: Fields): (r: Fields)
    ensures MergedOver(r, base, over)
  {
    base + over
  }

  /** `updateSection(section, data)`: merges `data` into `metadata` or `personal` and touches nothing else. */
  function UpdateSection(d: Document, g: Group, data: Fields): (r: Document)
    ensures MergedOver(GroupOf(r, g), GroupOf(d, g), data)
    ensures g == MetadataGroup ==> r.personal == d.personal
    ensures g == PersonalGroup ==> r.metadata == d.metadata
    ensures forall c :: Items(r, c) == Items(d, c)
    ensures r.skills == d.skills && r.sectionOrder == d.sectionOrder
  {
    match g
    case MetadataGroup => d.(metadata := Merge(d.metadata, data))
    case PersonalGroup => d.(personal := Merge(d.personal, data))
  }

  // ---------------------------------------------------------------- entities

  /** `entity.id === id`. */
  predicate HasId(e: Entity, id: int) {
    "id" in e && e["id"] == Num(id)
  }

  /** No entry of `items` carries `id`. */
  ghost predicate IdFresh(items: seq<Entity>, id: int) {
    forall e :: e in items ==> !HasId(e, id)
  }

  /** No two entries share an id. */
  ghost predicate UniqueIds(items: seq<Entity>) {
    forall i, j :: 0 <= i < j < |items| && "id" in items[i] && "id" in items[j] ==> items[i]["id"] != items[j]["id"]
  }

  /** The fields (besides `id`) of a new entry of collection `c`. */
  function NewEntityFields(c: Collection): set<string> {
    match c
    case Experience => {"company", "role", "startDate", "endDate", "description"}
    case Internships => {"company", "role", "startDate", "endDate", "description"}
    case Education => {"school", "degree", "startDate", "endDate", "description"}
    case Languages => {"language", "proficiency"}
    case Certificates => {"name", "issuer", "date", "url"}
    case References => {"name", "position", "company", "email", "phone"}
  }

  /** The entry `add<Entity>` appends: the given id, every other field empty, a language `intermediate`. */
  function NewEntity(c: Collection, id: int): (e: Entity)
    ensures HasId(e, id)
    ensures e.Keys == NewEntityFields(c) + {"id"}
    ensures forall k :: k in e && k != "id" ==>
      e[k] == (if c == Languages && k == "proficiency" then Str("intermediate") else Str(""))
  {
    match c
    case Experience =>
      map["id" := Num(id), "company" := Str(""), "role" := Str(""), "startDate" := Str(""),
          "endDate" := Str(""), "description" := Str("")]
    case Internships =>
      map["id" := Num(id), "company" := Str(""), "role" := Str(""), "startDate" := Str(""),
          "endDate" := Str(""), "description" := Str("")]
    case Education =>
      map["id" := Num(id), "school" := Str(""), "degree" := Str(""), "startDate" := Str(""),
          "endDate" := Str(""), "description" := Str("")]
    case Languages =>
      map["id" := Num(id), "language" := Str(""), "proficiency" := Str("intermediate")]
    case Certificates =>
      map["id" := Num(id), "name" := Str(""), "issuer" := Str(""), "date" := Str(""), "url" := Str("")]
    case References =>
      map["id" := Num(id), "name" := Str(""), "position" := Str(""), "company" := Str(""),
          "email" := Str(""), "phone" := Str("")]
  }

  /** `items.map(e => e.id === id ? {...e, [field]: value} : e)`. */
  function SetFieldWhereId(items: seq<Entity>, id: int, field: string, value: string): (r: seq<Entity>)
    ensures |r| == |items|
    ensures forall i :: 0 <= i < |items| ==>
      r[i] == if HasId(items[i], id) then items[i][field := Str(value)] else items[i]
  {
    if items == [] then []
    else
      [if HasId(items[0], id) then items[0][field := Str(value)] else items[0]]
      + SetFieldWhereId(items[1..], id, field, value)
  }

  /** `items.filter(e => e.id !== id)`. */
  function WithoutId(items: seq<Entity>, id: int): (r: seq<Entity>)
    ensures |r| <= |items|
    ensures forall e :: e in r <==> e in items && !HasId(e, id)
  {
    if items == [] then []
    else (if HasId(items[0], id) then [] else [items[0]]) + WithoutId(items[1..], id)
  }

  /** `update<Entity>(id, field, value)`: only the entries carrying `id` change, and only in `field`. */
  function UpdateEntity(d: Document, c: Collection, id: int, field: string, value: string): (r: Document)
    ensures OnlyCollectionChanged(d, r, c)
    ensures |Items(r, c)| == |Items(d, c)|
    ensures forall i :: 0 <= i < |Items(d, c)| ==>
      Items(r, c)[i] == if HasId(Items(d, c)[i], id) then Items(d, c)[i][field := Str(value)] else Items(d, c)[i]
  {
    WithItems(d, c, SetFieldWhereId(Items(d, c), id, field, value))
  }

  /** `add<Entity>()`, with the fresh id `Date.now()` supplied by the caller. */
  function AddEntity(d: Document, c: Collection, id: int): (r: Document)
    requires IdFresh(Items(d, c), id)
    ensures OnlyCollectionChanged(d, r, c)
    ensures Items(r, c) == Items(d, c) + [NewEntity(c, id)]
  {
    WithItems(d, c, Items(d, c) + [NewEntity(c, id)])
  }

  /** `remove<Entity>(id)`: keeps exactly the entries with another id. */
  function RemoveEntity(d: Document, c: Collection, id: int): (r: Document)
    ensures OnlyCollectionChanged(d, r, c)
    ensures forall e :: e in Items(r, c) <==> e in Items(d, c) && !HasId(e, id)
  {
    WithItems(d, c, WithoutId(Items(d, c), id))
  }

  /** `setSkills(list)`: the list is stored as given, duplicates included. */
  function SetSkills(d: Document, skills: seq<string>): (r: Document)
    ensures r.skills == skills
    ensures forall c :: Items(r, c) == Items(d, c)
    ensures r.metadata == d.metadata && r.personal == d.personal && r.sectionOrder == d.sectionOrder
  {
    d.(skills := skills)
  }

  /** `setEducation(list)`: the collection is replaced wholesale. */
  function SetEducation(d: Document, items: seq<Entity>): (r: Document)
    ensures OnlyCollectionChanged(d, r, Education)
    ensures r.education == items
  {
    WithItems(d, Education, items)
  }

  /** `updateSectionOrder(order)`: stored as given, whether or not it is a permutation of the section ids. */
  function SetSectionOrder(d: Document, order: seq<string>): (r: Document)
    ensures r.sectionOrder == order
    ensures forall c :: Items(r, c) == Items(d, c)
    ensures r.metadata == d.metadata && r.personal == d.personal && r.skills == d.skills
  {
    d.(sectionOrder := order)
  }

  // ---------------------------------------------------------------- lemmas on the updaters

  /** Removal keeps the surviving entries in their order: it distributes over concatenation. */
  lemma {:induction false} WithoutIdAppend(s: seq<Entity>, t: seq<Entity>, id: int)
    ensures WithoutId(s + t, id) == WithoutId(s, id) + WithoutId(t, id)
  {
    if s == [] {
      assert s + t == t;
    } else {
      var h := if HasId(s[0], id) then [] else [s[0]];
      assert (s + t)[0] == s[0];
      assert (s + t)[1..] == s[1..] + t;
      assert WithoutId(s + t, id) == h + WithoutId(s[1..] + t, id);
      WithoutIdAppend(s[1..], t, id);
      assert WithoutId(s, id) == h + WithoutId(s[1..], id);
      AppendAssoc(h, WithoutId(s[1..], id), WithoutId(t, id));
    }
  }

  lemma AppendAssoc<T>(a: seq<T>, b: seq<T>, c: seq<T>)
    ensures a + (b + c) == (a + b) + c
  {
  }

  /** Removing an id nobody carries changes nothing. */
  lemma {:induction false} WithoutAbsentId(items: seq<Entity>, id: int)
    requires IdFresh(items, id)
    ensures WithoutId(items, id) == items
  {
    if items != [] {
      assert items[0] in items;
      WithoutAbsentId(items[1..], id);
      assert items == [items[0]] + items[1..];
    }
  }

  /** `remove<Entity>` of an absent id is a no-op. */
  lemma RemoveAbsentIsNoop(d: Document, c: Collection, id: int)
    requires IdFresh(Items(d, c), id)
    ensures RemoveEntity(d, c, id) == d
  {
    WithoutAbsentId(Items(d, c), id);
  }

  /** Removing twice is removing once. */
  lemma RemoveTwiceIsRemoveOnce(d: Document, c: Collection, id: int)
    ensures RemoveEntity(RemoveEntity(d, c, id), c, id) == RemoveEntity(d, c, id)
  {
    RemoveAbsentIsNoop(RemoveEntity(d, c, id), c, id);
  }

  /** Distinct ids survive the append of an entry with a fresh id. */
  lemma AddKeepsIdsUnique(d: Document, c: Collection, id: int)
    requires UniqueIds(Items(d, c)) && IdFresh(Items(d, c), id)
    ensures UniqueIds(Items(AddEntity(d, c, id), c))
  {
    var s := Items(d, c);
    var r := Items(AddEntity(d, c, id), c);
    forall i, j | 0 <= i < j < |r| && "id" in r[i] && "id" in r[j]
      ensures r[i]["id"] != r[j]["id"]
    {
      if j == |s| {
        assert r[i] == s[i] && s[i] in s;
      } else {
        assert r[i] == s[i] && r[j] == s[j];
      }
    }
  }

  /** Entries keep their relative order under removal, so ids stay distinct. */
  lemma {:induction false} WithoutIdKeepsUnique(items: seq<Entity>, id: int)
    requires UniqueIds(items)
    ensures UniqueIds(WithoutId(items, id))
  {
    if items != [] {
      var h := items[0];
      WithoutIdKeepsUnique(items[1..], id);
      var rest := WithoutId(items[1..], id);
      var r := WithoutId(items, id);
      if !HasId(h, id) && "id" in h {
        assert r == [h] + rest;
        forall j | 0 < j < |r| && "id" in r[j] ensures h["id"] != r[j]["id"] {
          assert r[j] in rest;
          var k :| 0 <= k < |items[1..]| && items[1..][k] == r[j];
          assert items[k + 1] == r[j];
        }
      }
    }
  }

  /** A field edit that is not an edit of `id` leaves the ids as they were. */
  lemma UpdateKeepsIdsUnique(d: Document, c: Collection, id: int, field: string, value: string)
    requires UniqueIds(Items(d, c)) && field != "id"
    ensures UniqueIds(Items(UpdateEntity(d, c, id, field, value), c))
  {
    var s := Items(d, c);
    var r := Items(UpdateEntity(d, c, id, field, value), c);
    forall i, j | 0 <= i < j < |r| && "id" in r[i] && "id" in r[j]
      ensures r[i]["id"] != r[j]["id"]
    {
      assert "id" in s[i] && r[i]["id"] == s[i]["id"];
      assert "id" in s[j] && r[j]["id"] == s[j]["id"];
    }
  }

  /**
   * The walk-through of a fresh document: add two education entries, remove
   * the first; one entry with the second id remains and the order of sections
   * is untouched. A rotated order is then stored exactly as given.
   */
  lemma AddTwiceRemoveFirstScenario(first: int, second: int)
    requires first != second
    ensures var d1 := AddEntity(InitialDocument, Education, first);
            var d2 := AddEntity(d1, Education, second);
            var d3 := RemoveEntity(d2, Education, first);
            d3.education == [NewEntity(Education, second)] &&
            d3.sectionOrder == Sections.DefaultOrder &&
            SetSectionOrder(d3, Sections.DefaultOrder[1..] + [Sections.DefaultOrder[0]]).sectionOrder
              == Sections.DefaultOrder[1..] + [Sections.DefaultOrder[0]]
  {
    var d1 := AddEntity(InitialDocument, Education, first);
    assert IdFresh(d1.education, second);
    var d2 := AddEntity(d1, Education, second);
    assert d2.education == [NewEntity(Education, first)] + [NewEntity(Education, second)];
    WithoutIdAppend([NewEntity(Education, first)], [NewEntity(Education, second)], first);
    WithoutAbsentId([NewEntity(Education, second)], first);
  }

  // ---------------------------------------------------------------- loading

  /** A persisted document as JSON: any top-level key may be missing (`None`). */
  datatype Snapshot = Snapshot(
    metadata: Option<Fields>,
    personal: Option<Fields>,
    experience: Option<seq<Entity>>,
    education: Option<seq<Entity>>,
    skills: Option<seq<string>>,
    languages: Option<seq<Entity>>,
    certificates: Option<seq<Entity>>,
    references: Option<seq<Entity>>,
    internships: Option<seq<Entity>>,
    sectionOrder: Option<seq<string>>)

  function SnapshotItems(p: Snapshot, c: Collection): Option<seq<Entity>> {
    match c
    case Experience => p.experience
    case Internships => p.internships
    case Education => p.education
    case Languages => p.languages
    case Certificates => p.certificates
    case References => p.references
  }

  /** The JSON a document is written as: every key present. */
  function ToSnapshot(d: Document): (p: Snapshot)
    ensures forall c :: SnapshotItems(p, c) == Some(Items(d, c))
    ensures p.metadata == Some(d.metadata) && p.personal == Some(d.personal)
    ensures p.skills == Some(d.skills) && p.sectionOrder == Some(d.sectionOrder)
  {
    Snapshot(Some(d.metadata), Some(d.personal), Some(d.experience), Some(d.education), Some(d.skills),
      Some(d.languages), Some(d.certificates), Some(d.references), Some(d.internships),
      Some(d.sectionOrder))
  }

  /** What `localStorage.getItem("resumeData")` yields. */
  datatype LocalCache = NoCache | Unparsable | Cached(parsed: Snapshot)

  /** The initial local load: saved keys over the defaults, `metadata` and `personal` merged field by field. */
  function LoadLocal(cache: LocalCache): (d: Document)
    ensures !cache.Cached? ==> d == InitialDocument
    ensures cache.Cached? ==>
      var p := cache.parsed;
      && (forall c :: Items(d, c) == SnapshotItems(p, c).GetOr(Items(InitialDocument, c)))
      && d.skills == p.skills.GetOr([])
      && d.sectionOrder == p.sectionOrder.GetOr(Sections.DefaultOrder)
      && MergedOver(d.metadata, InitialMetadata, p.metadata.GetOr(map[]))
      && MergedOver(d.personal, InitialPersonal, p.personal.GetOr(map[]))
  {
    match cache
    case NoCache => InitialDocument
    case Unparsable => InitialDocument
    case Cached(p) =>
      Document(
        Merge(InitialMetadata, p.metadata.GetOr(map[])),
        Merge(InitialPersonal, p.personal.GetOr(map[])),
        p.experience.GetOr(InitialDocument.experience),
        p.education.GetOr([]),
        p.skills.GetOr([]),
        p.languages.GetOr([]),
        p.certificates.GetOr([]),
        p.references.GetOr([]),
        p.internships.GetOr([]),
        p.sectionOrder.GetOr(Sections.DefaultOrder))
  }

  /** `data.metadata?.themeColor || "#3B82F6"`. */
  function RemoteThemeColor(p: Snapshot): (color: string)
    ensures color != ""
    ensures p.metadata.Some? && "themeColor" in p.metadata.value && p.metadata.value["themeColor"] != ""
      ==> color == p.metadata.value["themeColor"]
  {
    if p.metadata.Some? && "themeColor" in p.metadata.value && p.metadata.value["themeColor"] != ""
    then p.metadata.value["themeColor"]
    else InitialMetadata["themeColor"]
  }

  /** The remote `metadata`: the stored fields over the defaults, then the theme colour forced non-empty. */
  function RemoteMetadata(p: Snapshot): (m: Fields)
    ensures m.Keys == InitialMetadata.Keys + p.metadata.GetOr(map[]).Keys
    ensures m["themeColor"] == RemoteThemeColor(p) && m["themeColor"] != ""
    ensures forall k :: k in p.metadata.GetOr(map[]) && k != "themeColor" ==> m[k] == p.metadata.value[k]
  {
    Merge(Merge(InitialMetadata, p.metadata.GetOr(map[])), map["themeColor" := RemoteThemeColor(p)])
  }

  /** A remote snapshot merged with the defaults; an empty snapshot is the initial state. */
  function LoadRemote(snap: Option<Snapshot>): (d: Document)
    ensures snap.None? ==> d == InitialDocument
    ensures snap.Some? ==>
      var p := snap.value;
      && (forall c :: Items(d, c) == SnapshotItems(p, c).GetOr(Items(InitialDocument, c)))
      && d.skills == p.skills.GetOr([])
      && d.sectionOrder == p.sectionOrder.GetOr(Sections.DefaultOrder)
      && d.metadata == RemoteMetadata(p)
      && MergedOver(d.personal, InitialPersonal, p.personal.GetOr(map[]))
  {
    match snap
    case None => InitialDocument
    case Some(p) =>
      Document(
        RemoteMetadata(p),
        Merge(InitialPersonal, p.personal.GetOr(map[])),
        p.experience.GetOr(InitialDocument.experience),
        p.education.GetOr([]),
        p.skills.GetOr([]),
        p.languages.GetOr([]),
        p.certificates.GetOr([]),
        p.references.GetOr([]),
        p.internships.GetOr([]),
        p.sectionOrder.GetOr(Sections.DefaultOrder))
  }

  /** A document carrying every default key of `metadata` and `personal`. */
  ghost predicate HasDefaultKeys(d: Document) {
    InitialMetadata.Keys <= d.metadata.Keys && InitialPersonal.Keys <= d.personal.Keys
  }

  lemma MergeOverSuperset(base: Fields, over: Fields)
    requires base.Keys <= over.Keys
    ensures Merge(base, over) == over
  {
    assert Merge(base, over).Keys == over.Keys;
  }

  /** Writing a document to the local cache and loading it back gives the same document. */
  lemma LocalRoundTrip(d: Document)
    requires HasDefaultKeys(d)
    ensures LoadLocal(Cached(ToSnapshot(d))) == d
  {
    MergeOverSuperset(InitialMetadata, d.metadata);
    MergeOverSuperset(InitialPersonal, d.personal);
  }

  /** The same for the remote store, provided the theme colour is not empty. */
  lemma RemoteRoundTrip(d: Document)
    requires HasDefaultKeys(d) && d.metadata["themeColor"] != ""
    ensures LoadRemote(Some(ToSnapshot(d))) == d
  {
    MergeOverSuperset(InitialMetadata, d.metadata);
    MergeOverSuperset(InitialPersonal, d.personal);
    var m := Merge(d.metadata, map["themeColor" := RemoteThemeColor(ToSnapshot(d))]);
    assert m.Keys == d.metadata.Keys;
  }

  /** Both loaders yield every default key of `metadata` and `personal`, whatever they read. */
  lemma LoadersKeepDefaultKeys(cache: LocalCache, snap: Option<Snapshot>)
    ensures HasDefaultKeys(LoadLocal(cache))
    ensures HasDefaultKeys(LoadRemote(snap))
  {
  }
}
