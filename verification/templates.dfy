/**
 * The template registry (`src/config/templates.js`), the export hook's
 * lookup in it (`src/hooks/usePDFGenerator.js`) and the live preview's own
 * table (`src/components/preview/Preview.jsx`).
 */
module Templates {
  import opened Wrappers

  /** The three layouts, each with a live and an exported form. */
  datatype Layout = Modern | Classic | Creative

  /** An entry of `TEMPLATE_REGISTRY`; `pdf` names the exported form it loads. */
  datatype Entry = Entry(id: string, name: string, isPremium: bool, preview: Layout, pdf: Layout)

  const Registry: seq<Entry> := [
    Entry("modern", "Modern Professional", false, Modern, Modern),
    Entry("classic", "Classic Elegant", false, Classic, Classic),
    Entry("creative", "Creative Visual", true, Creative, Creative)
  ]

  /** Three entries with distinct ids, each pairing a layout's preview with its own export. */
  lemma RegistryShape()
    ensures |Registry| == 3
    ensures forall i, j :: 0 <= i < j < |Registry| ==> Registry[i].id != Registry[j].id
    ensures forall i :: 0 <= i < |Registry| ==> Registry[i].preview == Registry[i].pdf
    ensures forall i :: 0 <= i < |Registry| ==> (Registry[i].isPremium <==> Registry[i].id == "creative")
  {
  }

  /** `entries.find(t => t.id === id)`: the first entry with that id, or `undefined`. */
  function Find(entries: seq<Entry>, id: string): (r: Option<Entry>)
    ensures r.Some? ==> r.value in entries && r.value.id == id
    ensures r.None? <==> forall i :: 0 <= i < |entries| ==> entries[i].id != id
  {
    if entries == [] then None
    else if entries[0].id == id then Some(entries[0])
    else Find(entries[1..], id)
  }

  /** `find` stops at the first match. */
  lemma {:induction false} FindIsFirst(entries: seq<Entry>, id: string, k: int)
    requires 0 <= k < |entries| && entries[k].id == id
    requires forall i :: 0 <= i < k ==> entries[i].id != id
    ensures Find(entries, id) == Some(entries[k])
  {
    if k > 0 {
      FindIsFirst(entries[1..], id, k - 1);
    }
  }

  /** `getTemplateById(id)`. */
  function GetTemplateById(id: string): (r: Option<Entry>)
    ensures r.Some? <==> id in {"modern", "classic", "creative"}
    ensures r.Some? ==> r.value.id == id && r.value in Registry
  {
    assert Registry[0].id == "modern" && Registry[1].id == "classic" && Registry[2].id == "creative";
    Find(Registry, id)
  }

  predicate KnownTemplate(id: string) {
    id in {"modern", "classic", "creative"}
  }

  /** `usePDFGenerator`: the entry's export for a known id, `null` for any other. */
  function PdfFor(templateId: string): (r: Option<Layout>)
    ensures r.Some? <==> KnownTemplate(templateId)
    ensures templateId == "modern" ==> r == Some(Modern)
    ensures templateId == "classic" ==> r == Some(Classic)
    ensures templateId == "creative" ==> r == Some(Creative)
  {
    match GetTemplateById(templateId)
    case None => None
    case Some(e) => Some(e.pdf)
  }

}
