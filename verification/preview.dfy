/**
 * The live preview (`src/components/preview/Preview.jsx`): picks a template
 * from `metadata.templateId` through its own table, falling back to Modern,
 * and hands it the whole document.
 */
module Preview {
  import opened Wrappers
  import opened JsText
  import opened Resume
  import opened Templates
  import ModernPreview
  import ClassicPreview
  import CreativePreview

  /** `metadata.templateId`, absent when the key is missing. */
  function TemplateKey(d: Document): Option<string> {
    if "templateId" in d.metadata then Some(d.metadata["templateId"]) else None
  }

  /**
   * What `templates[templateId] || Modern` finds: one of the three templates,
   * or the inherited `Object.prototype.toString`, which React calls as a
   * component with no receiver and which returns the text `[object Undefined]`.
   */
  datatype Component = Template(layout: Layout) | ObjectToString

  /** The one inherited name whose function, called without a receiver, returns instead of throwing. */
  const ToStringName := "toString"

  /** The text `Object.prototype.toString` returns for an `undefined` receiver. */
  const UndefinedTag := "[object Undefined]"

  /**
   * `templates[templateId] || Modern`. The table is an object literal, so a
   * name inherited from `Object.prototype` finds something: `toString`
   * renders as text, and every other one throws once rendered (a method that
   * needs a receiver, `Object` returning the props object, or the prototype
   * object itself).
   */
  function Choose(templateId: Option<string>): (r: Attempt<Component>)
    ensures templateId == Some("modern") ==> r == Done(Template(Modern))
    ensures templateId == Some("classic") ==> r == Done(Template(Classic))
    ensures templateId == Some("creative") ==> r == Done(Template(Creative))
    ensures r == Done(ObjectToString) <==> templateId == Some(ToStringName)
    ensures r.Threw? <==> templateId.Some? && templateId.value in ObjectPrototypeNames - {ToStringName}
    ensures templateId.None? || (!KnownTemplate(templateId.value) && templateId.value !in ObjectPrototypeNames) ==>
      r == Done(Template(Modern))
  {
    match templateId
    case None => Done(Template(Modern))
    case Some(id) =>
      if id == "modern" then Done(Template(Modern))
      else if id == "classic" then Done(Template(Classic))
      else if id == "creative" then Done(Template(Creative))
      else if id == ToStringName then Done(ObjectToString)
      else if id in ObjectPrototypeNames then Threw
      else Done(Template(Modern))
  }

  /** What the preview pane shows. */
  datatype Pane = ModernPane(modern: ModernPreview.Page)
                | ClassicPane(classic: ClassicPreview.Page)
                | CreativePane(creative: CreativePreview.Page)
                | TextPane(text: string)

  /** `<TemplateComponent data={resumeData} />`: the chosen template renders the document as it is. */
  function Show(d: Document): (r: Attempt<Pane>)
    ensures Choose(TemplateKey(d)).Threw? ==> r.Threw?
    ensures Choose(TemplateKey(d)) == Done(ObjectToString) ==> r == Done(TextPane(UndefinedTag))
    ensures Choose(TemplateKey(d)) == Done(Template(Modern)) ==>
      (r.Done? <==> ModernPreview.View(ToSnapshot(d)).Done?) && (r.Done? ==> r.result == ModernPane(ModernPreview.View(ToSnapshot(d)).result))
    ensures Choose(TemplateKey(d)) == Done(Template(Classic)) ==>
      (r.Done? <==> ClassicPreview.View(ToSnapshot(d)).Done?) && (r.Done? ==> r.result == ClassicPane(ClassicPreview.View(ToSnapshot(d)).result))
    ensures Choose(TemplateKey(d)) == Done(Template(Creative)) ==>
      (r.Done? <==> CreativePreview.View(ToSnapshot(d)).Done?) && (r.Done? ==> r.result == CreativePane(CreativePreview.View(ToSnapshot(d)).result))
  {
    var data := ToSnapshot(d);
    match Choose(TemplateKey(d))
    case Threw => Threw
    case Done(ObjectToString) => Done(TextPane(UndefinedTag))
    case Done(Template(Modern)) =>
      var v := ModernPreview.View(data);
      if v.Threw? then Threw else Done(ModernPane(v.result))
    case Done(Template(Classic)) =>
      var v := ClassicPreview.View(data);
      if v.Threw? then Threw else Done(ClassicPane(v.result))
    case Done(Template(Creative)) =>
      var v := CreativePreview.View(data);
      if v.Threw? then Threw else Done(CreativePane(v.result))
  }

  /**
   * A document held by the editor always previews unless its template id
   * names an inherited property other than `toString`; with `toString` the
   * pane holds only the text `[object Undefined]`.
   */
  lemma StoredDocumentShows(d: Document)
    requires TemplateKey(d).None? || TemplateKey(d).value !in ObjectPrototypeNames - {ToStringName}
    ensures Show(d).Done?
    ensures Show(d).result.TextPane? <==> TemplateKey(d) == Some(ToStringName)
  {
  }

  /** The choice depends on `metadata.templateId` alone. */
  lemma ChoiceDependsOnTemplateIdOnly(d: Document, e: Document)
    requires TemplateKey(d) == TemplateKey(e)
    ensures Choose(TemplateKey(d)) == Choose(TemplateKey(e))
    ensures Show(d).Done? && Show(e).Done? ==> (Show(d).result.ModernPane? <==> Show(e).result.ModernPane?)
  {
  }

  /**
   * For a registered id the preview and the export agree; for an unknown one
   * the export has nothing while the preview falls back to Modern, or, for an
   * inherited name, does not show a template at all.
   */
  lemma PreviewAndExportLookups(id: string)
    ensures KnownTemplate(id) ==> Choose(Some(id)) == Done(Template(PdfFor(id).value)) && GetTemplateById(id).value.preview == PdfFor(id).value
    ensures !KnownTemplate(id) ==> PdfFor(id).None?
    ensures !KnownTemplate(id) && id !in ObjectPrototypeNames ==> Choose(Some(id)) == Done(Template(Modern))
    ensures id in ObjectPrototypeNames ==> !Choose(Some(id)).Done? || !Choose(Some(id)).result.Template?
  {
    RegistryShape();
  }
}
