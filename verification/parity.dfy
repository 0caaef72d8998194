/**
 * How the copies of the same derivation relate: the three export templates'
 * date ranges and the two dot scales agree, while the live previews differ
 * from the exports in their date labels, proficiency display, section order
 * and summary placement; and the preview's bullet detector agrees with the
 * editor's bullet continuation.
 */
module Parity {
  import opened Wrappers
  import opened JsText
  import opened Resume
  import opened Sections
  import opened Render
  import opened PreviewText
  import Editor
  import ModernPdf
  import CreativePdf
  import ClassicPdf
  import ModernPreview
  import CreativePreview

  /** The three copies of `safeDate` are the same function. */
  lemma SafeDateCopiesAgree(start: string, end: string)
    ensures ModernPdf.SafeDate(start, end) == CreativePdf.SafeDate(start, end) == ClassicPdf.SafeDate(start, end)
  {
  }

  /** The two copies of the dot scale agree on every label and every level. */
  lemma DotScalesAgree(proficiency: string, filled: int)
    ensures ModernPdf.FilledDots(proficiency) == CreativePdf.FilledDots(proficiency)
    ensures ModernPdf.Dots(filled) == CreativePdf.Dots(filled)
  {
  }

  /** A lower-case word with no blanks is its own proficiency key. */
  lemma {:induction false} LowerWordIsItsKey(s: string)
    requires s != [] && forall i :: 0 <= i < |s| ==> 'a' <= s[i] <= 'z'
    ensures ModernPdf.ProficiencyKey(s) == s
  {
    forall i | 0 <= i < |s| ensures ToLower(s[i]) == s[i] {
    }
    LowerStringKeeps(s);
    assert !IsSpace(s[0]) && !IsSpace(s[|s| - 1]);
    TrimKeeps(s);
  }

  /**
   * On the five labels the live preview knows, its bar never ranks a label
   * above one that the export gives more dots: the two scales are ordered alike,
   * though the export merges `fluent` with `advanced`.
   */
  lemma PercentAndDotsOrderedAlike(a: string, b: string)
    requires a in {"native", "fluent", "advanced", "intermediate", "basic"}
    requires b in {"native", "fluent", "advanced", "intermediate", "basic"}
    requires CreativePreview.ProficiencyPercent(a).n > CreativePreview.ProficiencyPercent(b).n
    ensures ModernPdf.FilledDots(a) >= ModernPdf.FilledDots(b)
    ensures a == "fluent" && b == "advanced" ==> ModernPdf.FilledDots(a) == ModernPdf.FilledDots(b)
  {
    WordLevel(a);
    WordLevel(b);
  }

  /** A label the live preview knows scores the export's table level for that same word. */
  lemma WordLevel(s: string)
    requires s in {"native", "fluent", "advanced", "intermediate", "basic"}
    ensures ModernPdf.FilledDots(s) == (if s == "native" then 5 else if s == "fluent" || s == "advanced" then 4 else if s == "intermediate" then 3 else 2)
    ensures CreativePreview.ProficiencyPercent(s) ==
      CreativePreview.Percent(if s == "native" then 100 else if s == "fluent" then 90 else if s == "advanced" then 75 else if s == "intermediate" then 50 else 30)
  {
    if s == "native" {
      KnownWord("native", 5);
    } else if s == "fluent" {
      KnownWord("fluent", 4);
    } else if s == "advanced" {
      KnownWord("advanced", 4);
    } else if s == "intermediate" {
      KnownWord("intermediate", 3);
    } else {
      KnownWord("basic", 2);
    }
  }

  lemma KnownWord(s: string, n: int)
    requires s != [] && forall i :: 0 <= i < |s| ==> 'a' <= s[i] <= 'z'
    requires ModernPdf.LevelOf(s) == n
    ensures ModernPdf.FilledDots(s) == n
  {
    LowerWordIsItsKey(s);
  }

  /** An open range reads `start – Present` in the exports and `start - ` in the previews. */
  lemma OpenRangeLabelsDiffer(e: Entity, start: string)
    requires Text(e, "date") == ""
    requires "startDate" in e && e["startDate"] == Str(start) && "endDate" in e && e["endDate"] == Str("")
    requires start != ""
    ensures ModernPdf.EntryDate(e) == start + " – Present"
    ensures DateLabel(e) == start + " - "
    ensures ModernPdf.EntryDate(e) != DateLabel(e)
  {
    assert (start + " – Present")[|start| + 1] == '–';
    assert (start + " - ")[|start| + 1] == '-';
  }

  /** With both dates set the two labels differ only in the dash. */
  lemma ClosedRangeLabelsDiffer(e: Entity, start: string, end: string)
    requires Text(e, "date") == ""
    requires "startDate" in e && e["startDate"] == Str(start) && "endDate" in e && e["endDate"] == Str(end)
    requires end != "" && LowerString(end) != "present"
    ensures ModernPdf.EntryDate(e) == start + " – " + end
    ensures DateLabel(e) == start + " - " + end
    ensures ModernPdf.EntryDate(e) != DateLabel(e)
  {
    assert (start + " – " + end)[|start| + 1] == '–';
    assert (start + " - " + end)[|start| + 1] == '-';
  }

  /**
   * After a remote load both exports show the stored colour, or the default
   * blue the loader fills in: the Creative export's purple fallback never
   * shows for a loaded document.
   */
  lemma LoadedThemeShows(snap: Option<Snapshot>)
    ensures var d := LoadRemote(snap);
      && ModernPdf.Theme(ToSnapshot(d)) == CreativePdf.Theme(ToSnapshot(d))
      && ModernPdf.Theme(ToSnapshot(d)) == (if snap.Some? then RemoteThemeColor(snap.value) else "#3B82F6")
  {
    var d := LoadRemote(snap);
    if snap.Some? {
      assert d.metadata["themeColor"] == RemoteThemeColor(snap.value);
    } else {
      assert d.metadata == InitialMetadata;
    }
    assert Get(d.metadata, "themeColor") != "";
  }

  /** The Modern export follows `sectionOrder`; the Modern preview shows the same document the same way whatever the order. */
  lemma ModernOrderOnlyInExport(p: Snapshot)
    requires |ListOf(p, Experience)| > 0 && |ListOf(p, Education)| > 0
    ensures var q := p.(sectionOrder := Some([EducationId, ExperienceId]));
      ModernPdf.Arrange(q).main == [EducationId, ExperienceId] &&
      ModernPreview.View(q) == ModernPreview.View(p)
  {
    var q := p.(sectionOrder := Some([EducationId, ExperienceId]));
    ModernPreview.IgnoresSectionOrder(p, Some([EducationId, ExperienceId]));
    var order := [EducationId, ExperienceId];
    assert OrderOf(q) == order;
    forall c ensures ListOf(q, c) == ListOf(p, c) {
    }
    assert ModernPdf.MainRenders(q, EducationId) && ModernPdf.MainRenders(q, ExperienceId);
    assert EducationId in ModernPdf.MainShownIds(q) && ExperienceId in ModernPdf.MainShownIds(q);
    KeepOnlyAll(order, ModernPdf.MainShownIds(q));
  }

  /** Out of the order, `personal`'s summary still heads the Creative export but leaves the Creative preview. */
  lemma CreativeSummaryPlacement(p: Snapshot)
    requires p.metadata.Some? && p.personal.Some?
    requires Get(PersonalOf(p), "summary") != "" && Personal !in OrderOf(p)
    ensures CreativePdf.Arrange(p).summary
    ensures Personal !in CreativePreview.View(p).result.main
  {
  }

  /** The previews' bullet test with the class `[•\-\*]` picks exactly the lines on which the editor continues a bullet. */
  lemma IndentMatchesEditorBullet(line: string)
    ensures StartsWithMarker(line, Bullets) <==> Editor.BulletPrefix(line).Some?
  {
    var t := TrimStart(line);
    var n := Editor.LeadingSpaces(line);
    assert n == |line| - |t|;
    if t == [] {
      assert forall k :: 0 <= k < |line| ==> IsSpace(line[k]);
      assert Trim(line) == [];
      assert Editor.BulletPrefix(line).None?;
    } else {
      assert t[0] == line[n] && !IsSpace(line[n]);
      assert Trim(line) != [] && Trim(line)[0] == line[n];
      assert Editor.IsMarker(line[n]) <==> line[n] in Bullets;
    }
  }

  /** With both parts present, the Modern preview's reference line is the exports' join. */
  lemma ReferenceLinesAgreeWhenComplete(position: string, company: string)
    requires position != "" && company != ""
    ensures ModernPreview.ReferenceLine(position, company) == ReferenceLine(position, company, "at")
  {
  }
}
