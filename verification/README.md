# CVMaker core, modelled in Dafny

CVMaker is a browser résumé builder. A single résumé document holds:

- `metadata`, with the template id and the theme colour;
- `personal` details;
- seven collections: experience, internships, education, languages, certificates, references, and skills as plain strings;
- a `sectionOrder`.

`ResumeContext` owns the document. It does four things:

- loads the document from the browser's local cache, or from the signed-in user's remote database entry;
- applies the editor's updates;
- mirrors every change back to the local cache, raising an "unsaved changes" flag for signed-in users;
- on save, resolves pending photo and signature blobs to URLs and writes the remote copy.

The editor adds behaviour on top of the store:

- a month picker with a "Present" checkbox;
- skills entered by pressing Enter;
- bullet continuation when Enter is pressed inside a description.

Three templates (Modern, Classic, Creative) each come twice. One copy is an HTML preview, chosen by `templateId` with a fallback to Modern. The other is a PDF document, looked up in the template registry. The Modern and Creative PDFs honour `sectionOrder` and split it into a sidebar and a main column; the Classic PDF follows `sectionOrder` in a single column. The Creative preview also splits `sectionOrder` into two columns, while the Modern and Classic previews use fixed layouts that ignore it.

The model is split by module:

| module | what it holds |
|---|---|
| `Resume` | the document as values, and the store's pure updaters and loaders |
| `Store` | the provider's state as a value, with one transition function per event, and a class `ResumeStore` whose methods update fields in place. Each method is proved equal to its transition function. |
| `Editor` and `MonthPicker` | the editor's handlers. The month picker is also a class with mutable fields. |
| `Sections` | the order filters every renderer applies |
| `ModernPdf`, `ClassicPdf`, `CreativePdf` | what each PDF shows, and in which order |
| `ModernPreview`, `ClassicPreview`, `CreativePreview`, `PreviewText` | what each preview shows |
| `Templates` and `Preview` | template selection |
| `Parity` | how the copies agree and where they differ |
| `JsText` | the JavaScript string operations the source relies on: `trim`, `toLowerCase` on ASCII and Latin-1 letters, `split('\n')` |
| `Render` | field access with the JavaScript fallbacks |

Values the source reads from a document that may lack keys are modelled as a `Snapshot`, in which every top-level key is optional. This lets the destructuring defaults and the throws on a missing `personal` or `metadata` be stated.

Behaviours worth noting:

- The editor converts only `•`, `-` and `*` line starts. There is no further bullet rule.
- `setSkills` stores what it is given and does not remove duplicates. Only the Enter handler avoids duplicates.
- `updateSectionOrder` accepts any sequence. No permutation check is made.
- A remote snapshot replaces local edits whatever the unsaved flag says.
- The preview falls back to Modern for an unknown template id. The PDF export finds no component for it.
- The Classic PDF has no default for `personal` and fails without it.

## Model

| member | source | states |
|---|---|---|
| Resume.WithItems | src/context/ResumeContext.jsx:200-207 | replacing one collection leaves every other collection, the metadata, personal, skills and order untouched |
| Resume.Merge | src/context/ResumeContext.jsx:193-198 | the spread `{...base, ...over}`: every key of either map is present, and over's value wins |
| Resume.UpdateSection | src/context/ResumeContext.jsx:193-198 | the named group is the merge of old and new fields; the other group, all collections, skills and order are unchanged |
| Resume.NewEntity | src/context/ResumeContext.jsx:209-224 | a new entry carries the given id and exactly the collection's blank fields; a new language gets proficiency "intermediate" (:289) |
| Resume.SetFieldWhereId | src/context/ResumeContext.jsx:200-207 | same length; entries with the id get the field set, all others are kept as they were |
| Resume.WithoutId | src/context/ResumeContext.jsx:226-231 | an entry survives exactly when it lacks the id; the length never grows |
| Resume.UpdateEntity | src/context/ResumeContext.jsx:200-207 | only the named collection changes, its length is kept, and the field is set on the matching entries only |
| Resume.AddEntity | src/context/ResumeContext.jsx:209-224 | the new entry is appended at the end and nothing else changes |
| Resume.RemoveEntity | src/context/ResumeContext.jsx:226-231 | removes exactly the entries with that id from the one collection |
| Resume.SetSkills | src/context/ResumeContext.jsx:276-278 | skills become the given list verbatim; everything else is unchanged |
| Resume.SetEducation | src/context/ResumeContext.jsx:272-274 | education becomes the given list and only education changes |
| Resume.SetSectionOrder | src/context/ResumeContext.jsx:411-416 | the order becomes the given sequence; no permutation check |
| Resume.WithoutIdAppend | src/context/ResumeContext.jsx:226-231 | removal by id distributes over concatenation, so it keeps the order of survivors |
| Resume.WithoutAbsentId | src/context/ResumeContext.jsx:226-231 | filtering an id no entry has is the identity |
| Resume.RemoveAbsentIsNoop | src/context/ResumeContext.jsx:226-231 | removing an absent id leaves the document equal to itself |
| Resume.RemoveTwiceIsRemoveOnce | src/context/ResumeContext.jsx:226-231 | removal is idempotent |
| Resume.AddKeepsIdsUnique | src/context/ResumeContext.jsx:209-224 | adding with a fresh `Date.now()` id keeps ids distinct |
| Resume.WithoutIdKeepsUnique | src/context/ResumeContext.jsx:226-231 | removal keeps ids distinct |
| Resume.UpdateKeepsIdsUnique | src/context/ResumeContext.jsx:200-207 | updating a field other than `id` keeps ids distinct |
| Resume.AddTwiceRemoveFirstScenario | src/context/ResumeContext.jsx:247-269 | add two education entries, remove the first: exactly the second remains |
| Resume.ToSnapshot | src/context/ResumeContext.jsx:140 | serialising a document yields every key present with the document's value |
| Resume.LoadLocal | src/context/ResumeContext.jsx:60-82 | no cache or unparsable cache gives the initial document; otherwise a top-level spread with metadata and personal merged over their defaults, and order defaulted |
| Resume.RemoteThemeColor | src/context/ResumeContext.jsx:108-110 | never empty: the stored colour when it is non-empty, otherwise the default |
| Resume.LoadRemote | src/context/ResumeContext.jsx:90-122 | no data gives the initial document; otherwise each collection is defaulted, metadata and personal are merged, and the theme colour is never empty |
| Resume.MergeOverSuperset | src/context/ResumeContext.jsx:72-73 | merging defaults under a map that already has all their keys returns that map |
| Resume.LocalRoundTrip | src/context/ResumeContext.jsx:60-82 | loading what was cached reproduces the document when it has the default keys |
| Resume.RemoteRoundTrip | src/context/ResumeContext.jsx:90-116 | loading what was saved remotely reproduces the document when it has the default keys and a theme colour |
| Resume.LoadersKeepDefaultKeys | src/context/ResumeContext.jsx:60-122 | both loaders always yield metadata and personal with every default key |
| Store.Persist | src/context/ResumeContext.jsx:138-147 | before loading nothing happens; afterwards the cache holds the document and the flag is raised iff it was, or a user or a pending blob exists; nothing else changes |
| Store.Edited | src/context/ResumeContext.jsx:193-416 | an edit replaces the document and runs the persistence effect, keeping user, remote, loaded and pending blobs |
| Store.Start | src/context/ResumeContext.jsx:60-83 | mount: document from the local cache, loaded iff there is no user, flag clear, nothing pending |
| Store.UserChanged | src/context/ResumeContext.jsx:86-131 | an unchanged user is a no-op; a new user keeps the document, and loaded becomes true for a guest |
| Store.SnapshotArrivedAsWritten | src/context/ResumeContext.jsx:90-124 | the snapshot callback as written: document from the remote data, loaded (the flag it clears is re-raised by the effect) |
| Store.SnapshotArrived | src/context/ResumeContext.jsx:90-124 | corrected: document from the remote data, loaded, flag clear, cache in step with the document |
| Store.PhotoPicked | src/context/ResumeContext.jsx:134 | records the pending photo; a new blob after loading raises the flag |
| Store.SignaturePicked | src/context/ResumeContext.jsx:135 | records the pending signature; a new blob after loading raises the flag |
| Store.ResetState | src/context/ResumeContext.jsx:418-421 | the document becomes the initial one; the cache is removed, and once loaded the effect rewrites it with the initial document |
| Store.Attached | src/context/ResumeContext.jsx:153-175 | writes the resolved URL into personal, clears that pending blob, never lowers the flag |
| Store.PhotoStage | src/context/ResumeContext.jsx:153-163 | no pending photo passes through; otherwise fails exactly when the upload (user) or encoding (guest) throws |
| Store.SignatureStage | src/context/ResumeContext.jsx:165-175 | same for the signature |
| Store.PersistIdempotent | src/context/ResumeContext.jsx:138-147 | running the effect twice equals running it once |
| Store.GuestEditKeepsFlag | src/context/ResumeContext.jsx:144-146 | a guest with nothing pending never gets the flag raised by editing |
| Store.UserEditRaisesFlag | src/context/ResumeContext.jsx:144-146 | a signed-in, loaded user's edit always raises the flag |
| Store.StartIsCoherent | src/context/ResumeContext.jsx:60-83 | the mounted state satisfies the store invariant (cache mirrors document once loaded, default keys present) |
| Store.PersistMakesCoherent | src/context/ResumeContext.jsx:138-147 | the effect establishes the invariant |
| Store.EditKeepsCoherent | src/context/ResumeContext.jsx:193-416 | edits keep the invariant |
| Store.EventsKeepCoherent | src/context/ResumeContext.jsx:86-135 | user changes, blob picks and reset keep the invariant |
| Store.UpdatersKeepDefaultKeys | src/context/ResumeContext.jsx:193-416 | every updater keeps the default metadata and personal keys |
| Store.StagesFacts | src/context/ResumeContext.jsx:153-175 | after each stage succeeds its slot is empty, its resolved URL is in personal, the rest of the document, user and remote are kept, and a raised flag stays raised |
| Store.SaveSuccess | src/context/ResumeContext.jsx:149-186 | a successful save clears the flag and the pending blobs, and a user's remote entry equals the saved document |
| Store.GuestSaveStaysLocal | src/context/ResumeContext.jsx:180-183 | a guest's save never writes the remote store and succeeds iff the encodings succeed |
| Store.SaveFailure | src/context/ResumeContext.jsx:187-190 | a failed save keeps a raised flag and leaves the remote store alone; a failed photo changes nothing |
| Store.SignatureFailureAfterPhoto | src/context/ResumeContext.jsx:154-175 | a signature failure after a photo success fails the save, yet the photo slot is already cleared and its URL already sits in the live document (the shallow copy shares `personal`); the remote store is untouched |
| Store.AttachedKeepsCoherent | src/context/ResumeContext.jsx:161-174 | attaching a URL keeps the invariant |
| Store.SaveKeepsCoherent | src/context/ResumeContext.jsx:149-191 | save keeps the invariant in every outcome |
| Store.SnapshotAsWrittenMarksUnsaved | src/context/ResumeContext.jsx:117 | as written, the flag is raised right after a snapshot arrives |
| Store.SnapshotOverwritesLocalWork | src/context/ResumeContext.jsx:90-124 | the arriving snapshot does not depend on the local document or the flag |
| Store.EditAfterSnapshotRaisesFlag | src/context/ResumeContext.jsx:117 | corrected: after a snapshot the flag is clear, and the next edit raises it |
| Store.ResumeStore.RunEffect | src/context/ResumeContext.jsx:138-147 | the new state is the effect applied to the old one |
| Store.ResumeStore.constructor | src/context/ResumeContext.jsx:58-135 | the fresh store is in the mounted state and valid |
| Store.ResumeStore.ChangeUser | src/context/ResumeContext.jsx:86-131 | the new state is UserChanged of the old |
| Store.ResumeStore.ReceiveSnapshotAsWritten | src/context/ResumeContext.jsx:114-147 | the snapshot handler as written: the new state is SnapshotArrivedAsWritten of the old, the store stays valid, and the unsaved flag ends raised |
| Store.ResumeStore.ReceiveSnapshot | src/context/ResumeContext.jsx:90-124 | the corrected snapshot step: the new state is SnapshotArrived of the old, with the flag clear and the cache in step |
| Store.ResumeStore.Edit | src/context/ResumeContext.jsx:193-416 | the new state is Edited of the old |
| Store.ResumeStore.UpdateSection | src/context/ResumeContext.jsx:193-198 | the new state is the section merge plus the effect |
| Store.ResumeStore.UpdateEntity | src/context/ResumeContext.jsx:200-207 | the new state is the field update plus the effect |
| Store.ResumeStore.AddEntity | src/context/ResumeContext.jsx:209-224 | the new state is the append plus the effect |
| Store.ResumeStore.RemoveEntity | src/context/ResumeContext.jsx:226-231 | the new state is the removal plus the effect |
| Store.ResumeStore.SetSkills | src/context/ResumeContext.jsx:276-278 | the new state holds the skills verbatim plus the effect |
| Store.ResumeStore.SetEducation | src/context/ResumeContext.jsx:272-274 | the new state holds the education list plus the effect |
| Store.ResumeStore.UpdateSectionOrder | src/context/ResumeContext.jsx:411-416 | the new state holds the order plus the effect |
| Store.ResumeStore.SetPendingPhoto | src/context/ResumeContext.jsx:134 | the new state is PhotoPicked of the old |
| Store.ResumeStore.SetPendingSignature | src/context/ResumeContext.jsx:135 | the new state is SignaturePicked of the old |
| Store.ResumeStore.Reset | src/context/ResumeContext.jsx:418-421 | the new state is ResetState of the old |
| Store.ResumeStore.ResolvePhoto | src/context/ResumeContext.jsx:153-163 | succeeds with the photo stage's state, or reports failure and changes nothing |
| Store.ResumeStore.ResolveSignature | src/context/ResumeContext.jsx:165-175 | succeeds with the signature stage's state, or reports failure and changes nothing |
| Store.ResumeStore.Save | src/context/ResumeContext.jsx:149-191 | result and new state are those of the save specification, and the store stays valid |
| Editor.LeadingSpaces | src/components/editor/Editor.jsx:95 | counts the maximal run of leading whitespace |
| Editor.LeadingSpacesUnique | src/components/editor/Editor.jsx:95 | that count is the only one with those properties |
| Editor.BulletPrefix | src/components/editor/Editor.jsx:95 | matches iff the first non-space is `•`, `-` or `*`; the match is a prefix of the line and is maximal |
| Editor.BulletMatchesItself | src/components/editor/Editor.jsx:95-98 | a matched bullet matches itself in full, so it repeats on the next line |
| Editor.CurrentLine | src/components/editor/Editor.jsx:90-92 | the text after the last newline before the cursor |
| Editor.InsertionShape | src/components/editor/Editor.jsx:99 | the new value is the text before the selection, a newline, the bullet, then the text after it; the cursor sits just past the bullet, and a newline-free bullet is then the current line |
| Editor.OnEnter | src/components/editor/Editor.jsx:82-114 | continues iff the current line matches; then the value is before, newline, bullet, after, with the cursor just past the bullet |
| Editor.EnterAgainContinues | src/components/editor/Editor.jsx:99-110 | Enter at the new cursor continues with the same bullet |
| Editor.PlainLineKeepsDefault | src/components/editor/Editor.jsx:96 | a line without a marker keeps the default newline |
| Editor.EnterInDescription | src/components/editor/Editor.jsx:102-106 | only experience and internship descriptions are rewritten, and only that collection changes |
| Editor.AddSkill | src/components/editor/Editor.jsx:60-67 | a blank draft changes nothing; otherwise the draft clears and the trimmed skill is in the list: appended at the end when new, the list unchanged when already there |
| Editor.OnSkillKey | src/components/editor/Editor.jsx:75-80 | only Enter adds a skill |
| Editor.AddSkillKeepsDistinct | src/components/editor/Editor.jsx:62-65 | adding keeps the skills free of duplicates |
| Editor.SpliceStart | src/components/editor/Editor.jsx:71 | `splice`'s start index: an index within the list is kept, a negative one counts from the end, one past the end clamps to the length and one before the start clamps to 0 |
| Editor.RemoveSkill | src/components/editor/Editor.jsx:69-73 | removes exactly the skill at the normalised index, or nothing when it is past the end |
| Editor.RemovedAtIndex | src/components/editor/Editor.jsx:69-73 | the result is the list without that element, a permutation minus one |
| MonthPicker.Synced | src/components/ui/MonthPicker.jsx:11-19 | "Present" or "Atualmente" ticks the box and clears the date; anything else unticks and shows the value |
| MonthPicker.DateChanged | src/components/ui/MonthPicker.jsx:21-27 | the date becomes the input, the box is unchanged |
| MonthPicker.Toggled | src/components/ui/MonthPicker.jsx:29-42 | ticking emits "Present"; unticking emits the kept date |
| MonthPicker.InputDisabled | src/components/ui/MonthPicker.jsx:57 | disabled iff disabled by the parent or ticked |
| MonthPicker.UntickAfterEchoEmitsEmpty | src/components/ui/MonthPicker.jsx:11-40 | after the parent echoes "Present", unticking emits an empty date |
| MonthPicker.TickEmitsEnglishOnly | src/components/ui/MonthPicker.jsx:12-37 | ticking never emits "Atualmente" although syncing accepts it |
| MonthPicker.EchoedDateIsStable | src/components/ui/MonthPicker.jsx:11-27 | the echoed date leaves the picker as the edit left it |
| MonthPicker.SyncedEnablement | src/components/ui/MonthPicker.jsx:11-19 | the field is editable iff not disabled and the value does not mean present |
| MonthPicker.MonthField.constructor | src/components/ui/MonthPicker.jsx:7-19 | starts in the synced state for the value |
| MonthPicker.MonthField.Sync | src/components/ui/MonthPicker.jsx:11-19 | fields become the synced state |
| MonthPicker.MonthField.ChangeDate | src/components/ui/MonthPicker.jsx:21-27 | fields follow DateChanged; reports the value only with a listener |
| MonthPicker.MonthField.ChangeCheckbox | src/components/ui/MonthPicker.jsx:29-42 | fields follow Toggled; without a listener the call throws |
| Sections.KeepOnly | src/components/templates/pdf/ModernPDF.jsx:380 | keeps exactly the ids in the set, never lengthening |
| Sections.DropAll | src/components/templates/pdf/CreativePDF.jsx:453 | keeps exactly the ids outside the set |
| Sections.KeepOnlyAppend | src/components/templates/pdf/ModernPDF.jsx:380 | the filter distributes over concatenation, so order is kept |
| Sections.DropAllAppend | src/components/templates/pdf/CreativePDF.jsx:453 | the negated filter distributes over concatenation |
| Sections.KeepDropPartition | src/components/templates/pdf/CreativePDF.jsx:432-454 | keep and drop by one set split every occurrence |
| Sections.DisjointKeepPartition | src/components/templates/pdf/ModernPDF.jsx:339-380 | two disjoint filters covering all ids split the order |
| Sections.KeepOnlyAll | src/components/templates/pdf/ModernPDF.jsx:380 | a filter that admits everything is the identity |
| Sections.KeepOnlyTwice | src/components/templates/pdf/ModernPDF.jsx:373 | filtering twice is filtering by the intersection |
| Sections.DropThenKeep | src/components/templates/pdf/CreativePDF.jsx:453 | keeping after dropping is keeping the difference |
| Sections.KeepOnlyCounts | src/components/templates/pdf/ModernPDF.jsx:380 | a kept id occurs in the result as often as in the order, repeats included; any other id never |
| Sections.KeepOnlyDistinct | src/components/templates/Modern.jsx:79-275 | filtering a list without repeats gives one without repeats |
| ModernPdf.SafeDate | src/components/templates/pdf/ModernPDF.jsx:135-141 | empty iff both empty; an open or "present" end (any case) gives "start – Present", otherwise "start – end" |
| ModernPdf.SafeDateEmptyIff | src/components/templates/pdf/ModernPDF.jsx:138 | the label is empty exactly when both ends are |
| ModernPdf.SafeDatePresentIsOpen | src/components/templates/pdf/ModernPDF.jsx:139 | an end of "present" reads as an open range |
| ModernPdf.EntryDate | src/components/templates/pdf/ModernPDF.jsx:275 | a free-text date wins, otherwise the range |
| ModernPdf.InternshipDate | src/components/templates/pdf/ModernPDF.jsx:292 | internships always show the range |
| ModernPdf.InternshipIgnoresDate | src/components/templates/pdf/ModernPDF.jsx:275-292 | a free-text date changes entries' labels but never internships' |
| ModernPdf.LevelOf | src/components/templates/pdf/ModernPDF.jsx:214-223 | each label of the table maps to its level (5, 4, 3, 2 or 1); any other key maps to 3 |
| ModernPdf.FilledDots | src/components/templates/pdf/ModernPDF.jsx:222-223 | the level of the lowered, trimmed label, always 1–5 |
| ModernPdf.Dots | src/components/templates/pdf/ModernPDF.jsx:231-236 | five dots, the first `filled` of them coloured |
| ModernPdf.CountPrefix | src/components/templates/pdf/ModernPDF.jsx:231-236 | a prefix of k coloured dots counts k |
| ModernPdf.DotsShowLevel | src/components/templates/pdf/ModernPDF.jsx:231-236 | the coloured dots number the level and form a prefix |
| ModernPdf.FilledDotsIgnoresCaseAndBlanks | src/components/templates/pdf/ModernPDF.jsx:222 | labels with the same key get the same dots |
| ModernPdf.FilledAsWritten | src/components/templates/pdf/ModernPDF.jsx:223 | as written, the lookup agrees with the corrected one except on inherited names |
| ModernPdf.DotsAsWritten | src/components/templates/pdf/ModernPDF.jsx:236 | an inherited member compares false with every dot, so none is coloured |
| ModernPdf.ConstructorKey | src/components/templates/pdf/ModernPDF.jsx:222 | "constructor" is its own key |
| ModernPdf.InheritedLabelShowsNoDots | src/components/templates/pdf/ModernPDF.jsx:214-236 | as written a label whose key is an inherited name shows no dots; corrected it shows the default 3 |
| ModernPdf.ConstructorLabelShowsNoDots | src/components/templates/pdf/ModernPDF.jsx:214-236 | "constructor" is such a label: no dots as written, 3 corrected |
| ModernPdf.MainColumn | src/components/templates/pdf/ModernPDF.jsx:340-373 | main ids in order, without personal |
| ModernPdf.SidebarColumn | src/components/templates/pdf/ModernPDF.jsx:339-380 | sidebar ids in order |
| ModernPdf.ColumnsSplitKnownIds | src/components/templates/pdf/ModernPDF.jsx:339-380 | the two columns split the known ids of the order; each known non-personal id lands in exactly one |
| ModernPdf.MainShownIds | src/components/templates/pdf/ModernPDF.jsx:285-335 | exactly the non-personal main ids with a non-empty section |
| ModernPdf.SidebarShownIds | src/components/templates/pdf/ModernPDF.jsx:185-260 | exactly the sidebar ids with something to show |
| ModernPdf.Arrange | src/components/templates/pdf/ModernPDF.jsx:183-380 | summary iff non-empty; each column is `sectionOrder` filtered to the ids that column admits and that have something to show, in the order's order and with its repeats |
| ModernPdf.ArrangeFollowsOrder | src/components/templates/pdf/ModernPDF.jsx:373-380 | an order made of two parts lays out as the first part's sections followed by the second's, in both columns |
| ModernPdf.ArrangeRepeats | src/components/templates/pdf/ModernPDF.jsx:373-380 | a shown section appears in its column exactly as often as the order lists it |
| ModernPdf.NothingToShow | src/components/templates/pdf/ModernPDF.jsx:185-335 | an empty document shows no section |
| ModernPdf.Theme | src/components/templates/pdf/ModernPDF.jsx:171 | the stored colour when it is non-empty, otherwise #3B82F6 |
| CreativePdf.SafeDate | src/components/templates/pdf/CreativePDF.jsx:183-189 | same three cases as the Modern copy |
| CreativePdf.EntryDate | src/components/templates/pdf/CreativePDF.jsx:322 | free-text date wins, otherwise the range |
| CreativePdf.InternshipDate | src/components/templates/pdf/CreativePDF.jsx:339 | internships always show the range |
| CreativePdf.LevelOf | src/components/templates/pdf/CreativePDF.jsx:266-276 | each label of the table maps to its level (5, 4, 3, 2 or 1); any other key maps to 3 |
| CreativePdf.FilledDots | src/components/templates/pdf/CreativePDF.jsx:266-276 | corrected lookup: the level of the lowered, trimmed label as an own key of the table |
| CreativePdf.FilledAsWritten | src/components/templates/pdf/CreativePDF.jsx:276 | as written, the lookup agrees with the corrected one except on inherited names, where it finds an inherited member |
| CreativePdf.DotsAsWritten | src/components/templates/pdf/CreativePDF.jsx:289 | an inherited member compares false with every dot, so no dot is white |
| CreativePdf.InheritedLabelShowsNoDots | src/components/templates/pdf/CreativePDF.jsx:266-290 | as written a label whose key is an inherited name shows no white dot; corrected it shows three |
| CreativePdf.Dots | src/components/templates/pdf/CreativePDF.jsx:284-290 | five dots, the first `filled` coloured |
| CreativePdf.SidebarColumn | src/components/templates/pdf/CreativePDF.jsx:404-434 | personal, skills, languages in order |
| CreativePdf.MainColumn | src/components/templates/pdf/CreativePDF.jsx:452-454 | every other id in order |
| CreativePdf.ColumnsPartitionOrder | src/components/templates/pdf/CreativePDF.jsx:404-454 | every id of the order goes to exactly one column |
| CreativePdf.ColumnsFollowOrder | src/components/templates/pdf/CreativePDF.jsx:432-454 | both columns keep the relative order |
| CreativePdf.MainShownIds | src/components/templates/pdf/CreativePDF.jsx:313-400 | exactly the main-column ids with a non-empty section, none of them a sidebar id |
| CreativePdf.SidebarShownIds | src/components/templates/pdf/CreativePDF.jsx:236-300 | exactly the sidebar ids with something to show |
| CreativePdf.MainShown | src/components/templates/pdf/CreativePDF.jsx:313-454 | `sectionOrder` filtered to the main ids that render, in order and with repeats |
| CreativePdf.SidebarShown | src/components/templates/pdf/CreativePDF.jsx:236-434 | `sectionOrder` filtered to the sidebar ids that render, in order and with repeats |
| CreativePdf.Arrange | src/components/templates/pdf/CreativePDF.jsx:404-454 | summary iff non-empty; each column is `sectionOrder` filtered to its ids that render, in order and with repeats |
| CreativePdf.ArrangeFollowsOrder | src/components/templates/pdf/CreativePDF.jsx:432-454 | an order made of two parts lays out as the first part's sections followed by the second's |
| CreativePdf.ArrangeRepeats | src/components/templates/pdf/CreativePDF.jsx:432-454 | a shown section appears in its column exactly as often as the order lists it |
| CreativePdf.InheritedNamesUnknown | src/components/templates/pdf/CreativePDF.jsx:267-275 | no inherited name is a label of the table |
| CreativePdf.SummaryIgnoresOrder | src/components/templates/pdf/CreativePDF.jsx:445-450 | the summary shows regardless of the order |
| CreativePdf.Theme | src/components/templates/pdf/CreativePDF.jsx:219 | the stored colour when it is non-empty, otherwise #8B5CF6 |
| ClassicPdf.SafeDate | src/components/templates/pdf/ClassicPDF.jsx:4-10 | same three cases |
| ClassicPdf.EntryDate | src/components/templates/pdf/ClassicPDF.jsx:149 | free-text date wins |
| ClassicPdf.InternshipDate | src/components/templates/pdf/ClassicPDF.jsx:165 | internships always show the range |
| ClassicPdf.LanguageLine | src/components/templates/pdf/ClassicPDF.jsx:209 | the line is "• ", the language, " (", the label and ")", each at its place |
| ClassicPdf.LanguageLineReadsBack | src/components/templates/pdf/ClassicPDF.jsx:209 | given the language name's length, the line determines the language and the label |
| ClassicPdf.BlockFor | src/components/templates/pdf/ClassicPDF.jsx:269-279 | personal yields the summary iff it is set; any other id yields its section iff it has something to show |
| ClassicPdf.Blocks | src/components/templates/pdf/ClassicPDF.jsx:269-279 | at most one block per order entry |
| ClassicPdf.BlocksAppend | src/components/templates/pdf/ClassicPDF.jsx:269 | blocks follow the order |
| ClassicPdf.BlocksMembership | src/components/templates/pdf/ClassicPDF.jsx:139-279 | a section appears iff it is ordered and renders; the summary iff personal is ordered and summary set |
| ClassicPdf.Page | src/components/templates/pdf/ClassicPDF.jsx:97-279 | fails iff personal is missing, otherwise the blocks of the order |
| ClassicPdf.RepeatedIdRendersTwice | src/components/templates/pdf/ClassicPDF.jsx:269-279 | a repeated id renders its section twice |
| PreviewText.NatString | src/components/templates/Creative.jsx:199 | the decimal digits of a number: they read back as the number, with no leading zero |
| PreviewText.NumberString | src/components/templates/Creative.jsx:199 | an integer prints as its magnitude's digits, after a minus sign when negative |
| PreviewText.NumberStringInjective | src/components/templates/Creative.jsx:199 | distinct integers print differently |
| PreviewText.Interpolated | src/components/templates/Creative.jsx:199 | a template literal prints a missing field as "undefined", a string as itself and a number in decimal |
| PreviewText.Shown | src/components/templates/Creative.jsx:238 | a JSX child prints a missing field as nothing, a string as itself and a number in decimal |
| PreviewText.DateLabel | src/components/templates/Modern.jsx:104 | the free-text date, else "start - end" interpolated |
| PreviewText.RangeLabel | src/components/templates/Modern.jsx:129 | "start - end" as JSX children |
| PreviewText.LabelsNeverEmpty | src/components/templates/Modern.jsx:104-129 | labels are never empty; missing fields print "undefined - undefined" or " - " |
| PreviewText.FormatDescription | src/components/templates/Classic.jsx:8-18 | nothing for an empty text; one line per piece, indented iff the trimmed line starts with a marker |
| PreviewText.SingleLineFormat | src/components/templates/Classic.jsx:8-18 | a description without a newline is one line, indented iff it starts with a marker |
| PreviewText.Texts | src/components/templates/Classic.jsx:14 | the printed texts of the lines |
| PreviewText.FormatKeepsText | src/components/templates/Classic.jsx:8-18 | joining the lines gives the text back |
| PreviewText.FormatClassOnlyChangesIndent | src/components/templates/Modern.jsx:14-24 | the marker class changes only the indentation |
| ModernPreview.FormatAsWritten | src/components/templates/Modern.jsx:14-24 | as written, a line starting with `•` is never indented |
| ModernPreview.Format | src/components/templates/Modern.jsx:14-24 | corrected, a `•` line is indented |
| ModernPreview.FormattersDisagreeOnlyOnBulletDot | src/components/templates/Modern.jsx:17 | the two agree on every line not starting with one of the misencoded characters |
| ModernPreview.BulletDotLine | src/components/templates/Modern.jsx:14-24 | any one-line description starting with `•` is not indented as written and is indented when corrected |
| ModernPreview.CircumflexLine | src/components/templates/Modern.jsx:17 | any one-line description starting with `â` is indented as written and not when corrected |
| ModernPreview.BulletLineNotIndented | src/components/templates/Modern.jsx:17 | "• x" is not indented as written and is indented when corrected |
| ModernPreview.CircumflexLineIndented | src/components/templates/Modern.jsx:17 | "âge" is indented as written |
| ModernPreview.MainShownIds | src/components/templates/Modern.jsx:79-180 | exactly the fixed main blocks with something to render |
| ModernPreview.SidebarShownIds | src/components/templates/Modern.jsx:185-275 | exactly the fixed sidebar blocks with something to render |
| ModernPreview.MainShown | src/components/templates/Modern.jsx:79-180 | the fixed main order with the blocks that render nothing left out |
| ModernPreview.SidebarShown | src/components/templates/Modern.jsx:185-275 | the fixed sidebar order with the blocks that render nothing left out |
| ModernPreview.View | src/components/templates/Modern.jsx:6-275 | throws iff metadata or personal is missing; theme defaulted; each column is its fixed order filtered to the blocks that render |
| ModernPreview.BlocksShowOnce | src/components/templates/Modern.jsx:79-275 | no block shows twice in a column |
| ModernPreview.IgnoresSectionOrder | src/components/templates/Modern.jsx:6 | the preview does not depend on the order |
| ModernPreview.ReferenceLine | src/components/templates/Modern.jsx:176 | "position at company", or "position " without a company |
| CreativePreview.ProficiencyPercent | src/components/templates/Creative.jsx:34-43 | exact-case lookup with 50 for unknown labels; inherited names give no number |
| CreativePreview.PercentIsCaseSensitive | src/components/templates/Creative.jsx:34-43 | "Native" gets 50, not 100 |
| CreativePreview.SidebarColumn | src/components/templates/Creative.jsx:462-468 | personal, skills, languages in order |
| CreativePreview.MainColumn | src/components/templates/Creative.jsx:509-513 | everything except skills and languages |
| CreativePreview.ColumnsCoverOrder | src/components/templates/Creative.jsx:462-513 | every id reaches a column; only personal reaches both |
| CreativePreview.MainShownIds | src/components/templates/Creative.jsx:509-534 | exactly the main-column ids that render, personal as the summary; none of skills or languages |
| CreativePreview.SidebarShownIds | src/components/templates/Creative.jsx:462-468 | exactly the sidebar ids that render |
| CreativePreview.MainShown | src/components/templates/Creative.jsx:509-534 | `sectionOrder` filtered to the main ids that render, in order and with repeats |
| CreativePreview.SidebarShown | src/components/templates/Creative.jsx:462-468 | `sectionOrder` filtered to the sidebar ids that render, in order and with repeats |
| CreativePreview.View | src/components/templates/Creative.jsx:6-534 | throws iff metadata or personal is missing; theme defaulted; the avatar; each column is `sectionOrder` filtered to its ids that render |
| CreativePreview.ViewFollowsOrder | src/components/templates/Creative.jsx:462-513 | an order made of two parts shows the first part's sections followed by the second's |
| CreativePreview.ViewRepeats | src/components/templates/Creative.jsx:462-513 | a shown section appears exactly as often as the order lists it |
| CreativePreview.PersonalInBothColumns | src/components/templates/Creative.jsx:462-534 | personal with details and a summary shows in both columns, and in neither when not ordered |
| ClassicPreview.Format | src/components/templates/Classic.jsx:8-18 | the formatter with the `•`, `-`, `*` class |
| ClassicPreview.View | src/components/templates/Classic.jsx:4-215 | throws iff personal is missing; details iff any is set; blocks are the rendering sections in fixed order |
| ClassicPreview.IgnoresSectionOrder | src/components/templates/Classic.jsx:5 | the preview does not depend on the order |
| ClassicPreview.ReferenceLine | src/components/templates/Classic.jsx:205 | the position, " at ", then the company, always, each at its place |
| ClassicPreview.ReferenceLineReadsBack | src/components/templates/Classic.jsx:205 | given the position's length, the line determines the position and the company |
| Render.Text | src/components/templates/pdf/ModernPDF.jsx:275 | a string field's text, or "" when missing |
| Render.Get | src/components/templates/pdf/ModernPDF.jsx:364 | a field's value, or "" when missing |
| Render.ThemeOf | src/components/templates/Modern.jsx:7 | the stored colour when non-empty, otherwise the fallback |
| Render.ReferenceLine | src/components/templates/pdf/ModernPDF.jsx:326 | the non-empty parts joined by " at " |
| Render.DateOr | src/components/templates/Modern.jsx:104 | a free-text date wins over the fallback |
| Render.FirstChar | src/components/templates/pdf/CreativePDF.jsx:418 | the first character, or nothing |
| Render.AvatarOf | src/components/templates/pdf/CreativePDF.jsx:413-420 | the photo with the stored URL iff one is set; otherwise the first letters of the first and last names, whichever are set |
| Render.PhotoReplacesInitials | src/components/templates/pdf/CreativePDF.jsx:413-420 | setting a photo URL shows that photo; clearing it brings back the initials |
| JsText.TrimStart | src/components/editor/Editor.jsx:61 | the suffix after the leading whitespace |
| JsText.TrimEnd | src/components/editor/Editor.jsx:61 | the prefix before the trailing whitespace |
| JsText.Trim | src/components/editor/Editor.jsx:61 | no whitespace at either end; empty iff all whitespace |
| JsText.LowerString | src/components/templates/pdf/ModernPDF.jsx:222 | the letters lowered one by one |
| JsText.LowerStringKeeps | src/components/templates/pdf/ModernPDF.jsx:222 | lowercase text is unchanged |
| JsText.TrimKeeps | src/components/editor/Editor.jsx:61 | trimmed text is unchanged |
| JsText.LineStart | src/components/editor/Editor.jsx:91-92 | the last line starts at 0 or just after a newline, and no newline follows |
| JsText.LineStartUnique | src/components/editor/Editor.jsx:91-92 | only one position has that property |
| JsText.SplitLines | src/components/editor/Editor.jsx:91 | at least one piece, none holding a newline |
| JsText.JoinSplitLines | src/components/templates/Classic.jsx:10 | joining the pieces restores the text |
| JsText.SplitJoinLines | src/components/templates/Classic.jsx:10 | splitting joined newline-free lines restores them |
| JsText.LastLine | src/components/editor/Editor.jsx:92 | the newline-free suffix after the last newline |
| JsText.LastLineUnique | src/components/editor/Editor.jsx:92 | that suffix is unique |
| JsText.LastSplitPieceIsLastLine | src/components/editor/Editor.jsx:91-92 | the last piece is the last line |
| Templates.RegistryShape | src/config/templates.js:8-36 | three entries with distinct ids, matching preview and PDF, premium only for creative |
| Templates.Find | src/config/templates.js:38 | a found entry has the id; none iff no entry has it |
| Templates.FindIsFirst | src/config/templates.js:38 | the first matching entry is returned |
| Templates.GetTemplateById | src/config/templates.js:38 | found iff the id is one of the three, and then the registry's entry with that id |
| Templates.PdfFor | src/hooks/usePDFGenerator.js:6-7 | a PDF layout iff the id is known, and the right one |
| Preview.Choose | src/components/preview/Preview.jsx:12-18 | known ids map to their template, missing or unknown ids to Modern; `toString` finds the inherited function, every other inherited name throws |
| Preview.Show | src/components/preview/Preview.jsx:10-29 | renders the chosen template's pane over the whole document; `toString` renders the text "[object Undefined]" |
| Preview.StoredDocumentShows | src/components/preview/Preview.jsx:10-29 | a stored document always renders unless its id is an inherited name other than `toString`, which gives a text pane |
| Preview.ChoiceDependsOnTemplateIdOnly | src/components/preview/Preview.jsx:10-18 | the choice depends only on the template id |
| Preview.PreviewAndExportLookups | src/components/preview/Preview.jsx:12-18 | known ids agree with the export; unknown ones have no PDF and preview as Modern, or as no template for an inherited name |
| Parity.SafeDateCopiesAgree | src/components/templates/pdf/ClassicPDF.jsx:4-10 | the three date helpers agree |
| Parity.DotScalesAgree | src/components/templates/pdf/CreativePDF.jsx:266-290 | the two dot scales agree |
| Parity.LowerWordIsItsKey | src/components/templates/pdf/ModernPDF.jsx:222 | a lowercase word is its own key |
| Parity.PercentAndDotsOrderedAlike | src/components/templates/Creative.jsx:34-43 | a higher percentage never gets fewer dots; fluent and advanced tie on dots |
| Parity.WordLevel | src/components/templates/pdf/ModernPDF.jsx:214-223 | the level and percentage for each English label |
| Parity.KnownWord | src/components/templates/pdf/ModernPDF.jsx:222-223 | a lowercase label gets its table level |
| Parity.OpenRangeLabelsDiffer | src/components/templates/Modern.jsx:104 | an open range reads "– Present" in the PDF and "start - " in the preview |
| Parity.ClosedRangeLabelsDiffer | src/components/templates/Modern.jsx:104 | closed ranges differ by en dash vs hyphen |
| Parity.LoadedThemeShows | src/context/ResumeContext.jsx:108-110 | after a remote load both exports show the stored colour or the loader's default blue, never Creative's purple fallback |
| Parity.ModernOrderOnlyInExport | src/components/templates/pdf/ModernPDF.jsx:373 | reordering changes the Modern PDF but not the preview |
| Parity.CreativeSummaryPlacement | src/components/templates/pdf/CreativePDF.jsx:445-450 | the PDF shows the summary without personal in the order, the preview does not |
| Parity.IndentMatchesEditorBullet | src/components/editor/Editor.jsx:95 | the preview indents exactly the lines the editor continues |
| Parity.ReferenceLinesAgreeWhenComplete | src/components/templates/Modern.jsx:176 | preview and PDF reference lines agree when both parts are set |

## Left out

- Storage and network: browser local storage, the Firebase subscription and writes, and the upload and encoding services are abstract steps. Upload and encode are function parameters that succeed or throw; the remote database is a map from user to document.
- React scheduling: the persistence effect is applied after each state change rather than batched, and unsubscribe timing is not modelled.
- `Store.ResetState`: when the document object is already the initial one, React skips the effect. The model always applies the mirror step.
- Translations, styles and markup: `t[...]` labels, language names in the previews, layout and colours other than the theme are not modelled.
- Image cropping and the upload widget callback in Editor.jsx:53-58 are left out; the widget's callback arity and the service module's missing export are outside the core.
- `Date.now()` ids are a parameter (`now`), required to be fresh.
- `Render.Text`: numeric field values are read as "" instead of their decimal text.
- `Preview.Choose`: an inherited name other than "toString" is modelled as a throw, without the detail of which React error follows; "toString" renders the text `[object Undefined]`, modelled as a text pane.
- `CreativePreview.ProficiencyPercent`: the invalid CSS width for inherited names is modelled as `NotANumber`, not as the exact string.
- Store.SaveSpec / Store.ResumeStore.Save: the save is one atomic step. In the source it awaits the uploads after copying the document at ResumeContext.jsx:151 and writes that copy back at :178, so edits made during the awaits are lost; the remote subscription's echo of the written document is not modelled either.
- `Resume.LoadLocal`: a cached key holding `null` is read like a missing one, and top-level keys other than the document's are dropped; the source keeps both in the spread.
- `JsText`: strings are sequences of characters, so the editor's cursor positions, `substring`, `split` and `Render.FirstChar`'s `[0]` count code points, while JavaScript counts UTF-16 code units; the two differ only for characters outside the Basic Multilingual Plane.
- Authentication, the language context, the admin page and landing pages are not part of this model.

## Findings

| source | as written | input that shows it | evidently intended | confidence | as-written member | corrected member |
|---|---|---|---|---|---|---|
| src/components/templates/Modern.jsx:17 | the marker class holds the UTF-8 bytes of `•` read as Windows-1252 (`â`, `€`, `¢`) instead of `•` | description line "• x" is not indented; "âge" is | `•`, `-` and `*` lines are indented, as in Classic.jsx:11 | not executed | ModernPreview.FormatAsWritten | ModernPreview.Format |
| src/components/templates/pdf/ModernPDF.jsx:214-223 | `profMap[key] ?? 3` finds inherited members of the object literal | proficiency "constructor" shows no coloured dots | unknown labels show the default of 3 dots | not executed | ModernPdf.DotsAsWritten | ModernPdf.Dots |
| src/components/templates/pdf/CreativePDF.jsx:266-276 | this copy of `profMap[key] ?? 3` also finds inherited members of the object literal | proficiency "constructor" shows no white dots | unknown labels show the default of 3 dots | not executed | CreativePdf.DotsAsWritten | CreativePdf.FilledDots |
| src/context/ResumeContext.jsx:117 | the snapshot callback clears the unsaved flag, but the change it makes re-runs the persistence effect (138-147), which raises it again for a signed-in user | any snapshot arriving for a signed-in user leaves the flag raised | a freshly loaded remote document has no unsaved changes | not executed | Store.SnapshotArrivedAsWritten | Store.SnapshotArrived |
