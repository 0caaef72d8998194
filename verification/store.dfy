/**
 * The resume store of `src/context/ResumeContext.jsx`: the document with the
 * unsaved-changes flag, the two pending media slots, the loaded flag, the
 * signed-in user, the browser's local cache and the remote database.
 *
 * Each step is first a function on a `StoreState` value; the class `ResumeStore`
 * performs the same steps on its fields. The persistence effect that React
 * runs after a render whose dependencies changed is the step `Persist`,
 * applied at the end of every event that changes the document, the user, the
 * loaded flag or a pending slot.
 */
module Store {
  import opened Wrappers
  import opened Resume

  /** A picked image file awaiting upload. */
  datatype Blob = Blob(name: string)

  /** A signed-in user, by uid. */
  type Uid = string

  datatype StoreState = StoreState(
    doc: Document,
    unsaved: bool,
    pendingPhoto: Option<Blob>,
    pendingSignature: Option<Blob>,
    loaded: bool,
    user: Option<Uid>,
    cache: LocalCache,
    remote: map<Uid, Document>)

  /** The effect on `[resumeData, user, isLoaded, pendingPhoto, pendingSignature]`. */
  function Persist(s: StoreState): (r: StoreState)
    ensures !s.loaded ==> r == s
    ensures s.loaded ==> r.cache == Cached(ToSnapshot(s.doc))
    ensures r.unsaved <==> s.unsaved || (s.loaded && (s.user.Some? || s.pendingPhoto.Some? || s.pendingSignature.Some?))
    ensures r.(cache := s.cache, unsaved := s.unsaved) == s
  {
    if !s.loaded then s
    else
      s.(cache := Cached(ToSnapshot(s.doc)),
         unsaved := s.unsaved || s.user.Some? || s.pendingPhoto.Some? || s.pendingSignature.Some?)
  }

  /** A document change followed by the effect. */
  function Edited(s: StoreState, d: Document): (r: StoreState)
    ensures r.doc == d
    ensures r.user == s.user && r.remote == s.remote && r.loaded == s.loaded
    ensures r.pendingPhoto == s.pendingPhoto && r.pendingSignature == s.pendingSignature
  {
    Persist(s.(doc := d))
  }

  /**
   * Mount: the document comes from the local cache; a guest is marked loaded
   * at once, a user only when the first remote snapshot arrives.
   */
  function Start(cache: LocalCache, user: Option<Uid>, remote: map<Uid, Document>): (s: StoreState)
    ensures s.doc == LoadLocal(cache)
    ensures s.loaded <==> user.None?
    ensures !s.unsaved && s.pendingPhoto.None? && s.pendingSignature.None?
    ensures user.Some? ==> s.cache == cache
  {
    var s := StoreState(LoadLocal(cache), false, None, None, false, user, cache, remote);
    if user.None? then Persist(s.(loaded := true)) else s
  }

  /** The load effect on `[user]` followed by the persistence effect. */
  function UserChanged(s: StoreState, user: Option<Uid>): (r: StoreState)
    ensures user == s.user ==> r == s
    ensures r.user == user && r.doc == s.doc
    ensures user != s.user ==> (r.loaded <==> s.loaded || user.None?)
  {
    if user == s.user then s
    else Persist(s.(user := user, loaded := s.loaded || user.None?))
  }

  /** The remote snapshot handler as written, with the effect its state change triggers. */
  function SnapshotArrivedAsWritten(s: StoreState, snap: Option<Snapshot>): (r: StoreState)
    requires s.user.Some?
    ensures r.doc == LoadRemote(snap) && r.loaded
  {
    Persist(s.(doc := LoadRemote(snap), unsaved := false, loaded := true))
  }

  /** The remote snapshot handler as intended: the cache is written, the document counts as saved. */
  function SnapshotArrived(s: StoreState, snap: Option<Snapshot>): (r: StoreState)
    requires s.user.Some?
    ensures r.doc == LoadRemote(snap) && r.loaded && !r.unsaved
    ensures LoadLocal(r.cache) == r.doc
    ensures r.user == s.user && r.remote == s.remote
    ensures r.pendingPhoto == s.pendingPhoto && r.pendingSignature == s.pendingSignature
  {
    var d := LoadRemote(snap);
    LoadersKeepDefaultKeys(NoCache, snap);
    LocalRoundTrip(d);
    s.(doc := d, unsaved := false, loaded := true, cache := Cached(ToSnapshot(d)))
  }

  /** `setPendingPhoto(b)`: React re-runs the effect only when the value changes. */
  function PhotoPicked(s: StoreState, b: Option<Blob>): (r: StoreState)
    ensures r.pendingPhoto == b && r.doc == s.doc
    ensures b != s.pendingPhoto && b.Some? && s.loaded ==> r.unsaved
  {
    if b == s.pendingPhoto then s else Persist(s.(pendingPhoto := b))
  }

  /** `setPendingSignature(b)`. */
  function SignaturePicked(s: StoreState, b: Option<Blob>): (r: StoreState)
    ensures r.pendingSignature == b && r.doc == s.doc
    ensures b != s.pendingSignature && b.Some? && s.loaded ==> r.unsaved
  {
    if b == s.pendingSignature then s else Persist(s.(pendingSignature := b))
  }

  /** `resetResume`: the initial document, the cache removed and then rewritten by the effect. */
  function ResetState(s: StoreState): (r: StoreState)
    ensures r.doc == InitialDocument
    ensures r.loaded ==> LoadLocal(r.cache) == InitialDocument
    ensures !r.loaded ==> r.cache == NoCache
  {
    LocalRoundTrip(InitialDocument);
    Persist(s.(doc := InitialDocument, cache := NoCache))
  }

  // ---------------------------------------------------------------- saving

  /** A pending file becomes a URL by upload for a user, by base64 encoding for a guest. */
  function Resolve(s: StoreState, b: Blob, upload: Blob -> Attempt<string>, encode: Blob -> Attempt<string>): Attempt<string> {
    if s.user.Some? then upload(b) else encode(b)
  }

  /**
   * One pending slot resolved: the URL is written into the live `personal`
   * object (the shallow copy shares it), the slot is cleared and the effect runs.
   */
  function Attached(s: StoreState, key: string, url: string): (r: StoreState)
    requires key == "photoUrl" || key == "signatureUrl"
    ensures r.doc == s.doc.(personal := s.doc.personal[key := url])
    ensures key == "photoUrl" ==> r.pendingPhoto.None? && r.pendingSignature == s.pendingSignature
    ensures key == "signatureUrl" ==> r.pendingSignature.None? && r.pendingPhoto == s.pendingPhoto
    ensures r.user == s.user && r.remote == s.remote && r.loaded == s.loaded
    ensures s.unsaved ==> r.unsaved
  {
    var t := s.(doc := s.doc.(personal := s.doc.personal[key := url]));
    if key == "photoUrl" then Persist(t.(pendingPhoto := None)) else Persist(t.(pendingSignature := None))
  }

  /** The photo slot of `saveResume`: nothing to do, a throw (`None`), or the URL attached. */
  function PhotoStage(s: StoreState, upload: Blob -> Attempt<string>, encode: Blob -> Attempt<string>): (r: Option<StoreState>)
    ensures s.pendingPhoto.None? ==> r == Some(s)
    ensures s.pendingPhoto.Some? ==> (r.None? <==> Resolve(s, s.pendingPhoto.value, upload, encode).Threw?)
  {
    if s.pendingPhoto.None? then Some(s)
    else match Resolve(s, s.pendingPhoto.value, upload, encode)
      case Threw => None
      case Done(url) => Some(Attached(s, "photoUrl", url))
  }

  /** The signature slot, the same way. */
  function SignatureStage(s: StoreState, upload: Blob -> Attempt<string>, encode: Blob -> Attempt<string>): (r: Option<StoreState>)
    ensures s.pendingSignature.None? ==> r == Some(s)
    ensures s.pendingSignature.Some? ==> (r.None? <==> Resolve(s, s.pendingSignature.value, upload, encode).Threw?)
  {
    if s.pendingSignature.None? then Some(s)
    else match Resolve(s, s.pendingSignature.value, upload, encode)
      case Threw => None
      case Done(url) => Some(Attached(s, "signatureUrl", url))
  }

  datatype SaveResult = SaveResult(state: StoreState, success: bool)

  /** `setResumeData(updatedData)`, its effect, the remote write for a user, and the flag cleared. */
  function Finish(s: StoreState, remoteOk: bool): SaveResult {
    var s3 := Persist(s);
    if s3.user.None? then SaveResult(s3.(unsaved := false), true)
    else if !remoteOk then SaveResult(s3, false)
    else SaveResult(s3.(remote := s3.remote[s3.user.value := s3.doc], unsaved := false), true)
  }

  /** `saveResume`, step by step; `remoteOk` says whether the remote write succeeds. */
  function SaveSpec(s: StoreState, upload: Blob -> Attempt<string>, encode: Blob -> Attempt<string>, remoteOk: bool): SaveResult {
    match PhotoStage(s, upload, encode)
    case None => SaveResult(s, false)
    case Some(s1) =>
      match SignatureStage(s1, upload, encode)
      case None => SaveResult(s1, false)
      case Some(s2) => Finish(s2, remoteOk)
  }

  // ---------------------------------------------------------------- properties

  /** Running the effect a second time changes nothing. */
  lemma PersistIdempotent(s: StoreState)
    ensures Persist(Persist(s)) == Persist(s)
  {
  }

  /** A guest with no pending media never raises the flag by editing. */
  lemma GuestEditKeepsFlag(s: StoreState, d: Document)
    requires s.user.None? && s.pendingPhoto.None? && s.pendingSignature.None?
    ensures Edited(s, d).unsaved == s.unsaved
  {
  }

  /** Once loaded, a signed-in user's edit always raises the flag. */
  lemma UserEditRaisesFlag(s: StoreState, d: Document)
    requires s.user.Some? && s.loaded
    ensures Edited(s, d).unsaved
  {
  }

  /** The local cache reloads to the current document once the store is loaded. */
  ghost predicate Coherent(s: StoreState) {
    HasDefaultKeys(s.doc) && (s.loaded ==> LoadLocal(s.cache) == s.doc)
  }

  lemma StartIsCoherent(cache: LocalCache, user: Option<Uid>, remote: map<Uid, Document>)
    ensures Coherent(Start(cache, user, remote))
  {
    LoadersKeepDefaultKeys(cache, None);
    LocalRoundTrip(LoadLocal(cache));
  }

  lemma {:induction false} PersistMakesCoherent(s: StoreState)
    requires HasDefaultKeys(s.doc)
    ensures Coherent(Persist(s))
  {
    if s.loaded {
      LocalRoundTrip(s.doc);
    }
  }

  lemma EditKeepsCoherent(s: StoreState, d: Document)
    requires HasDefaultKeys(d)
    ensures Coherent(Edited(s, d))
  {
    PersistMakesCoherent(s.(doc := d));
  }

  lemma EventsKeepCoherent(s: StoreState, user: Option<Uid>, b: Option<Blob>)
    requires Coherent(s)
    ensures Coherent(UserChanged(s, user))
    ensures Coherent(PhotoPicked(s, b)) && Coherent(SignaturePicked(s, b))
    ensures Coherent(ResetState(s))
  {
    PersistMakesCoherent(s.(user := user, loaded := s.loaded || user.None?));
    PersistMakesCoherent(s.(pendingPhoto := b));
    PersistMakesCoherent(s.(pendingSignature := b));
  }

  /** Every updater of the document keeps the default keys of `metadata` and `personal`. */
  lemma UpdatersKeepDefaultKeys(d: Document, c: Collection, g: Group, data: Fields, id: int, field: string, value: string,
                                skills: seq<string>, items: seq<Entity>, order: seq<string>)
    requires HasDefaultKeys(d)
    ensures HasDefaultKeys(UpdateSection(d, g, data))
    ensures HasDefaultKeys(UpdateEntity(d, c, id, field, value))
    ensures IdFresh(Items(d, c), id) ==> HasDefaultKeys(AddEntity(d, c, id))
    ensures HasDefaultKeys(RemoveEntity(d, c, id))
    ensures HasDefaultKeys(SetSkills(d, skills)) && HasDefaultKeys(SetEducation(d, items))
    ensures HasDefaultKeys(SetSectionOrder(d, order))
  {
  }

  /** What the two stages keep of the state and what they write into `personal`. */
  lemma {:induction false} StagesFacts(s: StoreState, upload: Blob -> Attempt<string>, encode: Blob -> Attempt<string>)
    requires PhotoStage(s, upload, encode).Some?
    ensures var s1 := PhotoStage(s, upload, encode).value;
      && s1.user == s.user && s1.remote == s.remote && s1.pendingSignature == s.pendingSignature
      && s1.pendingPhoto.None? && (s.unsaved ==> s1.unsaved)
      && s1.doc == s.doc.(personal := s1.doc.personal)
      && (s.pendingPhoto.None? ==> s1 == s)
      && (s.pendingPhoto.Some? ==> s1.doc.personal == s.doc.personal["photoUrl" := Resolve(s, s.pendingPhoto.value, upload, encode).result])
    ensures var s1 := PhotoStage(s, upload, encode).value;
      SignatureStage(s1, upload, encode).Some? ==>
      var s2 := SignatureStage(s1, upload, encode).value;
      && s2.user == s.user && s2.remote == s.remote && s2.pendingSignature.None? && s2.pendingPhoto.None?
      && (s.unsaved ==> s2.unsaved)
      && s2.doc == s.doc.(personal := s2.doc.personal)
      && (s.pendingSignature.None? ==> s2 == s1)
      && (s.pendingSignature.Some? ==> s2.doc.personal == s1.doc.personal["signatureUrl" := Resolve(s, s.pendingSignature.value, upload, encode).result])
  {
  }

  /**
   * A successful save leaves both slots empty, the resolved URLs in
   * `personal`, the flag cleared, and, for a user, the document in the
   * remote store; a guest's save never writes remotely.
   */
  lemma SaveSuccess(s: StoreState, upload: Blob -> Attempt<string>, encode: Blob -> Attempt<string>, remoteOk: bool)
    requires SaveSpec(s, upload, encode, remoteOk).success
    ensures var r := SaveSpec(s, upload, encode, remoteOk).state;
      && !r.unsaved && r.pendingPhoto.None? && r.pendingSignature.None?
      && (s.pendingPhoto.Some? ==> r.doc.personal["photoUrl"] == Resolve(s, s.pendingPhoto.value, upload, encode).result)
      && (s.pendingSignature.Some? ==> r.doc.personal["signatureUrl"] == Resolve(s, s.pendingSignature.value, upload, encode).result)
      && (forall c :: Items(r.doc, c) == Items(s.doc, c))
      && r.doc.metadata == s.doc.metadata && r.doc.skills == s.doc.skills && r.doc.sectionOrder == s.doc.sectionOrder
      && r.user == s.user
      && (s.user.Some? ==> r.remote == s.remote[s.user.value := r.doc])
      && (s.user.None? ==> r.remote == s.remote)
  {
    StagesFacts(s, upload, encode);
  }

  /** A guest's save never writes remotely, and succeeds exactly when the encodings do. */
  lemma GuestSaveStaysLocal(s: StoreState, upload: Blob -> Attempt<string>, encode: Blob -> Attempt<string>, remoteOk: bool)
    requires s.user.None?
    ensures SaveSpec(s, upload, encode, remoteOk).state.remote == s.remote
    ensures SaveSpec(s, upload, encode, remoteOk).success == (
      (s.pendingPhoto.None? || encode(s.pendingPhoto.value).Done?) &&
      (s.pendingSignature.None? || encode(s.pendingSignature.value).Done?))
  {
    if PhotoStage(s, upload, encode).Some? {
      StagesFacts(s, upload, encode);
    }
  }

  /** A failed save never clears the flag; a failed photo upload changes nothing at all. */
  lemma SaveFailure(s: StoreState, upload: Blob -> Attempt<string>, encode: Blob -> Attempt<string>, remoteOk: bool)
    requires !SaveSpec(s, upload, encode, remoteOk).success
    ensures s.unsaved ==> SaveSpec(s, upload, encode, remoteOk).state.unsaved
    ensures SaveSpec(s, upload, encode, remoteOk).state.remote == s.remote
    ensures s.pendingPhoto.Some? && Resolve(s, s.pendingPhoto.value, upload, encode).Threw? ==>
      SaveSpec(s, upload, encode, remoteOk).state == s
  {
    if PhotoStage(s, upload, encode).Some? {
      StagesFacts(s, upload, encode);
    }
  }

  /**
   * When the photo resolves but the signature throws, the photo's slot is
   * already cleared and its URL already sits in the live document.
   */
  lemma SignatureFailureAfterPhoto(s: StoreState, upload: Blob -> Attempt<string>, encode: Blob -> Attempt<string>, remoteOk: bool)
    requires s.pendingPhoto.Some? && s.pendingSignature.Some?
    requires Resolve(s, s.pendingPhoto.value, upload, encode).Done?
    requires Resolve(s, s.pendingSignature.value, upload, encode).Threw?
    ensures var r := SaveSpec(s, upload, encode, remoteOk);
      && !r.success
      && r.state.pendingPhoto.None? && r.state.pendingSignature == s.pendingSignature
      && r.state.doc.personal["photoUrl"] == Resolve(s, s.pendingPhoto.value, upload, encode).result
      && r.state.remote == s.remote
  {
    StagesFacts(s, upload, encode);
  }

  lemma AttachedKeepsCoherent(s: StoreState, key: string, url: string)
    requires key == "photoUrl" || key == "signatureUrl"
    requires HasDefaultKeys(s.doc)
    ensures Coherent(Attached(s, key, url))
  {
    var t := s.(doc := s.doc.(personal := s.doc.personal[key := url]));
    if key == "photoUrl" {
      PersistMakesCoherent(t.(pendingPhoto := None));
    } else {
      PersistMakesCoherent(t.(pendingSignature := None));
    }
  }

  /** A save keeps the cache coherent with the document. */
  lemma SaveKeepsCoherent(s: StoreState, upload: Blob -> Attempt<string>, encode: Blob -> Attempt<string>, remoteOk: bool)
    requires Coherent(s)
    ensures Coherent(SaveSpec(s, upload, encode, remoteOk).state)
  {
    if s.pendingPhoto.Some? && Resolve(s, s.pendingPhoto.value, upload, encode).Done? {
      AttachedKeepsCoherent(s, "photoUrl", Resolve(s, s.pendingPhoto.value, upload, encode).result);
    }
    var p := PhotoStage(s, upload, encode);
    if p.Some? {
      var s1 := p.value;
      assert Coherent(s1);
      if s1.pendingSignature.Some? && Resolve(s1, s1.pendingSignature.value, upload, encode).Done? {
        AttachedKeepsCoherent(s1, "signatureUrl", Resolve(s1, s1.pendingSignature.value, upload, encode).result);
      }
      var q := SignatureStage(s1, upload, encode);
      if q.Some? {
        assert Coherent(q.value);
        PersistMakesCoherent(q.value);
      }
    }
  }

  /** As written, a signed-in user's freshly loaded document is at once marked unsaved. */
  lemma SnapshotAsWrittenMarksUnsaved(s: StoreState, snap: Option<Snapshot>)
    requires s.user.Some?
    ensures SnapshotArrivedAsWritten(s, snap).unsaved
  {
  }

  /** A snapshot replaces the document whatever the local edits and the flag were. */
  lemma SnapshotOverwritesLocalWork(s: StoreState, d: Document, dirty: bool, snap: Option<Snapshot>)
    requires s.user.Some?
    ensures SnapshotArrived(s.(doc := d, unsaved := dirty), snap) == SnapshotArrived(s, snap)
  {
  }

  /** After the corrected load the flag tracks edits: the next edit raises it. */
  lemma EditAfterSnapshotRaisesFlag(s: StoreState, snap: Option<Snapshot>, d: Document)
    requires s.user.Some?
    ensures !SnapshotArrived(s, snap).unsaved
    ensures Edited(SnapshotArrived(s, snap), d).unsaved
  {
  }

  // ---------------------------------------------------------------- the store object

  class ResumeStore {
    var doc: Document
    var unsaved: bool
    var pendingPhoto: Option<Blob>
    var pendingSignature: Option<Blob>
    var loaded: bool
    var user: Option<Uid>
    var cache: LocalCache
    var remote: map<Uid, Document>

    function State(): StoreState
      reads this
    {
      StoreState(doc, unsaved, pendingPhoto, pendingSignature, loaded, user, cache, remote)
    }

    ghost predicate Valid()
      reads this
    {
      Coherent(State())
    }

    /** The persistence effect. */
    method RunEffect()
      modifies this
      ensures State() == Persist(old(State()))
    {
      if loaded {
        cache := Cached(ToSnapshot(doc));
        if user.Some? || pendingPhoto.Some? || pendingSignature.Some? {
          unsaved := true;
        }
      }
    }

    constructor(saved: LocalCache, signedIn: Option<Uid>, database: map<Uid, Document>)
      ensures State() == Start(saved, signedIn, database)
      ensures Valid()
    {
      doc := LoadLocal(saved);
      unsaved := false;
      pendingPhoto := None;
      pendingSignature := None;
      loaded := false;
      user := signedIn;
      cache := saved;
      remote := database;
      new;
      if signedIn.None? {
        loaded := true;
        RunEffect();
      }
      StartIsCoherent(saved, signedIn, database);
    }

    method ChangeUser(u: Option<Uid>)
      requires Valid()
      modifies this
      ensures State() == UserChanged(old(State()), u)
      ensures Valid()
    {
      EventsKeepCoherent(State(), u, None);
      if u != user {
        user := u;
        if u.None? {
          loaded := true;
        }
        RunEffect();
      }
    }

    /**
     * The snapshot handler as written: the flag is cleared, then the
     * persistence effect re-runs on the new document and sets it again.
     */
    method ReceiveSnapshotAsWritten(snap: Option<Snapshot>)
      requires user.Some?
      modifies this
      ensures State() == SnapshotArrivedAsWritten(old(State()), snap)
      ensures unsaved
      ensures Valid()
    {
      doc := LoadRemote(snap);
      unsaved := false;
      loaded := true;
      LoadersKeepDefaultKeys(NoCache, snap);
      PersistMakesCoherent(State());
      RunEffect();
    }

    /** The corrected snapshot handler: the document just loaded counts as saved. */
    method ReceiveSnapshot(snap: Option<Snapshot>)
      requires user.Some?
      modifies this
      ensures State() == SnapshotArrived(old(State()), snap)
      ensures Valid()
    {
      doc := LoadRemote(snap);
      unsaved := false;
      loaded := true;
      cache := Cached(ToSnapshot(doc));
      LoadersKeepDefaultKeys(NoCache, snap);
    }

    method Edit(d: Document)
      requires HasDefaultKeys(d)
      modifies this
      ensures State() == Edited(old(State()), d)
      ensures Valid()
    {
      doc := d;
      RunEffect();
      PersistMakesCoherent(old(State()).(doc := d));
    }

    method UpdateSection(g: Group, data: Fields)
      requires Valid()
      modifies this
      ensures State() == Edited(old(State()), Resume.UpdateSection(old(doc), g, data))
      ensures Valid()
    {
      Edit(Resume.UpdateSection(doc, g, data));
    }

    method UpdateEntity(c: Collection, id: int, field: string, value: string)
      requires Valid()
      modifies this
      ensures State() == Edited(old(State()), Resume.UpdateEntity(old(doc), c, id, field, value))
      ensures Valid()
    {
      Edit(Resume.UpdateEntity(doc, c, id, field, value));
    }

    /** `add<Entity>`, with `now` the fresh id `Date.now()`. */
    method AddEntity(c: Collection, now: int)
      requires Valid() && IdFresh(Items(doc, c), now)
      modifies this
      ensures State() == Edited(old(State()), Resume.AddEntity(old(doc), c, now))
      ensures Valid()
    {
      Edit(Resume.AddEntity(doc, c, now));
    }

    method RemoveEntity(c: Collection, id: int)
      requires Valid()
      modifies this
      ensures State() == Edited(old(State()), Resume.RemoveEntity(old(doc), c, id))
      ensures Valid()
    {
      Edit(Resume.RemoveEntity(doc, c, id));
    }

    method SetSkills(skills: seq<string>)
      requires Valid()
      modifies this
      ensures State() == Edited(old(State()), Resume.SetSkills(old(doc), skills))
      ensures Valid()
    {
      Edit(Resume.SetSkills(doc, skills));
    }

    method SetEducation(items: seq<Entity>)
      requires Valid()
      modifies this
      ensures State() == Edited(old(State()), Resume.SetEducation(old(doc), items))
      ensures Valid()
    {
      Edit(Resume.SetEducation(doc, items));
    }

    method UpdateSectionOrder(order: seq<string>)
      requires Valid()
      modifies this
      ensures State() == Edited(old(State()), Resume.SetSectionOrder(old(doc), order))
      ensures Valid()
    {
      Edit(Resume.SetSectionOrder(doc, order));
    }

    method SetPendingPhoto(b: Option<Blob>)
      requires Valid()
      modifies this
      ensures State() == PhotoPicked(old(State()), b)
      ensures Valid()
    {
      EventsKeepCoherent(State(), user, b);
      if b != pendingPhoto {
        pendingPhoto := b;
        RunEffect();
      }
    }

    method SetPendingSignature(b: Option<Blob>)
      requires Valid()
      modifies this
      ensures State() == SignaturePicked(old(State()), b)
      ensures Valid()
    {
      EventsKeepCoherent(State(), user, b);
      if b != pendingSignature {
        pendingSignature := b;
        RunEffect();
      }
    }

    method Reset()
      requires Valid()
      modifies this
      ensures State() == ResetState(old(State()))
      ensures Valid()
    {
      EventsKeepCoherent(State(), user, None);
      doc := InitialDocument;
      cache := NoCache;
      RunEffect();
    }

    /** The photo slot: upload for a user, base64 for a guest, then clear the slot. */
    method ResolvePhoto(upload: Blob -> Attempt<string>, encode: Blob -> Attempt<string>) returns (ok: bool)
      modifies this
      ensures ok ==> PhotoStage(old(State()), upload, encode) == Some(State())
      ensures !ok ==> PhotoStage(old(State()), upload, encode).None? && State() == old(State())
    {
      if pendingPhoto.Some? {
        var url := if user.Some? then upload(pendingPhoto.value) else encode(pendingPhoto.value);
        if url.Threw? {
          return false;
        }
        doc := doc.(personal := doc.personal["photoUrl" := url.result]);
        pendingPhoto := None;
        RunEffect();
      }
      return true;
    }

    /** The signature slot, the same way. */
    method ResolveSignature(upload: Blob -> Attempt<string>, encode: Blob -> Attempt<string>) returns (ok: bool)
      modifies this
      ensures ok ==> SignatureStage(old(State()), upload, encode) == Some(State())
      ensures !ok ==> SignatureStage(old(State()), upload, encode).None? && State() == old(State())
    {
      if pendingSignature.Some? {
        var url := if user.Some? then upload(pendingSignature.value) else encode(pendingSignature.value);
        if url.Threw? {
          return false;
        }
        doc := doc.(personal := doc.personal["signatureUrl" := url.result]);
        pendingSignature := None;
        RunEffect();
      }
      return true;
    }

    /** `saveResume`: resolve the photo, then the signature, then store and write. */
    method Save(upload: Blob -> Attempt<string>, encode: Blob -> Attempt<string>, remoteOk: bool) returns (success: bool)
      requires Valid()
      modifies this
      ensures SaveResult(State(), success) == SaveSpec(old(State()), upload, encode, remoteOk)
      ensures Valid()
    {
      SaveKeepsCoherent(State(), upload, encode, remoteOk);
      success := ResolvePhoto(upload, encode);
      if !success {
        return;
      }
      success := ResolveSignature(upload, encode);
      if !success {
        return;
      }
      RunEffect();
      if user.Some? {
        if !remoteOk {
          return false;
        }
        remote := remote[user.value := doc];
      }
      unsaved := false;
      return true;
    }
  }
}
