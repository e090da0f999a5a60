/** Saving, marking as sensitive and recovering keep the invariant (src-tauri/src/documents.rs:745-982). */
module SavingProofs {
  import opened Basics
  import opened Edits
  import opened Histories
  import opened Stores
  import opened Sessions
  import opened Invariant
  import opened SessionProofs
  import W = Worker
  import J = Journals

  // ----- what edits leave as it was

  /** What the worker's edits make has valid pages. */
  lemma ReplayedValid(app: App, things: Things, base: Content, edits: seq<Edit>)
    requires W.Replayed(app.engine, things, base, edits).Some? && W.ValidPages(app.engine.pages(base))
    ensures W.ValidPages(app.engine.pages(W.Replayed(app.engine, things, base, edits).value))
  {
  }

  /** The author's permissions stay. */
  lemma {:induction false} ReplayedForeseen(app: App, things: Things, base: Content, edits: seq<Edit>)
    requires Faithful(app.engine) && HonestSources(app.engine, things)
    requires W.Replayed(app.engine, things, base, edits).Some?
    ensures app.engine.permissions(W.Replayed(app.engine, things, base, edits).value) == app.engine.permissions(base)
    decreases |edits|
  {
    if edits != [] {
      var k := |edits| - 1;
      ReplayedForeseen(app, things, base, edits[..k]);
      var before := W.Replayed(app.engine, things, base, edits[..k]).value;
      assert Foreseen(app.engine, things, before, edits[k]);
    }
  }

  /** Edits made on a marked document make what they would have, marked. */
  lemma {:induction false} ReplayedMarked(app: App, things: Things, base: Content, id: Option<nat>, edits: seq<Edit>)
    requires Faithful(app.engine)
    ensures W.Replayed(app.engine, things, app.engine.mark(base, id), edits)
         == match W.Replayed(app.engine, things, base, edits)
            case None => Option.None
            case Some(made) => Some(app.engine.mark(made, id))
    decreases |edits|
  {
    if edits != [] {
      var k := |edits| - 1;
      ReplayedMarked(app, things, base, id, edits[..k]);
      if W.Replayed(app.engine, things, base, edits[..k]).Some? {
        var before := W.Replayed(app.engine, things, base, edits[..k]).value;
        assert W.Made(app.engine, things, app.engine.mark(before, id), edits[k])
            == match W.Made(app.engine, things, before, edits[k])
               case None => Option.None
               case Some(after) => Some(app.engine.mark(after, id));
      }
    }
  }

  // ----- reading, and other programs

  lemma ReadKeeps(app: App, s: State, origin: Origin)
    requires Inv(app, s, origin)
    ensures s.doc.history.Valid() && Inv(app, Read(app, s).0, OriginOf(s, Read(app, s).0, origin))
  {
    hide Inv, LiveWorker, OriginAfter;
    LiveWorkerKeeps(app, s, origin);
    var live := LiveWorker(app, s);
    ReadLeaves(app, s);
    var t := Read(app, s).0;
    AfterRequest(app, live.0, t, OriginAfter(app, s, origin));
    hide Read;
    GoesBy(app, s, live.0, t, origin);
  }

  lemma ReadLeaves(app: App, s: State)
    requires s.doc.history.Valid() && LiveWorker(app, s).0.host.Valid()
    ensures var live := LiveWorker(app, s);
      var t := Read(app, s).0;
      && SameButWorker(live.0, t) && t.host.Valid() && t.doc.workerDoc == live.0.doc.workerDoc
      && (live.1.Err? ==> t == live.0)
      && (t.doc.lost || t.host.copies == live.0.host.copies)
  {
    hide *;
    ReadIs(app, s);
    var live := LiveWorker(app, s);
    if live.1.Ok? { AskSettled(app, live.0); } else { SameAsItself(live.0); }
  }

  lemma ReadIs(app: App, s: State)
    requires s.doc.history.Valid()
    ensures var live := LiveWorker(app, s);
      && (live.1.Err? ==> Read(app, s).0 == live.0)
      && (live.1.Ok? ==> Read(app, s).0 == Settle(live.0, W.Ask(app.engine, live.0.host)).0)
  {
    hide LiveWorker, Settle, W.Ask;
  }

  lemma AskSettled(app: App, s: State)
    requires s.host.Valid()
    ensures var t := Settle(s, W.Ask(app.engine, s.host)).0;
      && SameButWorker(s, t) && t.host.Valid() && t.doc.workerDoc == s.doc.workerDoc
      && (t.doc.lost || t.host.copies == s.host.copies)
  {
  }

  lemma FileChangesKeeps(app: App, s: State, origin: Origin, path: Path, file: Option<(Content, bool)>)
    requires Inv(app, s, origin)
    ensures s.doc.history.Valid() && s.doc.things.Valid()
    ensures Inv(app, Step(app, s, FileChanges(path, file)).0, origin)
  {
    hide HistoryOk, PagesOk, FlagsOk, KnownOk, Meant, J.BodyOf, J.Readable;
  }

  lemma DiscardFrame(s: State)
    ensures var t := Discard(s).0;
      t == s.(doc := s.doc.(journal := t.doc.journal, recovered := t.doc.recovered,
                info := s.doc.info.(doc := t.doc.info.doc, recovery := t.doc.info.recovery)),
              folder := t.folder, nextId := t.nextId)
  {
    hide *;
    DiscardIs(s);
    if s.doc.recovered.Some? { OfferGone(s, J.Remove(s.folder, s.doc.recovered.value.id)); } else { UpdatedByItself(s); }
  }

  lemma OfferGone(s: State, folder: J.Folder)
    ensures var t := s.(doc := s.doc.(recovered := Option.None, info := s.doc.info.(recovery := NoRecovery)), folder := folder);
      t == s.(doc := s.doc.(journal := t.doc.journal, recovered := t.doc.recovered,
                info := s.doc.info.(doc := t.doc.info.doc, recovery := t.doc.info.recovery)),
              folder := t.folder, nextId := t.nextId)
  {
  }

  lemma UpdatedByItself(s: State)
    ensures s == s.(doc := s.doc.(journal := s.doc.journal, recovered := s.doc.recovered,
                      info := s.doc.info.(doc := s.doc.info.doc, recovery := s.doc.info.recovery)),
                    folder := s.folder, nextId := s.nextId)
  {
  }

  lemma DiscardIs(s: State)
    ensures s.doc.recovered.None? ==> Discard(s).0 == s
    ensures s.doc.recovered.Some? ==>
      Discard(s).0 == s.(doc := s.doc.(recovered := Option.None, info := s.doc.info.(recovery := NoRecovery)),
                         folder := J.Remove(s.folder, s.doc.recovered.value.id))
  {
  }

  lemma DiscardInStep(app: App, s: State)
    requires s.doc.history.Valid() && JournalOk(app, s)
    ensures JournalOk(app, Discard(s).0)
  {
  }

  lemma DiscardKeeps(app: App, s: State, origin: Origin)
    requires Inv(app, s, origin)
    ensures Inv(app, Discard(s).0, origin)
  {
    hide Agrees, Inv, JournalOk;
    DiscardFrame(s);
    AgreesElsewhere(app, s, Discard(s).0, origin);
    DiscardInStep(app, s);
    InvOf(app, Discard(s).0, origin);
  }

  // ----- saving

  /** What is known of a document that was written is what was known of it before, from `content` on. */
  lemma WrittenKnown(app: App, s: State, doc: Document, origin: Origin, content: Content)
    requires Agrees(app, s, origin) && Meant(app, s.doc, origin.base) == Some(content)
    requires doc.history == NOTHING && doc.info.permissions == s.doc.info.permissions
    requires HonestSources(app.engine, doc.things)
    ensures KnownOk(app, doc, Origin(content, origin.steady))
  {
    if Faithful(app.engine) && origin.steady {
      assert Known(app, s.doc, origin.base);
      ReplayedForeseen(app, s.doc.things, origin.base, s.doc.history.Applied());
      assert doc.history.edits == [];
      assert PrefixForeseen(app, doc, content, [], 0);
    }
  }

  lemma WrittenDisk(s: State, origin: Origin, target: Place, content: Content)
    requires DiskOk(s, origin.base)
    ensures DiskOk(WrittenDoc(s, target, content), content)
    ensures UnchangedOnDisk(WrittenDoc(s, target, content))
  {
  }

  lemma WrittenHeld(app: App, s: State, target: Place, content: Content)
    requires JournalsHeld(app, s)
    ensures JournalsHeld(app, WrittenDoc(s, target, content))
  {
  }

  lemma WrittenAgrees(app: App, s: State, origin: Origin, target: Place, content: Content)
    requires Agrees(app, s, origin) && s.doc.lost && Meant(app, s.doc, origin.base) == Some(content)
    ensures Agrees(app, WrittenDoc(s, target, content), Origin(content, origin.steady))
  {
    var t := WrittenDoc(s, target, content);
    WrittenKnown(app, s, t.doc, origin, content);
    WrittenDisk(s, origin, target, content);
    ReplayedValid(app, s.doc.things, origin.base, s.doc.history.Applied());
    hide DiskOk, KnownOk;
    assert Meant(app, t.doc, content) == Some(content);
    assert SourcesOf([]) == {} && PicturesOf([]) == {} && ModelsOf([]) == {};
  }

  lemma WrittenKeeps(app: App, s: State, origin: Origin, target: Place, content: Content)
    requires AppOk(app) && Inv(app, MarkLost(s), origin)
    requires !s.doc.lost && s.host.Valid() && s.doc.workerDoc in s.host.copies
    requires s.host.copies[s.doc.workerDoc] == W.Copy(content, origin.base)
    requires s.doc.history.Valid() && Meant(app, s.doc, origin.base) == Some(content)
    ensures Inv(app, Written(app, s, target, content), Origin(content, origin.steady))
  {
    hide Inv, Agrees, JournalOk, AppOk, W.Replayed;
    var after := Origin(content, origin.steady);
    assert Meant(app, MarkLost(s).doc, origin.base) == Meant(app, s.doc, origin.base);
    var lostDoc := WrittenDoc(MarkLost(s), target, content);
    WrittenAgrees(app, MarkLost(s), origin, target, content);
    WrittenHeld(app, MarkLost(s), target, content);
    KeepJournalKeeps(app, lostDoc, after);
    var kept := KeepJournal(app, lostDoc);
    InvOf(app, kept, after);
    WrittenRebased(app, s, target, content);
    assert Meant(app, kept.doc, content) == Some(content) by { MeantOfSaved(app, kept.doc, content); }
    SameButWorkerKeeps(app, kept, Written(app, s, target, content), after);
  }

  lemma MeantOfSaved(app: App, doc: Document, content: Content)
    requires doc.history == NOTHING
    ensures Meant(app, doc, content) == Some(content)
  {
  }

  lemma WrittenRebased(app: App, s: State, target: Place, content: Content)
    requires s.host.Valid() && s.doc.workerDoc in s.host.copies && s.host.copies[s.doc.workerDoc].now == content
    requires !s.doc.lost
    ensures var kept := KeepJournal(app, WrittenDoc(MarkLost(s), target, content));
      var t := Written(app, s, target, content);
      && SameButWorker(kept, t) && t.host.Valid() && kept.doc.history == NOTHING
      && (!t.doc.lost ==>
            && t.doc.workerDoc in t.host.copies
            && t.host.copies[t.doc.workerDoc] == W.Copy(content, content))
  {
    var shown := WrittenDoc(s, target, content);
    WrittenIgnoresWorker(s, target, content);
    KeepJournalIgnoresWorker(app, shown);
    hide *;
    WrittenIs(app, s, target, content);
    var kept := KeepJournal(app, shown);
    LostIsSame(kept);
    RebasedIs(app, kept, content);
    SameAgain(KeepJournal(app, WrittenDoc(MarkLost(s), target, content)), kept, Written(app, s, target, content));
  }

  lemma WrittenIs(app: App, s: State, target: Place, content: Content)
    ensures WrittenDoc(s, target, content).doc.history.Valid()
    ensures Written(app, s, target, content) == Rebased(app, KeepJournal(app, WrittenDoc(s, target, content)), content)
  {
    hide KeepJournal, Rebased, Flattened, Bookmarked;
  }

  lemma LostIsSame(s: State)
    ensures SameButWorker(MarkLost(s), s)
  {
  }

  lemma RebasedIs(app: App, s: State, content: Content)
    requires s.host.Valid() && s.doc.workerDoc in s.host.copies && s.host.copies[s.doc.workerDoc].now == content && !s.doc.lost
    ensures var t := Rebased(app, s, content);
      && SameButWorker(s, t) && t.host.Valid()
      && (!t.doc.lost ==>
            && t.doc.workerDoc in t.host.copies
            && t.host.copies[t.doc.workerDoc] == W.Copy(content, content))
  {
  }

  lemma WrittenIgnoresWorker(s: State, target: Place, content: Content)
    ensures WrittenDoc(MarkLost(s), target, content) == MarkLost(WrittenDoc(s, target, content))
    ensures var t := WrittenDoc(s, target, content);
      t.host == s.host && t.doc.lost == s.doc.lost && t.doc.workerDoc == s.doc.workerDoc && t.doc.history == NOTHING
  {
    hide Flattened, Bookmarked;
  }

  lemma KeepJournalIgnoresWorker(app: App, s: State)
    requires s.doc.history.Valid()
    ensures KeepJournal(app, MarkLost(s)) == MarkLost(KeepJournal(app, s))
    ensures KeepJournal(app, s).host == s.host && KeepJournal(app, s).doc.lost == s.doc.lost
    ensures KeepJournal(app, s).doc.workerDoc == s.doc.workerDoc && KeepJournal(app, s).doc.history == s.doc.history
  {
    JournalFrame(app, s);
    JournalFrame(app, MarkLost(s));
    KeptAlike(app, s, MarkLost(s));
    hide KeepJournal;
  }

  /** Which journal is kept, and what it says, does not depend on the worker. */
  lemma KeptAlike(app: App, s: State, t: State)
    requires s.doc.history.Valid() && t.doc.history == s.doc.history && t.doc.journal == s.doc.journal && t.folder == s.folder
    requires t.doc.things == s.doc.things && t.doc.path == s.doc.path && t.doc.identity == s.doc.identity
    ensures KeepJournal(app, t).doc.journal == KeepJournal(app, s).doc.journal
    ensures KeepJournal(app, t).folder == KeepJournal(app, s).folder
  {
    KeptIs(app, s);
    KeptIs(app, t);
    hide KeepJournal, J.BodyOf, J.Write, J.Remove, Created;
    assert Created(app, s) == Created(app, t) by { SameCreated(app, s, t); }
  }

  /** What a document in order has in its worker. */
  lemma CopyIsMeant(app: App, s: State, origin: Origin)
    requires Inv(app, s, origin) && !s.doc.lost
    ensures s.doc.history.Valid() && Meant(app, s.doc, origin.base).Some?
    ensures s.doc.workerDoc in s.host.copies
    ensures s.host.copies[s.doc.workerDoc] == W.Copy(Meant(app, s.doc, origin.base).value, origin.base)
  {
  }

  lemma WrittenShape(app: App, s: State, target: Place, content: Content)
    ensures var t := Written(app, s, target, content);
      && t.disk == s.disk.Put(target.path, content)
      && t.doc.path == target.path && t.doc.identity == Some(s.disk.clock)
      && t.doc.history == NOTHING && t.doc.journal.None?
      && !t.doc.info.unsaved && !t.doc.info.canUndo && !t.doc.info.canRedo
      && t.doc.info.pages == s.doc.info.pages
  {
  }

  /** The worker's copy for a file, and what is left when it does not give one. */
  lemma SaveLeaves(app: App, s: State, destination: Option<Place>, faults: WriteFaults)
    requires s.doc.history.Valid()
    ensures var t := Save(app, s, destination, faults).0;
      var live := LiveWorker(app, s);
      var r := Settle(live.0, W.Save(app.engine, live.0.host, if live.1.Ok? then live.1.value else 0));
      || t == s
      || (live.1.Err? && t == live.0)
      || (live.1.Ok? && t == r.0)
      || (live.1.Ok? && r.1.Ok? && t == Written(app, r.0, TargetOf(s.doc, destination), r.1.value))
  {
    hide LiveWorker, Settle, Written, W.Save;
  }

  lemma SaveSettles(app: App, t: State)
    requires !t.doc.lost && t.host.Valid() && t.doc.workerDoc in t.host.copies
    ensures var r := Settle(t, W.Save(app.engine, t.host, t.doc.workerDoc));
      && SameButWorker(t, r.0) && r.0.host.Valid() && r.0.doc.workerDoc == t.doc.workerDoc
      && (r.0.doc.lost || r.0.host.copies == t.host.copies)
      && (r.1.Ok? ==> !r.0.doc.lost && r.1.value == t.host.copies[t.doc.workerDoc].now)
  {
  }

  /** A save that wrote goes by the file it wrote; one that did not by what the worker has. */
  lemma SaveKeeps(app: App, s: State, origin: Origin, destination: Option<Place>, faults: WriteFaults)
    requires AppOk(app) && Inv(app, s, origin)
    ensures s.doc.history.Valid()
    ensures Inv(app, Save(app, s, destination, faults).0, OriginOf(s, Save(app, s, destination, faults).0, origin))
  {
    hide Inv, AppOk, LiveWorker, OriginAfter, Written, Settle, W.Save;
    WeakerOrigin(app, s, origin);
    SaveLeaves(app, s, destination, faults);
    LiveWorkerKeeps(app, s, origin);
    var t := Save(app, s, destination, faults).0;
    hide Save;
    var live := LiveWorker(app, s);
    if t != s {
      if live.1.Err? {
        GoesBy(app, s, live.0, t, origin);
      } else {
        SavedKeeps(app, s, live.0, origin, destination, t);
      }
    }
  }

  lemma SavedKeeps(app: App, s: State, live: State, origin: Origin, destination: Option<Place>, t: State)
    requires AppOk(app) && Inv(app, s, origin) && s.doc.history.Valid()
    requires LiveWorker(app, s) == (live, Ok(live.doc.workerDoc)) && SameButWorker(s, live) && !live.doc.lost
    requires Inv(app, live, OriginAfter(app, s, origin))
    requires var r := Settle(live, W.Save(app.engine, live.host, live.doc.workerDoc));
      t == r.0 || (r.1.Ok? && t == Written(app, r.0, TargetOf(s.doc, destination), r.1.value))
    ensures Inv(app, t, OriginOf(s, t, origin))
  {
    hide Inv, AppOk, LiveWorker, OriginAfter, Written, Settle, W.Save;
    var after := OriginAfter(app, s, origin);
    CopyIsMeant(app, live, after);
    SaveSettles(app, live);
    var r := Settle(live, W.Save(app.engine, live.host, live.doc.workerDoc));
    AfterRequest(app, live, r.0, after);
    if t == r.0 {
      GoesBy(app, s, live, t, origin);
    } else {
      WrittenKeeps(app, r.0, after, TargetOf(s.doc, destination), r.1.value);
      WrittenShape(app, r.0, TargetOf(s.doc, destination), r.1.value);
      SteadyAfter(app, s, origin);
    }
  }

  // ----- the sensitive mark

  lemma MarkedKnown(app: App, s: State, doc: Document, origin: Origin, id: Option<nat>)
    requires AppOk(app) && Agrees(app, s, origin)
    requires doc.history == s.doc.history && doc.things == s.doc.things
    requires doc.info.permissions == s.doc.info.permissions
    ensures KnownOk(app, doc, Origin(app.engine.mark(origin.base, id), origin.steady))
  {
    if Faithful(app.engine) && origin.steady {
      var base := app.engine.mark(origin.base, id);
      assert Known(app, s.doc, origin.base);
      forall n | 0 <= n <= |doc.history.edits| ensures PrefixForeseen(app, doc, base, doc.history.edits, n) {
        assert PrefixForeseen(app, s.doc, origin.base, s.doc.history.edits, n);
        ReplayedMarked(app, s.doc.things, origin.base, id, doc.history.edits[..n]);
      }
      assert app.engine.pages(base) == app.engine.pages(origin.base);
    }
  }

  lemma MarkedAgrees(app: App, s: State, origin: Origin, id: Option<nat>)
    requires AppOk(app) && Agrees(app, s, origin) && s.doc.lost && s.doc.history.applied == 0
    ensures var content := app.engine.mark(origin.base, id);
      Agrees(app, MarkedDoc(s, id, content), Origin(content, origin.steady))
  {
    var content := app.engine.mark(origin.base, id);
    var t := MarkedDoc(s, id, content);
    MarkedKnown(app, s, t.doc, origin, id);
    assert s.doc.history.Applied() == [];
    assert Meant(app, t.doc, content) == Some(content);
    assert Meant(app, s.doc, origin.base) == Some(origin.base);
    assert app.engine.pages(content) == app.engine.pages(origin.base);
  }

  lemma MarkedJournal(app: App, s: State, id: Option<nat>, content: Content)
    requires s.doc.history.Valid() && JournalOk(app, s) && s.doc.history.applied == 0
    ensures JournalOk(app, MarkedDoc(s, id, content))
  {
  }

  lemma MarkedKeeps(app: App, s: State, origin: Origin, id: Option<nat>, password: Option<W.Password>)
    requires AppOk(app) && Inv(app, MarkLost(s), origin) && s.doc.history.applied == 0
    requires !s.doc.lost && s.host.Valid() && s.doc.workerDoc in s.host.copies
    requires s.host.copies[s.doc.workerDoc] == W.Copy(origin.base, origin.base)
    ensures s.doc.history.Valid()
    ensures var content := app.engine.mark(origin.base, id);
      Inv(app, Marked(app, s, id, password, content), Origin(content, origin.steady))
  {
    hide *;
    var content := app.engine.mark(origin.base, id);
    var after := Origin(content, origin.steady);
    var lostDoc := MarkedDoc(MarkLost(s), id, content);
    LostIsLost(app, s, origin);
    MarkedAgrees(app, MarkLost(s), origin, id);
    MarkedJournal(app, MarkLost(s), id, content);
    MarkedLost(s, id, content);
    InvOf(app, lostDoc, after);
    var marked := MarkedDoc(s, id, content);
    RebasedToMark(app, marked, content);
    var rebased := Rebased(app, marked, content);
    RevertedToMark(app, rebased, content, password);
    MarkedUnfolds(app, s, id, password, content);
    MeantOfBase(app, lostDoc.doc, content);
    SameThrice(lostDoc, rebased, Reverted(app, rebased, password));
    SameButWorkerKeeps(app, lostDoc, Reverted(app, rebased, password), after);
    InvIsAgreed(app, Reverted(app, rebased, password), after);
    RenumberKeeps(app, Reverted(app, rebased, password), after);
  }

  lemma LostIsLost(app: App, s: State, origin: Origin)
    requires Inv(app, MarkLost(s), origin)
    ensures Agrees(app, MarkLost(s), origin) && JournalOk(app, MarkLost(s)) && MarkLost(s).doc.lost
    ensures s.doc.history.Valid() && MarkLost(s).doc.history == s.doc.history
    ensures MarkLost(s).doc.info.doc < MarkLost(s).nextId
  {
    hide Agrees, JournalOk;
  }

  lemma InvIsAgreed(app: App, s: State, origin: Origin)
    requires Inv(app, s, origin)
    ensures Agrees(app, s, origin) && JournalOk(app, s)
  {
    hide Agrees, JournalOk;
  }

  lemma MarkedLost(s: State, id: Option<nat>, content: Content)
    ensures MarkedDoc(MarkLost(s), id, content) == MarkLost(MarkedDoc(s, id, content))
    ensures var t := MarkedDoc(MarkLost(s), id, content);
      t.doc.info.doc == s.doc.info.doc && t.nextId == s.nextId && t.doc.history == s.doc.history
    ensures MarkLost(s).doc.info.doc == s.doc.info.doc && MarkLost(s).nextId == s.nextId
    ensures MarkedDoc(s, id, content).host == s.host && MarkedDoc(s, id, content).doc.lost == s.doc.lost
    ensures MarkedDoc(s, id, content).doc.workerDoc == s.doc.workerDoc && MarkedDoc(s, id, content).doc.history == s.doc.history
  {
  }

  /** What becomes of the worker's copy once the file was marked. */
  function Reverted(app: App, s: State, password: Option<W.Password>): State
    requires s.doc.history.Valid()
  {
    if s.doc.lost then s
    else
      var r := RevertInWorker(app, s, [], password);
      if r.1.Err? then MarkLost(r.0) else r.0
  }

  lemma RebasedToMark(app: App, s: State, content: Content)
    requires s.host.Valid() && s.doc.workerDoc in s.host.copies && !s.doc.lost
    ensures var t := Rebased(app, s, content);
      && SameButWorker(MarkLost(s), t) && t.host.Valid() && t.doc.history == s.doc.history
      && (!t.doc.lost ==> t.doc.workerDoc in t.host.copies && t.host.copies[t.doc.workerDoc].original == content)
  {
  }

  lemma SameThrice(a: State, b: State, c: State)
    requires SameButWorker(a, b) && SameButWorker(b, c)
    ensures SameButWorker(a, c)
  {
  }

  lemma MarkedUnfolds(app: App, s: State, id: Option<nat>, password: Option<W.Password>, content: Content)
    requires s.doc.history.Valid() && Rebased(app, MarkedDoc(s, id, content), content).doc.history == s.doc.history
    ensures Marked(app, s, id, password, content) == Renumber(Reverted(app, Rebased(app, MarkedDoc(s, id, content), content), password))
  {
    hide Rebased, RevertInWorker, MarkedDoc, Renumber;
  }

  lemma MeantOfBase(app: App, doc: Document, content: Content)
    requires doc.history.Valid() && doc.history.applied == 0
    ensures Meant(app, doc, content) == Some(content)
  {
  }

  /** The worker opens the document from the marked file, or is given up. */
  lemma RevertedToMark(app: App, s: State, content: Content, password: Option<W.Password>)
    requires s.doc.history.Valid() && s.host.Valid()
    requires !s.doc.lost ==> s.doc.workerDoc in s.host.copies && s.host.copies[s.doc.workerDoc].original == content
    ensures var reverted := Reverted(app, s, password);
      && SameButWorker(s, reverted) && reverted.host.Valid()
      && (!reverted.doc.lost ==>
            && reverted.doc.workerDoc in reverted.host.copies
            && reverted.host.copies[reverted.doc.workerDoc] == W.Copy(content, content))
  {
    if !s.doc.lost {
      LiveAsItIs(app, s);
      RevertOfNothing(app, s, content, password);
    }
    hide W.Revert, Settle, LiveWorker;
  }

  lemma LiveAsItIs(app: App, s: State)
    requires s.doc.history.Valid() && !s.doc.lost
    ensures LiveWorker(app, s) == (s, Ok(s.doc.workerDoc))
  {
  }

  lemma RevertOfNothing(app: App, s: State, content: Content, password: Option<W.Password>)
    requires s.host.Valid() && !s.doc.lost
    requires s.doc.workerDoc in s.host.copies && s.host.copies[s.doc.workerDoc].original == content
    ensures var r := Settle(s, W.Revert(app.engine, s.host, s.doc.workerDoc, [], password));
      && SameButWorker(s, r.0) && r.0.host.Valid()
      && (r.1.Ok? ==>
            && !r.0.doc.lost && r.0.doc.workerDoc in r.0.host.copies
            && r.0.host.copies[r.0.doc.workerDoc] == W.Copy(content, content))
  {
    assert W.ApplyAll(app.engine, content, []) == Some(content);
    hide W.ApplyAll, W.Unlocks, W.ValidPages;
  }

  /** What the worker is asked for the mark leaves its copies as they are. */
  lemma MarkSettles(app: App, t: State, identifier: Option<nat>)
    requires !t.doc.lost && t.host.Valid() && t.doc.workerDoc in t.host.copies
    ensures var r := Settle(t, W.WriteIdentifier(app.engine, t.host, t.doc.workerDoc, identifier));
      && SameButWorker(t, r.0) && r.0.host.Valid() && r.0.doc.workerDoc == t.doc.workerDoc
      && (r.0.doc.lost || r.0.host.copies == t.host.copies)
      && (r.1.Ok? ==> !r.0.doc.lost && r.1.value == app.engine.mark(t.host.copies[t.doc.workerDoc].original, identifier))
  {
  }

  lemma MarkLeaves(app: App, s: State, sensitive: bool, drawn: nat, password: Option<W.Password>, faults: WriteFaults)
    requires s.doc.history.Valid()
    ensures var t := SetSensitive(app, s, sensitive, drawn, password, faults).0;
      var identifier := if sensitive then Some(drawn) else Option.None;
      var live := LiveWorker(app, s);
      var r := Settle(live.0, W.WriteIdentifier(app.engine, live.0.host, if live.1.Ok? then live.1.value else 0, identifier));
      || t == s
      || (live.1.Err? && t == live.0)
      || (live.1.Ok? && t == r.0)
      || (live.1.Ok? && r.1.Ok? && s.doc.history.applied == 0 && r.0.doc.history.Valid()
          && t == Marked(app, r.0, identifier, password, r.1.value))
  {
    LiveWorkerOnlyHost(app, s);
    hide LiveWorker, Marked, W.WriteIdentifier;
  }

  lemma MarkedShape(app: App, s: State, identifier: Option<nat>, password: Option<W.Password>, content: Content)
    requires s.doc.history.Valid()
    ensures var t := Marked(app, s, identifier, password, content);
      && t.disk == s.disk.Put(s.doc.path, content) && t.doc.identity == Some(s.disk.clock)
      && t.doc.path == s.doc.path && t.doc.spelling == s.doc.spelling && t.doc.info.pages == s.doc.info.pages
  {
    RevertSame(app, Rebased(app, MarkedDoc(s, identifier, content), content), [], password);
    hide RevertInWorker;
  }

  /** A file that was marked is what the document goes by. */
  lemma SetSensitiveKeeps(app: App, s: State, origin: Origin, sensitive: bool, drawn: nat, password: Option<W.Password>, faults: WriteFaults)
    requires AppOk(app) && Inv(app, s, origin)
    ensures s.doc.history.Valid()
    ensures var t := SetSensitive(app, s, sensitive, drawn, password, faults).0; Inv(app, t, OriginOf(s, t, origin))
  {
    hide Inv, AppOk, LiveWorker, OriginAfter, Marked, Settle, W.WriteIdentifier;
    WeakerOrigin(app, s, origin);
    MarkLeaves(app, s, sensitive, drawn, password, faults);
    LiveWorkerKeeps(app, s, origin);
    var t := SetSensitive(app, s, sensitive, drawn, password, faults).0;
    hide SetSensitive;
    var live := LiveWorker(app, s);
    if t != s {
      if live.1.Err? {
        GoesBy(app, s, live.0, t, origin);
      } else {
        MarkedFileKeeps(app, s, live.0, origin, if sensitive then Some(drawn) else Option.None, password, t);
      }
    }
  }

  lemma MarkedFileKeeps(app: App, s: State, live: State, origin: Origin, identifier: Option<nat>, password: Option<W.Password>, t: State)
    requires AppOk(app) && Inv(app, s, origin) && s.doc.history.Valid()
    requires LiveWorker(app, s) == (live, Ok(live.doc.workerDoc)) && SameButWorker(s, live) && !live.doc.lost
    requires Inv(app, live, OriginAfter(app, s, origin))
    requires var r := Settle(live, W.WriteIdentifier(app.engine, live.host, live.doc.workerDoc, identifier));
      || t == r.0
      || (r.1.Ok? && s.doc.history.applied == 0 && r.0.doc.history.Valid() && t == Marked(app, r.0, identifier, password, r.1.value))
    ensures Inv(app, t, OriginOf(s, t, origin))
  {
    hide Inv, AppOk, LiveWorker, OriginAfter, Marked, Settle, W.WriteIdentifier;
    var after := OriginAfter(app, s, origin);
    CopyIsMeant(app, live, after);
    MarkSettles(app, live, identifier);
    var r := Settle(live, W.WriteIdentifier(app.engine, live.host, live.doc.workerDoc, identifier));
    AfterRequest(app, live, r.0, after);
    if t == r.0 {
      GoesBy(app, s, live, t, origin);
    } else {
      MeantOfBase(app, live.doc, after.base);
      MarkedKeeps(app, r.0, after, identifier, password);
      MarkedShape(app, r.0, identifier, password, r.1.value);
      SteadyAfter(app, s, origin);
    }
  }
}
