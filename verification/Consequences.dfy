/**
 * What the invariant of an open document gives its user: a failure changes nothing, a save writes
 * what was meant and overwrites nothing it did not read, and a protected document is never opened
 * again without its password (src-tauri/src/documents.rs:594-982, 2992-3018).
 */
module Consequences {
  import opened Basics
  import opened Edits
  import opened Histories
  import opened Stores
  import opened Sessions
  import opened Invariant
  import opened SessionProofs
  import opened SavingProofs
  import W = Worker

  // ----- a failure changes nothing

  /** What the user and the disk have of a document, whether or not its tab asks for the password again. */
  ghost predicate SameForUser(s: State, t: State)
  {
    var same :=
      && t.disk == s.disk && t.folder == s.folder && t.nextId == s.nextId
      && t.doc.info == s.doc.info && t.doc.history == s.doc.history && t.doc.path == s.doc.path
      && t.doc.identity == s.doc.identity && t.doc.journal == s.doc.journal && t.doc.recovered == s.doc.recovered
      && t.doc.identifier == s.doc.identifier && t.doc.guarded == s.doc.guarded
      && t.doc.things.SameFor(s.doc.things, s.doc.history.edits);
    same
  }

  lemma ReadOnlyHost(app: App, s: State)
    requires s.doc.history.Valid()
    ensures SameButWorker(s, Read(app, s).0)
  {
    hide *;
    LiveIsSame(app, s);
    ReadIs(app, s);
    var live := LiveWorker(app, s);
    if live.1.Ok? {
      SettledIsSame(live.0, W.Ask(app.engine, live.0.host));
      SameAgain(s, live.0, Read(app, s).0);
    }
  }

  lemma SaveOnlyHost(app: App, s: State, destination: Option<Place>, faults: WriteFaults)
    requires s.doc.history.Valid() && Save(app, s, destination, faults).1.Err?
    ensures SameButWorker(s, Save(app, s, destination, faults).0)
  {
    LiveIsSame(app, s);
    hide LiveWorker, Settle, Written, W.Save, SameButWorker;
    var live := LiveWorker(app, s);
    SameAsItself(s);
    if live.1.Ok? {
      var r := Settle(live.0, W.Save(app.engine, live.0.host, live.1.value));
      SettledIsSame(live.0, W.Save(app.engine, live.0.host, live.1.value));
      SameAgain(s, live.0, r.0);
    }
  }

  lemma MarkOnlyHost(app: App, s: State, sensitive: bool, drawn: nat, password: Option<W.Password>, faults: WriteFaults)
    requires s.doc.history.Valid() && SetSensitive(app, s, sensitive, drawn, password, faults).1.Err?
    ensures SameButWorker(s, SetSensitive(app, s, sensitive, drawn, password, faults).0)
  {
    hide *;
    LiveIsSame(app, s);
    SetSensitiveIs(app, s, sensitive, drawn, password, faults);
    var live := LiveWorker(app, s);
    SameAsItself(s);
    if live.1.Ok? {
      var answered := W.WriteIdentifier(app.engine, live.0.host, live.1.value, if sensitive then Some(drawn) else Option.None);
      SettledIsSame(live.0, answered);
      SameAgain(s, live.0, Settle(live.0, answered).0);
    }
  }

  /** Marking: refused at once, left where the worker was, or the marked file put in place. */
  lemma SetSensitiveIs(app: App, s: State, sensitive: bool, drawn: nat, password: Option<W.Password>, faults: WriteFaults)
    requires s.doc.history.Valid()
    ensures var r := SetSensitive(app, s, sensitive, drawn, password, faults);
      var live := LiveWorker(app, s);
      var identifier := if sensitive then Some(drawn) else Option.None;
      && (r.1.Err? ==> || r.0 == s || r.0 == live.0
                       || (live.1.Ok? && r.0 == Settle(live.0, W.WriteIdentifier(app.engine, live.0.host, live.1.value, identifier)).0))
      && (r.1.Ok? ==>
            && s.doc.identifier.Some? != sensitive && !UnsavedAnywhere(s.doc) && UnchangedOnDisk(s) && live.1.Ok?
            && var settled := Settle(live.0, W.WriteIdentifier(app.engine, live.0.host, live.1.value, identifier));
            && settled.1.Ok? && settled.0.doc.history.Valid()
            && r.0 == Marked(app, settled.0, identifier, password, settled.1.value))
  {
    LiveWorkerOnlyHost(app, s);
    hide LiveWorker, Marked, W.WriteIdentifier;
  }

  lemma WorkerIsNotTheUsers(s: State, t: State)
    requires SameButWorker(s, t)
    ensures SameForUser(s, t) && SameForUser(s, MarkLost(t)) && SameForUser(s, UnexpectedOn(t))
  {
  }

  lemma ApplyFails(app: App, s: State, edit: Edit)
    requires s.doc.history.Valid() && ApplyEdit(app, s, edit).1.Err?
    ensures SameForUser(s, ApplyEdit(app, s, edit).0)
  {
    hide EditInWorker, Changed, Refusal, PagesAfter, SameForUser;
    WorkerIsNotTheUsers(s, s);
    if Refusal(app, s, edit).None? {
      var asked := WorkerEditOf(s.doc.things, edit).value;
      OnlyHost(app, s, asked);
      WorkerIsNotTheUsers(s, EditInWorker(app, s, asked).0);
    }
  }

  lemma UndoFails(app: App, s: State, password: Option<W.Password>)
    requires s.doc.history.Valid() && Undo(app, s, password).1.Err?
    ensures SameForUser(s, Undo(app, s, password).0)
  {
    hide RevertInWorker, Changed, SameForUser;
    WorkerIsNotTheUsers(s, s);
    if s.doc.history.applied > 0 {
      var asked := W.WorkerEditsOf(s.doc.things, s.doc.history.Undo().Applied());
      if asked.Some? {
        var given := if s.doc.guarded then password else Option.None;
        RevertSame(app, s, asked.value, given);
        WorkerIsNotTheUsers(s, RevertInWorker(app, s, asked.value, given).0);
      }
    }
  }

  lemma RedoFails(app: App, s: State)
    requires s.doc.history.Valid() && Redo(app, s).1.Err?
    ensures SameForUser(s, Redo(app, s).0)
  {
    hide EditInWorker, Changed, SameForUser;
    WorkerIsNotTheUsers(s, s);
    if s.doc.history.CanRedo() {
      var asked := WorkerEditOf(s.doc.things, s.doc.history.edits[s.doc.history.applied]);
      if asked.Some? {
        OnlyHost(app, s, asked.value);
        WorkerIsNotTheUsers(s, EditInWorker(app, s, asked.value).0);
      }
    }
  }

  lemma RecoverFails(app: App, s: State)
    requires s.doc.history.Valid() && s.doc.things.Valid() && s.doc.things.Names(s.doc.history.edits)
    requires Recover(app, s).1.Err?
    ensures SameForUser(s, Recover(app, s).0)
  {
    RestoreKeepsOwn(s.doc.things, Left(s).pictures, Left(s).models, s.doc.history.edits);
    hide Things.SameFor, Things.Names;
    if MayRecover(s) {
      ReplayKeepsTheRest(app, Restoring(s, Left(s)), Left(s).edits);
      hide Replay, KeepJournal;
    }
  }

  lemma AddPictureFails(app: App, s: State, picture: Picture)
    requires s.doc.history.Valid() && s.doc.things.Valid() && AddPicture(app, s, picture).1.Err?
    ensures SameForUser(s, AddPicture(app, s, picture).0)
  {
    hide SameForUser, W.Ask;
    WorkerIsNotTheUsers(s, s);
    WorkerIsNotTheUsers(s, With(s, W.Ask(app.engine, s.host).0));
  }

  lemma AddModelFails(app: App, s: State, model: Model, room: (map<nat, Model>, Model) -> bool)
    requires s.doc.history.Valid() && s.doc.things.Valid() && AddModel(app, s, model, room).1.Err?
    ensures SameForUser(s, AddModel(app, s, model, room).0)
  {
    hide SameForUser, W.Ask;
    WorkerIsNotTheUsers(s, s);
    WorkerIsNotTheUsers(s, With(s, W.Ask(app.engine, s.host).0));
  }

  lemma AddSourceFails(app: App, s: State, bytes: Content, boxes: nat,
    space: (map<nat, Source>, Source) -> bool)
    requires s.doc.history.Valid() && s.doc.things.Valid() && AddSource(app, s, bytes, boxes, space).1.Err?
    ensures SameForUser(s, AddSource(app, s, bytes, boxes, space).0)
  {
    AddSourceIs(app, s, bytes, boxes, space);
    var t := AskedForSource(app, s, boxes);
    WorkerIsNotTheUsers(s, s);
    WorkerIsNotTheUsers(s, t);
    hide SameForUser, SameButWorker, AddSource, AskedForSource;
  }

  lemma DiscardFails(s: State)
    requires Discard(s).1.Err?
    ensures s.doc.recovered.None? && Discard(s).0 == s
  {
  }

  /** Work that fails leaves everything the user has as it was. */
  lemma WorkFails(app: App, s: State, command: Command)
    requires s.doc.history.Valid() && s.doc.things.Valid() && !command.FileChanges?
    requires s.doc.things.Names(s.doc.history.edits) && Work(app, s, command).1.Err?
    ensures SameForUser(s, Work(app, s, command).0)
  {
    hide SameForUser, ApplyEdit, Undo, Redo, Recover, Save, SetSensitive, AddPicture, AddModel, AddSource, Read, Discard;
    WorkerIsNotTheUsers(s, s);
    match command
    case DoApply(edit) => ApplyFails(app, s, edit);
    case DoUndo(password) => UndoFails(app, s, password);
    case DoRedo => RedoFails(app, s);
    case DoRecover => RecoverFails(app, s);
    case DoSave(destination, faults) =>
      SaveOnlyHost(app, s, destination, faults);
      WorkerIsNotTheUsers(s, Save(app, s, destination, faults).0);
    case DoSetSensitive(sensitive, drawn, key, problems) =>
      MarkOnlyHost(app, s, sensitive, drawn, key, problems);
      WorkerIsNotTheUsers(s, SetSensitive(app, s, sensitive, drawn, key, problems).0);
    case DoRead =>
      ReadOnlyHost(app, s);
      WorkerIsNotTheUsers(s, Read(app, s).0);
    case DoAddPicture(picture) => AddPictureFails(app, s, picture);
    case DoAddModel(model, room) => AddModelFails(app, s, model, room);
    case DoAddSource(bytes, boxes, space) => AddSourceFails(app, s, bytes, boxes, space);
    case DoDiscard => DiscardFails(s);
  }

  // ----- an error after all was written

  /** The file is there, and as the document knows it. */
  predicate IsAsKnown(s: State)
  {
    s.doc.path in s.disk.files && s.doc.identity == Some(s.disk.files[s.doc.path].stamp)
  }

  predicate MayWrite(disk: Disk, path: Path) { path in disk.files ==> !disk.files[path].readOnly }

  /** A save of a document whose worker is there gets as far as putting its file in place. */
  predicate SavePuts(app: App, s: State, destination: Option<Place>, faults: WriteFaults)
  {
    && (destination.None? ==> s.doc.history.applied > 0 && IsAsKnown(s) && MayWrite(s.disk, s.doc.path))
    && (destination.Some? ==> MayWrite(s.disk, destination.value.path))
    && faults == NO_FAULTS && app.engine.fault(s.host.sent).Fine?
  }

  const NO_FAULTS := WriteFaults(Option.None, Option.None, Option.None)

  predicate MarkPuts(app: App, s: State, sensitive: bool, faults: WriteFaults)
  {
    && !s.doc.signed && sensitive != s.doc.identifier.Some?
    && s.doc.history.applied == 0 && !s.doc.info.recovery.Available? && !s.doc.info.recovery.Partial?
    && IsAsKnown(s) && MayWrite(s.disk, s.doc.path)
    && faults == NO_FAULTS && app.engine.fault(s.host.sent).Fine?
  }

  /** The worker does not take the marked bytes, or does not open the document from them. */
  predicate MarkIsLost(app: App, s: State, sensitive: bool, drawn: nat, key: Option<W.Password>)
    requires s.doc.workerDoc in s.host.copies
  {
    var marked := app.engine.mark(s.host.copies[s.doc.workerDoc].original, if sensitive then Some(drawn) else Option.None);
    || !app.engine.fault(s.host.sent + 1).Fine?
    || !app.engine.fault(s.host.sent + 2).Fine?
    || !W.Unlocks(app.engine, marked, key)
  }

  /** The file of a document opened with a password is put in place, and its worker lost only then. */
  predicate PutThenGone(app: App, s: State, command: Command)
  {
    && s.inTab && s.doc.guarded && !s.doc.lost && s.doc.workerDoc in s.host.copies
    && match command
       case DoSave(destination, faults) =>
         SavePuts(app, s, destination, faults) && !app.engine.fault(s.host.sent + 1).Fine?
       case DoSetSensitive(sensitive, drawn, key, problems) =>
         MarkPuts(app, s, sensitive, problems) && MarkIsLost(app, s, sensitive, drawn, key)
       case _ => false
  }

  /**
   * Edits that are offered are discarded on a document that was opened with a password and has lost
   * its worker, which its tab has not noticed yet.
   */
  predicate DiscardedAnyway(s: State, command: Command)
  {
    s.inTab && Gone(s) && command.DoDiscard? && s.doc.recovered.Some?
  }

  lemma SavePutsWhen(app: App, s: State, destination: Option<Place>, faults: WriteFaults)
    requires s.doc.history.Valid() && !s.doc.lost && s.doc.workerDoc in s.host.copies
    ensures var r := Save(app, s, destination, faults);
      && (SavePuts(app, s, destination, faults) ==>
            && r.1.Ok? && r.0.disk.clock > s.disk.clock && r.0.doc.guarded == s.doc.guarded
            && (r.0.doc.lost <==> !app.engine.fault(s.host.sent + 1).Fine?))
      && (!SavePuts(app, s, destination, faults) && r.1.Ok? ==> r.0 == s)
  {
    var r := W.Save(app.engine, s.host, s.doc.workerDoc);
    if SavePuts(app, s, destination, faults) {
      WrittenIsLostWhen(app, With(s, r.0), TargetOf(s.doc, destination), r.1.value);
    }
    hide Written;
  }

  lemma WrittenIsLostWhen(app: App, s: State, target: Place, content: Content)
    requires !s.doc.lost && s.doc.workerDoc in s.host.copies
    ensures var t := Written(app, s, target, content);
      && t.disk.clock > s.disk.clock && t.doc.guarded == s.doc.guarded
      && (t.doc.lost <==> !app.engine.fault(s.host.sent).Fine?)
  {
    hide Flattened, Bookmarked;
  }

  lemma MarkPutsWhen(app: App, s: State, origin: Origin, sensitive: bool, drawn: nat, key: Option<W.Password>, faults: WriteFaults)
    requires AppOk(app) && Inv(app, s, origin) && !s.doc.lost
    requires s.doc.history.Valid() && s.doc.workerDoc in s.host.copies
    ensures var r := SetSensitive(app, s, sensitive, drawn, key, faults);
      && (r.1.Ok? <==> MarkPuts(app, s, sensitive, faults))
      && (r.1.Ok? ==>
            && r.0.disk.clock > s.disk.clock && r.0.doc.guarded == s.doc.guarded
            && (r.0.doc.lost <==> MarkIsLost(app, s, sensitive, drawn, key)))
  {
    var id := if sensitive then Some(drawn) else Option.None;
    var r := W.WriteIdentifier(app.engine, s.host, s.doc.workerDoc, id);
    if MarkPuts(app, s, sensitive, faults) {
      assert s.host.copies[s.doc.workerDoc].original == origin.base && W.ValidPages(app.engine.pages(origin.base));
      assert app.engine.pages(app.engine.mark(origin.base, id)) == app.engine.pages(origin.base);
      hide Inv, AppOk;
      MarkedIsLostWhen(app, With(s, r.0), id, key, r.1.value);
    }
    hide Marked, Inv, AppOk;
  }

  lemma MarkedIsLostWhen(app: App, s: State, id: Option<nat>, key: Option<W.Password>, content: Content)
    requires s.doc.history.Valid() && !s.doc.lost && s.doc.workerDoc in s.host.copies
    requires W.ValidPages(app.engine.pages(content))
    ensures var t := Marked(app, s, id, key, content);
      && t.disk.clock > s.disk.clock && t.doc.guarded == s.doc.guarded
      && (t.doc.lost <==> || !app.engine.fault(s.host.sent).Fine? || !app.engine.fault(s.host.sent + 1).Fine?
                          || !W.Unlocks(app.engine, content, key))
  {
    hide *;
    var marked := MarkedDoc(s, id, content);
    MarkedFrame(s, id, content);
    RebasedWhen(app, marked, content);
    var rebased := Rebased(app, marked, content);
    SameIsSame(marked, rebased);
    RevertSame(app, rebased, [], key);
    SameIsSame(rebased, RevertInWorker(app, rebased, [], key).0);
    if !rebased.doc.lost { RevertedWhen(app, rebased, content, key); }
    MarkedIs(app, s, id, key, content);
  }

  lemma MarkedFrame(s: State, id: Option<nat>, content: Content)
    ensures var t := MarkedDoc(s, id, content);
      && t.disk.clock == s.disk.clock + 1 && t.host == s.host && t.doc.lost == s.doc.lost && t.doc.guarded == s.doc.guarded
      && t.doc.workerDoc == s.doc.workerDoc && t.doc.history == s.doc.history
  {
  }

  lemma SameIsSame(s: State, t: State)
    requires SameButWorker(s, t)
    ensures t.disk == s.disk && t.doc.guarded == s.doc.guarded && t.doc.history == s.doc.history
    ensures t.nextId == s.nextId && t.inTab == s.inTab && t.doc.things == s.doc.things
  {
  }

  lemma MarkedIs(app: App, s: State, id: Option<nat>, key: Option<W.Password>, content: Content)
    requires s.doc.history.Valid() && Rebased(app, MarkedDoc(s, id, content), content).doc.history == s.doc.history
    ensures var rebased := Rebased(app, MarkedDoc(s, id, content), content);
      var r := RevertInWorker(app, rebased, [], key);
      var t := Marked(app, s, id, key, content);
      && (rebased.doc.lost ==> t.doc.lost && t.disk == rebased.disk && t.doc.guarded == rebased.doc.guarded)
      && (!rebased.doc.lost ==>
            && t.doc.lost == (r.1.Err? || r.0.doc.lost) && t.disk == r.0.disk && t.doc.guarded == r.0.doc.guarded)
  {
    hide Rebased, RevertInWorker, MarkedDoc;
  }

  lemma RebasedWhen(app: App, s: State, content: Content)
    requires !s.doc.lost && s.doc.workerDoc in s.host.copies
    ensures var t := Rebased(app, s, content);
      && (t.doc.lost <==> !app.engine.fault(s.host.sent).Fine?) && SameButWorker(s, t) && t.doc.workerDoc == s.doc.workerDoc
      && (!t.doc.lost ==>
            && t.host.sent == s.host.sent + 1
            && t.doc.workerDoc in t.host.copies && t.host.copies[t.doc.workerDoc].original == content)
  {
  }

  lemma RevertedWhen(app: App, s: State, content: Content, key: Option<W.Password>)
    requires s.doc.history.Valid() && !s.doc.lost && s.doc.workerDoc in s.host.copies
    requires s.host.copies[s.doc.workerDoc].original == content && W.ValidPages(app.engine.pages(content))
    ensures var r := RevertInWorker(app, s, [], key);
      && (r.1.Ok? <==> app.engine.fault(s.host.sent).Fine? && W.Unlocks(app.engine, content, key))
      && (r.1.Ok? ==> !r.0.doc.lost)
  {
    hide Reopen;
  }

  /**
   * A command that fails leaves the files, the journals, the history and everything the page was
   * told as they were; at most the worker is given up, or things for edits to come are kept. All but
   * two, on a document opened with a password, which are answered with an error too because it is
   * asked for again: what puts its file in place and loses its worker only then; and discarding the
   * edits that are offered, when its worker was lost before, unnoticed by its tab.
   */
  lemma FailureChangesNothing(app: App, s: State, origin: Origin, command: Command)
    requires AppOk(app) && Inv(app, s, origin)
    ensures s.doc.history.Valid() && s.doc.things.Valid()
    ensures var r := Step(app, s, command);
      && (r.1.Err? ==> (SameForUser(s, r.0) <==> !PutThenGone(app, s, command) && !DiscardedAnyway(s, command)))
      && (PutThenGone(app, s, command) ==> r.1 == Err(UnknownDocument) && Gone(r.0) && r.0.disk != s.disk)
      && (DiscardedAnyway(s, command) ==>
            r.1 == Err(UnknownDocument) && r.0.folder.stored == s.folder.stored - {s.doc.recovered.value.id})
  {
    hide *;
    ValidOfInv(app, s, origin);
    StepIs(app, s, command);
    WorkerIsNotTheUsers(s, s);
    WhenPutOrDiscarded(app, s, command);
    if !command.FileChanges? && s.inTab {
      TabIsNotTheUsers(s, Work(app, s, command).0);
      if Gone(s) { WorkOnGone(app, s, origin, command); } else { WorkEither(app, s, origin, command); }
    }
  }

  /** The work, and what is answered: `Ok` of a document that is gone becomes an error. */
  lemma StepIs(app: App, s: State, command: Command)
    requires s.doc.history.Valid() && s.doc.things.Valid()
    ensures command.FileChanges? ==> Step(app, s, command).1.Ok?
    ensures !command.FileChanges? && !s.inTab ==> Step(app, s, command) == (s, Err(UnknownDocument))
    ensures !command.FileChanges? && s.inTab ==>
      var r := Work(app, s, command);
      && Step(app, s, command).0 == (if Gone(r.0) then r.0.(inTab := false) else r.0)
      && Step(app, s, command).1 == (if r.1.Ok? && TellsState(command) && Gone(r.0) then Err(UnknownDocument) else r.1)
  {
    hide Work;
  }

  lemma WhenPutOrDiscarded(app: App, s: State, command: Command)
    ensures PutThenGone(app, s, command) ==> s.inTab && !command.FileChanges? && !Gone(s)
    ensures DiscardedAnyway(s, command) <==> s.inTab && Gone(s) && command.DoDiscard? && s.doc.recovered.Some?
  {
  }

  lemma TabIsNotTheUsers(s: State, t: State)
    ensures SameForUser(s, t.(inTab := false)) <==> SameForUser(s, t)
    ensures Gone(t.(inTab := false)) <==> Gone(t)
  {
  }

  /** A document that is gone is worked on all the same: only discarding what is offered does anything. */
  lemma WorkOnGone(app: App, s: State, origin: Origin, command: Command)
    requires Inv(app, s, origin) && Gone(s) && !command.FileChanges?
    ensures s.doc.history.Valid() && s.doc.things.Valid()
    ensures var r := Work(app, s, command);
      && (r.1.Err? ==> SameForUser(s, r.0))
      && (r.1.Ok? && TellsState(command) && !(command.DoDiscard? && s.doc.recovered.Some?) ==> r.0 == s)
      && (command.DoDiscard? && s.doc.recovered.Some? ==>
            && r.1.Ok? && TellsState(command) && Gone(r.0) && !SameForUser(s, r.0)
            && r.0.folder.stored == s.folder.stored - {s.doc.recovered.value.id})
  {
    ValidOfInv(app, s, origin);
    if Work(app, s, command).1.Err? { WorkFails(app, s, command); }
    hide ApplyEdit, Undo, Redo, Recover, Save, SetSensitive, AddPicture, AddModel, AddSource, Read, Inv;
    match command
    case DoApply(edit) => ApplyOnGone(app, s, edit);
    case DoUndo(password) => UndoOnGone(app, s, password);
    case DoRedo => RedoOnGone(app, s);
    case DoRecover => RecoverOnGone(app, s, origin);
    case DoSave(destination, faults) => SaveOnGone(app, s, destination, faults);
    case DoSetSensitive(sensitive, drawn, key, problems) => MarkOnGone(app, s, sensitive, drawn, key, problems);
    case _ =>
  }

  lemma ApplyOnGone(app: App, s: State, edit: Edit)
    requires s.doc.history.Valid() && Gone(s)
    ensures ApplyEdit(app, s, edit).1.Err?
  {
    hide Refusal;
  }

  lemma UndoOnGone(app: App, s: State, password: Option<W.Password>)
    requires s.doc.history.Valid() && Gone(s)
    ensures Undo(app, s, password).1.Err?
  {
    hide W.WorkerEditsOf;
  }

  lemma RedoOnGone(app: App, s: State)
    requires s.doc.history.Valid() && Gone(s)
    ensures Redo(app, s).1.Err?
  {
  }

  lemma RecoverOnGone(app: App, s: State, origin: Origin)
    requires Inv(app, s, origin) && Gone(s)
    ensures s.doc.history.Valid() && s.doc.things.Valid() && Recover(app, s).1.Err?
  {
    if MayRecover(s) {
      OfferedHasEdits(app, s, origin);
      ReplayOnGone(app, Restoring(s, Left(s)), Left(s).edits);
    }
    hide Replay, Inv;
  }

  lemma OfferedHasEdits(app: App, s: State, origin: Origin)
    requires Inv(app, s, origin) && MayRecover(s)
    ensures Left(s).edits != []
  {
    assert JournalsHeld(app, s);
  }

  lemma ReplayOnGone(app: App, s: State, edits: seq<Edit>)
    requires s.doc.history.Valid() && Gone(s) && edits != []
    ensures Replay(app, s, edits).1.Err?
  {
    assert ReplayEdits(app, s, edits, s.doc.info.pages).1.Err?;
  }

  lemma SaveOnGone(app: App, s: State, destination: Option<Place>, faults: WriteFaults)
    requires s.doc.history.Valid() && Gone(s)
    ensures Save(app, s, destination, faults).1.Ok? ==> Save(app, s, destination, faults).0 == s
  {
    hide Written;
  }

  lemma MarkOnGone(app: App, s: State, sensitive: bool, drawn: nat, password: Option<W.Password>, faults: WriteFaults)
    requires s.doc.history.Valid() && Gone(s)
    ensures SetSensitive(app, s, sensitive, drawn, password, faults).1.Err?
  {
    hide Marked;
  }

  lemma SameDisk(s: State, t: State)
    requires SameForUser(s, t)
    ensures t.disk == s.disk
  {
  }

  /** Work fails and changes nothing; or it is done, and then the document is gone just when `PutThenGone` says. */
  lemma WorkEither(app: App, s: State, origin: Origin, command: Command)
    requires AppOk(app) && Inv(app, s, origin) && !command.FileChanges? && !Gone(s) && s.inTab
    ensures s.doc.history.Valid() && s.doc.things.Valid()
    ensures var r := Work(app, s, command);
      && (r.1.Err? ==> SameForUser(s, r.0) && !PutThenGone(app, s, command))
      && (r.1.Ok? ==> (TellsState(command) && Gone(r.0) <==> PutThenGone(app, s, command)))
      && (PutThenGone(app, s, command) ==> r.1.Ok? && Gone(r.0) && r.0.disk != s.disk && !SameForUser(s, r.0))
  {
    hide *;
    ValidOfInv(app, s, origin);
    if Work(app, s, command).1.Err? { WorkFails(app, s, command); } else { OkStays(app, s, command); }
    match command {
      case DoSave(destination, faults) => SaveEither(app, s, origin, destination, faults);
      case DoSetSensitive(sensitive, drawn, key, problems) => MarkEither(app, s, origin, sensitive, drawn, key, problems);
      case _ => OthersEither(app, s, command);
    }
    if SameForUser(s, Work(app, s, command).0) { SameDisk(s, Work(app, s, command).0); }
  }

  lemma OthersEither(app: App, s: State, command: Command)
    requires !Gone(s) && !command.DoSave? && !command.DoSetSensitive? && !command.FileChanges?
    requires s.doc.history.Valid() && s.doc.things.Valid()
    requires var t := Work(app, s, command).0;
      Work(app, s, command).1.Ok? ==> t.doc.guarded == s.doc.guarded && (TellsState(command) ==> StaysOpen(s, t))
    ensures !PutThenGone(app, s, command)
    ensures Work(app, s, command).1.Ok? ==> !(TellsState(command) && Gone(Work(app, s, command).0))
  {
    hide Work;
  }

  lemma SaveEither(app: App, s: State, origin: Origin, destination: Option<Place>, faults: WriteFaults)
    requires Inv(app, s, origin) && !Gone(s) && s.inTab
    ensures s.doc.history.Valid() && s.doc.things.Valid()
    ensures var command := DoSave(destination, faults);
      var r := Work(app, s, command);
      && (r.1.Ok? && r.0.doc.guarded == s.doc.guarded ==>
            (TellsState(command) && Gone(r.0) <==> PutThenGone(app, s, command)))
      && (PutThenGone(app, s, command) ==> r.1.Ok? && r.0.disk != s.disk && Gone(r.0))
  {
    hide *;
    ValidOfInv(app, s, origin);
    WorkIs(app, s, destination, faults);
    NotGone(s);
    if !s.doc.lost {
      CopyIsMeant(app, s, origin);
      SavePutsWhen(app, s, destination, faults);
    }
    NotGone(Save(app, s, destination, faults).0);
  }

  lemma NotGone(s: State)
    ensures Gone(s) <==> s.doc.guarded && s.doc.lost
  {
  }

  lemma WorkIs(app: App, s: State, destination: Option<Place>, faults: WriteFaults)
    requires s.doc.history.Valid() && s.doc.things.Valid()
    ensures Work(app, s, DoSave(destination, faults)) == Save(app, s, destination, faults)
    ensures TellsState(DoSave(destination, faults))
    ensures PutThenGone(app, s, DoSave(destination, faults))
      <==> && s.inTab && s.doc.guarded && !s.doc.lost && s.doc.workerDoc in s.host.copies
           && SavePuts(app, s, destination, faults) && !app.engine.fault(s.host.sent + 1).Fine?
  {
    hide Save, SavePuts;
  }

  lemma MarkEither(app: App, s: State, origin: Origin, sensitive: bool, drawn: nat, key: Option<W.Password>, faults: WriteFaults)
    requires AppOk(app) && Inv(app, s, origin) && !Gone(s) && s.inTab
    ensures s.doc.history.Valid() && s.doc.things.Valid()
    ensures var command := DoSetSensitive(sensitive, drawn, key, faults);
      var r := Work(app, s, command);
      && (r.1.Ok? && r.0.doc.guarded == s.doc.guarded ==>
            (TellsState(command) && Gone(r.0) <==> PutThenGone(app, s, command)))
      && (PutThenGone(app, s, command) ==> r.1.Ok? && r.0.disk != s.disk && Gone(r.0))
  {
    if !s.doc.lost {
      CopyIsMeant(app, s, origin);
      MarkPutsWhen(app, s, origin, sensitive, drawn, key, faults);
    }
    hide Inv, AppOk, SetSensitive, MarkPuts, MarkIsLost;
  }

  // ----- what a save writes

  /** A save answered `Ok` that wrote a file wrote the document as it was meant to be. */
  lemma SaveWrites(app: App, s: State, origin: Origin, destination: Option<Place>, faults: WriteFaults)
    requires AppOk(app) && Inv(app, s, origin)
    requires Save(app, s, destination, faults).1.Ok?
    requires destination.Some? || s.doc.history.Unsaved()
    ensures var t := Save(app, s, destination, faults).0;
      var target := TargetOf(s.doc, destination);
      var meant := Meant(app, s.doc, OriginAfter(app, s, origin).base);
      && meant.Some?
      && t.disk.files == s.disk.files[target.path := File(meant.value, s.disk.clock, false)]
      && target == (if destination.Some? then destination.value else Place(s.doc.path, s.doc.spelling))
      && MayWrite(s.disk, target.path) && Place(t.doc.path, t.doc.spelling) == target && UnchangedOnDisk(t)
      && t.doc.history == NOTHING && t.doc.journal.None?
      && !t.doc.info.unsaved && !t.doc.info.canUndo && !t.doc.info.canRedo
      && t.doc.info.pages == s.doc.info.pages
  {
    var live := LiveWorker(app, s).0;
    var after := OriginAfter(app, s, origin);
    SaveIs(app, s, destination, faults);
    SaveDoes(app, s, destination, faults);
    LiveWorkerKeeps(app, s, origin);
    hide *;
    CopyIsMeant(app, live, after);
    MeantOfSame(app, s, live, after.base);
    SaveSettles(app, live);
    var r := Settle(live, W.Save(app.engine, live.host, live.doc.workerDoc));
    StaysItsFile(s, live, r.0);
    WrittenShape(app, r.0, TargetOf(s.doc, destination), r.1.value);
    PutAtIsKnown(r.0, Written(app, r.0, TargetOf(s.doc, destination), r.1.value), TargetOf(s.doc, destination).path, r.1.value);
  }

  lemma SaveIs(app: App, s: State, destination: Option<Place>, faults: WriteFaults)
    requires s.doc.history.Valid() && Save(app, s, destination, faults).1.Ok?
    requires destination.Some? || s.doc.history.Unsaved()
    ensures var live := LiveWorker(app, s);
      && live.1.Ok? && MayWrite(s.disk, TargetOf(s.doc, destination).path)
      && TargetOf(s.doc, destination) == (if destination.Some? then destination.value else Place(s.doc.path, s.doc.spelling))
      && var r := Settle(live.0, W.Save(app.engine, live.0.host, live.1.value));
         r.1.Ok? && Save(app, s, destination, faults).0 == Written(app, r.0, TargetOf(s.doc, destination), r.1.value)
  {
    hide LiveWorker, Written, W.Save, Settle;
  }

  lemma MeantOfSame(app: App, s: State, t: State, base: Content)
    requires s.doc.history.Valid() && SameButWorker(s, t)
    ensures t.doc.history.Valid() && Meant(app, t.doc, base) == Meant(app, s.doc, base)
  {
  }

  /**
   * Saving over the document's own file, with no destination given, only ever replaces the file
   * the document was read from: what is written is that file with the applied edits made on it.
   */
  lemma SaveOverwritesOnlyWhatWasRead(app: App, s: State, origin: Origin, faults: WriteFaults)
    requires AppOk(app) && Inv(app, s, origin)
    requires var t := Save(app, s, Option.None, faults).0; t.disk != s.disk
    ensures s.doc.path in s.disk.files && UnchangedOnDisk(s)
    ensures var read := s.disk.files[s.doc.path].content;
      var t := Save(app, s, Option.None, faults).0;
      && Meant(app, s.doc, read).Some?
      && t.disk.files == s.disk.files[s.doc.path := File(Meant(app, s.doc, read).value, s.disk.clock, false)]
  {
    var r := Save(app, s, Option.None, faults);
    if r.1.Err? {
      SaveOnlyHost(app, s, Option.None, faults);
    } else {
      SaveWrites(app, s, origin, Option.None, faults);
      assert s.disk.files[s.doc.path].content == origin.base;
    }
  }

  /**
   * A mark answered `Ok` was written into the file as it was read, in its place, and into no other file:
   * the document goes by that file from then on.
   */
  lemma MarkWrites(app: App, s: State, origin: Origin, sensitive: bool, drawn: nat, key: Option<W.Password>, faults: WriteFaults)
    requires AppOk(app) && Inv(app, s, origin)
    requires SetSensitive(app, s, sensitive, drawn, key, faults).1.Ok?
    ensures s.doc.path in s.disk.files
    ensures var t := SetSensitive(app, s, sensitive, drawn, key, faults).0;
      var identifier := if sensitive then Some(drawn) else Option.None;
      var marked := app.engine.mark(s.disk.files[s.doc.path].content, identifier);
      && t.disk.files == s.disk.files[s.doc.path := File(marked, s.disk.clock, false)] && UnchangedOnDisk(t)
      && t.doc.path == s.doc.path && t.doc.spelling == s.doc.spelling && t.doc.info.pages == s.doc.info.pages
      && t.doc.identifier == identifier && t.doc.info.sensitive == sensitive
      && t.doc.history == s.doc.history && t.doc.things == s.doc.things
  {
    var identifier := if sensitive then Some(drawn) else Option.None;
    var live := LiveWorker(app, s).0;
    var after := OriginAfter(app, s, origin);
    MarkDoes(app, s, sensitive, drawn, key, faults);
    SetSensitiveIs(app, s, sensitive, drawn, key, faults);
    LiveWorkerKeeps(app, s, origin);
    BaseIsOnDisk(app, s, origin);
    hide *;
    CopyIsMeant(app, live, after);
    MarkSettles(app, live, identifier);
    var r := Settle(live, W.WriteIdentifier(app.engine, live.host, live.doc.workerDoc, identifier));
    StaysItsFile(s, live, r.0);
    MarkedShape(app, r.0, identifier, key, r.1.value);
    PutAtIsKnown(r.0, Marked(app, r.0, identifier, key, r.1.value), s.doc.path, r.1.value);
  }

  /** A document whose file is as known is that file with its applied edits, also once it is opened again. */
  lemma BaseIsOnDisk(app: App, s: State, origin: Origin)
    requires Inv(app, s, origin) && s.doc.history.Valid() && UnchangedOnDisk(s)
    ensures s.doc.path in s.disk.files && OriginAfter(app, s, origin).base == s.disk.files[s.doc.path].content
  {
    hide LiveWorker;
  }

  lemma StaysItsFile(s: State, t: State, u: State)
    requires SameButWorker(s, t) && SameButWorker(t, u)
    ensures u.disk == s.disk && u.doc.path == s.doc.path && u.doc.spelling == s.doc.spelling && u.doc.info.pages == s.doc.info.pages
  {
  }

  lemma PutAtIsKnown(s: State, t: State, path: Path, content: Content)
    requires t.disk == s.disk.Put(path, content) && t.doc.identity == Some(s.disk.clock) && t.doc.path == path
    ensures UnchangedOnDisk(t) && t.disk.files == s.disk.files[path := File(content, s.disk.clock, false)]
  {
  }

  // ----- what the author allows

  /** The permissions told are those of the document as it is, while nobody changed the file. */
  lemma PermissionsAreTold(app: App, s: State, origin: Origin)
    requires Inv(app, s, origin) && Faithful(app.engine) && origin.steady
    ensures Meant(app, s.doc, origin.base).Some?
    ensures s.doc.info.permissions == app.engine.permissions(Meant(app, s.doc, origin.base).value)
  {
    ReplayedForeseen(app, s.doc.things, origin.base, s.doc.history.Applied());
  }

  // ----- protected documents

  lemma {:induction false} GuardedReplay(app: App, s: State, edits: seq<Edit>, pages: seq<W.PageSize>)
    requires s.doc.history.Valid() && s.doc.guarded
    ensures ReplayEdits(app, s, edits, pages).0.host.next == s.host.next
    decreases |edits|
  {
    if edits != [] && WorkerEditOf(s.doc.things, edits[0]).Some? {
      var asked := WorkerEditOf(s.doc.things, edits[0]).value;
      OnlyHost(app, s, asked);
      var r := EditInWorker(app, s, asked);
      if r.1.Ok? {
        GuardedReplay(app, r.0, edits[1..], r.1.value);
      }
    }
  }

  lemma KeptHost(app: App, s: State, history: Timeline, pages: seq<W.PageSize>)
    requires history.Valid()
    ensures Changed(app, s, history, pages).host == s.host && Changed(app, s, history, pages).doc.guarded == s.doc.guarded
  {
  }

  lemma GuardedReplayAll(app: App, s: State, edits: seq<Edit>)
    requires s.doc.history.Valid() && s.doc.guarded
    ensures Replay(app, s, edits).0.host.next == s.host.next
  {
    if |edits| <= MAX_UNDO_EDITS {
      GuardedReplay(app, s, edits, s.doc.info.pages);
      ReplayEditsOnlyHost(app, s, edits, s.doc.info.pages);
      hide ReplayEdits;
    }
  }

  lemma KeepJournalHost(app: App, s: State)
    requires s.doc.history.Valid()
    ensures Renumber(KeepJournal(app, s)).host == s.host
  {
  }

  lemma GuardedRecover(app: App, s: State)
    requires s.doc.history.Valid() && s.doc.things.Valid() && s.doc.guarded
    ensures Recover(app, s).0.host.next == s.host.next
  {
    if MayRecover(s) {
      GuardedReplayAll(app, Restoring(s, Left(s)), Left(s).edits);
      ReplayKeepsTheRest(app, Restoring(s, Left(s)), Left(s).edits);
      hide Replay, KeepJournal, Renumber;
      var r := Replay(app, Restoring(s, Left(s)), Left(s).edits);
      if r.1.Ok? { KeepJournalHost(app, TakenOver(r.0)); }
    }
  }

  lemma GuardedAsked(app: App, s: State)
    requires s.doc.history.Valid() && s.doc.guarded
    ensures LiveWorker(app, s).0 == s
  {
  }

  lemma RebasedNext(app: App, s: State, content: Content)
    ensures var t := Rebased(app, s, content);
      t.host.next == s.host.next && t.doc.history == s.doc.history && t.doc.guarded == s.doc.guarded
  {
  }

  lemma WrittenNext(app: App, s: State, target: Place, content: Content)
    ensures Written(app, s, target, content).host.next == s.host.next
  {
  }

  lemma MarkedNext(app: App, s: State, identifier: Option<nat>, password: Option<W.Password>, content: Content)
    requires s.doc.history.Valid() && s.doc.guarded
    ensures Marked(app, s, identifier, password, content).host.next == s.host.next
  {
    var rebased := Rebased(app, MarkedDoc(s, identifier, content), content);
    RebasedNext(app, MarkedDoc(s, identifier, content), content);
    GuardedRevert(app, rebased, [], password);
    hide Rebased, RevertInWorker;
  }

  lemma GuardedRevert(app: App, s: State, asked: seq<WorkerEdit>, password: Option<W.Password>)
    requires s.doc.history.Valid() && s.doc.guarded
    ensures RevertInWorker(app, s, asked, password).0.host.next == s.host.next
  {
  }

  lemma GuardedSave(app: App, s: State, destination: Option<Place>, faults: WriteFaults)
    requires s.doc.history.Valid() && s.doc.guarded
    ensures Save(app, s, destination, faults).0.host.next == s.host.next
  {
    GuardedAsked(app, s);
    hide LiveWorker, Written;
    var live := LiveWorker(app, s);
    if live.1.Ok? {
      var r := Settle(live.0, W.Save(app.engine, live.0.host, live.1.value));
      if r.1.Ok? {
        WrittenNext(app, r.0, TargetOf(s.doc, destination), r.1.value);
      }
    }
  }

  lemma GuardedMark(app: App, s: State, sensitive: bool, drawn: nat, password: Option<W.Password>, faults: WriteFaults)
    requires s.doc.history.Valid() && s.doc.guarded
    ensures SetSensitive(app, s, sensitive, drawn, password, faults).0.host.next == s.host.next
  {
    GuardedAsked(app, s);
    hide LiveWorker, Marked;
    var live := LiveWorker(app, s);
    if live.1.Ok? {
      var identifier := if sensitive then Some(drawn) else Option.None;
      var r := Settle(live.0, W.WriteIdentifier(app.engine, live.0.host, live.1.value, identifier));
      if r.1.Ok? {
        MarkedNext(app, r.0, identifier, password, r.1.value);
      }
    }
  }

  lemma GuardedApply(app: App, s: State, edit: Edit)
    requires s.doc.history.Valid() && s.doc.guarded
    ensures ApplyEdit(app, s, edit).0.host.next == s.host.next
  {
    if Refusal(app, s, edit).None? {
      var asked := WorkerEditOf(s.doc.things, edit).value;
      GuardedEdit(app, s, asked);
      hide EditInWorker, Refusal, PagesAfter, Changed;
      var r := EditInWorker(app, s, asked);
      if r.1.Ok? { KeptHost(app, r.0, s.doc.history.Push(edit), r.1.value); }
    }
  }

  lemma GuardedEdit(app: App, s: State, asked: WorkerEdit)
    requires s.doc.history.Valid() && s.doc.guarded
    ensures EditInWorker(app, s, asked).0.host.next == s.host.next
  {
  }

  lemma GuardedUndo(app: App, s: State, password: Option<W.Password>)
    requires s.doc.history.Valid() && s.doc.guarded
    ensures Undo(app, s, password).0.host.next == s.host.next
  {
    if s.doc.history.applied > 0 {
      var asked := W.WorkerEditsOf(s.doc.things, s.doc.history.Undo().Applied());
      if asked.Some? {
        var r := RevertInWorker(app, s, asked.value, password);
        GuardedRevert(app, s, asked.value, password);
        hide RevertInWorker, Changed;
        if r.1.Ok? { KeptHost(app, r.0, s.doc.history.Undo(), r.1.value); }
      }
    }
  }

  lemma GuardedRedo(app: App, s: State)
    requires s.doc.history.Valid() && s.doc.guarded
    ensures Redo(app, s).0.host.next == s.host.next
  {
    if s.doc.history.CanRedo() {
      var asked := WorkerEditOf(s.doc.things, s.doc.history.edits[s.doc.history.applied]);
      if asked.Some? {
        GuardedEdit(app, s, asked.value);
        var r := EditInWorker(app, s, asked.value);
        if r.1.Ok? { KeptHost(app, r.0, s.doc.history.Redo(), r.1.value); }
      }
    }
    hide EditInWorker, Changed;
  }

  lemma GuardedElse(app: App, s: State, command: Command)
    requires s.doc.history.Valid() && s.doc.things.Valid() && s.doc.guarded
    requires command.DoDiscard? || command.DoAddPicture? || command.DoAddModel? || command.DoAddSource?
          || command.DoRead? || command.FileChanges?
    ensures Step(app, s, command).0.host.next == s.host.next
  {
    StepIs(app, s, command);
    if !command.FileChanges? && s.inTab {
      match command
      case DoRead => GuardedRead(app, s);
      case DoAddPicture(picture) => GuardedPicture(app, s, picture);
      case DoAddModel(model, room) => GuardedModel(app, s, model, room);
      case DoAddSource(bytes, boxes, space) => GuardedSource(app, s, bytes, boxes, space);
      case _ =>
    }
    hide AddPicture, AddModel, AddSource, Read, Gone;
  }

  lemma GuardedRead(app: App, s: State)
    requires s.doc.history.Valid() && s.doc.guarded
    ensures Read(app, s).0.host.next == s.host.next
  {
  }

  lemma GuardedPicture(app: App, s: State, picture: Picture)
    requires s.doc.history.Valid() && s.doc.things.Valid()
    ensures AddPicture(app, s, picture).0.host.next == s.host.next
  {
  }

  lemma GuardedModel(app: App, s: State, model: Model, room: (map<nat, Model>, Model) -> bool)
    requires s.doc.history.Valid() && s.doc.things.Valid()
    ensures AddModel(app, s, model, room).0.host.next == s.host.next
  {
  }

  lemma GuardedSource(app: App, s: State, bytes: Content, boxes: nat,
    space: (map<nat, Source>, Source) -> bool)
    requires s.doc.history.Valid() && s.doc.things.Valid()
    ensures AddSource(app, s, bytes, boxes, space).0.host.next == s.host.next
  {
    AddSourceIs(app, s, bytes, boxes, space);
    hide AddSource, AskedForSource, SameButWorker;
  }

  /**
   * A document opened with a password is never opened again by a command: its host gives out no
   * number for another copy (only opening a file does).
   */
  lemma GuardedIsNeverReopened(app: App, s: State, command: Command)
    requires s.doc.history.Valid() && s.doc.things.Valid() && s.doc.guarded
    ensures Step(app, s, command).0.host.next == s.host.next
  {
    hide ApplyEdit, Undo, Redo, Recover, Save, SetSensitive, AddPicture, AddModel, AddSource, Read, Discard;
    match command
    case DoApply(edit) => GuardedApply(app, s, edit);
    case DoUndo(password) => GuardedUndo(app, s, password);
    case DoRedo => GuardedRedo(app, s);
    case DoRecover => GuardedRecover(app, s);
    case DoSave(destination, faults) => GuardedSave(app, s, destination, faults);
    case DoSetSensitive(sensitive, drawn, key, problems) => GuardedMark(app, s, sensitive, drawn, key, problems);
    case _ => GuardedElse(app, s, command);
  }

  // ----- what a success does

  /** How the document was opened stays, and so does its worker if it is there. */
  predicate StaysOpen(s: State, t: State)
  {
    t.doc.guarded == s.doc.guarded && (t.doc.lost ==> s.doc.lost)
  }

  lemma AnsweredIsLive(app: App, s: State, asked: WorkerEdit)
    requires s.doc.history.Valid() && EditInWorker(app, s, asked).1.Ok?
    ensures !EditInWorker(app, s, asked).0.doc.lost
  {
    hide Reopen, W.Edit;
  }

  lemma RevertedIsLive(app: App, s: State, asked: seq<WorkerEdit>, password: Option<W.Password>)
    requires s.doc.history.Valid() && RevertInWorker(app, s, asked, password).1.Ok?
    ensures !RevertInWorker(app, s, asked, password).0.doc.lost
  {
    hide Reopen, W.Revert;
  }

  /** The document's number is another one, never given before. */
  predicate Renumbered(s: State, t: State)
  {
    t.doc.info.doc == s.nextId && t.nextId == s.nextId + 1 && t.inTab == s.inTab
  }

  lemma ChangedDoes(app: App, s: State, history: Timeline, pages: seq<W.PageSize>)
    requires history.Valid()
    ensures var t := Changed(app, s, history, pages);
      && t.doc.history == history && t.doc.info.pages == pages && Renumbered(s, t) && t.disk == s.disk
      && StaysOpen(s, t) && t.doc.lost == s.doc.lost && t.doc.things == s.doc.things
      && t.doc.identity == s.doc.identity
  {
    var shown := s.(doc := ShowHistory(s.doc.(history := history, info := s.doc.info.(pages := pages))));
    KeptDoes(app, shown);
    hide KeepJournal, Renumber, Flattened, Bookmarked;
  }

  lemma ApplyDoes(app: App, s: State, edit: Edit)
    requires s.doc.history.Valid() && ApplyEdit(app, s, edit).1.Ok?
    ensures var t := ApplyEdit(app, s, edit).0;
      && t.doc.history == s.doc.history.Push(edit) && Renumbered(s, t) && t.disk == s.disk && StaysOpen(s, t)
      && t.doc.things == s.doc.things && t.doc.identity == s.doc.identity
  {
    hide EditInWorker, Changed, Refusal, PagesAfter;
    var asked := WorkerEditOf(s.doc.things, edit).value;
    OnlyHost(app, s, asked);
    var r := EditInWorker(app, s, asked);
    AnsweredIsLive(app, s, asked);
    ChangedDoes(app, r.0, s.doc.history.Push(edit), r.1.value);
  }

  lemma UndoDoes(app: App, s: State, password: Option<W.Password>)
    requires s.doc.history.Valid() && Undo(app, s, password).1.Ok?
    ensures s.doc.history.applied > 0
    ensures var t := Undo(app, s, password).0;
      && t.doc.history == s.doc.history.Undo() && Renumbered(s, t) && t.disk == s.disk && StaysOpen(s, t)
      && t.doc.things == s.doc.things && t.doc.identity == s.doc.identity
  {
    hide RevertInWorker, Changed, W.WorkerEditsOf;
    var asked := W.WorkerEditsOf(s.doc.things, s.doc.history.Undo().Applied()).value;
    var given := if s.doc.guarded then password else Option.None;
    RevertSame(app, s, asked, given);
    var r := RevertInWorker(app, s, asked, given);
    RevertedIsLive(app, s, asked, given);
    ChangedDoes(app, r.0, s.doc.history.Undo(), r.1.value);
  }

  lemma RedoDoes(app: App, s: State)
    requires s.doc.history.Valid() && Redo(app, s).1.Ok?
    ensures s.doc.history.CanRedo()
    ensures var t := Redo(app, s).0;
      && t.doc.history == s.doc.history.Redo() && Renumbered(s, t) && t.disk == s.disk && StaysOpen(s, t)
      && t.doc.things == s.doc.things && t.doc.identity == s.doc.identity
  {
    hide EditInWorker, Changed;
    var asked := WorkerEditOf(s.doc.things, s.doc.history.edits[s.doc.history.applied]).value;
    OnlyHost(app, s, asked);
    var r := EditInWorker(app, s, asked);
    AnsweredIsLive(app, s, asked);
    ChangedDoes(app, r.0, s.doc.history.Redo(), r.1.value);
  }

  lemma KeptDoes(app: App, s: State)
    requires s.doc.history.Valid()
    ensures var t := Renumber(KeepJournal(app, s));
      && t.doc.history == s.doc.history && t.doc.recovered == s.doc.recovered && t.doc.info.recovery == s.doc.info.recovery
      && t.disk == s.disk && Renumbered(s, t) && StaysOpen(s, t)
      && t.doc.info.pages == s.doc.info.pages && t.doc.lost == s.doc.lost && t.doc.things == s.doc.things
      && t.doc.identity == s.doc.identity
  {
    JournalFrame(app, s);
    hide KeepJournal;
  }

  lemma {:induction false} ReplayedIsLive(app: App, s: State, edits: seq<Edit>, pages: seq<W.PageSize>)
    requires s.doc.history.Valid() && ReplayEdits(app, s, edits, pages).1.Ok?
    ensures StaysOpen(s, ReplayEdits(app, s, edits, pages).0)
    decreases |edits|
  {
    if edits != [] {
      var asked := WorkerEditOf(s.doc.things, edits[0]).value;
      OnlyHost(app, s, asked);
      AnsweredIsLive(app, s, asked);
      var r := EditInWorker(app, s, asked);
      hide EditInWorker;
      ReplayedIsLive(app, r.0, edits[1..], r.1.value);
    }
  }

  lemma ReplayStaysOpen(app: App, s: State, edits: seq<Edit>)
    requires s.doc.history.Valid() && Replay(app, s, edits).1.Ok?
    ensures StaysOpen(s, Replay(app, s, edits).0)
  {
    ReplayedIsLive(app, s, edits, s.doc.info.pages);
    hide ReplayEdits, PagesAfterAll;
  }

  lemma RecoverDoes(app: App, s: State)
    requires s.doc.history.Valid() && s.doc.things.Valid() && Recover(app, s).1.Ok?
    ensures MayRecover(s)
    ensures var t := Recover(app, s).0;
      && t.doc.history == s.doc.history.PushAll(Left(s).edits) && Renumbered(s, t) && t.disk == s.disk
      && t.doc.recovered.None? && t.doc.info.recovery.NoRecovery? && StaysOpen(s, t)
      && t.doc.things == Restoring(s, Left(s)).doc.things && t.doc.identity == s.doc.identity
  {
    ReplayStaysOpen(app, Restoring(s, Left(s)), Left(s).edits);
    var r := Replay(app, Restoring(s, Left(s)), Left(s).edits);
    ReplayKeepsTheRest(app, Restoring(s, Left(s)), Left(s).edits);
    hide Replay, KeepJournal, Renumber;
    KeptDoes(app, TakenOver(r.0));
  }

  lemma MarkDoes(app: App, s: State, sensitive: bool, drawn: nat, password: Option<W.Password>, faults: WriteFaults)
    requires s.doc.history.Valid() && SetSensitive(app, s, sensitive, drawn, password, faults).1.Ok?
    ensures var t := SetSensitive(app, s, sensitive, drawn, password, faults).0;
      && t.doc.history == s.doc.history && Renumbered(s, t) && t.doc.things == s.doc.things
      && t.doc.identifier == (if sensitive then Some(drawn) else Option.None) && t.doc.info.sensitive == sensitive
      && s.doc.identifier.Some? != sensitive && !UnsavedAnywhere(s.doc) && UnchangedOnDisk(s)
      && t.doc.guarded == s.doc.guarded
  {
    hide *;
    LiveIsSame(app, s);
    SetSensitiveIs(app, s, sensitive, drawn, password, faults);
    var live := LiveWorker(app, s);
    var identifier := if sensitive then Some(drawn) else Option.None;
    var answered := W.WriteIdentifier(app.engine, live.0.host, live.1.value, identifier);
    var r := Settle(live.0, answered);
    SettledIsSame(live.0, answered);
    SameAgain(s, live.0, r.0);
    SameIsSame(s, r.0);
    MarkedDoes(app, r.0, identifier, password, r.1.value);
    RenumberedToo(s, r.0, Marked(app, r.0, identifier, password, r.1.value));
  }

  lemma RenumberedToo(s: State, t: State, u: State)
    requires t.nextId == s.nextId && t.inTab == s.inTab && Renumbered(t, u)
    ensures Renumbered(s, u)
  {
  }

  lemma MarkedDoes(app: App, s: State, identifier: Option<nat>, password: Option<W.Password>, content: Content)
    requires s.doc.history.Valid()
    ensures var t := Marked(app, s, identifier, password, content);
      && t.doc.history == s.doc.history && Renumbered(s, t) && t.doc.things == s.doc.things
      && t.doc.identifier == identifier && t.doc.info.sensitive == identifier.Some?
      && t.doc.guarded == s.doc.guarded
  {
    var rebased := Rebased(app, MarkedDoc(s, identifier, content), content);
    RevertSame(app, rebased, [], password);
    hide RevertInWorker;
  }

  /** What succeeds, but for what writes the document's file, loses no worker. */
  lemma OkStays(app: App, s: State, command: Command)
    requires s.doc.history.Valid() && s.doc.things.Valid() && !command.FileChanges? && Work(app, s, command).1.Ok?
    ensures var t := Work(app, s, command).0;
      t.doc.guarded == s.doc.guarded && (TellsState(command) && !command.DoSave? && !command.DoSetSensitive? ==> StaysOpen(s, t))
  {
    hide ApplyEdit, Undo, Redo, Recover, Save, SetSensitive, AddPicture, AddModel, AddSource, Read, Discard;
    match command
    case DoApply(edit) => ApplyDoes(app, s, edit);
    case DoUndo(password) => UndoDoes(app, s, password);
    case DoRedo => RedoDoes(app, s);
    case DoRecover => RecoverDoes(app, s);
    case DoSetSensitive(sensitive, drawn, key, problems) => MarkDoes(app, s, sensitive, drawn, key, problems);
    case DoSave(destination, faults) => SaveDoes(app, s, destination, faults);
    case DoDiscard => DiscardDoes(s);
    case DoAddPicture(picture) => AddPictureDoes(app, s, picture);
    case DoAddModel(model, room) => AddModelDoes(app, s, model, room);
    case DoAddSource(bytes, boxes, space) => AddSourceDoes(app, s, bytes, boxes, space);
    case DoRead => ReadOnlyHost(app, s);
  }

  /**
   * What a command that succeeds does to the history and to the document's number: with the
   * invariant, to the content too.
   */
  lemma SuccessDoes(app: App, s: State, command: Command)
    requires s.doc.history.Valid() && s.doc.things.Valid() && Step(app, s, command).1.Ok?
    ensures var t := Step(app, s, command).0;
      match command
      case DoApply(edit) => t.doc.history == s.doc.history.Push(edit) && Renumbered(s, t)
      case DoUndo(_) => s.doc.history.applied > 0 && t.doc.history == s.doc.history.Undo() && Renumbered(s, t)
      case DoRedo => s.doc.history.CanRedo() && t.doc.history == s.doc.history.Redo() && Renumbered(s, t)
      case DoRecover => t.doc.history == s.doc.history.PushAll(Left(s).edits) && Renumbered(s, t)
      case DoSetSensitive(_, _, _, _) => t.doc.history == s.doc.history && Renumbered(s, t)
      case DoSave(destination, _) =>
        t.doc.history == (if destination.None? && !s.doc.history.Unsaved() then s.doc.history else NOTHING)
        && t.doc.info.doc == s.doc.info.doc && t.nextId == s.nextId
      case _ => SameNumber(s, t)
  {
    hide ApplyEdit, Undo, Redo, Recover, Save, SetSensitive, AddPicture, AddModel, AddSource, Read, Discard;
    match command
    case DoApply(edit) => ApplyDoes(app, s, edit);
    case DoUndo(password) => UndoDoes(app, s, password);
    case DoRedo => RedoDoes(app, s);
    case DoRecover => RecoverDoes(app, s);
    case DoSetSensitive(sensitive, drawn, key, problems) => MarkDoes(app, s, sensitive, drawn, key, problems);
    case DoSave(destination, faults) => SaveDoes(app, s, destination, faults);
    case DoDiscard => DiscardDoes(s);
    case DoAddPicture(picture) => AddPictureDoes(app, s, picture);
    case DoAddModel(model, room) => AddModelDoes(app, s, model, room);
    case DoAddSource(bytes, boxes, space) => AddSourceDoes(app, s, bytes, boxes, space);
    case DoRead => ReadOnlyHost(app, s);
    case FileChanges(_, _) =>
  }

  predicate SameNumber(s: State, t: State)
  {
    t.doc.history == s.doc.history && t.doc.info.doc == s.doc.info.doc && t.nextId == s.nextId
    && t.doc.guarded == s.doc.guarded
  }

  lemma DiscardDoes(s: State)
    ensures SameNumber(s, Discard(s).0) && StaysOpen(s, Discard(s).0)
    ensures s.doc.recovered.Some? ==>
      && Discard(s).1.Ok? && Discard(s).0.doc.recovered.None?
      && Discard(s).0.folder.stored == s.folder.stored - {s.doc.recovered.value.id}
  {
  }

  lemma AddPictureDoes(app: App, s: State, picture: Picture)
    requires s.doc.history.Valid() && s.doc.things.Valid()
    ensures SameNumber(s, AddPicture(app, s, picture).0)
  {
    hide W.Ask;
  }

  lemma AddModelDoes(app: App, s: State, model: Model, fits: (map<nat, Model>, Model) -> bool)
    requires s.doc.history.Valid() && s.doc.things.Valid()
    ensures SameNumber(s, AddModel(app, s, model, fits).0)
  {
    hide W.Ask;
  }

  lemma AddSourceDoes(app: App, s: State, bytes: Content, boxes: nat,
    fits: (map<nat, Source>, Source) -> bool)
    requires s.doc.history.Valid() && s.doc.things.Valid()
    ensures SameNumber(s, AddSource(app, s, bytes, boxes, fits).0)
  {
    AddSourceIs(app, s, bytes, boxes, fits);
    hide AddSource, AskedForSource;
  }

  lemma WrittenDoes(app: App, s: State, target: Place, content: Content)
    ensures var t := Written(app, s, target, content);
      && t.doc.history == NOTHING && t.doc.info.doc == s.doc.info.doc && t.nextId == s.nextId
      && t.doc.guarded == s.doc.guarded && t.doc.things == s.doc.things.(sources := s.doc.things.sources.(things := map[]))
      && Place(t.doc.path, t.doc.spelling) == target
      && (target != Place(s.doc.path, s.doc.spelling) ==>
            && t.doc.recovered.None? && t.doc.info.recovery.NoRecovery?
            && (s.doc.recovered.Some? && Some(s.doc.recovered.value.id) != s.doc.journal ==>
                  && s.doc.recovered.value.id !in t.folder.inUse
                  && (s.doc.recovered.value.id in s.folder.stored ==> s.doc.recovered.value.id in t.folder.stored)))
      && (target == Place(s.doc.path, s.doc.spelling) ==>
            && t.doc.recovered == s.doc.recovered
            && (s.doc.recovered.Some? ==> t.doc.info.recovery.Stale?))
  {
    hide Flattened, Bookmarked;
  }

  lemma SaveDoes(app: App, s: State, destination: Option<Place>, faults: WriteFaults)
    requires s.doc.history.Valid() && Save(app, s, destination, faults).1.Ok?
    ensures var t := Save(app, s, destination, faults).0;
      t.doc.history == (if destination.None? && !s.doc.history.Unsaved() then s.doc.history else NOTHING)
      && t.doc.info.doc == s.doc.info.doc && t.nextId == s.nextId && t.doc.guarded == s.doc.guarded
      && t.doc.things.pictures == s.doc.things.pictures && t.doc.things.models == s.doc.things.models
      && (destination.Some? || s.doc.history.Unsaved() ==>
            t.doc.things.sources.things == map[] && Place(t.doc.path, t.doc.spelling) == TargetOf(s.doc, destination))
  {
    if destination.Some? || s.doc.history.Unsaved() {
      LiveIsSame(app, s);
      var live := LiveWorker(app, s);
      var r := Settle(live.0, W.Save(app.engine, live.0.host, live.1.value));
      SettledIsSame(live.0, W.Save(app.engine, live.0.host, live.1.value));
      WrittenDoes(app, r.0, TargetOf(s.doc, destination), r.1.value);
      hide LiveWorker, Settle, Written, W.Save;
    }
  }

  lemma OfferAfterSave(app: App, s: State, destination: Option<Place>, faults: WriteFaults)
    requires s.doc.history.Valid() && s.doc.recovered.Some? && (destination.Some? || s.doc.history.Unsaved())
    requires Save(app, s, destination, faults).1.Ok?
    ensures var t := Save(app, s, destination, faults).0;
      var id := s.doc.recovered.value.id;
      if TargetOf(s.doc, destination) == Place(s.doc.path, s.doc.spelling) then
        t.doc.recovered == s.doc.recovered && t.doc.info.recovery.Stale?
      else
        t.doc.recovered.None?
        && (Some(id) != s.doc.journal ==> id !in t.folder.inUse && (id in s.folder.stored ==> id in t.folder.stored))
  {
    LiveIsSame(app, s);
    var live := LiveWorker(app, s);
    var r := Settle(live.0, W.Save(app.engine, live.0.host, live.1.value));
    SettledIsSame(live.0, W.Save(app.engine, live.0.host, live.1.value));
    WrittenDoes(app, r.0, TargetOf(s.doc, destination), r.1.value);
    hide LiveWorker, Settle, Written, W.Save;
  }

  /**
   * What becomes of the edits an earlier run left: saved elsewhere, they stay for the other file, to
   * be found again; saved over the file, they are stale; discarded, their journal is gone.
   */
  lemma WhatBecomesOfTheOffer(app: App, s: State, origin: Origin, destination: Option<Place>, faults: WriteFaults)
    requires AppOk(app) && Inv(app, s, origin) && s.doc.recovered.Some?
    requires destination.Some? || s.doc.history.Unsaved()
    ensures Discard(s).1.Ok? && Discard(s).0.doc.recovered.None?
    ensures Discard(s).0.folder.stored == s.folder.stored - {s.doc.recovered.value.id}
    ensures var r := Save(app, s, destination, faults);
      var target := TargetOf(s.doc, destination);
      var id := s.doc.recovered.value.id;
      r.1.Ok? ==>
        if target == Place(s.doc.path, s.doc.spelling) then r.0.doc.recovered == s.doc.recovered && r.0.doc.info.recovery.Stale?
        else r.0.doc.recovered.None? && id !in r.0.folder.inUse && (id in s.folder.stored ==> id in r.0.folder.stored)
  {
    DiscardDoes(s);
    if Save(app, s, destination, faults).1.Ok? {
      OfferAfterSave(app, s, destination, faults);
      assert Some(s.doc.recovered.value.id) != s.doc.journal;
    }
    hide Discard, Save;
  }
}
