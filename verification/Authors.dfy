/**
 * What the author of a document forbids is never among its edits, undone ones included: over every run
 * from the opening of its file (src-tauri/src/documents.rs:594-786, 3020-3087, 3204-3249).
 */
module Authors {
  import opened Basics
  import opened Edits
  import opened Permits
  import opened Histories
  import opened Stores
  import opened Sessions
  import opened Invariant
  import opened SessionProofs
  import opened RecoveryProofs
  import opened Consequences
  import opened Restart
  import opened Reopening
  import opened Told
  import opened Verdicts
  import W = Worker
  import J = Journals

  /** All edits a document has are ones its author allows. */
  ghost predicate AsAllowed(doc: Document) { AllAllowed(doc.info.permissions, doc.history.edits) }

  lemma PushAllowed(allowed: Permissions, t: Timeline, edit: Edit)
    requires t.Valid() && AllAllowed(allowed, t.edits) && Gives(allowed, Needed(edit))
    ensures AllAllowed(allowed, t.Push(edit).edits)
  {
    hide Needed, Gives;
  }

  lemma PushAllAllowed(allowed: Permissions, t: Timeline, edits: seq<Edit>)
    requires t.Valid() && AllAllowed(allowed, t.edits) && AllAllowed(allowed, edits)
    ensures AllAllowed(allowed, t.PushAll(edits).edits)
  {
    PushedAll(t, edits);
    hide Needed, Gives;
  }

  lemma {:induction false} PushedAll(t: Timeline, edits: seq<Edit>)
    requires t.Valid()
    ensures t.PushAll(edits).edits == if edits == [] then t.edits else t.Applied() + edits
    decreases |edits|
  {
  }

  lemma AcceptedIsAllowed(app: App, s: State, edit: Edit)
    requires s.doc.history.Valid() && W.ValidPages(s.doc.info.pages) && ApplyEdit(app, s, edit).1.Ok?
    ensures Gives(s.doc.info.permissions, Needed(edit))
  {
    RefusedExactlyWhen(app, s, edit);
    hide EditInWorker, Changed, PagesAfter, Valid, HasRoom, CountOnce;
  }

  lemma ReplayedAreAllowed(app: App, s: State, edits: seq<Edit>)
    requires s.doc.history.Valid() && W.ValidPages(s.doc.info.pages) && Replay(app, s, edits).1.Ok?
    requires forall i :: 0 <= i < |edits| ==> Valid(edits[i])
    ensures AllAllowed(s.doc.info.permissions, edits)
  {
    var count := |s.doc.info.pages|;
    AllAcceptedExactlyWhen(edits, count, s.doc.info.permissions, NoSources);
    assert PagesAfterAll(edits, count, s.doc.info.permissions, NoSources).Ok? by { hide ReplayEdits, PagesAfterAll; }
    AcceptedAreAllowed(edits, count, s.doc.info.permissions, NoSources);
  }

  lemma RecoveredAreAllowed(app: App, s: State, origin: Origin)
    requires Inv(app, s, origin) && s.doc.history.Valid() && s.doc.things.Valid() && Recover(app, s).1.Ok?
    ensures AllAllowed(s.doc.info.permissions, Left(s).edits)
  {
    PagesAreValid(app, s, origin);
    LeftIsValid(app, s, origin);
    hide Inv, Replay, KeepJournal, Renumber;
    ReplayedAreAllowed(app, Restoring(s, Left(s)), Left(s).edits);
  }

  lemma LeftIsValid(app: App, s: State, origin: Origin)
    requires Inv(app, s, origin)
    ensures forall i :: 0 <= i < |Left(s).edits| ==> Valid(Left(s).edits[i])
  {
    assert JournalsHeld(app, s);
  }

  /** What fails says the same of the author, and has the same edits. */
  lemma FailureAllowed(s: State, t: State)
    requires SameForUser(s, t)
    ensures t.doc.info.permissions == s.doc.info.permissions && t.doc.history == s.doc.history
  {
  }

  lemma MarkSaysTheSame(app: App, s: State, sensitive: bool, drawn: nat, key: Option<W.Password>, faults: WriteFaults)
    requires s.doc.history.Valid() && SetSensitive(app, s, sensitive, drawn, key, faults).1.Ok?
    ensures SetSensitive(app, s, sensitive, drawn, key, faults).0.doc.info.permissions == s.doc.info.permissions
  {
    hide *;
    LiveIsSame(app, s);
    SetSensitiveIs(app, s, sensitive, drawn, key, faults);
    var live := LiveWorker(app, s);
    var identifier := if sensitive then Some(drawn) else Option.None;
    var answered := W.WriteIdentifier(app.engine, live.0.host, live.1.value, identifier);
    SettledIsSame(live.0, answered);
    var r := Settle(live.0, answered);
    SameFileIs(s, live.0);
    SameFileIs(live.0, r.0);
    MarkedFile(app, r.0, identifier, key, r.1.value);
  }

  lemma SaveSaysTheSame(app: App, s: State, destination: Option<Place>, faults: WriteFaults)
    requires s.doc.history.Valid() && Save(app, s, destination, faults).1.Ok?
    ensures Save(app, s, destination, faults).0.doc.info.permissions == s.doc.info.permissions
  {
    if destination.Some? || s.doc.history.Unsaved() { SavedFile(app, s, destination, faults, Form); }
    hide Written, LiveWorker, Settle, W.Save;
  }

  lemma SameFileSays(s: State, t: State)
    requires SameFile(s, t)
    ensures t.doc.info.permissions == s.doc.info.permissions
  {
  }

  /** What the author allows is told for good. */
  lemma WorkSaysTheSame(app: App, s: State, command: Command)
    requires s.doc.history.Valid() && s.doc.things.Valid() && !command.FileChanges?
    requires s.doc.things.Names(s.doc.history.edits)
    ensures Work(app, s, command).0.doc.info.permissions == s.doc.info.permissions
  {
    hide *;
    if Work(app, s, command).1.Err? {
      WorkFails(app, s, command);
      FailureAllowed(s, Work(app, s, command).0);
    } else if command.DoSave? {
      SaveIsWork(app, s, command.destination, command.faults);
      SaveSaysTheSame(app, s, command.destination, command.faults);
    } else if command.DoSetSensitive? {
      MarkIsWork(app, s, command.sensitive, command.drawn, command.key, command.problems);
      MarkSaysTheSame(app, s, command.sensitive, command.drawn, command.key, command.problems);
    } else {
      WorkFile(app, s, command);
      SameFileSays(s, Work(app, s, command).0);
    }
  }

  lemma WorkAllowed(app: App, s: State, origin: Origin, command: Command)
    requires Inv(app, s, origin) && AsAllowed(s.doc) && !command.FileChanges?
    ensures s.doc.history.Valid() && s.doc.things.Valid()
    ensures AllAllowed(s.doc.info.permissions, Work(app, s, command).0.doc.history.edits)
  {
    ValidOfInv(app, s, origin);
    if Work(app, s, command).1.Err? {
      WorkFails(app, s, command);
      FailureAllowed(s, Work(app, s, command).0);
    } else {
      DoneAllowed(app, s, origin, command);
    }
    hide Inv, Work;
  }

  lemma DoneAllowed(app: App, s: State, origin: Origin, command: Command)
    requires Inv(app, s, origin) && AsAllowed(s.doc) && !command.FileChanges?
    requires s.doc.history.Valid() && s.doc.things.Valid() && Work(app, s, command).1.Ok?
    ensures AllAllowed(s.doc.info.permissions, Work(app, s, command).0.doc.history.edits)
  {
    hide Inv, ApplyEdit, Undo, Redo, Recover, Save, SetSensitive, AddPicture, AddModel, AddSource, Read, Discard, AllAllowed;
    match command
    case DoApply(edit) =>
      ApplyDoes(app, s, edit);
      PagesAreValid(app, s, origin);
      AcceptedIsAllowed(app, s, edit);
      PushAllowed(s.doc.info.permissions, s.doc.history, edit);
    case DoUndo(password) => UndoDoes(app, s, password);
    case DoRedo => RedoDoes(app, s);
    case DoRecover =>
      RecoverDoes(app, s);
      RecoveredAreAllowed(app, s, origin);
      PushAllAllowed(s.doc.info.permissions, s.doc.history, Left(s).edits);
    case DoSetSensitive(sensitive, drawn, key, problems) => MarkDoes(app, s, sensitive, drawn, key, problems);
    case DoSave(destination, faults) =>
      SaveDoes(app, s, destination, faults);
      NoneAllowed(s.doc.info.permissions);
    case DoDiscard => DiscardDoes(s);
    case DoAddPicture(picture) => AddPictureDoes(app, s, picture);
    case DoAddModel(model, room) => AddModelDoes(app, s, model, room);
    case DoAddSource(bytes, boxes, space) => AddSourceDoes(app, s, bytes, boxes, space);
    case DoRead => ReadOnlyHost(app, s); SameHasThings(s, Read(app, s).0);
  }

  lemma NoneAllowed(allowed: Permissions)
    ensures AllAllowed(allowed, NOTHING.edits)
  {
  }

  /** No step of any kind puts a forbidden edit among a document's edits, or tells of another author's will. */
  lemma NextAllowed(app: App, s: State, origin: Origin, command: Command)
    requires Inv(app, s, origin) && AsAllowed(s.doc)
    ensures s.doc.history.Valid() && s.doc.things.Valid()
    ensures var t := Step(app, s, command).0;
      AsAllowed(t.doc) && t.doc.info.permissions == s.doc.info.permissions
  {
    hide *;
    ValidOfInv(app, s, origin);
    if command.FileChanges? {
      OthersChangeNoDoc(app, s, command);
    } else {
      StepLeaves(app, s, command);
      if s.inTab {
        WorkAllowed(app, s, origin, command);
        WorkSaysTheSame(app, s, command);
        AsAllowedIs(Work(app, s, command).0.doc);
      }
    }
    AsAllowedIs(Step(app, s, command).0.doc);
  }

  lemma AsAllowedIs(doc: Document)
    ensures AsAllowed(doc) <==> AllAllowed(doc.info.permissions, doc.history.edits)
  {
    hide AllAllowed;
  }

  lemma OthersChangeNoDoc(app: App, s: State, command: Command)
    requires s.doc.history.Valid() && s.doc.things.Valid() && command.FileChanges?
    ensures Step(app, s, command).0.doc == s.doc
  {
  }

  lemma {:induction false} RunAllowed(app: App, states: seq<State>, commands: seq<Command>, origin: Origin, n: nat)
    requires AppOk(app) && IsRun(app, states, commands) && Inv(app, states[0], origin) && AsAllowed(states[0].doc)
    requires n <= |commands|
    ensures AsAllowed(states[n].doc) && states[n].doc.info.permissions == states[0].doc.info.permissions
    decreases n
  {
    if n > 0 {
      RunAllowed(app, states, commands, origin, n - 1);
      assert Next(app, states[n - 1], commands[n - 1], states[n]);
      hide AppOk, Inv, AsAllowed, Step;
      InvAt(app, states, commands, origin, n - 1);
      NextAllowed(app, states[n - 1], OriginAt(states, commands, origin, n - 1), commands[n - 1]);
    }
  }

  lemma OpenedAllowed(app: App, disk: Disk, folder: J.Folder, nextId: nat, luck: nat, path: Path,
    password: Option<W.Password>, released: Option<J.JournalId>)
    requires OpenFile(app, disk, folder, nextId, luck, path, password, released).Ok?
    ensures path in disk.files
    ensures var s := OpenFile(app, disk, folder, nextId, luck, path, password, released).value;
      AsAllowed(s.doc) && s.doc.info.permissions == app.engine.permissions(disk.files[path].content)
  {
    OfferedExactlyWhen(app, disk, folder, nextId, luck, path, password, released);
    var s := Opens(app, disk, folder, nextId, luck, path, password, released);
    RecoveredFile(app, s, released);
    var t := OpenFile(app, disk, folder, nextId, luck, path, password, released).value;
    var file := disk.files[path];
    if t.doc.history != NOTHING {
      var edits := folder.stored[released.value].body.edits;
      AcceptedAreAllowed(edits, |app.engine.pages(file.content)|, app.engine.permissions(file.content), NoSources);
      PushAllAllowed(app.engine.permissions(file.content), NOTHING, edits);
    }
    hide OpenFile, RecoverOnOpen, AcceptsAll, Needed, Gives, J.Readable;
  }

  /**
   * From the opening of any file on, whatever is done and however the worker answers: what is told of
   * the author's will is the file's, and none of the edits the document ever has is forbidden by it.
   */
  lemma OpenedIsAllowed(app: App, disk: Disk, folder: J.Folder, nextId: nat, luck: nat, path: Path,
    password: Option<W.Password>, released: Option<J.JournalId>, states: seq<State>, commands: seq<Command>, n: nat)
    requires AppOk(app) && StampsOk(disk) && IsRun(app, states, commands) && n <= |commands|
    requires OpenFile(app, disk, folder, nextId, luck, path, password, released) == Ok(states[0])
    ensures path in disk.files && n < |states|
    ensures var doc := states[n].doc;
      && doc.info.permissions == app.engine.permissions(disk.files[path].content)
      && forall i :: 0 <= i < |doc.history.edits| ==> Gives(doc.info.permissions, Needed(doc.history.edits[i]))
  {
    OpenFileKeeps(app, disk, folder, nextId, luck, path, password, released);
    OpenedAllowed(app, disk, folder, nextId, luck, path, password, released);
    RunAllowed(app, states, commands, Origin(disk.files[path].content, true), n);
    hide AppOk, Inv, OpenFile, StampsOk, Needed, Gives;
  }
}
