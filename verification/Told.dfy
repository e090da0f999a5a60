/**
 * The form and the outline the page is told of (src-tauri/src/documents.rs:358-382, 871-872,
 * 3319-3331). The main process follows two edits: flattening ends a form, a bookmark added makes an
 * outline. What it does not follow may take the last field or the last bookmark away.
 */
module Told {
  import opened Basics
  import opened Edits
  import opened Histories
  import opened Stores
  import opened Sessions
  import opened Invariant
  import opened SessionProofs
  import opened SavingProofs
  import opened RecoveryProofs
  import opened Consequences
  import opened Restart
  import opened ComingBack
  import opened Reopening
  import W = Worker
  import J = Journals

  /** What a document may have, and the page is told whether it has it. */
  datatype Part = Form | Outline

  predicate Has(engine: W.Engine, part: Part, content: Content)
  {
    match part case Form => engine.hasForm(content) case Outline => engine.hasOutline(content)
  }

  /** What the document takes its file to have. */
  predicate InFile(doc: Document, part: Part)
  {
    match part case Form => doc.formInFile case Outline => doc.outlineInFile
  }

  predicate IsTold(doc: Document, part: Part)
  {
    match part case Form => doc.info.hasForm case Outline => doc.info.hasOutline
  }

  // ----- what edits do

  predicate Makes(part: Part, edit: Edit) { part.Outline? && edit.AddBookmark? }

  predicate Ends(part: Part, edit: Edit) { part.Form? && edit.FlattenForm? }

  /** What may take the last of it: fields go with their pages and with what is redacted over them. */
  predicate MayTake(part: Part, edit: Edit)
  {
    match part
    case Form => edit.DeletePages? || edit.ApplyRedactions?
    case Outline => edit.ChangeBookmark? && edit.change.Delete?
  }

  /** The worker's edits and the mark do to it what they are for, and no others do anything to it. */
  ghost predicate PartForeseen(engine: W.Engine, part: Part)
  {
    && (forall things: Things, c: Content, edit: Edit {:trigger W.Made(engine, things, c, edit)} ::
          W.Made(engine, things, c, edit).Some? ==>
            var had, has := Has(engine, part, c), Has(engine, part, W.Made(engine, things, c, edit).value);
            if Makes(part, edit) then has
            else if Ends(part, edit) then !has
            else if MayTake(part, edit) then has ==> had
            else has == had)
    && (forall c: Content, id: Option<nat> :: Has(engine, part, engine.mark(c, id)) == Has(engine, part, c))
  }

  /** What is told of a file that has it or not, once `applied` were made. */
  predicate ToldOf(part: Part, inFile: bool, applied: seq<Edit>)
  {
    match part case Form => inFile && !Flattened(applied) case Outline => inFile || Bookmarked(applied)
  }

  /** An edit took the last of it, and since then it was neither made again nor ended. */
  predicate LastTaken(engine: W.Engine, part: Part, things: Things, base: Content, edits: seq<Edit>)
    requires W.Replayed(engine, things, base, edits).Some?
    decreases |edits|
  {
    if edits == [] then false
    else
      var k := |edits| - 1;
      var before := W.Replayed(engine, things, base, edits[..k]).value;
      if MayTake(part, edits[k]) && Has(engine, part, before)
      then !Has(engine, part, W.Replayed(engine, things, base, edits).value)
      else !Makes(part, edits[k]) && !Ends(part, edits[k]) && LastTaken(engine, part, things, base, edits[..k])
  }

  lemma ToldOfMore(part: Part, inFile: bool, edits: seq<Edit>)
    requires edits != []
    ensures var k := |edits| - 1;
      ToldOf(part, inFile, edits)
      == if Makes(part, edits[k]) then true else if Ends(part, edits[k]) then false else ToldOf(part, inFile, edits[..k])
  {
    var k := |edits| - 1;
    assert forall i :: 0 <= i < k ==> edits[..k][i] == edits[i];
    if Bookmarked(edits[..k]) {
      var i :| 0 <= i < k && edits[..k][i].AddBookmark?;
      assert edits[i].AddBookmark?;
    }
    if Flattened(edits[..k]) {
      var i :| 0 <= i < k && edits[..k][i].FlattenForm?;
      assert edits[i].FlattenForm?;
    }
  }

  /** It is there exactly when it would be told, from what the base has, and the last was not taken. */
  lemma {:induction false} PartAfter(engine: W.Engine, part: Part, things: Things, base: Content, edits: seq<Edit>)
    requires PartForeseen(engine, part) && W.Replayed(engine, things, base, edits).Some?
    ensures var has := Has(engine, part, W.Replayed(engine, things, base, edits).value);
      && (has <==> ToldOf(part, Has(engine, part, base), edits) && !LastTaken(engine, part, things, base, edits))
      && (LastTaken(engine, part, things, base, edits) ==> ToldOf(part, Has(engine, part, base), edits))
    decreases |edits|
  {
    if edits != [] {
      var k := |edits| - 1;
      PartAfter(engine, part, things, base, edits[..k]);
      ToldOfMore(part, Has(engine, part, base), edits);
      var before := W.Replayed(engine, things, base, edits[..k]).value;
      assert W.Made(engine, things, before, edits[k]) == W.Replayed(engine, things, base, edits);
      hide ToldOf;
    } else {
      assert !Bookmarked([]) && !Flattened([]);
    }
  }

  // ----- what is told

  /** The document as it is has it. */
  predicate IsThere(app: App, s: State, origin: Origin, part: Part)
  {
    && s.doc.history.Valid() && Meant(app, s.doc, origin.base).Some?
    && Has(app.engine, part, Meant(app, s.doc, origin.base).value)
  }

  /** What the document takes its file to have is what it was read with. */
  predicate FileIsRight(app: App, s: State, origin: Origin, part: Part)
  {
    InFile(s.doc, part) == Has(app.engine, part, origin.base)
  }

  /** An applied edit took the last of it. */
  predicate IsTaken(app: App, s: State, origin: Origin, part: Part)
  {
    && s.doc.history.Valid() && Meant(app, s.doc, origin.base).Some?
    && LastTaken(app.engine, part, s.doc.things, origin.base, s.doc.history.Applied())
  }

  lemma ToldOfInv(app: App, s: State, origin: Origin, part: Part)
    requires Inv(app, s, origin)
    ensures s.doc.history.Valid() && Meant(app, s.doc, origin.base).Some?
    ensures IsTold(s.doc, part) == ToldOf(part, InFile(s.doc, part), s.doc.history.Applied())
  {
    HistoryOfInv(app, s, origin);
    FlagsOfInv(app, s, origin);
    hide Inv, Flattened, Bookmarked;
  }

  /**
   * What is told is so exactly when no applied edit took the last of it with none made since, while
   * the file is taken for what it is; and what is there is always told.
   */
  lemma ToldIsThere(app: App, s: State, origin: Origin, part: Part)
    requires Inv(app, s, origin) && PartForeseen(app.engine, part) && FileIsRight(app, s, origin, part)
    ensures s.doc.history.Valid() && Meant(app, s.doc, origin.base).Some?
    ensures IsThere(app, s, origin, part) ==> IsTold(s.doc, part)
    ensures IsTold(s.doc, part) == IsThere(app, s, origin, part) <==> !IsTaken(app, s, origin, part)
  {
    ToldOfInv(app, s, origin, part);
    PartAfter(app.engine, part, s.doc.things, origin.base, s.doc.history.Applied());
    hide Inv, LastTaken, W.Replayed, ToldOf, PartForeseen;
  }

  // ----- what a save makes of it

  /** A save takes what is told for what the file has: that is right exactly if it was so. */
  lemma OnceSaved(app: App, s: State, origin: Origin, destination: Option<Place>, faults: WriteFaults, part: Part)
    requires AppOk(app) && Inv(app, s, origin) && Steady(s, true)
    requires s.doc.history.Valid() && Save(app, s, destination, faults).0.disk != s.disk
    ensures Meant(app, s.doc, origin.base).Some?
    ensures var t, target := Save(app, s, destination, faults).0, TargetOf(s.doc, destination);
      && t.doc.path == target.path && target.path in t.disk.files
      && InFile(t.doc, part) == IsTold(s.doc, part)
      && Has(app.engine, part, t.disk.files[target.path].content) == IsThere(app, s, origin, part)
  {
    hide *;
    SavedWhen(app, s, destination, faults);
    SaveWrites(app, s, origin, destination, faults);
    SavedFile(app, s, destination, faults, part);
    SteadyGoesBy(app, s, origin);
    ToldOfInv(app, s, origin, part);
    WhatWasMeant(app, s, Save(app, s, destination, faults).0, origin, TargetOf(s.doc, destination), part);
  }

  lemma WhatWasMeant(app: App, s: State, t: State, origin: Origin, target: Place, part: Part)
    requires s.doc.history.Valid() && Meant(app, s.doc, origin.base).Some?
    requires t.disk.files == s.disk.files[target.path := File(Meant(app, s.doc, origin.base).value, s.disk.clock, false)]
    ensures target.path in t.disk.files
    ensures Has(app.engine, part, t.disk.files[target.path].content) == IsThere(app, s, origin, part)
  {
    hide Has, Meant;
  }

  lemma SavedWhen(app: App, s: State, destination: Option<Place>, faults: WriteFaults)
    requires s.doc.history.Valid() && Save(app, s, destination, faults).0.disk != s.disk
    ensures Save(app, s, destination, faults).1.Ok? && (destination.Some? || s.doc.history.Unsaved())
  {
    if Save(app, s, destination, faults).1.Err? { SaveOnlyHost(app, s, destination, faults); }
    hide Written, LiveWorker, Settle, W.Save;
  }

  /** What its worker would be opened from again is what it was read from. */
  lemma SteadyGoesBy(app: App, s: State, origin: Origin)
    requires Inv(app, s, origin) && Steady(s, true)
    ensures s.doc.history.Valid() && OriginAfter(app, s, origin).base == origin.base
    ensures s.doc.lost ==> s.doc.path in s.disk.files && s.disk.files[s.doc.path].content == origin.base
  {
    hide LiveWorker, HistoryOk, PagesOk, WorkerOk, FlagsOk, KnownOk, JournalOk;
  }

  lemma SavedFile(app: App, s: State, destination: Option<Place>, faults: WriteFaults, part: Part)
    requires s.doc.history.Valid()
    requires Save(app, s, destination, faults).1.Ok? && (destination.Some? || s.doc.history.Unsaved())
    ensures InFile(Save(app, s, destination, faults).0.doc, part) == IsTold(s.doc, part)
    ensures Save(app, s, destination, faults).0.doc.info.permissions == s.doc.info.permissions
  {
    LiveIsSame(app, s);
    var live := LiveWorker(app, s);
    var answered := W.Save(app.engine, live.0.host, live.1.value);
    SettledIsSame(live.0, answered);
    var r := Settle(live.0, answered);
    WrittenFile(app, r.0, TargetOf(s.doc, destination), r.1.value, part);
    hide Written, LiveWorker, Settle, W.Save;
  }

  lemma WrittenFile(app: App, s: State, target: Place, content: Content, part: Part)
    ensures InFile(Written(app, s, target, content).doc, part) == IsTold(s.doc, part)
    ensures Written(app, s, target, content).doc.info.permissions == s.doc.info.permissions
  {
    JournalFrame(app, WrittenDoc(s, target, content));
    hide KeepJournal, Flattened, Bookmarked;
  }

  // ----- what the other commands make of it

  /** The files, what the document takes its own to have, and what its author allows are as they were. */
  predicate SameFile(s: State, t: State)
  {
    && t.disk == s.disk && t.doc.formInFile == s.doc.formInFile && t.doc.outlineInFile == s.doc.outlineInFile
    && t.doc.info.permissions == s.doc.info.permissions
  }

  lemma SameFileToo(s: State, t: State)
    requires SameButWorker(s, t)
    ensures SameFile(s, t) && SameFile(s, MarkLost(t)) && SameFile(s, UnexpectedOn(t))
  {
  }

  lemma ChangedFile(app: App, s: State, t: State, history: Timeline, pages: seq<W.PageSize>)
    requires history.Valid() && SameButWorker(s, t)
    ensures SameFile(s, Changed(app, t, history, pages))
  {
    JournalFrame(app, t.(doc := ShowHistory(t.doc.(history := history, info := t.doc.info.(pages := pages)))));
    hide KeepJournal, Flattened, Bookmarked;
  }

  lemma ApplyFile(app: App, s: State, edit: Edit)
    requires s.doc.history.Valid()
    ensures SameFile(s, ApplyEdit(app, s, edit).0)
  {
    if Refusal(app, s, edit).None? {
      var asked := WorkerEditOf(s.doc.things, edit).value;
      OnlyHost(app, s, asked);
      var r := EditInWorker(app, s, asked);
      SameFileToo(s, r.0);
      if r.1.Ok? { ChangedFile(app, s, r.0, s.doc.history.Push(edit), r.1.value); }
    }
    hide EditInWorker, Changed, Refusal, PagesAfter;
  }

  lemma UndoFile(app: App, s: State, password: Option<W.Password>)
    requires s.doc.history.Valid()
    ensures SameFile(s, Undo(app, s, password).0)
  {
    if s.doc.history.applied > 0 {
      var asked := W.WorkerEditsOf(s.doc.things, s.doc.history.Undo().Applied());
      if asked.Some? {
        var given := if s.doc.guarded then password else Option.None;
        RevertSame(app, s, asked.value, given);
        var r := RevertInWorker(app, s, asked.value, given);
        SameFileToo(s, r.0);
        if r.1.Ok? { ChangedFile(app, s, r.0, s.doc.history.Undo(), r.1.value); }
      }
    }
    hide RevertInWorker, Changed, W.WorkerEditsOf;
  }

  lemma RedoFile(app: App, s: State)
    requires s.doc.history.Valid()
    ensures SameFile(s, Redo(app, s).0)
  {
    if s.doc.history.CanRedo() {
      var asked := WorkerEditOf(s.doc.things, s.doc.history.edits[s.doc.history.applied]);
      if asked.Some? {
        OnlyHost(app, s, asked.value);
        var r := EditInWorker(app, s, asked.value);
        SameFileToo(s, r.0);
        if r.1.Ok? { ChangedFile(app, s, r.0, s.doc.history.Redo(), r.1.value); }
      }
    }
    hide EditInWorker, Changed;
  }

  lemma ReplayFile(app: App, s: State, edits: seq<Edit>)
    requires s.doc.history.Valid()
    ensures SameFile(s, Replay(app, s, edits).0)
  {
    ReplayEditsOnlyHost(app, s, edits, s.doc.info.pages);
    var made := ReplayEdits(app, s, edits, s.doc.info.pages);
    SameFileToo(s, made.0);
    hide ReplayEdits, PagesAfterAll, Flattened, Bookmarked;
  }

  lemma RecoverFile(app: App, s: State)
    requires s.doc.history.Valid() && s.doc.things.Valid()
    ensures SameFile(s, Recover(app, s).0)
  {
    if MayRecover(s) {
      var restored := Restoring(s, Left(s));
      ReplayFile(app, restored, Left(s).edits);
      ReplayKeepsTheRest(app, restored, Left(s).edits);
      JournalFrame(app, TakenOver(Replay(app, restored, Left(s).edits).0));
      hide Replay, KeepJournal;
    }
  }

  lemma DiscardFile(s: State)
    ensures SameFile(s, Discard(s).0)
  {
    hide J.Remove;
  }

  lemma PictureFile(app: App, s: State, picture: Picture)
    requires s.doc.history.Valid() && s.doc.things.Valid()
    ensures SameFile(s, AddPicture(app, s, picture).0)
  {
    hide W.Ask;
  }

  lemma ModelFile(app: App, s: State, model: Model, room: (map<nat, Model>, Model) -> bool)
    requires s.doc.history.Valid() && s.doc.things.Valid()
    ensures SameFile(s, AddModel(app, s, model, room).0)
  {
    hide W.Ask;
  }

  lemma SourceFile(app: App, s: State, bytes: Content, boxes: nat,
    space: (map<nat, Source>, Source) -> bool)
    requires s.doc.history.Valid() && s.doc.things.Valid()
    ensures SameFile(s, AddSource(app, s, bytes, boxes, space).0)
  {
    AddSourceIs(app, s, bytes, boxes, space);
    hide AddSource, AskedForSource;
  }

  /** Only a save and the mark write the document's file or say what it has. */
  lemma WorkFile(app: App, s: State, command: Command)
    requires s.doc.history.Valid() && s.doc.things.Valid() && !command.FileChanges?
    requires !command.DoSave? && !command.DoSetSensitive?
    ensures SameFile(s, Work(app, s, command).0)
  {
    hide SameFile, ApplyEdit, Undo, Redo, Recover, Read, Discard, AddPicture, AddModel, AddSource;
    match command
    case DoApply(edit) => ApplyFile(app, s, edit);
    case DoUndo(password) => UndoFile(app, s, password);
    case DoRedo => RedoFile(app, s);
    case DoRecover => RecoverFile(app, s);
    case DoRead => ReadOnlyHost(app, s); SameFileToo(s, Read(app, s).0);
    case DoDiscard => DiscardFile(s);
    case DoAddPicture(picture) => PictureFile(app, s, picture);
    case DoAddModel(model, room) => ModelFile(app, s, model, room);
    case DoAddSource(bytes, boxes, space) => SourceFile(app, s, bytes, boxes, space);
  }

  lemma UnwrittenFile(app: App, s: State, destination: Option<Place>, faults: WriteFaults)
    requires s.doc.history.Valid() && Save(app, s, destination, faults).0.disk == s.disk
    ensures SameFile(s, Save(app, s, destination, faults).0)
  {
    SaveLeaves(app, s, destination, faults);
    LiveIsSame(app, s);
    var live := LiveWorker(app, s);
    SameFileToo(s, live.0);
    var answered := W.Save(app.engine, live.0.host, if live.1.Ok? then live.1.value else 0);
    SettledIsSame(live.0, answered);
    var r := Settle(live.0, answered);
    SameFileToo(live.0, r.0);
    if r.1.Ok? { WrittenShape(app, r.0, TargetOf(s.doc, destination), r.1.value); }
    hide Save, Written, LiveWorker, Settle, W.Save;
  }

  /** Marking leaves what the file is taken to have, and writes the bytes read with the mark, if any. */
  lemma MarkFile(app: App, s: State, origin: Origin, sensitive: bool, drawn: nat, key: Option<W.Password>, faults: WriteFaults)
    requires Inv(app, s, origin) && Steady(s, true)
    ensures s.doc.history.Valid()
    ensures var t := SetSensitive(app, s, sensitive, drawn, key, faults).0;
      && t.doc.formInFile == s.doc.formInFile && t.doc.outlineInFile == s.doc.outlineInFile
      && t.doc.info.permissions == s.doc.info.permissions
      && (t.disk != s.disk ==>
            && t.doc.path in t.disk.files
            && t.disk.files[t.doc.path].content == app.engine.mark(origin.base, if sensitive then Some(drawn) else Option.None))
  {
    hide *;
    ValidOfInv(app, s, origin);
    SteadyGoesBy(app, s, origin);
    LiveWorkerKeeps(app, s, origin);
    LiveIsSame(app, s);
    MarkLeaves(app, s, sensitive, drawn, key, faults);
    var live := LiveWorker(app, s);
    SameFileIs(s, live.0);
    var identifier := if sensitive then Some(drawn) else Option.None;
    var answered := W.WriteIdentifier(app.engine, live.0.host, if live.1.Ok? then live.1.value else 0, identifier);
    SettledIsSame(live.0, answered);
    var r := Settle(live.0, answered);
    SameFileIs(live.0, r.0);
    if live.1.Ok? && r.1.Ok? && r.0.doc.history.Valid() {
      CopyIsMeant(app, live.0, OriginAfter(app, s, origin));
      MarkSettles(app, live.0, identifier);
      CopyOriginal(live.0, Meant(app, live.0.doc, origin.base).value, origin.base);
      MarkedFile(app, r.0, identifier, key, r.1.value);
    }
  }

  lemma CopyOriginal(s: State, now: Content, base: Content)
    requires s.doc.workerDoc in s.host.copies && s.host.copies[s.doc.workerDoc] == W.Copy(now, base)
    ensures s.host.copies[s.doc.workerDoc].original == base
  {
  }

  lemma SameFileIs(s: State, t: State)
    requires SameButWorker(s, t)
    ensures t.disk == s.disk && t.doc.formInFile == s.doc.formInFile && t.doc.outlineInFile == s.doc.outlineInFile
    ensures t.doc.path == s.doc.path && t.doc.info.permissions == s.doc.info.permissions
  {
  }

  lemma MarkedFile(app: App, s: State, identifier: Option<nat>, key: Option<W.Password>, content: Content)
    requires s.doc.history.Valid()
    ensures var t := Marked(app, s, identifier, key, content);
      && t.doc.formInFile == s.doc.formInFile && t.doc.outlineInFile == s.doc.outlineInFile
      && t.doc.info.permissions == s.doc.info.permissions
      && t.doc.path in t.disk.files && t.disk.files[t.doc.path].content == content
  {
    MarkedShape(app, s, identifier, key, content);
    RevertSame(app, Rebased(app, MarkedDoc(s, identifier, content), content), [], key);
    hide RevertInWorker;
  }

  // ----- every command, every run

  /**
   * After a save that wrote, the file is taken for what it is exactly if what was told was so; after
   * anything else, if it was before. Nobody else changed the file while the worker was lost.
   */
  lemma NextIsRight(app: App, s: State, origin: Origin, command: Command, part: Part)
    requires AppOk(app) && Inv(app, s, origin) && PartForeseen(app.engine, part) && Steady(s, true)
    ensures s.doc.history.Valid() && s.doc.things.Valid()
    ensures var t := Step(app, s, command).0;
      FileIsRight(app, t, OriginNext(s, command, t, origin), part)
      <==> if command.DoSave? && t.disk != s.disk then IsTold(s.doc, part) == IsThere(app, s, origin, part)
           else FileIsRight(app, s, origin, part)
  {
    hide *;
    ValidOfInv(app, s, origin);
    SteadyGoesBy(app, s, origin);
    var t := Step(app, s, command).0;
    if command.FileChanges? {
      ChangedByOthers(app, s, command, origin, part);
    } else if !s.inTab {
      StepLeaves(app, s, command);
      SameFileAs(s);
      RightAsBefore(app, s, s, command, origin, part);
    } else {
      StepLeaves(app, s, command);
      var u := Work(app, s, command).0;
      WorkIsRight(app, s, u, origin, command, part);
      TabIsNothing(app, s, u, t, command, origin, part);
    }
  }

  lemma ChangedByOthers(app: App, s: State, command: Command, origin: Origin, part: Part)
    requires s.doc.history.Valid() && s.doc.things.Valid() && command.FileChanges?
    ensures var t := Step(app, s, command).0;
      FileIsRight(app, t, OriginNext(s, command, t, origin), part) <==> FileIsRight(app, s, origin, part)
  {
  }

  lemma SameFileAs(s: State)
    ensures SameFile(s, s)
  {
  }

  lemma TabIsNothing(app: App, s: State, u: State, t: State, command: Command, origin: Origin, part: Part)
    requires t == u.(inTab := t.inTab)
    ensures t.disk == u.disk
    ensures FileIsRight(app, t, OriginNext(s, command, t, origin), part)
      <==> FileIsRight(app, u, OriginNext(s, command, u, origin), part)
  {
  }

  /** Where the file is as it was, so is what the document goes by. */
  lemma RightAsBefore(app: App, s: State, t: State, command: Command, origin: Origin, part: Part)
    requires SameFile(s, t) && !command.FileChanges?
    requires s.doc.lost ==> s.doc.path in s.disk.files && s.disk.files[s.doc.path].content == origin.base
    ensures FileIsRight(app, t, OriginNext(s, command, t, origin), part) <==> FileIsRight(app, s, origin, part)
  {
  }

  /** What was written is what the document goes by. */
  lemma RightAsWritten(app: App, s: State, t: State, command: Command, origin: Origin, part: Part)
    requires t.disk != s.disk && t.doc.path in t.disk.files && !command.FileChanges?
    ensures FileIsRight(app, t, OriginNext(s, command, t, origin), part)
      <==> InFile(t.doc, part) == Has(app.engine, part, t.disk.files[t.doc.path].content)
  {
    hide Has, InFile;
  }

  lemma MarkIsNoPart(app: App, content: Content, id: Option<nat>, part: Part)
    requires PartForeseen(app.engine, part)
    ensures Has(app.engine, part, app.engine.mark(content, id)) == Has(app.engine, part, content)
  {
    hide Has;
  }

  lemma WorkIsRight(app: App, s: State, t: State, origin: Origin, command: Command, part: Part)
    requires AppOk(app) && Inv(app, s, origin) && PartForeseen(app.engine, part) && Steady(s, true)
    requires s.doc.history.Valid() && s.doc.things.Valid() && !command.FileChanges? && t == Work(app, s, command).0
    ensures FileIsRight(app, t, OriginNext(s, command, t, origin), part)
      <==> if command.DoSave? && t.disk != s.disk then IsTold(s.doc, part) == IsThere(app, s, origin, part)
           else FileIsRight(app, s, origin, part)
  {
    hide *;
    SteadyGoesBy(app, s, origin);
    match command {
      case DoSave(destination, faults) =>
        SaveIsWork(app, s, destination, faults);
        if t.disk == s.disk {
          UnwrittenFile(app, s, destination, faults);
          RightAsBefore(app, s, t, command, origin, part);
        } else {
          OnceSaved(app, s, origin, destination, faults, part);
          RightAsWritten(app, s, t, command, origin, part);
        }
      case DoSetSensitive(sensitive, drawn, key, problems) =>
        MarkIsWork(app, s, sensitive, drawn, key, problems);
        MarkFile(app, s, origin, sensitive, drawn, key, problems);
        SameParts(s, t, part);
        if t.disk == s.disk {
          RightAsBefore(app, s, t, command, origin, part);
        } else {
          MarkIsNoPart(app, origin.base, if sensitive then Some(drawn) else Option.None, part);
          RightAsWritten(app, s, t, command, origin, part);
          RightIs(app, s, origin, part);
        }
      case _ =>
        WorkFile(app, s, command);
        RightAsBefore(app, s, t, command, origin, part);
    }
  }

  lemma RightIs(app: App, s: State, origin: Origin, part: Part)
    ensures FileIsRight(app, s, origin, part) <==> InFile(s.doc, part) == Has(app.engine, part, origin.base)
  {
    hide Has, InFile;
  }

  lemma SameParts(s: State, t: State, part: Part)
    requires t.doc.formInFile == s.doc.formInFile && t.doc.outlineInFile == s.doc.outlineInFile
    requires t.doc.info.permissions == s.doc.info.permissions
    ensures InFile(t.doc, part) == InFile(s.doc, part) && (t.disk == s.disk ==> SameFile(s, t))
  {
  }

  lemma SaveIsWork(app: App, s: State, destination: Option<Place>, faults: WriteFaults)
    requires s.doc.history.Valid() && s.doc.things.Valid()
    ensures Work(app, s, DoSave(destination, faults)) == Save(app, s, destination, faults)
  {
    hide Save;
  }

  lemma MarkIsWork(app: App, s: State, sensitive: bool, drawn: nat, key: Option<W.Password>, faults: WriteFaults)
    requires s.doc.history.Valid() && s.doc.things.Valid()
    ensures Work(app, s, DoSetSensitive(sensitive, drawn, key, faults)) == SetSensitive(app, s, sensitive, drawn, key, faults)
  {
    hide SetSensitive;
  }

  /** A save writes a document of which an edit took the last of it. */
  predicate SavesTaken(app: App, s: State, command: Command, t: State, origin: Origin, part: Part)
  {
    command.DoSave? && t.disk != s.disk && IsTaken(app, s, origin, part)
  }

  /** A run that began with the file taken for what it is; its worker only ever read what it was read from. */
  ghost predicate Begun(app: App, states: seq<State>, commands: seq<Command>, origin: Origin, part: Part)
  {
    && AppOk(app) && PartForeseen(app.engine, part)
    && IsRun(app, states, commands) && Undisturbed(states[..|commands|])
    && Inv(app, states[0], origin) && FileIsRight(app, states[0], origin, part)
  }

  /** Where the file is taken for what it is at a state of a run, it is so at the next iff no such save is made. */
  lemma RightNext(app: App, states: seq<State>, commands: seq<Command>, origin: Origin, part: Part, i: nat)
    requires Begun(app, states, commands, origin, part) && i < |commands|
    requires FileIsRight(app, states[i], OriginAt(states, commands, origin, i), part)
    ensures FileIsRight(app, states[i + 1], OriginAt(states, commands, origin, i + 1), part)
      <==> !SavesTaken(app, states[i], commands[i], states[i + 1], OriginAt(states, commands, origin, i), part)
  {
    var at := OriginAt(states, commands, origin, i);
    assert Next(app, states[i], commands[i], states[i + 1]);
    assert states[..|commands|][i] == states[i];
    assert Steady(states[i], true);
    hide AppOk, Inv, PartForeseen, FileIsRight, IsTaken, IsThere, IsTold, Step, OriginNext, OriginAt;
    OriginAtNext(states, commands, origin, i);
    InvAt(app, states, commands, origin, i);
    NextIsRight(app, states[i], at, commands[i], part);
    ToldIsThere(app, states[i], at, part);
  }

  lemma {:induction false} RightWhile(app: App, states: seq<State>, commands: seq<Command>, origin: Origin, part: Part, n: nat)
    requires Begun(app, states, commands, origin, part) && n <= |commands|
    requires forall i :: 0 <= i < n ==>
      !SavesTaken(app, states[i], commands[i], states[i + 1], OriginAt(states, commands, origin, i), part)
    ensures FileIsRight(app, states[n], OriginAt(states, commands, origin, n), part)
    decreases n
  {
    if n > 0 {
      RightWhile(app, states, commands, origin, part, n - 1);
      hide Begun, FileIsRight, SavesTaken, OriginAt;
      RightNext(app, states, commands, origin, part, n - 1);
    }
  }

  /**
   * Over every run the file is taken for what it is all the way exactly when no save writes a
   * document of which an edit took the last field, or the last bookmark.
   */
  lemma RunIsRight(app: App, states: seq<State>, commands: seq<Command>, origin: Origin, part: Part)
    requires Begun(app, states, commands, origin, part)
    ensures (forall i :: 0 <= i <= |commands| ==> FileIsRight(app, states[i], OriginAt(states, commands, origin, i), part))
      <==> (forall i :: 0 <= i < |commands| ==>
              !SavesTaken(app, states[i], commands[i], states[i + 1], OriginAt(states, commands, origin, i), part))
  {
    assert |states| == |commands| + 1;
    hide Begun, FileIsRight, SavesTaken, OriginAt;
    if forall i :: 0 <= i <= |commands| ==> FileIsRight(app, states[i], OriginAt(states, commands, origin, i), part) {
      forall i | 0 <= i < |commands|
        ensures !SavesTaken(app, states[i], commands[i], states[i + 1], OriginAt(states, commands, origin, i), part)
      {
        RightNext(app, states, commands, origin, part, i);
      }
    }
    if forall i :: 0 <= i < |commands| ==>
         !SavesTaken(app, states[i], commands[i], states[i + 1], OriginAt(states, commands, origin, i), part) {
      forall i | 0 <= i <= |commands| ensures FileIsRight(app, states[i], OriginAt(states, commands, origin, i), part) {
        RightWhile(app, states, commands, origin, part, i);
      }
    }
  }

  /** What is told at a state of a run is so. */
  predicate IsTrueAt(app: App, states: seq<State>, commands: seq<Command>, origin: Origin, part: Part, i: nat)
    requires |states| == |commands| + 1 && i <= |commands|
  {
    IsTold(states[i].doc, part) == IsThere(app, states[i], OriginAt(states, commands, origin, i), part)
  }

  predicate IsTakenAt(app: App, states: seq<State>, commands: seq<Command>, origin: Origin, part: Part, i: nat)
    requires |states| == |commands| + 1 && i <= |commands|
  {
    IsTaken(app, states[i], OriginAt(states, commands, origin, i), part)
  }

  lemma RightAndTrue(app: App, states: seq<State>, commands: seq<Command>, origin: Origin, part: Part, i: nat)
    requires Begun(app, states, commands, origin, part) && i <= |commands|
    requires FileIsRight(app, states[i], OriginAt(states, commands, origin, i), part)
    ensures IsTrueAt(app, states, commands, origin, part, i) <==> !IsTakenAt(app, states, commands, origin, part, i)
  {
    assert |states| == |commands| + 1;
    hide AppOk, Inv, PartForeseen, FileIsRight, IsTaken, IsThere, IsTold, OriginAt, IsRun, Undisturbed;
    InvAt(app, states, commands, origin, i);
    ToldIsThere(app, states[i], OriginAt(states, commands, origin, i), part);
  }

  lemma {:induction false} TrueIsRight(app: App, states: seq<State>, commands: seq<Command>, origin: Origin, part: Part, n: nat)
    requires Begun(app, states, commands, origin, part) && n <= |commands|
    requires forall i :: 0 <= i < n ==> IsTrueAt(app, states, commands, origin, part, i)
    ensures FileIsRight(app, states[n], OriginAt(states, commands, origin, n), part)
    decreases n
  {
    if n > 0 {
      TrueIsRight(app, states, commands, origin, part, n - 1);
      RightAndTrue(app, states, commands, origin, part, n - 1);
      hide Begun, FileIsRight, IsTaken, IsTrueAt, OriginAt;
      RightNext(app, states, commands, origin, part, n - 1);
    }
  }

  /** Over every run what is told is so all the way exactly when no edit that is applied ever took the last of it. */
  lemma RunIsTrue(app: App, states: seq<State>, commands: seq<Command>, origin: Origin, part: Part)
    requires Begun(app, states, commands, origin, part)
    ensures |states| == |commands| + 1
    ensures (forall i :: 0 <= i <= |commands| ==> IsTrueAt(app, states, commands, origin, part, i))
      <==> (forall i :: 0 <= i <= |commands| ==> !IsTakenAt(app, states, commands, origin, part, i))
  {
    assert |states| == |commands| + 1;
    if forall i :: 0 <= i <= |commands| ==> IsTrueAt(app, states, commands, origin, part, i) {
      forall i | 0 <= i <= |commands| ensures !IsTakenAt(app, states, commands, origin, part, i) {
        TrueIsRight(app, states, commands, origin, part, i);
        RightAndTrue(app, states, commands, origin, part, i);
      }
    }
    if forall i :: 0 <= i <= |commands| ==> !IsTakenAt(app, states, commands, origin, part, i) {
      forall i | 0 <= i <= |commands| ensures IsTrueAt(app, states, commands, origin, part, i) {
        forall k | 0 <= k < i
          ensures !SavesTaken(app, states[k], commands[k], states[k + 1], OriginAt(states, commands, origin, k), part)
        {
          assert !IsTakenAt(app, states, commands, origin, part, k);
        }
        RightWhile(app, states, commands, origin, part, i);
        RightAndTrue(app, states, commands, origin, part, i);
      }
    }
    hide Begun, FileIsRight, IsTaken, IsTrueAt, OriginAt;
  }

  /** Every file that opens is taken for what it is, whatever journal is made again on it. */
  lemma OpenedIsRight(app: App, disk: Disk, folder: J.Folder, nextId: nat, luck: nat, path: Path,
    password: Option<W.Password>, released: Option<J.JournalId>, part: Part)
    requires OpenFile(app, disk, folder, nextId, luck, path, password, released).Ok?
    ensures path in disk.files
    ensures FileIsRight(app, OpenFile(app, disk, folder, nextId, luck, path, password, released).value,
                        Origin(disk.files[path].content, true), part)
  {
    var file := disk.files[path];
    var answer := W.Open(app.engine, W.NewHost(luck), file.content, password);
    var doc := DocumentOf(app.engine, nextId, path, answer.1.value, password.Some?, file);
    var s := State(doc, answer.0, disk, folder, nextId + 1, true);
    RecoveredFile(app, s, released);
    hide RecoverOnOpen;
  }

  lemma RecoveredFile(app: App, s: State, released: Option<J.JournalId>)
    requires s.doc.history.Valid() && s.doc.things.Valid()
    ensures SameFile(s, RecoverOnOpen(app, s, released))
  {
    var looked := FindFor(app, s, released);
    var t := s.(folder := looked.0);
    if looked.1.Some? {
      var found := looked.1.value.0;
      MadeAgainFile(app, t, found);
      OfferedFile(t, found);
      OfferedFile(MadeAtOnce(app, t, found).0, found);
    }
    hide FindFor, Replay, KeepJournal, Applicable, Offer;
  }

  lemma OfferedFile(s: State, found: J.Found)
    ensures SameFile(s, Offer(s, found))
  {
    hide Applicable, Verdict;
  }

  lemma MadeAgainFile(app: App, s: State, found: J.Found)
    requires s.doc.history.Valid() && s.doc.things.Valid()
    ensures var r := MadeAtOnce(app, s, found).0;
      && r.doc.history.Valid() && SameFile(s, r) && SameFile(s, KeepJournal(app, r.(doc := r.doc.(journal := Some(found.id)))))
  {
    var restored := Keeping(s, s.doc.things.Restore(found.body.pictures, found.body.models));
    ReplayFile(app, restored, found.body.edits);
    ReplayKeepsTheRest(app, restored, found.body.edits);
    var r := Replay(app, restored, found.body.edits).0;
    JournalFrame(app, r.(doc := r.doc.(journal := Some(found.id))));
    hide Replay, KeepJournal;
  }

  /** From the opening of any file on, both hold over every run. */
  lemma OpenedIsTrue(app: App, disk: Disk, folder: J.Folder, nextId: nat, luck: nat, path: Path,
    password: Option<W.Password>, released: Option<J.JournalId>, states: seq<State>, commands: seq<Command>, part: Part)
    requires AppOk(app) && PartForeseen(app.engine, part) && StampsOk(disk) && IsRun(app, states, commands) && Undisturbed(states[..|commands|])
    requires OpenFile(app, disk, folder, nextId, luck, path, password, released) == Ok(states[0])
    ensures path in disk.files && |states| == |commands| + 1
    ensures var origin := Origin(disk.files[path].content, true);
      && ((forall i :: 0 <= i <= |commands| ==> FileIsRight(app, states[i], OriginAt(states, commands, origin, i), part))
          <==> (forall i :: 0 <= i < |commands| ==>
                  !SavesTaken(app, states[i], commands[i], states[i + 1], OriginAt(states, commands, origin, i), part)))
      && ((forall i :: 0 <= i <= |commands| ==> IsTrueAt(app, states, commands, origin, part, i))
          <==> (forall i :: 0 <= i <= |commands| ==> !IsTakenAt(app, states, commands, origin, part, i)))
  {
    OpenFileKeeps(app, disk, folder, nextId, luck, path, password, released);
    OpenedIsRight(app, disk, folder, nextId, luck, path, password, released, part);
    hide AppOk, Inv, PartForeseen, OpenFile, FileIsRight, SavesTaken, OriginAt, IsTrueAt, IsTakenAt, StampsOk;
    RunIsRight(app, states, commands, Origin(disk.files[path].content, true), part);
    RunIsTrue(app, states, commands, Origin(disk.files[path].content, true), part);
  }

  // ----- a protected document that comes back

  /** The edits alone decide what is told. */
  predicate Decided(part: Part, applied: seq<Edit>)
  {
    match part case Form => Flattened(applied) case Outline => Bookmarked(applied)
  }

  /**
   * A protected document that comes back with its edits takes its file for what it is; what is told
   * is what was told before exactly if it did so before too, or the edits alone decide it.
   */
  lemma ToldOnceBack(app: App, s: State, origin: Origin, nextId: nat, luck: nat, password: W.Password, part: Part)
    requires AppOk(app) && CanComeBack(app, s, origin) && s.doc.guarded && s.doc.lost
    requires Willing(app.engine, luck) && W.Unlocks(app.engine, origin.base, Some(password))
    requires s.doc.journal.Some? && J.Readable(app.rules, OwnJournal(s).body)
    requires JournalledOf(s.doc.history.Applied()).lost == 0
    ensures var r := OpenFile(app, s.disk, Lose(s).0, nextId, luck, s.doc.path, Some(password), s.doc.journal);
      && r.Ok? && FileIsRight(app, r.value, Origin(origin.base, true), part)
      && (IsTold(r.value.doc, part) == IsTold(s.doc, part)
          <==> FileIsRight(app, s, origin, part) || Decided(part, s.doc.history.Applied()))
  {
    ProtectedComesBack(app, s, origin, nextId, luck, password);
    hide OpenFile, Inv, W.Replayed;
    var t := OpenFile(app, s.disk, Lose(s).0, nextId, luck, s.doc.path, Some(password), s.doc.journal).value;
    ToldOfInv(app, s, origin, part);
    ToldOfInv(app, t, Origin(origin.base, true), part);
    hide Flattened, Bookmarked;
  }

  // ----- runs that end with something told that is not there

  const TWO_PAGES := [W.PageSize(600, 800), W.PageSize(600, 800)]

  /** Two pages, the only field on the second; or two pages with no form; or one page with none. */
  const FIELDS := ANY.(
    hasForm := (c: Content) => c.bytes == [1],
    pages := (c: Content) => if c.bytes == [] then ONE_PAGE else TWO_PAGES,
    apply := (c: Content, asked: WorkerEdit) =>
      if asked.edit.DeletePages? && c.bytes == [1] then Some(Content([]))
      else if asked.edit.FlattenForm? && c.bytes == [1] then Some(Content([2])) else Some(c))

  /** The outline is the first byte: bookmarks set it, deleting them clears it. */
  const BOOKS := ANY.(
    hasOutline := (c: Content) => c.bytes == [1],
    apply := (c: Content, asked: WorkerEdit) =>
      if asked.edit.AddBookmark? then Some(Content([1]))
      else if MayTake(Outline, asked.edit) then Some(Content([])) else Some(c))

  const RULES := J.Rules(_ => true, NewName)
  const DISK := Disk(map["a.pdf" := File(Content([1]), 0, false)], 1)

  lemma FieldsForeseen()
    ensures PartForeseen(FIELDS, Form)
  {
  }

  lemma BooksForeseen()
    ensures PartForeseen(BOOKS, Outline)
  {
  }

  /** A file is opened and the page with its only field deleted: the page is still told of a form. */
  lemma DeletedFieldStaysTold() returns (s: State, t: State)
    ensures s.doc.history.Valid() && s.doc.things.Valid()
    ensures var r := Step(App(FIELDS, RULES), s, DoApply(DeletePages([1]))); r.0 == t && r.1.Ok?
    ensures t.doc.info.hasForm && !t.doc.lost && t.doc.workerDoc in t.host.copies
    ensures !FIELDS.hasForm(t.host.copies[t.doc.workerDoc].now)
    ensures OpenFile(App(FIELDS, RULES), DISK, J.Folder(map[], {}), 1, 0, "a.pdf", Option.None, Option.None) == Ok(s)
    ensures PartForeseen(FIELDS, Form)
  {
    FieldsForeseen();
    s := OpenedWith(FIELDS, TWO_PAGES);
    t := FieldDeleted(s);
    hide *;
  }

  /** A file is opened and its last bookmark deleted: the page is still told of an outline. */
  lemma DeletedBookmarkStaysTold() returns (s: State, t: State)
    ensures s.doc.history.Valid() && s.doc.things.Valid()
    ensures var r := Step(App(BOOKS, RULES), s, DoApply(ChangeBookmark(Delete, 0))); r.0 == t && r.1.Ok?
    ensures t.doc.info.hasOutline && !t.doc.lost && t.doc.workerDoc in t.host.copies
    ensures !BOOKS.hasOutline(t.host.copies[t.doc.workerDoc].now)
    ensures OpenFile(App(BOOKS, RULES), DISK, J.Folder(map[], {}), 1, 0, "a.pdf", Option.None, Option.None) == Ok(s)
    ensures PartForeseen(BOOKS, Outline)
  {
    BooksForeseen();
    s := OpenedWith(BOOKS, ONE_PAGE);
    t := BookmarkDeleted(s);
    hide *;
  }

  /** Just opened, with what the bytes have. */
  predicate JustOpened(engine: W.Engine, s: State, pages: seq<W.PageSize>)
  {
    && s.doc.history == NOTHING && s.doc.things == NO_THINGS && s.inTab && !s.doc.guarded && !s.doc.lost
    && s.doc.formInFile == engine.hasForm(Content([1])) && s.doc.outlineInFile == engine.hasOutline(Content([1]))
    && s.doc.info.pages == pages && s.doc.info.permissions == Permissions(true, true, true, true)
    && s.doc.workerDoc in s.host.copies && s.host.copies[s.doc.workerDoc].now == Content([1])
  }

  lemma OpenedWith(engine: W.Engine, pages: seq<W.PageSize>) returns (s: State)
    requires (engine == FIELDS && pages == TWO_PAGES) || (engine == BOOKS && pages == ONE_PAGE)
    ensures JustOpened(engine, s, pages)
    ensures OpenFile(App(engine, RULES), DISK, J.Folder(map[], {}), 1, 0, "a.pdf", Option.None, Option.None) == Ok(s)
  {
    s := OpenFile(App(engine, RULES), DISK, J.Folder(map[], {}), 1, 0, "a.pdf", Option.None, Option.None).value;
  }

  lemma FieldDeleted(s: State) returns (t: State)
    requires JustOpened(FIELDS, s, TWO_PAGES)
    ensures s.doc.history.Valid() && s.doc.things.Valid()
    ensures var r := Step(App(FIELDS, RULES), s, DoApply(DeletePages([1]))); r.0 == t && r.1.Ok?
    ensures t.doc.info.hasForm && !t.doc.lost && t.doc.workerDoc in t.host.copies
    ensures !FIELDS.hasForm(t.host.copies[t.doc.workerDoc].now)
  {
    t := Step(App(FIELDS, RULES), s, DoApply(DeletePages([1]))).0;
    hide J.BodyOf;
  }

  lemma BookmarkDeleted(s: State) returns (t: State)
    requires JustOpened(BOOKS, s, ONE_PAGE)
    ensures s.doc.history.Valid() && s.doc.things.Valid()
    ensures var r := Step(App(BOOKS, RULES), s, DoApply(ChangeBookmark(Delete, 0))); r.0 == t && r.1.Ok?
    ensures t.doc.info.hasOutline && !t.doc.lost && t.doc.workerDoc in t.host.copies
    ensures !BOOKS.hasOutline(t.host.copies[t.doc.workerDoc].now)
  {
    t := Step(App(BOOKS, RULES), s, DoApply(ChangeBookmark(Delete, 0))).0;
    hide J.BodyOf;
  }
}
