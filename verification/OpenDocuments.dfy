/**
 * An open document as the app has it: fields its commands change one after the other
 * (src-tauri/src/documents.rs). Each method does to the fields what `Sessions` says of the state.
 */
module OpenDocuments {
  import opened Basics
  import opened Edits
  import opened Histories
  import opened Stores
  import opened Sessions
  import W = Worker
  import J = Journals

  /** What an open document shares with the rest of the app and the system. */
  class Surroundings {
    var disk: Disk
    var folder: J.Folder
    var nextId: nat

    constructor (disk: Disk, folder: J.Folder, nextId: nat)
      ensures this.disk == disk && this.folder == folder && this.nextId == nextId
    {
      this.disk, this.folder, this.nextId := disk, folder, nextId;
    }

    /** A number no document had. */
    method NextId() returns (id: nat)
      modifies this`nextId
      ensures id == old(nextId) && nextId == id + 1
    {
      id := nextId;
      nextId := nextId + 1;
    }
  }

  class OpenDocument {
    const history: History
    const around: Surroundings

    var info: Info
    var host: W.Host
    var path: Path
    var spelling: nat
    var workerDoc: nat
    var guarded: bool
    var lost: bool
    var identity: Option<nat>
    var formInFile: bool
    var outlineInFile: bool
    var journal: Option<J.JournalId>
    var recovered: Option<J.Found>
    var things: Things
    var signed: bool
    var identifier: Option<nat>
    /** Whether its tab still has it. */
    var inTab: bool

    ghost predicate Valid()
      reads this, history
    {
      history.Valid() && things.Valid()
    }

    ghost function View(): (s: State)
      reads this, history, around
    {
      State(Document(info, path, spelling, workerDoc, guarded, lost, identity, history.View(), formInFile, outlineInFile,
                     journal, recovered, things, signed, identifier),
            host, around.disk, around.folder, around.nextId, inTab)
    }

    /** A document just opened; `engine` is what its worker found in the file. */
    constructor (engine: W.Engine, number: nat, path: Path, workerDoc: nat, guarded: bool, file: File,
      host: W.Host, around: Surroundings)
      ensures Valid() && this.around == around
      ensures View().doc.history == NOTHING && View().doc.things == NO_THINGS
      ensures View().doc == Document(info, path, 0, workerDoc, guarded, false, Some(file.stamp), NOTHING,
        engine.hasForm(file.content), engine.hasOutline(file.content), Option.None, Option.None, NO_THINGS,
        engine.isSigned(file.content), engine.identifier(file.content))
      ensures info == Info(number, engine.pages(file.content), engine.permissions(file.content), false, false, false,
        engine.hasForm(file.content), engine.hasOutline(file.content), NoRecovery, engine.identifier(file.content).Some?)
      ensures View().host == host && View().inTab && fresh(history)
    {
      var c := file.content;
      this.history := new History();
      this.around := around;
      info := Info(number, engine.pages(c), engine.permissions(c), false, false, false,
                   engine.hasForm(c), engine.hasOutline(c), NoRecovery, engine.identifier(c).Some?);
      this.host, this.path, spelling, this.workerDoc, this.guarded, lost := host, path, 0, workerDoc, guarded, false;
      identity := Some(file.stamp);
      formInFile, outlineInFile := engine.hasForm(c), engine.hasOutline(c);
      journal, recovered, things := Option.None, Option.None, NO_THINGS;
      signed, identifier, inTab := engine.isSigned(c), engine.identifier(c), true;
    }

    // ----- asking the worker

    method LostOn(error: W.HostError)
      requires Valid()
      modifies this`lost
      ensures Valid() && View() == Sessions.LostOn(old(View()), error)
    {
      if W.Fatal(error) {
        lost := true;
      }
    }

    method UnexpectedOn()
      requires Valid()
      modifies this`lost, this`host
      ensures Valid() && View() == Sessions.UnexpectedOn(old(View()))
    {
      host := host.Stop();
      LostOn(W.Violation);
    }

    /** The loop of `Sessions.ReopenEdits`, edit by edit. */
    method Reopen(app: App) returns (r: Result<nat, ErrorCode>)
      requires Valid()
      modifies this`lost, this`host
      ensures Valid() && (View(), r) == Sessions.Reopen(app, old(View()))
    {
      if path !in around.disk.files {
        return Err(ErrorCode.Unreadable);
      }
      var content := around.disk.files[path].content;
      var answer := W.Open(app.engine, host, content, Option.None);
      host := answer.0;
      match answer.1 {
        case Failed(error) => return Err(W.CodeOf(error));
        case Unexpected => return Err(ProtocolViolation);
        case Expected(_) =>
      }
      var id := answer.1.value;
      var pages := app.engine.pages(content);
      var applied := history.Applied();
      ghost var started := View();
      var i := 0;
      while i < |applied|
        invariant 0 <= i <= |applied| && Valid() && applied == history.Applied()
        invariant View() == started.(host := host)
        invariant ReopenEdits(app, View(), id, applied[i..], pages)
               == ReopenEdits(app, started, id, applied, app.engine.pages(content))
      {
        var asked := WorkerEditOf(things, applied[i]);
        assert applied[i..][0] == applied[i] && applied[i..][1..] == applied[i + 1..];
        if asked.None? {
          return Err(InvalidArgument);
        }
        var edited := W.Edit(app.engine, host, id, asked.value);
        host := edited.0;
        match edited.1 {
          case Expected(after) => pages := after;
          case Unexpected =>
            UnexpectedOn();
            return Err(ProtocolViolation);
          case Failed(error) => return Err(W.CodeOf(error));
        }
        i := i + 1;
      }
      if pages != info.pages {
        host := host.(copies := host.copies - {id});
        return Err(Corrupted);
      }
      return Ok(id);
    }

    method LiveWorker(app: App) returns (r: Result<nat, ErrorCode>)
      requires Valid()
      modifies this`lost, this`host, this`workerDoc
      ensures Valid() && (View(), r) == Sessions.LiveWorker(app, old(View()))
    {
      if lost {
        if guarded {
          return Err(Encrypted);
        }
        var reopened := Reopen(app);
        if reopened.Err? {
          return reopened;
        }
        workerDoc := reopened.value;
        lost := false;
      }
      return Ok(workerDoc);
    }

    method EditInWorker(app: App, asked: WorkerEdit) returns (r: Result<seq<W.PageSize>, ErrorCode>)
      requires Valid()
      modifies this`lost, this`host, this`workerDoc
      ensures Valid() && (View(), r) == Sessions.EditInWorker(app, old(View()), asked)
    {
      var live := LiveWorker(app);
      if live.Err? {
        return Err(live.error);
      }
      var answered := W.Edit(app.engine, host, live.value, asked);
      host := answered.0;
      match answered.1 {
        case Expected(pages) => return Ok(pages);
        case Unexpected =>
          UnexpectedOn();
          return Err(ProtocolViolation);
        case Failed(error) =>
          LostOn(error);
          return Err(W.CodeOf(error));
      }
    }

    method RevertInWorker(app: App, asked: seq<WorkerEdit>, password: Option<W.Password>)
      returns (r: Result<seq<W.PageSize>, ErrorCode>)
      requires Valid()
      modifies this`lost, this`host, this`workerDoc
      ensures Valid() && (View(), r) == Sessions.RevertInWorker(app, old(View()), asked, password)
    {
      var live := LiveWorker(app);
      if live.Err? {
        return Err(live.error);
      }
      var answered := W.Revert(app.engine, host, live.value, asked, password);
      host := answered.0;
      match answered.1 {
        case Expected(pages) => return Ok(pages);
        case Unexpected =>
          UnexpectedOn();
          return Err(ProtocolViolation);
        case Failed(error) =>
          LostOn(error);
          return Err(W.CodeOf(error));
      }
    }

    method Rebase(app: App, content: Content)
      requires Valid()
      modifies this`lost, this`host
      ensures Valid() && View() == Sessions.Rebased(app, old(View()), content)
    {
      var answered := W.Rebase(app.engine, host, workerDoc, content);
      host := answered.0;
      if !answered.1.Expected? {
        lost := true;
      }
    }

    // ----- keeping the other views in step

    method ShowHistory()
      requires Valid()
      modifies this`info
      ensures Valid() && View() == old(View()).(doc := Sessions.ShowHistory(old(View()).doc))
    {
      var flattened := Flattened(history.Applied());
      var bookmarked := Bookmarked(history.Applied());
      hide Flattened, Bookmarked;
      info := info.(hasForm := formInFile && !flattened,
                    hasOutline := outlineInFile || bookmarked,
                    unsaved := history.Unsaved(),
                    canUndo := history.CanUndo(),
                    canRedo := history.CanRedo());
    }

    method KeepJournal(app: App)
      requires Valid()
      modifies this`journal, around`folder
      ensures Valid() && View() == Sessions.KeepJournal(app, old(View()))
    {
      if !history.Unsaved() {
        if journal.Some? {
          around.folder := J.Remove(around.folder, journal.value);
          journal := Option.None;
        }
        return;
      }
      if journal.None? {
        var created := J.Create(app.rules, around.folder);
        around.folder := created.0;
        journal := Some(created.1);
      }
      var body := J.BodyOf(things, history.Applied());
      around.folder := J.Write(app.rules, around.folder, journal.value, path, identity, body);
    }

    method Renumber()
      requires Valid()
      modifies this`info, around`nextId
      ensures Valid() && View() == Sessions.Renumber(old(View()))
    {
      var id := around.NextId();
      info := info.(doc := id);
    }

    /** After the worker made a change and the history took it. */
    method Show(app: App, pages: seq<W.PageSize>)
      requires Valid()
      modifies this`info, this`journal, around`folder, around`nextId
      ensures Valid() && View() == Changed(app, old(View()), old(history.View()), pages)
    {
      hide Sessions.ShowHistory, Sessions.KeepJournal, Sessions.Renumber;
      info := info.(pages := pages);
      ShowHistory();
      KeepJournal(app);
      Renumber();
    }

    /** An edit that failed may have left the worker's copy half made: it is given up then. */
    method MayBeHalfEdited(code: ErrorCode)
      requires Valid()
      modifies this`lost
      ensures Valid() && View() == if HalfEdited(code) then MarkLost(old(View())) else old(View())
    {
      if HalfEdited(code) {
        lost := true;
      }
    }

    // ----- the commands

    /** What an edit from the page is checked for before the worker is asked. */
    method Check(app: App, edit: Edit) returns (refused: Option<ErrorCode>)
      requires Valid()
      ensures refused == Refusal(app, View(), edit)
    {
      if !Edits.Valid(edit) {
        return Some(InvalidArgument);
      }
      var expected := PagesAfter(edit, |info.pages|, info.permissions, things.SourcePages());
      if expected.Err? {
        return Some(expected.error);
      }
      if WorkerEditOf(things, edit).None? {
        return Some(InvalidArgument);
      }
      if !history.HasRoom() {
        return Some(LimitExceeded);
      }
      // Asked of the journal as it would be with this edit.
      if identity.Some? && !app.rules.fits(J.BodyOf(things, history.Applied() + [edit])) {
        return Some(LimitExceeded);
      }
      return Option.None;
    }

    method ApplyEdit(app: App, edit: Edit) returns (r: Done)
      requires Valid()
      modifies this, history, around
      ensures Valid() && (View(), r) == Sessions.ApplyEdit(app, old(View()), edit)
    {
      hide Refusal, PagesAfter, Changed, Sessions.UnexpectedOn, Sessions.EditInWorker, Sessions.ApplyEdit;
      ghost var before := View();
      ApplyEditCases(app, before, edit);
      var refused := Check(app, edit);
      if refused.Some? {
        return Err(refused.value);
      }
      var expected := PagesAfter(edit, |info.pages|, info.permissions, things.SourcePages());
      var asked := WorkerEditOf(things, edit);
      var answered := EditInWorker(app, asked.value);
      if answered.Err? {
        MayBeHalfEdited(answered.error);
        return Err(answered.error);
      }
      r := Take(app, edit, answered.value, expected.value);
    }

    /** The worker made `edit`: it joins the history if its page count is the one foreseen. */
    method Take(app: App, edit: Edit, pages: seq<W.PageSize>, expected: nat) returns (r: Done)
      requires Valid()
      modifies this, history, around
      ensures Valid()
      ensures (View(), r) == if |pages| != expected then (Sessions.UnexpectedOn(old(View())), Err(ProtocolViolation))
                             else (Changed(app, old(View()), old(history.View()).Push(edit), pages), Ok(()))
    {
      hide Changed;
      if |pages| != expected {
        UnexpectedOn();
        return Err(ProtocolViolation);
      }
      ghost var made := View();
      history.Push(edit);
      ChangedFrom(app, made, history.View(), pages);
      Show(app, pages);
      return Ok(());
    }

    /** What is sent for `edits`, each with the thing it names. */
    method AskedFor(edits: seq<Edit>) returns (asked: Option<seq<WorkerEdit>>)
      ensures asked == W.WorkerEditsOf(things, edits)
    {
      var list := [];
      var i := 0;
      while i < |edits|
        invariant 0 <= i <= |edits| && W.WorkerEditsOf(things, edits[..i]) == Some(list)
      {
        var one := WorkerEditOf(things, edits[i]);
        assert edits[..i + 1][..i] == edits[..i];
        if one.None? {
          NotAskedFor(things, edits, i + 1);
          return Option.None;
        }
        list := list + [one.value];
        i := i + 1;
      }
      assert edits[..i] == edits;
      return Some(list);
    }

    method Undo(app: App, password: Option<W.Password>) returns (r: Done)
      requires Valid()
      modifies this, history, around
      ensures Valid() && (View(), r) == Sessions.Undo(app, old(View()), password)
    {
      hide Sessions.Undo, Sessions.RevertInWorker, W.WorkerEditsOf, Changed, HalfEdited, UndoneTo;
      UndoCases(app, View(), password);
      if guarded && password.None? {
        return Err(Encrypted);
      }
      var without := history.BeforeLast();
      if without.None? {
        return Err(InvalidArgument);
      }
      var asked := AskedFor(without.value);
      if asked.None? {
        return Err(InvalidArgument);
      }
      r := RevertTo(app, asked.value, if guarded then password else Option.None);
    }

    /** The worker goes back to the edits before the last. */
    method RevertTo(app: App, asked: seq<WorkerEdit>, given: Option<W.Password>) returns (r: Done)
      requires Valid() && history.View().applied > 0
      modifies this, history, around
      ensures Valid() && (View(), r) == UndoneTo(app, old(View()), asked, given)
    {
      hide Sessions.RevertInWorker, Changed, HalfEdited;
      ghost var before := View();
      RevertSameHistory(app, before, asked, given);
      var answered := RevertInWorker(app, asked, given);
      if answered.Err? {
        MayBeHalfEdited(answered.error);
        return Err(answered.error);
      }
      TakeBack(app, answered.value);
      return Ok(());
    }

    /** The last edit is undone, with these pages left. */
    method TakeBack(app: App, pages: seq<W.PageSize>)
      requires Valid() && history.View().applied > 0
      modifies this`info, this`journal, history, around`folder, around`nextId
      ensures Valid() && View() == Changed(app, old(View()), old(history.View()).Undo(), pages)
    {
      ghost var before := View();
      history.MarkUndone();
      ChangedFrom(app, before, history.View(), pages);
      Show(app, pages);
    }

    method Redo(app: App) returns (r: Done)
      requires Valid()
      modifies this, history, around
      ensures Valid() && (View(), r) == Sessions.Redo(app, old(View()))
    {
      hide Sessions.Redo, Sessions.EditInWorker, Changed, HalfEdited;
      ghost var before := View();
      RedoCases(app, before);
      var edit := history.Next();
      if edit.None? {
        return Err(InvalidArgument);
      }
      var asked := WorkerEditOf(things, edit.value);
      if asked.None? {
        return Err(InvalidArgument);
      }
      var answered := EditInWorker(app, asked.value);
      if answered.Err? {
        MayBeHalfEdited(answered.error);
        return Err(answered.error);
      }
      ghost var made := View();
      history.MarkRedone();
      ChangedFrom(app, made, history.View(), answered.value);
      Show(app, answered.value);
      return Ok(());
    }

    /** Makes the edits of a journal, and makes them the history. */
    method Replay(app: App, edits: seq<Edit>) returns (r: Done)
      requires Valid()
      modifies this, history
      ensures Valid() && (View(), r) == Sessions.Replay(app, old(View()), edits)
    {
      ghost var before := View();
      var expected := PagesAfterAll(edits, |info.pages|, info.permissions, NoSources);
      if expected.Err? {
        return Err(expected.error);
      }
      if |edits| > MAX_UNDO_EDITS {
        return Err(LimitExceeded);
      }
      var made := MakeAll(app, edits);
      if made.Err? {
        return Err(made.error);
      }
      Sessions.ReplayEditsOnlyHost(app, before, edits, before.doc.info.pages);
      hide ReplayEdits, PagesAfterAll;
      if |made.value| != expected.value {
        UnexpectedOn();
        return Err(ProtocolViolation);
      }
      PushAll(edits);
      info := info.(pages := made.value);
      ShowHistory();
      return Ok(());
    }

    /** The edits asked of the worker one after the other; the pages after the last. */
    method MakeAll(app: App, edits: seq<Edit>) returns (r: Result<seq<W.PageSize>, ErrorCode>)
      requires Valid()
      modifies this`lost, this`host, this`workerDoc
      ensures Valid() && (View(), r) == ReplayEdits(app, old(View()), edits, old(info.pages))
    {
      var pages := info.pages;
      var i := 0;
      ghost var started := View();
      while i < |edits|
        invariant 0 <= i <= |edits| && Valid() && View().doc.history.Valid()
        invariant ReplayEdits(app, View(), edits[i..], pages) == ReplayEdits(app, started, edits, started.doc.info.pages)
      {
        var asked := WorkerEditOf(things, edits[i]);
        assert edits[i..][0] == edits[i] && edits[i..][1..] == edits[i + 1..];
        if asked.None? {
          return Err(InvalidArgument);
        }
        var edited := EditInWorker(app, asked.value);
        if edited.Err? {
          lost := true;
          return Err(edited.error);
        }
        pages := edited.value;
        i := i + 1;
      }
      return Ok(pages);
    }

    method PushAll(edits: seq<Edit>)
      requires Valid()
      modifies history
      ensures Valid() && history.View() == old(history.View()).PushAll(edits)
    {
      var i := 0;
      while i < |edits|
        invariant 0 <= i <= |edits| && Valid()
        invariant history.View() == old(history.View()).PushAll(edits[..i])
      {
        assert edits[..i + 1][..i] == edits[..i];
        history.Push(edits[i]);
        i := i + 1;
      }
      assert edits[..i] == edits;
    }

    method Recover(app: App) returns (r: Done)
      requires Valid()
      modifies this, history, around
      ensures Valid() && (View(), r) == Sessions.Recover(app, old(View()))
    {
      hide Sessions.Recover, Sessions.Replay, Sessions.KeepJournal, Sessions.Renumber, TakenOver;
      ghost var before := View();
      RecoverCases(app, before);
      if !(info.recovery.Available? || info.recovery.Partial?) || history.Unsaved() {
        return Err(InvalidArgument);
      }
      var body := if recovered.Some? then recovered.value.body else J.Body([], map[], map[], 0);
      things := things.Restore(body.pictures, body.models);
      assert View() == Restoring(before, Left(before)) && body == Left(before);
      r := Replay(app, body.edits);
      if r.Err? {
        // `recovered` is left as it is.
        return;
      }
      TakeOver();
      KeepJournal(app);
      Renumber();
      return Ok(());
    }

    /** What was `recovered` is the `journal` from now on. */
    method TakeOver()
      requires Valid()
      modifies this`journal, this`recovered, this`info
      ensures Valid() && View() == TakenOver(old(View()))
    {
      if recovered.Some? {
        journal := Some(recovered.value.id);
      }
      recovered := Option.None;
      info := info.(recovery := NoRecovery);
    }

    method Discard() returns (r: Done)
      requires Valid()
      modifies this`recovered, this`info, around`folder
      ensures Valid() && (View(), r) == Sessions.Discard(old(View()))
    {
      if recovered.None? {
        return Err(InvalidArgument);
      }
      var found := recovered.value;
      recovered := Option.None;
      around.folder := J.Remove(around.folder, found.id);
      info := info.(recovery := NoRecovery);
      return Ok(());
    }

    /** The stamp of the file now is the one the document has of it. */
    predicate UnchangedOnDisk()
      reads this, around
    {
      identity.Some? && identity == around.disk.Identity(path)
    }

    /** The worker's copy, for a file to be made of it. */
    method SaveInWorker(app: App) returns (r: Result<Content, ErrorCode>)
      requires Valid()
      modifies this`lost, this`host, this`workerDoc
      ensures Valid()
      ensures (View(), r) ==
        var live := Sessions.LiveWorker(app, old(View()));
        if live.1.Err? then (live.0, Err(live.1.error))
        else Settle(live.0, W.Save(app.engine, live.0.host, live.1.value))
    {
      var live := LiveWorker(app);
      if live.Err? {
        return Err(live.error);
      }
      var answered := W.Save(app.engine, host, live.value);
      host := answered.0;
      match answered.1 {
        case Expected(content) => return Ok(content);
        case Unexpected =>
          UnexpectedOn();
          return Err(ProtocolViolation);
        case Failed(error) =>
          LostOn(error);
          return Err(W.CodeOf(error));
      }
    }

    method Save(app: App, destination: Option<Place>, faults: WriteFaults) returns (r: Done)
      requires Valid()
      modifies this, history, around
      ensures Valid() && (View(), r) == Sessions.Save(app, old(View()), destination, faults)
    {
      hide Sessions.LiveWorker, Sessions.Written, Settle;
      if destination.None? && !history.Unsaved() {
        return Ok(());
      }
      if destination.None? && !UnchangedOnDisk() {
        return Err(ChangedOnDisk);
      }
      var target := if destination.Some? then destination.value else Place(path, spelling);
      if !around.disk.Writable(target.path) {
        return Err(ReadOnly);
      }
      if faults.create.Some? {
        return Err(faults.create.value);
      }
      var content := SaveInWorker(app);
      if content.Err? {
        return Err(content.error);
      }
      if faults.check.Some? {
        return Err(faults.check.value);
      }
      if faults.replace.Some? {
        return Err(faults.replace.value);
      }
      Wrote(app, target, content.value);
      return Ok(());
    }

    /** The document is in the file `target` now. */
    method Wrote(app: App, target: Place, content: Content)
      requires Valid()
      modifies this, history, around
      ensures Valid() && View() == Sessions.Written(app, old(View()), target, content)
    {
      hide Sessions.KeepJournal, Sessions.ShowHistory;
      Became(target, content);
      KeepJournal(app);
      // A later revert is to begin with `content`.
      Rebase(app, content);
    }

    /** What becomes of the edits an earlier run left, once the document is written to `target`. */
    method Answered(target: Place)
      requires Valid()
      modifies this`path, this`spelling, this`recovered, this`info, around`folder
      ensures Valid() && View() == Sessions.Answered(old(View()), target)
    {
      if target != Place(path, spelling) {
        path, spelling := target.path, target.spelling;
        if recovered.Some? {
          // Let go, not removed: opening the file it is for finds it again.
          around.folder := J.Release(around.folder, recovered.value.id);
          recovered := Option.None;
        }
        info := info.(recovery := NoRecovery);
      } else if recovered.Some? {
        // Their stamp is no longer that of the file.
        info := info.(recovery := Stale);
      }
    }

    method Became(target: Place, content: Content)
      requires Valid()
      modifies this, history, around
      ensures Valid() && View() == Sessions.WrittenDoc(old(View()), target, content)
    {
      hide Sessions.PutFile, Sessions.Answered, Sessions.StartsOver;
      PutFile(target.path, content);
      Answered(target);
      StartOver();
    }

    method PutFile(target: Path, content: Content)
      requires Valid()
      modifies this`identity, around`disk
      ensures Valid() && View() == Sessions.PutFile(old(View()), target, content)
    {
      around.disk := around.disk.Put(target, content);
      identity := around.disk.Identity(target);
    }

    method StartOver()
      requires Valid()
      modifies this, history
      ensures Valid() && View() == Sessions.StartsOver(old(View()))
    {
      hide Sessions.ShowHistory;
      formInFile := info.hasForm;
      outlineInFile := info.hasOutline;
      history.Saved();
      things := things.(sources := things.sources.(things := map[]));
      ShowHistory();
    }

    /** The bytes with the mark, or without it, for a file to be made of them. */
    method MarkInWorker(app: App, mark: Option<nat>) returns (r: Result<Content, ErrorCode>)
      requires Valid()
      modifies this`lost, this`host, this`workerDoc
      ensures Valid()
      ensures (View(), r) ==
        var live := Sessions.LiveWorker(app, old(View()));
        if live.1.Err? then (live.0, Err(live.1.error))
        else Settle(live.0, W.WriteIdentifier(app.engine, live.0.host, live.1.value, mark))
    {
      var live := LiveWorker(app);
      if live.Err? {
        return Err(live.error);
      }
      var answered := W.WriteIdentifier(app.engine, host, live.value, mark);
      host := answered.0;
      match answered.1 {
        case Expected(content) => return Ok(content);
        case Unexpected =>
          UnexpectedOn();
          return Err(ProtocolViolation);
        case Failed(error) =>
          LostOn(error);
          return Err(W.CodeOf(error));
      }
    }

    method SetSensitive(app: App, sensitive: bool, drawn: nat, password: Option<W.Password>, faults: WriteFaults)
      returns (r: Done)
      requires Valid()
      modifies this, history, around
      ensures Valid() && (View(), r) == Sessions.SetSensitive(app, old(View()), sensitive, drawn, password, faults)
    {
      hide Sessions.LiveWorker, Sessions.Marked, Settle;
      if signed {
        return Err(Signed);
      }
      if sensitive == identifier.Some? {
        return Err(InvalidArgument);
      }
      if history.Unsaved() || info.recovery.Available? || info.recovery.Partial? {
        return Err(InvalidArgument);
      }
      if !UnchangedOnDisk() {
        return Err(ChangedOnDisk);
      }
      if !around.disk.Writable(path) {
        return Err(ReadOnly);
      }
      if faults.create.Some? {
        return Err(faults.create.value);
      }
      var mark := if sensitive then Some(drawn) else Option.None;
      var content := MarkInWorker(app, mark);
      if content.Err? {
        return Err(content.error);
      }
      if faults.check.Some? {
        return Err(faults.check.value);
      }
      if faults.replace.Some? {
        return Err(faults.replace.value);
      }
      Marked(app, mark, password, content.value);
      return Ok(());
    }

    /** The file was written with the mark, or without it. */
    method Marked(app: App, mark: Option<nat>, password: Option<W.Password>, content: Content)
      requires Valid()
      modifies this, around
      ensures Valid() && View() == Sessions.Marked(app, old(View()), mark, password, content)
    {
      hide Sessions.Rebased, Sessions.RevertInWorker, Sessions.MarkedDoc, Sessions.Renumber;
      MarkFile(mark, content);
      // `Save` writes the copy: it is made again from the marked bytes.
      Rebase(app, content);
      if !lost {
        var reverted := RevertInWorker(app, [], password);
        if reverted.Err? {
          lost := true;
        }
      }
      Renumber();
    }

    method MarkFile(mark: Option<nat>, content: Content)
      requires Valid()
      modifies this`identity, this`identifier, this`info, around`disk
      ensures Valid() && View() == Sessions.MarkedDoc(old(View()), mark, content)
    {
      around.disk := around.disk.Put(path, content);
      identity := around.disk.Identity(path);
      identifier := mark;
      info := info.(sensitive := mark.Some?);
    }

    /**
     * A command of the page on the document, if its tab has it. One that is gone after the work, or was
     * all the time, is given up by the tab and has no state to answer with.
     */
    method ChangeDocument(app: App, command: Command) returns (r: Done)
      requires Valid() && TellsState(command)
      modifies this, history, around
      ensures Valid() && (View(), r) == Step(app, old(View()), command)
    {
      hide Sessions.ApplyEdit, Sessions.Undo, Sessions.Redo, Sessions.Recover, Sessions.Discard, Sessions.Save,
           Sessions.SetSensitive;
      if !inTab {
        return Err(UnknownDocument);
      }
      match command {
        case DoApply(edit) => r := ApplyEdit(app, edit);
        case DoUndo(password) => r := Undo(app, password);
        case DoRedo => r := Redo(app);
        case DoRecover => r := Recover(app);
        case DoDiscard => r := Discard();
        case DoSave(destination, faults) => r := Save(app, destination, faults);
        case DoSetSensitive(sensitive, drawn, key, problems) => r := SetSensitive(app, sensitive, drawn, key, problems);
      }
      if guarded && lost {
        inTab := false;
        if r.Ok? {
          r := Err(UnknownDocument);
        }
      }
    }
  }

  /** The history a change leads to is what counts, not whether the document already has it. */
  lemma ChangedFrom(app: App, s: State, history: Timeline, pages: seq<W.PageSize>)
    requires history.Valid()
    ensures Changed(app, s.(doc := s.doc.(history := history)), history, pages) == Changed(app, s, history, pages)
  {
  }

  lemma {:induction false} NotAskedFor(things: Things, edits: seq<Edit>, n: nat)
    requires n <= |edits| && W.WorkerEditsOf(things, edits[..n]).None?
    ensures W.WorkerEditsOf(things, edits).None?
    decreases |edits|
  {
    if n < |edits| {
      var init := edits[..|edits| - 1];
      assert init[..n] == edits[..n];
      NotAskedFor(things, init, n);
    } else {
      assert edits[..n] == edits;
    }
  }

  /** What undoing comes to once the worker was asked. */
  ghost function UndoneTo(app: App, s: State, asked: seq<WorkerEdit>, given: Option<W.Password>): (State, Done)
    requires s.doc.history.Valid() && s.doc.history.applied > 0
  {
    var t := Sessions.RevertInWorker(app, s, asked, given);
    match t.1
    case Err(code) => (if HalfEdited(code) then MarkLost(t.0) else t.0, Err(code))
    case Ok(pages) => (Changed(app, t.0, s.doc.history.Undo(), pages), Ok(()))
  }

  lemma RevertSameHistory(app: App, s: State, asked: seq<WorkerEdit>, given: Option<W.Password>)
    requires s.doc.history.Valid()
    ensures Sessions.RevertInWorker(app, s, asked, given).0.doc.history == s.doc.history
  {
    LiveWorkerOnlyHost(app, s);
    hide Sessions.LiveWorker, W.Revert;
  }

  lemma UndoCases(app: App, s: State, password: Option<W.Password>)
    requires s.doc.history.Valid()
    ensures var r := Sessions.Undo(app, s, password);
      if s.doc.guarded && password.None? then r == (s, Err(Encrypted))
      else if s.doc.history.applied == 0 then r == (s, Err(InvalidArgument))
      else
        var asked := W.WorkerEditsOf(s.doc.things, s.doc.history.Undo().Applied());
        if asked.None? then r == (s, Err(InvalidArgument))
        else r == UndoneTo(app, s, asked.value, if s.doc.guarded then password else Option.None)
  {
    hide Sessions.RevertInWorker, W.WorkerEditsOf, Changed, HalfEdited;
  }

  lemma RedoCases(app: App, s: State)
    requires s.doc.history.Valid()
    ensures var r := Sessions.Redo(app, s);
      if !s.doc.history.CanRedo() then r == (s, Err(InvalidArgument))
      else
        var asked := WorkerEditOf(s.doc.things, s.doc.history.edits[s.doc.history.applied]);
        if asked.None? then r == (s, Err(InvalidArgument))
        else
          var t := Sessions.EditInWorker(app, s, asked.value);
          && (t.1.Err? ==> r == (if HalfEdited(t.1.error) then MarkLost(t.0) else t.0, Err(t.1.error)))
          && (t.1.Ok? ==> r == (Changed(app, t.0, s.doc.history.Redo(), t.1.value), Ok(())))
  {
    hide Sessions.EditInWorker, Changed, HalfEdited;
  }

  lemma RecoverCases(app: App, s: State)
    requires s.doc.history.Valid() && s.doc.things.Valid()
    ensures !MayRecover(s) ==> Sessions.Recover(app, s) == (s, Err(InvalidArgument))
    ensures var r := Sessions.Replay(app, Restoring(s, Left(s)), Left(s).edits);
      MayRecover(s) ==>
        && r.0.doc.history.Valid()
        && (r.1.Err? ==> Sessions.Recover(app, s) == (r.0, Err(r.1.error)))
        && (r.1.Ok? ==> Sessions.Recover(app, s) == (Sessions.Renumber(Sessions.KeepJournal(app, TakenOver(r.0))), Ok(())))
  {
    Sessions.ReplayKeepsTheRest(app, Restoring(s, Left(s)), Left(s).edits);
    hide Sessions.Replay, Sessions.KeepJournal, Sessions.Renumber;
  }

  lemma ApplyEditCases(app: App, s: State, edit: Edit)
    requires s.doc.history.Valid()
    ensures var refused := Refusal(app, s, edit);
      && (refused.Some? ==> ApplyEdit(app, s, edit) == (s, Err(refused.value)))
      && (refused.None? ==>
            var expected := PagesAfter(edit, |s.doc.info.pages|, s.doc.info.permissions, s.doc.things.SourcePages());
            var t := Sessions.EditInWorker(app, s, WorkerEditOf(s.doc.things, edit).value);
            && t.0.doc.history == s.doc.history
            && (t.1.Err? ==>
                  ApplyEdit(app, s, edit) == (if HalfEdited(t.1.error) then MarkLost(t.0) else t.0, Err(t.1.error)))
            && (t.1.Ok? && |t.1.value| != expected.value ==>
                  ApplyEdit(app, s, edit) == (Sessions.UnexpectedOn(t.0), Err(ProtocolViolation)))
            && (t.1.Ok? && |t.1.value| == expected.value ==>
                  ApplyEdit(app, s, edit) == (Changed(app, t.0, s.doc.history.Push(edit), t.1.value), Ok(()))))
  {
    hide Changed, Sessions.EditInWorker, Refusal, PagesAfter;
    if Refusal(app, s, edit).None? {
      assert Sessions.EditInWorker(app, s, WorkerEditOf(s.doc.things, edit).value).0.doc.history == s.doc.history by {
        OnlyHost(app, s, WorkerEditOf(s.doc.things, edit).value);
      }
    }
  }
}
