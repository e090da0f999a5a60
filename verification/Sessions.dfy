/**
 * The edit session of one open document as functions (src-tauri/src/documents.rs): what each
 * command does to the document, its worker, its file and its recovery journal. The class
 * `OpenDocuments.OpenDocument` does the same step by step; the invariant is in `SessionProofs`.
 */
module Sessions {
  import opened Basics
  import opened Edits
  import opened Histories
  import opened Stores
  import W = Worker
  import J = Journals

  type Path = J.Path

  /** A path as it is spelled: one file has as many spellings as its name has cases. */
  datatype Place = Place(path: Path, spelling: nat)

  /** A file, and what its size and modification time are taken for: a stamp no other state of it has. */
  datatype File = File(content: Content, stamp: nat, readOnly: bool)

  datatype Disk = Disk(files: map<Path, File>, clock: nat)
  {
    function Identity(path: Path): Option<nat>
    {
      if path in files then Some(files[path].stamp) else Option.None
    }

    /** `content` takes the place of the file at `path`, or becomes one. */
    function Put(path: Path, content: Content): Disk
    {
      Disk(files[path := File(content, clock, false)], clock + 1)
    }

    predicate Writable(path: Path)
    {
      path in files ==> !files[path].readOnly
    }
  }

  datatype Recovery = NoRecovery | Available | Partial | Lost | Stale

  /** What the page is told of a document. */
  datatype Info = Info(doc: nat, pages: seq<W.PageSize>, permissions: Permissions,
    unsaved: bool, canUndo: bool, canRedo: bool, hasForm: bool, hasOutline: bool,
    recovery: Recovery, sensitive: bool)

  datatype Document = Document(info: Info, path: Path, spelling: nat, workerDoc: nat, guarded: bool, lost: bool,
    identity: Option<nat>, history: Timeline, formInFile: bool, outlineInFile: bool,
    journal: Option<J.JournalId>, recovered: Option<J.Found>, things: Things,
    signed: bool, identifier: Option<nat>)

  /**
   * A document with its own worker, and what it shares with the rest of the app and the system;
   * `inTab`: its tab has not given it up.
   */
  datatype State = State(doc: Document, host: W.Host, disk: Disk, folder: J.Folder, nextId: nat, inTab: bool)

  datatype App = App(engine: W.Engine, rules: J.Rules)

  type Done = Result<(), ErrorCode>

  function With(s: State, host: W.Host): State { s.(host := host) }

  function MarkLost(s: State): State { s.(doc := s.doc.(lost := true)) }

  /** A fatal error leaves the document without its worker (`lost_on`). */
  function LostOn(s: State, error: W.HostError): State
  {
    if W.Fatal(error) then MarkLost(s) else s
  }

  /** A worker that answers something else is stopped (`unexpected_on`). */
  function UnexpectedOn(s: State): State { MarkLost(With(s, s.host.Stop())) }

  /** After these the worker's copy may be half edited. */
  predicate HalfEdited(code: ErrorCode) { code.Internal? || code.LimitExceeded? }

  // ----- asking the worker

  function ReopenEdits(app: App, s: State, id: nat, edits: seq<Edit>, pages: seq<W.PageSize>)
    : (State, Result<seq<W.PageSize>, ErrorCode>)
    decreases |edits|
  {
    if edits == [] then (s, Ok(pages))
    else
      match WorkerEditOf(s.doc.things, edits[0])
      case None => (s, Err(InvalidArgument))
      case Some(asked) =>
        var r := W.Edit(app.engine, s.host, id, asked);
        var s := With(s, r.0);
        match r.1
        case Expected(edited) => ReopenEdits(app, s, id, edits[1..], edited)
        case Unexpected => (UnexpectedOn(s), Err(ProtocolViolation))
        case Failed(error) => (s, Err(W.CodeOf(error)))
  }

  /** Opens the file again in the worker and makes the edits not yet saved; same pages as before. */
  function Reopen(app: App, s: State): (State, Result<nat, ErrorCode>)
    requires s.doc.history.Valid()
  {
    if s.doc.path !in s.disk.files then (s, Err(ErrorCode.Unreadable))
    else
      var content := s.disk.files[s.doc.path].content;
      var answer := W.Open(app.engine, s.host, content, Option.None);
      var s := With(s, answer.0);
      match answer.1
      case Failed(error) => (s, Err(W.CodeOf(error)))
      case Unexpected => (s, Err(ProtocolViolation))
      case Expected(id) =>
        var r := ReopenEdits(app, s, id, s.doc.history.Applied(), app.engine.pages(content));
        match r.1
        case Err(code) => (r.0, Err(code))
        case Ok(pages) =>
          if pages != s.doc.info.pages then
            (With(r.0, r.0.host.(copies := r.0.host.copies - {id})), Err(Corrupted))
          else (r.0, Ok(id))
  }

  /** The document's number in its worker, opened again first when its worker was lost. */
  function LiveWorker(app: App, s: State): (State, Result<nat, ErrorCode>)
    requires s.doc.history.Valid()
  {
    if !s.doc.lost then (s, Ok(s.doc.workerDoc))
    else if s.doc.guarded then (s, Err(Encrypted))
    else
      var r := Reopen(app, s);
      match r.1
      case Err(code) => (r.0, Err(code))
      case Ok(id) => (r.0.(doc := r.0.doc.(workerDoc := id, lost := false)), Ok(id))
  }

  /** What a request about the document comes to, once the worker answered. */
  function Settle<T>(s: State, answered: (W.Host, W.Answer<T>)): (State, Result<T, ErrorCode>)
  {
    var s := With(s, answered.0);
    match answered.1
    case Expected(value) => (s, Ok(value))
    case Unexpected => (UnexpectedOn(s), Err(ProtocolViolation))
    case Failed(error) => (LostOn(s, error), Err(W.CodeOf(error)))
  }

  function EditInWorker(app: App, s: State, asked: WorkerEdit): (State, Result<seq<W.PageSize>, ErrorCode>)
    requires s.doc.history.Valid()
  {
    var live := LiveWorker(app, s);
    match live.1
    case Err(code) => (live.0, Err(code))
    case Ok(id) => Settle(live.0, W.Edit(app.engine, live.0.host, id, asked))
  }

  function RevertInWorker(app: App, s: State, asked: seq<WorkerEdit>, password: Option<W.Password>)
    : (State, Result<seq<W.PageSize>, ErrorCode>)
    requires s.doc.history.Valid()
  {
    var live := LiveWorker(app, s);
    match live.1
    case Err(code) => (live.0, Err(code))
    case Ok(id) => Settle(live.0, W.Revert(app.engine, live.0.host, id, asked, password))
  }

  // ----- keeping the other views in step

  predicate Flattened(applied: seq<Edit>)
  {
    exists i :: 0 <= i < |applied| && applied[i].FlattenForm?
  }

  predicate Bookmarked(applied: seq<Edit>)
  {
    exists i :: 0 <= i < |applied| && applied[i].AddBookmark?
  }

  /** What the page is told of the history. */
  function ShowHistory(doc: Document): Document
    requires doc.history.Valid()
  {
    var applied := doc.history.Applied();
    doc.(info := doc.info.(
      hasForm := doc.formInFile && !Flattened(applied),
      hasOutline := doc.outlineInFile || Bookmarked(applied),
      unsaved := doc.history.Unsaved(),
      canUndo := doc.history.applied > 0,
      canRedo := doc.history.CanRedo()))
  }

  /** The journal of the edits the document has and its file has not, or no journal. */
  function KeepJournal(app: App, s: State): State
    requires s.doc.history.Valid()
  {
    if !s.doc.history.Unsaved() then
      match s.doc.journal
      case None => s
      case Some(id) => s.(doc := s.doc.(journal := Option.None), folder := J.Remove(s.folder, id))
    else
      var created := if s.doc.journal.Some? then (s.folder, s.doc.journal.value) else J.Create(app.rules, s.folder);
      var body := J.BodyOf(s.doc.things, s.doc.history.Applied());
      s.(doc := s.doc.(journal := Some(created.1)),
         folder := J.Write(app.rules, created.0, created.1, s.doc.path, s.doc.identity, body))
  }

  /** The page knows the document by another number. */
  function Renumber(s: State): State
  {
    s.(doc := s.doc.(info := s.doc.info.(doc := s.nextId)), nextId := s.nextId + 1)
  }

  /** After the worker made a change: the history, the pages and everything told of them. */
  function Changed(app: App, s: State, history: Timeline, pages: seq<W.PageSize>): State
    requires history.Valid()
  {
    var doc := ShowHistory(s.doc.(history := history, info := s.doc.info.(pages := pages)));
    Renumber(KeepJournal(app, s.(doc := doc)))
  }

  // ----- the commands

  /** Why an edit from the page is not asked of the worker; `None` when it is. */
  function Refusal(app: App, s: State, edit: Edit): (code: Option<ErrorCode>)
    requires s.doc.history.Valid()
    ensures code.None? ==>
      && Valid(edit)
      && PagesAfter(edit, |s.doc.info.pages|, s.doc.info.permissions, s.doc.things.SourcePages()).Ok?
      && WorkerEditOf(s.doc.things, edit).Some?
      && s.doc.history.applied < MAX_UNDO_EDITS
  {
    var expected := PagesAfter(edit, |s.doc.info.pages|, s.doc.info.permissions, s.doc.things.SourcePages());
    if !Valid(edit) then Some(InvalidArgument)
    else if expected.Err? then Some(expected.error)
    else if WorkerEditOf(s.doc.things, edit).None? then Some(InvalidArgument)
    else if s.doc.history.applied >= MAX_UNDO_EDITS then Some(LimitExceeded)
    else if s.doc.identity.Some?
         && !app.rules.fits(J.BodyOf(s.doc.things, s.doc.history.Applied() + [edit])) then Some(LimitExceeded)
    else Option.None
  }

  function ApplyEdit(app: App, s: State, edit: Edit): (State, Done)
    requires s.doc.history.Valid()
  {
    match Refusal(app, s, edit)
    case Some(code) => (s, Err(code))
    case None =>
      var expected := PagesAfter(edit, |s.doc.info.pages|, s.doc.info.permissions, s.doc.things.SourcePages());
      var r := EditInWorker(app, s, WorkerEditOf(s.doc.things, edit).value);
      match r.1
      case Err(code) => (if HalfEdited(code) then MarkLost(r.0) else r.0, Err(code))
      case Ok(pages) =>
        if |pages| != expected.value then (UnexpectedOn(r.0), Err(ProtocolViolation))
        else (Changed(app, r.0, s.doc.history.Push(edit), pages), Ok(()))
  }

  /** `password`: the user's, or the one the app remembers for the file. */
  function Undo(app: App, s: State, password: Option<W.Password>): (State, Done)
    requires s.doc.history.Valid()
  {
    if s.doc.guarded && password.None? then (s, Err(Encrypted))
    else if s.doc.history.applied == 0 then (s, Err(InvalidArgument))
    else
      var asked := W.WorkerEditsOf(s.doc.things, s.doc.history.Undo().Applied());
      if asked.None? then (s, Err(InvalidArgument))
      else
        var r := RevertInWorker(app, s, asked.value, if s.doc.guarded then password else Option.None);
        match r.1
        case Err(code) => (if HalfEdited(code) then MarkLost(r.0) else r.0, Err(code))
        case Ok(pages) => (Changed(app, r.0, s.doc.history.Undo(), pages), Ok(()))
  }

  function Redo(app: App, s: State): (State, Done)
    requires s.doc.history.Valid()
  {
    if !s.doc.history.CanRedo() then (s, Err(InvalidArgument))
    else
      var asked := WorkerEditOf(s.doc.things, s.doc.history.edits[s.doc.history.applied]);
      if asked.None? then (s, Err(InvalidArgument))
      else
        var r := EditInWorker(app, s, asked.value);
        match r.1
        case Err(code) => (if HalfEdited(code) then MarkLost(r.0) else r.0, Err(code))
        case Ok(pages) => (Changed(app, r.0, s.doc.history.Redo(), pages), Ok(()))
  }

  function ReplayEdits(app: App, s: State, edits: seq<Edit>, pages: seq<W.PageSize>)
    : (State, Result<seq<W.PageSize>, ErrorCode>)
    requires s.doc.history.Valid()
    decreases |edits|
  {
    if edits == [] then (s, Ok(pages))
    else
      match WorkerEditOf(s.doc.things, edits[0])
      case None => (s, Err(InvalidArgument))
      case Some(asked) =>
        var r := EditInWorker(app, s, asked);
        match r.1
        case Err(code) => (MarkLost(r.0), Err(code))
        case Ok(edited) =>
          OnlyHost(app, s, asked);
          ReplayEdits(app, r.0, edits[1..], edited)
  }

  /** Makes the edits of a journal on a document that has none, and makes them its history. */
  function Replay(app: App, s: State, edits: seq<Edit>): (State, Done)
    requires s.doc.history.Valid()
  {
    var expected := PagesAfterAll(edits, |s.doc.info.pages|, s.doc.info.permissions, NoSources);
    if expected.Err? then (s, Err(expected.error))
    else if |edits| > MAX_UNDO_EDITS then (s, Err(LimitExceeded))
    else
      var r := ReplayEdits(app, s, edits, s.doc.info.pages);
      match r.1
      case Err(code) => (r.0, Err(code))
      case Ok(pages) =>
        if |pages| != expected.value then (UnexpectedOn(r.0), Err(ProtocolViolation))
        else
          (r.0.(doc := ShowHistory(r.0.doc.(history := s.doc.history.PushAll(edits),
                                            info := r.0.doc.info.(pages := pages)))), Ok(()))
  }

  /** A request about the document changes nothing of it but how its worker is. */
  lemma OnlyHost(app: App, s: State, asked: WorkerEdit)
    requires s.doc.history.Valid()
    ensures EditInWorker(app, s, asked).0.doc
         == s.doc.(workerDoc := EditInWorker(app, s, asked).0.doc.workerDoc,
                   lost := EditInWorker(app, s, asked).0.doc.lost)
    ensures EditInWorker(app, s, asked).0 == s.(doc := EditInWorker(app, s, asked).0.doc,
                                                host := EditInWorker(app, s, asked).0.host)
  {
    LiveWorkerOnlyHost(app, s);
    var live := LiveWorker(app, s);
    hide LiveWorker, W.Edit, Settle;
    if live.1.Ok? {
      SettleOnlyHost(live.0, W.Edit(app.engine, live.0.host, live.1.value, asked));
    }
  }

  lemma SettleOnlyHost<T>(s: State, answered: (W.Host, W.Answer<T>))
    ensures var r := Settle(s, answered).0; r == s.(doc := s.doc.(lost := r.doc.lost), host := r.host)
  {
    hide W.Fatal, W.CodeOf;
    match answered.1
    case Expected(_) =>
    case Unexpected =>
    case Failed(_) =>
  }

  lemma LiveWorkerOnlyHost(app: App, s: State)
    requires s.doc.history.Valid()
    ensures LiveWorker(app, s).0.doc
         == s.doc.(workerDoc := LiveWorker(app, s).0.doc.workerDoc, lost := LiveWorker(app, s).0.doc.lost)
    ensures LiveWorker(app, s).0 == s.(doc := LiveWorker(app, s).0.doc, host := LiveWorker(app, s).0.host)
  {
    ReopenOnlyHost(app, s);
    hide Reopen;
  }

  lemma ReopenOnlyHost(app: App, s: State)
    requires s.doc.history.Valid()
    ensures Reopen(app, s).0
         == s.(doc := s.doc.(lost := Reopen(app, s).0.doc.lost), host := Reopen(app, s).0.host)
  {
    if s.doc.path in s.disk.files {
      var content := s.disk.files[s.doc.path].content;
      var answer := W.Open(app.engine, s.host, content, Option.None);
      if answer.1.Expected? {
        ReopenEditsOnlyHost(app, With(s, answer.0), answer.1.value, s.doc.history.Applied(), app.engine.pages(content));
      }
      hide ReopenEdits, W.Open;
    }
  }

  lemma {:induction false} ReopenEditsOnlyHost(app: App, s: State, id: nat, edits: seq<Edit>, pages: seq<W.PageSize>)
    ensures var r := ReopenEdits(app, s, id, edits, pages).0;
      r == s.(doc := s.doc.(lost := r.doc.lost), host := r.host) && (s.doc.lost ==> r.doc.lost)
    decreases |edits|
  {
    if edits != [] && WorkerEditOf(s.doc.things, edits[0]).Some? {
      var r := W.Edit(app.engine, s.host, id, WorkerEditOf(s.doc.things, edits[0]).value);
      if r.1.Expected? {
        ReopenEditsOnlyHost(app, With(s, r.0), id, edits[1..], r.1.value);
      }
    }
  }

  /** The body of the journal found; an empty one when none was. */
  function Left(s: State): J.Body
  {
    if s.doc.recovered.Some? then s.doc.recovered.value.body else J.Body([], map[], map[], 0)
  }

  function Restoring(s: State, body: J.Body): State
    requires s.doc.things.Valid()
  {
    s.(doc := s.doc.(things := s.doc.things.Restore(body.pictures, body.models)))
  }

  /** What was `recovered` is the `journal` from now on. */
  function TakenOver(s: State): State
  {
    s.(doc := s.doc.(
         journal := if s.doc.recovered.Some? then Some(s.doc.recovered.value.id) else s.doc.journal,
         recovered := Option.None,
         info := s.doc.info.(recovery := NoRecovery)))
  }

  predicate MayRecover(s: State)
  {
    (s.doc.info.recovery.Available? || s.doc.info.recovery.Partial?) && !s.doc.history.Unsaved()
  }

  function Recover(app: App, s: State): (State, Done)
    requires s.doc.history.Valid() && s.doc.things.Valid()
  {
    if !MayRecover(s) then (s, Err(InvalidArgument))
    else
      var r := Replay(app, Restoring(s, Left(s)), Left(s).edits);
      match r.1
      case Err(code) => (r.0, Err(code))
      case Ok(_) =>
        ReplayKeepsTheRest(app, Restoring(s, Left(s)), Left(s).edits);
        (Renumber(KeepJournal(app, TakenOver(r.0))), Ok(()))
  }

  lemma {:induction false} ReplayEditsOnlyHost(app: App, s: State, edits: seq<Edit>, pages: seq<W.PageSize>)
    requires s.doc.history.Valid()
    ensures var r := ReplayEdits(app, s, edits, pages).0;
      r == s.(doc := s.doc.(workerDoc := r.doc.workerDoc, lost := r.doc.lost), host := r.host)
    decreases |edits|
  {
    if edits != [] && WorkerEditOf(s.doc.things, edits[0]).Some? {
      var asked := WorkerEditOf(s.doc.things, edits[0]).value;
      OnlyHost(app, s, asked);
      var r := EditInWorker(app, s, asked);
      if r.1.Ok? {
        ReplayEditsOnlyHost(app, r.0, edits[1..], r.1.value);
      }
    }
  }

  lemma ReplayKeepsTheRest(app: App, s: State, edits: seq<Edit>)
    requires s.doc.history.Valid()
    ensures var r := Replay(app, s, edits);
      && r.0.doc.history.Valid()
      && r.0.disk == s.disk && r.0.folder == s.folder && r.0.nextId == s.nextId && r.0.inTab == s.inTab
      && (r.1.Err? ==> r.0.doc == s.doc.(workerDoc := r.0.doc.workerDoc, lost := r.0.doc.lost))
      && r.0.doc.things == s.doc.things && r.0.doc.identity == s.doc.identity && r.0.doc.recovered == s.doc.recovered
      && (r.1.Ok? ==> r.0.doc.history == s.doc.history.PushAll(edits))
  {
    hide *;
    var made := ReplayEdits(app, s, edits, s.doc.info.pages);
    ReplayEditsOnlyHost(app, s, edits, s.doc.info.pages);
    ReplayIs(app, s, edits);
    RestIsSame(s, made.0);
    if Replay(app, s, edits).1.Ok? { ShownIsSame(made.0, s.doc.history.PushAll(edits), made.1.value); }
  }

  /** Making a journal's edits: refused at once, given up on the way, or the history and the pages are theirs. */
  lemma ReplayIs(app: App, s: State, edits: seq<Edit>)
    requires s.doc.history.Valid()
    ensures var made := ReplayEdits(app, s, edits, s.doc.info.pages);
      var r := Replay(app, s, edits);
      && (r.1.Err? ==> r.0 == s || r.0 == made.0 || r.0 == UnexpectedOn(made.0))
      && (r.1.Ok? ==> made.1.Ok? && r.0 == Showing(made.0, s.doc.history.PushAll(edits), made.1.value))
  {
    hide ReplayEdits, PagesAfterAll, ShowHistory;
  }

  /** The document with another history and other pages, and what is told of them. */
  function Showing(s: State, history: Timeline, pages: seq<W.PageSize>): State
    requires history.Valid()
  {
    s.(doc := ShowHistory(s.doc.(history := history, info := s.doc.info.(pages := pages))))
  }

  lemma ShownIsSame(s: State, history: Timeline, pages: seq<W.PageSize>)
    requires history.Valid()
    ensures var t := Showing(s, history, pages);
      && t.disk == s.disk && t.folder == s.folder && t.nextId == s.nextId && t.inTab == s.inTab
      && t.doc.things == s.doc.things && t.doc.identity == s.doc.identity && t.doc.recovered == s.doc.recovered
      && t.doc.history == history
  {
    hide Flattened, Bookmarked;
  }

  lemma RestIsSame(s: State, t: State)
    requires t == s.(doc := s.doc.(workerDoc := t.doc.workerDoc, lost := t.doc.lost), host := t.host)
    ensures forall u :: u == s || u == t || u == UnexpectedOn(t) ==>
      && u.disk == s.disk && u.folder == s.folder && u.nextId == s.nextId && u.inTab == s.inTab
      && u.doc.things == s.doc.things && u.doc.identity == s.doc.identity && u.doc.recovered == s.doc.recovered
      && u.doc.history == s.doc.history && u.doc == s.doc.(workerDoc := u.doc.workerDoc, lost := u.doc.lost)
  {
  }

  function Discard(s: State): (State, Done)
  {
    match s.doc.recovered
    case None => (s, Err(InvalidArgument))
    case Some(found) =>
      (s.(doc := s.doc.(recovered := Option.None, info := s.doc.info.(recovery := NoRecovery)),
          folder := J.Remove(s.folder, found.id)), Ok(()))
  }

  /** What may go wrong around the temporary file next to a destination; the destination stays. */
  datatype WriteFaults = WriteFaults(create: Option<ErrorCode>, check: Option<ErrorCode>, replace: Option<ErrorCode>)

  /** `content` takes the place of the original of the worker's copy; without that the document is lost. */
  function Rebased(app: App, s: State, content: Content): State
  {
    var r := W.Rebase(app.engine, s.host, s.doc.workerDoc, content);
    if r.1.Expected? then With(s, r.0) else MarkLost(With(s, r.0))
  }

  predicate UnchangedOnDisk(s: State)
  {
    s.doc.identity.Some? && s.doc.identity == s.disk.Identity(s.doc.path)
  }

  /** Where a save goes: the document's own file unless the user chose another place. */
  function TargetOf(doc: Document, destination: Option<Place>): Place
  {
    if destination.Some? then destination.value else Place(doc.path, doc.spelling)
  }

  /** The work of a save; what is answered is in `Step`. */
  function Save(app: App, s: State, destination: Option<Place>, faults: WriteFaults): (State, Done)
    requires s.doc.history.Valid()
  {
    if destination.None? && !s.doc.history.Unsaved() then (s, Ok(()))
    else if destination.None? && !UnchangedOnDisk(s) then (s, Err(ChangedOnDisk))
    else
      var target := TargetOf(s.doc, destination);
      if !s.disk.Writable(target.path) then (s, Err(ReadOnly))
      else if faults.create.Some? then (s, Err(faults.create.value))
      else
        var live := LiveWorker(app, s);
        match live.1
        case Err(code) => (live.0, Err(code))
        case Ok(id) =>
          var r := Settle(live.0, W.Save(app.engine, live.0.host, id));
          match r.1
          case Err(code) => (r.0, Err(code))
          case Ok(content) =>
            if faults.check.Some? then (r.0, Err(faults.check.value))
            else if faults.replace.Some? then (r.0, Err(faults.replace.value))
            else (Written(app, r.0, target, content), Ok(()))
  }

  /** The document's file is `target` from now on: what becomes of a journal found for the one before. */
  function Answered(s: State, target: Place): State
  {
    // Places are compared as spelled: the own file spelled otherwise counts as another.
    var moved := target != Place(s.doc.path, s.doc.spelling);
    var recovery := if moved then NoRecovery else if s.doc.recovered.Some? then Stale else s.doc.info.recovery;
    s.(doc := s.doc.(path := target.path, spelling := target.spelling,
                     recovered := if moved then Option.None else s.doc.recovered,
                     info := s.doc.info.(recovery := recovery)),
       folder := if moved && s.doc.recovered.Some? then J.Release(s.folder, s.doc.recovered.value.id) else s.folder)
  }

  /** `content` is in the file at `path`, and that is what the document knows its file by. */
  function PutFile(s: State, path: Path, content: Content): State
  {
    var disk := s.disk.Put(path, content);
    s.(doc := s.doc.(identity := disk.Identity(path)), disk := disk)
  }

  /** Nothing of the document is unsaved, and no file is kept to take pages from. */
  function StartsOver(s: State): State
  {
    s.(doc := ShowHistory(s.doc.(
      formInFile := s.doc.info.hasForm,
      outlineInFile := s.doc.info.hasOutline,
      history := NOTHING,
      things := s.doc.things.(sources := s.doc.things.sources.(things := map[])))))
  }

  /** The document as it is once written to `target`, before its journal goes and its worker is told. */
  function WrittenDoc(s: State, target: Place, content: Content): State
  {
    StartsOver(Answered(PutFile(s, target.path, content), target))
  }

  /** The document was written to `target`, which is now its file. */
  function Written(app: App, s: State, target: Place, content: Content): State
  {
    Rebased(app, KeepJournal(app, WrittenDoc(s, target, content)), content)
  }

  /** Something is unsaved: applied edits, or edits that are offered and neither taken nor discarded. */
  predicate UnsavedAnywhere(doc: Document)
  {
    doc.history.Unsaved() || doc.info.recovery.Available? || doc.info.recovery.Partial?
  }

  /** The work of marking; what is answered is in `Step`. */
  function SetSensitive(app: App, s: State, sensitive: bool, drawn: nat, password: Option<W.Password>, faults: WriteFaults)
    : (State, Done)
    requires s.doc.history.Valid()
  {
    if s.doc.signed then (s, Err(Signed))
    else if sensitive == s.doc.identifier.Some? then (s, Err(InvalidArgument))
    else if UnsavedAnywhere(s.doc) then (s, Err(InvalidArgument))
    else if !UnchangedOnDisk(s) then (s, Err(ChangedOnDisk))
    else if !s.disk.Writable(s.doc.path) then (s, Err(ReadOnly))
    else if faults.create.Some? then (s, Err(faults.create.value))
    else
      var identifier := if sensitive then Some(drawn) else Option.None;
      var live := LiveWorker(app, s);
      match live.1
      case Err(code) => (live.0, Err(code))
      case Ok(id) =>
        var r := Settle(live.0, W.WriteIdentifier(app.engine, live.0.host, id, identifier));
        match r.1
        case Err(code) => (r.0, Err(code))
        case Ok(content) =>
          if faults.check.Some? then (r.0, Err(faults.check.value))
          else if faults.replace.Some? then (r.0, Err(faults.replace.value))
          else
            LiveWorkerOnlyHost(app, s);
            (Marked(app, r.0, identifier, password, content), Ok(()))
  }

  function MarkedDoc(s: State, identifier: Option<nat>, content: Content): State
  {
    var disk := s.disk.Put(s.doc.path, content);
    s.(doc := s.doc.(identity := disk.Identity(s.doc.path), identifier := identifier,
                     info := s.doc.info.(sensitive := identifier.Some?)),
       disk := disk)
  }

  /** The file was written with the mark, or without it: the worker opens the document from it. */
  function Marked(app: App, s: State, identifier: Option<nat>, password: Option<W.Password>, content: Content): State
    requires s.doc.history.Valid()
  {
    var s := Rebased(app, MarkedDoc(s, identifier, content), content);
    var s := if s.doc.lost then s else
      var r := RevertInWorker(app, s, [], password);
      if r.1.Err? then MarkLost(r.0) else r.0;
    Renumber(s)
  }

  // ----- things kept for edits to come

  /** A picture for a stamp (`prepare_stamp_image`). */
  function AddPicture(app: App, s: State, picture: Picture): (State, Done)
    requires s.doc.history.Valid() && s.doc.things.Valid()
  {
    if !s.doc.info.permissions.annotate then (s, Err(InvalidArgument))
    else
      var asked := W.Ask(app.engine, s.host);
      var s := With(s, asked.0);
      match asked.1
      case Failed(error) => (LostOn(s, error), Err(W.CodeOf(error)))
      case Unexpected => (s, Err(ProtocolViolation))
      case Expected(_) =>
        match s.doc.things.pictures.Add(picture, PicturesOf(s.doc.history.edits), MAX_PICTURES, (_, _) => true)
        case Err(code) => (s, Err(code))
        case Ok(added) => (s.(doc := s.doc.(things := s.doc.things.(pictures := added.0))), Ok(()))
  }

  /** Prepared words for a text box (`prepare_text_box`); `fits` bounds the bytes of them all. */
  function AddModel(app: App, s: State, model: Model, fits: (map<nat, Model>, Model) -> bool): (State, Done)
    requires s.doc.history.Valid() && s.doc.things.Valid()
  {
    if !s.doc.info.permissions.annotate then (s, Err(InvalidArgument))
    else
      var asked := W.Ask(app.engine, s.host);
      var s := With(s, asked.0);
      match asked.1
      case Failed(error) => (LostOn(s, error), Err(W.CodeOf(error)))
      case Unexpected => (s, Err(ProtocolViolation))
      case Expected(_) =>
        match s.doc.things.models.Add(model, ModelsOf(s.doc.history.edits), MAX_TEXT_BOX_MODELS, fits)
        case Err(code) => (s, Err(code))
        case Ok(added) => (s.(doc := s.doc.(things := s.doc.things.(models := added.0))), Ok(()))
  }

  /**
   * The requests for the text boxes of a file's pages (`prepare_inserted_text_boxes`): what fails is
   * left out, and one that loses the worker is the last. `most`: how many there are if none does.
   */
  function AskMore(app: App, s: State, most: nat): (t: State)
    ensures t == s.(doc := s.doc.(lost := t.doc.lost), host := t.host) && (s.doc.lost ==> t.doc.lost)
    ensures t.host.next == s.host.next
    decreases most
  {
    if most == 0 then s
    else
      var asked := W.Ask(app.engine, s.host);
      var s := With(s, asked.0);
      if asked.1.Failed? && W.Fatal(asked.1.error) then MarkLost(s) else AskMore(app, s, most - 1)
  }

  /**
   * A file to take pages from (`prepare_pages_source`); the worker says how many pages it has. A worker
   * lost over their text boxes is no failure of it.
   */
  function AddSource(app: App, s: State, bytes: Content, boxes: nat,
    fits: (map<nat, Source>, Source) -> bool): (State, Done)
    requires s.doc.history.Valid() && s.doc.things.Valid()
  {
    if !(s.doc.info.permissions.assemble || s.doc.info.permissions.change) then (s, Err(InvalidArgument))
    else
      var asked := W.Ask(app.engine, s.host);
      var s := With(s, asked.0);
      match asked.1
      case Failed(error) => (LostOn(s, error), Err(W.CodeOf(error)))
      case Unexpected => (s, Err(ProtocolViolation))
      case Expected(_) => Prepared(app, AskMore(app, s, boxes), bytes, fits)
  }

  /** The clean copy of the file is kept for edits to come, if there is room. */
  function Prepared(app: App, s: State, bytes: Content, fits: (map<nat, Source>, Source) -> bool): (State, Done)
    requires s.doc.things.Valid() && s.doc.history.Valid()
  {
    var source := Source(bytes, |app.engine.pages(bytes)|);
    match s.doc.things.sources.Add(source, SourcesOf(s.doc.history.edits), MAX_SOURCES, fits)
    case Err(code) => (s, Err(code))
    case Ok(added) => (s.(doc := s.doc.(things := s.doc.things.(sources := added.0))), Ok(()))
  }

  /** Any request that only reads the document. */
  function Read(app: App, s: State): (State, Done)
    requires s.doc.history.Valid()
  {
    var live := LiveWorker(app, s);
    match live.1
    case Err(code) => (live.0, Err(code))
    case Ok(_) => Settle(live.0, W.Ask(app.engine, live.0.host))
  }

  // ----- runs

  datatype Command =
    | DoApply(edit: Edit)
    | DoUndo(password: Option<W.Password>)
    | DoRedo
    | DoRecover
    | DoDiscard
    | DoSave(destination: Option<Place>, faults: WriteFaults)
    | DoSetSensitive(sensitive: bool, drawn: nat, key: Option<W.Password>, problems: WriteFaults)
    | DoAddPicture(picture: Picture)
    | DoAddModel(model: Model, room: (map<nat, Model>, Model) -> bool)
    | DoAddSource(bytes: Content, boxes: nat, space: (map<nat, Source>, Source) -> bool)
    | DoRead
    /** Another program, or another tab, writes or removes a file. */
    | FileChanges(path: Path, file: Option<(Content, bool)>)

  /** Opened with a password and lost with its worker: the next command, if not this one, makes its tab give it up. */
  predicate Gone(s: State) { s.doc.guarded && s.doc.lost }

  /** What a command does to a document that its tab has, and what it comes to. */
  function Work(app: App, s: State, command: Command): (State, Done)
    requires s.doc.history.Valid() && s.doc.things.Valid() && !command.FileChanges?
  {
    match command
    case DoApply(edit) => ApplyEdit(app, s, edit)
    case DoUndo(password) => Undo(app, s, password)
    case DoRedo => Redo(app, s)
    case DoRecover => Recover(app, s)
    case DoDiscard => Discard(s)
    case DoSave(destination, faults) => Save(app, s, destination, faults)
    case DoSetSensitive(sensitive, drawn, key, problems) => SetSensitive(app, s, sensitive, drawn, key, problems)
    case DoAddPicture(picture) => AddPicture(app, s, picture)
    case DoAddModel(model, room) => AddModel(app, s, model, room)
    case DoAddSource(bytes, boxes, space) => AddSource(app, s, bytes, boxes, space)
    case _ => Read(app, s)
  }

  /** The commands that answer with the document's state as it is after them (`change_document`). */
  predicate TellsState(command: Command)
  {
    command.DoApply? || command.DoUndo? || command.DoRedo? || command.DoRecover? || command.DoDiscard?
    || command.DoSave? || command.DoSetSensitive?
  }

  /** The tab gives up a document that is gone, which has no state to tell: an error, whatever the command did. */
  function Answer(command: Command, r: (State, Done)): (State, Done)
  {
    if !Gone(r.0) then r
    else (r.0.(inTab := false), if TellsState(command) && r.1.Ok? then Err(UnknownDocument) else r.1)
  }

  function Step(app: App, s: State, command: Command): (State, Done)
    requires s.doc.history.Valid() && s.doc.things.Valid()
  {
    match command
    case FileChanges(path, None) => (s.(disk := s.disk.(files := s.disk.files - {path})), Ok(()))
    case FileChanges(path, Some((content, readOnly))) =>
      (s.(disk := Disk(s.disk.files[path := File(content, s.disk.clock, readOnly)], s.disk.clock + 1)), Ok(()))
    case _ => if !s.inTab then (s, Err(UnknownDocument)) else Answer(command, Work(app, s, command))
  }
}
