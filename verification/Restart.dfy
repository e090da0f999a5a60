/**
 * Opening a file, with what an earlier run or a lost worker left for it
 * (src-tauri/src/documents.rs:288-426, 536-549, 2710-2740, 2894-2931), and what that gives back.
 */
module Restart {
  import opened Basics
  import opened Edits
  import opened Histories
  import opened Stores
  import opened Sessions
  import opened Invariant
  import opened SessionProofs
  import opened RecoveryProofs
  import W = Worker
  import J = Journals

  // ----- opening a file

  /** A file just opened; its path counts as spelled the way it was opened. */
  function DocumentOf(engine: W.Engine, number: nat, path: Path, workerDoc: nat, guarded: bool, file: File): Document
  {
    var c := file.content;
    var info := Info(number, engine.pages(c), engine.permissions(c), false, false, false,
                     engine.hasForm(c), engine.hasOutline(c), NoRecovery, engine.identifier(c).Some?);
    Document(info, path, 0, workerDoc, guarded, false, Some(file.stamp), NOTHING,
             engine.hasForm(c), engine.hasOutline(c), Option.None, Option.None, NO_THINGS,
             engine.isSigned(c), engine.identifier(c))
  }

  /** The journal found for a file just opened, and whether its own tab left it there. */
  function FindFor(app: App, s: State, released: Option<J.JournalId>): (J.Folder, Option<(J.Found, bool)>)
  {
    var taken := if released.Some?
      then J.Take(app.rules, s.folder, released.value, s.doc.path, s.doc.identity)
      else (s.folder, Option.None);
    match taken.1
    case Some(found) => (taken.0, Some((found, true)))
    case None =>
      var r := J.Find(app.rules, taken.0, s.doc.path, s.doc.identity);
      match r.1
      case Some(found) => (r.0, Some((found, false)))
      case None => (r.0, Option.None)
  }

  predicate Applicable(doc: Document, found: J.Found)
  {
    found.sameFile
    && PagesAfterAll(found.body.edits, |doc.info.pages|, doc.info.permissions, NoSources).Ok?
  }

  /** What the user is told of a journal that is offered. */
  function Verdict(applicable: bool, body: J.Body): Recovery
  {
    if !applicable then Stale
    else if body.lost == 0 then Available
    else if body.edits == [] then Lost
    else Partial
  }

  function Offer(s: State, found: J.Found): State
  {
    s.(doc := s.doc.(recovered := Some(found),
                     info := s.doc.info.(recovery := Verdict(Applicable(s.doc, found), found.body))))
  }

  /** The edits of a document lost with its password are made again at once; others are offered. */
  function RecoverOnOpen(app: App, s: State, released: Option<J.JournalId>): State
    requires s.doc.history.Valid() && s.doc.things.Valid()
  {
    var looked := FindFor(app, s, released);
    var s := s.(folder := looked.0);
    match looked.1
    case None => s
    case Some((found, own)) =>
      if own && Applicable(s.doc, found) && found.body.lost == 0 then
        var restored := s.(doc := s.doc.(things := s.doc.things.Restore(found.body.pictures, found.body.models)));
        var r := Replay(app, restored, found.body.edits);
        if r.1.Ok? then
          ReplayKeepsTheRest(app, restored, found.body.edits);
          KeepJournal(app, r.0.(doc := r.0.doc.(journal := Some(found.id))))
        else Offer(r.0, found)
      else Offer(s, found)
  }

  /** `luck`: where what happens to the new worker's requests is read from. */
  function OpenFile(app: App, disk: Disk, folder: J.Folder, nextId: nat, luck: nat,
    path: Path, password: Option<W.Password>, released: Option<J.JournalId>): Result<State, ErrorCode>
  {
    if path !in disk.files then Err(ErrorCode.Unreadable)
    else
      var file := disk.files[path];
      var answer := W.Open(app.engine, W.NewHost(luck), file.content, password);
      match answer.1
      case Failed(error) => Err(W.CodeOf(error))
      case Unexpected => Err(ProtocolViolation)
      case Expected(id) =>
        var doc := DocumentOf(app.engine, nextId, path, id, password.Some?, file);
        Ok(RecoverOnOpen(app, State(doc, answer.0, disk, folder, nextId + 1, true), released))
  }

  /** A document whose edits are only named by a journal is in order with what it was read from. */
  predicate StampsOk(disk: Disk)
  {
    forall path :: path in disk.files ==> disk.files[path].stamp < disk.clock
  }

  lemma FreshKeeps(app: App, s: State)
    requires s.doc.path in s.disk.files && StampsOk(s.disk)
    requires s.doc == DocumentOf(app.engine, s.doc.info.doc, s.doc.path, s.doc.workerDoc, s.doc.guarded, s.disk.files[s.doc.path])
    requires s.doc.info.doc < s.nextId && s.host.Valid()
    requires W.ValidPages(app.engine.pages(s.disk.files[s.doc.path].content))
    requires s.doc.workerDoc in s.host.copies
    requires var c := s.disk.files[s.doc.path].content; s.host.copies[s.doc.workerDoc] == W.Copy(c, c)
    ensures Inv(app, s, Origin(s.disk.files[s.doc.path].content, true))
  {
  }

  /** A journal that was found: in use, still in its file, and good. */
  ghost predicate IsHeld(app: App, folder: J.Folder, found: J.Found)
  {
    && found.id in folder.inUse && J.Readable(app.rules, found.body)
    && found.id in folder.stored && folder.stored[found.id].body == found.body
  }

  lemma OfferKeeps(app: App, s: State, found: J.Found, origin: Origin)
    requires Inv(app, s, origin) && s.doc.recovered.None? && s.doc.journal.None?
    requires IsHeld(app, s.folder, found)
    ensures Inv(app, Offer(s, found), origin)
  {
    var t := Offer(s, found);
    hide Inv, Agrees;
    assert t.doc.info == s.doc.info.(recovery := t.doc.info.recovery);
    AgreesElsewhere(app, s, t, origin);
    InvOf(app, t, origin);
  }

  lemma FindForFacts(app: App, s: State, released: Option<J.JournalId>)
    ensures var r := FindFor(app, s, released);
      && r.0 == s.folder.(inUse := r.0.inUse) && s.folder.inUse <= r.0.inUse
      && (r.1.Some? ==> IsHeld(app, r.0, r.1.value.0))
  {
  }

  lemma FolderKeeps(app: App, s: State, inUse: set<J.JournalId>, origin: Origin)
    requires Inv(app, s, origin) && s.folder.inUse <= inUse
    requires s.doc.recovered.None? && s.doc.journal.None?
    ensures Inv(app, s.(folder := s.folder.(inUse := inUse)), origin)
  {
  }

  lemma RecoverOnOpenKeeps(app: App, s: State, origin: Origin, released: Option<J.JournalId>)
    requires AppOk(app) && Inv(app, s, origin) && !s.doc.lost
    requires s.doc.history == NOTHING && s.doc.recovered.None? && s.doc.journal.None?
    ensures Inv(app, RecoverOnOpen(app, s, released), origin)
  {
    var looked := FindFor(app, s, released);
    FindForFacts(app, s, released);
    FolderKeeps(app, s, looked.0.inUse, origin);
    var t := s.(folder := looked.0);
    hide Inv, Agrees, JournalOk, FindFor, Replay, AppOk;
    if looked.1.Some? {
      var found := looked.1.value.0;
      if looked.1.value.1 && Applicable(t.doc, found) && found.body.lost == 0 {
        OwnKeeps(app, t, found, origin);
      } else {
        OfferKeeps(app, t, found, origin);
      }
    }
  }

  lemma OwnKeeps(app: App, t: State, found: J.Found, origin: Origin)
    requires AppOk(app) && Inv(app, t, origin) && !t.doc.lost
    requires t.doc.history == NOTHING && t.doc.recovered.None? && t.doc.journal.None?
    requires IsHeld(app, t.folder, found) && found.body.lost == 0
    ensures var restored := Keeping(t, t.doc.things.Restore(found.body.pictures, found.body.models));
      var r := Replay(app, restored, found.body.edits);
      && r.0.doc.history.Valid()
      && (r.1.Err? ==> Inv(app, Offer(r.0, found), origin))
      && (r.1.Ok? ==> Inv(app, KeepJournal(app, r.0.(doc := r.0.doc.(journal := Some(found.id)))), origin))
  {
    var body := found.body;
    var restored := Keeping(t, t.doc.things.Restore(body.pictures, body.models));
    RestoreKeeps(app, t, origin, body);
    RestoredNames(app, t.doc.things, body);
    hide Inv, Agrees, JournalOk, AppOk, KeepJournal;
    ReplayKeeps(app, restored, origin, body.edits);
    NotLostOrigin(app, restored, origin);
    ReplayKeepsTheRest(app, restored, body.edits);
    ReplayDoc(app, restored, body.edits);
    hide Replay;
    var r := Replay(app, restored, body.edits);
    if r.1.Err? {
      OfferKeeps(app, r.0, found, origin);
    } else {
      var kept := r.0.(doc := r.0.doc.(journal := Some(found.id)));
      AgreesElsewhere(app, r.0, kept, origin);
      KeepJournalKeeps(app, kept, origin);
      InvOf(app, KeepJournal(app, kept), origin);
    }
  }

  /** Making a journal's edits leaves the document's journals and its number as they are. */
  lemma ReplayDoc(app: App, s: State, edits: seq<Edit>)
    requires s.doc.history.Valid()
    ensures var t := Replay(app, s, edits).0;
      && t.doc.recovered == s.doc.recovered && t.doc.journal == s.doc.journal
      && t.doc.info.recovery == s.doc.info.recovery && t.doc.info.doc == s.doc.info.doc
      && t.doc.path == s.doc.path && t.doc.identity == s.doc.identity && t.doc.guarded == s.doc.guarded
      && t.doc.info.permissions == s.doc.info.permissions
      && t.doc.things == s.doc.things && t.disk == s.disk && t.folder == s.folder && t.nextId == s.nextId
      && t.inTab == s.inTab
  {
    if |edits| <= MAX_UNDO_EDITS {
      ReplayEditsOnlyHost(app, s, edits, s.doc.info.pages);
    }
  }

  /** A file that opens is in order from the start, whatever was left for it. */
  lemma OpenFileKeeps(app: App, disk: Disk, folder: J.Folder, nextId: nat, luck: nat,
    path: Path, password: Option<W.Password>, released: Option<J.JournalId>)
    requires AppOk(app) && StampsOk(disk)
    requires OpenFile(app, disk, folder, nextId, luck, path, password, released).Ok?
    ensures path in disk.files
    ensures Inv(app, OpenFile(app, disk, folder, nextId, luck, path, password, released).value,
                Origin(disk.files[path].content, true))
  {
    var file := disk.files[path];
    var answer := W.Open(app.engine, W.NewHost(luck), file.content, password);
    var doc := DocumentOf(app.engine, nextId, path, answer.1.value, password.Some?, file);
    var s := State(doc, answer.0, disk, folder, nextId + 1, true);
    FreshKeeps(app, s);
    hide Inv, AppOk;
    RecoverOnOpenKeeps(app, s, Origin(file.content, true), released);
  }
}
