/**
 * What comes back after the app died: the file opens, its journal is judged by the edits it kept,
 * recovering makes them again, and undoing them gives the file back
 * (src-tauri/src/documents.rs:745-786, 2858-2931, 3193-3249).
 */
module ComingBack {
  import opened Basics
  import opened Edits
  import opened Histories
  import opened Stores
  import opened Sessions
  import opened Invariant
  import opened SessionProofs
  import opened SavingProofs
  import opened RecoveryProofs
  import opened Restart
  import W = Worker
  import J = Journals

  /** Nothing goes wrong with the worker from its `from`th request on. */
  ghost predicate Willing(engine: W.Engine, from: nat)
  {
    forall n: nat :: n >= from ==> engine.fault(n).Fine?
  }

  // ----- which journals can be read again

  lemma {:induction false} ModelsCount(edits: seq<Edit>)
    ensures |ModelsOf(edits)| <= |edits|
    decreases |edits|
  {
    if edits == [] {
      assert ModelsOf(edits) == {};
    } else {
      var k := |edits| - 1;
      ModelsCount(edits[..k]);
      PrefixNames(edits, k);
      assert ModelsOf(edits) == ModelsOf(edits[..k]) + ModelOf(edits[k]) by {
        forall id | id in ModelsOf(edits) ensures id in ModelsOf(edits[..k]) + ModelOf(edits[k]) {
          var i :| 0 <= i < |edits| && id in ModelOf(edits[i]);
          if i < k { assert edits[..k][i] == edits[i]; }
        }
      }
    }
  }

  /**
   * The journal of a document in order can be read back exactly when it is not too large and does
   * not hold more pictures than a document is given: recovering may have brought more.
   */
  lemma JournalIsReadable(app: App, s: State, origin: Origin)
    requires Inv(app, s, origin) && s.doc.history.Applied() != []
    ensures var body := J.BodyOf(s.doc.things, s.doc.history.Applied());
      J.Readable(app.rules, body) <==> app.rules.fits(body) && |body.pictures| <= MAX_PICTURES
  {
    var applied := s.doc.history.Applied();
    var kept := JournalledOf(applied).kept;
    NamesOfInv(app, s, origin);
    assert kept == applied[..|kept|] == s.doc.history.edits[..|kept|];
    PrefixNames(s.doc.history.edits, |kept|);
    ModelsCount(kept);
    SubsetCount(s.doc.things.models.UsedBy(ModelsOf(kept)).Keys, ModelsOf(kept));
    HistoryOfInv(app, s, origin);
  }

  lemma HistoryOfInv(app: App, s: State, origin: Origin)
    requires Inv(app, s, origin)
    ensures HistoryOk(s.doc) && PagesOk(app, s.doc, origin.base)
  {
  }

  // ----- a willing worker

  /** A worker that makes an edit it can make says so. */
  lemma WillingEdit(app: App, t: State, base: Content, made: seq<Edit>, edit: Edit, pages: seq<W.PageSize>)
    requires t.doc.history.Valid() && HasReplayed(app, t, base, made, pages) && Willing(app.engine, t.host.sent)
    requires W.Replayed(app.engine, t.doc.things, base, made + [edit]).Some?
    ensures WorkerEditOf(t.doc.things, edit).Some?
    ensures var r := EditInWorker(app, t, WorkerEditOf(t.doc.things, edit).value);
      r.1.Ok? && Willing(app.engine, r.0.host.sent)
  {
  }

  /** The first edit of a list is made, and there are the others left to make. */
  lemma {:induction false} WillingFirst(app: App, t: State, base: Content, made: seq<Edit>, edits: seq<Edit>, pages: seq<W.PageSize>)
    requires t.doc.history.Valid() && HasReplayed(app, t, base, made, pages) && Willing(app.engine, t.host.sent)
    requires edits != [] && W.Replayed(app.engine, t.doc.things, base, made + edits).Some?
    ensures WorkerEditOf(t.doc.things, edits[0]).Some?
    ensures var r := EditInWorker(app, t, WorkerEditOf(t.doc.things, edits[0]).value);
      && r.1.Ok? && SameButWorker(t, r.0) && r.0.doc.history.Valid() && r.0.doc.things == t.doc.things
      && HasReplayed(app, r.0, base, made + [edits[0]], r.1.value) && Willing(app.engine, r.0.host.sent)
      && ReplayEdits(app, t, edits, pages) == ReplayEdits(app, r.0, edits[1..], r.1.value)
  {
    var more := made + [edits[0]];
    W.ReplayedPrefix(app.engine, t.doc.things, base, made + edits, |more|);
    assert (made + edits)[..|more|] == more;
    hide HasReplayed, W.Replayed, Willing, EditInWorker;
    WillingEdit(app, t, base, made, edits[0], pages);
    ReplayOneMore(app, t, base, made, edits[0], pages);
  }

  lemma {:induction false} WillingReplay(app: App, t: State, base: Content, made: seq<Edit>, edits: seq<Edit>, pages: seq<W.PageSize>)
    requires t.doc.history.Valid() && HasReplayed(app, t, base, made, pages) && Willing(app.engine, t.host.sent)
    requires W.Replayed(app.engine, t.doc.things, base, made + edits).Some?
    ensures var r := ReplayEdits(app, t, edits, pages);
      && r.1.Ok? && SameButWorker(t, r.0)
      && HasReplayed(app, r.0, base, made + edits, r.1.value) && Willing(app.engine, r.0.host.sent)
    decreases |edits|
  {
    hide *;
    if edits == [] {
      assert made + edits == made;
      NoneReplayed(app, t, pages);
    } else {
      WillingFirst(app, t, base, made, edits, pages);
      var r := EditInWorker(app, t, WorkerEditOf(t.doc.things, edits[0]).value);
      assert made + [edits[0]] + edits[1..] == made + edits;
      WillingReplay(app, r.0, base, made + [edits[0]], edits[1..], r.1.value);
      SameAgain(t, r.0, ReplayEdits(app, t, edits, pages).0);
    }
  }

  // ----- the app dies

  /** What is left of the journals when the app dies: the files; nothing is in use any more. */
  function AfterCrash(folder: J.Folder): J.Folder { J.Folder(folder.stored, {}) }

  /** A document just opened by a worker that does what it is asked. */
  function Fresh(app: App, disk: Disk, folder: J.Folder, nextId: nat, luck: nat, path: Path, guarded: bool): State
    requires path in disk.files
  {
    var c := disk.files[path].content;
    State(DocumentOf(app.engine, nextId, path, 1, guarded, disk.files[path]),
          W.Host(map[1 := W.Copy(c, c)], 2, luck + 1), disk, folder, nextId + 1, true)
  }

  lemma OpensAgain(app: App, disk: Disk, folder: J.Folder, nextId: nat, luck: nat, path: Path,
    password: Option<W.Password>, released: Option<J.JournalId>)
    requires path in disk.files && Willing(app.engine, luck)
    requires W.Unlocks(app.engine, disk.files[path].content, password)
    requires W.ValidPages(app.engine.pages(disk.files[path].content))
    ensures OpenFile(app, disk, folder, nextId, luck, path, password, released)
         == Ok(RecoverOnOpen(app, Fresh(app, disk, folder, nextId, luck, path, password.Some?), released))
  {
  }

  /** What the journal of a document in order says, and what its edits make of the document's file. */
  lemma KeptMakes(app: App, s: State, origin: Origin)
    requires Inv(app, s, origin) && origin.steady && Faithful(app.engine)
    ensures var kept := JournalledOf(s.doc.history.Applied()).kept;
      var made := W.Replayed(app.engine, s.doc.things, origin.base, kept);
      && made.Some?
      && PagesAfterAll(kept, |app.engine.pages(origin.base)|, app.engine.permissions(origin.base), NoSources)
         == Ok(|app.engine.pages(made.value)|)
  {
    var applied := s.doc.history.Applied();
    var kept := JournalledOf(applied).kept;
    assert kept == applied[..|kept|] == s.doc.history.edits[..|kept|];
    KnownOfInv(app, s, origin);
    assert PrefixForeseen(app, s.doc, origin.base, s.doc.history.edits, |kept|);
    NoSourcesNeeded(kept, |app.engine.pages(origin.base)|, s.doc.info.permissions, s.doc.things);
  }

  lemma KnownOfInv(app: App, s: State, origin: Origin)
    requires Inv(app, s, origin) && origin.steady && Faithful(app.engine)
    ensures Known(app, s.doc, origin.base)
  {
  }

  /** The journal of a document, as the next opening of its file finds it. */
  function OwnJournal(s: State): J.Found
    requires s.doc.history.Valid() && s.doc.journal.Some?
  {
    J.Found(s.doc.journal.value, J.BodyOf(s.doc.things, s.doc.history.Applied()), true)
  }

  /** The file is as the document knows it, and something is unsaved. */
  ghost predicate CanComeBack(app: App, s: State, origin: Origin)
  {
    && Inv(app, s, origin) && origin.steady && Faithful(app.engine)
    && UnchangedOnDisk(s)
    && s.doc.history.Applied() != []
  }

  lemma StoredJournal(app: App, s: State, origin: Origin)
    requires CanComeBack(app, s, origin)
    ensures s.doc.journal.Some? && s.doc.identity.Some?
    ensures app.rules.fits(OwnJournal(s).body) ==>
      && s.doc.journal.value in s.folder.stored
      && s.folder.stored[s.doc.journal.value] == J.Stored(s.doc.path, s.doc.identity.value, OwnJournal(s).body)
    ensures s.doc.path in s.disk.files && s.disk.files[s.doc.path].content == origin.base
    ensures s.disk.Identity(s.doc.path) == s.doc.identity && StampsOk(s.disk)
    ensures W.ValidPages(app.engine.pages(origin.base))
  {
  }

  /**
   * Opening the file finds the journal of a document whose app died, saying what was done to it,
   * exactly when that can be read back and no other journal comes first.
   */
  lemma FindsOwn(app: App, s: State, origin: Origin)
    requires CanComeBack(app, s, origin)
    ensures s.doc.journal.Some?
    ensures var before := J.Before(s.folder.stored.Keys, s.doc.journal.value);
      J.Find(app.rules, AfterCrash(s.folder), s.doc.path, s.doc.identity).1 == Some(OwnJournal(s))
      <==> && app.rules.fits(OwnJournal(s).body) && |OwnJournal(s).body.pictures| <= MAX_PICTURES
           && (forall other :: other in before ==> !J.Takeable(app.rules, AfterCrash(s.folder), other, s.doc.path))
           && |before| < J.MAX_JOURNALS
  {
    StoredJournal(app, s, origin);
    JournalIsReadable(app, s, origin);
    var found := J.Find(app.rules, AfterCrash(s.folder), s.doc.path, s.doc.identity).1;
    if s.doc.journal.value in s.folder.stored {
      J.FoundExactlyWhen(app.rules, AfterCrash(s.folder), s.folder.stored.Keys, J.MAX_JOURNALS,
                         s.doc.path, s.doc.identity, s.doc.journal.value);
    }
    hide J.Readable, J.BodyOf, CanComeBack;
    if found.Some? { FoundIsGood(app, AfterCrash(s.folder), s.doc.path, s.doc.identity); }
  }

  /** What is found is a journal that can be read, for that file. */
  lemma FoundIsGood(app: App, folder: J.Folder, path: Path, now: Option<nat>)
    requires J.Find(app.rules, folder, path, now).1.Some?
    ensures var found := J.Find(app.rules, folder, path, now).1.value;
      && found.id in folder.stored && J.Readable(app.rules, found.body)
      && found == J.Found(found.id, folder.stored[found.id].body, now == Some(folder.stored[found.id].stamp))
  {
    hide J.Readable;
  }

  /** The verdict on the journal follows from where the first edit that takes another file's pages is. */
  lemma Judged(app: App, s: State, origin: Origin, opening: State)
    requires CanComeBack(app, s, origin)
    requires opening.doc.info.pages == app.engine.pages(origin.base)
    requires opening.doc.info.permissions == app.engine.permissions(origin.base)
    ensures s.doc.journal.Some? && Applicable(opening.doc, OwnJournal(s))
    ensures var applied := s.doc.history.Applied();
      var verdict := Verdict(true, OwnJournal(s).body);
      && (verdict.Available? <==> forall i :: 0 <= i < |applied| ==> !applied[i].InsertPages?)
      && (verdict.Lost? <==> applied[0].InsertPages?)
      && (verdict.Partial? <==> !applied[0].InsertPages? && exists i :: 0 <= i < |applied| && applied[i].InsertPages?)
  {
    StoredJournal(app, s, origin);
    KeptMakes(app, s, origin);
  }

  // ----- recovering

  /** Restored into a document that keeps nothing, a journal's edits mean what they did. */
  lemma RestoredMeansTheSame(things: Things, kept: seq<Edit>)
    requires things.Names(kept) && forall i :: 0 <= i < |kept| ==> !kept[i].InsertPages?
    ensures NO_THINGS.Restore(things.pictures.UsedBy(PicturesOf(kept)), things.models.UsedBy(ModelsOf(kept))).SameFor(things, kept)
  {
  }

  /** Making edits on a document just opened, when they can be made and are foreseen. */
  lemma WillingReplayAll(app: App, t: State, base: Content, edits: seq<Edit>)
    requires t.doc.history == NOTHING && HasReplayed(app, t, base, [], t.doc.info.pages) && Willing(app.engine, t.host.sent)
    requires |edits| <= MAX_UNDO_EDITS
    requires var made := W.Replayed(app.engine, t.doc.things, base, edits);
      made.Some?
      && PagesAfterAll(edits, |t.doc.info.pages|, t.doc.info.permissions, NoSources) == Ok(|app.engine.pages(made.value)|)
    ensures var r := Replay(app, t, edits);
      && r.1.Ok? && r.0.doc.history.Applied() == edits && r.0.doc.history.Undone() == []
      && !r.0.doc.lost && r.0.doc.workerDoc in r.0.host.copies
      && r.0.host.copies[r.0.doc.workerDoc] == W.Copy(W.Replayed(app.engine, t.doc.things, base, edits).value, base)
      && Willing(app.engine, r.0.host.sent)
  {
    assert [] + edits == edits;
    WillingReplay(app, t, base, [], edits, t.doc.info.pages);
    hide ReplayEdits, W.Replayed, PagesAfterAll;
    PushAllShape(edits);
  }

  lemma PushAllShape(edits: seq<Edit>)
    ensures NOTHING.PushAll(edits).Applied() == edits && NOTHING.PushAll(edits).Undone() == []
  {
  }

  /** Where the opened document is, once its journal is offered. */
  ghost predicate OfferedOwn(app: App, s: State, origin: Origin, t: State)
    requires s.doc.history.Valid() && s.doc.journal.Some?
  {
    && Inv(app, t, Origin(origin.base, true))
    && t.doc.history == NOTHING && t.doc.things == NO_THINGS && !t.doc.lost
    && t.doc.recovered == Some(OwnJournal(s))
    && t.doc.info.recovery == Verdict(true, OwnJournal(s).body)
    && t.doc.info.pages == app.engine.pages(origin.base)
    && t.doc.info.permissions == app.engine.permissions(origin.base)
    && t.doc.path == s.doc.path && t.doc.identity == s.doc.identity && t.disk == s.disk
    && t.doc.workerDoc in t.host.copies && t.host.copies[t.doc.workerDoc] == W.Copy(origin.base, origin.base)
    && Willing(app.engine, t.host.sent)
  }

  /** The app died with `s`; the file is opened again and its own journal is what is found. */
  lemma OfferedAgain(app: App, s: State, origin: Origin, nextId: nat, luck: nat, password: Option<W.Password>)
    requires AppOk(app) && CanComeBack(app, s, origin)
    requires Willing(app.engine, luck) && W.Unlocks(app.engine, origin.base, password)
    requires s.doc.journal.Some?
    requires J.Find(app.rules, AfterCrash(s.folder), s.doc.path, s.doc.identity).1 == Some(OwnJournal(s))
    ensures var r := OpenFile(app, s.disk, AfterCrash(s.folder), nextId, luck, s.doc.path, password, Option.None);
      r.Ok? && OfferedOwn(app, s, origin, r.value) && r.value.doc.guarded == password.Some?
  {
    hide Inv, AppOk, J.Find, PagesAfterAll, CanComeBack, OpenFile, J.BodyOf, J.Readable, W.Unlocks;
    StoredJournal(app, s, origin);
    OpensAgain(app, s.disk, AfterCrash(s.folder), nextId, luck, s.doc.path, password, Option.None);
    var opening := Fresh(app, s.disk, AfterCrash(s.folder), nextId, luck, s.doc.path, password.Some?);
    Judged(app, s, origin, opening);
    OpenFileKeeps(app, s.disk, AfterCrash(s.folder), nextId, luck, s.doc.path, password, Option.None);
  }

  /** The journal's edits, restored into a document just opened, make what they made before. */
  lemma AgainMakes(app: App, s: State, origin: Origin, again: State)
    requires CanComeBack(app, s, origin)
    requires var kept := JournalledOf(s.doc.history.Applied()).kept;
      again.doc.things == NO_THINGS.Restore(s.doc.things.pictures.UsedBy(PicturesOf(kept)), s.doc.things.models.UsedBy(ModelsOf(kept)))
    requires again.doc.info.pages == app.engine.pages(origin.base)
    requires again.doc.info.permissions == app.engine.permissions(origin.base)
    ensures var kept := JournalledOf(s.doc.history.Applied()).kept;
      var made := W.Replayed(app.engine, again.doc.things, origin.base, kept);
      && made.Some? && made == W.Replayed(app.engine, s.doc.things, origin.base, kept)
      && |kept| <= MAX_UNDO_EDITS
      && PagesAfterAll(kept, |again.doc.info.pages|, again.doc.info.permissions, NoSources)
         == Ok(|app.engine.pages(made.value)|)
  {
    var kept := JournalledOf(s.doc.history.Applied()).kept;
    NamesOfInv(app, s, origin);
    HistoryOfInv(app, s, origin);
    assert kept == s.doc.history.edits[..|kept|];
    PrefixNames(s.doc.history.edits, |kept|);
    KeptMakes(app, s, origin);
    hide Inv, Agrees, JournalOk, W.Replayed, PagesAfterAll;
    RestoredMeansTheSame(s.doc.things, kept);
    W.ReplayedSameThings(app.engine, again.doc.things, s.doc.things, origin.base, kept);
  }

  /** What recovering comes to once the journal's edits were made. */
  lemma RecoverTakesOver(app: App, t: State, edits: seq<Edit>)
    requires t.doc.history == NOTHING && t.doc.things.Valid() && t.doc.recovered.Some? && Offered(t.doc)
    requires edits == t.doc.recovered.value.body.edits && edits != []
    requires var r := Replay(app, Restored(t), edits); r.1.Ok? && r.0.doc.history.Applied() == edits
    ensures var replayed := Replay(app, Restored(t), edits).0;
      var r := Recover(app, t);
      && r.1.Ok? && r.0.doc.history == replayed.doc.history
      && r.0.host == replayed.host && r.0.doc.lost == replayed.doc.lost && r.0.doc.workerDoc == replayed.doc.workerDoc
      && r.0.doc.journal == Some(t.doc.recovered.value.id) && r.0.doc.recovered.None? && r.0.disk == t.disk
      && r.0.doc.guarded == t.doc.guarded && r.0.doc.things == Restored(t).doc.things
      && r.0.doc.info.permissions == t.doc.info.permissions && r.0.doc.identity == t.doc.identity && r.0.inTab == t.inTab
  {
    RecoverUnfolds(app, t);
    ReplayDoc(app, Restored(t), edits);
    hide Recover, Replay, Restored;
  }

  /**
   * The crash recovery round trip. The app died with unsaved edits and the file is opened again,
   * unchanged: recovering makes exactly the edits before the first that took another file's pages,
   * they are the history, and the journal they came from is the document's own again.
   */
  lemma RecoverBringsBack(app: App, s: State, origin: Origin, t: State)
    requires AppOk(app) && CanComeBack(app, s, origin)
    requires s.doc.journal.Some? && OfferedOwn(app, s, origin, t)
    requires JournalledOf(s.doc.history.Applied()).kept != []
    ensures t.doc.things.Valid()
    ensures var kept := JournalledOf(s.doc.history.Applied()).kept;
      var r := Recover(app, t);
      && r.1.Ok? && Inv(app, r.0, Origin(origin.base, true))
      && r.0.doc.history.Applied() == kept && r.0.doc.history.Undone() == []
      && !r.0.doc.lost && r.0.doc.workerDoc in r.0.host.copies
      && Some(r.0.host.copies[r.0.doc.workerDoc].now) == W.Replayed(app.engine, s.doc.things, origin.base, kept)
      && r.0.doc.journal == s.doc.journal && r.0.doc.recovered.None?
      && r.0.disk == s.disk && r.0.doc.guarded == t.doc.guarded && Willing(app.engine, r.0.host.sent)
  {
    var kept := JournalledOf(s.doc.history.Applied()).kept;
    AgainMakes(app, s, origin, Restored(t));
    hide Inv, Agrees, JournalOk, W.Replayed, PagesAfterAll, CanComeBack, Recover, Replay, AppOk;
    assert HasReplayed(app, Restored(t), origin.base, [], t.doc.info.pages) by { OfferedCopy(app, s, origin, t); }
    WillingReplayAll(app, Restored(t), origin.base, kept);
    RecoverTakesOver(app, t, kept);
    RecoverKeeps(app, t, Origin(origin.base, true));
  }

  lemma OfferedCopy(app: App, s: State, origin: Origin, t: State)
    requires s.doc.history.Valid() && s.doc.journal.Some? && OfferedOwn(app, s, origin, t)
    ensures HasReplayed(app, Restored(t), origin.base, [], t.doc.info.pages)
  {
  }

  // ----- undoing all of it

  function UndoAll(app: App, s: State, n: nat, password: Option<W.Password>): State
    requires s.doc.history.Valid()
    decreases n
  {
    if n == 0 then s
    else
      var t := Undo(app, s, password).0;
      if t.doc.history.Valid() then UndoAll(app, t, n - 1, password) else t
  }

  /** A worker that has the document and does what it is asked undoes the last edit. */
  lemma WillingUndo(app: App, s: State, origin: Origin, password: Option<W.Password>)
    requires Inv(app, s, origin) && !s.doc.lost && s.doc.history.applied > 0 && Willing(app.engine, s.host.sent)
    requires s.doc.guarded ==> password.Some?
    requires W.Unlocks(app.engine, origin.base, if s.doc.guarded then password else Option.None)
    ensures var r := Undo(app, s, password);
      && r.1.Ok? && !r.0.doc.lost && r.0.doc.guarded == s.doc.guarded && r.0.disk == s.disk
      && r.0.doc.history == s.doc.history.Undo() && Willing(app.engine, r.0.host.sent)
  {
    var given := if s.doc.guarded then password else Option.None;
    var before := s.doc.history.Undo().Applied();
    var applied := s.doc.history.Applied();
    assert before == applied[..|before|];
    HistoryOfInv(app, s, origin);
    CopyIsMeant(app, s, origin);
    hide Inv, Agrees, JournalOk;
    W.ReplayedPrefix(app.engine, s.doc.things, origin.base, applied, |before|);
    W.RevertReplays(app.engine, s.doc.things, origin.base, before);
    WillingRevert(app, s, origin.base, before, given);
    hide RevertInWorker;
    var r := RevertInWorker(app, s, W.WorkerEditsOf(s.doc.things, before).value, given);
    UndoneShape(app, r.0, s.doc.history.Undo(), r.1.value);
  }

  lemma WillingRevert(app: App, s: State, base: Content, edits: seq<Edit>, password: Option<W.Password>)
    requires s.doc.history.Valid() && !s.doc.lost && Willing(app.engine, s.host.sent)
    requires s.doc.workerDoc in s.host.copies && s.host.copies[s.doc.workerDoc].original == base
    requires W.WorkerEditsOf(s.doc.things, edits).Some? && W.Unlocks(app.engine, base, password)
    requires var made := W.ApplyAll(app.engine, base, W.WorkerEditsOf(s.doc.things, edits).value);
      made.Some? && W.ValidPages(app.engine.pages(made.value))
    ensures var r := RevertInWorker(app, s, W.WorkerEditsOf(s.doc.things, edits).value, password);
      && r.1.Ok? && !r.0.doc.lost && SameButWorker(s, r.0) && r.0.host.sent == s.host.sent + 1
  {
  }

  lemma UndoneShape(app: App, s: State, history: Timeline, pages: seq<W.PageSize>)
    requires history.Valid()
    ensures var t := Changed(app, s, history, pages);
      && t.doc.history == history && t.doc.lost == s.doc.lost && t.doc.guarded == s.doc.guarded
      && t.host == s.host && t.disk == s.disk
  {
    JournalFrame(app, s.(doc := ShowHistory(s.doc.(history := history, info := s.doc.info.(pages := pages)))));
    hide KeepJournal, Flattened, Bookmarked;
  }

  /** Undoing every edit gives the file back, and leaves no journal behind. */
  lemma {:induction false} UndoAllGivesTheFile(app: App, s: State, origin: Origin, password: Option<W.Password>)
    requires AppOk(app) && Inv(app, s, origin) && !s.doc.lost && Willing(app.engine, s.host.sent)
    requires s.doc.guarded ==> password.Some?
    requires W.Unlocks(app.engine, origin.base, if s.doc.guarded then password else Option.None)
    ensures s.doc.history.Valid()
    ensures var t := UndoAll(app, s, s.doc.history.applied, password);
      && Inv(app, t, origin) && t.doc.history == Timeline(s.doc.history.edits, 0) && t.disk == s.disk
      && t.doc.workerDoc in t.host.copies && t.host.copies[t.doc.workerDoc] == W.Copy(origin.base, origin.base)
      && t.doc.info.pages == app.engine.pages(origin.base) && !t.doc.info.unsaved && t.doc.journal.None?
    decreases s.doc.history.applied
  {
    hide *;
    UndoAllUnfolds(app, s, s.doc.history.applied, password);
    if s.doc.history.applied == 0 {
      NothingToUndo(app, s, origin);
    } else {
      WillingUndo(app, s, origin, password);
      UndoKeeps(app, s, origin, password);
      UndoneGoesBy(app, s, origin, password);
      UndoAllGivesTheFile(app, Undo(app, s, password).0, origin, password);
    }
  }

  lemma UndoAllUnfolds(app: App, s: State, n: nat, password: Option<W.Password>)
    requires s.doc.history.Valid()
    ensures n == 0 ==> UndoAll(app, s, n, password) == s
    ensures n > 0 && Undo(app, s, password).0.doc.history.Valid() ==>
      UndoAll(app, s, n, password) == UndoAll(app, Undo(app, s, password).0, n - 1, password)
  {
    hide Undo;
  }

  lemma NothingToUndo(app: App, s: State, origin: Origin)
    requires Inv(app, s, origin) && !s.doc.lost && s.doc.history.applied == 0
    ensures s.doc.history == Timeline(s.doc.history.edits, 0)
    ensures s.doc.workerDoc in s.host.copies && s.host.copies[s.doc.workerDoc] == W.Copy(origin.base, origin.base)
    ensures s.doc.info.pages == app.engine.pages(origin.base) && !s.doc.info.unsaved && s.doc.journal.None?
  {
    CopyIsMeant(app, s, origin);
    MeantOfBase(app, s.doc, origin.base);
    HistoryOfInv(app, s, origin);
  }

  lemma UndoneGoesBy(app: App, s: State, origin: Origin, password: Option<W.Password>)
    requires s.doc.history.Valid() && s.doc.history.applied > 0 && !s.doc.lost
    requires var t := Undo(app, s, password).0;
      t.disk == s.disk && t.doc.history == s.doc.history.Undo()
    ensures OriginOf(s, Undo(app, s, password).0, origin) == origin
    ensures var t := Undo(app, s, password).0;
      t.doc.history.Valid() && t.doc.history.edits == s.doc.history.edits && t.doc.history.applied == s.doc.history.applied - 1
  {
    hide Undo;
  }

  // ----- the whole way round

  /** Recovering what is offered, and then undoing it all. */
  ghost predicate GoesRound(app: App, s: State, origin: Origin, t: State, password: Option<W.Password>)
    requires s.doc.history.Valid() && t.doc.history.Valid() && t.doc.things.Valid()
  {
    var kept := JournalledOf(s.doc.history.Applied()).kept;
    var recovered := Recover(app, t);
    && recovered.1.Ok? && Inv(app, recovered.0, Origin(origin.base, true))
    && recovered.0.doc.history.Applied() == kept
    && recovered.0.doc.workerDoc in recovered.0.host.copies
    && Some(recovered.0.host.copies[recovered.0.doc.workerDoc].now)
       == W.Replayed(app.engine, s.doc.things, origin.base, kept)
    && var undone := UndoAll(app, recovered.0, |kept|, password);
    && Inv(app, undone, Origin(origin.base, true)) && undone.doc.history.applied == 0
    && undone.doc.workerDoc in undone.host.copies
    && undone.host.copies[undone.doc.workerDoc].now == origin.base
  }

  lemma RecoverThenUndo(app: App, s: State, origin: Origin, t: State, password: Option<W.Password>)
    requires AppOk(app) && CanComeBack(app, s, origin)
    requires s.doc.journal.Some? && OfferedOwn(app, s, origin, t) && t.doc.guarded == password.Some?
    requires JournalledOf(s.doc.history.Applied()).kept != [] && W.Unlocks(app.engine, origin.base, password)
    ensures t.doc.things.Valid() && GoesRound(app, s, origin, t, password)
  {
    RecoverBringsBack(app, s, origin, t);
    hide Inv, AppOk, OfferedOwn, CanComeBack, Recover, UndoAll, W.Unlocks, Willing, JournalledOf, W.Replayed;
    UndoAllGivesTheFile(app, Recover(app, t).0, Origin(origin.base, true), password);
  }

  /**
   * The app dies in any state with unsaved edits whose file nobody changed since; the file is
   * opened again and its journal found. What is offered is Available, Partial or Lost as the edits
   * say; recovering it gives the file with the edits that were kept, and undoing those gives the file.
   */
  lemma CrashRecovery(app: App, s: State, origin: Origin, nextId: nat, luck: nat, password: Option<W.Password>)
    requires AppOk(app) && CanComeBack(app, s, origin)
    requires Willing(app.engine, luck) && W.Unlocks(app.engine, origin.base, password)
    requires s.doc.journal.Some?
    requires J.Find(app.rules, AfterCrash(s.folder), s.doc.path, s.doc.identity).1 == Some(OwnJournal(s))
    ensures var reopened := OpenFile(app, s.disk, AfterCrash(s.folder), nextId, luck, s.doc.path, password, Option.None);
      var body := OwnJournal(s).body;
      && reopened.Ok? && reopened.value.doc.info.recovery == Verdict(true, body)
      && Inv(app, reopened.value, Origin(origin.base, true))
      && (body.edits != [] ==> GoesRound(app, s, origin, reopened.value, password))
  {
    OfferedAgain(app, s, origin, nextId, luck, password);
    var t := OpenFile(app, s.disk, AfterCrash(s.folder), nextId, luck, s.doc.path, password, Option.None).value;
    if JournalledOf(s.doc.history.Applied()).kept != [] {
      hide AppOk, OpenFile, CanComeBack, GoesRound, W.Unlocks, Willing, J.Find, Inv;
      RecoverThenUndo(app, s, origin, t, password);
    }
  }

  // ----- a protected document whose worker died

  /** The document is not open any more; its own journal waits for the file to be unlocked (`lose`). */
  function Lose(s: State): (J.Folder, Option<J.JournalId>)
  {
    var folder := if s.doc.recovered.Some? then J.Release(s.folder, s.doc.recovered.value.id) else s.folder;
    match s.doc.journal
    case None => (folder, Option.None)
    case Some(own) => (J.Release(folder, own), Some(own))
  }

  lemma TakesReleased(app: App, s: State, origin: Origin, opening: State)
    requires CanComeBack(app, s, origin) && s.doc.journal.Some?
    requires J.Readable(app.rules, OwnJournal(s).body)
    requires opening.folder == Lose(s).0 && opening.doc.path == s.doc.path && opening.doc.identity == s.doc.identity
    ensures FindFor(app, opening, s.doc.journal)
         == (Lose(s).0.(inUse := Lose(s).0.inUse + {s.doc.journal.value}), Some((OwnJournal(s), true)))
  {
    StoredJournal(app, s, origin);
    JournalIsReadable(app, s, origin);
  }

  /** The file is taken to have a form, and an outline, as the bytes that were read have. */
  ghost predicate ReadFrom(app: App, t: State, base: Content)
  {
    t.doc.formInFile == app.engine.hasForm(base) && t.doc.outlineInFile == app.engine.hasOutline(base)
  }

  /** A document just opened for which `s`'s journal was taken back. */
  ghost predicate OpenedFor(app: App, s: State, origin: Origin, t: State)
    requires s.doc.history.Valid() && s.doc.journal.Some?
  {
    && Inv(app, t, Origin(origin.base, true))
    && t.doc.history == NOTHING && t.doc.things == NO_THINGS && !t.doc.lost
    && t.doc.journal.None? && t.doc.recovered.None?
    && t.doc.path == s.doc.path && t.doc.identity == s.doc.identity && t.disk == s.disk
    && t.doc.info.pages == app.engine.pages(origin.base)
    && t.doc.info.permissions == app.engine.permissions(origin.base)
    && ReadFrom(app, t, origin.base)
    && t.doc.workerDoc in t.host.copies && t.host.copies[t.doc.workerDoc] == W.Copy(origin.base, origin.base)
    && s.doc.journal.value in t.folder.inUse && Willing(app.engine, t.host.sent)
  }

  /** What making the journal's edits at once comes to. */
  function MadeAtOnce(app: App, t: State, found: J.Found): (State, Done)
    requires t.doc.history.Valid() && t.doc.things.Valid()
  {
    Replay(app, Keeping(t, t.doc.things.Restore(found.body.pictures, found.body.models)), found.body.edits)
  }

  lemma AtOnce(app: App, s: State, origin: Origin, t: State)
    requires CanComeBack(app, s, origin) && s.doc.journal.Some? && OpenedFor(app, s, origin, t)
    requires JournalledOf(s.doc.history.Applied()).lost == 0
    ensures t.doc.things.Valid() && Applicable(t.doc, OwnJournal(s))
    ensures var applied := s.doc.history.Applied();
      var r := MadeAtOnce(app, t, OwnJournal(s));
      && OwnJournal(s).body.edits == applied
      && r.1.Ok? && r.0.doc.history.Applied() == applied && r.0.doc.history.Undone() == [] && !r.0.doc.lost
      && r.0.doc.workerDoc in r.0.host.copies
      && Some(r.0.host.copies[r.0.doc.workerDoc].now) == W.Replayed(app.engine, s.doc.things, origin.base, applied)
  {
    var applied := s.doc.history.Applied();
    assert JournalledOf(applied).kept == applied;
    Judged(app, s, origin, t);
    var again := Keeping(t, t.doc.things.Restore(OwnJournal(s).body.pictures, OwnJournal(s).body.models));
    AgainMakes(app, s, origin, again);
    hide Inv, Agrees, JournalOk, W.Replayed, PagesAfterAll, CanComeBack, Replay;
    assert HasReplayed(app, again, origin.base, [], again.doc.info.pages) by {
      MadeOfNothing(app, again.doc.things, origin.base);
      HostOfInv(app, t, Origin(origin.base, true));
    }
    WillingReplayAll(app, again, origin.base, applied);
  }

  lemma MadeOfNothing(app: App, things: Things, base: Content)
    ensures W.Replayed(app.engine, things, base, []) == Some(base)
  {
  }

  lemma HostOfInv(app: App, s: State, origin: Origin)
    requires Inv(app, s, origin)
    ensures s.host.Valid()
  {
  }

  /** The document as it was before its worker died; whether form and outline are told alike is in `Told`. */
  ghost predicate BackAsItWas(app: App, s: State, origin: Origin, t: State)
    requires s.doc.history.Valid()
  {
    && Inv(app, t, Origin(origin.base, true)) && !t.doc.lost
    && t.doc.history.Applied() == s.doc.history.Applied() && t.doc.history.Undone() == []
    && t.doc.workerDoc in t.host.copies
    && Some(t.host.copies[t.doc.workerDoc].now) == Meant(app, s.doc, origin.base)
    && t.doc.info.pages == s.doc.info.pages && t.doc.info.permissions == s.doc.info.permissions
    && ReadFrom(app, t, origin.base)
    && t.doc.journal == s.doc.journal && t.doc.recovered.None? && t.doc.info.recovery.NoRecovery?
    && t.disk == s.disk
  }

  /** The document `s` just opened again, its own journal taken back and in use. */
  function Unlocked(app: App, s: State, nextId: nat, luck: nat): State
    requires s.doc.path in s.disk.files && s.doc.journal.Some?
  {
    var folder := Lose(s).0;
    Fresh(app, s.disk, folder.(inUse := folder.inUse + {s.doc.journal.value}), nextId, luck, s.doc.path, true)
  }

  lemma UnlockedIsOpen(app: App, s: State, origin: Origin, nextId: nat, luck: nat)
    requires AppOk(app) && CanComeBack(app, s, origin) && Willing(app.engine, luck)
    ensures s.doc.journal.Some? && s.doc.path in s.disk.files
    ensures OpenedFor(app, s, origin, Unlocked(app, s, nextId, luck))
  {
    StoredJournal(app, s, origin);
    var t := Unlocked(app, s, nextId, luck);
    FreshKeeps(app, t);
    hide Inv, CanComeBack;
  }

  /** Opening the file with the password takes the journal back: made again at once, or offered. */
  lemma UnlockUnfolds(app: App, s: State, origin: Origin, nextId: nat, luck: nat, password: W.Password)
    requires CanComeBack(app, s, origin) && Willing(app.engine, luck)
    requires W.Unlocks(app.engine, origin.base, Some(password))
    requires s.doc.journal.Some? && J.Readable(app.rules, OwnJournal(s).body) && s.doc.path in s.disk.files
    ensures var t := Unlocked(app, s, nextId, luck);
      var found := OwnJournal(s);
      var r := OpenFile(app, s.disk, Lose(s).0, nextId, luck, s.doc.path, Some(password), s.doc.journal);
      && r.Ok?
      && (Applicable(t.doc, found) && found.body.lost == 0 && MadeAtOnce(app, t, found).1.Ok? ==>
            && MadeAtOnce(app, t, found).0.doc.history.Valid()
            && r.value == KeepJournal(app, MadeAtOnce(app, t, found).0.(doc :=
                 MadeAtOnce(app, t, found).0.doc.(journal := s.doc.journal))))
      && (found.body.lost > 0 ==> r.value == Offer(t, found))
  {
    StoredJournal(app, s, origin);
    OpensAgain(app, s.disk, Lose(s).0, nextId, luck, s.doc.path, Some(password), s.doc.journal);
    var opening := Fresh(app, s.disk, Lose(s).0, nextId, luck, s.doc.path, true);
    TakesReleased(app, s, origin, opening);
    var t := Unlocked(app, s, nextId, luck);
    assert t == opening.(folder := FindFor(app, opening, s.doc.journal).0);
    hide CanComeBack, FindFor, OpenFile, Applicable, J.BodyOf, KeepJournal, Replay;
    ReplayKeepsTheRest(app, Keeping(t, t.doc.things.Restore(OwnJournal(s).body.pictures, OwnJournal(s).body.models)),
                       OwnJournal(s).body.edits);
  }

  /** Keeping the journal changes nothing else. */
  lemma KeptShape(app: App, s: State)
    requires s.doc.history.Valid() && s.doc.journal.Some? && s.doc.history.Unsaved()
    ensures var t := KeepJournal(app, s);
      t.doc == s.doc && t.host == s.host && t.disk == s.disk
  {
  }

  /** Making a journal's edits leaves what the file has, and what the author allows. */
  lemma ReplayTells(app: App, s: State, edits: seq<Edit>)
    requires s.doc.history.Valid() && Replay(app, s, edits).1.Ok?
    ensures var t := Replay(app, s, edits).0;
      && t.doc.history.Valid() && t.doc.info.permissions == s.doc.info.permissions
      && t.doc.formInFile == s.doc.formInFile && t.doc.outlineInFile == s.doc.outlineInFile
  {
    ReplayEditsOnlyHost(app, s, edits, s.doc.info.pages);
  }

  /** The journal made at once and kept as the document's own: the document is as it was. */
  lemma BackFromMade(app: App, s: State, origin: Origin, t: State)
    requires CanComeBack(app, s, origin) && s.doc.journal.Some? && OpenedFor(app, s, origin, t)
    requires t.doc.info.recovery.NoRecovery? && t.doc.things.Valid()
    requires MadeAtOnce(app, t, OwnJournal(s)).1.Ok?
    requires var made := MadeAtOnce(app, t, OwnJournal(s)).0;
      && made.doc.history.Valid() && made.doc.history.Applied() == s.doc.history.Applied()
      && made.doc.history.Undone() == [] && !made.doc.lost && made.doc.workerDoc in made.host.copies
      && Some(made.host.copies[made.doc.workerDoc].now) == W.Replayed(app.engine, s.doc.things, origin.base, s.doc.history.Applied())
    requires var made := MadeAtOnce(app, t, OwnJournal(s)).0;
      Inv(app, KeepJournal(app, made.(doc := made.doc.(journal := s.doc.journal))), Origin(origin.base, true))
    ensures var made := MadeAtOnce(app, t, OwnJournal(s)).0;
      BackAsItWas(app, s, origin, KeepJournal(app, made.(doc := made.doc.(journal := s.doc.journal))))
  {
    var again := Keeping(t, t.doc.things.Restore(OwnJournal(s).body.pictures, OwnJournal(s).body.models));
    ReplayTells(app, again, OwnJournal(s).body.edits);
    ReplayDoc(app, again, OwnJournal(s).body.edits);
    var made := MadeAtOnce(app, t, OwnJournal(s)).0;
    var kept := made.(doc := made.doc.(journal := s.doc.journal));
    KeptShape(app, kept);
    KnownOfInv(app, s, origin);
    HistoryOfInv(app, s, origin);
    FlagsOfInv(app, s, origin);
    CopyIsMeant(app, KeepJournal(app, kept), Origin(origin.base, true));
    PagesOfInv(app, KeepJournal(app, kept), Origin(origin.base, true));
    hide Inv, CanComeBack, MadeAtOnce, KeepJournal, J.BodyOf, W.Replayed, OpenedFor;
    assert t.doc.info.permissions == app.engine.permissions(origin.base);
  }

  lemma FlagsOfInv(app: App, s: State, origin: Origin)
    requires Inv(app, s, origin)
    ensures FlagsOk(s.doc)
  {
  }

  lemma PagesOfInv(app: App, s: State, origin: Origin)
    requires Inv(app, s, origin)
    ensures PagesOk(app, s.doc, origin.base)
  {
  }

  /**
   * A protected document that was lost with its worker comes back when its file is unlocked: with
   * the same edits and content, and its journal, if no edit took another file's pages; otherwise
   * the edits before that one are offered, and none is made unasked.
   */
  lemma ProtectedComesBack(app: App, s: State, origin: Origin, nextId: nat, luck: nat, password: W.Password)
    requires AppOk(app) && CanComeBack(app, s, origin) && s.doc.guarded && s.doc.lost
    requires Willing(app.engine, luck) && W.Unlocks(app.engine, origin.base, Some(password))
    requires s.doc.journal.Some? && J.Readable(app.rules, OwnJournal(s).body)
    ensures var r := OpenFile(app, s.disk, Lose(s).0, nextId, luck, s.doc.path, Some(password), s.doc.journal);
      var lost := JournalledOf(s.doc.history.Applied()).lost;
      && r.Ok?
      && (lost == 0 ==> BackAsItWas(app, s, origin, r.value))
      && (lost > 0 ==> r.value.doc.history == NOTHING && r.value.doc.recovered == Some(OwnJournal(s))
                       && r.value.doc.info.recovery == Verdict(true, OwnJournal(s).body))
  {
    UnlockedIsOpen(app, s, origin, nextId, luck);
    UnlockUnfolds(app, s, origin, nextId, luck, password);
    var t := Unlocked(app, s, nextId, luck);
    StoredJournal(app, s, origin);
    OpenFileKeeps(app, s.disk, Lose(s).0, nextId, luck, s.doc.path, Some(password), s.doc.journal);
    Judged(app, s, origin, t);
    if JournalledOf(s.doc.history.Applied()).lost == 0 {
      AtOnce(app, s, origin, t);
      BackFromMade(app, s, origin, t);
    }
  }
}
