/**
 * What becomes of a journal as its file is opened (src-tauri/src/documents.rs:2891-2931): exactly when
 * its edits are offered, or made again at once, by the stamp of the file, its pages and its author.
 */
module Verdicts {
  import opened Basics
  import opened Edits
  import opened Permits
  import opened Histories
  import opened Stores
  import opened Sessions
  import opened SessionProofs
  import opened RecoveryProofs
  import opened Restart
  import opened ComingBack
  import W = Worker
  import J = Journals

  /** A journal was left for the content the file has, and its edits can be made on that. */
  predicate StillFits(app: App, file: File, stored: J.Stored)
  {
    && stored.stamp == file.stamp
    && AcceptsAll(stored.body.edits, |app.engine.pages(file.content)|, app.engine.permissions(file.content), NoSources)
  }

  /** What is told of a journal that is offered. */
  predicate IsVerdict(recovery: Recovery, fits: bool, body: J.Body)
  {
    && (recovery.Available? <==> fits && body.lost == 0)
    && (recovery.Partial? <==> fits && body.lost > 0 && body.edits != [])
    && (recovery.Lost? <==> fits && body.lost > 0 && body.edits == [])
    && (recovery.Stale? <==> !fits)
  }

  /** A document just opened, before anything left for it is looked for. */
  predicate JustOpened(app: App, disk: Disk, path: Path, s: State)
  {
    && path in disk.files && s.disk == disk && s.doc.path == path
    && s.doc == DocumentOf(app.engine, s.doc.info.doc, path, s.doc.workerDoc, s.doc.guarded, disk.files[path])
    && W.ValidPages(s.doc.info.pages) && s.doc.workerDoc in s.host.copies
    && s.host.copies[s.doc.workerDoc] == W.Copy(disk.files[path].content, disk.files[path].content)
  }

  lemma FoundSays(app: App, s: State, released: Option<J.JournalId>)
    ensures var r := FindFor(app, s, released);
      r.1.Some? ==>
        var found := r.1.value.0;
        && found.id in s.folder.stored && s.folder.stored[found.id].path == s.doc.path
        && found.body == s.folder.stored[found.id].body && J.Readable(app.rules, found.body)
        && (found.sameFile <==> s.doc.identity == Some(s.folder.stored[found.id].stamp))
        && (r.1.value.1 ==> released == Some(found.id)) && found.id !in s.folder.inUse
        && r.0 == s.folder.(inUse := r.0.inUse)
  {
    hide J.Readable;
  }

  /** What an edit of a journal may be: well formed, never one that takes another file's pages, and with what it names. */
  predicate KeptWith(edit: Edit, body: J.Body)
  {
    && WellAsked(edit)
    && match edit
       case InsertPages(_, _) => false
       case AddImageStamp(_, image, _) => image in body.pictures
       case AddTextBox(_, model, _) => model in body.models
       case SetTextBox(_, words, _) => words.Some? ==> words.value in body.models
       case _ => true
  }

  /** A journal that is whole: something was lost or is kept, within the limits, and nothing is missing. */
  predicate IsWhole(rules: J.Rules, body: J.Body)
  {
    && rules.fits(body) && 1 <= |body.edits| + body.lost <= 1_000
    && |body.pictures| <= 16 && |body.models| <= 1_000
    && forall i :: 0 <= i < |body.edits| ==> KeptWith(body.edits[i], body)
  }

  lemma KeptWithIs(edit: Edit, body: J.Body)
    ensures KeptWith(edit, body)
      <==> && WellAsked(edit) && !edit.InsertPages?
           && PictureOf(edit) <= body.pictures.Keys && ModelOf(edit) <= body.models.Keys
  {
    if edit.AddImageStamp? { assert edit.image in PictureOf(edit); }
    if edit.AddTextBox? { assert edit.model in ModelOf(edit); }
    if edit.SetTextBox? && edit.words.Some? { assert edit.words.value in ModelOf(edit); }
    hide WellAsked;
  }

  lemma NamesKept(edits: seq<Edit>, body: J.Body)
    ensures PicturesOf(edits) <= body.pictures.Keys && ModelsOf(edits) <= body.models.Keys
      <==> forall i :: 0 <= i < |edits| ==>
             PictureOf(edits[i]) <= body.pictures.Keys && ModelOf(edits[i]) <= body.models.Keys
  {
    if PicturesOf(edits) <= body.pictures.Keys && ModelsOf(edits) <= body.models.Keys {
      forall i | 0 <= i < |edits| ensures PictureOf(edits[i]) <= body.pictures.Keys && ModelOf(edits[i]) <= body.models.Keys {
        assert PictureOf(edits[i]) <= PicturesOf(edits) && ModelOf(edits[i]) <= ModelsOf(edits);
      }
    }
  }

  /** A journal found is taken for one only if it is whole, whatever wrote it. */
  lemma ReadExactlyWhen(rules: J.Rules, body: J.Body)
    ensures J.Readable(rules, body) <==> IsWhole(rules, body)
  {
    NamesKept(body.edits, body);
    forall i | 0 <= i < |body.edits| ensures
      KeptWith(body.edits[i], body)
      <==> && Valid(body.edits[i]) && !body.edits[i].InsertPages?
           && PictureOf(body.edits[i]) <= body.pictures.Keys && ModelOf(body.edits[i]) <= body.models.Keys
    {
      KeptWithIs(body.edits[i], body);
      ValidExactlyWhen(body.edits[i]);
    }
    hide KeptWith, PicturesOf, ModelsOf, Valid, PictureOf, ModelOf;
  }

  /** Whether a journal can be made again is whether it still fits. */
  lemma ApplicableIs(app: App, disk: Disk, path: Path, s: State, found: J.Found, stored: J.Stored)
    requires JustOpened(app, disk, path, s) && J.Readable(app.rules, found.body) && found.body == stored.body
    requires found.sameFile <==> s.doc.identity == Some(stored.stamp)
    ensures Applicable(s.doc, found) <==> StillFits(app, disk.files[path], stored)
  {
    AllAcceptedExactlyWhen(found.body.edits, |s.doc.info.pages|, s.doc.info.permissions, NoSources);
    hide PagesAfterAll, AcceptsAll;
  }

  lemma OfferedIs(s: State, found: J.Found)
    ensures var t := Offer(s, found);
      && t.doc == s.doc.(recovered := Some(found), info := s.doc.info.(recovery := t.doc.info.recovery)) && t.host == s.host
      && IsVerdict(t.doc.info.recovery, Applicable(s.doc, found), found.body)
  {
    hide Applicable;
  }

  /** Nothing is made again: only the file was opened. */
  predicate OnlyOpened(s: State, t: State)
  {
    t.doc.history == NOTHING && t.host == s.host && t.doc.lost == s.doc.lost && t.doc.things == NO_THINGS
  }

  lemma Kept(app: App, s: State)
    requires s.doc.history.Valid()
    ensures var t := KeepJournal(app, s);
      && t.doc.history == s.doc.history && t.doc.recovered == s.doc.recovered && t.doc.info == s.doc.info
  {
    JournalFrame(app, s);
    hide KeepJournal;
  }

  /** What `found` comes to: offered with its verdict, or made again at once if it is the tab's own and all of it fits. */
  ghost predicate ComesTo(app: App, s: State, found: J.Found, own: bool, fits: bool, t: State)
  {
    if t.doc.recovered.None? then
      && own && fits && found.body.lost == 0
      && t.doc.history == NOTHING.PushAll(found.body.edits) && t.doc.info.recovery.NoRecovery?
    else
      && t.doc.recovered == Some(found) && t.doc.history == NOTHING
      && IsVerdict(t.doc.info.recovery, fits, found.body)
      && (!(own && fits && found.body.lost == 0) ==> OnlyOpened(s, t))
  }

  lemma RecoverOnOpenIs(app: App, disk: Disk, path: Path, s: State, released: Option<J.JournalId>)
    requires JustOpened(app, disk, path, s)
    ensures var looked := FindFor(app, s, released).1;
      var t := RecoverOnOpen(app, s, released);
      && (looked.None? ==> t.doc == s.doc && t.host == s.host)
      && (looked.Some? ==> ComesTo(app, s, looked.value.0, looked.value.1, Applicable(s.doc, looked.value.0), t))
  {
    var looked := FindFor(app, s, released);
    hide FindFor, Applicable, Replay, KeepJournal, Verdict, OnlyOpened, Offer;
    if looked.1.Some? {
      var found := looked.1.value.0;
      var u := s.(folder := looked.0);
      OfferedIs(u, found);
      assert OnlyOpened(s, Offer(u, found)) by { OnlyOffered(s, looked.0, found); }
      var restored := Keeping(u, u.doc.things.Restore(found.body.pictures, found.body.models));
      ReplayKeepsTheRest(app, restored, found.body.edits);
      ReplayDoc(app, restored, found.body.edits);
      var r := Replay(app, restored, found.body.edits);
      OfferedIs(r.0, found);
      Kept(app, r.0.(doc := r.0.doc.(journal := Some(found.id))));
      if r.1.Err? { SameAnswer(u.doc, r.0.doc, found); }
    }
  }

  lemma OnlyOffered(s: State, folder: J.Folder, found: J.Found)
    requires s.doc.history == NOTHING && s.doc.things == NO_THINGS
    ensures OnlyOpened(s, Offer(s.(folder := folder), found))
  {
    hide Applicable, Verdict;
  }

  lemma SameAnswer(a: Document, b: Document, found: J.Found)
    requires b.info.pages == a.info.pages && b.info.permissions == a.info.permissions
    ensures Applicable(b, found) == Applicable(a, found)
  {
    hide PagesAfterAll;
  }

  lemma Opens(app: App, disk: Disk, folder: J.Folder, nextId: nat, luck: nat, path: Path,
    password: Option<W.Password>, released: Option<J.JournalId>) returns (s: State)
    requires OpenFile(app, disk, folder, nextId, luck, path, password, released).Ok?
    ensures JustOpened(app, disk, path, s) && s.folder == folder && s.host.sent == luck + 1 && !s.doc.lost
    ensures s.doc.info.doc == nextId && s.doc.guarded == password.Some?
    ensures OpenFile(app, disk, folder, nextId, luck, path, password, released) == Ok(RecoverOnOpen(app, s, released))
  {
    var file := disk.files[path];
    var answer := W.Open(app.engine, W.NewHost(luck), file.content, password);
    var doc := DocumentOf(app.engine, nextId, path, answer.1.value, password.Some?, file);
    s := State(doc, answer.0, disk, folder, nextId + 1, true);
    hide RecoverOnOpen;
  }

  /**
   * Of every file that opens: a journal that is offered was left for it and is told of as its stamp, and
   * the pages and permissions of the file, say; edits are only made again at once of the journal that the
   * tab released, all of it, and if it still fits.
   */
  lemma OfferedExactlyWhen(app: App, disk: Disk, folder: J.Folder, nextId: nat, luck: nat, path: Path,
    password: Option<W.Password>, released: Option<J.JournalId>)
    requires OpenFile(app, disk, folder, nextId, luck, path, password, released).Ok?
    ensures path in disk.files
    ensures var s := OpenFile(app, disk, folder, nextId, luck, path, password, released).value;
      match s.doc.recovered
      case None =>
        && s.doc.info.recovery.NoRecovery?
        && (s.doc.history != NOTHING ==>
              && released.Some? && released.value in folder.stored && folder.stored[released.value].path == path
              && StillFits(app, disk.files[path], folder.stored[released.value])
              && folder.stored[released.value].body.lost == 0
              && released.value !in folder.inUse
              && s.doc.history == NOTHING.PushAll(folder.stored[released.value].body.edits))
      case Some(found) =>
        && found.id in folder.stored && folder.stored[found.id].path == path && found.body == folder.stored[found.id].body
        && found.id !in folder.inUse && IsWhole(app.rules, found.body)
        && IsVerdict(s.doc.info.recovery, StillFits(app, disk.files[path], folder.stored[found.id]), found.body)
        && s.doc.history == NOTHING
  {
    var s := Opens(app, disk, folder, nextId, luck, path, password, released);
    FoundSays(app, s, released);
    RecoverOnOpenIs(app, disk, path, s, released);
    var looked := FindFor(app, s, released).1;
    if looked.Some? {
      var found := looked.value.0;
      ReadExactlyWhen(app.rules, found.body);
      ApplicableIs(app, disk, path, s, found, folder.stored[found.id]);
    }
    hide OpenFile, RecoverOnOpen, FindFor, Applicable, StillFits, IsVerdict, J.Readable, IsWhole, OnlyOpened;
  }

  /**
   * A journal that was left for another content than the file has is stale: none of its edits is asked of
   * the worker, the document is the file, and recovering is refused.
   */
  lemma ChangedFileIsStale(app: App, disk: Disk, folder: J.Folder, nextId: nat, luck: nat, path: Path,
    password: Option<W.Password>, released: Option<J.JournalId>)
    requires OpenFile(app, disk, folder, nextId, luck, path, password, released).Ok?
    requires var found := OpenFile(app, disk, folder, nextId, luck, path, password, released).value.doc.recovered;
      && path in disk.files && found.Some? && found.value.id in folder.stored
      && folder.stored[found.value.id].stamp != disk.files[path].stamp
    ensures var s := OpenFile(app, disk, folder, nextId, luck, path, password, released).value;
      && s.doc.info.recovery.Stale? && s.doc.history == NOTHING && s.host.sent == luck + 1 && !s.doc.lost
      && s.doc.workerDoc in s.host.copies
      && s.host.copies[s.doc.workerDoc] == W.Copy(disk.files[path].content, disk.files[path].content)
      && s.doc.things.Valid() && Recover(app, s) == (s, Err(InvalidArgument))
  {
    var s := Opens(app, disk, folder, nextId, luck, path, password, released);
    FoundSays(app, s, released);
    RecoverOnOpenIs(app, disk, path, s, released);
    var looked := FindFor(app, s, released).1;
    if looked.Some? {
      var found := looked.value.0;
      ApplicableIs(app, disk, path, s, found, folder.stored[found.id]);
    }
    hide OpenFile, RecoverOnOpen, FindFor, Applicable, Replay, J.Readable, AcceptsAll;
  }

  /** A file opens exactly when it is there, is unlocked by what is given, and has pages but not too many. */
  lemma OpensExactlyWhen(app: App, disk: Disk, folder: J.Folder, nextId: nat, luck: nat, path: Path,
    password: Option<W.Password>, released: Option<J.JournalId>)
    requires app.engine.fault(luck).Fine?
    ensures OpenFile(app, disk, folder, nextId, luck, path, password, released).Ok?
      <==> && path in disk.files
           && app.engine.lock(disk.files[path].content) in {Option.None, password}
           && 1 <= |app.engine.pages(disk.files[path].content)| <= MAX_PAGE_COUNT
  {
    hide RecoverOnOpen;
  }

  /** What is told of a file that opens is the file's, and how it was opened is remembered. */
  lemma OpenedSays(app: App, disk: Disk, folder: J.Folder, nextId: nat, luck: nat, path: Path,
    password: Option<W.Password>, released: Option<J.JournalId>)
    requires OpenFile(app, disk, folder, nextId, luck, path, password, released).Ok?
    ensures path in disk.files
    ensures var doc, file := OpenFile(app, disk, folder, nextId, luck, path, password, released).value.doc, disk.files[path];
      && doc.path == path && doc.identity == Some(file.stamp) && doc.info.doc == nextId && doc.guarded == password.Some?
      && doc.signed == app.engine.isSigned(file.content) && doc.identifier == app.engine.identifier(file.content)
      && doc.info.sensitive == doc.identifier.Some? && doc.info.permissions == app.engine.permissions(file.content)
  {
    var s := Opens(app, disk, folder, nextId, luck, path, password, released);
    RecoverSaysTheSame(app, s, released);
    hide OpenFile, RecoverOnOpen;
  }

  /** Whatever journal is made again or offered, the document is of the same file. */
  predicate SameSource(s: State, t: State)
  {
    && t.doc.path == s.doc.path && t.doc.identity == s.doc.identity && t.doc.info.doc == s.doc.info.doc
    && t.doc.guarded == s.doc.guarded && t.doc.signed == s.doc.signed && t.doc.identifier == s.doc.identifier
    && t.doc.info.sensitive == s.doc.info.sensitive && t.doc.info.permissions == s.doc.info.permissions
  }

  lemma RecoverSaysTheSame(app: App, s: State, released: Option<J.JournalId>)
    requires s.doc.history.Valid() && s.doc.things.Valid()
    ensures SameSource(s, RecoverOnOpen(app, s, released))
  {
    hide *;
    var looked := FindFor(app, s, released);
    var u := s.(folder := looked.0);
    RecoverOnOpenEither(app, s, released);
    OtherFolderSays(s, looked.0);
    if looked.1.Some? {
      var found := looked.1.value.0;
      MadeSaysTheSame(app, u, found);
      OfferSaysTheSame(u, found);
      OfferSaysTheSame(MadeAtOnce(app, u, found).0, found);
      SaysTheSameTwice(u, MadeAtOnce(app, u, found).0, Offer(MadeAtOnce(app, u, found).0, found));
      SaysTheSameTwice(s, u, RecoverOnOpen(app, s, released));
    }
  }

  lemma SaysTheSameTwice(a: State, b: State, c: State)
    ensures SameSource(a, b) && SameSource(b, c) ==> SameSource(a, c)
  {
  }

  lemma OtherFolderSays(s: State, folder: J.Folder)
    ensures SameSource(s, s.(folder := folder)) && s.(folder := folder).doc.history == s.doc.history
    ensures s.(folder := folder).doc.things == s.doc.things
  {
  }

  lemma RecoverOnOpenEither(app: App, s: State, released: Option<J.JournalId>)
    requires s.doc.history.Valid() && s.doc.things.Valid()
    ensures var looked := FindFor(app, s, released);
      var u, t := s.(folder := looked.0), RecoverOnOpen(app, s, released);
      && (looked.1.None? ==> t == u)
      && (looked.1.Some? ==>
            var found := looked.1.value.0;
            var r := MadeAtOnce(app, u, found).0;
            && r.doc.history.Valid()
            && (|| t == Offer(u, found) || t == Offer(r, found)
                || t == KeepJournal(app, r.(doc := r.doc.(journal := Some(found.id))))))
  {
    var looked := FindFor(app, s, released);
    if looked.1.Some? {
      var u, found := s.(folder := looked.0), looked.1.value.0;
      ReplayKeepsTheRest(app, Keeping(u, u.doc.things.Restore(found.body.pictures, found.body.models)), found.body.edits);
    }
    hide FindFor, Applicable, Replay, KeepJournal, Offer;
  }

  lemma OfferSaysTheSame(s: State, found: J.Found)
    ensures SameSource(s, Offer(s, found))
  {
    hide Applicable, Verdict;
  }

  lemma MadeSaysTheSame(app: App, s: State, found: J.Found)
    requires s.doc.history.Valid() && s.doc.things.Valid()
    ensures var r := MadeAtOnce(app, s, found).0;
      && r.doc.history.Valid() && SameSource(s, r)
      && SameSource(s, KeepJournal(app, r.(doc := r.doc.(journal := Some(found.id)))))
  {
    var restored := Keeping(s, s.doc.things.Restore(found.body.pictures, found.body.models));
    ReplaySaysTheSame(app, restored, found.body.edits);
    ReplayKeepsTheRest(app, restored, found.body.edits);
    var r := Replay(app, restored, found.body.edits).0;
    JournalFrame(app, r.(doc := r.doc.(journal := Some(found.id))));
    hide Replay, KeepJournal;
  }

  lemma ReplaySaysTheSame(app: App, s: State, edits: seq<Edit>)
    requires s.doc.history.Valid()
    ensures SameSource(s, Replay(app, s, edits).0)
  {
    hide *;
    var made := ReplayEdits(app, s, edits, s.doc.info.pages);
    ReplayEditsOnlyHost(app, s, edits, s.doc.info.pages);
    ReplayIs(app, s, edits);
    WorkerSaysNothing(s, made.0);
    if made.1.Ok? && Replay(app, s, edits).1.Ok? { ShowingSaysTheSame(made.0, s.doc.history.PushAll(edits), made.1.value); }
    SaysTheSameTwice(s, made.0, Replay(app, s, edits).0);
  }

  lemma WorkerSaysNothing(s: State, t: State)
    requires t == s.(doc := s.doc.(workerDoc := t.doc.workerDoc, lost := t.doc.lost), host := t.host)
    ensures SameSource(s, s) && SameSource(s, t) && SameSource(s, UnexpectedOn(t))
  {
  }

  lemma ShowingSaysTheSame(s: State, history: Timeline, pages: seq<W.PageSize>)
    requires history.Valid()
    ensures SameSource(s, Showing(s, history, pages))
  {
    hide Flattened, Bookmarked;
  }
}
