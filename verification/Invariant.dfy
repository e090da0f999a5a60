/**
 * What holds of an open document between any two commands, whatever its worker did: the worker's
 * copy, the file, the history, the journal and what the page is told all agree.
 */
module Invariant {
  import opened Basics
  import opened Edits
  import opened Histories
  import opened Stores
  import opened Sessions
  import W = Worker
  import J = Journals

  /** What the app takes for granted: journal names are new, and a mark changes no page. */
  ghost predicate AppOk(app: App)
  {
    && (forall used: set<nat> :: app.rules.name(used) !in used)
    && (forall c: Content, id: Option<nat> :: app.engine.pages(app.engine.mark(c, id)) == app.engine.pages(c))
  }

  /** Every file pages are taken from has as many as it says. */
  ghost predicate HonestSources(engine: W.Engine, things: Things)
  {
    forall id :: id in things.sources.things ==>
      things.sources.things[id].pages == |engine.pages(things.sources.things[id].bytes)|
  }

  /**
   * The worker's edits do to a document what the main process foresees: the number of pages, and what
   * the author allows; and a mark stays as it is while edits are made. Only the permissions told, and
   * what a journal is worth later, rest on it. What is foreseen of forms and outlines is in `Told`.
   */
  ghost predicate Faithful(engine: W.Engine)
  {
    && (forall things: Things, c: Content, edit: Edit {:trigger W.Made(engine, things, c, edit)} ::
          W.Made(engine, things, c, edit).Some? && HonestSources(engine, things) ==> Foreseen(engine, things, c, edit))
    && (forall c: Content, id: Option<nat> :: engine.permissions(engine.mark(c, id)) == engine.permissions(c))
    && (forall things: Things, c: Content, id: Option<nat>, edit: Edit
          {:trigger W.Made(engine, things, engine.mark(c, id), edit)} ::
          W.Made(engine, things, engine.mark(c, id), edit)
          == match W.Made(engine, things, c, edit)
             case None => Option.None
             case Some(after) => Some(engine.mark(after, id)))
  }

  ghost predicate Foreseen(engine: W.Engine, things: Things, c: Content, edit: Edit)
    requires W.Made(engine, things, c, edit).Some?
  {
    var after := W.Made(engine, things, c, edit).value;
    var count := PagesAfter(edit, |engine.pages(c)|, engine.permissions(c), things.SourcePages());
    && (count.Ok? ==> |engine.pages(after)| == count.value)
    && engine.permissions(after) == engine.permissions(c)
  }

  // ----- the parts of the invariant

  /** The edits are valid, few enough, and everything they name is kept. */
  ghost predicate HistoryOk(doc: Document)
  {
    && doc.history.Valid()
    && |doc.history.edits| <= MAX_UNDO_EDITS
    && (forall i :: 0 <= i < |doc.history.edits| ==> Valid(doc.history.edits[i]))
    && doc.things.Valid()
    && doc.things.Names(doc.history.edits)
  }

  /** What the document is to be: the file it was read from with the applied edits made on it. */
  function Meant(app: App, doc: Document, base: Content): Option<Content>
    requires doc.history.Valid()
  {
    W.Replayed(app.engine, doc.things, base, doc.history.Applied())
  }

  /** The pages the page was told are those of the document as it is to be. */
  ghost predicate PagesOk(app: App, doc: Document, base: Content)
    requires doc.history.Valid()
  {
    && W.ValidPages(app.engine.pages(base))
    && Meant(app, doc, base).Some?
    && doc.info.pages == app.engine.pages(Meant(app, doc, base).value)
  }

  /** A document that is not lost has its copy in the worker, and it is as it is to be. */
  ghost predicate WorkerOk(app: App, s: State, base: Content)
    requires s.doc.history.Valid() && Meant(app, s.doc, base).Some?
  {
    && s.host.Valid()
    && (!s.doc.lost ==>
          && s.doc.workerDoc in s.host.copies
          && s.host.copies[s.doc.workerDoc] == W.Copy(Meant(app, s.doc, base).value, base))
  }

  ghost predicate FlagsOk(doc: Document)
    requires doc.history.Valid()
  {
    && doc.info.unsaved == (doc.history.Applied() != [])
    && doc.info.canUndo == (doc.history.Applied() != [])
    && doc.info.canRedo == (doc.history.Undone() != [])
    && doc.info.hasForm == (doc.formInFile && !Flattened(doc.history.Applied()))
    && doc.info.hasOutline == (doc.outlineInFile || Bookmarked(doc.history.Applied()))
    && doc.info.sensitive == doc.identifier.Some?
  }

  /** Stamps are not used twice; the file as the document knows it is the file it was read from. */
  ghost predicate DiskOk(s: State, base: Content)
  {
    && (forall path :: path in s.disk.files ==> s.disk.files[path].stamp < s.disk.clock)
    && (s.doc.identity.Some? ==> s.doc.identity.value < s.disk.clock)
    && (UnchangedOnDisk(s) ==> s.disk.files[s.doc.path].content == base)
  }

  /** The user is offered to have the edits of an earlier run made again. */
  predicate Offered(doc: Document)
  {
    doc.info.recovery.Available? || doc.info.recovery.Partial?
  }

  /** The document's journals are in use; the one offered is another than its own, and still there. */
  ghost predicate JournalsHeld(app: App, s: State)
  {
    && (s.doc.journal.Some? ==> s.doc.journal.value in s.folder.inUse)
    && (s.doc.recovered.Some? <==> !s.doc.info.recovery.NoRecovery?)
    && (s.doc.recovered.Some? ==>
          && s.doc.recovered.value.id in s.folder.inUse
          && s.doc.recovered.value.id in s.folder.stored
          && s.folder.stored[s.doc.recovered.value.id].body == s.doc.recovered.value.body
          && s.doc.journal != Some(s.doc.recovered.value.id)
          && J.Readable(app.rules, s.doc.recovered.value.body)
          && (Offered(s.doc) ==> s.doc.recovered.value.body.edits != []))
  }

  /** There is a journal while something is unsaved, and it is in step with the history. */
  ghost predicate JournalOk(app: App, s: State): (ok: bool)
    requires s.doc.history.Valid()
    ensures ok ==> JournalsHeld(app, s)
  {
    var kept :=
      && JournalsHeld(app, s)
      && (s.doc.journal.Some? <==> s.doc.history.Applied() != [])
      && (s.doc.journal.Some? ==> InStep(app, s));
    kept
  }

  /** The journal says what was done to the file, unless that is too large for one. */
  ghost predicate InStep(app: App, s: State)
    requires s.doc.history.Valid() && s.doc.journal.Some?
  {
    var body := J.BodyOf(s.doc.things, s.doc.history.Applied());
    s.doc.identity.Some? && app.rules.fits(body) ==>
      && s.doc.journal.value in s.folder.stored
      && s.folder.stored[s.doc.journal.value] == J.Stored(s.doc.path, s.doc.identity.value, body)
  }

  /** Every prefix of `edits` can be made on `base`, with the page count foreseen for it. */
  ghost predicate AllForeseen(app: App, doc: Document, base: Content, edits: seq<Edit>)
  {
    forall n :: 0 <= n <= |edits| ==> PrefixForeseen(app, doc, base, edits, n)
  }

  ghost predicate PrefixForeseen(app: App, doc: Document, base: Content, edits: seq<Edit>, n: nat)
    requires n <= |edits|
  {
    var made := W.Replayed(app.engine, doc.things, base, edits[..n]);
    && made.Some?
    && PagesAfterAll(edits[..n], |app.engine.pages(base)|, doc.info.permissions, doc.things.SourcePages())
       == Ok(|app.engine.pages(made.value)|)
  }

  /** What is known of the file unless the worker had to open it again after somebody changed it. */
  ghost predicate Known(app: App, doc: Document, base: Content)
  {
    && doc.info.permissions == app.engine.permissions(base)
    && AllForeseen(app, doc, base, doc.history.edits)
  }

  ghost predicate KnownOk(app: App, doc: Document, origin: Origin)
  {
    && HonestSources(app.engine, doc.things)
    && (Faithful(app.engine) && origin.steady ==> Known(app, doc, origin.base))
  }

  /**
   * What the worker last read the document from; and whether that always was the file as the
   * document knows it, never one somebody had changed meanwhile.
   */
  datatype Origin = Origin(base: Content, steady: bool)

  /** All of it but that the journal is in step. */
  ghost predicate Agrees(app: App, s: State, origin: Origin): (agrees: bool)
    ensures agrees ==> s.doc.history.Valid() && s.doc.things.Valid() && s.host.Valid()
  {
    var agrees :=
      && HistoryOk(s.doc)
      && PagesOk(app, s.doc, origin.base)
      && WorkerOk(app, s, origin.base)
      && FlagsOk(s.doc)
      && DiskOk(s, origin.base)
      && KnownOk(app, s.doc, origin);
    agrees
  }

  ghost predicate Inv(app: App, s: State, origin: Origin): (holds: bool)
    ensures holds ==> s.doc.history.Valid() && s.doc.things.Valid() && s.host.Valid()
    ensures holds ==> Agrees(app, s, origin) && JournalOk(app, s) && s.doc.info.doc < s.nextId
  {
    var holds :=
      && Agrees(app, s, origin)
      && JournalOk(app, s)
      && s.doc.info.doc < s.nextId;
    holds
  }

  lemma InvOf(app: App, s: State, origin: Origin)
    requires Agrees(app, s, origin) && JournalOk(app, s) && s.doc.info.doc < s.nextId
    ensures Inv(app, s, origin)
  {
  }

  /** A command that begins with a lost worker and a changed file may read what somebody wrote. */
  predicate Steady(s: State, steady: bool)
  {
    steady && (s.doc.lost ==> UnchangedOnDisk(s))
  }
}
