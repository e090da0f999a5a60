/**
 * When a command succeeds, and what it costs: exactly, for every command on a document whose worker is
 * there (src-tauri/src/documents.rs:594-982, 1895-2193, 2678-2710). Making an edit is in `Reopening`.
 */
module Answers {
  import opened Basics
  import opened Edits
  import opened Permits
  import opened Histories
  import opened Stores
  import opened Sessions
  import opened Invariant
  import opened SessionProofs
  import opened SavingProofs
  import opened RecoveryProofs
  import opened Consequences
  import opened ComingBack
  import opened Reopening
  import opened Verdicts
  import W = Worker
  import J = Journals

  // ----- undo and redo

  /** The document can be opened from the bytes kept with what is given for it. */
  predicate OpensWith(app: App, s: State, base: Content, password: Option<W.Password>)
  {
    if s.doc.guarded then password.Some? && app.engine.lock(base) in {Option.None, password} else app.engine.lock(base).None?
  }

  /** With a willing worker the last edit is undone exactly when there is one and the document can be opened for it. */
  lemma UndoneExactlyWhen(app: App, s: State, origin: Origin, password: Option<W.Password>)
    requires Inv(app, s, origin) && !s.doc.lost && Willing(app.engine, s.host.sent)
    ensures s.doc.history.Valid()
    ensures var r := Undo(app, s, password).1;
      && (r.Ok? <==> s.doc.history.Applied() != [] && OpensWith(app, s, origin.base, password))
      && (r.Err? ==> r.error == if s.doc.history.Applied() == [] && !(s.doc.guarded && password.None?) then InvalidArgument else Encrypted)
  {
    HistoryOfInv(app, s, origin);
    UndoAnswers(app, s, password);
    if s.doc.history.Applied() != [] && OpensWith(app, s, origin.base, password) {
      WillingUndo(app, s, origin, password);
    } else if s.doc.history.Applied() != [] && (s.doc.guarded ==> password.Some?) {
      UndoLocked(app, s, origin, password);
    }
    hide Inv, Undo, Willing;
  }

  lemma UndoAnswers(app: App, s: State, password: Option<W.Password>)
    requires s.doc.history.Valid()
    ensures var r := Undo(app, s, password).1;
      && (s.doc.guarded && password.None? ==> r == Err(Encrypted))
      && (!(s.doc.guarded && password.None?) && s.doc.history.Applied() == [] ==> r == Err(InvalidArgument))
  {
    hide RevertInWorker, Changed, W.WorkerEditsOf;
  }

  lemma UndoLocked(app: App, s: State, origin: Origin, password: Option<W.Password>)
    requires Inv(app, s, origin) && !s.doc.lost && Willing(app.engine, s.host.sent)
    requires s.doc.history.Valid() && s.doc.history.Applied() != [] && (s.doc.guarded ==> password.Some?)
    requires !W.Unlocks(app.engine, origin.base, if s.doc.guarded then password else Option.None)
    ensures Undo(app, s, password).1 == Err(Encrypted)
  {
    BeforeIsAsked(app, s, origin);
    var before := s.doc.history.Undo().Applied();
    hide *;
    CopyIsMeant(app, s, origin);
    LockedRevert(app, s, origin.base, W.WorkerEditsOf(s.doc.things, before).value, if s.doc.guarded then password else Option.None);
    UndoFails(app, s, password, Encrypted);
  }

  /** What is asked for to undo an edit can be asked for. */
  lemma BeforeIsAsked(app: App, s: State, origin: Origin)
    requires Inv(app, s, origin) && s.doc.history.Valid() && s.doc.history.Applied() != []
    ensures s.doc.history.Undo().Valid() && W.WorkerEditsOf(s.doc.things, s.doc.history.Undo().Applied()).Some?
  {
    var applied, before := s.doc.history.Applied(), s.doc.history.Undo().Applied();
    assert before == applied[..|before|];
    assert W.Replayed(app.engine, s.doc.things, origin.base, applied).Some? by { MeantIs(app, s, origin); }
    hide *;
    W.ReplayedPrefix(app.engine, s.doc.things, origin.base, applied, |before|);
    W.RevertReplays(app.engine, s.doc.things, origin.base, before);
  }

  lemma MeantIs(app: App, s: State, origin: Origin)
    requires Inv(app, s, origin) && s.doc.history.Valid()
    ensures W.Replayed(app.engine, s.doc.things, origin.base, s.doc.history.Applied()).Some?
  {
    hide W.Replayed;
  }

  lemma UndoFails(app: App, s: State, password: Option<W.Password>, code: ErrorCode)
    requires s.doc.history.Valid() && s.doc.history.Applied() != [] && (s.doc.guarded ==> password.Some?)
    requires s.doc.history.Undo().Valid()
    requires var asked := W.WorkerEditsOf(s.doc.things, s.doc.history.Undo().Applied());
      asked.Some? && RevertInWorker(app, s, asked.value, if s.doc.guarded then password else Option.None).1 == Err(code)
    ensures Undo(app, s, password).1 == Err(code)
  {
    hide RevertInWorker, Changed, W.WorkerEditsOf;
  }

  lemma LockedRevert(app: App, s: State, base: Content, asked: seq<WorkerEdit>, password: Option<W.Password>)
    requires s.doc.history.Valid() && !s.doc.lost && Willing(app.engine, s.host.sent)
    requires s.doc.workerDoc in s.host.copies && s.host.copies[s.doc.workerDoc].original == base
    requires !W.Unlocks(app.engine, base, password)
    ensures RevertInWorker(app, s, asked, password).1 == Err(Encrypted)
  {
    hide W.ApplyAll;
  }

  /** With a willing worker the next edit is made again exactly when one was undone and the worker can make it. */
  lemma RedoneExactlyWhen(app: App, s: State, origin: Origin)
    requires Inv(app, s, origin) && !s.doc.lost && Willing(app.engine, s.host.sent)
    ensures s.doc.history.Valid() && Meant(app, s.doc, origin.base).Some?
    ensures Redo(app, s).1.Ok?
      <==> s.doc.history.Undone() != []
           && W.Made(app.engine, s.doc.things, Meant(app, s.doc, origin.base).value, s.doc.history.Undone()[0]).Some?
  {
    CopyIsMeant(app, s, origin);
    if s.doc.history.CanRedo() {
      assert s.doc.history.Undone()[0] == s.doc.history.edits[s.doc.history.applied];
      AskedEdit(app, s, s.doc.history.edits[s.doc.history.applied]);
    }
    hide Inv, EditInWorker, Changed, Willing, Meant;
  }

  lemma AskedEdit(app: App, s: State, edit: Edit)
    requires s.doc.history.Valid() && !s.doc.lost && s.doc.workerDoc in s.host.copies && Willing(app.engine, s.host.sent)
    ensures W.Made(app.engine, s.doc.things, s.host.copies[s.doc.workerDoc].now, edit).Some?
      <==> WorkerEditOf(s.doc.things, edit).Some? && EditInWorker(app, s, WorkerEditOf(s.doc.things, edit).value).1.Ok?
  {
  }

  // ----- recovering

  /** How many pages there are once all edits are made. */
  function CountAll(edits: seq<Edit>, count: nat, sourcePages: SourcePages): int
    decreases |edits|
  {
    if edits == [] then count
    else
      var next := CountOnce(edits[0], count, sourcePages);
      if next < 0 then next else CountAll(edits[1..], next, sourcePages)
  }

  lemma {:induction false} CountAllIs(edits: seq<Edit>, count: nat, allowed: Permissions, sourcePages: SourcePages)
    requires 1 <= count <= MAX_PAGE_COUNT && forall i :: 0 <= i < |edits| ==> Valid(edits[i])
    requires PagesAfterAll(edits, count, allowed, sourcePages).Ok?
    ensures PagesAfterAll(edits, count, allowed, sourcePages).value == CountAll(edits, count, sourcePages)
    decreases |edits|
  {
    hide PagesAfter, Accepts, Valid, CountOnce;
    if edits != [] {
      FirstThenRest(edits, count, allowed, sourcePages);
      AcceptedExactlyWhen(edits[0], count, allowed, sourcePages);
      AcceptsCount(edits[0], count, allowed, sourcePages);
      CountAllIs(edits[1..], CountOnce(edits[0], count, sourcePages), allowed, sourcePages);
    }
  }

  /** The journal's edits can all be made on the document, and leave as many pages as were foreseen. */
  ghost predicate CanRecover(app: App, s: State, base: Content)
    requires s.doc.things.Valid()
  {
    var edits, things := Left(s).edits, s.doc.things.Restore(Left(s).pictures, Left(s).models);
    var made := W.Replayed(app.engine, things, base, edits);
    && AcceptsAll(edits, |app.engine.pages(base)|, s.doc.info.permissions, NoSources)
    && made.Some? && |app.engine.pages(made.value)| == CountAll(edits, |app.engine.pages(base)|, NoSources)
  }

  /**
   * With a willing worker what an earlier run left is recovered exactly when it is offered, in whole or in
   * part, nothing is unsaved, and its edits can be made on the file.
   */
  lemma RecoveredExactlyWhen(app: App, s: State, origin: Origin)
    requires Inv(app, s, origin) && !s.doc.lost && Willing(app.engine, s.host.sent)
    ensures s.doc.history.Valid() && s.doc.things.Valid()
    ensures Recover(app, s).1.Ok?
      <==> && (s.doc.info.recovery.Available? || s.doc.info.recovery.Partial?) && s.doc.history.Applied() == []
           && CanRecover(app, s, origin.base)
  {
    ValidOfInv(app, s, origin);
    if MayRecover(s) {
      OfferIsThere(app, s, origin);
      RecoverUnfolds(app, s);
      ReplayedExactlyWhen(app, s, origin);
    }
    hide Inv, Willing, Replay, KeepJournal, Renumber, CanRecover, W.Replayed;
  }

  lemma OfferIsThere(app: App, s: State, origin: Origin)
    requires Inv(app, s, origin) && MayRecover(s)
    ensures s.doc.recovered.Some? && Offered(s.doc) && s.doc.history.applied == 0 && !s.doc.history.Unsaved()
    ensures Left(s) == s.doc.recovered.value.body && J.Readable(app.rules, Left(s))
  {
    assert JournalsHeld(app, s);
  }

  lemma ReplayedExactlyWhen(app: App, s: State, origin: Origin)
    requires Inv(app, s, origin) && !s.doc.lost && Willing(app.engine, s.host.sent) && MayRecover(s)
    requires s.doc.history.Valid() && s.doc.things.Valid() && J.Readable(app.rules, Left(s))
    ensures Replay(app, Restoring(s, Left(s)), Left(s).edits).1.Ok? <==> CanRecover(app, s, origin.base)
  {
    var t, edits := Restoring(s, Left(s)), Left(s).edits;
    var count := |s.doc.info.pages|;
    hide Inv, Willing, ReplayEdits, PagesAfterAll, AcceptsAll, CountAll, W.Replayed, J.Readable;
    FileIsHad(app, s, origin, t);
    PagesAreValid(app, s, origin);
    AllAcceptedExactlyWhen(edits, count, s.doc.info.permissions, NoSources);
    if PagesAfterAll(edits, count, s.doc.info.permissions, NoSources).Ok? {
      CountAllIs(edits, count, s.doc.info.permissions, NoSources);
    }
    RestoredNames(app, s.doc.things, Left(s));
    assert [] + edits == edits;
    ReplayEditsFacts(app, t, origin.base, [], edits, s.doc.info.pages);
    if W.Replayed(app.engine, t.doc.things, origin.base, edits).Some? {
      WillingReplay(app, t, origin.base, [], edits, s.doc.info.pages);
    }
  }

  lemma FileIsHad(app: App, s: State, origin: Origin, t: State)
    requires Inv(app, s, origin) && !s.doc.lost && s.doc.history.applied == 0
    requires t == s.(doc := s.doc.(things := t.doc.things))
    ensures t.doc.history.Valid() && HasReplayed(app, t, origin.base, [], s.doc.info.pages)
    ensures s.doc.info.pages == app.engine.pages(origin.base)
  {
    CopyIsMeant(app, s, origin);
    MeantOfBase(app, s.doc, origin.base);
    HistoryOfInv(app, s, origin);
    assert W.Replayed(app.engine, t.doc.things, origin.base, []) == Some(origin.base);
  }

  // ----- what is kept for edits to come

  /** What the document's edits name is kept, and there is room for one more. */
  predicate HasRoomFor<T>(kept: Kept<T>, used: set<nat>, most: nat) { |kept.UsedBy(used)| < most }

  /** The thing is kept under a number none had, beside those that the document's edits name. */
  predicate KeptBeside<T(==)>(before: Kept<T>, after: Kept<T>, used: set<nat>, thing: T)
  {
    exists id: nat {:trigger id in after.things} ::
      id !in before.things && id in after.things && after.things == before.UsedBy(used)[id := thing]
  }

  lemma KeptWhen<T>(kept: Kept<T>, thing: T, used: set<nat>, most: nat, fits: (map<nat, T>, T) -> bool)
    requires kept.Valid()
    ensures var r := kept.Add(thing, used, most, fits);
      && (r.Ok? <==> HasRoomFor(kept, used, most) && fits(kept.UsedBy(used), thing))
      && (r.Ok? ==> KeptBeside(kept, r.value.0, used, thing))
      && (r.Err? ==> r.error == LimitExceeded)
  {
    var r := kept.Add(thing, used, most, fits);
    assert (map id | id in kept.things && id in used :: kept.things[id]) == kept.UsedBy(used);
    if r.Ok? { assert r.value.1 in r.value.0.things; }
  }

  /** A picture is kept exactly when the author allows annotations and fewer than 16 are in use. */
  lemma PictureKeptExactlyWhen(app: App, s: State, picture: Picture)
    requires s.doc.history.Valid() && s.doc.things.Valid() && Willing(app.engine, s.host.sent)
    ensures var r, used := AddPicture(app, s, picture), PicturesOf(s.doc.history.edits);
      && (r.1.Ok? <==> s.doc.info.permissions.annotate && HasRoomFor(s.doc.things.pictures, used, 16))
      && (r.1.Ok? ==> KeptBeside(s.doc.things.pictures, r.0.doc.things.pictures, used, picture)
                      && r.0.doc.things.sources == s.doc.things.sources && r.0.doc.things.models == s.doc.things.models)
      && (r.1.Err? ==> r.0.doc.things == s.doc.things
                       && r.1.error == if s.doc.info.permissions.annotate then LimitExceeded else InvalidArgument)
  {
    assert app.engine.fault(s.host.sent).Fine?;
    KeptWhen(s.doc.things.pictures, picture, PicturesOf(s.doc.history.edits), MAX_PICTURES, (_, _) => true);
    hide Willing, HasRoomFor, KeptBeside;
  }

  /** Words for a text box: as many as there may be edits, and their bytes within the limit. */
  lemma WordsKeptExactlyWhen(app: App, s: State, model: Model, fits: (map<nat, Model>, Model) -> bool)
    requires s.doc.history.Valid() && s.doc.things.Valid() && Willing(app.engine, s.host.sent)
    ensures var r, used := AddModel(app, s, model, fits), ModelsOf(s.doc.history.edits);
      && (r.1.Ok? <==> && s.doc.info.permissions.annotate && HasRoomFor(s.doc.things.models, used, MAX_UNDO_EDITS)
                       && fits(s.doc.things.models.UsedBy(used), model))
      && (r.1.Ok? ==> KeptBeside(s.doc.things.models, r.0.doc.things.models, used, model)
                      && r.0.doc.things.sources == s.doc.things.sources && r.0.doc.things.pictures == s.doc.things.pictures)
      && (r.1.Err? ==> r.0.doc.things == s.doc.things
                       && r.1.error == if s.doc.info.permissions.annotate then LimitExceeded else InvalidArgument)
  {
    assert app.engine.fault(s.host.sent).Fine?;
    KeptWhen(s.doc.things.models, model, ModelsOf(s.doc.history.edits), MAX_TEXT_BOX_MODELS, fits);
    hide Willing, HasRoomFor, KeptBeside;
  }

  /** A file to take pages from: the author allows assembling, and fewer than 16 are in use. */
  lemma SourceKeptExactlyWhen(app: App, s: State, bytes: Content, boxes: nat, fits: (map<nat, Source>, Source) -> bool)
    requires s.doc.history.Valid() && s.doc.things.Valid() && app.engine.fault(s.host.sent).Fine?
    ensures var r, used := AddSource(app, s, bytes, boxes, fits), SourcesOf(s.doc.history.edits);
      var source := Source(bytes, |app.engine.pages(bytes)|);
      && (r.1.Ok? <==> && Gives(s.doc.info.permissions, Assembling) && HasRoomFor(s.doc.things.sources, used, 16)
                       && fits(s.doc.things.sources.UsedBy(used), source))
      && (r.1.Ok? ==> KeptBeside(s.doc.things.sources, r.0.doc.things.sources, used, source)
                      && r.0.doc.things.pictures == s.doc.things.pictures && r.0.doc.things.models == s.doc.things.models)
      && (r.1.Err? ==> r.0.doc.things == s.doc.things
                       && r.1.error == if Gives(s.doc.info.permissions, Assembling) then LimitExceeded else InvalidArgument)
  {
    KeptWhen(s.doc.things.sources, Source(bytes, |app.engine.pages(bytes)|), SourcesOf(s.doc.history.edits), MAX_SOURCES, fits);
    AddSourceIs(app, s, bytes, boxes, fits);
    var asked := AskedForSource(app, s, boxes);
    SameHasThings(s, asked);
    assert AddSource(app, s, bytes, boxes, fits) == if Gives(s.doc.info.permissions, Assembling) then Prepared(app, asked, bytes, fits)
                                                    else (s, Err(InvalidArgument));
    hide HasRoomFor, KeptBeside, AddSource, AskedForSource, SameButWorker;
  }

  /** The pages of a kept file can be put in exactly where there is such a place, while there is room for all of them. */
  lemma InsertedExactlyWhen(s: State, at: nat, source: SourceId)
    requires 1 <= |s.doc.info.pages| <= MAX_PAGE_COUNT
    ensures MayAsk(s, InsertPages(at, source))
      <==> && source in s.doc.things.sources.things && at <= |s.doc.info.pages|
           && (s.doc.info.permissions.assemble || s.doc.info.permissions.change)
           && |s.doc.info.pages| + s.doc.things.sources.things[source].pages <= MAX_PAGE_COUNT
  {
    var edit := InsertPages(at, source);
    assert SourcesOf([edit]) == {source} && PicturesOf([edit]) == {} && ModelsOf([edit]) == {} by {
      assert [edit][0] == edit && SourceOf(edit) == {source};
    }
  }

  /** What is sent with an edit is the thing it names; with one that names none, nothing. */
  lemma SentWith(things: Things, edit: Edit)
    requires WorkerEditOf(things, edit).Some?
    ensures var sent := WorkerEditOf(things, edit).value;
      && sent.edit == edit
      && (forall id :: id in SourceOf(edit) ==> id in things.sources.things && sent.with == Some(things.sources.things[id].bytes))
      && (forall id :: id in PictureOf(edit) ==> id in things.pictures.things && sent.with == Some(things.pictures.things[id]))
      && (forall id :: id in ModelOf(edit) ==> id in things.models.things && sent.with == Some(things.models.things[id]))
      && (SourceOf(edit) + PictureOf(edit) + ModelOf(edit) == {} ==> sent.with.None?)
  {
  }

  /** Which edits name something kept. */
  lemma NamesSomething(edit: Edit)
    ensures SourceOf(edit) != {} <==> edit.InsertPages?
    ensures PictureOf(edit) != {} <==> edit.AddImageStamp?
    ensures ModelOf(edit) != {} <==> edit.AddTextBox? || (edit.SetTextBox? && edit.words.Some?)
  {
    if edit.InsertPages? { assert edit.source in SourceOf(edit); }
    if edit.AddImageStamp? { assert edit.image in PictureOf(edit); }
    if edit.AddTextBox? { assert edit.model in ModelOf(edit); }
    if edit.SetTextBox? && edit.words.Some? { assert edit.words.value in ModelOf(edit); }
  }

  // ----- the worker given up

  /** What goes wrong leaves nothing to work with, or a copy that may be half edited. */
  predicate CostsWorker(fault: W.Fault)
  {
    match fault
    case Fine => false
    case Nonsense => true
    case HalfDone(_, _) => true
    case Fails(error) =>
      error in {W.Crashed, W.Timeout, W.Violation, W.Spawn, W.Reported(Internal), W.Reported(LimitExceeded)}
  }

  /**
   * An edit that is asked of the worker costs it exactly when the request goes wrong in that way, or what
   * the worker makes has no pages, too many, or another number than was foreseen.
   */
  lemma LosesWorkerExactlyWhen(app: App, s: State, origin: Origin, edit: Edit)
    requires Inv(app, s, origin) && !s.doc.lost
    ensures s.doc.history.Valid() && Meant(app, s.doc, origin.base).Some?
    ensures MayAsk(s, edit) && HasRoom(app, s, edit) ==>
      && WorkerEditOf(s.doc.things, edit).Some?
      && var fault := app.engine.fault(s.host.sent);
         var after := app.engine.apply(Meant(app, s.doc, origin.base).value, WorkerEditOf(s.doc.things, edit).value);
         ApplyEdit(app, s, edit).0.doc.lost
         <==> || CostsWorker(fault)
              || (fault.Fine? && after.Some?
                  && (!W.ValidPages(app.engine.pages(after.value))
                      || |app.engine.pages(after.value)| != CountOnce(edit, |s.doc.info.pages|, s.doc.things.SourcePages())))
  {
    CopyIsMeant(app, s, origin);
    PagesAreValid(app, s, origin);
    RefusedExactlyWhen(app, s, edit);
    if MayAsk(s, edit) && HasRoom(app, s, edit) {
      MayAskIs(s, edit);
      ValidExactlyWhen(edit);
      AcceptedExactlyWhen(edit, |s.doc.info.pages|, s.doc.info.permissions, s.doc.things.SourcePages());
      EditCosts(app, s, WorkerEditOf(s.doc.things, edit).value);
      KeptLost(app, EditInWorker(app, s, WorkerEditOf(s.doc.things, edit).value).0, s.doc.history.Push(edit));
    }
    hide Inv, EditInWorker, Changed, Refusal, PagesAfter, MayAsk, HasRoom, CountOnce, Meant, CostsWorker;
  }

  lemma EditCosts(app: App, s: State, asked: WorkerEdit)
    requires s.doc.history.Valid() && !s.doc.lost && s.doc.workerDoc in s.host.copies
    ensures var r := EditInWorker(app, s, asked);
      var fault, after := app.engine.fault(s.host.sent), app.engine.apply(s.host.copies[s.doc.workerDoc].now, asked);
      && (r.1.Ok? <==> fault.Fine? && after.Some? && W.ValidPages(app.engine.pages(after.value)))
      && (r.1.Ok? ==> r.1.value == app.engine.pages(after.value) && !r.0.doc.lost)
      && (r.1.Err? ==>
            (r.0.doc.lost || HalfEdited(r.1.error)
             <==> CostsWorker(fault) || (fault.Fine? && after.Some? && !W.ValidPages(app.engine.pages(after.value)))))
  {
  }

  lemma KeptLost(app: App, s: State, history: Timeline)
    requires history.Valid()
    ensures forall pages :: Changed(app, s, history, pages).doc.lost == s.doc.lost
  {
    forall pages ensures Changed(app, s, history, pages).doc.lost == s.doc.lost { ChangedDoes(app, s, history, pages); }
    hide Changed;
  }

  /** The tab keeps its document through a command exactly unless it was opened with a password and has no worker then. */
  lemma StaysInTabExactlyWhen(app: App, s: State, command: Command)
    requires s.doc.history.Valid() && s.doc.things.Valid() && s.inTab && !command.FileChanges?
    ensures var t := Step(app, s, command).0;
      && (t.inTab <==> Work(app, s, command).0.inTab && !(t.doc.guarded && t.doc.lost))
      && t == Work(app, s, command).0.(inTab := t.inTab)
  {
    StepIs(app, s, command);
    hide Work;
  }
}
