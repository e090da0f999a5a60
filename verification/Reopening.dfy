/**
 * When a document whose worker was lost can be worked on again: exactly what `reopen` and
 * `live_worker` ask for, with a worker that does what it is asked, and what they do not notice
 * (src-tauri/src/documents.rs:2992-3006, 3450-3487).
 */
module Reopening {
  import opened Basics
  import opened Edits
  import opened Permits
  import opened Histories
  import opened Stores
  import opened Sessions
  import opened Invariant
  import opened SessionProofs
  import opened SavingProofs
  import opened ComingBack
  import opened Restart
  import opened Consequences
  import W = Worker
  import J = Journals

  /** A willing worker makes a list of edits exactly when each can be made on what the others made. */
  lemma {:induction false} WillingReopenEdits(app: App, s: State, id: nat, base: Content, made: seq<Edit>, edits: seq<Edit>, pages: seq<W.PageSize>)
    requires Willing(app.engine, s.host.sent) && s.host.Valid() && id in s.host.copies
    requires W.Replayed(app.engine, s.doc.things, base, made).Some?
    requires s.host.copies[id] == W.Copy(W.Replayed(app.engine, s.doc.things, base, made).value, base)
    requires pages == app.engine.pages(s.host.copies[id].now)
    ensures ReopenEdits(app, s, id, edits, pages).1.Ok?
      <==> W.Replayed(app.engine, s.doc.things, base, made + edits).Some?
    decreases |edits|
  {
    if edits == [] {
      assert made + edits == made;
    } else {
      var more := made + [edits[0]];
      assert more + edits[1..] == made + edits;
      W.ReplayedPush(app.engine, s.doc.things, base, made, edits[0]);
      assert app.engine.fault(s.host.sent).Fine?;
      if W.Replayed(app.engine, s.doc.things, base, made + edits).Some? {
        W.ReplayedPrefix(app.engine, s.doc.things, base, made + edits, |more|);
        assert (made + edits)[..|more|] == more;
      }
      if W.Replayed(app.engine, s.doc.things, base, more).Some? {
        var r := W.Edit(app.engine, s.host, id, WorkerEditOf(s.doc.things, edits[0]).value);
        WillingReopenEdits(app, With(s, r.0), id, base, more, edits[1..], r.1.value);
      }
    }
  }

  /** What the file at the document's path has to be for the document to be opened from it again. */
  ghost predicate TakenFor(app: App, doc: Document, content: Content)
    requires doc.history.Valid()
  {
    var meant := Meant(app, doc, content);
    && app.engine.lock(content).None?
    && W.ValidPages(app.engine.pages(content))
    && meant.Some? && app.engine.pages(meant.value) == doc.info.pages
  }

  /**
   * A lost document comes back exactly when it was opened without a password and the file at its
   * path, whatever it is, needs none and has the pages the page was told, once the edits are made.
   */
  lemma LiveAgainExactlyWhen(app: App, s: State)
    requires s.doc.history.Valid() && s.host.Valid() && s.doc.lost && Willing(app.engine, s.host.sent)
    ensures LiveWorker(app, s).1.Ok?
      <==> && !s.doc.guarded && s.doc.path in s.disk.files
           && TakenFor(app, s.doc, s.disk.files[s.doc.path].content)
  {
    if !s.doc.guarded && s.doc.path in s.disk.files {
      var content := s.disk.files[s.doc.path].content;
      assert app.engine.fault(s.host.sent).Fine?;
      var answer := W.Open(app.engine, s.host, content, Option.None);
      if answer.1.Expected? {
        var applied := s.doc.history.Applied();
        assert [] + applied == applied;
        var t := With(s, answer.0);
        WillingReopenEdits(app, t, answer.1.value, content, [], applied, app.engine.pages(content));
        ReopenEditsReplays(app, t, answer.1.value, content, [], applied, app.engine.pages(content));
      }
    }
  }

  /** While nobody changed its file, a document opened without a password always comes back. */
  lemma UnchangedComesBack(app: App, s: State, origin: Origin)
    requires Inv(app, s, origin) && s.doc.lost && !s.doc.guarded && UnchangedOnDisk(s)
    requires app.engine.lock(origin.base).None? && Willing(app.engine, s.host.sent)
    ensures var r := LiveWorker(app, s);
      && r.1.Ok? && !r.0.doc.lost && Inv(app, r.0, origin)
      && r.0.doc.workerDoc in r.0.host.copies
      && r.0.host.copies[r.0.doc.workerDoc] == W.Copy(Meant(app, s.doc, origin.base).value, origin.base)
  {
    HistoryOfInv(app, s, origin);
    assert s.disk.files[s.doc.path].content == origin.base;
    LiveAgainExactlyWhen(app, s);
    LiveWorkerKeeps(app, s, origin);
    var live := LiveWorker(app, s).0;
    hide LiveWorker;
    assert OriginAfter(app, s, origin).base == origin.base;
    if !origin.steady {
      assert Inv(app, live, Origin(origin.base, false));
    }
    assert IsCopyOf(app, live, origin.base);
  }

  /** What the page asks for is well asked, accepted by what is known of the document, and all it names is kept. */
  ghost predicate MayAsk(s: State, edit: Edit)
  {
    && WellAsked(edit)
    && Accepts(edit, |s.doc.info.pages|, s.doc.info.permissions, s.doc.things.SourcePages())
    && s.doc.things.Names([edit])
  }

  /** There is room for one more edit, in the history and in the journal. */
  predicate HasRoom(app: App, s: State, edit: Edit)
    requires s.doc.history.Valid()
  {
    && |s.doc.history.Applied()| < MAX_UNDO_EDITS
    && (s.doc.identity.Some? ==> app.rules.fits(J.BodyOf(s.doc.things, s.doc.history.Applied() + [edit])))
  }

  lemma AskedForKept(things: Things, edit: Edit)
    ensures WorkerEditOf(things, edit).Some? <==> things.Names([edit])
  {
    var one := [edit];
    assert one[0] == edit;
    forall id | id in SourceOf(edit) ensures id in SourcesOf(one) { assert id in SourceOf(one[0]); }
    forall id | id in PictureOf(edit) ensures id in PicturesOf(one) { assert id in PictureOf(one[0]); }
    forall id | id in ModelOf(edit) ensures id in ModelsOf(one) { assert id in ModelOf(one[0]); }
  }

  /**
   * An edit is refused before the worker is asked exactly when it may not be asked for, or there is no
   * room; for want of room, or for too many pages, with an answer of its own.
   */
  lemma RefusedExactlyWhen(app: App, s: State, edit: Edit)
    requires s.doc.history.Valid() && W.ValidPages(s.doc.info.pages)
    ensures var refusal := Refusal(app, s, edit);
      && (refusal.None? <==> MayAsk(s, edit) && HasRoom(app, s, edit))
      && (refusal.Some? ==>
            (refusal == Some(LimitExceeded)
             <==> || MayAsk(s, edit)
                  || (WellAsked(edit) && IsThere(edit, |s.doc.info.pages|, s.doc.info.permissions, s.doc.things.SourcePages())
                      && CountOnce(edit, |s.doc.info.pages|, s.doc.things.SourcePages()) > MAX_PAGE_COUNT)))
      && refusal in {Option.None, Some(LimitExceeded), Some(InvalidArgument)}
  {
    ValidExactlyWhen(edit);
    if Valid(edit) {
      AcceptedExactlyWhen(edit, |s.doc.info.pages|, s.doc.info.permissions, s.doc.things.SourcePages());
    }
    AskedForKept(s.doc.things, edit);
    hide Valid, PagesAfter, WellAsked, IsThere, CountOnce, WorkerEditOf, Things.Names, J.BodyOf;
  }

  /**
   * With a willing worker that has the document, an edit is made exactly when it may be asked for, there
   * is room for it, and the worker can make it and leaves as many pages as were foreseen.
   */
  lemma AppliedExactlyWhen(app: App, s: State, origin: Origin, edit: Edit)
    requires Inv(app, s, origin) && !s.doc.lost && Willing(app.engine, s.host.sent)
    ensures s.doc.history.Valid() && Meant(app, s.doc, origin.base).Some?
    ensures ApplyEdit(app, s, edit).1.Ok?
      <==> && MayAsk(s, edit) && HasRoom(app, s, edit)
           && var made := W.Made(app.engine, s.doc.things, Meant(app, s.doc, origin.base).value, edit);
             made.Some? && |app.engine.pages(made.value)| == CountOnce(edit, |s.doc.info.pages|, s.doc.things.SourcePages())
  {
    PagesAreValid(app, s, origin);
    RefusedExactlyWhen(app, s, edit);
    AppliedUnlessRefused(app, s, origin, edit);
    ValidExactlyWhen(edit);
    if Valid(edit) {
      AcceptedExactlyWhen(edit, |s.doc.info.pages|, s.doc.info.permissions, s.doc.things.SourcePages());
    }
    hide Inv, Willing, ApplyEdit, Refusal, MayAsk, HasRoom, CountOnce, PagesAfter, W.Made, Valid;
    assert MayAsk(s, edit) ==> Valid(edit) by { assert MayAsk(s, edit) ==> WellAsked(edit) by { MayAskIs(s, edit); } }
  }

  lemma MayAskIs(s: State, edit: Edit)
    ensures MayAsk(s, edit) ==>
      WellAsked(edit) && Accepts(edit, |s.doc.info.pages|, s.doc.info.permissions, s.doc.things.SourcePages())
  {
  }

  lemma PagesAreValid(app: App, s: State, origin: Origin)
    requires Inv(app, s, origin)
    ensures s.doc.history.Valid() && W.ValidPages(s.doc.info.pages)
  {
    ReplayedValid(app, s.doc.things, origin.base, s.doc.history.Applied());
  }

  lemma AppliedUnlessRefused(app: App, s: State, origin: Origin, edit: Edit)
    requires Inv(app, s, origin) && !s.doc.lost && Willing(app.engine, s.host.sent)
    ensures s.doc.history.Valid() && Meant(app, s.doc, origin.base).Some?
    ensures ApplyEdit(app, s, edit).1.Ok?
      <==> && Refusal(app, s, edit).None?
           && var made := W.Made(app.engine, s.doc.things, Meant(app, s.doc, origin.base).value, edit);
             made.Some?
             && PagesAfter(edit, |s.doc.info.pages|, s.doc.info.permissions, s.doc.things.SourcePages())
                == Ok(|app.engine.pages(made.value)|)
  {
  }

  // ----- what is not noticed

  const ONE_PAGE := [W.PageSize(600, 800)]

  const ANY := W.Engine((c, _) => Some(c), _ => ONE_PAGE, _ => Permissions(true, true, true, true),
                        _ => false, _ => false, _ => false, _ => Option.None, (c, _) => c, _ => Option.None, _ => W.Fine)

  /**
   * What is read in place of the file the document was opened from is not noticed when it has the
   * same pages: here the document is the other file's from then on, with no edit of its own.
   */
  lemma AnotherFileIsTaken() returns (app: App, s: State, origin: Origin)
    ensures Inv(app, s, origin) && s.doc.lost && !UnchangedOnDisk(s)
    ensures var r := LiveWorker(app, s);
      && r.1.Ok? && r.0.doc.info == s.doc.info
      && r.0.doc.workerDoc in r.0.host.copies
      && r.0.host.copies[r.0.doc.workerDoc].original != origin.base
  {
    var mine, theirs := Content([1]), Content([2]);
    app := App(ANY, J.Rules(_ => true, _ => 0));
    var info := Info(1, ONE_PAGE, Permissions(true, true, true, true), false, false, false, false, false, NoRecovery, false);
    var doc := Document(info, "a.pdf", 0, 1, false, true, Some(0), NOTHING, false, false,
                        Option.None, Option.None, NO_THINGS, false, Option.None);
    s := State(doc, W.Host(map[], 2, 0), Disk(map["a.pdf" := File(theirs, 1, false)], 2), J.Folder(map[], {}), 2, true);
    origin := Origin(mine, true);
    assert Meant(app, doc, mine) == Some(mine) && Meant(app, doc, theirs) == Some(theirs);
    assert SourcesOf([]) == {} && PicturesOf([]) == {} && ModelsOf([]) == {};
    assert PrefixForeseen(app, doc, mine, [], 0);
    LiveAgainExactlyWhen(app, s);
    ReopenFacts(app, s);
  }

  // ----- what is answered as a failure

  /** A name for a journal that none has. */
  function NewName(used: set<nat>): (name: nat)
    ensures name !in used
  {
    if used == {} then 0 else Highest(used) + 1
  }

  /** Locked with "k", and with a worker that does its first two requests and crashes at the third. */
  const CRASHES_THIRD := ANY.(lock := _ => Some("k"), fault := n => if n == 2 then W.Fails(W.Crashed) else W.Fine)

  const CRASHES := App(CRASHES_THIRD, J.Rules(_ => true, NewName))

  const LOCKED := Disk(map["a.pdf" := File(Content([1]), 0, false)], 1)

  /** Its file opened with the password, by the first of the worker's requests. */
  lemma OpenedWithPassword() returns (s: State)
    ensures AppOk(CRASHES)
    ensures OpenFile(CRASHES, LOCKED, J.Folder(map[], {}), 1, 0, "a.pdf", Some("k"), Option.None) == Ok(s)
    ensures s.doc.guarded && !s.doc.lost && s.doc.workerDoc in s.host.copies && s.host.sent == 1 && s.disk == LOCKED && s.inTab
    ensures exists origin :: Inv(CRASHES, s, origin)
  {
    assert AppOk(CRASHES);
    assert CRASHES.engine.fault(0).Fine?;
    var first := OpenFile(CRASHES, LOCKED, J.Folder(map[], {}), 1, 0, "a.pdf", Some("k"), Option.None);
    s := first.value;
    hide AppOk, Inv;
    OpenFileKeeps(CRASHES, LOCKED, J.Folder(map[], {}), 1, 0, "a.pdf", Some("k"), Option.None);
    assert Inv(CRASHES, s, Origin(LOCKED.files["a.pdf"].content, true));
  }

  /**
   * A file opened with its password, saved elsewhere: the worker opened it and wrote the file, which
   * is put in place, and crashes when it is told to start from there. The user is told of a failure.
   */
  lemma WrittenYetFailed() returns (app: App, disk: Disk, s: State)
    ensures s.doc.history.Valid() && s.doc.things.Valid()
    ensures var r := Step(app, s, DoSave(Some(Place("b.pdf", 0)), NO_FAULTS));
      && r.1 == Err(UnknownDocument) && Gone(r.0)
      && "b.pdf" !in s.disk.files && "b.pdf" in r.0.disk.files
    ensures OpenFile(app, disk, J.Folder(map[], {}), 1, 0, "a.pdf", Some("k"), Option.None) == Ok(s)
    ensures AppOk(app)
  {
    hide *;
    app, disk := CRASHES, LOCKED;
    s := OpenedWithPassword();
    var origin :| Inv(app, s, origin);
    ValidOfInv(app, s, origin);
    var place := Place("b.pdf", 0);
    PutsAndCrashes(s, place);
    FailureChangesNothing(app, s, origin, DoSave(Some(place), NO_FAULTS));
    SavePutsWhen(app, s, Some(place), NO_FAULTS);
    SavedIsThere(app, s, place, NO_FAULTS);
    SavedByStep(app, s, place);
  }

  /** The worker writes the file, and crashes at the request after that. */
  lemma PutsAndCrashes(s: State, place: Place)
    requires s.inTab && s.doc.guarded && !s.doc.lost && s.doc.workerDoc in s.host.copies && s.host.sent == 1 && s.disk == LOCKED
    requires place == Place("b.pdf", 0)
    ensures PutThenGone(CRASHES, s, DoSave(Some(place), NO_FAULTS)) && SavePuts(CRASHES, s, Some(place), NO_FAULTS)
    ensures "b.pdf" !in s.disk.files
  {
    assert CRASHES.engine.fault(1).Fine? && !CRASHES.engine.fault(2).Fine?;
    assert "a.pdf" != "b.pdf" by { assert "a.pdf"[0] != "b.pdf"[0]; }
  }

  lemma SavedByStep(app: App, s: State, place: Place)
    requires s.doc.history.Valid() && s.doc.things.Valid() && s.inTab
    ensures Step(app, s, DoSave(Some(place), NO_FAULTS)).0.disk == Save(app, s, Some(place), NO_FAULTS).0.disk
  {
    hide Save;
  }

  /** Where a save put its file there is one. */
  lemma SavedIsThere(app: App, s: State, place: Place, faults: WriteFaults)
    requires s.doc.history.Valid() && s.doc.workerDoc in s.host.copies && !s.doc.lost
    requires Save(app, s, Some(place), faults).1.Ok?
    ensures place.path in Save(app, s, Some(place), faults).0.disk.files
  {
  }

  /** The same file, and a worker that opens it and crashes at the first edit it is asked to make. */
  const CRASHES_SECOND := App(ANY.(lock := _ => Some("k"), fault := n => if n == 1 then W.Fails(W.Crashed) else W.Fine),
                              J.Rules(_ => true, NewName))

  const LEFT := J.Body([ApplyRedactions], map[], map[], 0)

  const RELEASED := J.Folder(map[7 := J.Stored("a.pdf", 0, LEFT)], {})

  /** Where the file is before the journal its tab released is looked for. */
  lemma OpenedWithJournal() returns (t: State)
    ensures t.doc.path == "a.pdf" && t.doc.identity == Some(0) && t.folder == RELEASED && t.inTab && t.host.sent == 1
    ensures t.doc.history == NOTHING && t.doc.things == NO_THINGS && t.doc.guarded && !t.doc.lost
    ensures t.doc.info.pages == ONE_PAGE && t.doc.info.permissions == Permissions(true, true, true, true)
    ensures t.doc.history.Valid() && t.doc.things.Valid()
    ensures OpenFile(CRASHES_SECOND, LOCKED, RELEASED, 1, 0, "a.pdf", Some("k"), Some(7))
         == Ok(RecoverOnOpen(CRASHES_SECOND, t, Some(7)))
  {
    var answer := W.Open(CRASHES_SECOND.engine, W.NewHost(0), Content([1]), Some("k"));
    var doc := DocumentOf(CRASHES_SECOND.engine, 1, "a.pdf", answer.1.value, true, LOCKED.files["a.pdf"]);
    t := State(doc, answer.0, LOCKED, RELEASED, 2, true);
    hide RecoverOnOpen;
  }

  /** The journal is taken back, its edits are to be made at once, and the worker crashes. */
  lemma JournalIsLeft(t: State)
    requires t.doc.path == "a.pdf" && t.doc.identity == Some(0) && t.folder == RELEASED && t.host.sent == 1
    requires t.doc.history == NOTHING && t.doc.things == NO_THINGS && t.doc.guarded && !t.doc.lost
    requires t.doc.info.pages == ONE_PAGE && t.doc.info.permissions == Permissions(true, true, true, true)
    ensures t.doc.history.Valid() && t.doc.things.Valid()
    ensures var s := RecoverOnOpen(CRASHES_SECOND, t, Some(7));
      && s.doc.history.Valid() && s.doc.things.Valid() && s.doc.guarded && s.doc.lost && s.inTab == t.inTab && s.folder.stored == RELEASED.stored
      && s.doc.recovered == Some(J.Found(7, LEFT, true)) && s.doc.info.recovery.Available?
  {
    assert PicturesOf(LEFT.edits) == {} && ModelsOf(LEFT.edits) == {};
    assert J.Takeable(CRASHES_SECOND.rules, RELEASED, 7, "a.pdf");
    var found := J.Found(7, LEFT, true);
    var looked := t.(folder := RELEASED.(inUse := {7}));
    assert FindFor(CRASHES_SECOND, t, Some(7)) == (looked.folder, Some((found, true)));
    var pages := PagesAfterAll([ApplyRedactions], 1, t.doc.info.permissions, NoSources);
    assert pages == Ok(1) by { assert PagesAfterAll([], 1, t.doc.info.permissions, NoSources) == Ok(1); }
    assert Applicable(looked.doc, found);
    var restored := looked.(doc := looked.doc.(things := looked.doc.things.Restore(map[], map[])));
    FirstEditCrashes(restored);
  }

  lemma FirstEditCrashes(t: State)
    requires t.doc.history == NOTHING && !t.doc.lost && t.host.sent == 1
    requires t.doc.info.pages == ONE_PAGE && t.doc.info.permissions == Permissions(true, true, true, true)
    ensures t.doc.history.Valid()
    ensures var r := Replay(CRASHES_SECOND, t, LEFT.edits);
      && r.1.Err? && r.0 == t.(doc := t.doc.(lost := true), host := r.0.host)
  {
    var asked := WorkerEditOf(t.doc.things, ApplyRedactions).value;
    var r := EditInWorker(CRASHES_SECOND, t, asked);
    assert r.1.Err? && r.0 == t.(doc := t.doc.(lost := true), host := r.0.host);
    assert PagesAfterAll([], 1, t.doc.info.permissions, NoSources) == Ok(1);
    hide EditInWorker;
  }

  lemma NamesAreNew()
    ensures AppOk(CRASHES_SECOND)
  {
  }

  lemma DiscardsAndFails(s: State)
    requires s.doc.history.Valid() && s.doc.things.Valid() && s.doc.guarded && s.doc.lost && s.inTab
    requires s.doc.recovered.Some? && s.doc.recovered.value.id == 7
    requires s.folder.stored == RELEASED.stored
    ensures var r := Step(CRASHES_SECOND, s, DoDiscard);
      && r.1 == Err(UnknownDocument) && 7 !in r.0.folder.stored && !r.0.inTab
    ensures Gone(s) && DiscardedAnyway(s, DoDiscard) && !PutThenGone(CRASHES_SECOND, s, DoDiscard) && 7 in s.folder.stored
  {
  }

  /**
   * A file unlocked again whose worker crashes while the edits of its journal are made: the journal
   * is offered, on a document that is gone. Discarding it deletes it, and is answered with an error.
   */
  lemma DiscardedYetFailed() returns (s: State)
    ensures s.inTab && Gone(s) && s.doc.info.recovery.Available? && 7 in s.folder.stored
    ensures s.doc.history.Valid() && s.doc.things.Valid()
    ensures var r := Step(CRASHES_SECOND, s, DoDiscard);
      && r.1 == Err(UnknownDocument) && 7 !in r.0.folder.stored && !r.0.inTab
      && !PutThenGone(CRASHES_SECOND, s, DoDiscard) && DiscardedAnyway(s, DoDiscard)
    ensures OpenFile(CRASHES_SECOND, LOCKED, RELEASED, 1, 0, "a.pdf", Some("k"), Some(7)) == Ok(s)
    ensures AppOk(CRASHES_SECOND)
  {
    hide *;
    NamesAreNew();
    var t := OpenedWithJournal();
    JournalIsLeft(t);
    s := RecoverOnOpen(CRASHES_SECOND, t, Some(7));
    DiscardsAndFails(s);
  }
}
