/**
 * How large journals get. What the document's edits need is checked when an edit is made, not when
 * those of an earlier run are taken over next to what the document keeps
 * (src-tauri/src/documents.rs:616-631, 745-786, 2858-2889; src-tauri/src/recovery.rs:162-196). The
 * journal says what was done exactly until too much is taken over.
 */
module JournalSizes {
  import opened Basics
  import opened Edits
  import opened Histories
  import opened Stores
  import opened Sessions
  import opened Invariant
  import opened SessionProofs
  import opened RecoveryProofs
  import opened Consequences
  import opened Restart
  import opened ComingBack
  import W = Worker
  import J = Journals

  // ----- what says less is no larger

  /** `a` says no more than `b`: its first edits, with no more pictures and words. */
  predicate Within(a: J.Body, b: J.Body)
  {
    && a.edits <= b.edits && a.lost <= b.lost
    && (forall id :: id in a.pictures ==> id in b.pictures && b.pictures[id] == a.pictures[id])
    && (forall id :: id in a.models ==> id in b.models && b.models[id] == a.models[id])
  }

  ghost predicate Monotone(rules: J.Rules)
  {
    forall a: J.Body, b: J.Body :: Within(a, b) && rules.fits(b) ==> rules.fits(a)
  }

  lemma KeptOfPrefix(edits: seq<Edit>, n: nat)
    requires n <= |edits|
    ensures var some, all := JournalledOf(edits[..n]), JournalledOf(edits);
      some.kept == all.kept[..|some.kept|] && some.lost <= all.lost
  {
    var some, all := |JournalledOf(edits[..n]).kept|, |JournalledOf(edits).kept|;
    if some < n { assert edits[..n][some] == edits[some]; }
    if all < n { assert edits[..n][all] == edits[all]; }
  }

  /** What the journal of the first edits says is part of what that of all of them says. */
  lemma PrefixWithin(things: Things, edits: seq<Edit>, n: nat)
    requires n <= |edits|
    ensures Within(J.BodyOf(things, edits[..n]), J.BodyOf(things, edits))
  {
    KeptOfPrefix(edits, n);
    PrefixNames(JournalledOf(edits).kept, |JournalledOf(edits[..n]).kept|);
  }

  /** Restored where no number was taken by another thing, a journal's edits need no more than it says. */
  lemma RestoredWithin(things: Things, body: J.Body)
    requires things.Valid() && forall i :: 0 <= i < |body.edits| ==> !body.edits[i].InsertPages?
    requires NotTaken(things, body.pictures, body.models, body.edits)
    ensures Within(J.BodyOf(things.Restore(body.pictures, body.models), body.edits), body)
  {
    assert JournalledOf(body.edits).kept == body.edits;
  }

  // ----- the journal says what was done

  /** The journal says exactly what was done to the file. */
  predicate SaysAll(s: State)
  {
    s.doc.history.Valid() && (s.doc.journal.Some? && s.doc.identity.Some? ==>
      && s.doc.journal.value in s.folder.stored
      && s.folder.stored[s.doc.journal.value]
         == J.Stored(s.doc.path, s.doc.identity.value, J.BodyOf(s.doc.things, s.doc.history.Applied())))
  }

  /** All the edits of the history, undone ones too, would fit into a journal. */
  predicate AllFit(app: App, doc: Document)
  {
    doc.identity.Some? && doc.history.edits != [] ==> app.rules.fits(J.BodyOf(doc.things, doc.history.edits))
  }

  lemma FitSaysAll(app: App, s: State, origin: Origin)
    requires Inv(app, s, origin) && Monotone(app.rules) && AllFit(app, s.doc)
    ensures SaysAll(s)
    ensures s.doc.identity.Some? && s.doc.history.Applied() != [] ==>
      app.rules.fits(J.BodyOf(s.doc.things, s.doc.history.Applied()))
  {
    PrefixWithin(s.doc.things, s.doc.history.edits, s.doc.history.applied);
    assert JournalOk(app, s);
    hide Agrees, J.BodyOf, Within;
    assert s.doc.journal.Some? ==> InStep(app, s);
  }

  /** A recovery that succeeds with edits whose things, as they are named here, are too large for a journal. */
  predicate RecoversTooMuch(app: App, s: State, command: Command)
  {
    && s.doc.history.Valid() && s.doc.things.Valid() && command.DoRecover? && s.inTab && s.doc.identity.Some?
    && !app.rules.fits(J.BodyOf(Restoring(s, Left(s)).doc.things, Left(s).edits))
    && Recover(app, s).1.Ok?
  }

  /** Recovering is not too large where no number of the journal's things was taken. */
  lemma NotTakenFits(app: App, s: State, origin: Origin)
    requires Inv(app, s, origin) && Monotone(app.rules)
    requires NotTaken(s.doc.things, Left(s).pictures, Left(s).models, Left(s).edits)
    ensures s.doc.history.Valid() && s.doc.things.Valid() && !RecoversTooMuch(app, s, DoRecover)
  {
    if s.doc.recovered.Some? {
      assert J.Readable(app.rules, Left(s));
      RestoredWithin(s.doc.things, Left(s));
    } else {
      assert s.doc.info.recovery.NoRecovery?;
    }
    hide Recover, J.BodyOf, Within, Restoring;
  }

  // ----- every command

  /** The history has the same edits, and they name the same things. */
  predicate SameEdits(s: State, t: State)
  {
    && t.doc.history.edits == s.doc.history.edits && t.doc.things.SameFor(s.doc.things, s.doc.history.edits)
    && (t.doc.identity.Some? ==> s.doc.identity.Some?)
  }

  lemma SameEditsFit(app: App, s: State, t: State)
    requires SameEdits(s, t) && AllFit(app, s.doc)
    ensures AllFit(app, t.doc)
  {
    var edits := s.doc.history.edits;
    BodySameThings(t.doc.things, s.doc.things, edits, |edits|);
    assert edits[..|edits|] == edits;
    hide J.BodyOf, Things.SameFor;
  }

  lemma SameForItself(things: Things, edits: seq<Edit>)
    ensures things.SameFor(things, edits)
  {
  }

  /** What a command that succeeds leaves of the edits and what they name. */
  lemma OkLeaves(app: App, s: State, origin: Origin, command: Command)
    requires Inv(app, s, origin) && !command.FileChanges? && !command.DoApply? && !command.DoRecover?
    ensures s.doc.history.Valid() && s.doc.things.Valid()
    ensures var r := Work(app, s, command);
      r.1.Ok? ==> r.0.doc.history.edits == [] || SameEdits(s, r.0)
  {
    hide *;
    ValidOfInv(app, s, origin);
    WorkIsOf(app, s, command);
    match command {
      case DoUndo(password) => UndoLeaves(app, s, password);
      case DoRedo => RedoLeaves(app, s);
      case DoSave(destination, faults) => SaveLeaves(app, s, destination, faults); SameEditsStay(s, s);
      case DoSetSensitive(sensitive, drawn, key, problems) => MarkLeavesEdits(app, s, sensitive, drawn, key, problems);
      case DoAddPicture(picture) => PictureLeaves(app, s, picture);
      case DoAddModel(model, room) => ModelLeaves(app, s, model, room);
      case DoAddSource(bytes, boxes, space) => SourceLeaves(app, s, bytes, boxes, space);
      case DoRead => ReadLeavesEdits(app, s);
      case DoDiscard => DiscardLeaves(s);
    }
  }

  lemma SameEditsStay(s: State, t: State)
    requires t.doc.history.edits == s.doc.history.edits && t.doc.things == s.doc.things
    requires t.doc.identity.Some? ==> s.doc.identity.Some?
    ensures SameEdits(s, t)
  {
  }

  lemma UndoLeaves(app: App, s: State, password: Option<W.Password>)
    requires s.doc.history.Valid()
    ensures Undo(app, s, password).1.Ok? ==> SameEdits(s, Undo(app, s, password).0)
  {
    hide *;
    if Undo(app, s, password).1.Ok? {
      UndoDoes(app, s, password);
      SameEditsStay(s, Undo(app, s, password).0);
    }
  }

  lemma RedoLeaves(app: App, s: State)
    requires s.doc.history.Valid()
    ensures Redo(app, s).1.Ok? ==> SameEdits(s, Redo(app, s).0)
  {
    hide *;
    if Redo(app, s).1.Ok? {
      RedoDoes(app, s);
      SameEditsStay(s, Redo(app, s).0);
    }
  }

  lemma MarkLeavesEdits(app: App, s: State, sensitive: bool, drawn: nat, password: Option<W.Password>, faults: WriteFaults)
    requires s.doc.history.Valid()
    ensures var r := SetSensitive(app, s, sensitive, drawn, password, faults); r.1.Ok? ==> SameEdits(s, r.0)
  {
    hide SetSensitive;
    if SetSensitive(app, s, sensitive, drawn, password, faults).1.Ok? {
      MarkDoes(app, s, sensitive, drawn, password, faults);
      SameEditsStay(s, SetSensitive(app, s, sensitive, drawn, password, faults).0);
    }
    hide SameEdits;
  }

  lemma ReadLeavesEdits(app: App, s: State)
    requires s.doc.history.Valid()
    ensures SameEdits(s, Read(app, s).0)
  {
    ReadOnlyHost(app, s);
    SameEditsStay(s, Read(app, s).0);
    hide Read, SameEdits;
  }

  lemma DiscardLeaves(s: State)
    ensures SameEdits(s, Discard(s).0)
  {
    hide SameEdits;
    SameEditsStay(s, Discard(s).0);
  }

  lemma WorkIsOf(app: App, s: State, command: Command)
    requires s.doc.history.Valid() && s.doc.things.Valid() && !command.FileChanges?
    ensures match command
      case DoUndo(password) => Work(app, s, command) == Undo(app, s, password)
      case DoRedo => Work(app, s, command) == Redo(app, s)
      case DoSave(destination, faults) => Work(app, s, command) == Save(app, s, destination, faults)
      case DoSetSensitive(sensitive, drawn, key, problems) =>
        Work(app, s, command) == SetSensitive(app, s, sensitive, drawn, key, problems)
      case DoAddPicture(picture) => Work(app, s, command) == AddPicture(app, s, picture)
      case DoAddModel(model, room) => Work(app, s, command) == AddModel(app, s, model, room)
      case DoAddSource(bytes, boxes, space) => Work(app, s, command) == AddSource(app, s, bytes, boxes, space)
      case DoRead => Work(app, s, command) == Read(app, s)
      case DoDiscard => Work(app, s, command) == Discard(s)
      case _ => true
  {
    hide ApplyEdit, Undo, Redo, Recover, Save, SetSensitive, AddPicture, AddModel, AddSource, Read, Discard;
  }

  lemma SaveLeaves(app: App, s: State, destination: Option<Place>, faults: WriteFaults)
    requires s.doc.history.Valid()
    ensures var t := Save(app, s, destination, faults).0;
      Save(app, s, destination, faults).1.Ok? ==> t.doc.history.edits == [] || t == s
  {
    if Save(app, s, destination, faults).1.Ok? && (destination.Some? || s.doc.history.Unsaved()) { SaveDoes(app, s, destination, faults); }
    hide Written, LiveWorker;
  }

  lemma PictureLeaves(app: App, s: State, picture: Picture)
    requires s.doc.history.Valid() && s.doc.things.Valid() && s.doc.things.Names(s.doc.history.edits)
    ensures AddPicture(app, s, picture).1.Ok? ==> SameEdits(s, AddPicture(app, s, picture).0)
  {
    hide W.Ask;
  }

  lemma ModelLeaves(app: App, s: State, model: Model, room: (map<nat, Model>, Model) -> bool)
    requires s.doc.history.Valid() && s.doc.things.Valid() && s.doc.things.Names(s.doc.history.edits)
    ensures AddModel(app, s, model, room).1.Ok? ==> SameEdits(s, AddModel(app, s, model, room).0)
  {
    hide W.Ask;
  }

  lemma SourceLeaves(app: App, s: State, bytes: Content, boxes: nat,
    space: (map<nat, Source>, Source) -> bool)
    requires s.doc.history.Valid() && s.doc.things.Valid() && s.doc.things.Names(s.doc.history.edits)
    ensures AddSource(app, s, bytes, boxes, space).1.Ok? ==> SameEdits(s, AddSource(app, s, bytes, boxes, space).0)
  {
    AddSourceIs(app, s, bytes, boxes, space);
    hide AddSource, AskedForSource;
  }

  lemma ApplyFits(app: App, s: State, edit: Edit)
    requires s.doc.history.Valid() && ApplyEdit(app, s, edit).1.Ok?
    ensures AllFit(app, ApplyEdit(app, s, edit).0.doc)
  {
    ApplyDoes(app, s, edit);
    AppliedIsAsked(app, s, edit);
    assert s.doc.history.Push(edit).edits == s.doc.history.Applied() + [edit];
    hide ApplyEdit, J.BodyOf, Refusal;
  }

  lemma AppliedIsAsked(app: App, s: State, edit: Edit)
    requires s.doc.history.Valid() && ApplyEdit(app, s, edit).1.Ok?
    ensures s.doc.identity.Some? ==> app.rules.fits(J.BodyOf(s.doc.things, s.doc.history.Applied() + [edit]))
  {
    hide EditInWorker, Changed, PagesAfter, J.BodyOf;
  }

  /** Edits taken over fit into a journal, or the journal still says what it said before. */
  lemma RecoverFits(app: App, s: State, origin: Origin)
    requires Inv(app, s, origin)
    ensures s.doc.history.Valid() && s.doc.things.Valid()
    ensures var t := Recover(app, s).0;
      Recover(app, s).1.Ok? ==>
        && t.doc.identity == s.doc.identity && t.doc.history.Valid()
        && t.doc.history.edits == t.doc.history.Applied() == Left(s).edits && Left(s).edits != []
        && t.doc.things == Restoring(s, Left(s)).doc.things
        && (s.doc.identity.Some? && !app.rules.fits(J.BodyOf(t.doc.things, Left(s).edits)) ==> !SaysAll(t))
  {
    ValidOfInv(app, s, origin);
    hide Recover, J.BodyOf, Inv;
    if Recover(app, s).1.Ok? {
      RecoverDoes(app, s);
      OfferIsHeld(app, s, origin);
      PushedOnNone(s.doc.history, Left(s).edits);
      StillSays(app, s);
    }
  }

  lemma OfferIsHeld(app: App, s: State, origin: Origin)
    requires Inv(app, s, origin) && MayRecover(s)
    ensures s.doc.recovered.Some? && IsHeld(app, s.folder, s.doc.recovered.value) && Left(s).edits != []
  {
    assert JournalsHeld(app, s);
  }

  /** What is too large is not written: the journal taken over says what it said. */
  lemma StillSays(app: App, s: State)
    requires s.doc.history.Valid() && s.doc.things.Valid() && Recover(app, s).1.Ok?
    requires s.doc.recovered.Some? && IsHeld(app, s.folder, s.doc.recovered.value)
    requires Recover(app, s).0.doc.history.Valid() && Recover(app, s).0.doc.history.Applied() == Left(s).edits != []
    requires Recover(app, s).0.doc.things == Restoring(s, Left(s)).doc.things
    requires Recover(app, s).0.doc.identity == s.doc.identity
    ensures var t := Recover(app, s).0;
      s.doc.identity.Some? && !app.rules.fits(J.BodyOf(t.doc.things, Left(s).edits)) ==> !SaysAll(t)
  {
    var r := Replay(app, Restoring(s, Left(s)), Left(s).edits);
    ReplayKeepsTheRest(app, Restoring(s, Left(s)), Left(s).edits);
    RecoverKeepsJournal(app, s);
    hide Recover, Replay, J.BodyOf;
    KeptInFolder(app, TakenOver(r.0));
    hide KeepJournal;
  }

  /** What is too large is taken over as it is in the folder. */
  lemma TakenOverUnwritten(app: App, s: State)
    requires s.doc.history.Valid() && s.doc.things.Valid() && RecoversTooMuch(app, s, DoRecover)
    requires s.doc.recovered.Some? && Left(s).edits != []
    ensures var t := Recover(app, s).0; t.doc.journal == Some(s.doc.recovered.value.id) && t.folder == s.folder
  {
    var r := Replay(app, Restoring(s, Left(s)), Left(s).edits);
    ReplayKeepsTheRest(app, Restoring(s, Left(s)), Left(s).edits);
    RecoverKeepsJournal(app, s);
    PushedOnNone(s.doc.history, Left(s).edits);
    hide Recover, Replay, J.BodyOf;
    KeptInFolder(app, TakenOver(r.0));
    hide KeepJournal;
  }

  lemma IsTooLarge(app: App, s: State)
    requires s.doc.history.Valid() && s.doc.things.Valid() && s.inTab && s.doc.identity.Some?
    requires !app.rules.fits(J.BodyOf(Restoring(s, Left(s)).doc.things, Left(s).edits)) && Recover(app, s).1.Ok?
    ensures RecoversTooMuch(app, s, DoRecover) && DoRecover.DoRecover?
  {
    hide Recover, J.BodyOf;
  }

  lemma RecoverKeepsJournal(app: App, s: State)
    requires s.doc.history.Valid() && s.doc.things.Valid() && Recover(app, s).1.Ok?
    ensures var r := Replay(app, Restoring(s, Left(s)), Left(s).edits);
      && r.0.doc.history.Valid() && MayRecover(s)
      && Recover(app, s).0 == Renumber(KeepJournal(app, TakenOver(r.0)))
  {
    ReplayKeepsTheRest(app, Restoring(s, Left(s)), Left(s).edits);
    hide Replay, KeepJournal, Renumber;
  }

  lemma KeptInFolder(app: App, s: State)
    requires s.doc.history.Valid() && s.doc.journal.Some? && s.doc.history.Unsaved()
    ensures var t := Renumber(KeepJournal(app, s));
      && t.doc.journal == s.doc.journal
      && (!app.rules.fits(J.BodyOf(s.doc.things, s.doc.history.Applied())) ==> t.folder == s.folder)
      && t.doc.things == s.doc.things && t.doc.history == s.doc.history && t.doc.identity == s.doc.identity
  {
    hide J.BodyOf;
  }

  /**
   * Whatever is done to a document whose edits fit into a journal, they do afterwards, but for one
   * thing: recovering what does not. Then the journal does not say what was done.
   */
  lemma NextFits(app: App, s: State, origin: Origin, command: Command)
    requires Inv(app, s, origin) && AllFit(app, s.doc)
    ensures s.doc.history.Valid() && s.doc.things.Valid()
    ensures var t := Step(app, s, command).0;
      && (AllFit(app, t.doc) <==> !RecoversTooMuch(app, s, command))
      && (RecoversTooMuch(app, s, command) ==> !SaysAll(t))
  {
    hide *;
    ValidOfInv(app, s, origin);
    StepDoc(app, s, command);
    OnlyRecoverIsTooLarge(app, s, command);
    SameForItself(s.doc.things, s.doc.history.edits);
    if !command.FileChanges? && s.inTab {
      var r := Work(app, s, command);
      TabSaysNothing(app, r.0);
      if r.1.Err? {
        WorkFails(app, s, command);
        FailedFits(app, s, r.0);
      } else if command.DoApply? {
        ApplyFits(app, s, command.edit);
      } else if command.DoRecover? {
        RecoverFits(app, s, origin);
        RecoveredFits(app, s, r.0);
      } else {
        OkLeaves(app, s, origin, command);
        LeftFits(app, s, r.0);
      }
    }
  }

  lemma StepDoc(app: App, s: State, command: Command)
    requires s.doc.history.Valid() && s.doc.things.Valid()
    ensures command.FileChanges? || !s.inTab ==> Step(app, s, command).0.doc == s.doc
    ensures !command.FileChanges? && s.inTab ==>
      var t := Work(app, s, command).0; Step(app, s, command).0 == if Gone(t) then t.(inTab := false) else t
    ensures command.DoApply? ==> Work(app, s, command) == ApplyEdit(app, s, command.edit)
    ensures command.DoRecover? ==> Work(app, s, command) == Recover(app, s)
  {
    hide ApplyEdit, Undo, Redo, Recover, Save, SetSensitive, AddPicture, AddModel, AddSource, Read, Discard;
  }

  lemma TabSaysNothing(app: App, t: State)
    ensures SaysAll(t.(inTab := false)) <==> SaysAll(t)
  {
    hide J.BodyOf;
  }

  lemma OnlyRecoverIsTooLarge(app: App, s: State, command: Command)
    requires s.doc.history.Valid() && s.doc.things.Valid()
    ensures RecoversTooMuch(app, s, command) ==> command.DoRecover? && s.inTab && Recover(app, s).1.Ok?
  {
    hide Recover, J.BodyOf;
  }

  lemma FailedFits(app: App, s: State, t: State)
    requires SameForUser(s, t) && AllFit(app, s.doc)
    ensures AllFit(app, t.doc)
  {
    SameEditsFit(app, s, t);
  }

  lemma LeftFits(app: App, s: State, t: State)
    requires AllFit(app, s.doc) && (t.doc.history.edits == [] || SameEdits(s, t))
    ensures AllFit(app, t.doc)
  {
    if t.doc.history.edits != [] { SameEditsFit(app, s, t); }
  }

  lemma RecoveredFits(app: App, s: State, t: State)
    requires s.doc.history.Valid() && s.doc.things.Valid() && s.inTab && Recover(app, s).0 == t && Recover(app, s).1.Ok?
    requires t.doc.identity == s.doc.identity && t.doc.history.edits == Left(s).edits != []
    requires t.doc.things == Restoring(s, Left(s)).doc.things
    ensures AllFit(app, t.doc) <==> !RecoversTooMuch(app, s, DoRecover)
    ensures RecoversTooMuch(app, s, DoRecover) ==> s.doc.identity.Some? && !app.rules.fits(J.BodyOf(t.doc.things, Left(s).edits))
  {
    hide Recover, J.BodyOf, Restoring;
  }

  // ----- every run

  /** A file that opens has edits that fit: none, or those of its own journal. */
  lemma OpenFits(app: App, disk: Disk, folder: J.Folder, nextId: nat, luck: nat,
    path: Path, password: Option<W.Password>, released: Option<J.JournalId>)
    requires Monotone(app.rules)
    requires OpenFile(app, disk, folder, nextId, luck, path, password, released).Ok?
    ensures AllFit(app, OpenFile(app, disk, folder, nextId, luck, path, password, released).value.doc)
  {
    var file := disk.files[path];
    var answer := W.Open(app.engine, W.NewHost(luck), file.content, password);
    var doc := DocumentOf(app.engine, nextId, path, answer.1.value, password.Some?, file);
    var s := State(doc, answer.0, disk, folder, nextId + 1, true);
    hide Monotone, RecoverOnOpen, AllFit;
    RecoverOnOpenFits(app, s, released);
  }

  lemma RecoverOnOpenFits(app: App, s: State, released: Option<J.JournalId>)
    requires Monotone(app.rules) && s.doc.history == NOTHING && s.doc.things == NO_THINGS
    ensures s.doc.history.Valid() && s.doc.things.Valid()
    ensures AllFit(app, RecoverOnOpen(app, s, released).doc)
  {
    hide *;
    NothingIsValid(s);
    var looked := FindFor(app, s, released);
    FindForFacts(app, s, released);
    OnOpenIs(app, s, released);
    if looked.1.Some? { MadeFits(app, s.(folder := looked.0), looked.1.value.0); }
    NothingFits(app, s.doc);
    NothingFits(app, RecoverOnOpen(app, s, released).doc);
  }

  lemma NothingIsValid(s: State)
    requires s.doc.history == NOTHING && s.doc.things == NO_THINGS
    ensures s.doc.history.Valid() && s.doc.things.Valid() && NOTHING.edits == []
  {
  }

  lemma NothingFits(app: App, doc: Document)
    ensures doc.history.edits == [] ==> AllFit(app, doc)
  {
  }

  /** The document as it was opened, or with the edits of the journal made at once. */
  lemma OnOpenIs(app: App, s: State, released: Option<J.JournalId>)
    requires s.doc.history.Valid() && s.doc.things.Valid()
    ensures var looked := FindFor(app, s, released);
      var t := RecoverOnOpen(app, s, released);
      || t.doc.history == s.doc.history
      || (looked.1.Some? &&
            var t' := s.(folder := looked.0);
            var r := MadeAtOnce(app, t', looked.1.value.0);
            && r.1.Ok? && r.0.doc.history.Valid()
            && t == KeepJournal(app, r.0.(doc := r.0.doc.(journal := Some(looked.1.value.0.id)))))
  {
    var looked := FindFor(app, s, released);
    if looked.1.Some? {
      var body := looked.1.value.0.body;
      ReplayKeepsTheRest(app, Keeping(s.(folder := looked.0), s.doc.things.Restore(body.pictures, body.models)), body.edits);
    }
    hide FindFor, Replay, KeepJournal, Applicable;
  }

  lemma MadeFits(app: App, s: State, found: J.Found)
    requires Monotone(app.rules) && IsHeld(app, s.folder, found) && s.doc.history == NOTHING && s.doc.things == NO_THINGS
    ensures s.doc.history.Valid() && s.doc.things.Valid()
    ensures var r := MadeAtOnce(app, s, found);
      r.1.Ok? ==>
        && r.0.doc.history.Valid()
        && AllFit(app, KeepJournal(app, r.0.(doc := r.0.doc.(journal := Some(found.id)))).doc)
  {
    var r := MadeAtOnce(app, s, found);
    ReplayKeepsTheRest(app, Keeping(s, s.doc.things.Restore(found.body.pictures, found.body.models)), found.body.edits);
    RestoredWithin(NO_THINGS, found.body);
    hide Replay, J.BodyOf, Within;
    if r.1.Ok? {
      if found.body.edits != [] { PushedOnNone(NOTHING, found.body.edits); }
      JournalFrame(app, r.0.(doc := r.0.doc.(journal := Some(found.id))));
    }
    hide KeepJournal;
  }

  /** While nothing too large was recovered, everything fits. */
  lemma {:induction false} RunFits(app: App, states: seq<State>, commands: seq<Command>, origin: Origin, n: nat)
    requires AppOk(app) && IsRun(app, states, commands) && Inv(app, states[0], origin) && n <= |commands|
    requires AllFit(app, states[0].doc)
    requires forall i :: 0 <= i < n ==> !RecoversTooMuch(app, states[i], commands[i])
    ensures AllFit(app, states[n].doc)
    decreases n
  {
    hide AppOk, Inv, AllFit, RecoversTooMuch, Step;
    if n > 0 {
      RunFits(app, states, commands, origin, n - 1);
      InvAt(app, states, commands, origin, n - 1);
      var at := OriginAt(states, commands, origin, n - 1);
      assert Next(app, states[n - 1], commands[n - 1], states[n]);
      NextFits(app, states[n - 1], at, commands[n - 1]);
    }
  }

  /**
   * Over every run the journal says exactly what was done to the file all the way, exactly when no
   * recovery on the way takes over what is too large for a journal.
   */
  lemma RunSaysAll(app: App, states: seq<State>, commands: seq<Command>, origin: Origin)
    requires AppOk(app) && Monotone(app.rules) && IsRun(app, states, commands)
    requires Inv(app, states[0], origin) && AllFit(app, states[0].doc)
    ensures (forall i :: 0 <= i <= |commands| ==> SaysAll(states[i]))
      <==> (forall i :: 0 <= i < |commands| ==> !RecoversTooMuch(app, states[i], commands[i]))
  {
    hide AppOk, Inv, AllFit, RecoversTooMuch, Step, SaysAll, Monotone;
    if forall i :: 0 <= i < |commands| ==> !RecoversTooMuch(app, states[i], commands[i]) {
      forall i | 0 <= i <= |commands| ensures SaysAll(states[i]) {
        RunFits(app, states, commands, origin, i);
        InvAt(app, states, commands, origin, i);
        var at := OriginAt(states, commands, origin, i);
        FitSaysAll(app, states[i], at);
      }
    } else {
      var j := FirstTooLarge(app, states, commands, |commands|);
      RunFits(app, states, commands, origin, j);
      InvAt(app, states, commands, origin, j);
      var at := OriginAt(states, commands, origin, j);
      assert Next(app, states[j], commands[j], states[j + 1]);
      NextFits(app, states[j], at, commands[j]);
    }
  }

  /** So it is from the opening of any file on. */
  lemma OpenedSaysAll(app: App, disk: Disk, folder: J.Folder, nextId: nat, luck: nat, path: Path,
    password: Option<W.Password>, released: Option<J.JournalId>, states: seq<State>, commands: seq<Command>)
    requires AppOk(app) && Monotone(app.rules) && StampsOk(disk) && IsRun(app, states, commands)
    requires OpenFile(app, disk, folder, nextId, luck, path, password, released) == Ok(states[0])
    ensures (forall i :: 0 <= i <= |commands| ==> SaysAll(states[i]))
      <==> (forall i :: 0 <= i < |commands| ==> !RecoversTooMuch(app, states[i], commands[i]))
  {
    hide AppOk, Inv, AllFit, RecoversTooMuch, OpenFile, Monotone, SaysAll, IsRun, StampsOk;
    RunIsLong(app, states, commands);
    OpenFileKeeps(app, disk, folder, nextId, luck, path, password, released);
    OpenFits(app, disk, folder, nextId, luck, path, password, released);
    RunSaysAll(app, states, commands, Origin(disk.files[path].content, true));
  }

  lemma {:induction false} FirstTooLarge(app: App, states: seq<State>, commands: seq<Command>, n: nat) returns (j: nat)
    requires |states| == |commands| + 1 && n <= |commands|
    requires exists i :: 0 <= i < n && RecoversTooMuch(app, states[i], commands[i])
    ensures j < n && RecoversTooMuch(app, states[j], commands[j])
    ensures forall i :: 0 <= i < j ==> !RecoversTooMuch(app, states[i], commands[i])
    decreases n
  {
    hide RecoversTooMuch;
    if exists i :: 0 <= i < n - 1 && RecoversTooMuch(app, states[i], commands[i]) {
      j := FirstTooLarge(app, states, commands, n - 1);
    } else {
      j := n - 1;
    }
  }

  // ----- from the opening of a file to the crash, and back

  /**
   * A file opened in whatever way, whatever was done since and however the worker answered, as long
   * as nobody changed the file while its worker was lost, and nothing too large was recovered.
   */
  ghost predicate Worked(app: App, disk: Disk, folder: J.Folder, path: Path, password: Option<W.Password>,
    released: Option<J.JournalId>, states: seq<State>, commands: seq<Command>)
  {
    && AppOk(app) && Monotone(app.rules) && Faithful(app.engine) && StampsOk(disk) && path in disk.files
    && IsRun(app, states, commands) && Undisturbed(states)
    && (exists nextId: nat, luck: nat :: OpenFile(app, disk, folder, nextId, luck, path, password, released) == Ok(states[0]))
    && (forall i :: 0 <= i < |commands| ==> !RecoversTooMuch(app, states[i], commands[i]))
  }

  /** What the document goes by in the end. */
  function OriginAtEnd(disk: Disk, path: Path, states: seq<State>, commands: seq<Command>): Origin
    requires path in disk.files && |states| == |commands| + 1
  {
    OriginOfRun(states, commands, Origin(disk.files[path].content, true))
  }

  /** In the end the document is in order, and its journal says what was done and can be as large. */
  lemma WorkedIsInOrder(app: App, disk: Disk, folder: J.Folder, path: Path, password: Option<W.Password>,
    released: Option<J.JournalId>, states: seq<State>, commands: seq<Command>)
    requires Worked(app, disk, folder, path, password, released, states, commands)
    ensures var s, origin := states[|commands|], OriginAtEnd(disk, path, states, commands);
      && Inv(app, s, origin) && origin.steady && AllFit(app, s.doc)
  {
    hide AppOk, Inv, AllFit, RecoversTooMuch, OpenFile, Monotone, Faithful, IsRun;
    RunIsLong(app, states, commands);
    var nextId: nat, luck: nat :| OpenFile(app, disk, folder, nextId, luck, path, password, released) == Ok(states[0]);
    OpenFileKeeps(app, disk, folder, nextId, luck, path, password, released);
    OpenFits(app, disk, folder, nextId, luck, path, password, released);
    var first := Origin(disk.files[path].content, true);
    RunFits(app, states, commands, first, |commands|);
    RunKeeps(app, states, commands, first);
    assert Undisturbed(states[..|commands|]) by { FewerUndisturbed(states, |commands|); }
  }

  lemma RunIsLong(app: App, states: seq<State>, commands: seq<Command>)
    requires IsRun(app, states, commands)
    ensures |states| == |commands| + 1
  {
  }

  lemma FewerUndisturbed(states: seq<State>, n: nat)
    requires Undisturbed(states) && n <= |states|
    ensures Undisturbed(states[..n])
  {
  }

  /**
   * The app dies after any run, with something unsaved and the file as the document knows it; the
   * file is opened again. With no more pictures than a journal may have, and no other journal for
   * the file before it, the document's own is found; what it says is offered as the edits deserve,
   * recovering brings back what it kept, and undoing that gives the file.
   */
  lemma CrashAnywhere(app: App, disk: Disk, folder: J.Folder, path: Path, given: Option<W.Password>,
    released: Option<J.JournalId>, states: seq<State>, commands: seq<Command>,
    nextId: nat, luck: nat, password: Option<W.Password>)
    requires Worked(app, disk, folder, path, given, released, states, commands)
    requires var s := states[|commands|];
      && UnchangedOnDisk(s) && s.doc.history.Valid() && s.doc.history.Applied() != []
      && Willing(app.engine, luck) && W.Unlocks(app.engine, s.disk.files[s.doc.path].content, password)
      && |J.BodyOf(s.doc.things, s.doc.history.Applied()).pictures| <= MAX_PICTURES
      && s.doc.journal.Some?
      && (forall other :: other in J.Before(s.folder.stored.Keys, s.doc.journal.value) ==>
            !J.Takeable(app.rules, AfterCrash(s.folder), other, s.doc.path))
      && |J.Before(s.folder.stored.Keys, s.doc.journal.value)| < J.MAX_JOURNALS
    ensures var s, origin := states[|commands|], OriginAtEnd(disk, path, states, commands);
      var reopened := OpenFile(app, s.disk, AfterCrash(s.folder), nextId, luck, s.doc.path, password, Option.None);
      && reopened.Ok? && reopened.value.doc.info.recovery == Verdict(true, OwnJournal(s).body)
      && Inv(app, reopened.value, Origin(origin.base, true))
      && (OwnJournal(s).body.edits != [] ==> GoesRound(app, s, origin, reopened.value, password))
  {
    var s, origin := states[|commands|], OriginAtEnd(disk, path, states, commands);
    WorkedIsInOrder(app, disk, folder, path, given, released, states, commands);
    FitSaysAll(app, s, origin);
    StoredJournal(app, s, origin);
    FindsOwn(app, s, origin);
    hide *;
    CrashRecovery(app, s, origin, nextId, luck, password);
  }

  /** After any run that ends with a protected document lost with its worker, unlocking its file brings it back. */
  lemma ProtectedAnywhere(app: App, disk: Disk, folder: J.Folder, path: Path, given: Option<W.Password>,
    released: Option<J.JournalId>, states: seq<State>, commands: seq<Command>, nextId: nat, luck: nat, password: W.Password)
    requires Worked(app, disk, folder, path, given, released, states, commands)
    requires var s := states[|commands|];
      && UnchangedOnDisk(s) && s.doc.history.Valid() && s.doc.history.Applied() != [] && s.doc.guarded && s.doc.lost
      && Willing(app.engine, luck) && W.Unlocks(app.engine, s.disk.files[s.doc.path].content, Some(password))
      && |J.BodyOf(s.doc.things, s.doc.history.Applied()).pictures| <= MAX_PICTURES
    ensures var s, origin := states[|commands|], OriginAtEnd(disk, path, states, commands);
      var r := OpenFile(app, s.disk, Lose(s).0, nextId, luck, s.doc.path, Some(password), s.doc.journal);
      var lost := JournalledOf(s.doc.history.Applied()).lost;
      && s.doc.journal.Some? && r.Ok?
      && (lost == 0 ==> BackAsItWas(app, s, origin, r.value))
      && (lost > 0 ==> r.value.doc.history == NOTHING && r.value.doc.recovered == Some(OwnJournal(s))
                       && r.value.doc.info.recovery == Verdict(true, OwnJournal(s).body))
  {
    var s, origin := states[|commands|], OriginAtEnd(disk, path, states, commands);
    WorkedIsInOrder(app, disk, folder, path, given, released, states, commands);
    FitSaysAll(app, s, origin);
    StoredJournal(app, s, origin);
    JournalIsReadable(app, s, origin);
    hide *;
    ProtectedComesBack(app, s, origin, nextId, luck, password);
  }
}
