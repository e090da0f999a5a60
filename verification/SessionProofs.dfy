/** Every command keeps the invariant of an open document (src-tauri/src/documents.rs:594-982). */
module SessionProofs {
  import opened Basics
  import opened Edits
  import opened Histories
  import opened Stores
  import opened Sessions
  import opened Invariant
  import W = Worker
  import J = Journals

  // ----- the worker

  /** While the document is opened again, its new copy is the file with the edits made so far. */
  lemma {:induction false} ReopenEditsReplays(app: App, s: State, id: nat, base: Content, made: seq<Edit>, edits: seq<Edit>, pages: seq<W.PageSize>)
    requires s.host.Valid() && id in s.host.copies
    requires W.Replayed(app.engine, s.doc.things, base, made).Some?
    requires s.host.copies[id] == W.Copy(W.Replayed(app.engine, s.doc.things, base, made).value, base)
    requires pages == app.engine.pages(s.host.copies[id].now)
    ensures var r := ReopenEdits(app, s, id, edits, pages);
      var whole := W.Replayed(app.engine, s.doc.things, base, made + edits);
      && r.0.host.Valid()
      && (r.1.Ok? ==>
            && whole.Some? && id in r.0.host.copies
            && r.0.host.copies[id] == W.Copy(whole.value, base)
            && r.1.value == app.engine.pages(whole.value)
            && r.0.doc.lost == s.doc.lost)
    decreases |edits|
  {
    if edits == [] {
      assert made + edits == made;
    } else if WorkerEditOf(s.doc.things, edits[0]).Some? {
      var asked := WorkerEditOf(s.doc.things, edits[0]).value;
      var r := W.Edit(app.engine, s.host, id, asked);
      W.ReplayedPush(app.engine, s.doc.things, base, made, edits[0]);
      if r.1.Expected? {
        ReopenEditsReplays(app, With(s, r.0), id, base, made + [edits[0]], edits[1..], r.1.value);
        assert made + [edits[0]] + edits[1..] == made + edits;
      }
    }
  }

  /** What the worker's being asked leaves as it was. */
  ghost predicate SameButWorker(s: State, t: State)
  {
    t == s.(doc := s.doc.(workerDoc := t.doc.workerDoc, lost := t.doc.lost), host := t.host)
  }

  lemma LiveIsSame(app: App, s: State)
    requires s.doc.history.Valid()
    ensures SameButWorker(s, LiveWorker(app, s).0)
  {
    LiveWorkerOnlyHost(app, s);
    hide LiveWorker;
  }

  /** What a request comes to leaves the document but for its worker, which is given up or as it answered. */
  lemma SettledIsSame<T>(s: State, answered: (W.Host, W.Answer<T>))
    ensures var r := Settle(s, answered);
      && SameButWorker(s, r.0) && r.0.doc.workerDoc == s.doc.workerDoc
      && (r.1.Ok? ==> answered.1 == W.Expected(r.1.value) && r.0.host == answered.0 && r.0.doc.lost == s.doc.lost)
      && (r.1.Err? ==> r.0.doc.lost || (r.0.host == answered.0 && answered.1.Failed?
                                        && r.1.error == W.CodeOf(answered.1.error) && !W.Fatal(answered.1.error)))
      && (answered.0.Valid() ==> r.0.host.Valid())
  {
    hide W.CodeOf, W.Fatal;
  }

  /** Where the requests for a file to take pages from leave the document. */
  function AskedForSource(app: App, s: State, boxes: nat): State
  {
    var asked := W.Ask(app.engine, s.host);
    var t := With(s, asked.0);
    match asked.1
    case Failed(error) => LostOn(t, error)
    case Unexpected => t
    case Expected(_) => AskMore(app, t, boxes)
  }

  /** Taking a file to take pages from: refused at once, failed, or its clean copy is kept if there is room. */
  lemma AddSourceIs(app: App, s: State, bytes: Content, boxes: nat, fits: (map<nat, Source>, Source) -> bool)
    requires s.doc.history.Valid() && s.doc.things.Valid()
    ensures var r, t := AddSource(app, s, bytes, boxes, fits), AskedForSource(app, s, boxes);
      && SameButWorker(s, t) && t.host.next == s.host.next && (s.doc.lost ==> t.doc.lost)
      && t.doc.history.Valid() && t.doc.things.Valid()
      && (r == Prepared(app, t, bytes, fits) || (r.1.Err? && (r.0 == s || r.0 == t)))
  {
    hide AskMore, Prepared, W.CodeOf, W.Fatal;
  }

  lemma SameHasThings(s: State, t: State)
    requires SameButWorker(s, t)
    ensures t.doc.things == s.doc.things && t.doc.history == s.doc.history
  {
  }

  lemma SameAsItself(s: State)
    ensures SameButWorker(s, s)
  {
  }

  lemma SameAgain(s: State, t: State, u: State)
    requires SameButWorker(s, t) && SameButWorker(t, u)
    ensures SameButWorker(s, u)
  {
  }

  lemma ValidOfInv(app: App, s: State, origin: Origin)
    requires Inv(app, s, origin)
    ensures s.doc.history.Valid() && s.doc.things.Valid() && s.doc.things.Names(s.doc.history.edits)
  {
  }

  lemma SameButWorkerKeeps(app: App, s: State, t: State, origin: Origin)
    requires Inv(app, s, origin) && SameButWorker(s, t)
    requires t.host.Valid()
    requires !t.doc.lost ==>
      t.doc.workerDoc in t.host.copies
      && t.host.copies[t.doc.workerDoc] == W.Copy(Meant(app, s.doc, origin.base).value, origin.base)
    ensures Inv(app, t, origin)
  {
    assert Meant(app, t.doc, origin.base) == Meant(app, s.doc, origin.base);
    assert AllForeseen(app, s.doc, origin.base, s.doc.history.edits) ==> AllForeseen(app, t.doc, origin.base, t.doc.history.edits) by {
      forall n | 0 <= n <= |s.doc.history.edits| && PrefixForeseen(app, s.doc, origin.base, s.doc.history.edits, n)
        ensures PrefixForeseen(app, t.doc, origin.base, t.doc.history.edits, n) {
      }
    }
    if Faithful(app.engine) && origin.steady {
      assert Known(app, s.doc, origin.base);
    }
  }

  /** Where the document is read from once its worker is there. */
  function OriginAfter(app: App, s: State, origin: Origin): Origin
    requires s.doc.history.Valid()
  {
    if s.doc.lost && LiveWorker(app, s).1.Ok? && s.doc.path in s.disk.files
    then Origin(s.disk.files[s.doc.path].content, Steady(s, origin.steady))
    else Origin(origin.base, Steady(s, origin.steady))
  }

  /** A document that was lost and has its worker again is its file with the applied edits. */
  lemma ReopenFacts(app: App, s: State)
    requires s.doc.history.Valid() && s.host.Valid() && s.doc.lost
    ensures var r := LiveWorker(app, s);
      && SameButWorker(s, r.0) && r.0.host.Valid()
      && (r.1.Err? ==> r.0.doc.lost)
      && (r.1.Ok? ==>
            && !r.0.doc.lost && r.1.value == r.0.doc.workerDoc
            && s.doc.path in s.disk.files
            && IsCopyOf(app, r.0, s.disk.files[s.doc.path].content))
  {
    LiveWorkerOnlyHost(app, s);
    if !s.doc.guarded && s.doc.path in s.disk.files {
      ReopenIs(app, s);
      ReopenOnlyHost(app, s);
    }
    hide Reopen, W.Replayed;
  }

  /** Opening the file again gives a copy of it with the applied edits, with the pages told, or leaves the document lost. */
  lemma ReopenIs(app: App, s: State)
    requires s.doc.history.Valid() && s.host.Valid() && s.doc.lost && s.doc.path in s.disk.files
    ensures var r, content := Reopen(app, s), s.disk.files[s.doc.path].content;
      && r.0.host.Valid() && r.0.doc.lost
      && (r.1.Ok? ==>
            var made := W.Replayed(app.engine, s.doc.things, content, s.doc.history.Applied());
            && W.ValidPages(app.engine.pages(content)) && made.Some? && s.doc.info.pages == app.engine.pages(made.value)
            && r.1.value in r.0.host.copies && r.0.host.copies[r.1.value] == W.Copy(made.value, content))
  {
    var content := s.disk.files[s.doc.path].content;
    var answer := W.Open(app.engine, s.host, content, Option.None);
    if answer.1.Expected? {
      var applied := s.doc.history.Applied();
      assert [] + applied == applied;
      ReopenEditsReplays(app, With(s, answer.0), answer.1.value, content, [], applied, app.engine.pages(content));
      ReopenEditsOnlyHost(app, With(s, answer.0), answer.1.value, applied, app.engine.pages(content));
    }
    hide ReopenEdits;
  }

  /** The worker has the document as read from `content`, with the pages the page was told. */
  ghost predicate IsCopyOf(app: App, s: State, content: Content)
    requires s.doc.history.Valid()
  {
    var meant := Meant(app, s.doc, content);
    && W.ValidPages(app.engine.pages(content))
    && meant.Some? && s.doc.info.pages == app.engine.pages(meant.value)
    && s.doc.workerDoc in s.host.copies
    && s.host.copies[s.doc.workerDoc] == W.Copy(meant.value, content)
  }

  lemma LiveWorkerKeeps(app: App, s: State, origin: Origin)
    requires Inv(app, s, origin)
    ensures var r := LiveWorker(app, s);
      && SameButWorker(s, r.0)
      && Inv(app, r.0, OriginAfter(app, s, origin))
      && (r.1.Ok? ==> !r.0.doc.lost && r.1.value == r.0.doc.workerDoc)
      && (r.1.Err? ==> r.0.doc.lost)
      && r.0.host.Valid() && r.0.doc.history.Valid()
      && (r.1.Ok? ==> IsCopyOf(app, r.0, OriginAfter(app, s, origin).base))
  {
    var r := LiveWorker(app, s);
    WeakerOrigin(app, s, origin);
    if s.doc.lost {
      ReopenFacts(app, s);
      if r.1.Ok? {
        ReopenedKeeps(app, s, r.0, origin);
      } else {
        SameButWorkerKeeps(app, s, r.0, Origin(origin.base, Steady(s, origin.steady)));
      }
    }
  }

  lemma SteadyAfter(app: App, s: State, origin: Origin)
    requires s.doc.history.Valid()
    ensures OriginAfter(app, s, origin).steady == Steady(s, origin.steady)
  {
  }

  lemma NotLostOrigin(app: App, s: State, origin: Origin)
    requires s.doc.history.Valid() && !s.doc.lost
    ensures OriginAfter(app, s, origin) == origin
  {
  }

  lemma WeakerOrigin(app: App, s: State, origin: Origin)
    requires Inv(app, s, origin)
    ensures Inv(app, s, Origin(origin.base, Steady(s, origin.steady)))
  {
  }

  /**
   * What the document goes by once a command left it as `t`: the file it wrote, the file the
   * successor of its lost worker opened, or what it went by before.
   */
  function BaseOf(s: State, t: State, base: Content): Content
  {
    if t.disk != s.disk && t.doc.path in t.disk.files then t.disk.files[t.doc.path].content
    else if s.doc.lost && !t.doc.lost && s.doc.path in s.disk.files then s.disk.files[s.doc.path].content
    else base
  }

  function OriginOf(s: State, t: State, origin: Origin): Origin
  {
    Origin(BaseOf(s, t, origin.base), Steady(s, origin.steady))
  }

  /**
   * Where a command left the worker at `asked` and the document at `t`: given up, that is what it
   * went by before; otherwise it is what its worker has it from.
   */
  lemma GoesBy(app: App, s: State, asked: State, t: State, origin: Origin)
    requires Inv(app, s, origin) && SameButWorker(s, asked) && s.doc.history.Valid()
    requires LiveWorker(app, s).1.Err? ==> asked.doc.lost
    requires (SameButWorker(asked, t) && (asked.doc.lost ==> t.doc.lost))
          || (!asked.doc.lost && !t.doc.lost && t.disk == asked.disk)
    requires Inv(app, t, OriginAfter(app, s, origin))
    ensures Inv(app, t, OriginOf(s, t, origin))
  {
    hide Inv;
    if t.doc.lost {
      WeakerOrigin(app, s, origin);
      LostKeeps(app, s, t, OriginOf(s, t, origin));
    } else {
      LiveIsThere(app, s);
      SteadyAfter(app, s, origin);
    }
    hide LiveWorker;
  }

  lemma GoesByTheSame(s: State, origin: Origin)
    ensures OriginOf(s, s, origin) == Origin(origin.base, Steady(s, origin.steady))
  {
  }

  lemma GivenUpIsSame(s: State)
    ensures SameButWorker(s, s) && SameButWorker(s, MarkLost(s)) && MarkLost(s).doc.lost
  {
  }

  lemma LiveIsThere(app: App, s: State)
    requires s.doc.history.Valid()
    ensures LiveWorker(app, s).1.Ok? && s.doc.lost ==> s.doc.path in s.disk.files
  {
  }

  /** A lost document whose file cannot be opened stays lost. */
  lemma EditNeedsLive(app: App, s: State, asked: WorkerEdit)
    requires s.doc.history.Valid() && s.host.Valid()
    ensures LiveWorker(app, s).1.Err? ==> EditInWorker(app, s, asked).0.doc.lost
    ensures EditInWorker(app, s, asked).1.Ok? ==> !EditInWorker(app, s, asked).0.doc.lost
  {
    if s.doc.lost { ReopenFacts(app, s); }
    hide Reopen, W.Edit;
  }

  lemma RevertNeedsLive(app: App, s: State, asked: seq<WorkerEdit>, password: Option<W.Password>)
    requires s.doc.history.Valid() && s.host.Valid()
    ensures LiveWorker(app, s).1.Err? ==> RevertInWorker(app, s, asked, password).0.doc.lost
    ensures RevertInWorker(app, s, asked, password).1.Ok? ==> !RevertInWorker(app, s, asked, password).0.doc.lost
  {
    if s.doc.lost { ReopenFacts(app, s); }
    hide Reopen, W.Revert;
  }

  lemma ChangedFrame(app: App, s: State, history: Timeline, pages: seq<W.PageSize>)
    requires history.Valid()
    ensures Changed(app, s, history, pages).disk == s.disk && Changed(app, s, history, pages).doc.lost == s.doc.lost
  {
    hide Flattened, Bookmarked;
  }

  /** A document opened again from its file, whether that is as it was or not. */
  lemma ReopenedKeeps(app: App, s: State, t: State, origin: Origin)
    requires Inv(app, s, origin) && SameButWorker(s, t)
    requires s.doc.lost && !t.doc.lost && s.doc.path in s.disk.files
    requires t.host.Valid() && IsCopyOf(app, t, s.disk.files[s.doc.path].content)
    ensures Inv(app, t, Origin(s.disk.files[s.doc.path].content, Steady(s, origin.steady)))
  {
    var content := s.disk.files[s.doc.path].content;
    var after := Origin(content, Steady(s, origin.steady));
    assert Meant(app, t.doc, content) == Meant(app, s.doc, content);
    if UnchangedOnDisk(s) {
      assert content == origin.base;
    }
    if Faithful(app.engine) && after.steady {
      assert Known(app, s.doc, origin.base);
      forall n | 0 <= n <= |t.doc.history.edits| ensures PrefixForeseen(app, t.doc, content, t.doc.history.edits, n) {
        assert PrefixForeseen(app, s.doc, origin.base, s.doc.history.edits, n);
      }
    }
  }

  /** A document whose worker is given up is in order: it will be opened again. */
  lemma LostKeeps(app: App, s: State, t: State, origin: Origin)
    requires Inv(app, s, origin) && SameButWorker(s, t) && t.doc.lost && t.host.Valid()
    ensures Inv(app, t, origin)
  {
    SameButWorkerKeeps(app, s, t, origin);
  }

  /** The worker's copy after one more edit. */
  ghost predicate HasMade(app: App, t: State, base: Content, edit: Edit, pages: seq<W.PageSize>)
    requires t.doc.history.Valid()
  {
    && Meant(app, t.doc, base).Some?
    && var made := W.Made(app.engine, t.doc.things, Meant(app, t.doc, base).value, edit);
    && made.Some? && pages == app.engine.pages(made.value)
    && !t.doc.lost && t.host.Valid() && t.doc.workerDoc in t.host.copies
    && t.host.copies[t.doc.workerDoc] == W.Copy(made.value, base)
  }

  /** One edit asked of a worker that has the document as it is to be. */
  lemma EditSettles(app: App, t: State, base: Content, edit: Edit)
    requires t.doc.history.Valid() && t.host.Valid() && !t.doc.lost
    requires IsCopyOf(app, t, base) && WorkerEditOf(t.doc.things, edit).Some?
    ensures var asked := WorkerEditOf(t.doc.things, edit).value;
      var r := Settle(t, W.Edit(app.engine, t.host, t.doc.workerDoc, asked));
      && SameButWorker(t, r.0) && r.0.host.Valid() && r.0.doc.workerDoc == t.doc.workerDoc
      && (r.1.Ok? ==> HasMade(app, r.0, base, edit, r.1.value))
      && (r.1.Err? && !HalfEdited(r.1.error) ==> r.0.doc.lost || r.0.host.copies == t.host.copies)
  {
    hide *;
    var asked := WorkerEditOf(t.doc.things, edit).value;
    var answered := W.Edit(app.engine, t.host, t.doc.workerDoc, asked);
    CopyIsThere(app, t, base);
    EditedCopy(app.engine, t.host, t.doc.workerDoc, asked);
    SettledIsSame(t, answered);
    var r := Settle(t, answered);
    SameHasThings(t, r.0);
    if r.1.Ok? { MadeIs(app, t, r.0, base, edit, r.1.value); }
  }

  lemma CopyIsThere(app: App, t: State, base: Content)
    requires t.doc.history.Valid() && IsCopyOf(app, t, base)
    ensures t.doc.workerDoc in t.host.copies
  {
  }

  lemma MadeIs(app: App, t: State, u: State, base: Content, edit: Edit, pages: seq<W.PageSize>)
    requires t.doc.history.Valid() && IsCopyOf(app, t, base) && WorkerEditOf(t.doc.things, edit).Some?
    requires SameButWorker(t, u) && u.doc.workerDoc == t.doc.workerDoc && !u.doc.lost && u.host.Valid()
    requires t.doc.workerDoc in t.host.copies && t.doc.workerDoc in u.host.copies
    requires var copy := t.host.copies[t.doc.workerDoc];
      var after := app.engine.apply(copy.now, WorkerEditOf(t.doc.things, edit).value);
      && after.Some? && W.ValidPages(app.engine.pages(after.value)) && pages == app.engine.pages(after.value)
      && u.host.copies[t.doc.workerDoc] == W.Copy(after.value, copy.original)
    ensures u.doc.history.Valid() && HasMade(app, u, base, edit, pages)
  {
    assert Meant(app, u.doc, base) == Meant(app, t.doc, base);
    hide W.Replayed, W.ValidPages;
  }

  /** A worker that says it made an edit has made it; one that failed neither fatally nor halfway has its copy as it was. */
  lemma EditedCopy(engine: W.Engine, host: W.Host, id: nat, asked: WorkerEdit)
    requires host.Valid() && id in host.copies
    ensures var r := W.Edit(engine, host, id, asked);
      && r.0.Valid()
      && (r.1.Expected? ==>
            var after := engine.apply(host.copies[id].now, asked);
            && after.Some? && W.ValidPages(engine.pages(after.value)) && r.1.value == engine.pages(after.value)
            && id in r.0.copies && r.0.copies[id] == W.Copy(after.value, host.copies[id].original))
      && (r.1.Failed? && !W.Fatal(r.1.error) && !HalfEdited(W.CodeOf(r.1.error)) ==> r.0.copies == host.copies)
  {
    hide W.ValidPages;
  }

  lemma EditInWorkerIs(app: App, s: State, asked: WorkerEdit)
    requires s.doc.history.Valid()
    ensures var live := LiveWorker(app, s);
      && (live.1.Err? ==> EditInWorker(app, s, asked).0 == live.0 && EditInWorker(app, s, asked).1 == Err(live.1.error))
      && (live.1.Ok? ==> EditInWorker(app, s, asked) == Settle(live.0, W.Edit(app.engine, live.0.host, live.1.value, asked)))
  {
    hide LiveWorker, Settle, W.Edit;
  }

  lemma EditInWorkerFacts(app: App, s: State, origin: Origin, edit: Edit)
    requires Inv(app, s, origin) && WorkerEditOf(s.doc.things, edit).Some?
    ensures var r := EditInWorker(app, s, WorkerEditOf(s.doc.things, edit).value);
      var after := OriginAfter(app, s, origin);
      && SameButWorker(s, r.0) && r.0.host.Valid()
      && Inv(app, MarkLost(r.0), after)
      && (r.1.Err? && !HalfEdited(r.1.error) ==> Inv(app, r.0, after))
      && (r.1.Ok? ==> HasMade(app, r.0, after.base, edit, r.1.value))
  {
    hide *;
    ValidOfInv(app, s, origin);
    LiveWorkerKeeps(app, s, origin);
    LiveIsSame(app, s);
    var live := LiveWorker(app, s);
    var after := OriginAfter(app, s, origin);
    var asked := WorkerEditOf(s.doc.things, edit).value;
    EditInWorkerIs(app, s, asked);
    SameHasThings(s, live.0);
    if live.1.Ok? {
      EditSettles(app, live.0, after.base, edit);
      AfterRequest(app, live.0, EditInWorker(app, s, asked).0, after);
      SameAgain(s, live.0, EditInWorker(app, s, asked).0);
    } else {
      AfterRequest(app, live.0, live.0, after);
    }
  }

  /** However a request ended, the document is in order if it is given up, or if its copy is as it was. */
  lemma AfterRequest(app: App, s: State, t: State, origin: Origin)
    requires Inv(app, s, origin) && SameButWorker(s, t) && t.host.Valid()
    ensures Inv(app, MarkLost(t), origin)
    ensures !s.doc.lost && t.doc.workerDoc == s.doc.workerDoc && (t.doc.lost || t.host.copies == s.host.copies)
      ==> Inv(app, t, origin)
    ensures t == s ==> Inv(app, t, origin)
  {
    LostKeeps(app, s, MarkLost(t), origin);
    if !s.doc.lost && t.doc.workerDoc == s.doc.workerDoc && (t.doc.lost || t.host.copies == s.host.copies) {
      SameButWorkerKeeps(app, s, t, origin);
    }
  }

  // ----- the views after a change

  lemma NamesPush(things: Things, edits: seq<Edit>, n: nat, edit: Edit)
    requires n <= |edits| && things.Names(edits) && WorkerEditOf(things, edit).Some?
    ensures things.Names(edits[..n] + [edit])
  {
  }

  /** What the journal and the numbers change does not change how the rest agrees. */
  lemma AgreesElsewhere(app: App, s: State, t: State, origin: Origin)
    requires Agrees(app, s, origin)
    requires t == s.(doc := s.doc.(journal := t.doc.journal, recovered := t.doc.recovered,
                       info := s.doc.info.(doc := t.doc.info.doc, recovery := t.doc.info.recovery)),
                     folder := t.folder, nextId := t.nextId)
    ensures Agrees(app, t, origin)
  {
    assert Meant(app, t.doc, origin.base) == Meant(app, s.doc, origin.base);
    if Faithful(app.engine) && origin.steady {
      assert Known(app, s.doc, origin.base);
      SameForeseen(app, s.doc, t.doc, origin.base, s.doc.history.edits);
    }
  }

  /** Keeping the journal in step changes which journal the document has, and the folder. */
  lemma JournalFrame(app: App, s: State)
    requires s.doc.history.Valid()
    ensures var t := KeepJournal(app, s); t == s.(doc := s.doc.(journal := t.doc.journal), folder := t.folder)
  {
    if s.doc.history.Unsaved() {
      hide J.BodyOf, J.Write, J.Create;
    } else {
      match s.doc.journal
      case None => assert s.doc.(journal := s.doc.journal) == s.doc;
      case Some(_) => hide J.Remove;
    }
  }

  lemma WriteInStep(app: App, folder: J.Folder, id: J.JournalId, doc: Document)
    requires doc.history.Valid() && doc.journal == Some(id) && id in folder.inUse
    ensures var body := J.BodyOf(doc.things, doc.history.Applied());
      var written := J.Write(app.rules, folder, id, doc.path, doc.identity, body);
      && written.inUse == folder.inUse
      && (doc.identity.Some? && app.rules.fits(body) ==>
            id in written.stored && written.stored[id] == J.Stored(doc.path, doc.identity.value, body))
  {
  }

  /** The journal kept after a change is in step, whatever the document had before. */
  lemma KeepJournalInStep(app: App, s: State)
    requires AppOk(app) && s.doc.history.Valid() && JournalsHeld(app, s)
    ensures var t := KeepJournal(app, s);
      && JournalOk(app, t)
      && t == s.(doc := s.doc.(journal := t.doc.journal), folder := t.folder)
  {
    hide *;
    JournalFrame(app, s);
    if s.doc.history.Unsaved() { WrittenInStep(app, s); } else { GoneInStep(app, s); }
  }

  lemma WrittenInStep(app: App, s: State)
    requires AppOk(app) && s.doc.history.Valid() && JournalsHeld(app, s) && s.doc.history.Unsaved()
    ensures JournalOk(app, KeepJournal(app, s))
  {
    var t := KeepJournal(app, s);
    JournalFrame(app, s);
    JournalWritten(app, s);
    WriteInStep(app, Created(app, s).0, Created(app, s).1, t.doc);
    OfferUntouched(app, s, Created(app, s).0, Created(app, s).1);
    hide J.BodyOf, J.Write, KeepJournal, Created, AppOk, J.Readable;
    assert InStep(app, t);
  }

  /** What is written under another name leaves the journal offered as it is. */
  lemma OfferUntouched(app: App, s: State, folder: J.Folder, id: J.JournalId)
    requires folder.stored == s.folder.stored
    ensures forall other: J.JournalId, path: Path, stamp: Option<nat>, body: J.Body ::
      other != id && other in s.folder.stored ==>
        var written := J.Write(app.rules, folder, id, path, stamp, body);
        other in written.stored && written.stored[other] == s.folder.stored[other]
  {
  }

  lemma GoneInStep(app: App, s: State)
    requires s.doc.history.Valid() && JournalsHeld(app, s) && !s.doc.history.Unsaved()
    ensures JournalOk(app, KeepJournal(app, s))
  {
    JournalFrame(app, s);
    KeptIs(app, s);
    hide KeepJournal, Created, J.BodyOf, J.Write, J.Readable, InStep;
  }

  /** The document's journal, a new one if it has none, and the folder with it in use. */
  function Created(app: App, s: State): (J.Folder, J.JournalId)
  {
    if s.doc.journal.Some? then (s.folder, s.doc.journal.value) else J.Create(app.rules, s.folder)
  }

  lemma SameCreated(app: App, s: State, t: State)
    requires t.doc.journal == s.doc.journal && t.folder == s.folder
    ensures Created(app, t) == Created(app, s)
  {
    hide J.Create;
  }

  lemma KeptIs(app: App, s: State)
    requires s.doc.history.Valid()
    ensures var t := KeepJournal(app, s);
      && (s.doc.history.Unsaved() ==>
            && t.doc.journal == Some(Created(app, s).1)
            && t.folder == J.Write(app.rules, Created(app, s).0, Created(app, s).1, s.doc.path, s.doc.identity,
                                   J.BodyOf(s.doc.things, s.doc.history.Applied())))
      && (!s.doc.history.Unsaved() ==>
            && t.doc.journal.None?
            && t.folder == if s.doc.journal.Some? then J.Remove(s.folder, s.doc.journal.value) else s.folder)
  {
    hide J.BodyOf, J.Write, J.Create, J.Remove;
  }

  lemma JournalWritten(app: App, s: State)
    requires AppOk(app) && s.doc.history.Valid() && s.doc.history.Unsaved() && JournalsHeld(app, s)
    ensures var created := Created(app, s);
      var t := KeepJournal(app, s);
      var body := J.BodyOf(s.doc.things, s.doc.history.Applied());
      && t.doc.journal == Some(created.1) && t.folder == J.Write(app.rules, created.0, created.1, s.doc.path, s.doc.identity, body)
      && created.1 in created.0.inUse && s.folder.inUse <= created.0.inUse && created.0.stored == s.folder.stored
      && (s.doc.recovered.Some? ==> created.1 != s.doc.recovered.value.id)
  {
    if s.doc.journal.None? {
      assert app.rules.name(s.folder.stored.Keys + s.folder.inUse) !in s.folder.stored.Keys + s.folder.inUse;
    }
    hide J.BodyOf, J.Write, J.Readable;
  }

  lemma KeepJournalKeeps(app: App, s: State, origin: Origin)
    requires AppOk(app) && Agrees(app, s, origin) && JournalsHeld(app, s)
    ensures var t := KeepJournal(app, s);
      && Agrees(app, t, origin) && JournalOk(app, t)
      && t == s.(doc := s.doc.(journal := t.doc.journal), folder := t.folder)
  {
    KeepJournalInStep(app, s);
    AgreesElsewhere(app, s, KeepJournal(app, s), origin);
    hide AppOk, KeepJournal, JournalOk;
  }

  lemma RenumberKeeps(app: App, s: State, origin: Origin)
    requires Agrees(app, s, origin) && JournalOk(app, s)
    ensures Inv(app, Renumber(s), origin)
  {
    var t := Renumber(s);
    AgreesElsewhere(app, s, t, origin);
    assert s.doc.journal.Some? ==> InStep(app, s);
  }

  /** What has to hold of a changed history for the document to be in order with it. */
  ghost predicate GoodChange(app: App, t: State, origin: Origin, history: Timeline, pages: seq<W.PageSize>)
  {
    && history.Valid() && |history.edits| <= MAX_UNDO_EDITS
    && (forall i :: 0 <= i < |history.edits| ==> Valid(history.edits[i]))
    && t.doc.things.Names(history.edits)
    && t.host.Valid() && !t.doc.lost && t.doc.workerDoc in t.host.copies
    && (var meant := W.Replayed(app.engine, t.doc.things, origin.base, history.Applied());
        && meant.Some? && pages == app.engine.pages(meant.value)
        && t.host.copies[t.doc.workerDoc] == W.Copy(meant.value, origin.base))
    && (Faithful(app.engine) && origin.steady ==> AllForeseen(app, t.doc, origin.base, history.edits))
  }

  lemma SameForeseen(app: App, doc: Document, other: Document, base: Content, edits: seq<Edit>)
    requires doc.things == other.things && doc.info.permissions == other.info.permissions
    requires AllForeseen(app, doc, base, edits)
    ensures AllForeseen(app, other, base, edits)
  {
    forall n | 0 <= n <= |edits| ensures PrefixForeseen(app, other, base, edits, n) {
      assert PrefixForeseen(app, doc, base, edits, n);
    }
  }

  lemma ChangedKeeps(app: App, t: State, origin: Origin, history: Timeline, pages: seq<W.PageSize>)
    requires AppOk(app) && Inv(app, MarkLost(t), origin) && GoodChange(app, t, origin, history, pages)
    ensures Inv(app, Changed(app, t, history, pages), origin)
  {
    var shown := t.(doc := ShowHistory(t.doc.(history := history, info := t.doc.info.(pages := pages))));
    ShownAgrees(app, t, shown, origin, history, pages);
    KeepJournalKeeps(app, shown, origin);
    RenumberKeeps(app, KeepJournal(app, shown), origin);
  }

  lemma ShownAgrees(app: App, t: State, shown: State, origin: Origin, history: Timeline, pages: seq<W.PageSize>)
    requires Inv(app, MarkLost(t), origin) && GoodChange(app, t, origin, history, pages)
    requires shown == t.(doc := ShowHistory(t.doc.(history := history, info := t.doc.info.(pages := pages))))
    ensures Agrees(app, shown, origin) && JournalsHeld(app, shown)
  {
    assert Agrees(app, MarkLost(t), origin) && JournalsHeld(app, MarkLost(t));
    hide Inv, Agrees;
    ShownParts(app, t, shown, origin, history, pages);
  }

  lemma ShownParts(app: App, t: State, shown: State, origin: Origin, history: Timeline, pages: seq<W.PageSize>)
    requires Agrees(app, MarkLost(t), origin) && GoodChange(app, t, origin, history, pages)
    requires shown == t.(doc := ShowHistory(t.doc.(history := history, info := t.doc.info.(pages := pages))))
    ensures Agrees(app, shown, origin)
  {
    assert Meant(app, shown.doc, origin.base) == W.Replayed(app.engine, t.doc.things, origin.base, history.Applied());
    assert UnchangedOnDisk(shown) == UnchangedOnDisk(MarkLost(t));
    if Faithful(app.engine) && origin.steady {
      assert Known(app, MarkLost(t).doc, origin.base);
      SameForeseen(app, t.doc, shown.doc, origin.base, history.edits);
    }
  }

  // ----- the commands that change the history

  /** An edit made with the page count foreseen for it lengthens what was foreseen. */
  lemma PushForeseen(app: App, doc: Document, base: Content, edit: Edit, pages: seq<W.PageSize>)
    requires doc.history.Valid() && AllForeseen(app, doc, base, doc.history.edits)
    requires PagesAfter(edit, |doc.info.pages|, doc.info.permissions, doc.things.SourcePages()) == Ok(|pages|)
    requires Meant(app, doc, base).Some? && doc.info.pages == app.engine.pages(Meant(app, doc, base).value)
    requires var made := W.Replayed(app.engine, doc.things, base, doc.history.Applied() + [edit]);
      made.Some? && pages == app.engine.pages(made.value)
    ensures AllForeseen(app, doc, base, doc.history.Push(edit).edits)
  {
    var edits := doc.history.edits;
    var pushed := doc.history.Push(edit).edits;
    forall n | 0 <= n <= |pushed| ensures PrefixForeseen(app, doc, base, pushed, n) {
      if n < |pushed| {
        assert PrefixForeseen(app, doc, base, edits, n);
        assert pushed[..n] == edits[..n];
      } else {
        assert PrefixForeseen(app, doc, base, edits, doc.history.applied);
        assert pushed[..n] == doc.history.Applied() + [edit];
        assert pushed[..n][..n - 1] == doc.history.Applied();
      }
    }
  }

  /** A new edit, once the worker made it with the page count foreseen, may join the history. */
  lemma PushIsGood(app: App, t: State, origin: Origin, edit: Edit, pages: seq<W.PageSize>)
    requires Inv(app, MarkLost(t), origin) && HasMade(app, t, origin.base, edit, pages)
    requires Valid(edit) && WorkerEditOf(t.doc.things, edit).Some? && t.doc.history.applied < MAX_UNDO_EDITS
    requires PagesAfter(edit, |t.doc.info.pages|, t.doc.info.permissions, t.doc.things.SourcePages()) == Ok(|pages|)
    ensures GoodChange(app, t, origin, t.doc.history.Push(edit), pages)
  {
    W.ReplayedPush(app.engine, t.doc.things, origin.base, t.doc.history.Applied(), edit);
    NamesPush(t.doc.things, t.doc.history.edits, t.doc.history.applied, edit);
    if Faithful(app.engine) && origin.steady {
      assert Known(app, MarkLost(t).doc, origin.base);
      SameForeseen(app, MarkLost(t).doc, t.doc, origin.base, t.doc.history.edits);
      assert Meant(app, MarkLost(t).doc, origin.base) == Meant(app, t.doc, origin.base);
      PushForeseen(app, t.doc, origin.base, edit, pages);
    }
  }

  lemma PushKeeps(app: App, t: State, origin: Origin, edit: Edit, pages: seq<W.PageSize>)
    requires AppOk(app) && Inv(app, MarkLost(t), origin) && HasMade(app, t, origin.base, edit, pages)
    requires Valid(edit) && WorkerEditOf(t.doc.things, edit).Some? && t.doc.history.applied < MAX_UNDO_EDITS
    requires PagesAfter(edit, |t.doc.info.pages|, t.doc.info.permissions, t.doc.things.SourcePages()) == Ok(|pages|)
    ensures Inv(app, Changed(app, t, t.doc.history.Push(edit), pages), origin)
  {
    PushIsGood(app, t, origin, edit, pages);
    ChangedKeeps(app, t, origin, t.doc.history.Push(edit), pages);
  }

  lemma ApplyAskedKeeps(app: App, s: State, origin: Origin, edit: Edit)
    requires AppOk(app) && Inv(app, s, origin)
    requires s.doc.history.Valid() && Refusal(app, s, edit).None?
    ensures Inv(app, ApplyEdit(app, s, edit).0, OriginAfter(app, s, origin))
  {
    hide Inv, Refusal, EditInWorker, HasMade, Changed, AppOk, PagesAfter, OriginAfter;
    var after := OriginAfter(app, s, origin);
    var r := EditInWorker(app, s, WorkerEditOf(s.doc.things, edit).value);
    EditInWorkerFacts(app, s, origin, edit);
    if r.1.Ok? {
      MadeKeeps(app, r.0, after, edit, r.1.value);
    }
  }

  /** An edit the worker made: into the history if its page count is the one foreseen, else given up. */
  lemma MadeKeeps(app: App, t: State, origin: Origin, edit: Edit, pages: seq<W.PageSize>)
    requires AppOk(app) && Inv(app, MarkLost(t), origin) && HasMade(app, t, origin.base, edit, pages)
    requires Valid(edit) && WorkerEditOf(t.doc.things, edit).Some? && t.doc.history.applied < MAX_UNDO_EDITS
    requires t.host.Valid()
    ensures PagesAfter(edit, |t.doc.info.pages|, t.doc.info.permissions, t.doc.things.SourcePages()) == Ok(|pages|)
      ==> Inv(app, Changed(app, t, t.doc.history.Push(edit), pages), origin)
    ensures Inv(app, UnexpectedOn(t), origin)
  {
    hide Inv, Changed, AppOk, HasMade;
    LostKeeps(app, MarkLost(t), UnexpectedOn(t), origin);
    if PagesAfter(edit, |t.doc.info.pages|, t.doc.info.permissions, t.doc.things.SourcePages()) == Ok(|pages|) {
      PushKeeps(app, t, origin, edit, pages);
    }
  }

  /** The document is as the worker was left with it, or given up too, or the edit joined the history. */
  lemma ApplyLeaves(app: App, s: State, edit: Edit)
    requires s.doc.history.Valid() && Refusal(app, s, edit).None?
    ensures var r := EditInWorker(app, s, WorkerEditOf(s.doc.things, edit).value);
      var t := ApplyEdit(app, s, edit).0;
      || (SameButWorker(r.0, t) && (r.0.doc.lost ==> t.doc.lost))
      || (r.1.Ok? && t.disk == r.0.disk && t.doc.lost == r.0.doc.lost)
  {
    hide EditInWorker, Changed, Refusal, PagesAfter;
    var r := EditInWorker(app, s, WorkerEditOf(s.doc.things, edit).value);
    if r.1.Ok? { ChangedFrame(app, r.0, s.doc.history.Push(edit), r.1.value); }
  }

  lemma ApplyKeeps(app: App, s: State, origin: Origin, edit: Edit)
    requires AppOk(app) && Inv(app, s, origin)
    ensures s.doc.history.Valid()
    ensures Inv(app, ApplyEdit(app, s, edit).0, OriginOf(s, ApplyEdit(app, s, edit).0, origin))
  {
    hide Inv, Refusal, EditInWorker, Changed, AppOk, PagesAfter, OriginAfter, LiveWorker;
    if Refusal(app, s, edit).Some? {
      WeakerOrigin(app, s, origin);
    } else {
      ApplyAskedKeeps(app, s, origin, edit);
      var asked := WorkerEditOf(s.doc.things, edit).value;
      var r := EditInWorker(app, s, asked);
      OnlyHost(app, s, asked);
      EditNeedsLive(app, s, asked);
      ApplyLeaves(app, s, edit);
      hide ApplyEdit;
      GoesBy(app, s, r.0, ApplyEdit(app, s, edit).0, origin);
    }
  }

  /** Redoing what was undone, once the worker made it. */
  lemma RedoIsGood(app: App, t: State, origin: Origin, pages: seq<W.PageSize>)
    requires Inv(app, MarkLost(t), origin) && t.doc.history.CanRedo()
    requires HasMade(app, t, origin.base, t.doc.history.edits[t.doc.history.applied], pages)
    ensures GoodChange(app, t, origin, t.doc.history.Redo(), pages)
  {
    var edit := t.doc.history.edits[t.doc.history.applied];
    W.ReplayedPush(app.engine, t.doc.things, origin.base, t.doc.history.Applied(), edit);
    assert t.doc.history.Redo().Applied() == t.doc.history.Applied() + [edit];
    if Faithful(app.engine) && origin.steady {
      assert Known(app, MarkLost(t).doc, origin.base);
      SameForeseen(app, MarkLost(t).doc, t.doc, origin.base, t.doc.history.edits);
    }
  }

  lemma RedoneKeeps(app: App, t: State, origin: Origin, pages: seq<W.PageSize>)
    requires AppOk(app) && Inv(app, MarkLost(t), origin) && t.doc.history.CanRedo()
    requires HasMade(app, t, origin.base, t.doc.history.edits[t.doc.history.applied], pages)
    ensures Inv(app, Changed(app, t, t.doc.history.Redo(), pages), origin)
  {
    RedoIsGood(app, t, origin, pages);
    ChangedKeeps(app, t, origin, t.doc.history.Redo(), pages);
  }

  lemma RedoAskedKeeps(app: App, s: State, origin: Origin)
    requires AppOk(app) && Inv(app, s, origin)
    requires s.doc.history.Valid() && s.doc.history.CanRedo()
    requires WorkerEditOf(s.doc.things, s.doc.history.edits[s.doc.history.applied]).Some?
    ensures Inv(app, Redo(app, s).0, OriginAfter(app, s, origin))
  {
    hide Inv, EditInWorker, HasMade, Changed, AppOk, OriginAfter;
    var edit := s.doc.history.edits[s.doc.history.applied];
    var r := EditInWorker(app, s, WorkerEditOf(s.doc.things, edit).value);
    EditInWorkerFacts(app, s, origin, edit);
    if r.1.Ok? {
      RedoneKeeps(app, r.0, OriginAfter(app, s, origin), r.1.value);
    }
  }

  lemma RedoKeeps(app: App, s: State, origin: Origin)
    requires AppOk(app) && Inv(app, s, origin)
    ensures s.doc.history.Valid()
    ensures Inv(app, Redo(app, s).0, OriginOf(s, Redo(app, s).0, origin))
  {
    hide Inv, EditInWorker, Changed, AppOk, OriginAfter, LiveWorker;
    WeakerOrigin(app, s, origin);
    if s.doc.history.CanRedo() {
      var edit := s.doc.history.edits[s.doc.history.applied];
      if WorkerEditOf(s.doc.things, edit).Some? {
        RedoAskedKeeps(app, s, origin);
        var asked := WorkerEditOf(s.doc.things, edit).value;
        var r := EditInWorker(app, s, asked);
        OnlyHost(app, s, asked);
        EditNeedsLive(app, s, asked);
        if r.1.Ok? { ChangedFrame(app, r.0, s.doc.history.Redo(), r.1.value); }
        GoesBy(app, s, r.0, Redo(app, s).0, origin);
      }
    }
  }

  /** The worker's copy is its original with `edits` made on it. */
  ghost predicate HasReverted(app: App, t: State, base: Content, edits: seq<Edit>, pages: seq<W.PageSize>)
  {
    var made := W.Replayed(app.engine, t.doc.things, base, edits);
    && made.Some? && pages == app.engine.pages(made.value)
    && !t.doc.lost && t.host.Valid() && t.doc.workerDoc in t.host.copies
    && t.host.copies[t.doc.workerDoc] == W.Copy(made.value, base)
  }

  lemma RevertSettles(app: App, t: State, base: Content, edits: seq<Edit>, password: Option<W.Password>)
    requires t.doc.history.Valid() && t.host.Valid() && !t.doc.lost
    requires IsCopyOf(app, t, base)
    requires W.Replayed(app.engine, t.doc.things, base, edits).Some?
    requires W.WorkerEditsOf(t.doc.things, edits).Some?
    ensures var asked := W.WorkerEditsOf(t.doc.things, edits).value;
      var r := Settle(t, W.Revert(app.engine, t.host, t.doc.workerDoc, asked, password));
      && SameButWorker(t, r.0) && r.0.host.Valid()
      && (r.1.Ok? ==> HasReverted(app, r.0, base, edits, r.1.value))
      && (r.1.Err? ==> r.0.doc.lost || r.0.host.copies == t.host.copies)
      && (r.1.Err? ==> r.0.doc.workerDoc == t.doc.workerDoc)
  {
    W.RevertReplays(app.engine, t.doc.things, base, edits);
  }

  lemma RevertInWorkerFacts(app: App, s: State, origin: Origin, n: nat, password: Option<W.Password>)
    requires Inv(app, s, origin) && n <= s.doc.history.applied
    requires W.WorkerEditsOf(s.doc.things, s.doc.history.edits[..n]).Some?
    ensures var edits := s.doc.history.edits[..n];
      var r := RevertInWorker(app, s, W.WorkerEditsOf(s.doc.things, edits).value, password);
      var after := OriginAfter(app, s, origin);
      && SameButWorker(s, r.0) && r.0.host.Valid()
      && Inv(app, MarkLost(r.0), after)
      && (r.1.Err? ==> Inv(app, r.0, after))
      && (r.1.Ok? ==> HasReverted(app, r.0, after.base, edits, r.1.value))
  {
    var edits := s.doc.history.edits[..n];
    LiveWorkerKeeps(app, s, origin);
    var live := LiveWorker(app, s);
    var after := OriginAfter(app, s, origin);
    var r := RevertInWorker(app, s, W.WorkerEditsOf(s.doc.things, edits).value, password);
    hide LiveWorker, OriginAfter;
    if live.1.Ok? {
      assert s.doc.history.Applied()[..n] == edits;
      assert IsCopyOf(app, live.0, after.base);
      W.ReplayedPrefix(app.engine, s.doc.things, after.base, s.doc.history.Applied(), n);
      hide Inv;
      RevertSettles(app, live.0, after.base, edits, password);
      AfterRequest(app, live.0, r.0, after);
    } else {
      AfterRequest(app, live.0, live.0, after);
    }
  }

  /** Undoing the last edit, once the worker has the document without it. */
  lemma UndoIsGood(app: App, t: State, origin: Origin, pages: seq<W.PageSize>)
    requires Inv(app, MarkLost(t), origin) && t.doc.history.applied > 0
    requires HasReverted(app, t, origin.base, t.doc.history.Undo().Applied(), pages)
    ensures GoodChange(app, t, origin, t.doc.history.Undo(), pages)
  {
    if Faithful(app.engine) && origin.steady {
      assert Known(app, MarkLost(t).doc, origin.base);
      SameForeseen(app, MarkLost(t).doc, t.doc, origin.base, t.doc.history.edits);
    }
  }

  lemma UndoneKeeps(app: App, t: State, origin: Origin, pages: seq<W.PageSize>)
    requires AppOk(app) && Inv(app, MarkLost(t), origin) && t.doc.history.applied > 0
    requires HasReverted(app, t, origin.base, t.doc.history.Undo().Applied(), pages)
    ensures Inv(app, Changed(app, t, t.doc.history.Undo(), pages), origin)
  {
    UndoIsGood(app, t, origin, pages);
    ChangedKeeps(app, t, origin, t.doc.history.Undo(), pages);
  }

  lemma UndoAskedKeeps(app: App, s: State, origin: Origin, password: Option<W.Password>)
    requires AppOk(app) && Inv(app, s, origin)
    requires s.doc.history.Valid() && s.doc.history.applied > 0 && !(s.doc.guarded && password.None?)
    requires W.WorkerEditsOf(s.doc.things, s.doc.history.Undo().Applied()).Some?
    ensures Inv(app, Undo(app, s, password).0, OriginAfter(app, s, origin))
  {
    hide Inv, RevertInWorker, HasReverted, Changed, AppOk, OriginAfter;
    var undone := s.doc.history.Undo();
    var given := if s.doc.guarded then password else Option.None;
    var r := RevertInWorker(app, s, W.WorkerEditsOf(s.doc.things, undone.Applied()).value, given);
    RevertInWorkerFacts(app, s, origin, s.doc.history.applied - 1, given);
    if r.1.Ok? {
      UndoneKeeps(app, r.0, OriginAfter(app, s, origin), r.1.value);
    }
  }

  lemma UndoKeeps(app: App, s: State, origin: Origin, password: Option<W.Password>)
    requires AppOk(app) && Inv(app, s, origin)
    ensures s.doc.history.Valid()
    ensures Inv(app, Undo(app, s, password).0, OriginOf(s, Undo(app, s, password).0, origin))
  {
    hide *;
    ValidOfInv(app, s, origin);
    WeakerOrigin(app, s, origin);
    UndoIs(app, s, password);
    if MayUndo(s, password) {
      UndoAskedKeeps(app, s, origin, password);
      var asked := W.WorkerEditsOf(s.doc.things, s.doc.history.Undo().Applied()).value;
      var given := if s.doc.guarded then password else Option.None;
      var r := RevertInWorker(app, s, asked, given);
      RevertSame(app, s, asked, given);
      RevertNeedsLive(app, s, asked, given);
      if r.1.Ok? { ChangedFrame(app, r.0, s.doc.history.Undo(), r.1.value); }
      GivenUpIsSame(r.0);
      GoesBy(app, s, r.0, Undo(app, s, password).0, origin);
    } else {
      GoesByTheSame(s, origin);
    }
  }

  /** There is something to undo, the password for it, and everything it needs is kept. */
  predicate MayUndo(s: State, password: Option<W.Password>)
  {
    && s.doc.history.Valid() && !(s.doc.guarded && password.None?) && s.doc.history.applied > 0
    && W.WorkerEditsOf(s.doc.things, s.doc.history.Undo().Applied()).Some?
  }

  lemma UndoIs(app: App, s: State, password: Option<W.Password>)
    requires s.doc.history.Valid()
    ensures !MayUndo(s, password) ==> Undo(app, s, password).0 == s
    ensures MayUndo(s, password) ==>
      && s.doc.history.applied > 0 && !(s.doc.guarded && password.None?)
      && W.WorkerEditsOf(s.doc.things, s.doc.history.Undo().Applied()).Some?
      && var given := if s.doc.guarded then password else Option.None;
         var r := RevertInWorker(app, s, W.WorkerEditsOf(s.doc.things, s.doc.history.Undo().Applied()).value, given);
         && (r.1.Err? ==> Undo(app, s, password).0 == r.0 || Undo(app, s, password).0 == MarkLost(r.0))
         && (r.1.Ok? ==> Undo(app, s, password).0 == Changed(app, r.0, s.doc.history.Undo(), r.1.value))
  {
    hide RevertInWorker, Changed, W.WorkerEditsOf, HalfEdited;
  }

  lemma RevertSame(app: App, s: State, asked: seq<WorkerEdit>, password: Option<W.Password>)
    requires s.doc.history.Valid()
    ensures SameButWorker(s, RevertInWorker(app, s, asked, password).0)
  {
    hide *;
    LiveIsSame(app, s);
    RevertInWorkerIs(app, s, asked, password);
    var live := LiveWorker(app, s);
    if live.1.Ok? {
      SettledIsSame(live.0, W.Revert(app.engine, live.0.host, live.1.value, asked, password));
      SameAgain(s, live.0, RevertInWorker(app, s, asked, password).0);
    }
  }

  lemma RevertInWorkerIs(app: App, s: State, asked: seq<WorkerEdit>, password: Option<W.Password>)
    requires s.doc.history.Valid()
    ensures var live := LiveWorker(app, s);
      && (live.1.Err? ==> RevertInWorker(app, s, asked, password).0 == live.0)
      && (live.1.Ok? ==> RevertInWorker(app, s, asked, password)
                         == Settle(live.0, W.Revert(app.engine, live.0.host, live.1.value, asked, password)))
  {
    hide LiveWorker, Settle, W.Revert;
  }
}
