/**
 * Keeping things for edits, and making a journal's edits again, keep the invariant; with that
 * every command does, and every run of them (src-tauri/src/documents.rs:594-982, 2137-2370).
 */
module RecoveryProofs {
  import opened Basics
  import opened Edits
  import opened Histories
  import opened Stores
  import opened Sessions
  import opened Invariant
  import opened SessionProofs
  import opened SavingProofs
  import W = Worker
  import J = Journals

  // ----- things kept for edits

  lemma PrefixNames(edits: seq<Edit>, n: nat)
    requires n <= |edits|
    ensures SourcesOf(edits[..n]) <= SourcesOf(edits)
    ensures PicturesOf(edits[..n]) <= PicturesOf(edits)
    ensures ModelsOf(edits[..n]) <= ModelsOf(edits)
  {
  }

  lemma {:induction false} PagesSameSources(edits: seq<Edit>, count: nat, allowed: Permissions, things: Things, other: Things)
    requires forall id :: id in SourcesOf(edits) ==> things.sources.Get(id) == other.sources.Get(id)
    ensures PagesAfterAll(edits, count, allowed, things.SourcePages())
         == PagesAfterAll(edits, count, allowed, other.SourcePages())
    decreases |edits|
  {
    if edits != [] {
      var k := |edits| - 1;
      PrefixNames(edits, k);
      PagesSameSources(edits[..k], count, allowed, things, other);
      forall id | id in SourceOf(edits[k]) ensures things.SourcePages()(id) == other.SourcePages()(id) {
        assert id in SourcesOf(edits);
      }
      OnePageSame(edits[k], allowed, things, other);
    }
  }

  lemma OnePageSame(edit: Edit, allowed: Permissions, things: Things, other: Things)
    requires forall id :: id in SourceOf(edit) ==> things.SourcePages()(id) == other.SourcePages()(id)
    ensures forall count: nat ::
      PagesAfter(edit, count, allowed, things.SourcePages()) == PagesAfter(edit, count, allowed, other.SourcePages())
  {
  }

  lemma BodySameThings(things: Things, other: Things, edits: seq<Edit>, applied: nat)
    requires applied <= |edits| && things.SameFor(other, edits)
    ensures J.BodyOf(things, edits[..applied]) == J.BodyOf(other, edits[..applied])
  {
    var kept := JournalledOf(edits[..applied]).kept;
    var n := |kept|;
    assert kept == edits[..applied][..n] == edits[..n];
    PrefixNames(edits, n);
    assert things.pictures.UsedBy(PicturesOf(kept)) == other.pictures.UsedBy(PicturesOf(kept)) by {
      forall id | id in PicturesOf(kept) ensures things.pictures.Get(id) == other.pictures.Get(id) { }
    }
    assert things.models.UsedBy(ModelsOf(kept)) == other.models.UsedBy(ModelsOf(kept)) by {
      forall id | id in ModelsOf(kept) ensures things.models.Get(id) == other.models.Get(id) { }
    }
  }

  /** The document with other things kept, of which its edits name the same ones. */
  function Keeping(s: State, things: Things): State { s.(doc := s.doc.(things := things)) }

  lemma KeepingAgrees(app: App, s: State, things: Things, origin: Origin)
    requires Agrees(app, s, origin) && things.Valid() && HonestSources(app.engine, things)
    requires things.Names(s.doc.history.edits) && things.SameFor(s.doc.things, s.doc.history.edits)
    ensures Agrees(app, Keeping(s, things), origin)
  {
    var edits := s.doc.history.edits;
    var t := Keeping(s, things);
    ReplayedSamePrefix(app, things, s.doc.things, origin.base, edits, s.doc.history.applied);
    assert Meant(app, t.doc, origin.base) == Meant(app, s.doc, origin.base);
    if Faithful(app.engine) && origin.steady {
      assert Known(app, s.doc, origin.base);
      KeepingForeseen(app, s.doc, things, origin.base);
    }
    hide W.Replayed, AllForeseen, Faithful, HonestSources;
  }

  lemma ReplayedSamePrefix(app: App, things: Things, other: Things, base: Content, edits: seq<Edit>, n: nat)
    requires n <= |edits| && things.SameFor(other, edits)
    ensures W.Replayed(app.engine, things, base, edits[..n]) == W.Replayed(app.engine, other, base, edits[..n])
  {
    PrefixNames(edits, n);
    W.ReplayedSameThings(app.engine, things, other, base, edits[..n]);
  }

  lemma KeepingForeseen(app: App, doc: Document, things: Things, base: Content)
    requires AllForeseen(app, doc, base, doc.history.edits)
    requires things.SameFor(doc.things, doc.history.edits)
    ensures AllForeseen(app, doc.(things := things), base, doc.history.edits)
  {
    var edits := doc.history.edits;
    forall n | 0 <= n <= |edits| ensures PrefixForeseen(app, doc.(things := things), base, edits, n) {
      assert PrefixForeseen(app, doc, base, edits, n);
      ReplayedSamePrefix(app, things, doc.things, base, edits, n);
      PrefixNames(edits, n);
      PagesSameSources(edits[..n], |app.engine.pages(base)|, doc.info.permissions, things, doc.things);
    }
  }

  lemma KeepingJournal(app: App, s: State, things: Things)
    requires s.doc.history.Valid() && JournalOk(app, s)
    requires things.SameFor(s.doc.things, s.doc.history.edits)
    ensures JournalOk(app, Keeping(s, things))
  {
    BodySameThings(things, s.doc.things, s.doc.history.edits, s.doc.history.applied);
    assert s.doc.journal.Some? ==> InStep(app, s);
  }

  lemma KeepingKeeps(app: App, s: State, things: Things, origin: Origin)
    requires Inv(app, s, origin) && things.Valid() && HonestSources(app.engine, things)
    requires things.Names(s.doc.history.edits) && things.SameFor(s.doc.things, s.doc.history.edits)
    ensures Inv(app, Keeping(s, things), origin)
  {
    hide Inv, Agrees, JournalOk;
    KeepingAgrees(app, s, things, origin);
    KeepingJournal(app, s, things);
    InvOf(app, Keeping(s, things), origin);
  }

  /** A request about no copy leaves the document in order. */
  lemma AskKeeps(app: App, s: State, origin: Origin)
    requires Inv(app, s, origin)
    ensures var asked := W.Ask(app.engine, s.host);
      var t := With(s, asked.0);
      && (asked.1.Failed? ==> Inv(app, LostOn(t, asked.1.error), origin))
      && (!asked.1.Failed? ==> Inv(app, t, origin))
  {
    hide Inv, Agrees, JournalOk;
    var asked := W.Ask(app.engine, s.host);
    var t := With(s, asked.0);
    var u := if asked.1.Failed? then LostOn(t, asked.1.error) else t;
    assert SameButWorker(s, u) && u.host.Valid();
    AfterRequest(app, s, u, origin);
    if u.doc.lost { assert MarkLost(u) == u; }
  }

  lemma AddPictureKeeps(app: App, s: State, origin: Origin, picture: Picture)
    requires Inv(app, s, origin)
    ensures Inv(app, AddPicture(app, s, picture).0, origin)
  {
    AskKeeps(app, s, origin);
    var r := AddPicture(app, s, picture);
    if r.1.Ok? {
      var t := With(s, W.Ask(app.engine, s.host).0);
      NamesOfInv(app, t, origin);
      KeepingKeeps(app, t, r.0.doc.things, origin);
    }
  }

  lemma AddModelKeeps(app: App, s: State, origin: Origin, model: Model, fits: (map<nat, Model>, Model) -> bool)
    requires Inv(app, s, origin)
    ensures Inv(app, AddModel(app, s, model, fits).0, origin)
  {
    AskKeeps(app, s, origin);
    var r := AddModel(app, s, model, fits);
    if r.1.Ok? {
      var t := With(s, W.Ask(app.engine, s.host).0);
      NamesOfInv(app, t, origin);
      KeepingKeeps(app, t, r.0.doc.things, origin);
    }
  }

  lemma {:induction false} AskMoreKeeps(app: App, s: State, origin: Origin, most: nat)
    requires Inv(app, s, origin)
    ensures Inv(app, AskMore(app, s, most), origin)
    decreases most
  {
    hide Inv, W.Ask;
    if most > 0 {
      AskKeeps(app, s, origin);
      var asked := W.Ask(app.engine, s.host);
      if !(asked.1.Failed? && W.Fatal(asked.1.error)) { AskMoreKeeps(app, With(s, asked.0), origin, most - 1); }
    }
  }

  lemma AskedForSourceKeeps(app: App, s: State, origin: Origin, boxes: nat)
    requires Inv(app, s, origin)
    ensures Inv(app, AskedForSource(app, s, boxes), origin)
  {
    hide Inv, W.Ask, AskMore, LostOn;
    AskKeeps(app, s, origin);
    var asked := W.Ask(app.engine, s.host);
    if asked.1.Expected? { AskMoreKeeps(app, With(s, asked.0), origin, boxes); }
  }

  lemma AddSourceKeeps(app: App, s: State, origin: Origin, bytes: Content, boxes: nat,
    fits: (map<nat, Source>, Source) -> bool)
    requires Inv(app, s, origin)
    ensures Inv(app, AddSource(app, s, bytes, boxes, fits).0, origin)
  {
    hide *;
    ValidOfInv(app, s, origin);
    AskedForSourceKeeps(app, s, origin, boxes);
    AddSourceIs(app, s, bytes, boxes, fits);
    PreparedKeeps(app, AskedForSource(app, s, boxes), origin, bytes, fits);
  }

  lemma PreparedKeeps(app: App, s: State, origin: Origin, bytes: Content, fits: (map<nat, Source>, Source) -> bool)
    requires Inv(app, s, origin) && s.doc.things.Valid() && s.doc.history.Valid()
    ensures Inv(app, Prepared(app, s, bytes, fits).0, origin)
  {
    var r := Prepared(app, s, bytes, fits);
    if r.1.Ok? {
      NamesOfInv(app, s, origin);
      KeepingKeeps(app, s, r.0.doc.things, origin);
    }
  }

  lemma NamesOfInv(app: App, s: State, origin: Origin)
    requires Inv(app, s, origin)
    ensures s.doc.things.Names(s.doc.history.edits) && HonestSources(app.engine, s.doc.things)
    ensures PicturesOf(s.doc.history.edits) <= s.doc.things.pictures.things.Keys
    ensures ModelsOf(s.doc.history.edits) <= s.doc.things.models.things.Keys
    ensures SourcesOf(s.doc.history.edits) <= s.doc.things.sources.things.Keys
  {
  }

  // ----- making a journal's edits again

  lemma NamedAreAsked(things: Things, edits: seq<Edit>, i: nat)
    requires i < |edits| && things.Names(edits)
    ensures WorkerEditOf(things, edits[i]).Some?
  {
    assert forall id :: id in SourceOf(edits[i]) ==> id in SourcesOf(edits);
    assert forall id :: id in PictureOf(edits[i]) ==> id in PicturesOf(edits);
    assert forall id :: id in ModelOf(edits[i]) ==> id in ModelsOf(edits);
    match edits[i]
    case InsertPages(_, source) => assert source in SourceOf(edits[i]);
    case AddImageStamp(_, image, _) => assert image in PictureOf(edits[i]);
    case AddTextBox(_, model, _) => assert model in ModelOf(edits[i]);
    case SetTextBox(_, Some(model), _) => assert model in ModelOf(edits[i]);
    case _ =>
  }

  /** The worker's copy after the first `made` of a list of edits. */
  ghost predicate HasReplayed(app: App, t: State, base: Content, made: seq<Edit>, pages: seq<W.PageSize>)
  {
    var now := W.Replayed(app.engine, t.doc.things, base, made);
    && now.Some? && pages == app.engine.pages(now.value)
    && !t.doc.lost && t.host.Valid() && t.doc.workerDoc in t.host.copies
    && t.host.copies[t.doc.workerDoc] == W.Copy(now.value, base)
  }

  /** One more edit of the list, asked of a worker that made those before it. */
  lemma ReplayOneMore(app: App, t: State, base: Content, made: seq<Edit>, edit: Edit, pages: seq<W.PageSize>)
    requires t.doc.history.Valid() && HasReplayed(app, t, base, made, pages)
    requires WorkerEditOf(t.doc.things, edit).Some?
    ensures var r := EditInWorker(app, t, WorkerEditOf(t.doc.things, edit).value);
      && SameButWorker(t, r.0) && r.0.host.Valid()
      && (r.1.Ok? ==> HasReplayed(app, r.0, base, made + [edit], r.1.value))
  {
    hide *;
    var asked := WorkerEditOf(t.doc.things, edit).value;
    LiveAsItIs(app, t, base, made, pages);
    EditInWorkerIs(app, t, asked);
    EditedCopy(app.engine, t.host, t.doc.workerDoc, asked);
    SettledIsSame(t, W.Edit(app.engine, t.host, t.doc.workerDoc, asked));
    var r := EditInWorker(app, t, asked);
    SameHasThings(t, r.0);
    if r.1.Ok? { OneMoreReplayed(app, t, r.0, base, made, edit, pages, r.1.value); }
  }

  lemma LiveAsItIs(app: App, t: State, base: Content, made: seq<Edit>, pages: seq<W.PageSize>)
    requires t.doc.history.Valid() && HasReplayed(app, t, base, made, pages)
    ensures LiveWorker(app, t) == (t, Ok(t.doc.workerDoc)) && t.host.Valid() && t.doc.workerDoc in t.host.copies && !t.doc.lost
  {
  }

  lemma OneMoreReplayed(app: App, t: State, u: State, base: Content, made: seq<Edit>, edit: Edit, pages: seq<W.PageSize>, more: seq<W.PageSize>)
    requires HasReplayed(app, t, base, made, pages) && WorkerEditOf(t.doc.things, edit).Some?
    requires u.doc.things == t.doc.things && u.doc.workerDoc == t.doc.workerDoc && !u.doc.lost && u.host.Valid()
    requires t.doc.workerDoc in t.host.copies && t.doc.workerDoc in u.host.copies
    requires var copy := t.host.copies[t.doc.workerDoc];
      var after := app.engine.apply(copy.now, WorkerEditOf(t.doc.things, edit).value);
      && after.Some? && W.ValidPages(app.engine.pages(after.value)) && more == app.engine.pages(after.value)
      && u.host.copies[t.doc.workerDoc] == W.Copy(after.value, copy.original)
    ensures HasReplayed(app, u, base, made + [edit], more)
  {
    W.ReplayedPush(app.engine, t.doc.things, base, made, edit);
    hide W.Replayed, W.ValidPages;
  }

  lemma {:induction false} ReplayEditsFacts(app: App, t: State, base: Content, made: seq<Edit>, edits: seq<Edit>, pages: seq<W.PageSize>)
    requires t.doc.history.Valid() && HasReplayed(app, t, base, made, pages)
    requires t.doc.things.Names(edits)
    ensures var r := ReplayEdits(app, t, edits, pages);
      && SameButWorker(t, r.0) && r.0.host.Valid()
      && (r.1.Err? ==> r.0.doc.lost)
      && (r.1.Ok? ==> HasReplayed(app, r.0, base, made + edits, r.1.value))
    decreases |edits|
  {
    hide *;
    if edits == [] {
      assert made + edits == made;
      NoneReplayed(app, t, pages);
      HostOfReplayed(app, t, base, made, pages);
    } else {
      NamedAreAsked(t.doc.things, edits, 0);
      ReplayOneMore(app, t, base, made, edits[0], pages);
      ReplayEditsIs(app, t, edits, pages);
      var r := EditInWorker(app, t, WorkerEditOf(t.doc.things, edits[0]).value);
      SameHasThings(t, r.0);
      if r.1.Ok? {
        SuffixNames(t.doc.things, edits);
        ReplayEditsFacts(app, r.0, base, made + [edits[0]], edits[1..], r.1.value);
        assert made + [edits[0]] + edits[1..] == made + edits;
        SameAgain(t, r.0, ReplayEdits(app, t, edits, pages).0);
      } else {
        GivenUpIsSame(r.0);
        LostIsSameLost(r.0, r.0);
        SameAgain(t, r.0, MarkLost(r.0));
      }
    }
  }

  lemma NoneReplayed(app: App, t: State, pages: seq<W.PageSize>)
    requires t.doc.history.Valid()
    ensures ReplayEdits(app, t, [], pages) == (t, Ok(pages)) && SameButWorker(t, t)
  {
  }

  lemma HostOfReplayed(app: App, t: State, base: Content, made: seq<Edit>, pages: seq<W.PageSize>)
    requires HasReplayed(app, t, base, made, pages)
    ensures t.host.Valid()
  {
  }

  lemma SuffixNames(things: Things, edits: seq<Edit>)
    requires edits != [] && things.Names(edits)
    ensures things.Names(edits[1..])
  {
  }

  /** Edits made on a document that has none: the worker's copy is then the file with them. */
  lemma ReplayFromFile(app: App, s: State, origin: Origin, edits: seq<Edit>)
    requires Inv(app, s, origin) && s.doc.history.applied == 0 && edits != []
    requires s.doc.things.Names(edits)
    ensures var r := ReplayEdits(app, s, edits, s.doc.info.pages);
      var after := OriginAfter(app, s, origin);
      && SameButWorker(s, r.0) && r.0.host.Valid()
      && Inv(app, MarkLost(r.0), after)
      && (r.1.Err? ==> r.0.doc.lost)
      && (r.1.Ok? ==> HasReplayed(app, r.0, after.base, edits, r.1.value))
  {
    hide *;
    ValidOfInv(app, s, origin);
    var after := OriginAfter(app, s, origin);
    NamedAreAsked(s.doc.things, edits, 0);
    EditInWorkerFacts(app, s, origin, edits[0]);
    var asked := WorkerEditOf(s.doc.things, edits[0]).value;
    var first := EditInWorker(app, s, asked);
    SameHasThings(s, first.0);
    ReplayEditsIs(app, s, edits, s.doc.info.pages);
    if first.1.Ok? {
      FirstIsReplayed(app, first.0, after.base, edits[0], first.1.value);
      SuffixNames(s.doc.things, edits);
      ReplayEditsFacts(app, first.0, after.base, [edits[0]], edits[1..], first.1.value);
      assert [edits[0]] + edits[1..] == edits;
      var r := ReplayEdits(app, s, edits, s.doc.info.pages);
      LostIsSameLost(first.0, r.0);
      LostKeeps(app, MarkLost(first.0), MarkLost(r.0), after);
      SameAgain(s, first.0, r.0);
    } else {
      GivenUpIsSame(first.0);
      LostIsSameLost(first.0, first.0);
      SameAgain(s, first.0, MarkLost(first.0));
    }
  }

  /** The first edit asked of the worker, and what follows. */
  lemma {:induction false} ReplayEditsIs(app: App, s: State, edits: seq<Edit>, pages: seq<W.PageSize>)
    requires s.doc.history.Valid() && edits != [] && WorkerEditOf(s.doc.things, edits[0]).Some?
    ensures var first := EditInWorker(app, s, WorkerEditOf(s.doc.things, edits[0]).value);
      && first.0.doc.history == s.doc.history
      && (first.1.Err? ==> ReplayEdits(app, s, edits, pages).0 == MarkLost(first.0) && ReplayEdits(app, s, edits, pages).1.Err?)
      && (first.1.Ok? ==> ReplayEdits(app, s, edits, pages) == ReplayEdits(app, first.0, edits[1..], first.1.value))
  {
    OnlyHost(app, s, WorkerEditOf(s.doc.things, edits[0]).value);
    hide EditInWorker;
  }

  lemma LostIsSameLost(s: State, t: State)
    requires SameButWorker(s, t) && t.host.Valid()
    ensures SameButWorker(MarkLost(s), MarkLost(t)) && MarkLost(t).doc.lost && MarkLost(t).host.Valid()
    ensures MarkLost(MarkLost(t)) == MarkLost(t)
  {
  }

  /** The first edit, made on a document that had none. */
  lemma FirstIsReplayed(app: App, t: State, base: Content, edit: Edit, pages: seq<W.PageSize>)
    requires t.doc.history.Valid() && t.doc.history.applied == 0 && HasMade(app, t, base, edit, pages)
    ensures HasReplayed(app, t, base, [edit], pages)
  {
    MeantOfBase(app, t.doc, base);
    assert W.Replayed(app.engine, t.doc.things, base, []) == Some(base);
    W.ReplayedPush(app.engine, t.doc.things, base, [], edit);
    assert [] + [edit] == [edit];
    hide W.Replayed, W.Made;
  }

  /** What a journal is checked with when it is offered foresees every step of making its edits. */
  lemma {:induction false} JournalForeseen(app: App, doc: Document, base: Content, edits: seq<Edit>, n: nat)
    requires n <= |edits| && Faithful(app.engine) && HonestSources(app.engine, doc.things)
    requires doc.info.permissions == app.engine.permissions(base)
    requires forall i :: 0 <= i < |edits| ==> !edits[i].InsertPages?
    requires W.Replayed(app.engine, doc.things, base, edits).Some?
    requires PagesAfterAll(edits, |app.engine.pages(base)|, doc.info.permissions, NoSources).Ok?
    ensures PrefixForeseen(app, doc, base, edits, n)
    decreases n
  {
    W.ReplayedPrefix(app.engine, doc.things, base, edits, n);
    if n > 0 {
      JournalForeseen(app, doc, base, edits, n - 1);
      PagesAfterAllPrefix(edits, n, |app.engine.pages(base)|, doc.info.permissions, NoSources);
      var prefix := edits[..n];
      assert prefix[..n - 1] == edits[..n - 1];
      ForeseenOneMore(app, doc, base, prefix);
    }
  }

  lemma ForeseenOneMore(app: App, doc: Document, base: Content, edits: seq<Edit>)
    requires edits != [] && Faithful(app.engine) && HonestSources(app.engine, doc.things)
    requires doc.info.permissions == app.engine.permissions(base)
    requires forall i :: 0 <= i < |edits| ==> !edits[i].InsertPages?
    requires W.Replayed(app.engine, doc.things, base, edits).Some?
    requires PagesAfterAll(edits, |app.engine.pages(base)|, doc.info.permissions, NoSources).Ok?
    requires var made := W.Replayed(app.engine, doc.things, base, edits[..|edits| - 1]);
      made.Some? && PagesAfterAll(edits[..|edits| - 1], |app.engine.pages(base)|, doc.info.permissions, doc.things.SourcePages())
                    == Ok(|app.engine.pages(made.value)|)
    ensures PagesAfterAll(edits, |app.engine.pages(base)|, doc.info.permissions, doc.things.SourcePages())
         == Ok(|app.engine.pages(W.Replayed(app.engine, doc.things, base, edits).value)|)
  {
    var init, last := edits[..|edits| - 1], edits[|edits| - 1];
    var before := W.Replayed(app.engine, doc.things, base, init).value;
    ReplayedForeseen(app, doc.things, base, init);
    assert Foreseen(app.engine, doc.things, before, last);
    NoSourcesNeeded(edits, |app.engine.pages(base)|, doc.info.permissions, doc.things);
  }

  lemma {:induction false} NoSourcesNeeded(edits: seq<Edit>, count: nat, allowed: Permissions, things: Things)
    requires forall i :: 0 <= i < |edits| ==> !edits[i].InsertPages?
    ensures PagesAfterAll(edits, count, allowed, things.SourcePages()) == PagesAfterAll(edits, count, allowed, NoSources)
    decreases |edits|
  {
    if edits != [] {
      NoSourcesNeeded(edits[..|edits| - 1], count, allowed, things);
    }
  }

  /** A journal's edits, once the worker made them all, may be the history. */
  lemma JournalIsGood(app: App, t: State, origin: Origin, edits: seq<Edit>, pages: seq<W.PageSize>)
    requires Inv(app, MarkLost(t), origin) && t.doc.history.applied == 0 && edits != []
    requires HasReplayed(app, t, origin.base, edits, pages) && t.doc.things.Names(edits)
    requires |edits| <= MAX_UNDO_EDITS
    requires forall i :: 0 <= i < |edits| ==> !edits[i].InsertPages? && Valid(edits[i])
    requires PagesAfterAll(edits, |t.doc.info.pages|, t.doc.info.permissions, NoSources).Ok?
    ensures t.doc.history.Valid() && GoodChange(app, t, origin, t.doc.history.PushAll(edits), pages)
  {
    hide *;
    ValidOfInv(app, MarkLost(t), origin);
    LostHistory(t);
    PushedOnNone(t.doc.history, edits);
    ReplayedIsThere(app, t, origin.base, edits, pages);
    if Faithful(app.engine) && origin.steady {
      JournalAllForeseen(app, t, origin, edits);
    }
    GoodOnce(app, t, origin, t.doc.history.PushAll(edits), pages);
  }

  lemma ReplayedIsThere(app: App, t: State, base: Content, made: seq<Edit>, pages: seq<W.PageSize>)
    requires HasReplayed(app, t, base, made, pages)
    ensures W.Replayed(app.engine, t.doc.things, base, made).Some?
  {
  }

  lemma LostHistory(t: State)
    ensures MarkLost(t).doc.history == t.doc.history
  {
  }

  /** Edits pushed on a history with none applied are all there is. */
  lemma PushedOnNone(history: Timeline, edits: seq<Edit>)
    requires history.Valid() && history.applied == 0 && edits != []
    ensures var pushed := history.PushAll(edits); pushed.Valid() && pushed.edits == pushed.Applied() == edits
  {
    var pushed := history.PushAll(edits);
    assert pushed.edits == pushed.Applied() + pushed.Undone();
  }

  lemma GoodOnce(app: App, t: State, origin: Origin, history: Timeline, pages: seq<W.PageSize>)
    requires history.Valid() && history.edits == history.Applied() && |history.edits| <= MAX_UNDO_EDITS
    requires forall i :: 0 <= i < |history.edits| ==> !history.edits[i].InsertPages? && Valid(history.edits[i])
    requires HasReplayed(app, t, origin.base, history.edits, pages) && t.doc.things.Names(history.edits)
    requires Faithful(app.engine) && origin.steady ==> AllForeseen(app, t.doc, origin.base, history.edits)
    ensures GoodChange(app, t, origin, history, pages)
  {
    hide Faithful, AllForeseen, W.Replayed, Things.Names;
  }

  lemma JournalAllForeseen(app: App, t: State, origin: Origin, edits: seq<Edit>)
    requires Inv(app, MarkLost(t), origin) && t.doc.history.applied == 0 && edits != []
    requires W.Replayed(app.engine, t.doc.things, origin.base, edits).Some?
    requires forall i :: 0 <= i < |edits| ==> !edits[i].InsertPages?
    requires PagesAfterAll(edits, |t.doc.info.pages|, t.doc.info.permissions, NoSources).Ok?
    requires Faithful(app.engine) && origin.steady
    ensures AllForeseen(app, t.doc, origin.base, edits)
  {
    assert t.doc.history.Applied() == [];
    assert Known(app, MarkLost(t).doc, origin.base);
    assert HonestSources(app.engine, t.doc.things);
    assert Meant(app, MarkLost(t).doc, origin.base) == Some(origin.base);
    assert t.doc.info.pages == app.engine.pages(origin.base);
    hide Inv, Faithful, PagesAfterAll, W.Replayed, PrefixForeseen, HonestSources;
    forall n | 0 <= n <= |edits| ensures PrefixForeseen(app, t.doc, origin.base, edits, n) {
      JournalForeseen(app, t.doc, origin.base, edits, n);
    }
  }

  lemma MadeNeedsLive(app: App, s: State, edits: seq<Edit>, pages: seq<W.PageSize>)
    requires s.doc.history.Valid() && edits != [] && ReplayEdits(app, s, edits, pages).1.Ok?
    ensures LiveWorker(app, s).1.Ok?
  {
    hide LiveWorker, W.Edit;
  }

  lemma ReplayKeeps(app: App, s: State, origin: Origin, edits: seq<Edit>)
    requires Inv(app, s, origin) && s.doc.history.applied == 0 && edits != []
    requires s.doc.things.Names(edits)
    requires forall i :: 0 <= i < |edits| ==> !edits[i].InsertPages? && Valid(edits[i])
    ensures var r := Replay(app, s, edits);
      var after := OriginAfter(app, s, origin);
      && (r.1.Err? ==> Inv(app, r.0, origin) && r.0.disk == s.disk && (s.doc.lost ==> r.0.doc.lost))
      && (r.1.Ok? ==>
            && Agrees(app, r.0, after) && JournalsHeld(app, r.0)
            && !r.0.doc.lost && r.0.disk == s.disk && LiveWorker(app, s).1.Ok?)
  {
    hide Inv, Agrees, JournalOk, OriginAfter, PagesAfterAll, LiveWorker;
    var after := OriginAfter(app, s, origin);
    var expected := PagesAfterAll(edits, |s.doc.info.pages|, s.doc.info.permissions, NoSources);
    var r := Replay(app, s, edits);
    if expected.Ok? && |edits| <= MAX_UNDO_EDITS {
      ReplayFromFile(app, s, origin, edits);
      var made := ReplayEdits(app, s, edits, s.doc.info.pages);
      if made.1.Err? {
        LostKeeps(app, s, made.0, origin);
      } else if |made.1.value| != expected.value {
        LostKeeps(app, s, UnexpectedOn(made.0), origin);
      } else {
        MadeNeedsLive(app, s, edits, s.doc.info.pages);
        JournalIsGood(app, made.0, after, edits, made.1.value);
        ShownAgrees(app, made.0, r.0, after, s.doc.history.PushAll(edits), made.1.value);
      }
    }
  }

  /** The journal's edits name what it brought, or what the document had under the same number. */
  lemma RestoredNames(app: App, things: Things, body: J.Body)
    requires things.Valid() && J.Readable(app.rules, body)
    ensures things.Restore(body.pictures, body.models).Names(body.edits)
  {
  }

  lemma RestoreKeeps(app: App, s: State, origin: Origin, body: J.Body)
    requires Inv(app, s, origin)
    ensures Inv(app, Keeping(s, s.doc.things.Restore(body.pictures, body.models)), origin)
  {
    var things := s.doc.things.Restore(body.pictures, body.models);
    NamesOfInv(app, s, origin);
    RestoreKeepsOwn(s.doc.things, body.pictures, body.models, s.doc.history.edits);
    hide Inv;
    KeepingKeeps(app, s, things, origin);
  }

  /** The document with the things of the journal it is offered. */
  function Restored(s: State): State
    requires s.doc.things.Valid() && s.doc.recovered.Some?
  {
    var body := s.doc.recovered.value.body;
    Keeping(s, s.doc.things.Restore(body.pictures, body.models))
  }

  lemma ReplayOfOffer(app: App, s: State, origin: Origin)
    requires Inv(app, s, origin) && Offered(s.doc) && s.doc.history.applied == 0
    ensures s.doc.recovered.Some?
    ensures var t := Restored(s);
      var r := Replay(app, t, s.doc.recovered.value.body.edits);
      var after := OriginAfter(app, t, origin);
      && (r.1.Err? ==> Inv(app, r.0, origin) && r.0.disk == s.disk && (s.doc.lost ==> r.0.doc.lost))
      && (r.1.Ok? ==>
            && Agrees(app, r.0, after) && JournalsHeld(app, r.0) && r.0.doc.recovered == s.doc.recovered
            && !r.0.doc.lost && r.0.disk == s.disk && LiveWorker(app, t).1.Ok?)
  {
    var body := s.doc.recovered.value.body;
    RestoreKeeps(app, s, origin, body);
    RestoredNames(app, s.doc.things, body);
    assert J.Readable(app.rules, body) && body.edits != [];
    hide Inv, Agrees, JournalOk, OriginAfter;
    ReplayKeeps(app, Restored(s), origin, body.edits);
    ReplayRecovered(app, Restored(s), body.edits);
  }

  lemma ReplayRecovered(app: App, s: State, edits: seq<Edit>)
    requires s.doc.history.Valid()
    ensures Replay(app, s, edits).0.doc.recovered == s.doc.recovered
  {
    if |edits| <= MAX_UNDO_EDITS {
      ReplayEditsOnlyHost(app, s, edits, s.doc.info.pages);
    }
  }

  lemma RecoverUnfolds(app: App, s: State)
    requires s.doc.history.Valid() && s.doc.things.Valid()
    requires Offered(s.doc) && s.doc.history.applied == 0 && s.doc.recovered.Some?
    ensures var r := Replay(app, Restored(s), s.doc.recovered.value.body.edits);
      && TakenOver(r.0).doc.history.Valid()
      && (r.1.Err? ==> Recover(app, s) == (r.0, Err(r.1.error)))
      && (r.1.Ok? ==> Recover(app, s) == (Renumber(KeepJournal(app, TakenOver(r.0))), Ok(())))
  {
    assert Restoring(s, Left(s)) == Restored(s);
    ReplayKeepsTheRest(app, Restored(s), s.doc.recovered.value.body.edits);
    hide Replay, KeepJournal, Renumber;
  }

  lemma RecoverKeeps(app: App, s: State, origin: Origin)
    requires AppOk(app) && Inv(app, s, origin)
    ensures s.doc.history.Valid() && s.doc.things.Valid()
    ensures Inv(app, Recover(app, s).0, OriginOf(s, Recover(app, s).0, origin))
  {
    hide Inv, Agrees, JournalOk, AppOk, Replay, OriginAfter, KeepJournal, LiveWorker;
    var weaker := Origin(origin.base, Steady(s, origin.steady));
    WeakerOrigin(app, s, origin);
    if Offered(s.doc) && !s.doc.history.Unsaved() {
      ReplayOfOffer(app, s, weaker);
      RecoverUnfolds(app, s);
      var r := Replay(app, Restored(s), s.doc.recovered.value.body.edits);
      if r.1.Ok? {
        RecoveredKeeps(app, r.0, OriginAfter(app, Restored(s), weaker));
        KeptFrame(app, TakenOver(r.0));
        OriginFrame(app, s, Recover(app, s).0, origin);
      }
    }
  }

  lemma KeptFrame(app: App, s: State)
    requires s.doc.history.Valid()
    ensures var t := Renumber(KeepJournal(app, s)); t.disk == s.disk && t.doc.lost == s.doc.lost && t.doc.path == s.doc.path
  {
  }

  /** What the document goes by does not depend on the things kept for edits. */
  lemma OriginFrame(app: App, s: State, t: State, origin: Origin)
    requires s.doc.history.Valid() && s.doc.things.Valid() && s.doc.recovered.Some?
    requires LiveWorker(app, Restored(s)).1.Ok? && t.disk == s.disk && !t.doc.lost
    ensures OriginAfter(app, Restored(s), Origin(origin.base, Steady(s, origin.steady))) == OriginOf(s, t, origin)
  {
    LiveIsThere(app, Restored(s));
    hide LiveWorker;
  }

  /** The journal the edits were found in is the document's own now. */
  lemma RecoveredKeeps(app: App, s: State, origin: Origin)
    requires AppOk(app) && Agrees(app, s, origin) && JournalsHeld(app, s) && s.doc.recovered.Some?
    ensures TakenOver(s).doc.history.Valid()
    ensures Inv(app, Renumber(KeepJournal(app, TakenOver(s))), origin)
  {
    hide Agrees, JournalOk, AppOk;
    var t := TakenOver(s);
    assert t.doc.info == s.doc.info.(doc := t.doc.info.doc, recovery := t.doc.info.recovery);
    AgreesElsewhere(app, s, t, origin);
    KeepJournalKeeps(app, t, origin);
    RenumberKeeps(app, KeepJournal(app, t), origin);
  }

  // ----- every command, every run

  /** What the document goes by after a command: nothing another program does to a file changes it. */
  function OriginNext(s: State, command: Command, t: State, origin: Origin): Origin
  {
    if command.FileChanges? then origin else OriginOf(s, t, origin)
  }

  /** Discarding an offer, and keeping things for edits, leave what the document goes by. */
  lemma KeepingThingsKeeps(app: App, s: State, origin: Origin, command: Command)
    requires Inv(app, s, origin)
    requires command.DoDiscard? || command.DoAddPicture? || command.DoAddModel? || command.DoAddSource?
    ensures s.doc.history.Valid() && s.doc.things.Valid()
    ensures Inv(app, Work(app, s, command).0, OriginOf(s, Work(app, s, command).0, origin))
  {
    hide *;
    ValidOfInv(app, s, origin);
    var weaker := Origin(origin.base, Steady(s, origin.steady));
    WeakerOrigin(app, s, origin);
    match command {
      case DoDiscard => DiscardKeeps(app, s, weaker); DiscardFrame(s);
      case DoAddPicture(picture) => AddPictureKeeps(app, s, weaker, picture); AddPictureFrame(app, s, picture);
      case DoAddModel(model, room) => AddModelKeeps(app, s, weaker, model, room); AddModelFrame(app, s, model, room);
      case DoAddSource(bytes, boxes, space) => AddSourceKeeps(app, s, weaker, bytes, boxes, space); AddSourceFrame(app, s, bytes, boxes, space);
    }
    ThingsOf(app, s, command);
    SameBase(s, Work(app, s, command).0, origin);
  }

  lemma ThingsOf(app: App, s: State, command: Command)
    requires s.doc.history.Valid() && s.doc.things.Valid()
    ensures match command
      case DoDiscard => Work(app, s, command) == Discard(s)
      case DoAddPicture(picture) => Work(app, s, command) == AddPicture(app, s, picture)
      case DoAddModel(model, room) => Work(app, s, command) == AddModel(app, s, model, room)
      case DoAddSource(bytes, boxes, space) => Work(app, s, command) == AddSource(app, s, bytes, boxes, space)
      case _ => true
  {
    hide AddPicture, AddModel, AddSource, Discard;
  }

  lemma SameBase(s: State, t: State, origin: Origin)
    requires t.disk == s.disk && (s.doc.lost ==> t.doc.lost)
    ensures OriginOf(s, t, origin) == Origin(origin.base, Steady(s, origin.steady))
  {
  }

  lemma AddPictureFrame(app: App, s: State, picture: Picture)
    requires s.doc.history.Valid() && s.doc.things.Valid()
    ensures var t := AddPicture(app, s, picture).0; t.disk == s.disk && (s.doc.lost ==> t.doc.lost)
  {
    hide W.Ask;
  }

  lemma AddModelFrame(app: App, s: State, model: Model, room: (map<nat, Model>, Model) -> bool)
    requires s.doc.history.Valid() && s.doc.things.Valid()
    ensures var t := AddModel(app, s, model, room).0; t.disk == s.disk && (s.doc.lost ==> t.doc.lost)
  {
    hide W.Ask;
  }

  lemma AddSourceFrame(app: App, s: State, bytes: Content, boxes: nat,
    space: (map<nat, Source>, Source) -> bool)
    requires s.doc.history.Valid() && s.doc.things.Valid()
    ensures var t := AddSource(app, s, bytes, boxes, space).0; t.disk == s.disk && (s.doc.lost ==> t.doc.lost)
  {
    AddSourceIs(app, s, bytes, boxes, space);
    hide AddSource, AskedForSource;
  }

  /**
   * Whatever a command does and however the worker answers, the invariant holds after it, with what
   * the document then goes by: the file it wrote, the file it was opened from again because its
   * worker was lost, or, whatever others do to that file, what it went by before. And the worker
   * never read a changed file unless it was lost when the file was.
   */
  lemma StepKeeps(app: App, s: State, origin: Origin, command: Command)
    requires AppOk(app) && Inv(app, s, origin)
    ensures s.doc.history.Valid() && s.doc.things.Valid()
    ensures var t := Step(app, s, command).0; Inv(app, t, OriginNext(s, command, t, origin))
    ensures Steady(s, origin.steady) ==> OriginNext(s, command, Step(app, s, command).0, origin).steady
  {
    hide *;
    ValidOfInv(app, s, origin);
    WeakerOrigin(app, s, origin);
    StepLeaves(app, s, command);
    match command
    case FileChanges(path, file) => FileChangesKeeps(app, s, origin, path, file); OriginsAre(s, command, Step(app, s, command).0, origin);
    case _ =>
      OriginsAre(s, command, Step(app, s, command).0, origin);
      OriginsAre(s, command, s, origin);
      if s.inTab {
        WorkKeeps(app, s, origin, command);
        var t := Work(app, s, command).0;
        TabIsNoMatter(app, s, t, origin, t.inTab && !Gone(t));
      }
  }

  lemma StepLeaves(app: App, s: State, command: Command)
    requires s.doc.history.Valid() && s.doc.things.Valid()
    ensures !command.FileChanges? ==>
      Step(app, s, command).0
      == if !s.inTab then s else var t := Work(app, s, command).0; t.(inTab := t.inTab && !Gone(t))
  {
    hide Work;
  }

  /** Whether its tab has the document is nothing to the invariant, nor to what the document goes by. */
  lemma TabIsNoMatter(app: App, s: State, t: State, origin: Origin, inTab: bool)
    requires Inv(app, t, OriginOf(s, t, origin))
    ensures var u := t.(inTab := inTab); Inv(app, u, OriginOf(s, u, origin))
  {
    var u := t.(inTab := inTab);
    assert OriginOf(s, u, origin) == OriginOf(s, t, origin);
    assert Agrees(app, t, OriginOf(s, t, origin)) && JournalOk(app, t);
    hide HistoryOk, PagesOk, FlagsOk, KnownOk, Meant, OriginOf;
    assert t.doc.journal.Some? ==> InStep(app, t);
    assert Agrees(app, u, OriginOf(s, t, origin)) && JournalOk(app, u);
  }

  lemma OriginsAre(s: State, command: Command, t: State, origin: Origin)
    ensures command.FileChanges? ==> OriginNext(s, command, t, origin) == origin
    ensures !command.FileChanges? ==> OriginNext(s, command, t, origin) == OriginOf(s, t, origin)
    ensures OriginOf(s, t, origin).steady == Steady(s, origin.steady)
    ensures OriginOf(s, s, origin) == Origin(origin.base, Steady(s, origin.steady))
    ensures Steady(s, origin.steady) ==> origin.steady
  {
  }

  lemma WorkKeeps(app: App, s: State, origin: Origin, command: Command)
    requires AppOk(app) && Inv(app, s, origin) && !command.FileChanges?
    ensures s.doc.history.Valid() && s.doc.things.Valid()
    ensures var t := Work(app, s, command).0; Inv(app, t, OriginOf(s, t, origin))
  {
    hide Inv, AppOk, OriginOf, ApplyEdit, Undo, Redo, Recover, Save, SetSensitive, AddPicture, AddModel, AddSource, Read, Discard;
    match command
    case DoApply(edit) => ApplyKeeps(app, s, origin, edit);
    case DoUndo(password) => UndoKeeps(app, s, origin, password);
    case DoRedo => RedoKeeps(app, s, origin);
    case DoRecover => RecoverKeeps(app, s, origin);
    case DoSave(destination, faults) => SaveKeeps(app, s, origin, destination, faults);
    case DoSetSensitive(sensitive, drawn, key, problems) => SetSensitiveKeeps(app, s, origin, sensitive, drawn, key, problems);
    case DoRead => ReadKeeps(app, s, origin);
    case _ => KeepingThingsKeeps(app, s, origin, command);
  }

  /** The states of a run, the first one first. */
  ghost predicate IsRun(app: App, states: seq<State>, commands: seq<Command>)
  {
    && |states| == |commands| + 1
    && (forall i :: 0 <= i < |commands| ==> Next(app, states[i], commands[i], states[i + 1]))
  }

  ghost predicate Next(app: App, s: State, command: Command, t: State)
  {
    s.doc.history.Valid() && s.doc.things.Valid() && t == Step(app, s, command).0
  }

  /** Nobody else changed the document's file while its worker was lost. */
  ghost predicate Undisturbed(states: seq<State>)
  {
    forall i :: 0 <= i < |states| ==> (states[i].doc.lost ==> UnchangedOnDisk(states[i]))
  }

  /** What the document goes by at the end of a run. */
  function OriginOfRun(states: seq<State>, commands: seq<Command>, origin: Origin): Origin
    requires |states| == |commands| + 1
    decreases |commands|
  {
    if commands == [] then origin
    else
      var k := |commands| - 1;
      OriginNext(states[k], commands[k], states[k + 1], OriginOfRun(states[..k + 1], commands[..k], origin))
  }

  lemma RunPrefix(app: App, states: seq<State>, commands: seq<Command>)
    requires IsRun(app, states, commands) && commands != []
    ensures IsRun(app, states[..|commands|], commands[..|commands| - 1])
  {
    var k := |commands| - 1;
    forall i | 0 <= i < k ensures Next(app, states[..k + 1][i], commands[..k][i], states[..k + 1][i + 1]) {
      assert Next(app, states[i], commands[i], states[i + 1]);
    }
  }

  /** Safety over whole runs: the last state of any run is in order when the first one was. */
  lemma {:induction false} RunKeeps(app: App, states: seq<State>, commands: seq<Command>, origin: Origin)
    requires AppOk(app) && IsRun(app, states, commands) && Inv(app, states[0], origin)
    ensures Inv(app, states[|commands|], OriginOfRun(states, commands, origin))
    ensures origin.steady && Undisturbed(states[..|commands|]) ==> OriginOfRun(states, commands, origin).steady
    decreases |commands|
  {
    hide Inv, AppOk, Step, OriginNext;
    if commands != [] {
      var k := |commands| - 1;
      var before := OriginOfRun(states[..k + 1], commands[..k], origin);
      RunPrefix(app, states, commands);
      RunKeeps(app, states[..k + 1], commands[..k], origin);
      assert Next(app, states[k], commands[k], states[k + 1]);
      StepKeeps(app, states[k], before, commands[k]);
      if origin.steady && Undisturbed(states[..|commands|]) {
        assert states[..k + 1][..k] == states[..k];
        assert Undisturbed(states[..k]) by {
          forall i | 0 <= i < k ensures states[..k][i].doc.lost ==> UnchangedOnDisk(states[..k][i]) {
            assert states[..k][i] == states[..|commands|][i];
          }
        }
        assert states[..|commands|][k] == states[k];
      }
    }
  }

  /** What the document goes by before the `n`th command of a run. */
  function OriginAt(states: seq<State>, commands: seq<Command>, origin: Origin, n: nat): Origin
    requires |states| == |commands| + 1 && n <= |commands|
  {
    OriginOfRun(states[..n + 1], commands[..n], origin)
  }

  lemma OriginAtNext(states: seq<State>, commands: seq<Command>, origin: Origin, n: nat)
    requires |states| == |commands| + 1 && n < |commands|
    ensures OriginAt(states, commands, origin, 0) == origin
    ensures OriginAt(states, commands, origin, n + 1)
         == OriginNext(states[n], commands[n], states[n + 1], OriginAt(states, commands, origin, n))
  {
    assert states[..n + 2][..n + 1] == states[..n + 1] && commands[..n + 1][..n] == commands[..n];
    hide OriginNext;
  }

  /** The invariant holds at every state of a run. */
  lemma InvAt(app: App, states: seq<State>, commands: seq<Command>, origin: Origin, n: nat)
    requires AppOk(app) && IsRun(app, states, commands) && Inv(app, states[0], origin) && n <= |commands|
    ensures Inv(app, states[n], OriginAt(states, commands, origin, n))
  {
    hide AppOk, Inv;
    forall i | 0 <= i < n ensures Next(app, states[..n + 1][i], commands[..n][i], states[..n + 1][i + 1]) {
      assert Next(app, states[i], commands[i], states[i + 1]);
    }
    RunKeeps(app, states[..n + 1], commands[..n], origin);
  }

  /**
   * While its worker is never lost and nothing of it is written, a document goes by the content it
   * was opened from, whatever other programs make of its file.
   */
  lemma OthersDoNotCount(app: App, states: seq<State>, commands: seq<Command>, origin: Origin)
    requires AppOk(app) && IsRun(app, states, commands) && Inv(app, states[0], origin)
    requires forall i :: 0 <= i < |states| ==> !states[i].doc.lost
    requires forall i :: 0 <= i < |commands| ==> commands[i].FileChanges? || states[i + 1].disk == states[i].disk
    ensures OriginOfRun(states, commands, origin).base == origin.base
    ensures var s := states[|commands|];
      && s.doc.workerDoc in s.host.copies && s.doc.history.Valid()
      && Meant(app, s.doc, origin.base).Some?
      && s.host.copies[s.doc.workerDoc] == W.Copy(Meant(app, s.doc, origin.base).value, origin.base)
  {
    RunKeeps(app, states, commands, origin);
    BaseStays(states, commands, origin);
    assert !states[|commands|].doc.lost;
  }

  lemma {:induction false} BaseStays(states: seq<State>, commands: seq<Command>, origin: Origin)
    requires |states| == |commands| + 1
    requires forall i :: 0 <= i < |states| ==> !states[i].doc.lost
    requires forall i :: 0 <= i < |commands| ==> commands[i].FileChanges? || states[i + 1].disk == states[i].disk
    ensures OriginOfRun(states, commands, origin).base == origin.base
    decreases |commands|
  {
    if commands != [] {
      var k := |commands| - 1;
      BaseStays(states[..k + 1], commands[..k], origin);
      assert !states[k].doc.lost;
    }
  }
}
