/**
 * A run, for any journal of picture stamps: the file is opened with the journal offered, a picture
 * of the document's own is prepared, and the journal is recovered next to it
 * (src-tauri/src/documents.rs:745-786, 2229-2270, 2894-2931).
 */
module RecoveredNextTo {
  import opened Basics
  import opened Edits
  import opened Histories
  import opened Stores
  import opened Sessions
  import opened Invariant
  import opened SessionProofs
  import opened SavingProofs
  import opened RecoveryProofs
  import opened Restart
  import opened ComingBack
  import opened Reopening
  import W = Worker
  import J = Journals

  const ALL := Permissions(true, true, true, true)
  const FILE := Sessions.File(Content([0]), 0, false)
  const DISK := Disk(map["a.pdf" := FILE], 1)
  const START := Origin(FILE.content, true)

  /** What a run before left of the file: one journal. */
  function FolderOf(body: J.Body): J.Folder { J.Folder(map[7 := J.Stored("a.pdf", 0, body)], {}) }

  /** A journal that can be read, of edits that are foreseen, for a worker that makes every edit. */
  ghost predicate Stamping(app: App, body: J.Body)
  {
    && app.engine == ANY && AppOk(app)
    && J.Readable(app.rules, body) && body.lost == 0 && body.edits != []
    && PagesAfterAll(body.edits, 1, ALL, NoSources) == Ok(1)
  }

  /** An engine that makes every edit, leaving the document as it is. */
  lemma {:induction false} AllMade(things: Things, base: Content, edits: seq<Edit>)
    requires things.Names(edits)
    ensures W.Replayed(ANY, things, base, edits) == Some(base)
    decreases |edits|
  {
    if edits != [] {
      var k := |edits| - 1;
      PrefixNames(edits, k);
      AllMade(things, base, edits[..k]);
      NamedAreAsked(things, edits, k);
    }
  }

  /** The file opens with the journal offered. */
  lemma Offers(app: App, body: J.Body) returns (s: State)
    requires Stamping(app, body)
    ensures OpenFile(app, DISK, FolderOf(body), 1, 0, "a.pdf", Option.None, Option.None) == Ok(s)
    ensures Inv(app, s, START) && !s.doc.lost && Willing(app.engine, s.host.sent)
    ensures s.inTab && s.doc.identity == Some(0) && s.doc.recovered == Some(J.Found(7, body, true)) && s.doc.info.recovery.Available?
    ensures s.doc.history == NOTHING && s.doc.things == NO_THINGS && s.doc.info.pages == ONE_PAGE
    ensures s.doc.info.permissions == ALL && !s.doc.guarded && s.disk == DISK && s.folder == FolderOf(body).(inUse := {7})
    ensures s.doc.path == "a.pdf"
  {
    OpensAgain(app, DISK, FolderOf(body), 1, 0, "a.pdf", Option.None, Option.None);
    OpenFileKeeps(app, DISK, FolderOf(body), 1, 0, "a.pdf", Option.None, Option.None);
    var anew := Fresh(app, DISK, FolderOf(body), 1, 0, "a.pdf", false);
    s := RecoverOnOpen(app, anew, Option.None);
    IsFound(app, body, anew);
    hide Inv, FindFor, PagesAfterAll, Replay, J.Readable, AppOk;
  }

  lemma IsFound(app: App, body: J.Body, anew: State)
    requires J.Readable(app.rules, body)
    requires anew.folder == FolderOf(body) && anew.doc.path == "a.pdf" && anew.doc.identity == Some(0)
    ensures FindFor(app, anew, Option.None) == (FolderOf(body).(inUse := {7}), Some((J.Found(7, body, true), false)))
  {
    assert FolderOf(body).stored.Keys == {7};
    assert J.Lowest({7}) == 7;
    hide J.Readable;
  }

  /** A picture is prepared: it is the first, and gets the number 0. */
  lemma Prepares(app: App, s: State, mine: Picture) returns (t: State)
    requires s.doc.things == NO_THINGS && s.doc.info.permissions == ALL && s.doc.history == NOTHING
    requires s.inTab && !s.doc.guarded && app.engine.fault(s.host.sent).Fine?
    ensures Step(app, s, DoAddPicture(mine)).0 == t && Step(app, s, DoAddPicture(mine)).1.Ok?
    ensures t == s.(host := t.host, doc := s.doc.(things := t.doc.things)) && t.host.copies == s.host.copies
    ensures t.doc.things.Valid() && t.doc.things.pictures.things == map[0 := mine] && t.doc.things.models == NO_THINGS.models
    ensures t.doc.things.sources == NO_THINGS.sources && t.host.sent == s.host.sent + 1
  {
    t := Step(app, s, DoAddPicture(mine)).0;
  }

  lemma PreparedIsOk(app: App, s: State, t: State, mine: Picture)
    requires AppOk(app) && Inv(app, s, START) && !s.doc.lost && !t.doc.lost && t.disk == s.disk
    requires Willing(app.engine, s.host.sent) && t.host.sent == s.host.sent + 1
    requires s.doc.history.Valid() && s.doc.things.Valid() && Step(app, s, DoAddPicture(mine)).0 == t
    ensures Inv(app, t, START) && Willing(app.engine, t.host.sent)
  {
    hide Inv, Step, AppOk;
    StepKeeps(app, s, START, DoAddPicture(mine));
  }

  /** The journal's edits are made next to it. */
  lemma Recovers(app: App, body: J.Body, s: State) returns (t: State)
    requires Stamping(app, body)
    requires Inv(app, s, START) && !s.doc.lost && Willing(app.engine, s.host.sent)
    requires s.doc.recovered == Some(J.Found(7, body, true)) && s.doc.info.recovery.Available?
    requires s.doc.history == NOTHING && s.doc.info.pages == ONE_PAGE && s.doc.info.permissions == ALL
    requires !s.doc.guarded && s.inTab
    ensures s.doc.history.Valid() && s.doc.things.Valid()
    ensures Recover(app, s).0 == t && Recover(app, s).1.Ok?
    ensures Step(app, s, DoRecover).0 == t && Step(app, s, DoRecover).1.Ok?
    ensures Inv(app, t, START) && !t.doc.lost && Willing(app.engine, t.host.sent)
    ensures !t.doc.guarded && t.inTab && t.disk == s.disk
    ensures t.doc.history.Valid() && t.doc.history.Applied() == body.edits
    ensures t.doc.info.permissions == ALL && t.doc.identity == s.doc.identity
    ensures t.doc.things.pictures.things == body.pictures + s.doc.things.pictures.things
  {
    hide *;
    StampingIs(app, body);
    var restored := Restored(s);
    RestoredShape(app, body, s);
    RestoredMakes(app, body, s, restored);
    WillingReplayAll(app, restored, FILE.content, body.edits);
    RecoverTakesOver(app, s, body.edits);
    RecoverKeeps(app, s, START);
    t := Recover(app, s).0;
    Recovered(app, s, t);
  }

  lemma StampingIs(app: App, body: J.Body)
    requires Stamping(app, body)
    ensures AppOk(app) && body.edits != [] && |body.edits| <= MAX_UNDO_EDITS && START.base == FILE.content
    ensures forall c: Content :: app.engine.pages(c) == ONE_PAGE
  {
  }

  lemma RestoredShape(app: App, body: J.Body, s: State)
    requires Stamping(app, body)
    requires s.doc.things.Valid() && s.doc.recovered == Some(J.Found(7, body, true)) && s.doc.info.recovery.Available?
    ensures var t := Restored(s);
      && t.doc.history == s.doc.history && t.doc.info == s.doc.info && t.host == s.host && t.doc.lost == s.doc.lost
      && t.doc.workerDoc == s.doc.workerDoc && Offered(s.doc) && t.doc.things.Names(body.edits)
      && t.doc.things.pictures.things == body.pictures + s.doc.things.pictures.things
  {
    RestoredNames(app, s.doc.things, body);
    hide J.Readable;
  }

  lemma RestoredMakes(app: App, body: J.Body, s: State, restored: State)
    requires Stamping(app, body)
    requires Inv(app, s, START) && !s.doc.lost && s.doc.history == NOTHING
    requires restored.doc.things.Names(body.edits) && restored.host == s.host && restored.doc.lost == s.doc.lost
    requires restored.doc.workerDoc == s.doc.workerDoc && restored.doc.info == s.doc.info
    requires s.doc.info.pages == ONE_PAGE && s.doc.info.permissions == ALL
    ensures W.Replayed(app.engine, restored.doc.things, FILE.content, body.edits) == Some(FILE.content)
    ensures HasReplayed(app, restored, FILE.content, [], restored.doc.info.pages)
    ensures PagesAfterAll(body.edits, |restored.doc.info.pages|, restored.doc.info.permissions, NoSources)
         == Ok(|app.engine.pages(FILE.content)|)
  {
    AllMade(restored.doc.things, FILE.content, body.edits);
    CopyIsMeant(app, s, START);
    MeantOfBase(app, s.doc, FILE.content);
    assert W.Replayed(ANY, restored.doc.things, FILE.content, []) == Some(FILE.content);
    hide Inv, W.Replayed, PagesAfterAll, J.Readable, AppOk;
  }

  lemma Recovered(app: App, s: State, t: State)
    requires s.doc.history == NOTHING && s.doc.things.Valid() && !s.doc.lost && !s.doc.guarded && t.disk == s.disk && !t.doc.lost
    requires s.inTab && t.inTab
    requires Recover(app, s).0 == t && Recover(app, s).1.Ok? && t.doc.guarded == s.doc.guarded
    ensures OriginOf(s, t, START) == START
    ensures s.doc.history.Valid() && Step(app, s, DoRecover).0 == t && Step(app, s, DoRecover).1.Ok?
  {
    hide Recover;
  }

  lemma FirstIsFine(app: App, s: State)
    requires Willing(app.engine, s.host.sent)
    ensures app.engine.fault(s.host.sent).Fine?
  {
  }

  /** The whole of it: opened, prepared, recovered. */
  lemma PreparedAndRecovered(app: App, body: J.Body, mine: Picture) returns (found: State, prepared: State, recovered: State)
    requires Stamping(app, body)
    ensures OpenFile(app, DISK, FolderOf(body), 1, 0, "a.pdf", Option.None, Option.None) == Ok(found)
    ensures found.doc.recovered == Some(J.Found(7, body, true)) && found.doc.info.recovery.Available?
    ensures found.doc.history.Valid() && found.doc.things.Valid() && Step(app, found, DoAddPicture(mine)).0 == prepared
    ensures prepared.doc.history.Valid() && prepared.doc.things.Valid() && Inv(app, prepared, START)
    ensures prepared.doc.things.pictures.things == map[0 := mine] && prepared.doc.recovered == found.doc.recovered
    ensures prepared.doc.identity == Some(0) && prepared.folder == FolderOf(body).(inUse := {7}) && prepared.inTab
    ensures Recover(app, prepared).0 == recovered && Recover(app, prepared).1.Ok?
    ensures Step(app, prepared, DoRecover).0 == recovered && Step(app, prepared, DoRecover).1.Ok?
    ensures Inv(app, recovered, START) && !recovered.doc.lost && Willing(app.engine, recovered.host.sent)
    ensures !recovered.doc.guarded && recovered.inTab && recovered.disk == DISK && recovered.doc.identity == Some(0)
    ensures recovered.doc.history.Valid() && recovered.doc.things.Valid() && recovered.doc.history.Applied() == body.edits
    ensures recovered.doc.info.permissions == ALL
    ensures recovered.doc.things.pictures.things == body.pictures + map[0 := mine]
  {
    hide *;
    StampingIs(app, body);
    found := Offers(app, body);
    ValidOfInv(app, found, START);
    FirstIsFine(app, found);
    prepared := Prepares(app, found, mine);
    PreparedIsOk(app, found, prepared, mine);
    ValidOfInv(app, prepared, START);
    recovered := Recovers(app, body, prepared);
    ValidOfInv(app, recovered, START);
  }
}
