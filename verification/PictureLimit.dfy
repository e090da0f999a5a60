/**
 * A journal that is written and cannot be read again: its edits name more pictures than reading one
 * allows (src-tauri/src/documents.rs:745-786, 2858-2889; src-tauri/src/recovery.rs:361-438).
 */
module PictureLimit {
  import opened Basics
  import opened Edits
  import opened Permits
  import opened Histories
  import opened Stores
  import opened Sessions
  import opened Invariant
  import opened SessionProofs
  import opened RecoveryProofs
  import opened Consequences
  import opened Restart
  import opened ComingBack
  import opened Reopening
  import opened RecoveredNextTo
  import W = Worker
  import J = Journals

  const APP := App(ANY, J.Rules(_ => true, NewName))

  /** What a run before left: sixteen pictures, each stamped once. */
  const PICTURES: map<nat, Picture> := Numbered(16)

  function Numbered(n: nat): map<nat, Picture> { map i: nat | 1 <= i <= n :: Content([i]) }

  lemma {:induction false} NumberedCount(n: nat)
    ensures |Numbered(n)| == n
    decreases n
  {
    if n == 0 {
      assert Numbered(n) == map[];
    } else {
      NumberedCount(n - 1);
      assert Numbered(n) == Numbered(n - 1)[n := Content([n])];
    }
  }

  function Stamps(n: nat): (s: seq<Edit>)
    ensures |s| == n && forall i :: 0 <= i < n ==> s[i] == AddImageStamp(0, i + 1, 0)
  {
    seq(n, i requires 0 <= i => AddImageStamp(0, i + 1, 0))
  }

  const BODY := J.Body(Stamps(16), PICTURES, map[], 0)
  const MINE := Content([17])

  lemma StampsName(n: nat)
    ensures PicturesOf(Stamps(n)) == Numbered(n).Keys && ModelsOf(Stamps(n)) == {} && SourcesOf(Stamps(n)) == {}
  {
    forall i: nat | 1 <= i <= n ensures i in PicturesOf(Stamps(n)) {
      assert i in PictureOf(Stamps(n)[i - 1]);
    }
  }

  lemma SixteenPictures()
    ensures |PICTURES| == 16 && PicturesOf(Stamps(16)) == PICTURES.Keys && ModelsOf(Stamps(16)) == {}
  {
    NumberedCount(16);
    StampsName(16);
  }

  lemma {:induction false} StampsForeseen(n: nat)
    ensures PagesAfterAll(Stamps(n), 1, ALL, NoSources) == Ok(1)
    decreases n
  {
    if n > 0 {
      StampsForeseen(n - 1);
      assert Stamps(n)[..n - 1] == Stamps(n - 1);
    }
  }

  lemma SixteenAreStamped()
    ensures Stamping(APP, BODY)
  {
    SixteenPictures();
    StampsForeseen(16);
    assert ModelsOf(Stamps(16)) == {};
    hide PagesAfterAll;
  }

  // ----- the picture of the document's own is stamped too

  const STAMP := AddImageStamp(0, 0, 0)

  lemma StampAccepted(sourcePages: SourcePages)
    ensures WellAsked(STAMP) && Accepts(STAMP, 1, ALL, sourcePages) && CountOnce(STAMP, 1, sourcePages) == 1
  {
  }

  lemma StampKept(things: Things, content: Content)
    requires 0 in things.pictures.things
    ensures things.Names([STAMP])
    ensures W.Made(ANY, things, content, STAMP) == Some(content) && ANY.pages(content) == ONE_PAGE
  {
  }

  lemma OnePageStill(s: State)
    requires HistoryOk(s.doc) && PagesOk(APP, s.doc, START.base)
    ensures |s.doc.info.pages| == 1 && s.doc.things.Valid() && Meant(APP, s.doc, START.base).Some?
  {
    hide Meant, HistoryOk;
    assert s.doc.things.Valid() by { HistoryKeepsThings(s.doc); }
  }

  lemma HistoryKeepsThings(doc: Document)
    requires HistoryOk(doc)
    ensures doc.things.Valid()
  {
  }

  lemma MayStamp(s: State)
    requires s.doc.history.Valid() && |s.doc.history.Applied()| == 16
    requires |s.doc.info.pages| == 1 && s.doc.info.permissions == ALL && 0 in s.doc.things.pictures.things
    ensures MayAsk(s, STAMP) && HasRoom(APP, s, STAMP)
  {
    StampAccepted(s.doc.things.SourcePages());
    StampKept(s.doc.things, FILE.content);
    hide WellAsked, Accepts;
  }

  lemma AppIsOk()
    ensures AppOk(APP)
  {
    SixteenAreStamped();
  }

  lemma StampIsMade(s: State)
    requires Inv(APP, s, START) && !s.doc.lost && Willing(APP.engine, s.host.sent)
    requires s.doc.history.Valid() && |s.doc.history.Applied()| == 16
    requires s.doc.info.permissions == ALL && 0 in s.doc.things.pictures.things
    ensures ApplyEdit(APP, s, STAMP).1.Ok? && s.doc.things.Valid()
  {
    HistoryOfInv(APP, s, START);
    OnePageStill(s);
    MayStamp(s);
    assert APP.engine == ANY && |ONE_PAGE| == 1;
    hide *;
    StampAccepted(s.doc.things.SourcePages());
    StampKept(s.doc.things, Meant(APP, s.doc, START.base).value);
    AppliedExactlyWhen(APP, s, START, STAMP);
  }

  lemma StampsMine(s: State) returns (t: State)
    requires Inv(APP, s, START) && !s.doc.lost && Willing(APP.engine, s.host.sent)
    requires !s.doc.guarded && s.inTab && s.doc.history.Valid() && s.doc.history.Applied() == Stamps(16) && s.doc.info.permissions == ALL
    requires s.doc.things.pictures.things == PICTURES + map[0 := MINE]
    ensures s.doc.things.Valid()
    ensures var r := Step(APP, s, DoApply(STAMP)); r.0 == t && r.1.Ok?
    ensures Inv(APP, t, START) && t.doc.history.Applied() == Stamps(16) + [STAMP]
    ensures t.doc.things == s.doc.things && t.doc.identity == s.doc.identity
  {
    hide *;
    AppIsOk();
    StampIsMade(s);
    ApplyKeeps(APP, s, START, STAMP);
    ApplyDoes(APP, s, STAMP);
    t := ApplyEdit(APP, s, STAMP).0;
    Applied(s, t, STAMP);
  }

  lemma Applied(s: State, t: State, edit: Edit)
    requires s.doc.history.Valid() && s.doc.things.Valid() && !s.doc.lost && !s.doc.guarded && s.inTab
    requires ApplyEdit(APP, s, edit).0 == t && ApplyEdit(APP, s, edit).1.Ok?
    requires StaysOpen(s, t) && t.disk == s.disk && t.doc.history == s.doc.history.Push(edit)
    ensures OriginOf(s, t, START) == START
    ensures Step(APP, s, DoApply(edit)).0 == t && Step(APP, s, DoApply(edit)).1.Ok?
    ensures t.doc.history.Valid() && t.doc.history.Applied() == s.doc.history.Applied() + [edit]
  {
    hide ApplyEdit;
  }

  lemma ThreeSteps(states: seq<State>)
    requires |states| == 4
    requires states[0].doc.history.Valid() && states[0].doc.things.Valid() && Step(APP, states[0], DoAddPicture(MINE)).0 == states[1]
    requires states[1].doc.history.Valid() && states[1].doc.things.Valid() && Step(APP, states[1], DoRecover).0 == states[2]
    requires states[2].doc.history.Valid() && states[2].doc.things.Valid()
    requires Step(APP, states[2], DoApply(STAMP)).0 == states[3]
    ensures IsRun(APP, states, [DoAddPicture(MINE), DoRecover, DoApply(STAMP)])
  {
    hide Step;
  }

  lemma Seventeen(s: State)
    requires Inv(APP, s, START) && s.doc.history.Valid() && s.doc.identity.Some?
    requires s.doc.history.Applied() == Stamps(16) + [STAMP]
    requires s.doc.things.pictures.things == PICTURES + map[0 := MINE]
    ensures |J.BodyOf(s.doc.things, s.doc.history.Applied()).pictures| == 17
    ensures s.doc.journal.Some? && s.doc.journal.value in s.folder.stored
    ensures s.folder.stored[s.doc.journal.value].body == J.BodyOf(s.doc.things, s.doc.history.Applied())
    ensures !J.Takeable(APP.rules, AfterCrash(s.folder), s.doc.journal.value, s.doc.path)
  {
    OwnIsKept(APP, s);
    SeventeenNamed(s.doc.things);
    hide Inv;
  }

  lemma OwnIsKept(app: App, s: State)
    requires s.doc.history.Valid() && s.doc.history.Applied() != [] && JournalOk(APP, s) && s.doc.identity.Some?
    ensures s.doc.journal.Some? && s.doc.journal.value in s.folder.stored
    ensures s.folder.stored[s.doc.journal.value].body == J.BodyOf(s.doc.things, s.doc.history.Applied())
  {
    assert InStep(APP, s);
  }

  lemma SeventeenNamed(things: Things)
    requires things.pictures.things == PICTURES + map[0 := MINE]
    ensures |J.BodyOf(things, Stamps(16) + [STAMP]).pictures| == 17
  {
    hide *;
    var applied := Stamps(16) + [STAMP];
    SixteenPictures();
    NamedToo(Stamps(16), STAMP);
    OneStamp();
    AllKept(things, applied);
    assert PicturesOf(applied) == PICTURES.Keys + {0};
    UsedAll(things.pictures, PICTURES, MINE);
  }

  lemma OneStamp()
    ensures PictureOf(STAMP) == {0} && 0 !in PICTURES && !STAMP.InsertPages?
  {
  }

  lemma AllKept(things: Things, edits: seq<Edit>)
    requires forall i :: 0 <= i < |edits| ==> !edits[i].InsertPages?
    ensures J.BodyOf(things, edits).pictures == things.pictures.UsedBy(PicturesOf(edits))
  {
    assert JournalledOf(edits).kept == edits;
    hide PicturesOf;
  }

  lemma UsedAll(kept: Kept<Picture>, pictures: map<nat, Picture>, mine: Picture)
    requires kept.things == pictures + map[0 := mine] && 0 !in pictures
    ensures |kept.UsedBy(pictures.Keys + {0})| == |pictures| + 1
  {
    var used := kept.UsedBy(pictures.Keys + {0});
    assert used.Keys == pictures.Keys + {0};
    assert |used.Keys| == |pictures.Keys| + 1;
  }

  lemma NamedToo(edits: seq<Edit>, edit: Edit)
    ensures PicturesOf(edits + [edit]) == PicturesOf(edits) + PictureOf(edit)
  {
    var more := edits + [edit];
    forall id | id in PicturesOf(edits) + PictureOf(edit) ensures id in PicturesOf(more) {
      if id in PictureOf(edit) {
        assert id in PictureOf(more[|edits|]);
      } else {
        var i :| 0 <= i < |edits| && id in PictureOf(edits[i]);
        assert id in PictureOf(more[i]);
      }
    }
  }

  /**
   * Sixteen pictures recovered next to one prepared before, and that one stamped: the journal kept
   * names seventeen, and no opening of the file takes it any more.
   */
  lemma SeventeenPictures() returns (states: seq<State>)
    ensures AppOk(APP) && |states| == 4
    ensures OpenFile(APP, DISK, FolderOf(BODY), 1, 0, "a.pdf", Option.None, Option.None) == Ok(states[0])
    ensures IsRun(APP, states, [DoAddPicture(MINE), DoRecover, DoApply(STAMP)])
    ensures var s := states[3];
      && s.doc.history.Valid() && |J.BodyOf(s.doc.things, s.doc.history.Applied()).pictures| == 17
      && s.doc.journal.Some? && s.doc.journal.value in s.folder.stored
      && s.folder.stored[s.doc.journal.value].body == J.BodyOf(s.doc.things, s.doc.history.Applied())
      && !J.Takeable(APP.rules, AfterCrash(s.folder), s.doc.journal.value, s.doc.path)
  {
    hide *;
    SixteenAreStamped();
    BodyIs();
    StampingIs(APP, BODY);
    var found, prepared, recovered := PreparedAndRecovered(APP, BODY, MINE);
    var stamped := StampsMine(recovered);
    states := [found, prepared, recovered, stamped];
    ThreeSteps(states);
    Seventeen(stamped);
  }

  lemma BodyIs()
    ensures BODY.edits == Stamps(16) && BODY.pictures == PICTURES
  {
  }
}
