/**
 * A journal that goes on saying what an earlier run did: recovering next to a larger picture of the
 * document's own, under a number of the journal's, is not written down
 * (src-tauri/src/documents.rs:745-786, 2858-2889; src-tauri/src/recovery.rs:36, 182-196).
 */
module SizeLimit {
  import opened Basics
  import opened Edits
  import opened Stores
  import opened Sessions
  import opened Invariant
  import opened RecoveryProofs
  import opened Restart
  import opened ComingBack
  import opened Reopening
  import opened JournalSizes
  import opened RecoveredNextTo
  import J = Journals

  const MAX_JOURNAL_BYTES := 4 * 1024 * 1024
  const MAX_STAMP_PNG_BYTES := 1024 * 1024

  /** The bytes of some pictures, each told by its picture and its place in it. */
  function Cells(pictures: map<nat, Picture>): set<(nat, nat)>
  {
    set id, k: nat | id in pictures && k < |pictures[id].bytes| :: (id, k)
  }

  /** A byte of a picture takes two characters of a journal, and there is more in one than pictures. */
  const TWO_A_BYTE := J.Rules((body: J.Body) => 2 * |Cells(body.pictures)| < MAX_JOURNAL_BYTES, NewName)

  const APP := App(ANY, TWO_A_BYTE)

  /** Two pictures, a small one and one as large as a picture may be, each stamped once. */
  const BODY := J.Body([AddImageStamp(0, 0, 0), AddImageStamp(0, 1, 0)], map[0 := Content([1]), 1 := Large(2)], map[], 0)
  const MINE := Large(3)

  function Large(byte: nat): (p: Picture)
    ensures |p.bytes| == MAX_STAMP_PNG_BYTES
  {
    Content(seq(MAX_STAMP_PNG_BYTES, _ => byte))
  }

  function Row(id: nat, n: nat): set<(nat, nat)> { set k: nat | k < n :: (id, k) }

  lemma {:induction false} RowCount(id: nat, n: nat)
    ensures |Row(id, n)| == n
    decreases n
  {
    if n == 0 {
      assert Row(id, n) == {};
    } else {
      RowCount(id, n - 1);
      assert Row(id, n) == Row(id, n - 1) + {(id, n - 1)};
    }
  }

  lemma TwoCount(a: Picture, b: Picture)
    ensures |Cells(map[0 := a, 1 := b])| == |a.bytes| + |b.bytes|
  {
    RowCount(0, |a.bytes|);
    RowCount(1, |b.bytes|);
    assert Cells(map[0 := a, 1 := b]) == Row(0, |a.bytes|) + Row(1, |b.bytes|);
    assert Row(0, |a.bytes|) !! Row(1, |b.bytes|);
  }

  lemma LessIsNoLarger()
    ensures Monotone(TWO_A_BYTE)
  {
    forall a: J.Body, b: J.Body | Within(a, b) && TWO_A_BYTE.fits(b) ensures TWO_A_BYTE.fits(a) {
      SubsetCount(Cells(a.pictures), Cells(b.pictures));
    }
  }

  lemma TwoAreNamed()
    ensures PicturesOf(BODY.edits) == {0, 1} && ModelsOf(BODY.edits) == {} && SourcesOf(BODY.edits) == {}
  {
    assert 0 in PictureOf(BODY.edits[0]) && 1 in PictureOf(BODY.edits[1]);
  }

  lemma TwoAreStamped()
    ensures Stamping(APP, BODY)
  {
    TwoAreNamed();
    TwoCount(Content([1]), Large(2));
    assert TWO_A_BYTE.fits(BODY);
    assert BODY.edits[..1] == [AddImageStamp(0, 0, 0)] && BODY.edits[..1][..0] == [];
    assert PagesAfterAll(BODY.edits[..1], 1, ALL, NoSources) == Ok(1);
  }

  /** With the document's own picture in place of the small one, the journal would be too large. */
  lemma TwoAreTooLarge(things: Things)
    requires things.pictures.things == BODY.pictures + map[0 := MINE]
    ensures !TWO_A_BYTE.fits(J.BodyOf(things, BODY.edits))
  {
    TwoAreNamed();
    assert JournalledOf(BODY.edits).kept == BODY.edits;
    var pictures := J.BodyOf(things, BODY.edits).pictures;
    assert pictures == map[0 := MINE, 1 := Large(2)];
    TwoCount(MINE, Large(2));
  }

  lemma TwoSteps(states: seq<State>)
    requires |states| == 3
    requires states[0].doc.history.Valid() && states[0].doc.things.Valid() && Step(APP, states[0], DoAddPicture(MINE)).0 == states[1]
    requires states[1].doc.history.Valid() && states[1].doc.things.Valid() && Step(APP, states[1], DoRecover).0 == states[2]
    ensures IsRun(APP, states, [DoAddPicture(MINE), DoRecover])
  {
    hide Step;
  }

  /** It is not written: the folder is as it was, and the journal taken over says what it said. */
  lemma NotWritten(s: State, t: State)
    requires Inv(APP, s, START) && Recover(APP, s).0 == t && Recover(APP, s).1.Ok? && s.inTab
    requires s.doc.history.Valid() && s.doc.things.Valid() && s.doc.recovered == Some(J.Found(7, BODY, true))
    requires s.doc.identity == Some(0) && s.doc.things.pictures.things == map[0 := MINE]
    ensures RecoversTooMuch(APP, s, DoRecover) && !SaysAll(t)
    ensures t.doc.journal == Some(7) && t.folder == s.folder
  {
    hide *;
    RestoredHere(s);
    TwoAreTooLarge(Restoring(s, Left(s)).doc.things);
    AppIs();
    IsTooLarge(APP, s);
    RecoverFits(APP, s, START);
    TakenOverUnwritten(APP, s);
  }

  lemma AppIs()
    ensures APP.rules == TWO_A_BYTE
  {
  }

  lemma RestoredHere(s: State)
    requires s.doc.things.Valid() && s.doc.recovered == Some(J.Found(7, BODY, true)) && s.doc.things.pictures.things == map[0 := MINE]
    ensures Restoring(s, Left(s)).doc.things.pictures.things == BODY.pictures + map[0 := MINE] && Left(s) == BODY
  {
  }

  /** The picture stamped is another one than the journal's. */
  lemma OtherPicture()
    ensures MINE != Content([1]) && BODY.pictures == map[0 := Content([1]), 1 := Large(2)]
  {
    assert |MINE.bytes| > 1;
  }

  /**
   * A large picture is prepared, and a journal that has another under the same number is recovered.
   * The journal is not written anew, and after a crash what is offered is not what was done.
   */
  lemma AnotherIsOffered() returns (states: seq<State>)
    ensures AppOk(APP) && Monotone(APP.rules) && |states| == 3
    ensures OpenFile(APP, DISK, FolderOf(BODY), 1, 0, "a.pdf", Option.None, Option.None) == Ok(states[0])
    ensures IsRun(APP, states, [DoAddPicture(MINE), DoRecover])
    ensures RecoversTooMuch(APP, states[1], DoRecover) && !SaysAll(states[2])
    ensures var s := states[2];
      && s.doc.history.Valid() && s.doc.history.Applied() == BODY.edits && s.doc.things.pictures.Get(0) == Some(MINE)
      && OpenFile(APP, s.disk, AfterCrash(s.folder), 1, 0, "a.pdf", Option.None, Option.None) == Ok(states[0])
    ensures states[0].doc.info.recovery.Available? && states[0].doc.recovered == Some(J.Found(7, BODY, true))
    ensures BODY.pictures[0] != MINE
  {
    hide *;
    TwoAreStamped();
    StampingIs(APP, BODY);
    LessIsNoLarger();
    AppIs();
    var found, prepared, recovered := PreparedAndRecovered(APP, BODY, MINE);
    NotWritten(prepared, recovered);
    states := [found, prepared, recovered];
    TwoSteps(states);
    OtherPicture();
    NowMine(recovered.doc.things);
    FolderAfterwards(prepared.folder);
  }

  lemma NowMine(things: Things)
    requires things.pictures.things == BODY.pictures + map[0 := MINE]
    ensures things.pictures.Get(0) == Some(MINE)
  {
  }

  lemma FolderAfterwards(folder: J.Folder)
    requires folder == FolderOf(BODY).(inUse := {7})
    ensures AfterCrash(folder) == FolderOf(BODY)
  {
  }
}
