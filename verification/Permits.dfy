/**
 * Which edits are accepted (src-tauri/src/documents.rs:3020-3187), edit by edit and without the order
 * in which it is looked at: what the author has to allow, the pages that have to be there, the place,
 * and that there are neither no pages nor too many afterwards.
 */
module Permits {
  import opened Basics
  import opened Edits
  import opened PageLists

  /** What the author of a document may or may not allow. */
  datatype Permission = Changing | Assembling | Annotating | Filling

  /** Changing the document includes assembling its pages. */
  predicate Gives(allowed: Permissions, permission: Permission)
  {
    match permission
    case Changing => allowed.change
    case Assembling => allowed.assemble || allowed.change
    case Annotating => allowed.annotate
    case Filling => allowed.fillForms
  }

  function Needed(edit: Edit): Permission
  {
    match edit
    case RotatePages(_, _) => Assembling
    case DeletePages(_) => Assembling
    case MovePages(_, _) => Assembling
    case InsertBlankPage(_, _) => Assembling
    case InsertPages(_, _) => Assembling
    case AddHighlight(_, _) => Annotating
    case Annotate(_, _, _) => Annotating
    case AddImageStamp(_, _, _) => Annotating
    case AddTextBox(_, _, _) => Annotating
    case SetTextBox(_, _, _) => Annotating
    case SetFieldValue(_, _) => Filling
    case FlattenForm => Filling
    case AddRedaction(_, _) => Changing
    case AddRedactionGroup(_, _) => Changing
    case ApplyRedactions => Changing
    case AddBookmark(_, _) => Changing
    case ChangeBookmark(_, _) => Changing
  }

  /** The pages an edit is on, or goes by. */
  function PagesNamed(edit: Edit): set<nat>
  {
    match edit
    case RotatePages(pages, _) => SetOf(pages)
    case DeletePages(pages) => SetOf(pages)
    case MovePages(pages, _) => SetOf(pages)
    case InsertBlankPage(_, like) => {like}
    case InsertPages(_, _) => {}
    case AddHighlight(marks, _) => SetOf(marks)
    case Annotate(_, page, _) => {page}
    case AddImageStamp(page, _, _) => {page}
    case AddTextBox(page, _, _) => {page}
    case SetTextBox(page, _, _) => {page}
    case SetFieldValue(page, _) => {page}
    case FlattenForm => {}
    case AddRedaction(page, _) => {page}
    case AddRedactionGroup(page, _) => {page}
    case ApplyRedactions => {}
    case AddBookmark(page, _) => {page}
    case ChangeBookmark(_, _) => {}
  }

  /** The pages in front of which an edit puts some: at the end at the latest. */
  function PlaceOf(edit: Edit): nat
  {
    match edit
    case MovePages(_, before) => before
    case InsertBlankPage(at, _) => at
    case InsertPages(at, _) => at
    case _ => 0
  }

  predicate AllThere(pages: set<nat>, count: nat) { forall page :: page in pages ==> page < count }

  /** The author allows it, and the pages, the place and the other file are there. */
  predicate IsThere(edit: Edit, count: nat, allowed: Permissions, sourcePages: SourcePages)
  {
    && Gives(allowed, Needed(edit))
    && AllThere(PagesNamed(edit), count)
    && PlaceOf(edit) <= count
    && (edit.InsertPages? ==> sourcePages(edit.source).Some?)
  }

  /** How many pages the document has once the edit is made. */
  function CountOnce(edit: Edit, count: nat, sourcePages: SourcePages): int
  {
    match edit
    case DeletePages(pages) => count - |SetOf(pages)|
    case InsertBlankPage(_, _) => count + 1
    case InsertPages(_, source) => if sourcePages(source).Some? then count + sourcePages(source).value else count
    case _ => count
  }

  predicate Accepts(edit: Edit, count: nat, allowed: Permissions, sourcePages: SourcePages)
  {
    IsThere(edit, count, allowed, sourcePages) && 1 <= CountOnce(edit, count, sourcePages) <= MAX_PAGE_COUNT
  }

  /** A turn by no quarter, no pages, or a page twice is not asked for. */
  predicate WellAsked(edit: Edit)
  {
    && (edit.RotatePages? ==> 1 <= QuartersOf(edit.turn) <= 3)
    && (edit.RotatePages? || edit.DeletePages? || edit.MovePages? ==>
          1 <= |edit.pages| <= MAX_PAGE_COUNT && |SetOf(edit.pages)| == |edit.pages|)
    && (edit.InsertBlankPage? ==> edit.like < MAX_PAGE_COUNT)
    && PlaceOf(edit) <= MAX_PAGE_COUNT
  }

  lemma {:induction false} Doubled(pages: seq<nat>, i: nat, j: nat)
    requires i < j < |pages| && pages[i] == pages[j]
    ensures |SetOf(pages)| < |pages|
  {
    var rest := pages[..j] + pages[j + 1..];
    assert pages[i] == rest[i];
    assert SetOf(pages) <= SetOf(rest) by {
      forall page | page in SetOf(pages) ensures page in SetOf(rest) {
        var k :| 0 <= k < |pages| && pages[k] == page;
        if k != j { assert rest[if k < j then k else k - 1] == page; }
      }
    }
    SubsetCount(SetOf(pages), SetOf(rest));
    SetOfCount(rest);
  }

  lemma {:induction false} SetOfCount(pages: seq<nat>)
    ensures |SetOf(pages)| <= |pages|
    decreases |pages|
  {
    if pages != [] {
      var init := pages[..|pages| - 1];
      SetOfCount(init);
      assert SetOf(pages) == SetOf(init) + {pages[|pages| - 1]};
    }
  }

  /** What is held to be valid is what is well asked. */
  lemma ValidExactlyWhen(edit: Edit)
    ensures Valid(edit) <==> WellAsked(edit)
  {
    if edit.RotatePages? || edit.DeletePages? || edit.MovePages? {
      if Distinct(edit.pages) {
        DistinctCount(edit.pages);
      } else {
        var i, j :| 0 <= i < j < |edit.pages| && edit.pages[i] == edit.pages[j];
        Doubled(edit.pages, i, j);
      }
    }
  }

  lemma AllBelowIs(pages: seq<nat>, count: nat)
    ensures AllBelow(pages, count) <==> AllThere(SetOf(pages), count)
  {
    if AllThere(SetOf(pages), count) {
      forall i | 0 <= i < |pages| ensures pages[i] < count { assert pages[i] in SetOf(pages); }
    }
  }

  lemma OneThere(page: nat, count: nat)
    ensures AllThere({page}, count) <==> page < count
    ensures AllThere({}, count) && (AllBelow([page], count) <==> page < count)
  {
    assert page in {page};
    assert [page][0] == page;
  }

  /** The page of an edit that is on one; 0 for the others. */
  function PageOf(edit: Edit): nat
  {
    match edit
    case InsertBlankPage(_, like) => like
    case Annotate(_, page, _) => page
    case AddImageStamp(page, _, _) => page
    case AddTextBox(page, _, _) => page
    case SetTextBox(page, _, _) => page
    case SetFieldValue(page, _) => page
    case AddRedaction(page, _) => page
    case AddRedactionGroup(page, _) => page
    case AddBookmark(page, _) => page
    case _ => 0
  }

  /** What is answered to an edit, as far as the number of pages goes. */
  predicate IsAnswer(edit: Edit, count: nat, allowed: Permissions, sourcePages: SourcePages, r: Result<nat, ErrorCode>)
  {
    && (r.Ok? <==> Accepts(edit, count, allowed, sourcePages))
    && (r.Ok? ==> r.value == CountOnce(edit, count, sourcePages))
    && (r.Err? ==> r.error == if IsThere(edit, count, allowed, sourcePages)
                                 && CountOnce(edit, count, sourcePages) > MAX_PAGE_COUNT
                              then LimitExceeded else InvalidArgument)
  }

  lemma ManagedAccepted(edit: Edit, count: nat, allowed: Permissions, sourcePages: SourcePages)
    requires 1 <= count <= MAX_PAGE_COUNT && Valid(edit) && Needed(edit).Assembling?
    ensures IsAnswer(edit, count, allowed, sourcePages, PagesAfter(edit, count, allowed, sourcePages))
  {
    hide AllBelow, AllThere, SetOf, Distinct;
    match edit
    case RotatePages(pages, _) => AllBelowIs(pages, count);
    case DeletePages(pages) => AllBelowIs(pages, count); DistinctCount(pages);
    case MovePages(pages, _) => AllBelowIs(pages, count);
    case InsertPages(_, _) => OneThere(0, count);
    case InsertBlankPage(_, like) => OneThere(like, count);
  }

  lemma OtherAccepted(edit: Edit, count: nat, allowed: Permissions, sourcePages: SourcePages)
    requires 1 <= count <= MAX_PAGE_COUNT && !Needed(edit).Assembling?
    ensures IsAnswer(edit, count, allowed, sourcePages, PagesAfter(edit, count, allowed, sourcePages))
  {
    hide AllBelow, AllThere, SetOf;
    if edit.AddHighlight? { AllBelowIs(edit.marks, count); } else { OneThere(PageOf(edit), count); }
  }

  /**
   * An edit is accepted exactly when the author allows what it needs, the pages and the place it names
   * are there, and it leaves a page and not too many; the count foreseen is that then. Too many pages
   * is the only refusal of its own.
   */
  lemma AcceptedExactlyWhen(edit: Edit, count: nat, allowed: Permissions, sourcePages: SourcePages)
    requires 1 <= count <= MAX_PAGE_COUNT && Valid(edit)
    ensures var r := PagesAfter(edit, count, allowed, sourcePages);
      && (r.Ok? <==> Accepts(edit, count, allowed, sourcePages))
      && (r.Ok? ==> r.value == CountOnce(edit, count, sourcePages))
      && (r.Err? ==> r.error == if IsThere(edit, count, allowed, sourcePages)
                                   && CountOnce(edit, count, sourcePages) > MAX_PAGE_COUNT
                                then LimitExceeded else InvalidArgument)
  {
    if Needed(edit).Assembling? {
      ManagedAccepted(edit, count, allowed, sourcePages);
    } else {
      OtherAccepted(edit, count, allowed, sourcePages);
    }
    hide PagesAfter, IsThere, CountOnce, Accepts, Needed, Valid;
  }

  /** Edits made one after the other, each on the pages the ones before it leave. */
  predicate AcceptsAll(edits: seq<Edit>, count: nat, allowed: Permissions, sourcePages: SourcePages)
    decreases |edits|
  {
    edits == []
    || (Accepts(edits[0], count, allowed, sourcePages)
        && AcceptsAll(edits[1..], CountOnce(edits[0], count, sourcePages), allowed, sourcePages))
  }

  lemma {:induction false} FirstThenRest(edits: seq<Edit>, count: nat, allowed: Permissions, sourcePages: SourcePages)
    requires edits != []
    ensures PagesAfterAll(edits, count, allowed, sourcePages)
         == match PagesAfter(edits[0], count, allowed, sourcePages)
            case Err(error) => Err(error)
            case Ok(next) => PagesAfterAll(edits[1..], next, allowed, sourcePages)
    decreases |edits|
  {
    hide PagesAfter;
    var k := |edits| - 1;
    if k > 0 {
      FirstThenRest(edits[..k], count, allowed, sourcePages);
      assert edits[..k][1..] == edits[1..][..k - 1];
    } else {
      assert edits[..0] == [] && edits[1..] == [];
    }
  }

  lemma {:induction false} AllAcceptedExactlyWhen(edits: seq<Edit>, count: nat, allowed: Permissions, sourcePages: SourcePages)
    requires 1 <= count <= MAX_PAGE_COUNT && forall i :: 0 <= i < |edits| ==> Valid(edits[i])
    ensures PagesAfterAll(edits, count, allowed, sourcePages).Ok? <==> AcceptsAll(edits, count, allowed, sourcePages)
    decreases |edits|
  {
    hide PagesAfter, Accepts, Valid;
    if edits != [] {
      FirstThenRest(edits, count, allowed, sourcePages);
      AcceptedExactlyWhen(edits[0], count, allowed, sourcePages);
      if PagesAfter(edits[0], count, allowed, sourcePages).Ok? {
        AcceptsCount(edits[0], count, allowed, sourcePages);
        AllAcceptedExactlyWhen(edits[1..], CountOnce(edits[0], count, sourcePages), allowed, sourcePages);
      }
    }
  }

  lemma AcceptsCount(edit: Edit, count: nat, allowed: Permissions, sourcePages: SourcePages)
    requires Accepts(edit, count, allowed, sourcePages)
    ensures 1 <= CountOnce(edit, count, sourcePages) <= MAX_PAGE_COUNT && Gives(allowed, Needed(edit))
  {
  }

  /** The author allows each of them. */
  ghost predicate AllAllowed(allowed: Permissions, edits: seq<Edit>)
  {
    forall i :: 0 <= i < |edits| ==> Gives(allowed, Needed(edits[i]))
  }

  lemma {:induction false} AcceptedAreAllowed(edits: seq<Edit>, count: nat, allowed: Permissions, sourcePages: SourcePages)
    requires AcceptsAll(edits, count, allowed, sourcePages)
    ensures AllAllowed(allowed, edits)
    decreases |edits|
  {
    hide Accepts, Needed, Gives;
    if edits != [] {
      AcceptsCount(edits[0], count, allowed, sourcePages);
      AcceptedAreAllowed(edits[1..], CountOnce(edits[0], count, sourcePages), allowed, sourcePages);
      forall i | 0 <= i < |edits| ensures Gives(allowed, Needed(edits[i])) {
        if i > 0 { assert edits[i] == edits[1..][i - 1]; }
      }
    }
  }

  /** That is the number of pages the document has afterwards. */
  lemma CountOnceIs(list: PageSeq, edit: Edit, allowed: Permissions, sourcePages: SourcePages, sources: SourceId -> PageSeq)
    requires Valid(edit) && IsThere(edit, |list|, allowed, sourcePages) && Agree(sourcePages, sources, edit)
    ensures CountOnce(edit, |list|, sourcePages) == |After(list, edit, sources)|
  {
    hide AllBelow, AllThere, SetOf, Deleted, Moved;
    match edit
    case DeletePages(pages) => AllBelowIs(pages, |list|); DeletedCount(list, pages); DistinctCount(pages);
    case MovePages(pages, before) => MovedPermutes(list, SetOf(pages), before);
    case _ =>
  }
}
