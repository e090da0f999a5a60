/**
 * The edits of a document, and what the main process foresees of them (src-tauri/src/documents.rs):
 * the page count each leads to and what a crash recovery journal keeps of a list of them.
 */
module Edits {
  import opened Basics

  const MAX_PAGE_COUNT := 100_000
  const MAX_UNDO_EDITS := 1_000

  type SourceId = nat
  type PictureId = nat
  type ModelId = nat

  datatype Rotation = None | Cw90 | Cw180 | Cw270

  /** The edits of an annotation that name one page and nothing the main process keeps. */
  datatype AnnotationEdit =
    | AddNote | DeleteAnnotation | SetHighlightColor | SetNoteText | AddInk | AddStamp
    | SetAnnotationRect | SetPictureAngle | AddShape | SetLineEnds | SetShapeStyle

  datatype BookmarkEdit = Rename | Delete | Move

  /** An edit as the page asks for it. `detail` stands for what only the worker looks at. */
  datatype Edit =
    | RotatePages(pages: seq<nat>, turn: Rotation)
    | DeletePages(pages: seq<nat>)
    | MovePages(pages: seq<nat>, before: nat)
    | InsertBlankPage(at: nat, like: nat)
    | InsertPages(at: nat, source: SourceId)
    | AddHighlight(marks: seq<nat>, detail: nat)
    | Annotate(kind: AnnotationEdit, page: nat, detail: nat)
    | AddImageStamp(page: nat, image: PictureId, detail: nat)
    | AddTextBox(page: nat, model: ModelId, detail: nat)
    | SetTextBox(page: nat, words: Option<ModelId>, detail: nat)
    | SetFieldValue(page: nat, detail: nat)
    | FlattenForm
    | AddRedaction(page: nat, detail: nat)
    | AddRedactionGroup(page: nat, detail: nat)
    | ApplyRedactions
    | AddBookmark(page: nat, detail: nat)
    | ChangeBookmark(change: BookmarkEdit, detail: nat)

  /** What the document's author allows. */
  datatype Permissions = Permissions(change: bool, assemble: bool, annotate: bool, fillForms: bool)

  // ----- validation of what the page sends

  predicate Distinct(s: seq<nat>)
  {
    forall i, j :: 0 <= i < j < |s| ==> s[i] != s[j]
  }

  predicate PageList(pages: seq<nat>)
  {
    pages != [] && |pages| <= MAX_PAGE_COUNT && Distinct(pages)
  }

  /** What `validate` asks of an edit; of the detail of the others it asks nothing modelled here. */
  predicate Valid(edit: Edit)
  {
    match edit
    case RotatePages(pages, turn) => PageList(pages) && turn != Rotation.None
    case DeletePages(pages) => PageList(pages)
    case MovePages(pages, before) => PageList(pages) && before <= MAX_PAGE_COUNT
    case InsertBlankPage(at, like) => at <= MAX_PAGE_COUNT && like < MAX_PAGE_COUNT
    case InsertPages(at, _) => at <= MAX_PAGE_COUNT
    case _ => true
  }

  // ----- the page count after an edit

  predicate AllBelow(pages: seq<nat>, count: nat)
  {
    forall i :: 0 <= i < |pages| ==> pages[i] < count
  }

  /** The pages an edit with the annotation permission is on; `None` for the other edits. */
  function Annotated(edit: Edit): Option<seq<nat>>
  {
    match edit
    case AddHighlight(marks, _) => Some(marks)
    case Annotate(_, page, _) => Some([page])
    case AddImageStamp(page, _, _) => Some([page])
    case AddTextBox(page, _, _) => Some([page])
    case SetTextBox(page, _, _) => Some([page])
    case _ => Option.None
  }

  function OnPage(page: nat, count: nat, allowed: bool): Result<nat, ErrorCode>
  {
    if !allowed then Err(InvalidArgument)
    else if page >= count then Err(InvalidArgument)
    else Ok(count)
  }

  /** The pages of the source files a document keeps: `None` for a number that names none. */
  type SourcePages = SourceId -> Option<nat>

  /** What the main process foresees of `edit`: how many pages there are once it is made, or its refusal. */
  function PagesAfter(edit: Edit, count: nat, allowed: Permissions, sourcePages: SourcePages)
    : Result<nat, ErrorCode>
  {
    match edit
    case AddRedaction(page, _) => OnPage(page, count, allowed.change)
    case AddRedactionGroup(page, _) => OnPage(page, count, allowed.change)
    case ApplyRedactions => if allowed.change then Ok(count) else Err(InvalidArgument)
    case AddBookmark(page, _) => OnPage(page, count, allowed.change)
    case ChangeBookmark(_, _) => if allowed.change then Ok(count) else Err(InvalidArgument)
    case _ =>
      if Annotated(edit).Some? then
        if !allowed.annotate then Err(InvalidArgument)
        else if !AllBelow(Annotated(edit).value, count) then Err(InvalidArgument)
        else Ok(count)
      else if edit.SetFieldValue? then OnPage(edit.page, count, allowed.fillForms)
      else if edit.FlattenForm? then
        if allowed.fillForms then Ok(count) else Err(InvalidArgument)
      else if !(allowed.assemble || allowed.change) then Err(InvalidArgument)
      else ManagedPages(edit, count, sourcePages)
  }

  /** The edits that manage pages, once the author's permission is there. */
  function ManagedPages(edit: Edit, count: nat, sourcePages: SourcePages): Result<nat, ErrorCode>
  {
    match edit
    case RotatePages(pages, _) =>
      if AllBelow(pages, count) then Ok(count) else Err(InvalidArgument)
    case DeletePages(pages) =>
      if !AllBelow(pages, count) then Err(InvalidArgument)
      else if |pages| < count then Ok(count - |pages|)
      else Err(InvalidArgument)
    case MovePages(pages, before) =>
      if !AllBelow(pages, count) || before > count then Err(InvalidArgument) else Ok(count)
    case InsertPages(at, source) =>
      if at > count || sourcePages(source).None? then Err(InvalidArgument)
      else if count + sourcePages(source).value > MAX_PAGE_COUNT then Err(LimitExceeded)
      else Ok(count + sourcePages(source).value)
    case InsertBlankPage(at, like) =>
      if like >= count || at > count then Err(InvalidArgument)
      else if count >= MAX_PAGE_COUNT then Err(LimitExceeded)
      else Ok(count + 1)
    case _ => Ok(count)
  }

  /** `PagesAfter` for `edits` in turn. */
  function PagesAfterAll(edits: seq<Edit>, count: nat, allowed: Permissions, sourcePages: SourcePages)
    : Result<nat, ErrorCode>
  {
    if edits == [] then Ok(count)
    else
      match PagesAfterAll(edits[..|edits| - 1], count, allowed, sourcePages)
      case Ok(before) => PagesAfter(edits[|edits| - 1], before, allowed, sourcePages)
      case Err(error) => Err(error)
  }

  /** No source file is at hand: what a recovery journal is checked with. */
  function NoSources(source: SourceId): Option<nat> { Option.None }

  lemma {:induction false} PagesAfterAllPrefix(edits: seq<Edit>, n: nat, count: nat, allowed: Permissions, sourcePages: SourcePages)
    requires n <= |edits|
    requires PagesAfterAll(edits, count, allowed, sourcePages).Ok?
    ensures PagesAfterAll(edits[..n], count, allowed, sourcePages).Ok?
    decreases |edits|
  {
    if n < |edits| {
      var init := edits[..|edits| - 1];
      PagesAfterAllPrefix(init, n, count, allowed, sourcePages);
      assert init[..n] == edits[..n];
    } else {
      assert edits[..n] == edits;
    }
  }

  // ----- what a journal keeps

  /** How many edits there are up to the first insertion of another file's pages. */
  function Keepable(edits: seq<Edit>): (n: nat)
    ensures n <= |edits|
    ensures forall i :: 0 <= i < n ==> !edits[i].InsertPages?
    ensures n < |edits| ==> edits[n].InsertPages?
  {
    if edits == [] || edits[0].InsertPages? then 0
    else 1 + Keepable(edits[1..])
  }

  /** The edits a journal keeps of those a document has, and how many it leaves out. */
  datatype Journalled = Journalled(kept: seq<Edit>, lost: nat)

  function JournalledOf(applied: seq<Edit>): (j: Journalled)
    ensures j.kept <= applied && |j.kept| + j.lost == |applied|
    ensures j.lost == 0 <==> forall i :: 0 <= i < |applied| ==> !applied[i].InsertPages?
    ensures j.lost > 0 ==> applied[|j.kept|].InsertPages?
    ensures forall i :: 0 <= i < |j.kept| ==> !j.kept[i].InsertPages?
  {
    var n := Keepable(applied);
    Journalled(applied[..n], |applied| - n)
  }

  /** The kept part is the longest prefix that takes no other file's pages. */
  lemma JournalledIsLongest(applied: seq<Edit>, n: nat)
    requires n <= |applied|
    requires forall i :: 0 <= i < n ==> !applied[i].InsertPages?
    ensures n <= |JournalledOf(applied).kept|
    ensures applied[..n] <= JournalledOf(applied).kept
  {
  }
}
