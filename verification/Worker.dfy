/**
 * A document's sandboxed worker, as the main process meets it: one process with a copy of each
 * document it opened and the bytes it opened it from (crates/pdf_worker/src/serve.rs), and a host
 * that sends one request at a time and drops the process when it can no longer be used
 * (crates/worker_host/src/lib.rs). What an edit does to a PDF is left to an `Engine`, of which
 * nothing is assumed but that it is a function.
 */
module Worker {
  import opened Basics
  import opened Edits
  import opened Stores

  datatype PageSize = PageSize(width: int, height: int)

  type Password = string

  datatype HostError =
    | Spawn | Crashed | Timeout | Violation | Unreadable | TooLarge
    | Reported(code: ErrorCode)

  function CodeOf(error: HostError): ErrorCode
  {
    match error
    case Spawn => Internal
    case Crashed => WorkerCrashed
    case Timeout => WorkerTimeout
    case Violation => ProtocolViolation
    case Unreadable => ErrorCode.Unreadable
    case TooLarge => ErrorCode.TooLarge
    case Reported(code) => code
  }

  /** After these the worker can no longer be used: its process is dropped, with all it had. */
  predicate Fatal(error: HostError)
  {
    error.Crashed? || error.Timeout? || error.Violation?
  }

  /**
   * What becomes of one request: the worker does it; it fails with an error that leaves the copy
   * as it was; it fails partway through an edit, and the copy may be anything; or it answers
   * something else than what was asked.
   */
  datatype Fault =
    | Fine
    | Fails(error: HostError)
    | HalfDone(limit: bool, copy: Content)
    | Nonsense

  /** What the app cannot see into: MuPDF, the file system's names, and what goes wrong when. */
  datatype Engine = Engine(
    apply: (Content, WorkerEdit) -> Option<Content>,
    pages: Content -> seq<PageSize>,
    permissions: Content -> Permissions,
    hasForm: Content -> bool,
    hasOutline: Content -> bool,
    isSigned: Content -> bool,
    identifier: Content -> Option<nat>,
    mark: (Content, Option<nat>) -> Content,
    lock: Content -> Option<Password>,
    fault: nat -> Fault)

  predicate ValidPages(pages: seq<PageSize>)
  {
    1 <= |pages| <= MAX_PAGE_COUNT
  }

  predicate Unlocks(engine: Engine, content: Content, password: Option<Password>)
  {
    engine.lock(content).None? || engine.lock(content) == password
  }

  /** A worker's copy of a document, and the bytes it opened it from. */
  datatype Copy = Copy(now: Content, original: Content)

  /**
   * The host of one document's worker. A process that is not there has no copies; `sent` is where the
   * worker's luck is read next.
   */
  datatype Host = Host(copies: map<nat, Copy>, next: nat, sent: nat)
  {
    /** Every copy's number was given out. */
    predicate Valid()
    {
      forall id :: id in copies ==> id < next
    }

    function Stop(): Host { this.(copies := map[]) }
  }

  function NewHost(luck: nat): Host { Host(map[], 1, luck) }

  datatype Answer<T> = Expected(value: T) | Unexpected | Failed(error: HostError)

  /** How a request ends that the worker did not do. */
  function NotDone<T>(host: Host, fault: Fault): (r: (Host, Answer<T>))
    requires !fault.Fine?
  {
    match fault
    case Fails(error) => (if Fatal(error) then host.Stop() else host, Failed(error))
    case HalfDone(limit, _) => (host, Failed(Reported(if limit then LimitExceeded else Internal)))
    case Nonsense => (host, Unexpected)
  }

  /** The number of the copy. The host gives it out before the worker answers. */
  function Open(engine: Engine, host: Host, content: Content, password: Option<Password>): (Host, Answer<nat>)
  {
    var h := host.(next := host.next + 1, sent := host.sent + 1);
    var fault := engine.fault(host.sent);
    if !fault.Fine? then NotDone(h, fault)
    else if !Unlocks(engine, content, password) then (h, Failed(Reported(Encrypted)))
    else if !ValidPages(engine.pages(content)) then (h.Stop(), Failed(Violation))
    else (h.(copies := h.copies[host.next := Copy(content, content)]), Expected(host.next))
  }

  function Edit(engine: Engine, host: Host, id: nat, edit: WorkerEdit): (Host, Answer<seq<PageSize>>)
  {
    var h := host.(sent := host.sent + 1);
    var fault := engine.fault(host.sent);
    if fault.HalfDone? && id in h.copies then
      (h.(copies := h.copies[id := h.copies[id].(now := fault.copy)]), NotDone(h, fault).1)
    else if !fault.Fine? then NotDone(h, fault)
    else if id !in h.copies then (h, Failed(Reported(UnknownDocument)))
    else
      match engine.apply(h.copies[id].now, edit)
      case None => (h, Failed(Reported(InvalidArgument)))
      case Some(after) =>
        if !ValidPages(engine.pages(after)) then (h.Stop(), Failed(Violation))
        else (h.(copies := h.copies[id := h.copies[id].(now := after)]), Expected(engine.pages(after)))
  }

  function ApplyAll(engine: Engine, content: Content, edits: seq<WorkerEdit>): Option<Content>
  {
    if edits == [] then Some(content)
    else
      match ApplyAll(engine, content, edits[..|edits| - 1])
      case None => Option.None
      case Some(before) => engine.apply(before, edits[|edits| - 1])
  }

  /** The copy becomes its original with `edits` made on it. */
  function Revert(engine: Engine, host: Host, id: nat, edits: seq<WorkerEdit>, password: Option<Password>)
    : (Host, Answer<seq<PageSize>>)
  {
    var h := host.(sent := host.sent + 1);
    var fault := engine.fault(host.sent);
    if !fault.Fine? then NotDone(h, fault)
    else if id !in h.copies then (h, Failed(Reported(UnknownDocument)))
    else if !Unlocks(engine, h.copies[id].original, password) then (h, Failed(Reported(Encrypted)))
    else
      match ApplyAll(engine, h.copies[id].original, edits)
      case None => (h, Failed(Reported(Internal)))
      case Some(after) =>
        if !ValidPages(engine.pages(after)) then (h.Stop(), Failed(Violation))
        else (h.(copies := h.copies[id := h.copies[id].(now := after)]), Expected(engine.pages(after)))
  }

  /** What the worker writes into the file it was given. */
  function Save(engine: Engine, host: Host, id: nat): (Host, Answer<Content>)
  {
    var h := host.(sent := host.sent + 1);
    var fault := engine.fault(host.sent);
    if !fault.Fine? then NotDone(h, fault)
    else if id !in h.copies then (h, Failed(Reported(UnknownDocument)))
    else (h, Expected(h.copies[id].now))
  }

  /** The mark goes into the bytes the worker keeps, not into its edited copy. */
  function WriteIdentifier(engine: Engine, host: Host, id: nat, identifier: Option<nat>): (Host, Answer<Content>)
  {
    var h := host.(sent := host.sent + 1);
    var fault := engine.fault(host.sent);
    if !fault.Fine? then NotDone(h, fault)
    else if id !in h.copies then (h, Failed(Reported(UnknownDocument)))
    else (h, Expected(engine.mark(h.copies[id].original, identifier)))
  }

  /** The worker keeps `content` as the bytes to open the document again from. */
  function Rebase(engine: Engine, host: Host, id: nat, content: Content): (Host, Answer<()>)
  {
    var h := host.(sent := host.sent + 1);
    var fault := engine.fault(host.sent);
    if !fault.Fine? then NotDone(h, fault)
    else if id !in h.copies then (h, Failed(Reported(UnknownDocument)))
    else (h.(copies := h.copies[id := h.copies[id].(original := content)]), Expected(()))
  }

  /** A request that only reads: page text, a rendered page, a picture prepared for a stamp. */
  function Ask(engine: Engine, host: Host): (Host, Answer<()>)
  {
    var h := host.(sent := host.sent + 1);
    var fault := engine.fault(host.sent);
    if !fault.Fine? then NotDone(h, fault) else (h, Expected(()))
  }

  // ----- what a list of edits makes of a document

  /** One edit made on `content` with the things the document keeps; `None` when it cannot be. */
  function Made(engine: Engine, things: Things, content: Content, edit: Edit): Option<Content>
  {
    match WorkerEditOf(things, edit)
    case None => Option.None
    case Some(asked) =>
      match engine.apply(content, asked)
      case None => Option.None
      case Some(after) => if ValidPages(engine.pages(after)) then Some(after) else Option.None
  }

  /** `content` with `edits` made on it in order: what a document is to be, whatever its worker did. */
  function Replayed(engine: Engine, things: Things, content: Content, edits: seq<Edit>): Option<Content>
  {
    if edits == [] then Some(content)
    else
      match Replayed(engine, things, content, edits[..|edits| - 1])
      case None => Option.None
      case Some(before) => Made(engine, things, before, edits[|edits| - 1])
  }

  function WorkerEditsOf(things: Things, edits: seq<Edit>): (r: Option<seq<WorkerEdit>>)
    ensures r.Some? ==> |r.value| == |edits|
  {
    if edits == [] then Some([])
    else
      var init := WorkerEditsOf(things, edits[..|edits| - 1]);
      var last := WorkerEditOf(things, edits[|edits| - 1]);
      if init.None? || last.None? then Option.None else Some(init.value + [last.value])
  }

  lemma {:induction false} ReplayedPrefix(engine: Engine, things: Things, content: Content, edits: seq<Edit>, n: nat)
    requires n <= |edits|
    requires Replayed(engine, things, content, edits).Some?
    ensures Replayed(engine, things, content, edits[..n]).Some?
    decreases |edits|
  {
    if n < |edits| {
      var init := edits[..|edits| - 1];
      ReplayedPrefix(engine, things, content, init, n);
      assert init[..n] == edits[..n];
    } else {
      assert edits[..n] == edits;
    }
  }

  lemma ReplayedPush(engine: Engine, things: Things, content: Content, edits: seq<Edit>, edit: Edit)
    ensures Replayed(engine, things, content, edits + [edit])
         == match Replayed(engine, things, content, edits)
            case None => Option.None
            case Some(before) => Made(engine, things, before, edit)
  {
    var all := edits + [edit];
    assert all[..|all| - 1] == edits;
  }

  /** What the edits make depends only on the things they name. */
  lemma {:induction false} ReplayedSameThings(engine: Engine, things: Things, other: Things, content: Content, edits: seq<Edit>)
    requires things.SameFor(other, edits)
    ensures Replayed(engine, things, content, edits) == Replayed(engine, other, content, edits)
    decreases |edits|
  {
    if edits != [] {
      var init := edits[..|edits| - 1];
      var last := edits[|edits| - 1];
      SameForParts(things, other, edits);
      ReplayedSameThings(engine, things, other, content, init);
      assert WorkerEditOf(things, last) == WorkerEditOf(other, last);
    }
  }

  lemma SameForParts(things: Things, other: Things, edits: seq<Edit>)
    requires edits != [] && things.SameFor(other, edits)
    ensures things.SameFor(other, edits[..|edits| - 1])
    ensures WorkerEditOf(things, edits[|edits| - 1]) == WorkerEditOf(other, edits[|edits| - 1])
  {
    var k := |edits| - 1;
    var init := edits[..k];
    forall id | id in SourcesOf(init) ensures id in SourcesOf(edits) {
      var i :| 0 <= i < |init| && id in SourceOf(init[i]);
      assert edits[i] == init[i];
    }
    forall id | id in PicturesOf(init) ensures id in PicturesOf(edits) {
      var i :| 0 <= i < |init| && id in PictureOf(init[i]);
      assert edits[i] == init[i];
    }
    forall id | id in ModelsOf(init) ensures id in ModelsOf(edits) {
      var i :| 0 <= i < |init| && id in ModelOf(init[i]);
      assert edits[i] == init[i];
    }
    var last := edits[k];
    forall id | id in SourceOf(last) ensures things.sources.Get(id) == other.sources.Get(id) {
      assert id in SourcesOf(edits);
    }
    forall id | id in PictureOf(last) ensures things.pictures.Get(id) == other.pictures.Get(id) {
      assert id in PicturesOf(edits);
    }
    forall id | id in ModelOf(last) ensures things.models.Get(id) == other.models.Get(id) {
      assert id in ModelsOf(edits);
    }
    SameForOne(things, other, last);
  }

  lemma SameForOne(things: Things, other: Things, edit: Edit)
    requires forall id :: id in SourceOf(edit) ==> things.sources.Get(id) == other.sources.Get(id)
    requires forall id :: id in PictureOf(edit) ==> things.pictures.Get(id) == other.pictures.Get(id)
    requires forall id :: id in ModelOf(edit) ==> things.models.Get(id) == other.models.Get(id)
    ensures WorkerEditOf(things, edit) == WorkerEditOf(other, edit)
  {
    match edit
    case InsertPages(_, source) =>
      assert source in SourceOf(edit);
    case AddImageStamp(_, image, _) =>
      assert image in PictureOf(edit);
    case AddTextBox(_, model, _) =>
      assert model in ModelOf(edit);
    case SetTextBox(_, Some(model), _) =>
      assert model in ModelOf(edit);
    case _ =>
  }

  /** A revert makes of the kept bytes what replaying the edits would. */
  lemma {:induction false} RevertReplays(engine: Engine, things: Things, content: Content, edits: seq<Edit>)
    requires Replayed(engine, things, content, edits).Some?
    ensures WorkerEditsOf(things, edits).Some?
    ensures ApplyAll(engine, content, WorkerEditsOf(things, edits).value) == Replayed(engine, things, content, edits)
    ensures edits != [] ==> ValidPages(engine.pages(Replayed(engine, things, content, edits).value))
    decreases |edits|
  {
    if edits != [] {
      var init := edits[..|edits| - 1];
      RevertReplays(engine, things, content, init);
      var asked := WorkerEditsOf(things, edits).value;
      assert asked[..|asked| - 1] == WorkerEditsOf(things, init).value;
    }
  }

  // ----- requests that go wrong

  /** A process that crashed, hung or broke the protocol is gone with all it had; after anything else it is as it was. */
  predicate LeftBy(fault: Fault, before: Host, after: Host)
  {
    && after.sent == before.sent + 1 && before.next <= after.next
    && after.copies == if fault.Fails? && fault.error in {Crashed, Timeout, Violation} then map[] else before.copies
  }

  ghost predicate AnsweredBy<T>(fault: Fault, answer: Answer<T>)
  {
    match fault
    case Fine => answer.Expected?
    case Fails(error) => answer == Failed(error)
    case HalfDone(limit, _) => answer == Failed(Reported(if limit then LimitExceeded else Internal))
    case Nonsense => answer.Unexpected?
  }

  /** What any request that goes wrong leaves: only an edit made in part leaves a copy that is neither as it was nor gone. */
  lemma GoneWrong(engine: Engine, host: Host, id: nat, edit: WorkerEdit, edits: seq<WorkerEdit>, content: Content,
    password: Option<Password>, identifier: Option<nat>)
    requires !engine.fault(host.sent).Fine?
    ensures var fault := engine.fault(host.sent);
      var read, reverted := Open(engine, host, content, password), Revert(engine, host, id, edits, password);
      var saved, marked := Save(engine, host, id), WriteIdentifier(engine, host, id, identifier);
      var rebased, asked, edited := Rebase(engine, host, id, content), Ask(engine, host), Edit(engine, host, id, edit);
      && LeftBy(fault, host, read.0) && AnsweredBy(fault, read.1)
      && LeftBy(fault, host, reverted.0) && AnsweredBy(fault, reverted.1)
      && LeftBy(fault, host, saved.0) && AnsweredBy(fault, saved.1)
      && LeftBy(fault, host, marked.0) && AnsweredBy(fault, marked.1)
      && LeftBy(fault, host, rebased.0) && AnsweredBy(fault, rebased.1)
      && LeftBy(fault, host, asked.0) && AnsweredBy(fault, asked.1)
      && AnsweredBy(fault, edited.1)
      && if fault.HalfDone? && id in host.copies then
           edited.0.copies == host.copies[id := Copy(fault.copy, host.copies[id].original)] && edited.0.sent == host.sent + 1
         else LeftBy(fault, host, edited.0)
  {
  }
}
