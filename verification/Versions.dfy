/**
 * The numbers the page knows documents by (src-tauri/src/documents.rs:366-425, 482-508, 652, 703,
 * 735, 782, 2655-2710, 2813-2841). Threads work at once: a command looks its document up by the
 * number last told, waits for the document's lock, and only then compares the number. A command
 * that changes the pages gives the document another number, so the number is a version: of all
 * commands naming one at most one can change the document.
 */
module Versions {
  import opened Basics

  type TabId = nat
  type ThreadId = nat
  type DocId = nat

  /** What a command does to its document's number: another one, the same, or it changes nothing. */
  datatype Kind = Renumbers | Keeps | Reads

  /**
   * A tab: the number in the event last told, the number of the document itself, and the thread
   * that holds the document's lock. A closed tab is no longer looked up.
   */
  datatype Tab = Tab(told: Option<DocId>, doc: Option<DocId>, held: Option<ThreadId>, closed: bool)

  datatype Phase =
    | Idle
    /** The file is being opened; the document has its number. */
    | Opening(tab: TabId, id: DocId)
    /** The number was told; the document is not in its tab yet. */
    | Putting(tab: TabId, id: DocId)
    /** The document was found by its number; its lock is waited for. */
    | Waiting(tab: TabId, id: DocId, kind: Kind)
    /** The lock is held and the document has the number named. */
    | Working(tab: TabId, id: DocId, kind: Kind)
    /** The lock was let go; the document's state is about to be told. */
    | Telling(tab: TabId, id: DocId)

  /** A command that changed a document: the number it named, and the one it left. */
  datatype Success = Success(tab: TabId, named: DocId, next: DocId)

  /** `drawn[n]` is the tab number `n` was drawn for: the next one is `|drawn|`. */
  datatype State = State(drawn: seq<TabId>, tabs: map<TabId, Tab>, threads: map<ThreadId, Phase>, log: seq<Success>)

  datatype Action =
    | Open(thread: ThreadId, tab: TabId)
    | Announce(thread: ThreadId)
    | Put(thread: ThreadId)
    | LookUp(thread: ThreadId, tab: TabId, id: DocId, kind: Kind)
    | Lock(thread: ThreadId)
    | Succeed(thread: ThreadId)
    | Fail(thread: ThreadId)
    | Lose(thread: ThreadId)
    | Tell(thread: ThreadId)
    /** A state told again without a number named (passwords forgotten). */
    | Refresh(thread: ThreadId, tab: TabId)
    | Close(thread: ThreadId, tab: TabId)

  function PhaseOf(s: State, thread: ThreadId): Phase
  {
    if thread in s.threads then s.threads[thread] else Idle
  }

  function To(s: State, thread: ThreadId, phase: Phase): State
  {
    s.(threads := s.threads[thread := phase])
  }

  function With(s: State, tab: TabId, t: Tab): State
  {
    s.(tabs := s.tabs[tab := t])
  }

  /** No other thread has the tab's file in hand: a tab is opened by one at a time. */
  predicate BeingOpened(s: State, tab: TabId)
  {
    exists thread :: thread in s.threads
      && (s.threads[thread].Opening? || s.threads[thread].Putting?) && s.threads[thread].tab == tab
  }

  /** What a thread may do next, and what that does; `None` when it cannot. */
  function Next(s: State, action: Action): Option<State>
  {
    match action
    case Open(thread, tab) =>
      if !PhaseOf(s, thread).Idle? || BeingOpened(s, tab) then None
      else if tab in s.tabs && (s.tabs[tab].doc.Some? || s.tabs[tab].held.Some? || s.tabs[tab].closed) then None
      else
        var t := if tab in s.tabs then s.tabs[tab] else Tab(None, None, None, false);
        Some(To(With(s, tab, t), thread, Opening(tab, |s.drawn|)).(drawn := s.drawn + [tab]))
    case Announce(thread) =>
      var p := PhaseOf(s, thread);
      if !p.Opening? || p.tab !in s.tabs then None
      else if s.tabs[p.tab].closed then Some(To(s, thread, Idle))
      else Some(To(With(s, p.tab, s.tabs[p.tab].(told := Some(p.id))), thread, Putting(p.tab, p.id)))
    case Put(thread) =>
      var p := PhaseOf(s, thread);
      if !p.Putting? || p.tab !in s.tabs || s.tabs[p.tab].held.Some? then None
      else Some(To(With(s, p.tab, s.tabs[p.tab].(doc := Some(p.id))), thread, Idle))
    case LookUp(thread, tab, id, kind) =>
      if !PhaseOf(s, thread).Idle? || tab !in s.tabs || s.tabs[tab].closed || s.tabs[tab].told != Some(id) then None
      else Some(To(s, thread, Waiting(tab, id, kind)))
    case Lock(thread) =>
      var p := PhaseOf(s, thread);
      if !p.Waiting? || p.tab !in s.tabs || s.tabs[p.tab].held.Some? then None
      else if s.tabs[p.tab].doc != Some(p.id) then Some(To(s, thread, Idle))
      else Some(To(With(s, p.tab, s.tabs[p.tab].(held := Some(thread))), thread, Working(p.tab, p.id, p.kind)))
    case Succeed(thread) =>
      var p := PhaseOf(s, thread);
      if !p.Working? || p.tab !in s.tabs then None
      else
        var t := s.tabs[p.tab].(held := None);
        (match p.kind
         case Renumbers =>
           var id := |s.drawn|;
           Some(To(With(s, p.tab, t.(doc := Some(id))), thread, Telling(p.tab, id)).(
             drawn := s.drawn + [p.tab], log := s.log + [Success(p.tab, p.id, id)]))
         case Keeps => Some(To(With(s, p.tab, t), thread, Telling(p.tab, p.id)))
         case Reads => Some(To(With(s, p.tab, t), thread, Idle)))
    case Fail(thread) =>
      var p := PhaseOf(s, thread);
      if !p.Working? || p.tab !in s.tabs then None
      else Some(To(With(s, p.tab, s.tabs[p.tab].(held := None)), thread, Idle))
    case Lose(thread) =>
      var p := PhaseOf(s, thread);
      if !p.Working? || p.tab !in s.tabs then None
      else Some(To(With(s, p.tab, s.tabs[p.tab].(held := None, doc := None)), thread, Idle))
    case Tell(thread) =>
      var p := PhaseOf(s, thread);
      if !p.Telling? || p.tab !in s.tabs then None
      else Some(To(With(s, p.tab, s.tabs[p.tab].(told := Some(p.id))), thread, Idle))
    case Refresh(thread, tab) =>
      if !PhaseOf(s, thread).Idle? || tab !in s.tabs || s.tabs[tab].held.Some? || s.tabs[tab].doc.None? then None
      else Some(To(s, thread, Telling(tab, s.tabs[tab].doc.value)))
    case Close(thread, tab) =>
      if !PhaseOf(s, thread).Idle? || tab !in s.tabs || s.tabs[tab].held.Some? then None
      else Some(To(With(s, tab, s.tabs[tab].(doc := None, closed := true)), thread, Idle))
  }

  const START := State([], map[], map[], [])

  // ----- what every interleaving keeps

  /** A number is of the tab it was drawn for. */
  predicate Of(s: State, id: DocId, tab: TabId) { id < |s.drawn| && s.drawn[id] == tab }

  /** Every change of the tab's document named a number before `id`. */
  ghost predicate Retired(s: State, tab: TabId, id: DocId)
  {
    forall k :: 0 <= k < |s.log| && s.log[k].tab == tab ==> s.log[k].named < id
  }

  ghost predicate TabOk(s: State, tab: TabId)
    requires tab in s.tabs
  {
    var t := s.tabs[tab];
    && (t.told.Some? ==> Of(s, t.told.value, tab))
    && (t.doc.Some? ==> Of(s, t.doc.value, tab) && Retired(s, tab, t.doc.value))
    && (t.held.Some? ==> PhaseOf(s, t.held.value).Working? && PhaseOf(s, t.held.value).tab == tab)
  }

  ghost predicate PhaseOk(s: State, thread: ThreadId)
  {
    match PhaseOf(s, thread)
    case Idle => true
    case Opening(tab, id) => tab in s.tabs && Of(s, id, tab) && Retired(s, tab, id) && s.tabs[tab].doc.None?
    case Putting(tab, id) => tab in s.tabs && Of(s, id, tab) && Retired(s, tab, id) && s.tabs[tab].doc.None?
    case Waiting(tab, id, _) => tab in s.tabs && Of(s, id, tab)
    case Working(tab, id, _) => tab in s.tabs && s.tabs[tab].held == Some(thread) && s.tabs[tab].doc == Some(id)
    case Telling(tab, id) => tab in s.tabs && Of(s, id, tab)
  }

  /** No number was named by two changes; each left a number drawn for its tab. */
  ghost predicate LogOk(s: State)
  {
    && (forall k :: 0 <= k < |s.log| ==> Of(s, s.log[k].named, s.log[k].tab) && Of(s, s.log[k].next, s.log[k].tab)
                                         && s.log[k].named < s.log[k].next)
    && (forall j, k :: 0 <= j < k < |s.log| ==> s.log[j].named != s.log[k].named && s.log[j].next != s.log[k].next)
  }

  /** One thread at most opens a tab. */
  ghost predicate OpenersOk(s: State)
  {
    forall a, b | a in s.threads && b in s.threads && Opener(s.threads[a]) && Opener(s.threads[b]) ::
      s.threads[a].tab == s.threads[b].tab ==> a == b
  }

  predicate Opener(p: Phase) { p.Opening? || p.Putting? }

  ghost predicate Inv(s: State)
  {
    && (forall tab :: tab in s.tabs ==> TabOk(s, tab))
    && (forall thread :: thread in s.threads ==> PhaseOk(s, thread))
    && LogOk(s) && OpenersOk(s)
  }

  lemma StartIsOk()
    ensures Inv(START)
  {
  }

  /** What a step may do to everything but the one tab and the one thread it is about. */
  ghost predicate Elsewhere(s: State, t: State, tab: TabId, thread: ThreadId)
  {
    && |s.drawn| <= |t.drawn| && s.drawn == t.drawn[..|s.drawn|]
    && (t.log == s.log || (|t.log| == |s.log| + 1 && t.log[..|s.log|] == s.log && t.log[|s.log|].tab == tab))
    && (forall other :: other in s.tabs ==> other in t.tabs)
    && (forall other :: other in t.tabs && other != tab ==> other in s.tabs && t.tabs[other] == s.tabs[other])
    && (forall other :: other in t.threads && other != thread ==> other in s.threads && t.threads[other] == s.threads[other])
    && (forall other :: other in s.threads && other != thread ==> other in t.threads)
  }

  /** The threads and tabs a step is not about are in order after it. */
  lemma OthersKeep(s: State, t: State, tab: TabId, thread: ThreadId)
    requires Inv(s) && Elsewhere(s, t, tab, thread) && tab in t.tabs
    requires TabOk(t, tab) && PhaseOk(t, thread) && LogOk(t)
    requires thread in t.threads && Opener(t.threads[thread]) ==>
      t.threads[thread].tab == tab
      && forall a :: a in s.threads && Opener(s.threads[a]) && a != thread ==> s.threads[a].tab != tab
    // What the tab's other threads rest on.
    requires tab in s.tabs ==> forall a :: a in s.threads && a != thread ==> Rests(s, t, tab, a)
    requires tab !in s.tabs ==> t.log == s.log && t.tabs[tab].doc.None? && t.tabs[tab].held.None?
    // The thread holds no other tab's lock any more, if it did.
    requires forall other :: other in s.tabs && other != tab ==> s.tabs[other].held != Some(thread)
    ensures Inv(t)
  {
    assert OpenersOk(t);
    hide OpenersOk, LogOk;
    forall other | other in t.tabs ensures TabOk(t, other) {
      if other != tab { OtherTab(s, t, tab, thread, other); }
    }
    forall a | a in t.threads ensures PhaseOk(t, a) {
      if a != thread { OtherThread(s, t, tab, thread, a); }
    }
  }

  lemma OtherTab(s: State, t: State, tab: TabId, thread: ThreadId, other: TabId)
    requires Elsewhere(s, t, tab, thread) && other in t.tabs && other != tab && other in s.tabs && TabOk(s, other)
    requires s.tabs[other].held != Some(thread)
    ensures TabOk(t, other)
  {
  }

  lemma OtherThread(s: State, t: State, tab: TabId, thread: ThreadId, a: ThreadId)
    requires Elsewhere(s, t, tab, thread) && a in t.threads && a != thread && a in s.threads && PhaseOk(s, a)
    requires tab in t.tabs && (tab in s.tabs ==> Rests(s, t, tab, a))
    requires tab !in s.tabs ==> t.log == s.log && t.tabs[tab].doc.None? && t.tabs[tab].held.None?
    ensures PhaseOk(t, a)
  {
  }

  /** The step leaves what thread `a` needs of the tab. */
  ghost predicate Rests(s: State, t: State, tab: TabId, a: ThreadId)
    requires tab in s.tabs && tab in t.tabs && a in s.threads
  {
    match s.threads[a]
    case Opening(of, id) => of == tab ==> t.tabs[tab].doc.None? && t.log == s.log
    case Putting(of, id) => of == tab ==> t.tabs[tab].doc.None? && t.log == s.log
    case Working(of, id, _) => of == tab ==> t.tabs[tab].held == s.tabs[tab].held && t.tabs[tab].doc == s.tabs[tab].doc
    case _ => true
  }

  /** The tab an action is about. */
  function About(s: State, action: Action): TabId
  {
    match action
    case Open(_, tab) => tab
    case LookUp(_, tab, _, _) => tab
    case Refresh(_, tab) => tab
    case Close(_, tab) => tab
    case _ =>
      var p := PhaseOf(s, action.thread);
      if p.Idle? then 0 else p.tab
  }

  /** A tab that is locked is locked by the thread that works on it, and no other. */
  lemma HeldByWorker(s: State, thread: ThreadId, tab: TabId)
    requires Inv(s) && tab in s.tabs && s.tabs[tab].held == Some(thread)
    ensures PhaseOf(s, thread).Working? && PhaseOf(s, thread).tab == tab
  {
  }

  lemma OpenKeeps(s: State, thread: ThreadId, tab: TabId)
    requires Inv(s) && Next(s, Open(thread, tab)).Some?
    ensures Inv(Next(s, Open(thread, tab)).value)
  {
    var t := Next(s, Open(thread, tab)).value;
    if tab in s.tabs { assert TabOk(s, tab); }
    forall other | other in s.tabs && other != tab ensures s.tabs[other].held != Some(thread) {
      if s.tabs[other].held == Some(thread) { HeldByWorker(s, thread, other); }
    }
    forall a | a in s.threads && Opener(s.threads[a]) ensures s.threads[a].tab != tab {
      if s.threads[a].tab == tab { assert BeingOpened(s, tab); }
    }
    forall a | a in s.threads && a != thread && tab in s.tabs ensures Rests(s, t, tab, a) { assert PhaseOk(s, a); }
    OthersKeep(s, t, tab, thread);
  }

  /** The one step that draws a number for a document that has one. */
  lemma RenumberKeeps(s: State, thread: ThreadId)
    requires Inv(s) && Next(s, Succeed(thread)).Some? && PhaseOf(s, thread).kind.Renumbers?
    ensures Inv(Next(s, Succeed(thread)).value)
  {
    var t := Next(s, Succeed(thread)).value;
    var p := PhaseOf(s, thread);
    assert TabOk(s, p.tab) && PhaseOk(s, thread);
    forall other | other in s.tabs && other != p.tab ensures s.tabs[other].held != Some(thread) {
      if s.tabs[other].held == Some(thread) { HeldByWorker(s, thread, other); }
    }
    forall a | a in s.threads && a != thread ensures Rests(s, t, p.tab, a) { assert PhaseOk(s, a); }
    LoggedOnce(s, t, p);
    assert t.drawn[..|s.drawn|] == s.drawn && t.log[..|s.log|] == s.log;
    hide Inv, LogOk, Next;
    assert Inv(s);
    OthersKeep(s, t, p.tab, thread);
  }

  lemma LoggedOnce(s: State, t: State, p: Phase)
    requires Inv(s) && p.Working? && p.tab in s.tabs && s.tabs[p.tab].doc == Some(p.id)
    requires t.drawn == s.drawn + [p.tab] && t.log == s.log + [Success(p.tab, p.id, |s.drawn|)]
    ensures LogOk(t) && Retired(t, p.tab, |s.drawn|)
  {
  }

  /** A step that draws no number, logs nothing, and changes one tab and one thread. */
  function Changed(s: State, tab: TabId, now: Tab, thread: ThreadId, phase: Phase): State
  {
    To(With(s, tab, now), thread, phase)
  }

  lemma ChangedKeeps(s: State, tab: TabId, now: Tab, thread: ThreadId, phase: Phase)
    requires Inv(s) && tab in s.tabs
    requires PhaseOf(s, thread).Idle? || PhaseOf(s, thread).tab == tab
    requires TabOk(Changed(s, tab, now, thread, phase), tab) && PhaseOk(Changed(s, tab, now, thread, phase), thread)
    requires Opener(phase) ==> Opener(PhaseOf(s, thread)) && phase.tab == PhaseOf(s, thread).tab
    requires forall a :: a in s.threads && a != thread ==> Rests(s, Changed(s, tab, now, thread, phase), tab, a)
    ensures Inv(Changed(s, tab, now, thread, phase))
  {
    var t := Changed(s, tab, now, thread, phase);
    forall other | other in s.tabs && other != tab ensures s.tabs[other].held != Some(thread) {
      if s.tabs[other].held == Some(thread) { HeldByWorker(s, thread, other); }
    }
    assert t.drawn[..|s.drawn|] == s.drawn;
    OthersKeep(s, t, tab, thread);
  }

  /** Nothing of the tab changes that its other threads rest on. */
  lemma SameForOthers(s: State, tab: TabId, now: Tab, thread: ThreadId, phase: Phase)
    requires Inv(s) && tab in s.tabs && now.doc == s.tabs[tab].doc
    requires now.held == s.tabs[tab].held || s.tabs[tab].held == None || s.tabs[tab].held == Some(thread)
    ensures forall a :: a in s.threads && a != thread ==> Rests(s, Changed(s, tab, now, thread, phase), tab, a)
  {
  }

  lemma AnnounceKeeps(s: State, thread: ThreadId)
    requires Inv(s) && Next(s, Announce(thread)).Some?
    ensures Inv(Next(s, Announce(thread)).value)
  {
    var p := PhaseOf(s, thread);
    assert TabOk(s, p.tab) && PhaseOk(s, thread);
    var now := if s.tabs[p.tab].closed then s.tabs[p.tab] else s.tabs[p.tab].(told := Some(p.id));
    var phase := if s.tabs[p.tab].closed then Idle else Putting(p.tab, p.id);
    assert s.tabs[p.tab := s.tabs[p.tab]] == s.tabs;
    SameForOthers(s, p.tab, now, thread, phase);
    ChangedKeeps(s, p.tab, now, thread, phase);
  }

  lemma PutKeeps(s: State, thread: ThreadId)
    requires Inv(s) && Next(s, Put(thread)).Some?
    ensures Inv(Next(s, Put(thread)).value)
  {
  }

  lemma LookUpKeeps(s: State, thread: ThreadId, tab: TabId, id: DocId, kind: Kind)
    requires Inv(s) && Next(s, LookUp(thread, tab, id, kind)).Some?
    ensures Inv(Next(s, LookUp(thread, tab, id, kind)).value)
  {
  }

  lemma LockKeeps(s: State, thread: ThreadId)
    requires Inv(s) && Next(s, Lock(thread)).Some?
    ensures Inv(Next(s, Lock(thread)).value)
  {
    var p := PhaseOf(s, thread);
    assert TabOk(s, p.tab) && PhaseOk(s, thread);
    var found := s.tabs[p.tab].doc == Some(p.id);
    var now := if found then s.tabs[p.tab].(held := Some(thread)) else s.tabs[p.tab];
    var phase := if found then Working(p.tab, p.id, p.kind) else Idle;
    assert s.tabs[p.tab := s.tabs[p.tab]] == s.tabs;
    SameForOthers(s, p.tab, now, thread, phase);
    ChangedKeeps(s, p.tab, now, thread, phase);
  }

  /** The lock is let go, with the document as it was or, its worker lost for good, without it. */
  lemma ReleaseKeeps(s: State, thread: ThreadId, phase: Phase, gone: bool)
    requires Inv(s) && PhaseOf(s, thread).Working? && PhaseOf(s, thread).tab in s.tabs
    requires phase.Idle? || (phase == Telling(PhaseOf(s, thread).tab, PhaseOf(s, thread).id))
    ensures var p := PhaseOf(s, thread);
      var now := s.tabs[p.tab].(held := None);
      Inv(Changed(s, p.tab, if gone then now.(doc := None) else now, thread, phase))
  {
    var p := PhaseOf(s, thread);
    assert TabOk(s, p.tab) && PhaseOk(s, thread);
    var now := if gone then s.tabs[p.tab].(held := None, doc := None) else s.tabs[p.tab].(held := None);
    forall a | a in s.threads && a != thread ensures Rests(s, Changed(s, p.tab, now, thread, phase), p.tab, a) {
      assert PhaseOk(s, a);
    }
    ChangedKeeps(s, p.tab, now, thread, phase);
  }

  lemma TellKeeps(s: State, thread: ThreadId)
    requires Inv(s) && Next(s, Tell(thread)).Some?
    ensures Inv(Next(s, Tell(thread)).value)
  {
    var p := PhaseOf(s, thread);
    assert TabOk(s, p.tab) && PhaseOk(s, thread);
    var now := s.tabs[p.tab].(told := Some(p.id));
    SameForOthers(s, p.tab, now, thread, Idle);
    ChangedKeeps(s, p.tab, now, thread, Idle);
  }

  lemma RefreshKeeps(s: State, thread: ThreadId, tab: TabId)
    requires Inv(s) && Next(s, Refresh(thread, tab)).Some?
    ensures Inv(Next(s, Refresh(thread, tab)).value)
  {
  }

  lemma CloseKeeps(s: State, thread: ThreadId, tab: TabId)
    requires Inv(s) && Next(s, Close(thread, tab)).Some?
    ensures Inv(Next(s, Close(thread, tab)).value)
  {
  }

  lemma SucceedKeeps(s: State, thread: ThreadId)
    requires Inv(s) && Next(s, Succeed(thread)).Some?
    ensures Inv(Next(s, Succeed(thread)).value)
  {
    var p := PhaseOf(s, thread);
    match p.kind
    case Renumbers => RenumberKeeps(s, thread);
    case Keeps => ReleaseKeeps(s, thread, Telling(p.tab, p.id), false);
    case Reads => ReleaseKeeps(s, thread, Idle, false);
  }

  /** However the threads take turns, every step keeps the numbers in order. */
  lemma NextKeeps(s: State, action: Action)
    requires Inv(s) && Next(s, action).Some?
    ensures Inv(Next(s, action).value)
  {
    hide Inv;
    match action
    case Open(thread, tab) => OpenKeeps(s, thread, tab);
    case Announce(thread) => AnnounceKeeps(s, thread);
    case Put(thread) => PutKeeps(s, thread);
    case LookUp(thread, tab, id, kind) => LookUpKeeps(s, thread, tab, id, kind);
    case Lock(thread) => LockKeeps(s, thread);
    case Succeed(thread) => SucceedKeeps(s, thread);
    case Fail(thread) => ReleaseKeeps(s, thread, Idle, false);
    case Lose(thread) => ReleaseKeeps(s, thread, Idle, true);
    case Tell(thread) => TellKeeps(s, thread);
    case Refresh(thread, tab) => RefreshKeeps(s, thread, tab);
    case Close(thread, tab) => CloseKeeps(s, thread, tab);
  }

  // ----- what the numbers are good for

  /** Work is only ever done on a document that has the number named, by one thread at a time. */
  lemma WorksOnWhatWasNamed(s: State, a: ThreadId, b: ThreadId)
    requires Inv(s) && a in s.threads && s.threads[a].Working?
    ensures s.threads[a].tab in s.tabs && s.tabs[s.threads[a].tab].doc == Some(s.threads[a].id)
    ensures b in s.threads && s.threads[b].Working? && s.threads[b].tab == s.threads[a].tab ==> a == b
  {
  }

  /** No two documents have the same number. */
  lemma NumbersDiffer(s: State, a: TabId, b: TabId)
    requires Inv(s) && a in s.tabs && b in s.tabs && s.tabs[a].doc.Some? && s.tabs[a].doc == s.tabs[b].doc
    ensures a == b
  {
  }

  ghost predicate IsRun(states: seq<State>, actions: seq<Action>)
  {
    && |states| == |actions| + 1 && states[0] == START
    && (forall i :: 0 <= i < |actions| ==> Next(states[i], actions[i]) == Some(states[i + 1]))
  }

  lemma {:induction false} RunKeeps(states: seq<State>, actions: seq<Action>, n: nat)
    requires IsRun(states, actions) && n <= |actions|
    ensures Inv(states[n])
    decreases n
  {
    hide Inv, Next;
    if n == 0 {
      StartIsOk();
    } else {
      RunKeeps(states, actions, n - 1);
      assert Next(states[n - 1], actions[n - 1]) == Some(states[n]);
      NextKeeps(states[n - 1], actions[n - 1]);
    }
  }

  /** Step `i` of a run is a command that named `id` and changed its document. */
  predicate Changes(s: State, action: Action, id: DocId)
  {
    action.Succeed? && PhaseOf(s, action.thread).Working? && PhaseOf(s, action.thread).kind.Renumbers?
    && PhaseOf(s, action.thread).id == id
  }

  lemma {:induction false} LogGrows(states: seq<State>, actions: seq<Action>, i: nat, j: nat)
    requires IsRun(states, actions) && i <= j <= |actions|
    ensures states[i].log <= states[j].log
    decreases j
  {
    if i < j {
      LogGrows(states, actions, i, j - 1);
      assert Next(states[j - 1], actions[j - 1]) == Some(states[j]);
    }
  }

  /** Of all commands that name a number, in any interleaving, at most one changes its document. */
  lemma AtMostOneChanges(states: seq<State>, actions: seq<Action>, id: DocId, i: nat, j: nat)
    requires IsRun(states, actions) && i <= j < |actions|
    requires Changes(states[i], actions[i], id) && Changes(states[j], actions[j], id)
    ensures i == j
  {
    if i < j {
      assert Next(states[i], actions[i]) == Some(states[i + 1]);
      RunKeeps(states, actions, i);
      RunKeeps(states, actions, j);
      LogGrows(states, actions, i + 1, j);
      var tab := PhaseOf(states[i], actions[i].thread).tab;
      var k := |states[i].log|;
      assert states[i + 1].log[k] == states[j].log[k] == Success(tab, id, |states[i].drawn|);
      NamedIsGone(states[j], actions[j].thread, k);
    }
  }

  /** What a change named is not the number of any document worked on. */
  lemma NamedIsGone(s: State, thread: ThreadId, k: nat)
    requires Inv(s) && k < |s.log| && PhaseOf(s, thread).Working?
    ensures PhaseOf(s, thread).id != s.log[k].named
  {
  }

  // ----- nobody waits for good

  /** A command finds a document by exactly the number last told of its open tab, and works on it if it still has that. */
  lemma FoundExactlyWhen(s: State, thread: ThreadId, tab: TabId, id: DocId, kind: Kind)
    requires PhaseOf(s, thread).Idle?
    ensures var t := Next(s, LookUp(thread, tab, id, kind));
      && (t.Some? <==> tab in s.tabs && !s.tabs[tab].closed && s.tabs[tab].told == Some(id))
      && (t.Some? && s.tabs[tab].held.None? ==>
            && Next(t.value, Lock(thread)).Some?
            && (PhaseOf(Next(t.value, Lock(thread)).value, thread) == Working(tab, id, kind) <==> s.tabs[tab].doc == Some(id))
            && (PhaseOf(Next(t.value, Lock(thread)).value, thread).Idle? <==> s.tabs[tab].doc != Some(id)))
  {
  }

  /** A file is opened in a tab exactly when no thread opens one there, and it has no document and was not closed. */
  lemma OpensExactlyWhen(s: State, thread: ThreadId, tab: TabId)
    requires PhaseOf(s, thread).Idle?
    ensures Next(s, Open(thread, tab)).Some?
      <==> && (forall a :: a in s.threads && Opener(s.threads[a]) ==> s.threads[a].tab != tab)
           && (tab in s.tabs ==> s.tabs[tab].doc.None? && s.tabs[tab].held.None? && !s.tabs[tab].closed)
    ensures Next(s, Open(thread, tab)).Some? ==>
      var t := Next(s, Open(thread, tab)).value;
      && PhaseOf(t, thread) == Opening(tab, |s.drawn|) && tab in t.tabs
      && (tab in s.tabs ==> t.tabs == s.tabs)
      && (tab !in s.tabs ==> t.tabs[tab] == Tab(None, None, None, false))
  {
  }

  /** A tab is closed unless its document is worked on; then it is told of nothing any more, and nothing is opened in it. */
  lemma ClosesExactlyWhen(s: State, thread: ThreadId, tab: TabId)
    requires PhaseOf(s, thread).Idle?
    ensures Next(s, Close(thread, tab)).Some? <==> tab in s.tabs && s.tabs[tab].held.None?
    ensures Next(s, Close(thread, tab)).Some? ==>
      var t := Next(s, Close(thread, tab)).value;
      && t.tabs[tab].closed && t.tabs[tab].doc.None?
      && (forall a, id, kind :: Next(t, LookUp(a, tab, id, kind)).None?)
      && (forall a :: Next(t, Open(a, tab)).None?)
      && (forall a :: PhaseOf(s, a).Opening? && PhaseOf(s, a).tab == tab ==>
            && Next(t, Announce(a)).Some? && PhaseOf(Next(t, Announce(a)).value, a).Idle?
            && Next(t, Announce(a)).value.tabs == t.tabs)
  {
  }

  /**
   * Work that fails leaves the document as it was, under its number; one that is given up is gone from its
   * tab, and who waited for it finds nothing; either way the lock is free.
   */
  lemma GivesUpExactly(s: State, thread: ThreadId)
    requires thread in s.threads && PhaseOk(s, thread) && s.threads[thread].Working?
    ensures var tab := s.threads[thread].tab;
      && tab in s.tabs
      && Next(s, Fail(thread)) == Some(s.(tabs := s.tabs[tab := s.tabs[tab].(held := None)], threads := s.threads[thread := Idle]))
      && Next(s, Lose(thread)).Some?
      && var t := Next(s, Lose(thread)).value;
      && t.tabs[tab].doc.None? && t.tabs[tab].held.None? && t.tabs[tab].told == s.tabs[tab].told && PhaseOf(t, thread).Idle?
      && (forall a :: a != thread && PhaseOf(s, a).Waiting? && PhaseOf(s, a).tab == tab ==>
            && Next(t, Lock(a)).Some? && PhaseOf(Next(t, Lock(a)).value, a).Idle?)
      && (forall other :: other in s.tabs && other != tab ==> other in t.tabs && t.tabs[other] == s.tabs[other])
  {
  }

  /** A document's state is told again while nobody works on it, under the number it has. */
  lemma RefreshesExactlyWhen(s: State, thread: ThreadId, tab: TabId)
    requires PhaseOf(s, thread).Idle?
    ensures var t := Next(s, Refresh(thread, tab));
      && (t.Some? <==> tab in s.tabs && s.tabs[tab].held.None? && s.tabs[tab].doc.Some?)
      && (t.Some? ==> t.value.tabs == s.tabs && PhaseOf(t.value, thread) == Telling(tab, s.tabs[tab].doc.value))
  {
  }

  /** What a thread does next, if nothing fails. */
  function OnWith(thread: ThreadId, p: Phase): Action
    requires !p.Idle?
  {
    match p
    case Opening(_, _) => Announce(thread)
    case Putting(_, _) => Put(thread)
    case Waiting(_, _, _) => Lock(thread)
    case Working(_, _, _) => Succeed(thread)
    case Telling(_, _) => Tell(thread)
  }

  /** How many steps a thread has left at most. */
  function Left(p: Phase): nat
  {
    match p
    case Idle => 0
    case Opening(_, _) => 2
    case Putting(_, _) => 1
    case Waiting(_, _, _) => 3
    case Working(_, _, _) => 2
    case Telling(_, _) => 1
  }

  /** A thread goes on by itself, nearer to its end; other threads stay where they are. */
  predicate GoesOn(s: State, thread: ThreadId)
  {
    && thread in s.threads && !s.threads[thread].Idle?
    && var t := Next(s, OnWith(thread, s.threads[thread]));
    && t.Some? && Left(PhaseOf(t.value, thread)) < Left(s.threads[thread])
    && t.value.threads.Keys == s.threads.Keys
    && (forall a :: a in s.threads && a != thread ==> t.value.threads[a] == s.threads[a])
  }

  /**
   * No deadlock: in every state of every run a thread that is not at rest goes on, or waits for a lock
   * that one holds who goes on.
   */
  lemma NoneWaitsForGood(states: seq<State>, actions: seq<Action>, n: nat, thread: ThreadId)
    requires IsRun(states, actions) && n <= |actions| && !PhaseOf(states[n], thread).Idle?
    ensures var s, p := states[n], PhaseOf(states[n], thread);
      || GoesOn(s, thread)
      || ((p.Waiting? || p.Putting?) && p.tab in s.tabs && s.tabs[p.tab].held.Some? && GoesOn(s, s.tabs[p.tab].held.value))
  {
    RunKeeps(states, actions, n);
    var s, p := states[n], PhaseOf(states[n], thread);
    assert PhaseOk(s, thread);
    if (p.Waiting? || p.Putting?) && s.tabs[p.tab].held.Some? {
      assert TabOk(s, p.tab);
      WorkerGoesOn(s, s.tabs[p.tab].held.value);
    } else {
      OwnStep(s, thread);
    }
  }

  lemma WorkerGoesOn(s: State, thread: ThreadId)
    requires Inv(s) && PhaseOf(s, thread).Working?
    ensures GoesOn(s, thread)
  {
    assert PhaseOk(s, thread);
    hide Inv;
  }

  lemma OwnStep(s: State, thread: ThreadId)
    requires thread in s.threads && PhaseOk(s, thread) && !s.threads[thread].Idle?
    requires s.threads[thread].Waiting? || s.threads[thread].Putting? ==> s.tabs[s.threads[thread].tab].held.None?
    ensures GoesOn(s, thread)
  {
  }

  // ----- when a document can be looked up

  predicate TellsOf(p: Phase, tab: TabId) { p.Telling? && p.tab == tab }

  predicate IsTold(s: State, tab: TabId) { exists a :: a in s.threads && TellsOf(s.threads[a], tab) }

  /** What is about to be told of the tab is the number its document has. */
  ghost predicate TellersOk(s: State, tab: TabId)
    requires tab in s.tabs
  {
    forall a :: a in s.threads && TellsOf(s.threads[a], tab) ==> s.tabs[tab].doc == Some(s.threads[a].id)
  }

  /** Another number than the document's is only told while a thread is about to tell that. */
  ghost predicate LastToldOk(s: State, tab: TabId)
    requires tab in s.tabs
  {
    s.tabs[tab].doc.Some? && s.tabs[tab].doc != s.tabs[tab].told ==> IsTold(s, tab)
  }

  ghost predicate PuttersOk(s: State, tab: TabId)
    requires tab in s.tabs
  {
    forall a :: a in s.threads && s.threads[a].Putting? && s.threads[a].tab == tab ==>
      s.tabs[tab].told == Some(s.threads[a].id)
  }

  ghost predicate ToldOk(s: State, tab: TabId)
    requires tab in s.tabs
  {
    s.tabs[tab].closed || (TellersOk(s, tab) && LastToldOk(s, tab) && PuttersOk(s, tab))
  }

  ghost predicate AllTold(s: State)
  {
    forall tab :: tab in s.tabs ==> ToldOk(s, tab)
  }

  /** The document gets another number, or goes, while a thread is still about to tell the one it has. */
  predicate Strands(s: State, action: Action)
  {
    && (action.Lose? || action.Succeed?)
    && var p := PhaseOf(s, action.thread);
    && p.Working? && p.tab in s.tabs && !s.tabs[p.tab].closed
    && (action.Lose? || p.kind.Renumbers?)
    && IsTold(s, p.tab)
  }

  /** A step about one tab leaves the others told. */
  lemma ToldElsewhere(s: State, t: State, tab: TabId, thread: ThreadId, other: TabId)
    requires Elsewhere(s, t, tab, thread) && other in s.tabs && other != tab && ToldOk(s, other)
    requires PhaseOf(s, thread).Idle? || PhaseOf(s, thread).tab == tab
    requires thread in t.threads ==> t.threads[thread].Idle? || t.threads[thread].tab == tab
    ensures other in t.tabs && ToldOk(t, other)
  {
    if IsTold(s, other) {
      var a :| a in s.threads && TellsOf(s.threads[a], other);
      assert a != thread && TellsOf(t.threads[a], other);
    }
  }

  /** Nothing is told of a tab while its file is opened. */
  lemma OpenedIsNotTold(s: State, tab: TabId)
    requires tab in s.tabs && !s.tabs[tab].closed && ToldOk(s, tab) && s.tabs[tab].doc.None?
    ensures !IsTold(s, tab)
  {
  }

  lemma AboutIsLocal(s: State, action: Action)
    requires Inv(s) && Next(s, action).Some?
    ensures var t := Next(s, action).value;
      var thread, tab := action.thread, About(s, action);
      && Elsewhere(s, t, tab, thread) && tab in t.tabs
      && (PhaseOf(s, thread).Idle? || PhaseOf(s, thread).tab == tab)
      && (thread in t.threads ==> t.threads[thread].Idle? || t.threads[thread].tab == tab)
  {
    if !PhaseOf(s, action.thread).Idle? { assert PhaseOk(s, action.thread); }
    hide PhaseOk, Inv;
    AboutIsElsewhere(s, action);
  }

  lemma AboutIsElsewhere(s: State, action: Action)
    requires Next(s, action).Some?
    requires PhaseOf(s, action.thread).Idle? || PhaseOf(s, action.thread).tab in s.tabs
    ensures Elsewhere(s, Next(s, action).value, About(s, action), action.thread)
  {
    var t := Next(s, action).value;
    assert s.drawn == t.drawn[..|s.drawn|] && s.log == t.log[..|s.log|];
  }

  /** The tab has the numbers it had, and the thread has nothing to tell, as before. */
  ghost predicate SameNumbers(s: State, t: State, tab: TabId, thread: ThreadId)
  {
    && tab in s.tabs && tab in t.tabs && !PhaseOf(s, thread).Telling?
    && t.tabs[tab] == s.tabs[tab].(held := t.tabs[tab].held)
    && (thread in t.threads ==> !t.threads[thread].Telling? && !t.threads[thread].Putting?)
    && (forall other :: other in s.threads && other != thread ==> other in t.threads && t.threads[other] == s.threads[other])
    && (forall other :: other in t.threads && other != thread ==> other in s.threads)
  }

  /** A step that leaves the numbers of its tab as they are, and tells none more and none less. */
  lemma ToldAsBefore(s: State, action: Action)
    requires Inv(s) && AllTold(s) && Next(s, action).Some?
    requires action.LookUp? || action.Lock? || action.Fail? || (action.Succeed? && PhaseOf(s, action.thread).kind.Reads?)
    ensures About(s, action) in Next(s, action).value.tabs
    ensures ToldOk(Next(s, action).value, About(s, action))
  {
    if action.thread in s.threads { assert PhaseOk(s, action.thread); }
    hide Inv, PhaseOk, ToldOk;
    LeavesNumbers(s, action);
    hide Next, About;
    NumbersStay(s, Next(s, action).value, About(s, action), action.thread);
  }

  lemma LeavesNumbers(s: State, action: Action)
    requires Next(s, action).Some? && (PhaseOf(s, action.thread).Idle? || PhaseOf(s, action.thread).tab in s.tabs)
    requires action.LookUp? || action.Lock? || action.Fail? || (action.Succeed? && PhaseOf(s, action.thread).kind.Reads?)
    ensures SameNumbers(s, Next(s, action).value, About(s, action), action.thread)
  {
  }

  lemma NumbersStay(s: State, t: State, tab: TabId, thread: ThreadId)
    requires SameNumbers(s, t, tab, thread) && ToldOk(s, tab)
    ensures ToldOk(t, tab)
  {
    if IsTold(s, tab) {
      var a :| a in s.threads && TellsOf(s.threads[a], tab);
      assert a != thread && TellsOf(t.threads[a], tab);
    }
  }

  /** A file is opened: its number is told before the document can be found by it. */
  lemma ToldOpening(s: State, action: Action)
    requires Inv(s) && AllTold(s) && Next(s, action).Some?
    requires action.Open? || action.Announce? || action.Put? || action.Close?
    ensures About(s, action) in Next(s, action).value.tabs
    ensures ToldOk(Next(s, action).value, About(s, action))
  {
    var thread, tab := action.thread, About(s, action);
    if thread in s.threads { assert PhaseOk(s, thread); }
    if tab in s.tabs {
      assert ToldOk(s, tab);
      if !s.tabs[tab].closed && s.tabs[tab].doc.None? { OpenedIsNotTold(s, tab); }
    }
  }

  /** What is told is the document's number, or about to be. */
  lemma ToldTelling(s: State, action: Action)
    requires Inv(s) && AllTold(s) && Next(s, action).Some?
    requires action.Tell? || action.Refresh? || (action.Succeed? && PhaseOf(s, action.thread).kind.Keeps?)
    ensures About(s, action) in Next(s, action).value.tabs
    ensures ToldOk(Next(s, action).value, About(s, action))
  {
    var t := Next(s, action).value;
    var thread, tab := action.thread, About(s, action);
    if thread in s.threads { assert PhaseOk(s, thread); }
    assert ToldOk(s, tab);
    if !action.Tell? {
      assert TellsOf(t.threads[thread], tab);
      assert IsTold(t, tab);
    }
  }

  /** A tab with a document is not given another. */
  lemma NonePuts(s: State, tab: TabId)
    requires Inv(s) && tab in s.tabs && s.tabs[tab].doc.Some?
    ensures forall a :: a in s.threads && s.threads[a].Putting? ==> s.threads[a].tab != tab
  {
  }

  /** The number changes, or the document goes: told well exactly when no thread is telling the old number. */
  lemma ToldChanging(s: State, action: Action)
    requires Inv(s) && AllTold(s) && Next(s, action).Some?
    requires action.Lose? || (action.Succeed? && PhaseOf(s, action.thread).kind.Renumbers?)
    ensures About(s, action) in Next(s, action).value.tabs
    ensures ToldOk(Next(s, action).value, About(s, action)) <==> !Strands(s, action)
  {
    var t := Next(s, action).value;
    var thread, tab := action.thread, About(s, action);
    assert PhaseOk(s, thread) && ToldOk(s, tab) && TabOk(s, tab);
    if action.Succeed? {
      assert TellsOf(t.threads[thread], tab);
      assert IsTold(t, tab);
    }
    if !s.tabs[tab].closed {
      if IsTold(s, tab) {
        var a :| a in s.threads && TellsOf(s.threads[a], tab);
        assert a != thread && TellsOf(t.threads[a], tab);
      }
      NonePuts(s, tab);
    }
  }

  /**
   * Each step leaves every document told, or about to be told, under the number it has, exactly
   * when it does not change the number that another thread is about to tell.
   */
  lemma NextTold(s: State, action: Action)
    requires Inv(s) && AllTold(s) && Next(s, action).Some?
    ensures AllTold(Next(s, action).value) <==> !Strands(s, action)
  {
    var t := Next(s, action).value;
    AboutIsLocal(s, action);
    assert ToldOk(t, About(s, action)) <==> !Strands(s, action) by { ToldAbout(s, action); }
    hide Inv, Next, ToldOk, About, Strands;
    forall other | other in t.tabs && other != About(s, action) ensures ToldOk(t, other) {
      ToldElsewhere(s, t, About(s, action), action.thread, other);
    }
  }

  lemma ToldAbout(s: State, action: Action)
    requires Inv(s) && AllTold(s) && Next(s, action).Some?
    ensures About(s, action) in Next(s, action).value.tabs
    ensures ToldOk(Next(s, action).value, About(s, action)) <==> !Strands(s, action)
  {
    hide Inv, AllTold, Next, ToldOk, About;
    match action
    case Succeed(thread) =>
      SucceedIsWorking(s, thread);
      match PhaseOf(s, thread).kind {
        case Renumbers => ToldChanging(s, action);
        case Keeps => ToldTelling(s, action);
        case Reads => ToldAsBefore(s, action);
      }
    case Lose(_) => ToldChanging(s, action);
    case LookUp(_, _, _, _) => ToldAsBefore(s, action);
    case Lock(_) => ToldAsBefore(s, action);
    case Fail(_) => ToldAsBefore(s, action);
    case Tell(_) => ToldTelling(s, action);
    case Refresh(_, _) => ToldTelling(s, action);
    case _ => ToldOpening(s, action);
  }

  lemma SucceedIsWorking(s: State, thread: ThreadId)
    requires Next(s, Succeed(thread)).Some?
    ensures PhaseOf(s, thread).Working?
  {
  }

  /** Over a run: every document is told, or about to be, all the way, exactly when no step strands one. */
  lemma {:induction false} RunTold(states: seq<State>, actions: seq<Action>, n: nat)
    requires IsRun(states, actions) && n <= |actions|
    ensures (forall i :: 0 <= i <= n ==> AllTold(states[i])) <==> (forall i :: 0 <= i < n ==> !Strands(states[i], actions[i]))
    decreases n
  {
    hide Inv, Next, AllTold, Strands;
    if n == 0 {
      NothingTold();
    } else {
      RunTold(states, actions, n - 1);
      RunKeeps(states, actions, n - 1);
      assert Next(states[n - 1], actions[n - 1]) == Some(states[n]);
      if forall i :: 0 <= i <= n - 1 ==> AllTold(states[i]) {
        NextTold(states[n - 1], actions[n - 1]);
      }
    }
  }

  lemma NothingTold()
    ensures AllTold(START)
  {
  }

  /** At rest, every open document can be looked up by the number it has, if no step stranded one. */
  lemma AtRestAllAreTold(states: seq<State>, actions: seq<Action>, n: nat, tab: TabId)
    requires IsRun(states, actions) && n <= |actions|
    requires forall i :: 0 <= i < n ==> !Strands(states[i], actions[i])
    requires tab in states[n].tabs && !states[n].tabs[tab].closed && states[n].tabs[tab].doc.Some?
    requires !IsTold(states[n], tab)
    ensures states[n].tabs[tab].told == states[n].tabs[tab].doc
  {
    RunTold(states, actions, n);
    assert AllTold(states[n]) && ToldOk(states[n], tab);
  }

  // ----- where every change renumbers

  /** Only the thread that is about to tell a number knows it, and it is the one such thread. */
  ghost predicate Secret(s: State, tab: TabId)
    requires tab in s.tabs
  {
    forall a :: a in s.threads && TellsOf(s.threads[a], tab) ==>
      && s.tabs[tab].told != Some(s.threads[a].id)
      && (forall b :: b in s.threads && b != a ==> !Knows(s.threads[b], tab, s.threads[a].id))
  }

  predicate Knows(p: Phase, tab: TabId, id: DocId)
  {
    (p.Waiting? && p.tab == tab && p.id == id) || (p.Working? && p.tab == tab && p.id == id) || TellsOf(p, tab)
  }

  ghost predicate NoneKeeps(s: State)
  {
    forall a :: a in s.threads && (s.threads[a].Waiting? || s.threads[a].Working?) ==> !s.threads[a].kind.Keeps?
  }

  ghost predicate AllSecret(s: State)
  {
    NoneKeeps(s) && forall tab :: tab in s.tabs && !s.tabs[tab].closed ==> Secret(s, tab)
  }

  /** No save, and no state told again: every command that changes a document renumbers it. */
  predicate Renumbering(action: Action)
  {
    !action.Refresh? && (action.LookUp? ==> !action.kind.Keeps?)
  }

  /** While a thread works on a tab's document, nobody is about to tell its number. */
  lemma WorkedOnIsNotTold(s: State, thread: ThreadId)
    requires Inv(s) && AllTold(s) && AllSecret(s) && PhaseOf(s, thread).Working?
    ensures PhaseOf(s, thread).tab in s.tabs
    ensures !s.tabs[PhaseOf(s, thread).tab].closed ==> !IsTold(s, PhaseOf(s, thread).tab)
  {
    var p := PhaseOf(s, thread);
    assert PhaseOk(s, thread) && ToldOk(s, p.tab);
    if !s.tabs[p.tab].closed {
      assert Secret(s, p.tab);
      assert forall id :: p.id == id ==> Knows(p, p.tab, id);
    }
  }

  lemma SecretNeverStrands(s: State, action: Action)
    requires Inv(s) && AllTold(s) && AllSecret(s)
    ensures !Strands(s, action)
  {
    if PhaseOf(s, action.thread).Working? { WorkedOnIsNotTold(s, action.thread); }
    hide Inv, AllTold, AllSecret, IsTold;
  }

  lemma SecretElsewhere(s: State, t: State, tab: TabId, thread: ThreadId, other: TabId)
    requires Elsewhere(s, t, tab, thread) && other in s.tabs && other != tab && Secret(s, other)
    requires PhaseOf(s, thread).Idle? || PhaseOf(s, thread).tab == tab
    requires thread in t.threads ==> t.threads[thread].Idle? || t.threads[thread].tab == tab
    ensures other in t.tabs && Secret(t, other)
  {
  }

  /** The tab of a step keeps its secret: a number told, looked up or worked with is not one about to be told. */
  lemma SecretAbout(s: State, action: Action)
    requires Inv(s) && AllTold(s) && AllSecret(s) && Renumbering(action) && Next(s, action).Some?
    requires action.Succeed? ==> PhaseOf(s, action.thread).kind.Reads?
    ensures About(s, action) in Next(s, action).value.tabs
    ensures !Next(s, action).value.tabs[About(s, action)].closed ==> Secret(Next(s, action).value, About(s, action))
  {
    var thread, tab := action.thread, About(s, action);
    if thread in s.threads { assert PhaseOk(s, thread); }
    if tab in s.tabs && !s.tabs[tab].closed {
      assert Secret(s, tab) && ToldOk(s, tab);
      if s.tabs[tab].doc.None? { OpenedIsNotTold(s, tab); }
    }
  }

  lemma SecretChanged(s: State, thread: ThreadId)
    requires Inv(s) && AllTold(s) && AllSecret(s) && Next(s, Succeed(thread)).Some? && PhaseOf(s, thread).kind.Renumbers?
    ensures About(s, Succeed(thread)) in Next(s, Succeed(thread)).value.tabs
    ensures var t := Next(s, Succeed(thread)).value; var tab := About(s, Succeed(thread));
      !t.tabs[tab].closed ==> Secret(t, tab)
  {
    var tab := About(s, Succeed(thread));
    assert PhaseOk(s, thread) && TabOk(s, tab);
    SecretNeverStrands(s, Succeed(thread));
    forall a | a in s.threads ensures PhaseOk(s, a) { }
  }

  lemma NextSecret(s: State, action: Action)
    requires Inv(s) && AllTold(s) && AllSecret(s) && Renumbering(action) && Next(s, action).Some?
    ensures AllSecret(Next(s, action).value)
  {
    var t := Next(s, action).value;
    AboutIsLocal(s, action);
    KindsStay(s, action);
    if action.Succeed? && PhaseOf(s, action.thread).kind.Renumbers? {
      SecretChanged(s, action.thread);
    } else {
      if action.Succeed? { SucceedIsWorking(s, action.thread); }
      SecretAbout(s, action);
    }
    hide Inv, Next, Secret, About, NoneKeeps, Renumbering;
    forall other | other in t.tabs && other != About(s, action) && !t.tabs[other].closed ensures Secret(t, other) {
      SecretElsewhere(s, t, About(s, action), action.thread, other);
    }
  }

  lemma KindsStay(s: State, action: Action)
    requires NoneKeeps(s) && Renumbering(action) && Next(s, action).Some?
    ensures NoneKeeps(Next(s, action).value)
  {
  }

  /** Where every command that changes a document gives it another number, no step of any run strands one. */
  lemma RenumberingNeverStrands(states: seq<State>, actions: seq<Action>, n: nat)
    requires IsRun(states, actions) && n < |actions|
    requires forall i :: 0 <= i <= n ==> Renumbering(actions[i])
    ensures !Strands(states[n], actions[n])
  {
    RunSecret(states, actions, n);
    RunKeeps(states, actions, n);
    SecretNeverStrands(states[n], actions[n]);
  }

  lemma {:induction false} RunSecret(states: seq<State>, actions: seq<Action>, n: nat)
    requires IsRun(states, actions) && n <= |actions|
    requires forall i :: 0 <= i < n ==> Renumbering(actions[i])
    ensures AllTold(states[n]) && AllSecret(states[n])
    decreases n
  {
    hide Inv, Next, AllTold, AllSecret;
    if n == 0 {
      NothingSecret();
    } else {
      RunSecret(states, actions, n - 1);
      RunKeeps(states, actions, n - 1);
      assert Next(states[n - 1], actions[n - 1]) == Some(states[n]);
      SecretNeverStrands(states[n - 1], actions[n - 1]);
      NextTold(states[n - 1], actions[n - 1]);
      NextSecret(states[n - 1], actions[n - 1]);
    }
  }

  lemma NothingSecret()
    ensures AllTold(START) && AllSecret(START)
  {
  }

  // ----- a document that cannot be looked up any more

  /** The number told is not the document's, and no thread is there that would tell its own. */
  ghost predicate Stuck(s: State, tab: TabId)
  {
    && tab in s.tabs && !s.tabs[tab].closed
    && s.tabs[tab].doc.Some? && s.tabs[tab].told != s.tabs[tab].doc
    && (forall a :: a in s.threads && !s.threads[a].Idle? && s.threads[a].tab == tab ==>
          s.threads[a].Waiting? && Some(s.threads[a].id) != s.tabs[tab].doc)
  }

  /** No command reaches it: it stays so until it is closed, or passwords are forgotten. */
  lemma StuckStays(s: State, tab: TabId, action: Action)
    requires Inv(s) && Stuck(s, tab) && Next(s, action).Some?
    requires !(action.Close? && action.tab == tab) && !(action.Refresh? && action.tab == tab)
    ensures Stuck(Next(s, action).value, tab) && Next(s, action).value.tabs[tab].doc == s.tabs[tab].doc
  {
    var thread := action.thread;
    if thread in s.threads { assert PhaseOk(s, thread); }
    if About(s, action) == tab && !PhaseOf(s, thread).Idle? {
      assert PhaseOf(s, thread).Waiting?;
    }
  }

  function Steps(s: State, actions: seq<Action>): Option<State>
    decreases |actions|
  {
    if actions == [] then Some(s)
    else
      match Steps(s, actions[..|actions| - 1])
      case None => None
      case Some(t) => Next(t, actions[|actions| - 1])
  }

  /** One more step of a run; what it leaves of tab 0 and threads 1 and 2 is what counts here. */
  lemma Do(actions: seq<Action>, s: State, action: Action) returns (t: State)
    requires Steps(START, actions) == Some(s) && Inv(s) && Next(s, action).Some?
    ensures t == Next(s, action).value && Steps(START, actions + [action]) == Some(t) && Inv(t)
  {
    t := Next(s, action).value;
    assert (actions + [action])[..|actions|] == actions;
    NextKeeps(s, action);
  }

  const OPENED := [Open(1, 0), Announce(1), Put(1)]

  lemma Opened() returns (s: State)
    ensures Steps(START, OPENED) == Some(s) && Inv(s) && |s.drawn| == 1
    ensures 0 in s.tabs && s.tabs[0] == Tab(Some(0), Some(0), None, false)
    ensures PhaseOf(s, 1).Idle? && PhaseOf(s, 2).Idle?
    ensures forall a :: a in s.threads ==> a == 1
  {
    hide Inv, Steps;
    assert Steps(START, []) == Some(START) && Inv(START) by { StartIsOk(); StepsNone(); }
    assert !BeingOpened(START, 0);
    s := Do([], START, Open(1, 0));
    s := Do([] + [Open(1, 0)], s, Announce(1));
    s := Do([] + [Open(1, 0)] + [Announce(1)], s, Put(1));
    assert [] + [Open(1, 0)] + [Announce(1)] + [Put(1)] == OPENED;
  }

  lemma StepsNone()
    ensures Steps(START, []) == Some(START)
  {
  }

  const BOTH_FOUND := OPENED + [LookUp(1, 0, 0, Keeps)] + [LookUp(2, 0, 0, Renumbers)]

  /** A save and an edit, both by the number last told. */
  lemma BothFound() returns (s: State)
    ensures Steps(START, BOTH_FOUND) == Some(s) && Inv(s) && |s.drawn| == 1
    ensures 0 in s.tabs && s.tabs[0] == Tab(Some(0), Some(0), None, false)
    ensures PhaseOf(s, 1) == Waiting(0, 0, Keeps) && PhaseOf(s, 2) == Waiting(0, 0, Renumbers)
    ensures forall a :: a in s.threads ==> a == 1 || a == 2
  {
    hide Inv, Steps;
    s := Opened();
    s := Do(OPENED, s, LookUp(1, 0, 0, Keeps));
    s := Do(OPENED + [LookUp(1, 0, 0, Keeps)], s, LookUp(2, 0, 0, Renumbers));
  }

  const BOTH_DONE := BOTH_FOUND + [Lock(1)] + [Succeed(1)] + [Lock(2)] + [Succeed(2)]

  /** Both succeeded, the save first; neither told the document's state yet. */
  lemma BothDone() returns (s: State)
    ensures Steps(START, BOTH_DONE) == Some(s) && Inv(s)
    ensures 0 in s.tabs && s.tabs[0] == Tab(Some(0), Some(1), None, false)
    ensures PhaseOf(s, 1) == Telling(0, 0) && PhaseOf(s, 2) == Telling(0, 1)
    ensures forall a :: a in s.threads ==> a == 1 || a == 2
  {
    hide Inv, Steps;
    s := BothFound();
    s := Do(BOTH_FOUND, s, Lock(1));
    s := Do(BOTH_FOUND + [Lock(1)], s, Succeed(1));
    s := Do(BOTH_FOUND + [Lock(1)] + [Succeed(1)], s, Lock(2));
    s := Do(BOTH_FOUND + [Lock(1)] + [Succeed(1)] + [Lock(2)], s, Succeed(2));
  }

  /**
   * A save and an edit that name the same number at once can leave a document that way: the save,
   * which keeps the number, tells it after the edit told the next.
   */
  lemma SaveAndEditMayStrand() returns (s: State)
    ensures Steps(START, BOTH_DONE + [Tell(2)] + [Tell(1)]) == Some(s) && Inv(s) && Stuck(s, 0)
  {
    hide Inv, Steps;
    s := BothDone();
    s := Do(BOTH_DONE, s, Tell(2));
    s := Do(BOTH_DONE + [Tell(2)], s, Tell(1));
  }
}
