/**
 * Closing the window while a batch runs (src-tauri/src/background.rs; src-tauri/src/batch.rs:39-77;
 * src-tauri/src/commands.rs:1949-1976, 2210-2239, 2277-2291): the window is hidden, an icon stays,
 * and the last batch to end puts up a message, whose dismissal closes the app. Batch
 * threads, the main thread's queue, the messages and the commands that close take turns in any order.
 */
module Backgrounds {
  import opened Basics

  type BatchId = nat

  /** `discard`: what the user chose about unsaved changes when the window was closed. */
  datatype Mode = Open | Hidden(discard: bool) | Closing(discard: bool)

  datatype Window = Shown | Away | Destroyed

  /** Who asked to close: the page, once the user was asked, or the wait for a page that does not answer. */
  datatype Closer = Page | Unanswered

  /** What waits for the main thread. */
  datatype Task = HideTask(discard: bool, closer: Closer) | ShowTask | EndedTask(batch: BatchId) | CloseTask

  /**
   * `running`: the batches that hold their guard; `dropped`: those that let it go and have not yet
   * said that they ended; `messages`: the messages shown; `refused`: who was told to let the
   * window go as any window does; `chosen`: what the last close that hid the window chose.
   */
  datatype State = State(mode: Mode, window: Window, icon: bool, running: set<BatchId>, dropped: set<BatchId>,
    queue: seq<Task>, messages: nat, refused: seq<Closer>, discarded: bool, chosen: bool)

  const START := State(Open, Shown, false, {}, {}, [], 0, [], false, false)

  // ----- the main thread's tasks

  /** `icon`, `hidden`: whether the icon can be shown, and the window hidden. */
  function Hide(s: State, discard: bool, icon: bool, hidden: bool): (State, bool)
  {
    if s.running == {} || s.window.Destroyed? then (s, false)
    else if s.mode.Open? && !icon then (s, false)
    else if s.mode.Open? && !hidden then (s.(icon := false), false)
    else if s.mode.Open? then
      (s.(mode := Hidden(discard), window := Away, icon := true, chosen := discard), true)
    else (s.(mode := Hidden(discard), chosen := discard), true)
  }

  function Show(s: State): State
  {
    s.(mode := Open,
       icon := if s.mode.Open? then s.icon else false,
       window := if s.window.Destroyed? then Destroyed else Shown)
  }

  function Ended(s: State): State
  {
    if !s.mode.Hidden? || s.running != {} then s
    else s.(mode := Closing(s.mode.discard), icon := false, messages := s.messages + 1)
  }

  function Close(s: State): State
  {
    if !s.mode.Closing? then s
    else s.(discarded := s.discarded || s.mode.discard, window := Destroyed)
  }

  // ----- the steps

  datatype Action =
    | Start(batch: BatchId)
    | Drop(batch: BatchId)
    | Post(batch: BatchId)
    | AskToClose(discard: bool, closer: Closer)
    | AskToShow
    | Main(icon: bool, hidden: bool)
    | Dismiss
    | Destroy

  function Next(s: State, action: Action): Option<State>
  {
    match action
    case Start(batch) =>
      if batch in s.running || batch in s.dropped || EndedTask(batch) in s.queue then None
      else Some(s.(running := s.running + {batch}))
    case Drop(batch) =>
      if batch !in s.running then None
      else Some(s.(running := s.running - {batch}, dropped := s.dropped + {batch}))
    case Post(batch) =>
      if batch !in s.dropped then None
      else Some(s.(dropped := s.dropped - {batch}, queue := s.queue + [EndedTask(batch)]))
    case AskToClose(discard, closer) => Some(s.(queue := s.queue + [HideTask(discard, closer)]))
    case AskToShow => Some(s.(queue := s.queue + [ShowTask]))
    case Main(icon, hidden) =>
      if s.queue == [] then None
      else
        var rest := s.(queue := s.queue[1..]);
        (match s.queue[0]
         case HideTask(discard, closer) =>
           var r := Hide(rest, discard, icon, hidden);
           Some(if r.1 then r.0 else r.0.(refused := r.0.refused + [closer]))
         case ShowTask => Some(Show(rest))
         case EndedTask(_) => Some(Ended(rest))
         case CloseTask => Some(Close(rest)))
    case Dismiss =>
      if s.messages == 0 then None
      else Some(s.(messages := s.messages - 1, queue := s.queue + [CloseTask]))
    case Destroy =>
      if s.refused == [] then None
      else Some(s.(refused := s.refused[1..], window := Destroyed,
                   // The page asked the user first; the wait for it finds nothing unsaved.
                   discarded := s.discarded || s.refused[0].Page?))
  }

  // ----- what every interleaving keeps

  predicate EndIsQueued(queue: seq<Task>) { exists i :: 0 <= i < |queue| && queue[i].EndedTask? }

  predicate CloseIsQueued(queue: seq<Task>) { exists i :: 0 <= i < |queue| && queue[i].CloseTask? }

  /**
   * A hidden window always has something to come that shows it or closes it: while it waits, a
   * batch runs, or ended and has not been heard; then a message is shown, or read and not yet heard.
   */
  ghost predicate Inv(s: State)
  {
    && (s.window.Away? ==> !s.mode.Open?)
    && (!s.mode.Open? ==> !s.window.Shown?)
    && (s.mode.Hidden? ==> s.running != {} || s.dropped != {} || EndIsQueued(s.queue))
    && (s.mode.Closing? ==> s.messages > 0 || CloseIsQueued(s.queue) || s.window.Destroyed?)
    && (!s.mode.Open? ==> s.mode.discard == s.chosen)
    && (s.icon ==> s.mode.Hidden?)
    && s.running !! s.dropped
  }

  lemma QueuedMore(queue: seq<Task>, task: Task)
    ensures EndIsQueued(queue + [task]) <==> EndIsQueued(queue) || task.EndedTask?
    ensures CloseIsQueued(queue + [task]) <==> CloseIsQueued(queue) || task.CloseTask?
  {
    var more := queue + [task];
    assert more[|queue|] == task && forall i :: 0 <= i < |queue| ==> more[i] == queue[i];
  }

  lemma QueuedLess(queue: seq<Task>)
    requires queue != []
    ensures EndIsQueued(queue) <==> queue[0].EndedTask? || EndIsQueued(queue[1..])
    ensures CloseIsQueued(queue) <==> queue[0].CloseTask? || CloseIsQueued(queue[1..])
  {
  }

  lemma MainKeeps(s: State, icon: bool, hidden: bool)
    requires Inv(s) && s.queue != []
    ensures Inv(Next(s, Main(icon, hidden)).value)
  {
    hide EndIsQueued, CloseIsQueued;
    QueuedLess(s.queue);
    match s.queue[0]
    case HideTask(discard, closer) => HideKeeps(s, discard, icon, hidden, closer);
    case ShowTask =>
    case EndedTask(_) =>
    case CloseTask =>
  }

  lemma HideKeeps(s: State, discard: bool, icon: bool, hidden: bool, closer: Closer)
    requires Inv(s) && s.queue != [] && s.queue[0].HideTask?
    ensures var r := Hide(s.(queue := s.queue[1..]), discard, icon, hidden);
      Inv(if r.1 then r.0 else r.0.(refused := r.0.refused + [closer]))
  {
  }

  lemma NextKeeps(s: State, action: Action)
    requires Inv(s) && Next(s, action).Some?
    ensures Inv(Next(s, action).value)
  {
    hide EndIsQueued, CloseIsQueued;
    match action
    case Main(icon, hidden) => MainKeeps(s, icon, hidden);
    case Post(batch) => QueuedMore(s.queue, EndedTask(batch));
    case AskToClose(discard, closer) => QueuedMore(s.queue, HideTask(discard, closer));
    case AskToShow => QueuedMore(s.queue, ShowTask);
    case Dismiss => QueuedMore(s.queue, CloseTask);
    case _ =>
  }

  ghost predicate IsRun(states: seq<State>, actions: seq<Action>)
  {
    && |states| == |actions| + 1 && states[0] == START
    && (forall i :: 0 <= i < |actions| ==> Next(states[i], actions[i]) == Some(states[i + 1]))
  }

  lemma {:induction false} RunKeeps(states: seq<State>, actions: seq<Action>, n: nat)
    requires IsRun(states, actions) && n <= |actions|
    ensures Inv(states[n])
    decreases n
  {
    if n > 0 {
      RunKeeps(states, actions, n - 1);
      assert Next(states[n - 1], actions[n - 1]) == Some(states[n]);
      NextKeeps(states[n - 1], actions[n - 1]);
    }
  }

  // ----- never stuck out of sight

  /** What happens by itself, or when the user reads a message: nobody has to find the hidden window. */
  predicate ByItself(action: Action)
  {
    action.Drop? || action.Post? || action.Main? || action.Dismiss? || action.Destroy?
  }

  function Weight(task: Task): nat
  {
    match task case EndedTask(_) => 4 case HideTask(_, _) => 2 case ShowTask => 1 case CloseTask => 1
  }

  function QueueWeight(queue: seq<Task>): nat
  {
    if queue == [] then 0 else Weight(queue[0]) + QueueWeight(queue[1..])
  }

  /** What is still to come by itself. */
  function ToCome(s: State): nat
  {
    6 * |s.running| + 5 * |s.dropped| + QueueWeight(s.queue) + 2 * s.messages + |s.refused|
  }

  lemma {:induction false} WeightMore(queue: seq<Task>, task: Task)
    ensures QueueWeight(queue + [task]) == QueueWeight(queue) + Weight(task)
    decreases |queue|
  {
    if queue != [] {
      WeightMore(queue[1..], task);
      assert (queue + [task])[1..] == queue[1..] + [task];
    }
  }

  lemma DropEnds(s: State, batch: BatchId)
    requires batch in s.running && s.running !! s.dropped
    ensures 6 * |s.running - {batch}| + 5 * |s.dropped + {batch}| < 6 * |s.running| + 5 * |s.dropped|
  {
  }

  lemma PostEnds(s: State, batch: BatchId)
    requires batch in s.dropped
    ensures 5 * |s.dropped - {batch}| + QueueWeight(s.queue + [EndedTask(batch)]) < 5 * |s.dropped| + QueueWeight(s.queue)
  {
    WeightMore(s.queue, EndedTask(batch));
    assert s.dropped == (s.dropped - {batch}) + {batch};
  }

  lemma FirstWeight(queue: seq<Task>)
    requires queue != []
    ensures QueueWeight(queue) == Weight(queue[0]) + QueueWeight(queue[1..])
  {
  }

  lemma MainShape(s: State, icon: bool, hidden: bool)
    requires s.queue != []
    ensures var t := Next(s, Main(icon, hidden)).value;
      && t.running == s.running && t.dropped == s.dropped && t.queue == s.queue[1..]
      && 2 * t.messages + |t.refused| < 2 * s.messages + |s.refused| + Weight(s.queue[0])
  {
    var rest := s.(queue := s.queue[1..]);
    if s.queue[0].HideTask? { HideShape(rest, s.queue[0].discard, icon, hidden); }
    hide Hide;
  }

  lemma HideShape(s: State, discard: bool, icon: bool, hidden: bool)
    ensures var t := Hide(s, discard, icon, hidden).0;
      && t.running == s.running && t.dropped == s.dropped && t.queue == s.queue
      && t.messages == s.messages && t.refused == s.refused
  {
  }

  lemma MainEnds(s: State, icon: bool, hidden: bool)
    requires s.queue != []
    ensures var t := Next(s, Main(icon, hidden)).value;
      && ToCome(t) < ToCome(s) && t.running == s.running && t.dropped == s.dropped
  {
    hide QueueWeight, Next, Weight;
    FirstWeight(s.queue);
    assert Next(s, Main(icon, hidden)).Some? by { MainNext(s, icon, hidden); }
    MainShape(s, icon, hidden);
  }

  lemma MainNext(s: State, icon: bool, hidden: bool)
    requires s.queue != []
    ensures Next(s, Main(icon, hidden)).Some?
  {
  }

  /** Each such step leaves less to come. */
  lemma ByItselfEnds(s: State, action: Action)
    requires Inv(s) && ByItself(action) && Next(s, action).Some?
    ensures ToCome(Next(s, action).value) < ToCome(s)
  {
    hide QueueWeight;
    match action
    case Drop(batch) => DropEnds(s, batch);
    case Post(batch) => PostEnds(s, batch);
    case Dismiss => WeightMore(s.queue, CloseTask);
    case Main(icon, hidden) => MainEnds(s, icon, hidden);
    case _ =>
  }

  /** While the window is hidden, something is to come by itself. */
  lemma SomethingIsToCome(s: State) returns (action: Action)
    requires Inv(s) && s.window.Away?
    ensures ByItself(action) && Next(s, action).Some?
  {
    if s.queue != [] { return Main(true, true); }
    if s.messages > 0 { return Dismiss; }
    if b :| b in s.running { return Drop(b); }
    var b :| b in s.dropped;
    return Post(b);
  }

  /** Steps from `states[0]` on. */
  ghost predicate IsPath(states: seq<State>, actions: seq<Action>)
  {
    && |states| == |actions| + 1
    && (forall i :: 0 <= i < |actions| ==> Next(states[i], actions[i]) == Some(states[i + 1]))
  }

  /** Nothing is to come by itself any more. */
  ghost predicate Settled(s: State)
  {
    forall action :: ByItself(action) ==> Next(s, action).None?
  }

  lemma {:induction false} PathEnds(states: seq<State>, actions: seq<Action>)
    requires IsPath(states, actions) && Inv(states[0])
    requires forall i :: 0 <= i < |actions| ==> ByItself(actions[i])
    ensures Inv(states[|actions|]) && |actions| + ToCome(states[|actions|]) <= ToCome(states[0])
    decreases |actions|
  {
    if actions != [] {
      var k := |actions| - 1;
      PathEnds(states[..k + 1], actions[..k]);
      assert states[..k + 1][k] == states[k];
      assert Next(states[k], actions[k]) == Some(states[k + 1]);
      ByItselfEnds(states[k], actions[k]);
      NextKeeps(states[k], actions[k]);
    }
  }

  /**
   * Never stuck out of sight: from any state of any run, what comes by itself comes to an end, after
   * `ToCome` steps at most, and then the window is shown or closed for good.
   */
  lemma BackBeforeLong(states: seq<State>, actions: seq<Action>, n: nat, after: seq<State>, more: seq<Action>)
    requires IsRun(states, actions) && n <= |actions|
    requires IsPath(after, more) && after[0] == states[n]
    requires forall i :: 0 <= i < |more| ==> ByItself(more[i])
    ensures |more| <= ToCome(states[n])
    ensures Settled(after[|more|]) ==> !after[|more|].window.Away?
  {
    RunKeeps(states, actions, n);
    PathEnds(after, more);
    var last := after[|more|];
    if last.window.Away? {
      var action := SomethingIsToCome(last);
      assert !Settled(last);
    }
  }

  // ----- asked for, it comes back

  /**
   * Showing the window, in any state of any run: unless it was closed for good it is shown, the close
   * that waited is called off and the icon is gone; what runs and what waits behind it goes on.
   */
  lemma ShowTaskShows(s: State, icon: bool, hidden: bool)
    requires Inv(s) && s.queue != [] && s.queue[0].ShowTask?
    ensures var t := Next(s, Main(icon, hidden));
      && t.Some? && t.value.mode == Open && !t.value.icon
      && t.value.window == (if s.window.Destroyed? then Destroyed else Shown)
      && t.value.running == s.running && t.value.dropped == s.dropped && t.value.queue == s.queue[1..]
      && t.value.messages == s.messages && t.value.refused == s.refused && t.value.discarded == s.discarded
  {
  }

  /**
   * Closing the window, in any state of any run: it is hidden exactly while a batch runs, if the system
   * shows an icon and hides it, or if it is hidden already; with the choice made now, and nothing else
   * changes. Otherwise whoever asked is told to let it go as any window does.
   */
  lemma HideTaskHides(s: State, icon: bool, hidden: bool)
    requires Inv(s) && s.queue != [] && s.queue[0].HideTask? && !s.window.Destroyed?
    ensures var t, task := Next(s, Main(icon, hidden)), s.queue[0];
      && t.Some? && t.value.running == s.running && t.value.dropped == s.dropped && t.value.queue == s.queue[1..]
      && t.value.messages == s.messages && t.value.discarded == s.discarded
      && if s.running != {} && (s.mode.Open? ==> icon && hidden) then
           && t.value.mode == Hidden(task.discard) && t.value.chosen == task.discard && t.value.window.Away?
           && t.value.refused == s.refused && (t.value.icon <==> s.mode.Open? || s.icon)
         else
           && t.value.mode == s.mode && t.value.chosen == s.chosen && t.value.window == s.window
           && t.value.refused == s.refused + [task.closer] && t.value.icon == s.icon
  {
  }

  /** Of a batch that has ended the user is told once no other runs, if the window is hidden: then the icon goes. */
  lemma EndedTaskTells(s: State, icon: bool, hidden: bool)
    requires Inv(s) && s.queue != [] && s.queue[0].EndedTask?
    ensures Next(s, Main(icon, hidden))
         == if s.mode.Hidden? && s.running == {}
            then Some(s.(queue := s.queue[1..], mode := Closing(s.mode.discard), icon := false, messages := s.messages + 1))
            else Some(s.(queue := s.queue[1..]))
  {
  }

  /** A message that was read closes the window for good, if it was to close then, with the choice made. */
  lemma CloseTaskCloses(s: State, icon: bool, hidden: bool)
    requires Inv(s) && s.queue != [] && s.queue[0].CloseTask?
    ensures Next(s, Main(icon, hidden))
         == if s.mode.Closing?
            then Some(s.(queue := s.queue[1..], window := Destroyed, discarded := s.discarded || s.chosen))
            else Some(s.(queue := s.queue[1..]))
  {
  }

  /** How often the main thread does what waits for it. */
  function Turns(actions: seq<Action>): nat
  {
    if actions == [] then 0 else Turns(actions[..|actions| - 1]) + if actions[|actions| - 1].Main? then 1 else 0
  }

  /** What waits is done in turn, and what comes joins behind. */
  lemma QueueGoesOn(s: State, action: Action)
    requires Next(s, action).Some?
    ensures var t := Next(s, action).value;
      if action.Main? then s.queue != [] && t.queue == s.queue[1..]
      else s.queue <= t.queue
  {
    if action.Main? { MainShape(s, action.icon, action.hidden); }
    hide Hide;
  }

  /** The task at a place in the queue is one place nearer after a turn of the main thread, and where it was otherwise. */
  lemma OneNearer(s: State, action: Action, at: nat)
    requires Next(s, action).Some? && at < |s.queue| && (action.Main? ==> at > 0)
    ensures var t, there := Next(s, action).value, if action.Main? then at - 1 else at;
      there < |t.queue| && t.queue[there] == s.queue[at]
  {
    QueueGoesOn(s, action);
    hide Next;
  }

  lemma {:induction false} StillQueued(states: seq<State>, actions: seq<Action>, n: nat)
    requires IsPath(states, actions) && n < |states[0].queue| && Turns(actions) <= n
    ensures var queue := states[|actions|].queue;
      n - Turns(actions) < |queue| && queue[n - Turns(actions)] == states[0].queue[n]
    decreases |actions|
  {
    hide Next;
    if actions != [] {
      var k := |actions| - 1;
      StillQueued(states[..k + 1], actions[..k], n);
      assert states[..k + 1][k] == states[k];
      assert Next(states[k], actions[k]) == Some(states[k + 1]);
      OneNearer(states[k], actions[k], n - Turns(actions[..k]));
    }
  }

  /**
   * From every state of every run: once the user asks for the window, by its icon or by starting the app
   * again, it is shown or closed for good as soon as the main thread has done what waited, whatever
   * batches, messages and closes do meanwhile.
   */
  lemma ShownOnceAsked(states: seq<State>, actions: seq<Action>, n: nat, after: seq<State>, more: seq<Action>, icon: bool, hidden: bool)
    requires IsRun(states, actions) && n <= |actions|
    requires IsPath(after, more) && Next(states[n], AskToShow) == Some(after[0]) && Turns(more) == |states[n].queue|
    ensures var last := after[|more|];
      var t := Next(last, Main(icon, hidden));
      && t.Some? && !t.value.window.Away? && t.value.mode == Open && !t.value.icon
      && (t.value.window.Destroyed? <==> last.window.Destroyed?)
  {
    RunKeeps(states, actions, n);
    NextKeeps(states[n], AskToShow);
    PathKeeps(after, more);
    StillQueued(after, more, |states[n].queue|);
    ShowTaskShows(after[|more|], icon, hidden);
    hide Inv;
  }

  lemma {:induction false} PathKeeps(states: seq<State>, actions: seq<Action>)
    requires IsPath(states, actions) && Inv(states[0])
    ensures Inv(states[|actions|])
    decreases |actions|
  {
    hide Inv, Next;
    if actions != [] {
      var k := |actions| - 1;
      PathKeeps(states[..k + 1], actions[..k]);
      assert states[..k + 1][k] == states[k];
      assert Next(states[k], actions[k]) == Some(states[k + 1]);
      NextKeeps(states[k], actions[k]);
    }
  }

  // ----- what happens to unsaved changes

  /** Unsaved changes are discarded as the window closes for good, in one of two ways, and in no other. */
  lemma DiscardsWhen(s: State, action: Action)
    requires !s.discarded && Next(s, action).Some?
    ensures var t := Next(s, action).value;
      && (t.discarded ==> t.window.Destroyed?)
      && (t.discarded
          <==> || (action.Main? && s.queue[0].CloseTask? && s.mode == Closing(true))
               || (action.Destroy? && s.refused[0].Page?))
  {
  }

  predicate PageIn(refused: seq<Closer>) { exists i :: 0 <= i < |refused| && refused[i].Page? }

  /** While the window is hidden, no close that was refused is still about to close it. */
  ghost predicate NoneRefused(s: State) { s.window.Away? ==> !PageIn(s.refused) }

  /**
   * The window is hidden while a close by the page, refused before, is about to close it for good; or
   * a close by the page is refused with the window hidden, because no batch runs any more.
   */
  predicate LeavesRefusal(s: State, action: Action)
  {
    && action.Main? && s.queue != [] && s.queue[0].HideTask? && !s.window.Destroyed?
    && if s.running != {} then s.mode.Open? && action.icon && action.hidden && PageIn(s.refused)
       else s.window.Away? && s.queue[0].closer.Page?
  }

  lemma PageInMore(refused: seq<Closer>, closer: Closer)
    ensures PageIn(refused + [closer]) <==> PageIn(refused) || closer.Page?
  {
    var more := refused + [closer];
    assert more[|refused|] == closer && forall i :: 0 <= i < |refused| ==> more[i] == refused[i];
  }

  lemma RefusalsAnswered(s: State, action: Action)
    requires Inv(s) && NoneRefused(s) && Next(s, action).Some?
    ensures NoneRefused(Next(s, action).value) <==> !LeavesRefusal(s, action)
  {
    if action.Main? && s.queue[0].HideTask? { PageInMore(s.refused, s.queue[0].closer); }
    hide PageIn;
    if action.Destroy? { assert Next(s, action).value.window.Destroyed?; }
  }

  /**
   * With the window hidden, unsaved changes are discarded only as it closes after the message was
   * read, and as the last close that hid it chose: as long as no close that was refused is left.
   */
  lemma DiscardsAsChosen(s: State, action: Action)
    requires Inv(s) && NoneRefused(s) && s.window.Away? && !s.discarded && Next(s, action).Some?
    ensures var t := Next(s, action).value;
      t.discarded <==> action.Main? && s.queue[0].CloseTask? && s.mode.Closing? && s.chosen
  {
  }

  /** Over a run: none is left all the way exactly when no step leaves one. */
  lemma {:induction false} RunRefusals(states: seq<State>, actions: seq<Action>, n: nat)
    requires IsRun(states, actions) && n <= |actions|
    ensures (forall i :: 0 <= i <= n ==> NoneRefused(states[i]))
      <==> (forall i :: 0 <= i < n ==> !LeavesRefusal(states[i], actions[i]))
    decreases n
  {
    hide Inv, Next, NoneRefused, LeavesRefusal;
    if n == 0 {
      assert NoneRefused(START) by { StartIsClean(); }
    } else {
      RunRefusals(states, actions, n - 1);
      RunKeeps(states, actions, n - 1);
      assert Next(states[n - 1], actions[n - 1]) == Some(states[n]);
      if forall i :: 0 <= i <= n - 1 ==> NoneRefused(states[i]) {
        RefusalsAnswered(states[n - 1], actions[n - 1]);
      }
    }
  }

  lemma StartIsClean()
    ensures NoneRefused(START) && IconOk(START) && OneMessage(START)
  {
  }

  /** Showing the window calls the close off: a message read after that closes nothing. */
  lemma ShownAgainStays(s: State, icon: bool, hidden: bool)
    requires Inv(s) && s.queue != [] && s.queue[0].CloseTask? && s.mode.Open?
    ensures Next(s, Main(icon, hidden)) == Some(s.(queue := s.queue[1..]))
  {
  }

  // ----- the icon

  /** The icon is there just while the window waits. */
  predicate IconOk(s: State) { s.icon <==> s.mode.Hidden? }

  /** The window is hidden again for another batch while the app is closing: its icon is not shown again. */
  predicate LacksIcon(s: State, action: Action)
  {
    && action.Main? && s.queue != [] && s.queue[0].HideTask?
    && s.mode.Closing? && s.running != {} && !s.window.Destroyed?
  }

  lemma IconStays(s: State, action: Action)
    requires IconOk(s) && Next(s, action).Some?
    ensures IconOk(Next(s, action).value) <==> !LacksIcon(s, action)
  {
  }

  /** Over a run: the icon is there just while the window waits, all the way, exactly when no step leaves it out. */
  lemma {:induction false} RunIcon(states: seq<State>, actions: seq<Action>, n: nat)
    requires IsRun(states, actions) && n <= |actions|
    ensures (forall i :: 0 <= i <= n ==> IconOk(states[i])) <==> (forall i :: 0 <= i < n ==> !LacksIcon(states[i], actions[i]))
    decreases n
  {
    hide Next, IconOk, LacksIcon;
    if n == 0 {
      assert IconOk(START) by { StartIsClean(); }
    } else {
      RunIcon(states, actions, n - 1);
      assert Next(states[n - 1], actions[n - 1]) == Some(states[n]);
      if forall i :: 0 <= i <= n - 1 ==> IconOk(states[i]) {
        IconStays(states[n - 1], actions[n - 1]);
      }
    }
  }

  lemma IconInTime(s: State, action: Action)
    requires IconOk(s) && (s.mode.Closing? ==> s.running == {}) && Next(s, action).Some?
    requires action.Start? ==> !s.mode.Closing?
    ensures var t := Next(s, action).value; IconOk(t) && (t.mode.Closing? ==> t.running == {})
  {
  }

  /** While the app is closing no batch runs, if none was begun since. */
  lemma {:induction false} IconIfBegunInTime(states: seq<State>, actions: seq<Action>, n: nat)
    requires IsRun(states, actions) && n <= |actions|
    requires forall i :: 0 <= i < n && actions[i].Start? ==> !states[i].mode.Closing?
    ensures IconOk(states[n]) && (states[n].mode.Closing? ==> states[n].running == {})
    decreases n
  {
    hide Next;
    if n > 0 {
      IconIfBegunInTime(states, actions, n - 1);
      assert Next(states[n - 1], actions[n - 1]) == Some(states[n]);
      IconInTime(states[n - 1], actions[n - 1]);
    }
  }

  function Steps(s: State, actions: seq<Action>): Option<State>
    decreases |actions|
  {
    if actions == [] then Some(s)
    else
      match Steps(s, actions[..|actions| - 1])
      case None => None
      case Some(t) => Next(t, actions[|actions| - 1])
  }

  lemma Do(actions: seq<Action>, s: State, action: Action) returns (t: State)
    requires Steps(START, actions) == Some(s) && Next(s, action).Some?
    ensures t == Next(s, action).value && Steps(START, actions + [action]) == Some(t)
  {
    t := Next(s, action).value;
    assert (actions + [action])[..|actions|] == actions;
  }

  /** A batch runs, the window is closed, and the batch ends: its message is shown. */
  const FIRST_ENDED := [Start(1)] + [AskToClose(false, Page)] + [Main(true, true)] + [Drop(1)] + [Post(1)] + [Main(true, true)]

  lemma FirstEnded() returns (s: State)
    ensures Steps(START, FIRST_ENDED) == Some(s)
    ensures s == State(Closing(false), Away, false, {}, {}, [], 1, [], false, false)
  {
    hide Steps;
    assert Steps(START, []) == Some(START) by { NoSteps(); }
    s := Do([], START, Start(1));
    s := Do([] + [Start(1)], s, AskToClose(false, Page));
    s := Do([] + [Start(1)] + [AskToClose(false, Page)], s, Main(true, true));
    assert s.running == {1} && s.queue == [];
    s := Do([] + [Start(1)] + [AskToClose(false, Page)] + [Main(true, true)], s, Drop(1));
    assert s.running == {} && s.dropped == {1};
    s := Do([] + [Start(1)] + [AskToClose(false, Page)] + [Main(true, true)] + [Drop(1)], s, Post(1));
    s := Do([] + [Start(1)] + [AskToClose(false, Page)] + [Main(true, true)] + [Drop(1)] + [Post(1)], s, Main(true, true));
    assert [] + [Start(1)] == [Start(1)];
    assert s.dropped == {} && s.queue == [];
  }

  lemma NoSteps()
    ensures Steps(START, []) == Some(START)
  {
  }

  /** Hidden, and no way back but starting the app again: what a batch begun out of sight can lead to. */
  lemma HiddenWithoutIcon() returns (s: State)
    ensures Steps(START, FIRST_ENDED + [Start(2)] + [AskToClose(false, Unanswered)] + [Main(true, true)]) == Some(s)
    ensures s.window.Away? && s.mode.Hidden? && !s.icon
  {
    s := FirstEnded();
    hide Steps;
    s := Do(FIRST_ENDED, s, Start(2));
    s := Do(FIRST_ENDED + [Start(2)], s, AskToClose(false, Unanswered));
    s := Do(FIRST_ENDED + [Start(2)] + [AskToClose(false, Unanswered)], s, Main(true, true));
  }

  // ----- whose message closes the app

  function ClosesQueued(queue: seq<Task>): nat
  {
    if queue == [] then 0 else (if queue[0].CloseTask? then 1 else 0) + ClosesQueued(queue[1..])
  }

  /** One message is out at most, and only once the app is to close. */
  ghost predicate OneMessage(s: State)
  {
    s.messages + ClosesQueued(s.queue) <= if s.mode.Closing? then 1 else 0
  }

  lemma {:induction false} ClosesMore(queue: seq<Task>, task: Task)
    ensures ClosesQueued(queue + [task]) == ClosesQueued(queue) + if task.CloseTask? then 1 else 0
    decreases |queue|
  {
    if queue != [] {
      ClosesMore(queue[1..], task);
      assert (queue + [task])[1..] == queue[1..] + [task];
    }
  }

  /** The window is shown, or hidden again, while the message is out or its close is to come. */
  predicate LeavesMessage(s: State, action: Action)
  {
    && action.Main? && s.queue != [] && s.mode.Closing? && s.messages + ClosesQueued(s.queue) == 1
    && (s.queue[0].ShowTask? || (s.queue[0].HideTask? && s.running != {} && !s.window.Destroyed?))
  }

  lemma OneMessageStays(s: State, action: Action)
    requires OneMessage(s) && Next(s, action).Some?
    ensures OneMessage(Next(s, action).value) <==> !LeavesMessage(s, action)
  {
    match action
    case Post(batch) => ClosesMore(s.queue, EndedTask(batch));
    case AskToClose(discard, closer) => ClosesMore(s.queue, HideTask(discard, closer));
    case AskToShow => ClosesMore(s.queue, ShowTask);
    case Dismiss => ClosesMore(s.queue, CloseTask);
    case Main(icon, hidden) => MainMessages(s, icon, hidden);
    case _ =>
  }

  lemma {:induction false} MainMessages(s: State, icon: bool, hidden: bool)
    requires OneMessage(s) && s.queue != []
    ensures OneMessage(Next(s, Main(icon, hidden)).value) <==> !LeavesMessage(s, Main(icon, hidden))
  {
    assert ClosesQueued(s.queue) == (if s.queue[0].CloseTask? then 1 else 0) + ClosesQueued(s.queue[1..]);
    hide ClosesQueued;
    if s.queue[0].HideTask? { HideMessages(s, icon, hidden); }
  }

  lemma {:induction false} HideMessages(s: State, icon: bool, hidden: bool)
    requires OneMessage(s) && s.queue != [] && s.queue[0].HideTask? && ClosesQueued(s.queue) == ClosesQueued(s.queue[1..])
    ensures OneMessage(Next(s, Main(icon, hidden)).value) <==> !LeavesMessage(s, Main(icon, hidden))
  {
    hide ClosesQueued;
  }

  /** Over a run: one message is out at most, all the way, exactly when no step leaves one behind. */
  lemma {:induction false} RunMessages(states: seq<State>, actions: seq<Action>, n: nat)
    requires IsRun(states, actions) && n <= |actions|
    ensures (forall i :: 0 <= i <= n ==> OneMessage(states[i])) <==> (forall i :: 0 <= i < n ==> !LeavesMessage(states[i], actions[i]))
    decreases n
  {
    hide Next, OneMessage, LeavesMessage;
    if n == 0 {
      assert OneMessage(START) by { StartIsClean(); }
    } else {
      RunMessages(states, actions, n - 1);
      assert Next(states[n - 1], actions[n - 1]) == Some(states[n]);
      if forall i :: 0 <= i <= n - 1 ==> OneMessage(states[i]) {
        OneMessageStays(states[n - 1], actions[n - 1]);
      }
    }
  }

  /** Then the app closes only once the message that says how the batch went was read. */
  lemma ClosesOnceRead(s: State, icon: bool, hidden: bool)
    requires OneMessage(s) && s.queue != [] && s.queue[0].CloseTask? && s.mode.Closing?
    ensures s.messages == 0 && Next(s, Main(icon, hidden)).value.window.Destroyed?
  {
  }

  /**
   * Otherwise an earlier message may close the app: it was shown for a batch before the window was
   * shown again, is read only now, and the message of the last batch has not been.
   */
  lemma EarlierMessageCloses() returns (s: State)
    ensures Steps(START, FIRST_ENDED + [AskToShow] + [Main(true, true)] + [Start(2)] + [AskToClose(false, Page)]
                         + [Main(true, true)] + [Drop(2)] + [Post(2)] + [Main(true, true)] + [Dismiss] + [Main(true, true)]) == Some(s)
    ensures s.window.Destroyed? && s.messages == 1
  {
    s := FirstEnded();
    hide Steps;
    var actions := FIRST_ENDED;
    s := Do(actions, s, AskToShow);
    actions := actions + [AskToShow];
    s := Do(actions, s, Main(true, true));
    actions := actions + [Main(true, true)];
    s := Do(actions, s, Start(2));
    actions := actions + [Start(2)];
    s := Do(actions, s, AskToClose(false, Page));
    actions := actions + [AskToClose(false, Page)];
    s := Do(actions, s, Main(true, true));
    actions := actions + [Main(true, true)];
    assert s.running == {2};
    s := Do(actions, s, Drop(2));
    actions := actions + [Drop(2)];
    assert s.running == {} && s.dropped == {2};
    s := Do(actions, s, Post(2));
    actions := actions + [Post(2)];
    s := Do(actions, s, Main(true, true));
    actions := actions + [Main(true, true)];
    s := Do(actions, s, Dismiss);
    actions := actions + [Dismiss];
    s := Do(actions, s, Main(true, true));
  }

  /**
   * The page's close is refused, no batch running; before it goes on to close the window, a batch
   * begins and the wait for the page hides the window, to discard nothing. The window was hidden with
   * that choice, and what is unsaved is discarded by the close that was refused.
   */
  lemma RefusedDiscardsHidden() returns (s: State, t: State)
    ensures Steps(START, [] + [AskToClose(true, Page)] + [Main(true, true)] + [Start(1)] + [AskToClose(false, Unanswered)]
                         + [Main(true, true)]) == Some(s)
    ensures s.window.Away? && s.mode == Hidden(false) && !s.chosen && !s.discarded
    ensures Next(s, Destroy) == Some(t) && t.discarded
  {
    hide Steps;
    var actions := [];
    assert Steps(START, []) == Some(START) by { NoSteps(); }
    s := Do(actions, START, AskToClose(true, Page));
    actions := actions + [AskToClose(true, Page)];
    s := Do(actions, s, Main(true, true));
    actions := actions + [Main(true, true)];
    s := Do(actions, s, Start(1));
    actions := actions + [Start(1)];
    s := Do(actions, s, AskToClose(false, Unanswered));
    actions := actions + [AskToClose(false, Unanswered)];
    s := Do(actions, s, Main(true, true));
    t := Next(s, Destroy).value;
  }

  // ----- the state the main thread changes

  /** `Background`, the batches running, and the window and icon they are about. */
  class Background {
    var mode: Mode
    var window: Window
    var icon: bool
    var running: set<BatchId>
    var dropped: set<BatchId>
    var queue: seq<Task>
    var messages: nat
    var refused: seq<Closer>
    var discarded: bool
    var chosen: bool

    ghost function View(): State
      reads this
    {
      State(mode, window, icon, running, dropped, queue, messages, refused, discarded, chosen)
    }

    constructor ()
      ensures View() == START
    {
      mode, window, icon, running, dropped := Open, Shown, false, {}, {};
      queue, messages, refused, discarded, chosen := [], 0, [], false, false;
    }

    /** Hides the window when a batch runs; `iconShown` and `hidden` say whether the system lets it. */
    method HideWindow(discard: bool, iconShown: bool, hidden: bool) returns (done: bool)
      modifies this`mode, this`window, this`icon, this`chosen
      ensures (View(), done) == Hide(old(View()), discard, iconShown, hidden)
    {
      if running == {} || window.Destroyed? {
        return false;
      }
      if mode.Open? {
        if !iconShown {
          return false;
        }
        icon := true;
        if !hidden {
          icon := false;
          return false;
        }
        window := Away;
      }
      mode := Hidden(discard);
      chosen := discard;
      return true;
    }

    method ShowWindow()
      modifies this`mode, this`icon, this`window
      ensures View() == Show(old(View()))
    {
      if !mode.Open? {
        mode := Open;
        icon := false;
      }
      if !window.Destroyed? {
        window := Shown;
      }
    }

    method EndedOnMain()
      modifies this`mode, this`icon, this`messages
      ensures View() == Ended(old(View()))
    {
      if !mode.Hidden? {
        return;
      }
      if running != {} {
        // `mode` is left as it is for the `EndedTask` of the last one.
        return;
      }
      mode := Closing(mode.discard);
      icon := false;
      messages := messages + 1;
    }

    method CloseWindow()
      modifies this`discarded, this`window
      ensures View() == Close(old(View()))
    {
      if !mode.Closing? {
        return;
      }
      if mode.discard {
        discarded := true;
      }
      window := Destroyed;
    }

    /** The main thread does what waits for it, the first first. */
    method RunTask(iconShown: bool, hidden: bool)
      requires queue != []
      modifies this
      ensures Next(old(View()), Main(iconShown, hidden)) == Some(View())
    {
      var task := queue[0];
      queue := queue[1..];
      match task {
        case HideTask(discard, closer) =>
          var done := HideWindow(discard, iconShown, hidden);
          if !done {
            refused := refused + [closer];
          }
        case ShowTask => ShowWindow();
        case EndedTask(_) => EndedOnMain();
        case CloseTask => CloseWindow();
      }
    }
  }
}
