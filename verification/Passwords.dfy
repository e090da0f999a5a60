/**
 * The passwords the app remembers (src-tauri/src/documents.rs:288-426, 450-479, 2716-2809;
 * src-tauri/src/credentials.rs:123-133): which are tried when a file opens, and which are kept.
 */
module Passwords {
  import opened Basics

  type Password = string
  type Key = nat
  type TabId = nat
  type Store = map<Key, Password>

  const MAX_ENTRIES := 256
  const MAX_PASSWORD_BYTES := 1_024

  /** A file as its worker finds it: what it is locked with, and the key passwords of it are kept by. */
  datatype File = File(lock: Option<Password>, key: Option<Key>)

  predicate Opens(f: File, password: Option<Password>) { f.lock.None? || f.lock == password }

  /** What a tab knows of its file's password. */
  datatype Facts = Facts(key: Option<Key>, record: bool)

  datatype Given = Nothing | Typed(password: Password, remember: bool) | Remembered(password: Password)

  /** How remembering a password ends. */
  datatype Kept = Kept | NoKey | Unsuitable | Full

  function Remember(store: Store, key: Option<Key>, password: Password): (r: (Store, Kept))
    ensures r.1.Kept? <==> key.Some? && 1 <= |password| <= MAX_PASSWORD_BYTES && (key.value in store || |store| < MAX_ENTRIES)
    ensures r.1.Kept? ==> r.0 == store[key.value := password]
    ensures !r.1.Kept? ==> r.0 == store
  {
    if key.None? then (store, NoKey)
    else if password == [] || |password| > MAX_PASSWORD_BYTES then (store, Unsuitable)
    else if key.value !in store && |store| >= MAX_ENTRIES then (store, Full)
    else (store[key.value := password], Kept)
  }

  function Recall(store: Store, key: Option<Key>): Option<Password>
  {
    if key.Some? && key.value in store then Some(store[key.value]) else None
  }

  /** What one opening of a file comes to; `fromMemory`: the remembered passwords that were tried. */
  datatype Loaded = Loaded(store: Store, facts: Facts, open: bool, guarded: bool, asks: bool, fromMemory: seq<Password>)

  /** Opens the file with what is given (`load_with`). */
  function Load(store: Store, facts: Facts, given: Given, f: File): Loaded
  {
    match given
    case Nothing =>
      if Opens(f, None) then Loaded(store, facts, true, false, false, [])
      else
        var remembered := Recall(store, f.key);
        var told := Facts(f.key, remembered.Some?);
        (match remembered
         case None => Loaded(store, told, false, false, true, [])
         case Some(password) =>
           var fits := Opens(f, remembered);
           Loaded(store, told, fits, fits, !fits, [password]))
    case Typed(password, remember) =>
      if !Opens(f, Some(password)) then Loaded(store, facts, false, false, true, [])
      else if !remember then Loaded(store, facts, true, true, false, [])
      else
        var kept := Remember(store, facts.key, password);
        Loaded(kept.0, facts.(record := facts.record || kept.1.Kept?), true, true, false, [])
    case Remembered(password) =>
      var fits := Opens(f, Some(password));
      Loaded(store, facts, fits, fits, !fits, [password])
  }

  // ----- the tabs

  datatype Phase = Shut | Asking | Open(guarded: bool)

  datatype Tab = Tab(phase: Phase, facts: Facts)

  datatype State = State(store: Store, tabs: map<TabId, Tab>)

  datatype Action =
    | LoadTab(tab: TabId)
    | Unlock(tab: TabId, password: Password, remember: bool)
    | Lose(tab: TabId)
    | Forget(tab: TabId)
    | ForgetAll

  function After(s: State, tab: TabId, loaded: Loaded): State
  {
    var phase := if loaded.open then Open(loaded.guarded) else if loaded.asks then Asking else Shut;
    State(loaded.store, s.tabs[tab := Tab(phase, loaded.facts)])
  }

  /** `files`: each tab's file as it is when the action finds it. */
  function Next(s: State, action: Action, files: TabId -> File): Option<State>
  {
    match action
    case LoadTab(tab) =>
      if tab in s.tabs && !s.tabs[tab].phase.Shut? then None
      else
        var facts := if tab in s.tabs then s.tabs[tab].facts else Facts(None, false);
        Some(After(s, tab, Load(s.store, facts, Nothing, files(tab))))
    case Unlock(tab, password, remember) =>
      if tab !in s.tabs || !s.tabs[tab].phase.Asking? then None
      else Some(After(s, tab, Load(s.store, s.tabs[tab].facts, Typed(password, remember), files(tab))))
    case Lose(tab) =>
      if tab !in s.tabs || s.tabs[tab].phase != Open(true) then None
      else
        var t := s.tabs[tab];
        (match if t.facts.record then Recall(s.store, t.facts.key) else None
         case Some(password) => Some(After(s, tab, Load(s.store, t.facts, Remembered(password), files(tab))))
         case None => Some(s.(tabs := s.tabs[tab := t.(phase := Asking)])))
    case Forget(tab) =>
      if tab !in s.tabs || !s.tabs[tab].phase.Open? then None
      else
        var t := s.tabs[tab];
        Some(State(if t.facts.record && t.facts.key.Some? then s.store - {t.facts.key.value} else s.store,
                   s.tabs[tab := t.(facts := t.facts.(record := false))]))
    case ForgetAll =>
      Some(State(map[], map tab | tab in s.tabs :: s.tabs[tab].(facts := s.tabs[tab].facts.(record := false))))
  }

  const START := State(map[], map[])

  // ----- what is kept, and what is tried

  /** A tab that asks for a password, or is open with one, knows its file's key. */
  ghost predicate Inv(s: State, files: TabId -> File)
  {
    && |s.store| <= MAX_ENTRIES
    && (forall tab :: tab in s.tabs && (s.tabs[tab].phase.Asking? || s.tabs[tab].phase == Open(true)) ==>
          s.tabs[tab].facts.key == files(tab).key)
  }

  lemma StartIsOk(files: TabId -> File)
    ensures Inv(START, files)
  {
  }

  lemma NextKeeps(s: State, action: Action, files: TabId -> File)
    requires Inv(s, files) && Next(s, action, files).Some?
    ensures Inv(Next(s, action, files).value, files)
  {
  }

  /** The store has a password for a key it did not have. */
  predicate Gains(before: Store, after: Store, key: Key, password: Password)
  {
    key in after && after[key] == password && !(key in before && before[key] == password)
  }

  /**
   * With files that stay as they are, a password is only ever remembered that the user just typed
   * and asked to be, and that has just opened the file with that key.
   */
  lemma GainsOnlyWhatOpened(s: State, action: Action, files: TabId -> File, key: Key, password: Password)
    requires Inv(s, files) && Next(s, action, files).Some?
    requires Gains(s.store, Next(s, action, files).value.store, key, password)
    ensures action.Unlock? && action.remember && action.password == password
    ensures Opens(files(action.tab), Some(password)) && files(action.tab).key == Some(key)
    ensures Next(s, action, files).value.tabs[action.tab].phase == Open(true)
  {
  }

  /** A remembered password is tried once at most as a file opens; the store stays as it is if it does not fit. */
  lemma TriedOnce(store: Store, facts: Facts, given: Given, f: File)
    ensures var r := Load(store, facts, given, f);
      && |r.fromMemory| <= 1
      && (r.fromMemory != [] ==> r.store == store)
      && (given.Nothing? && r.fromMemory != [] ==> Recall(store, f.key) == Some(r.fromMemory[0]))
      && (given.Nothing? && f.lock.Some? ==> (r.open <==> Recall(store, f.key) == f.lock))
  {
  }

  /** What a file is opened with: nothing, what is remembered for it, or what is given. */
  function TriedWith(store: Store, given: Given, f: File): Option<Password>
  {
    match given
    case Nothing => if f.lock.Some? && f.key.Some? && f.key.value in store then Some(store[f.key.value]) else None
    case Typed(password, _) => Some(password)
    case Remembered(password) => Some(password)
  }

  /**
   * When a file opens, when it is asked for a password, and what is remembered then: one without a
   * password always opens, unprotected if none was given; one with a password opens with that one only.
   */
  lemma LoadedExactlyWhen(store: Store, facts: Facts, given: Given, f: File)
    ensures var r := Load(store, facts, given, f);
      && (r.open <==> f.lock.None? || f.lock == TriedWith(store, given, f))
      && (r.asks <==> !r.open)
      && (r.guarded <==> r.open && (f.lock.Some? || !given.Nothing?))
      && r.store == (if r.open && given.Typed? && given.remember && facts.key.Some?
                        && 1 <= |given.password| <= 1_024 && (facts.key.value in store || |store| < 256)
                     then store[facts.key.value := given.password] else store)
      && (given.Nothing? && f.lock.Some? ==> r.facts == Facts(f.key, f.key.Some? && f.key.value in store))
      && (given.Nothing? && f.lock.None? ==> r.facts == facts)
      && (!given.Nothing? ==> r.facts.key == facts.key && (facts.record ==> r.facts.record))
      && (!given.Nothing? && r.facts.record && !facts.record ==> r.open && given.Typed? && given.remember)
  {
  }

  /** A tab's file is opened once, asks while its password is not known, and keeps asking until the right one is typed. */
  lemma AsksUntilOpened(s: State, tab: TabId, password: Password, remember: bool, files: TabId -> File)
    ensures var t := Next(s, LoadTab(tab), files);
      && (t.Some? <==> tab in s.tabs ==> s.tabs[tab].phase.Shut?)
      && (t.Some? ==>
            && t.value.tabs[tab].phase == (if files(tab).lock.None? then Open(false)
                                           else if files(tab).lock == TriedWith(s.store, Nothing, files(tab)) then Open(true)
                                           else Asking)
            && (files(tab).lock.None? ==>
                  t.value.tabs[tab].facts == if tab in s.tabs then s.tabs[tab].facts else Facts(None, false)))
    ensures var t := Next(s, Unlock(tab, password, remember), files);
      && (t.Some? <==> tab in s.tabs && s.tabs[tab].phase.Asking?)
      && (t.Some? ==>
            t.value.tabs[tab].phase == if files(tab).lock in {None, Some(password)} then Open(true) else Asking)
  {
  }

  /** What is forgotten is gone, for the tab's file or for all; no tab counts on it any more. */
  lemma ForgottenIsGone(s: State, tab: TabId, files: TabId -> File)
    ensures var all := Next(s, ForgetAll, files);
      all.Some? && all.value.store == map[] && all.value.tabs.Keys == s.tabs.Keys
      && forall other :: other in all.value.tabs ==> !all.value.tabs[other].facts.record && all.value.tabs[other].phase == s.tabs[other].phase
    ensures var one := Next(s, Forget(tab), files);
      && (one.Some? <==> tab in s.tabs && s.tabs[tab].phase.Open?)
      && (one.Some? ==>
            && !one.value.tabs[tab].facts.record && one.value.tabs[tab].phase == s.tabs[tab].phase
            && (forall key: Key :: key in one.value.store <==>
                  key in s.store && !(s.tabs[tab].facts.record && s.tabs[tab].facts.key == Some(key)))
            && (forall key: Key :: key in one.value.store ==> one.value.store[key] == s.store[key]))
  {
  }

  /**
   * A document lost with its worker is opened again unasked exactly when its password is remembered and
   * still opens the file; otherwise it is asked for.
   */
  lemma OpensUnasked(s: State, tab: TabId, files: TabId -> File)
    requires tab in s.tabs && s.tabs[tab].phase == Open(true)
    ensures var t := Next(s, Lose(tab), files);
      && t.Some? && t.value.store == s.store && (t.value.tabs[tab].phase in {Open(true), Asking})
      && (t.value.tabs[tab].phase == Open(true)
          <==> && s.tabs[tab].facts.record && s.tabs[tab].facts.key.Some? && s.tabs[tab].facts.key.value in s.store
               && Opens(files(tab), Some(s.store[s.tabs[tab].facts.key.value])))
  {
  }

  /** A password is typed for the file it was asked for; if that file was replaced meanwhile, it is kept for the old one. */
  lemma KeptForWhatAsked(s: State, tab: TabId, password: Password, files: TabId -> File)
    requires tab in s.tabs && s.tabs[tab].phase.Asking?
    requires Opens(files(tab), Some(password)) && 1 <= |password| <= MAX_PASSWORD_BYTES
    requires s.tabs[tab].facts.key.Some? && files(tab).key.Some?
    requires s.tabs[tab].facts.key.value in s.store || |s.store| < MAX_ENTRIES
    requires !(files(tab).key.value in s.store && s.store[files(tab).key.value] == password)
    ensures var after := Next(s, Unlock(tab, password, true), files).value.store;
      Gains(s.store, after, files(tab).key.value, password) <==> s.tabs[tab].facts.key == files(tab).key
  {
  }

  /** Asked for one file, typed for another that took its place: the entry is the first file's. */
  lemma ReplacedMeanwhile() returns (before: TabId -> File, after: TabId -> File, s: State)
    ensures before(0).key == Some(1) && after(0).key == Some(2) && Opens(after(0), Some("b")) && !Opens(before(0), Some("b"))
    ensures Next(START, LoadTab(0), before).Some?
    ensures Next(Next(START, LoadTab(0), before).value, Unlock(0, "b", true), after) == Some(s)
    ensures s.store == map[1 := "b"]
  {
    before := _ => File(Some("a"), Some(1));
    after := _ => File(Some("b"), Some(2));
    assert "a" != "b" by { assert "a"[0] != "b"[0]; }
    var asked := Next(START, LoadTab(0), before).value;
    assert asked.store == map[] && asked.tabs[0] == Tab(Asking, Facts(Some(1), false));
    s := Next(asked, Unlock(0, "b", true), after).value;
  }

  ghost predicate IsRun(states: seq<State>, actions: seq<Action>, files: TabId -> File)
  {
    && |states| == |actions| + 1 && states[0] == START
    && (forall i :: 0 <= i < |actions| ==> Next(states[i], actions[i], files) == Some(states[i + 1]))
  }

  lemma {:induction false} RunKeeps(states: seq<State>, actions: seq<Action>, files: TabId -> File, n: nat)
    requires IsRun(states, actions, files) && n <= |actions|
    ensures Inv(states[n], files)
    decreases n
  {
    hide Inv, Next;
    if n == 0 {
      StartIsOk(files);
    } else {
      RunKeeps(states, actions, files, n - 1);
      assert Next(states[n - 1], actions[n - 1], files) == Some(states[n]);
      NextKeeps(states[n - 1], actions[n - 1], files);
    }
  }

  /** Over any run, whatever is remembered for a key is what once opened a file with that key, typed for it. */
  lemma {:induction false} RememberedOpened(states: seq<State>, actions: seq<Action>, files: TabId -> File, n: nat, key: Key)
    returns (i: nat)
    requires IsRun(states, actions, files) && n <= |actions| && key in states[n].store
    ensures i < n && actions[i].Unlock? && actions[i].remember && actions[i].password == states[n].store[key]
    ensures Opens(files(actions[i].tab), Some(actions[i].password)) && files(actions[i].tab).key == Some(key)
    decreases n
  {
    assert n > 0;
    assert Next(states[n - 1], actions[n - 1], files) == Some(states[n]);
    if Gains(states[n - 1].store, states[n].store, key, states[n].store[key]) {
      RunKeeps(states, actions, files, n - 1);
      GainsOnlyWhatOpened(states[n - 1], actions[n - 1], files, key, states[n].store[key]);
      i := n - 1;
    } else {
      i := RememberedOpened(states, actions, files, n - 1, key);
    }
  }
}
