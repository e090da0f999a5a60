/**
 * The crash recovery journals (src-tauri/src/recovery.rs): the edits a document has and its file
 * has not, stored among the app's data so that a later run finds them.
 */
module Journals {
  import opened Basics
  import opened Edits
  import opened Stores

  /** A path as journals compare them: without regard to case. */
  type Path = string
  type JournalId = nat

  /** How many names `Find` tries. */
  const MAX_JOURNALS := 64

  /** What a journal says was done to its file. */
  datatype Body = Body(edits: seq<Edit>, pictures: map<nat, Picture>, models: map<nat, Model>, lost: nat)

  /** A journal file: the file it is for, as that file was when it was read. */
  datatype Stored = Stored(path: Path, stamp: nat, body: Body)

  /** A journal that was taken: `sameFile` when its stamp is that of the file now. */
  datatype Found = Found(id: JournalId, body: Body, sameFile: bool)

  /** The journal files, and those this run uses. */
  datatype Folder = Folder(stored: map<JournalId, Stored>, inUse: set<JournalId>)

  /** How large journals may be, and the random names they get. */
  datatype Rules = Rules(fits: Body -> bool, name: set<JournalId> -> JournalId)

  /** What the journal of a document with these edits says. */
  function BodyOf(things: Things, applied: seq<Edit>): Body
  {
    var j := JournalledOf(applied);
    Body(j.kept,
         things.pictures.UsedBy(PicturesOf(j.kept)),
         things.models.UsedBy(ModelsOf(j.kept)),
         j.lost)
  }

  /** A new name, in use; nothing is written yet. */
  function Create(rules: Rules, folder: Folder): (Folder, JournalId)
  {
    var id := rules.name(folder.stored.Keys + folder.inUse);
    (folder.(inUse := folder.inUse + {id}), id)
  }

  /** Replaces a journal; a file without an identity has none, and a body too large is not written. */
  function Write(rules: Rules, folder: Folder, id: JournalId, path: Path, stamp: Option<nat>, body: Body): Folder
  {
    if stamp.None? || !rules.fits(body) then folder
    else folder.(stored := folder.stored[id := Stored(path, stamp.value, body)])
  }

  function Remove(folder: Folder, id: JournalId): Folder
  {
    Folder(folder.stored - {id}, folder.inUse - {id})
  }

  function Release(folder: Folder, id: JournalId): Folder
  {
    folder.(inUse := folder.inUse - {id})
  }

  /** A journal the app could have written: what one says is held to the rules for what a page asks. */
  predicate Readable(rules: Rules, body: Body)
  {
    && rules.fits(body)
    && (body.edits != [] || body.lost > 0)
    && |body.edits| + body.lost <= MAX_UNDO_EDITS
    && (forall i :: 0 <= i < |body.edits| ==> !body.edits[i].InsertPages? && Valid(body.edits[i]))
    && |body.pictures| <= MAX_PICTURES
    && PicturesOf(body.edits) <= body.pictures.Keys
    && |body.models| <= MAX_TEXT_BOX_MODELS
    && ModelsOf(body.edits) <= body.models.Keys
  }

  predicate Takeable(rules: Rules, folder: Folder, id: JournalId, path: Path)
  {
    id !in folder.inUse && id in folder.stored && folder.stored[id].path == path
    && Readable(rules, folder.stored[id].body)
  }

  function Take(rules: Rules, folder: Folder, id: JournalId, path: Path, now: Option<nat>): (Folder, Option<Found>)
  {
    if !Takeable(rules, folder, id, path) then (folder, Option.None)
    else
      var stored := folder.stored[id];
      (folder.(inUse := folder.inUse + {id}), Some(Found(id, stored.body, now == Some(stored.stamp))))
  }

  /** The first journal for a file, by name, among the first `MAX_JOURNALS`. */
  function Find(rules: Rules, folder: Folder, path: Path, now: Option<nat>): (Folder, Option<Found>)
  {
    FindAmong(rules, folder, folder.stored.Keys, MAX_JOURNALS, path, now)
  }

  function FindAmong(rules: Rules, folder: Folder, ids: set<JournalId>, left: nat, path: Path, now: Option<nat>)
    : (r: (Folder, Option<Found>))
    ensures r.1.Some? ==> r == Take(rules, folder, r.1.value.id, path, now) && r.1.value.id in ids
    ensures r.1.None? ==> r.0 == folder
    decreases left
  {
    if ids == {} || left == 0 then (folder, Option.None)
    else
      var first := Lowest(ids);
      var taken := Take(rules, folder, first, path, now);
      if taken.1.Some? then taken
      else FindAmong(rules, folder, ids - {first}, left - 1, path, now)
  }

  predicate IsLowest(l: nat, ids: set<nat>)
  {
    l in ids && forall id :: id in ids ==> l <= id
  }

  function Lowest(ids: set<nat>): (l: nat)
    requires ids != {}
    ensures IsLowest(l, ids)
  {
    LowestExists(ids);
    var l :| IsLowest(l, ids);
    l
  }

  lemma {:induction false} LowestExists(ids: set<nat>)
    requires ids != {}
    ensures exists l :: IsLowest(l, ids)
    decreases |ids|
  {
    var some :| some in ids;
    var rest := ids - {some};
    if rest == {} {
      assert ids == {some};
      assert IsLowest(some, ids);
    } else {
      LowestExists(rest);
      var l :| IsLowest(l, rest);
      assert forall id :: id in ids ==> id == some || id in rest;
      assert IsLowest(if some < l then some else l, ids);
    }
  }

  /** The names of the journals that sort before `id`. */
  function Before(ids: set<JournalId>, id: JournalId): set<JournalId>
  {
    set other | other in ids && other < id
  }

  lemma BeforeFirst(ids: set<JournalId>, id: JournalId)
    requires id in ids && Lowest(ids) != id
    ensures Before(ids, id) == Before(ids - {Lowest(ids)}, id) + {Lowest(ids)}
    ensures |Before(ids, id)| == |Before(ids - {Lowest(ids)}, id)| + 1
    ensures Lowest(ids) in Before(ids, id) && id in ids - {Lowest(ids)}
  {
    var first := Lowest(ids);
    assert first !in Before(ids - {first}, id);
    assert Before(ids, id) == Before(ids - {first}, id) + {first};
  }

  /**
   * A journal is the one that opening its file finds exactly when it can be taken, no journal that
   * sorts before it can, and fewer than `MAX_JOURNALS` sort before it.
   */
  lemma {:induction false} FoundExactlyWhen(rules: Rules, folder: Folder, ids: set<JournalId>, left: nat, path: Path, now: Option<nat>, id: JournalId)
    requires id in ids
    ensures var r := FindAmong(rules, folder, ids, left, path, now);
      (r.1.Some? && r.1.value.id == id)
      <==> && Takeable(rules, folder, id, path)
           && (forall other :: other in Before(ids, id) ==> !Takeable(rules, folder, other, path))
           && |Before(ids, id)| < left
    decreases left
  {
    hide *;
    if left > 0 {
      var first := Lowest(ids);
      LookedAt(rules, folder, ids, left, path, now);
      if first == id {
        NoneBeforeLowest(ids);
      } else {
        FoundExactlyWhen(rules, folder, ids - {first}, left - 1, path, now, id);
        BeforeFirst(ids, id);
      }
    } else {
      NotLooked(rules, folder, ids, path, now);
    }
  }

  lemma NotLooked(rules: Rules, folder: Folder, ids: set<JournalId>, path: Path, now: Option<nat>)
    ensures FindAmong(rules, folder, ids, 0, path, now).1.None?
  {
  }

  /** The lowest name is looked at first: it is found, or the rest is looked at. */
  lemma LookedAt(rules: Rules, folder: Folder, ids: set<JournalId>, left: nat, path: Path, now: Option<nat>)
    requires ids != {} && left > 0
    ensures var r := FindAmong(rules, folder, ids, left, path, now).1;
      if Takeable(rules, folder, Lowest(ids), path) then r.Some? && r.value.id == Lowest(ids)
      else r == FindAmong(rules, folder, ids - {Lowest(ids)}, left - 1, path, now).1
  {
    hide Takeable;
  }

  lemma NoneBeforeLowest(ids: set<JournalId>)
    requires ids != {}
    ensures Before(ids, Lowest(ids)) == {}
  {
    assert IsLowest(Lowest(ids), ids);
  }
}
