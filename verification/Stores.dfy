/**
 * What a document keeps by number for its edits: files pages are taken from (sources.rs), pictures
 * of picture stamps (pictures.rs) and prepared words of text boxes (text_boxes.rs). The three keep
 * their things alike; `Kept` is one of them.
 */
module Stores {
  import opened Basics
  import opened Edits

  const MAX_SOURCES := 16
  const MAX_PICTURES := 16
  const MAX_TEXT_BOX_MODELS := MAX_UNDO_EDITS

  datatype Kept<T> = Kept(things: map<nat, T>, next: nat)
  {
    function Get(id: nat): Option<T>
    {
      if id in things then Some(things[id]) else Option.None
    }

    /** Every number given is below the next one. */
    predicate Valid()
    {
      forall id :: id in things ==> id < next
    }

    /** First what no edit of the history uses is let go; then there may be room for one more. */
    function Add(thing: T, used: set<nat>, most: nat, fits: (map<nat, T>, T) -> bool): (r: Result<(Kept<T>, nat), ErrorCode>)
      requires Valid()
      ensures r.Ok? ==>
        && r.value.0.Valid()
        && r.value.1 !in things
        && r.value.0.things == (map id | id in things && id in used :: things[id])[r.value.1 := thing]
        && |r.value.0.things| <= most
        && r.value.0.next > next
    {
      var left := map id | id in things && id in used :: things[id];
      assert next !in left;
      if |left| >= most || !fits(left, thing) then Err(LimitExceeded)
      else Ok((Kept(left[next := thing], next + 1), next))
    }

    /** The things `used` names, each once: what a journal keeps. */
    function UsedBy(used: set<nat>): (m: map<nat, T>)
      ensures m.Keys <= used && m.Keys <= things.Keys
      ensures forall id :: id in m ==> m[id] == things[id]
    {
      map id | id in things && id in used :: things[id]
    }

    /** Takes the things of a journal, under their own numbers, where the number is free. */
    function Restore(journal: map<nat, T>): (k: Kept<T>)
      requires Valid()
      ensures k.Valid()
      ensures k.things == journal + things
    {
      var added := journal - things.Keys;
      assert journal + things == things + added;
      Kept(things + added, if added == map[] then next else Max(next, Highest(added.Keys) + 1))
    }
  }

  function Max(a: nat, b: nat): (m: nat)
    ensures m >= a && m >= b && (m == a || m == b)
  {
    if a >= b then a else b
  }

  predicate IsHighest(h: nat, ids: set<nat>)
  {
    h in ids && forall id :: id in ids ==> id <= h
  }

  function Highest(ids: set<nat>): (h: nat)
    requires ids != {}
    ensures IsHighest(h, ids)
  {
    HighestExists(ids);
    var h :| IsHighest(h, ids);
    h
  }

  lemma {:induction false} HighestExists(ids: set<nat>)
    requires ids != {}
    ensures exists h :: IsHighest(h, ids)
    decreases |ids|
  {
    var some :| some in ids;
    var rest := ids - {some};
    if rest == {} {
      assert ids == {some};
      assert IsHighest(some, ids);
    } else {
      HighestExists(rest);
      var h :| IsHighest(h, rest);
      assert forall id :: id in ids ==> id == some || id in rest;
      assert IsHighest(if some > h then some else h, ids);
    }
  }

  // ----- which numbers edits name

  function SourceOf(edit: Edit): set<nat>
  {
    if edit.InsertPages? then {edit.source} else {}
  }

  function PictureOf(edit: Edit): set<nat>
  {
    if edit.AddImageStamp? then {edit.image} else {}
  }

  function ModelOf(edit: Edit): set<nat>
  {
    match edit
    case AddTextBox(_, model, _) => {model}
    case SetTextBox(_, Some(model), _) => {model}
    case _ => {}
  }

  function SourcesOf(edits: seq<Edit>): set<nat>
  {
    set i, id | 0 <= i < |edits| && id in SourceOf(edits[i]) :: id
  }

  function PicturesOf(edits: seq<Edit>): set<nat>
  {
    set i, id | 0 <= i < |edits| && id in PictureOf(edits[i]) :: id
  }

  function ModelsOf(edits: seq<Edit>): set<nat>
  {
    set i, id | 0 <= i < |edits| && id in ModelOf(edits[i]) :: id
  }

  // ----- the three stores of a document

  datatype Source = Source(bytes: Content, pages: nat)

  type Picture = Content
  type Model = Content

  datatype Things = Things(sources: Kept<Source>, pictures: Kept<Picture>, models: Kept<Model>)
  {
    predicate Valid() { sources.Valid() && pictures.Valid() && models.Valid() }

    function SourcePages(): SourcePages
    {
      id => if id in sources.things then Some(sources.things[id].pages) else Option.None
    }

    /** Every number `edits` name is kept. */
    predicate Names(edits: seq<Edit>)
    {
      && SourcesOf(edits) <= sources.things.Keys
      && PicturesOf(edits) <= pictures.things.Keys
      && ModelsOf(edits) <= models.things.Keys
    }

    /** `edits` name the same things here and in `other`. */
    predicate SameFor(other: Things, edits: seq<Edit>)
    {
      && (forall id :: id in SourcesOf(edits) ==> sources.Get(id) == other.sources.Get(id))
      && (forall id :: id in PicturesOf(edits) ==> pictures.Get(id) == other.pictures.Get(id))
      && (forall id :: id in ModelsOf(edits) ==> models.Get(id) == other.models.Get(id))
    }

    function Restore(pictures': map<nat, Picture>, models': map<nat, Model>): (t: Things)
      requires Valid()
      ensures t.Valid() && t.sources == sources
      ensures t.pictures.things == pictures' + pictures.things
      ensures t.models.things == models' + models.things
    {
      Things(sources, pictures.Restore(pictures'), models.Restore(models'))
    }
  }

  const NO_THINGS := Things(Kept(map[], 0), Kept(map[], 0), Kept(map[], 0))

  /** What is sent for an edit: the edit, and the kept thing it names, if it names one. */
  datatype WorkerEdit = WorkerEdit(edit: Edit, with: Option<Content>)

  /** `None` when the edit names something that is not kept. */
  function WorkerEditOf(things: Things, edit: Edit): Option<WorkerEdit>
  {
    match edit
    case InsertPages(_, source) =>
      if source in things.sources.things
      then Some(WorkerEdit(edit, Some(things.sources.things[source].bytes))) else Option.None
    case AddImageStamp(_, image, _) =>
      if image in things.pictures.things
      then Some(WorkerEdit(edit, Some(things.pictures.things[image]))) else Option.None
    case AddTextBox(_, model, _) =>
      if model in things.models.things
      then Some(WorkerEdit(edit, Some(things.models.things[model]))) else Option.None
    case SetTextBox(_, Some(model), _) =>
      if model in things.models.things
      then Some(WorkerEdit(edit, Some(things.models.things[model]))) else Option.None
    case _ => Some(WorkerEdit(edit, Option.None))
  }

  /** Restoring a journal's things never changes what the document's own edits name. */
  lemma RestoreKeepsOwn(things: Things, pictures: map<nat, Picture>, models: map<nat, Model>, edits: seq<Edit>)
    requires things.Valid() && things.Names(edits)
    ensures things.Restore(pictures, models).SameFor(things, edits)
    ensures things.Restore(pictures, models).Names(edits)
  {
  }

  /** No number `edits` name is taken by another thing than the journal's. */
  predicate NotTaken(things: Things, pictures: map<nat, Picture>, models: map<nat, Model>, edits: seq<Edit>)
  {
    && (forall id :: id in PicturesOf(edits) && id in things.pictures.things ==>
          id in pictures && things.pictures.things[id] == pictures[id])
    && (forall id :: id in ModelsOf(edits) && id in things.models.things ==>
          id in models && things.models.things[id] == models[id])
  }

  /**
   * Restored next to what the document already keeps, the journal's edits name what they named
   * exactly when no number of theirs is taken by another thing.
   */
  lemma RestoreMeansTheJournals(things: Things, pictures: map<nat, Picture>, models: map<nat, Model>, edits: seq<Edit>)
    requires things.Valid() && forall i :: 0 <= i < |edits| ==> !edits[i].InsertPages?
    ensures things.Restore(pictures, models).SameFor(NO_THINGS.Restore(pictures, models), edits)
      <==> NotTaken(things, pictures, models, edits)
  {
    var here, alone := things.Restore(pictures, models), NO_THINGS.Restore(pictures, models);
    assert SourcesOf(edits) == {};
    if here.SameFor(alone, edits) {
      forall id | id in PicturesOf(edits) && id in things.pictures.things
        ensures id in pictures && things.pictures.things[id] == pictures[id]
      {
        assert here.pictures.Get(id) == alone.pictures.Get(id);
      }
      forall id | id in ModelsOf(edits) && id in things.models.things
        ensures id in models && things.models.things[id] == models[id]
      {
        assert here.models.Get(id) == alone.models.Get(id);
      }
    }
  }

  /** A picture prepared before recovering takes the place of the journal's picture of its number. */
  lemma RestoreTakesAnother() returns (things: Things, pictures: map<nat, Picture>, edit: Edit)
    ensures things.Valid() && PictureOf(edit) <= pictures.Keys
    ensures WorkerEditOf(NO_THINGS.Restore(pictures, map[]), edit).Some?
    ensures WorkerEditOf(things.Restore(pictures, map[]), edit) != WorkerEditOf(NO_THINGS.Restore(pictures, map[]), edit)
  {
    var mine, theirs := Content([1]), Content([2]);
    things := NO_THINGS.(pictures := Kept(map[0 := mine], 1));
    pictures := map[0 := theirs];
    edit := AddImageStamp(0, 0, 0);
  }
}
