/**
 * Preparing the text boxes that come along with another file's pages
 * (src-tauri/src/documents.rs:1950-2130): the boxes not yet set are grouped by the font each tries
 * next, and a whole group is asked of the worker at once. It comes to what trying one font after
 * the other for one box after the other would.
 */
module TextBoxes {
  import opened Basics
  import W = Worker

  const MAX_SOURCE_TEXT_BOXES := 1_000
  const MAX_PREPARE_TEXT_BOXES := 200

  const FALLBACK_FAMILIES := ["Microsoft JhengHei", "Microsoft YaHei", "Yu Gothic", "Segoe UI", "Arial"]

  /** A text box of the file pages are taken from; `place` is its page, rectangle and style. */
  datatype Box = Box(place: nat, text: string, family: string)

  type Model = Content

  datatype FontInfo = FontInfo(id: nat, family: string, bold: bool, italic: bool)

  /** The fonts of the system, and which of their files can be read. */
  datatype Fonts = Fonts(list: seq<FontInfo>, readable: nat -> bool)

  datatype Outcome = Prepared(model: Model) | Refused | Deferred

  /** What one request to set texts in a font comes to. */
  datatype Response = Answered(outcomes: seq<Outcome>) | SomethingElse | Failed(error: W.HostError)

  /** The worker: its answer to its `n`th request, for a font and some texts. */
  type Answers = (nat, nat, seq<string>) -> Response

  datatype Inserted = Inserted(place: nat, model: Model)

  // ----- names without regard to the case of ASCII letters

  function LowerChar(c: char): char
  {
    if 'A' <= c <= 'Z' then c - 'A' + 'a' else c
  }

  function AsciiLower(s: string): string
  {
    seq(|s|, i requires 0 <= i < |s| => LowerChar(s[i]))
  }

  // ----- candidates

  predicate Among(candidates: seq<string>, family: string)
  {
    exists i :: 0 <= i < |candidates| && AsciiLower(candidates[i]) == AsciiLower(family)
  }

  function WithFallbacks(candidates: seq<string>, fallbacks: seq<string>): (r: seq<string>)
    ensures |r| <= |candidates| + |fallbacks| && candidates <= r
    decreases |fallbacks|
  {
    if fallbacks == [] then candidates
    else WithFallbacks(if Among(candidates, fallbacks[0]) then candidates else candidates + [fallbacks[0]], fallbacks[1..])
  }

  /** The families a box tries: its own, then the fallbacks that are not its own. */
  function Candidates(box: Box): (r: seq<string>)
    ensures 1 <= |r| <= 1 + |FALLBACK_FAMILIES| && r[0] == box.family
  {
    WithFallbacks([box.family], FALLBACK_FAMILIES)
  }

  // ----- the font of a family

  predicate Matches(font: FontInfo, key: string) { AsciiLower(font.family) == key }

  /** Lighter and upright first. */
  predicate Before(a: FontInfo, b: FontInfo)
  {
    (!a.bold && b.bold) || (a.bold == b.bold && !a.italic && b.italic)
  }

  /** The first of the family's fonts once sorted by boldness and slant. */
  function Chosen(fonts: seq<FontInfo>, key: string): (r: Option<FontInfo>)
    ensures r.None? <==> forall i :: 0 <= i < |fonts| ==> !Matches(fonts[i], key)
    ensures r.Some? ==> r.value in fonts && Matches(r.value, key)
    ensures r.Some? ==> forall i :: 0 <= i < |fonts| && Matches(fonts[i], key) ==> !Before(fonts[i], r.value)
  {
    if fonts == [] then None
    else
      var init := Chosen(fonts[..|fonts| - 1], key);
      var last := fonts[|fonts| - 1];
      if Matches(last, key) && (init.None? || Before(last, init.value)) then Some(last) else init
  }

  /** The font file that would be used for a family; `None` when there is none that can be read. */
  function FontFor(fonts: Fonts, key: string): Option<nat>
  {
    match Chosen(fonts.list, key)
    case None => None
    case Some(font) => if fonts.readable(font.id) then Some(font.id) else None
  }

  // ----- one box after the other

  /** What a worker makes of a text in a font, whenever it does; `None` when the font cannot set it. */
  type Setting = (nat, string) -> Option<Model>

  function Try(fonts: Fonts, setting: Setting, family: string, text: string): Option<Model>
  {
    match FontFor(fonts, AsciiLower(family))
    case None => None
    case Some(font) => setting(font, text)
  }

  /** The model of the first candidate family that can set the text. */
  function FirstThatSets(fonts: Fonts, setting: Setting, candidates: seq<string>, text: string): Option<Model>
    decreases |candidates|
  {
    if candidates == [] then None
    else
      var model := Try(fonts, setting, candidates[0], text);
      if model.Some? then model else FirstThatSets(fonts, setting, candidates[1..], text)
  }

  /** The boxes whose text can be prepared at all, of the first `MAX_SOURCE_TEXT_BOXES`. */
  function Usable(boxes: seq<Box>, valid: string -> bool): (r: seq<Box>)
    ensures |r| <= |boxes|
    decreases |boxes|
  {
    if boxes == [] then []
    else
      var init := Usable(boxes[..|boxes| - 1], valid);
      if valid(boxes[|boxes| - 1].text) then init + [boxes[|boxes| - 1]] else init
  }

  function Taken(boxes: seq<Box>): (r: seq<Box>)
    ensures |r| <= MAX_SOURCE_TEXT_BOXES && r <= boxes
  {
    if |boxes| <= MAX_SOURCE_TEXT_BOXES then boxes else boxes[..MAX_SOURCE_TEXT_BOXES]
  }

  /** Each box in turn, with the model of the first of its families that can set it. */
  function OneByOne(fonts: Fonts, setting: Setting, boxes: seq<Box>): seq<Inserted>
    decreases |boxes|
  {
    if boxes == [] then []
    else
      var init := OneByOne(fonts, setting, boxes[..|boxes| - 1]);
      var box := boxes[|boxes| - 1];
      var model := FirstThatSets(fonts, setting, Candidates(box), box.text);
      if model.Some? then init + [Inserted(box.place, model.value)] else init
  }

  // ----- what the worker may answer

  /** How the host checks an answer: one outcome for each text; what is deferred is at the end, after progress. */
  predicate Accepted(outcomes: seq<Outcome>, expected: nat)
  {
    && |outcomes| == expected
    && (forall i, j :: 0 <= i < j < |outcomes| && outcomes[i].Deferred? ==> outcomes[j].Deferred?)
    && (forall i :: 0 <= i < |outcomes| && outcomes[i].Deferred? ==> exists j :: 0 <= j < i && outcomes[j].Prepared?)
  }

  /** What is answered about a text is what the worker makes of it. */
  ghost predicate Truthful(answers: Answers, setting: Setting)
  {
    forall n: nat, font: nat, texts: seq<string> ::
      answers(n, font, texts).Answered? ==> TrueOf(answers(n, font, texts).outcomes, setting, font, texts)
  }

  ghost predicate TrueOf(outcomes: seq<Outcome>, setting: Setting, font: nat, texts: seq<string>)
  {
    forall i :: 0 <= i < |outcomes| && i < |texts| ==>
      match outcomes[i]
      case Prepared(model) => setting(font, texts[i]) == Some(model)
      case Refused => setting(font, texts[i]) == None
      case Deferred => true
  }

  /** Nothing goes wrong: every answer is one the host accepts. */
  ghost predicate NeverFails(answers: Answers)
  {
    forall n: nat, font: nat, texts: seq<string> ::
      answers(n, font, texts).Answered? && Accepted(answers(n, font, texts).outcomes, |texts|)
  }

  // ----- the boxes on their way

  datatype Item = Item(box: Box, candidates: seq<string>, current: nat, model: Option<Model>)
  {
    predicate Valid() { current <= |candidates| && (model.Some? ==> current < |candidates|) }

    predicate Unresolved() { model.None? && current < |candidates| }

    function Key(): string
      requires current < |candidates|
    {
      AsciiLower(candidates[current])
    }

    function Next(): (i: Item)
      requires Unresolved()
      ensures i.Valid()
    {
      this.(current := current + 1)
    }

    /** How many candidates are left to try. */
    function Left(): nat
      requires Valid()
    {
      if model.Some? then 0 else |candidates| - current
    }
  }

  predicate AllValid(items: seq<Item>) { forall i :: 0 <= i < |items| ==> items[i].Valid() }

  /** The candidates left to try, over all boxes: what every request makes fewer. */
  function TotalLeft(items: seq<Item>): nat
    requires AllValid(items)
  {
    if items == [] then 0 else TotalLeft(items[..|items| - 1]) + items[|items| - 1].Left()
  }

  lemma {:induction false} LeftOfUpdate(items: seq<Item>, i: nat, item: Item)
    requires AllValid(items) && i < |items| && item.Valid()
    ensures AllValid(items[i := item])
    ensures TotalLeft(items[i := item]) == TotalLeft(items) - items[i].Left() + item.Left()
    decreases |items|
  {
    var k := |items| - 1;
    if i < k {
      LeftOfUpdate(items[..k], i, item);
      assert items[i := item][..k] == items[..k][i := item];
    } else {
      assert items[i := item][..k] == items[..k];
    }
  }

  /** Every family before the one tried next was tried and cannot set the text; the model is of that one. */
  ghost predicate Right(fonts: Fonts, setting: Setting, item: Item)
  {
    && item.Valid()
    && (forall c :: 0 <= c < item.current ==> Try(fonts, setting, item.candidates[c], item.box.text) == None)
    && (item.model.Some? ==> Try(fonts, setting, item.candidates[item.current], item.box.text) == item.model)
  }

  /** The model is one a candidate family gives the text. */
  ghost predicate Sound(fonts: Fonts, setting: Setting, item: Item)
  {
    item.model.Some? ==>
      item.Valid() && Try(fonts, setting, item.candidates[item.current], item.box.text) == item.model
  }

  lemma {:induction false} FirstIs(fonts: Fonts, setting: Setting, candidates: seq<string>, text: string, at: nat)
    requires at <= |candidates|
    requires forall c :: 0 <= c < at ==> Try(fonts, setting, candidates[c], text) == None
    requires at < |candidates| ==> Try(fonts, setting, candidates[at], text).Some?
    ensures FirstThatSets(fonts, setting, candidates, text)
         == if at < |candidates| then Try(fonts, setting, candidates[at], text) else None
    decreases |candidates|
  {
    if candidates != [] && at > 0 {
      assert Try(fonts, setting, candidates[0], text) == None;
      FirstIs(fonts, setting, candidates[1..], text, at - 1);
    }
  }

  /** A box that is done has the model of the first family that can set it. */
  lemma DoneIsFirst(fonts: Fonts, setting: Setting, item: Item)
    requires Right(fonts, setting, item) && !item.Unresolved()
    ensures item.model == FirstThatSets(fonts, setting, item.candidates, item.box.text)
  {
    FirstIs(fonts, setting, item.candidates, item.box.text, item.current);
  }

  // ----- the loop

  /** The boxes are the same; only those at `touched` may have moved on. */
  ghost predicate Kept(before: seq<Item>, after: seq<Item>, touched: seq<nat>)
  {
    && |after| == |before|
    && AllValid(after)
    && (forall i :: 0 <= i < |after| ==> after[i].box == before[i].box && after[i].candidates == before[i].candidates)
    && (forall i :: 0 <= i < |after| && i !in touched ==> after[i] == before[i])
  }

  predicate Indices(items: seq<Item>, indices: seq<nat>)
  {
    && (forall k :: 0 <= k < |indices| ==> indices[k] < |items| && items[indices[k]].Unresolved())
    && (forall j, k :: 0 <= j < k < |indices| ==> indices[j] != indices[k])
  }

  function Told(item: Item, outcome: Outcome): (i: Item)
    requires item.Unresolved()
    ensures i.Valid() && i.box == item.box && i.candidates == item.candidates
    ensures i.Left() < item.Left() <==> !outcome.Deferred?
    ensures i.Left() <= item.Left()
  {
    match outcome
    case Prepared(model) => item.(model := Some(model))
    case Refused => item.Next()
    case Deferred => item
  }

  /** The boxes after the first `k` outcomes for those at `chunk`. */
  function ToldAll(items: seq<Item>, chunk: seq<nat>, outcomes: seq<Outcome>, k: nat): (r: seq<Item>)
    requires Indices(items, chunk) && |outcomes| == |chunk| && k <= |chunk|
    ensures |r| == |items|
  {
    if k == 0 then items
    else ToldAll(items, chunk, outcomes, k - 1)[chunk[k - 1] := Told(items[chunk[k - 1]], outcomes[k - 1])]
  }

  lemma {:induction false} ToldElse(items: seq<Item>, chunk: seq<nat>, outcomes: seq<Outcome>, k: nat, i: nat)
    requires Indices(items, chunk) && |outcomes| == |chunk| && k <= |chunk| && i < |items|
    requires forall j :: 0 <= j < k ==> chunk[j] != i
    ensures ToldAll(items, chunk, outcomes, k)[i] == items[i]
    decreases k
  {
    if k > 0 {
      ToldElse(items, chunk, outcomes, k - 1, i);
    }
  }

  lemma {:induction false} ToldThere(items: seq<Item>, chunk: seq<nat>, outcomes: seq<Outcome>, k: nat, j: nat)
    requires Indices(items, chunk) && |outcomes| == |chunk| && j < k <= |chunk|
    ensures ToldAll(items, chunk, outcomes, k)[chunk[j]] == Told(items[chunk[j]], outcomes[j])
    decreases k
  {
    if j < k - 1 {
      ToldThere(items, chunk, outcomes, k - 1, j);
    }
  }

  lemma {:induction false} ToldLeft(items: seq<Item>, chunk: seq<nat>, outcomes: seq<Outcome>, k: nat)
    requires AllValid(items) && Indices(items, chunk) && |outcomes| == |chunk| && k <= |chunk|
    ensures AllValid(ToldAll(items, chunk, outcomes, k))
    ensures TotalLeft(ToldAll(items, chunk, outcomes, k)) <= TotalLeft(items)
    ensures k > 0 && !outcomes[0].Deferred? ==> TotalLeft(ToldAll(items, chunk, outcomes, k)) < TotalLeft(items)
    decreases k
  {
    if k > 0 {
      var before := ToldAll(items, chunk, outcomes, k - 1);
      ToldLeft(items, chunk, outcomes, k - 1);
      ToldElse(items, chunk, outcomes, k - 1, chunk[k - 1]);
      LeftOfUpdate(before, chunk[k - 1], Told(items[chunk[k - 1]], outcomes[k - 1]));
    }
  }

  /** What an answer does to the boxes: those at `chunk` are told, and there is progress. */
  lemma ToldFacts(items: seq<Item>, chunk: seq<nat>, outcomes: seq<Outcome>)
    requires AllValid(items) && Indices(items, chunk) && chunk != []
    requires |outcomes| == |chunk| && !outcomes[0].Deferred?
    ensures var after := ToldAll(items, chunk, outcomes, |chunk|);
      && Kept(items, after, chunk) && TotalLeft(after) < TotalLeft(items)
      && forall j :: 0 <= j < |chunk| ==> after[chunk[j]] == Told(items[chunk[j]], outcomes[j])
  {
    var after := ToldAll(items, chunk, outcomes, |chunk|);
    ToldLeft(items, chunk, outcomes, |chunk|);
    forall j | 0 <= j < |chunk| ensures after[chunk[j]] == Told(items[chunk[j]], outcomes[j]) {
      ToldThere(items, chunk, outcomes, |chunk|, j);
    }
    forall i | 0 <= i < |items| && i !in chunk ensures after[i] == items[i] {
      ToldElse(items, chunk, outcomes, |chunk|, i);
    }
    forall i | 0 <= i < |items|
      ensures after[i].box == items[i].box && after[i].candidates == items[i].candidates
    {
      if i in chunk {
        var j :| 0 <= j < |chunk| && chunk[j] == i;
        assert after[chunk[j]] == Told(items[chunk[j]], outcomes[j]);
      }
    }
  }

  /** None of the boxes at `indices` can be set in what they try: each tries its next family. */
  method Advance(items: seq<Item>, indices: seq<nat>) returns (after: seq<Item>)
    requires Indices(items, indices)
    ensures after == ToldAll(items, indices, Refusals(|indices|), |indices|)
  {
    after := items;
    var k := 0;
    ghost var refused := Refusals(|indices|);
    while k < |indices|
      invariant 0 <= k <= |indices| && after == ToldAll(items, indices, refused, k)
    {
      ToldElse(items, indices, refused, k, indices[k]);
      after := after[indices[k] := after[indices[k]].Next()];
      k := k + 1;
    }
  }

  /** The worker's outcomes for the boxes at `chunk`. */
  method TakeOutcomes(items: seq<Item>, chunk: seq<nat>, outcomes: seq<Outcome>) returns (after: seq<Item>, deferred: bool)
    requires Indices(items, chunk) && |outcomes| == |chunk|
    ensures after == ToldAll(items, chunk, outcomes, |chunk|)
    ensures deferred <==> exists k :: 0 <= k < |outcomes| && outcomes[k].Deferred?
  {
    after, deferred := items, false;
    var k := 0;
    while k < |chunk|
      invariant 0 <= k <= |chunk| && after == ToldAll(items, chunk, outcomes, k)
      invariant deferred <==> exists j :: 0 <= j < k && outcomes[j].Deferred?
    {
      ToldElse(items, chunk, outcomes, k, chunk[k]);
      match outcomes[k] {
        case Prepared(model) => after := after[chunk[k] := after[chunk[k]].(model := Some(model))];
        case Refused => after := after[chunk[k] := after[chunk[k]].Next()];
        case Deferred => deferred := true;
      }
      k := k + 1;
    }
  }

  /** The boxes that try the same family next. */
  datatype Group = Group(key: string, family: string, indices: seq<nat>)

  ghost predicate GroupOk(items: seq<Item>, group: Group)
  {
    && group.key == AsciiLower(group.family)
    && group.indices != [] && Indices(items, group.indices)
    && forall k :: 0 <= k < |group.indices| ==> items[group.indices[k]].Key() == group.key
  }

  ghost predicate GroupsOk(items: seq<Item>, groups: seq<Group>)
  {
    && (forall g :: 0 <= g < |groups| ==> GroupOk(items, groups[g]))
    && (forall g, h :: 0 <= g < h < |groups| ==> groups[g].key != groups[h].key)
  }

  ghost predicate AllRight(fonts: Fonts, setting: Setting, items: seq<Item>)
  {
    forall i :: 0 <= i < |items| ==> Right(fonts, setting, items[i])
  }

  ghost predicate AllSound(fonts: Fonts, setting: Setting, items: seq<Item>)
  {
    forall i :: 0 <= i < |items| ==> Sound(fonts, setting, items[i])
  }

  /** All of them try the same family next. */
  ghost predicate SameKey(items: seq<Item>, indices: seq<nat>, key: string)
    requires Indices(items, indices)
  {
    forall k :: 0 <= k < |indices| ==> items[indices[k]].Key() == key
  }

  /** An outcome that is true of the font the box tries keeps what is known of the box. */
  ghost predicate TrueFor(fonts: Fonts, setting: Setting, item: Item, outcome: Outcome)
    requires item.Unresolved()
  {
    var model := Try(fonts, setting, item.candidates[item.current], item.box.text);
    match outcome
    case Prepared(m) => model == Some(m)
    case Refused => model == None
    case Deferred => true
  }

  lemma RightOne(fonts: Fonts, setting: Setting, item: Item, outcome: Outcome)
    requires item.Unresolved() && Right(fonts, setting, item) && TrueFor(fonts, setting, item, outcome)
    ensures Right(fonts, setting, Told(item, outcome))
  {
  }

  lemma RightAfter(fonts: Fonts, setting: Setting, items: seq<Item>, chunk: seq<nat>, outcomes: seq<Outcome>)
    requires AllValid(items) && Indices(items, chunk) && |outcomes| == |chunk| && AllRight(fonts, setting, items)
    requires forall k :: 0 <= k < |chunk| ==> TrueFor(fonts, setting, items[chunk[k]], outcomes[k])
    ensures AllRight(fonts, setting, ToldAll(items, chunk, outcomes, |chunk|))
  {
    hide Right, Told, TrueFor;
    var after := ToldAll(items, chunk, outcomes, |chunk|);
    forall i | 0 <= i < |after| ensures Right(fonts, setting, after[i]) {
      if i in chunk {
        var k :| 0 <= k < |chunk| && chunk[k] == i;
        ToldThere(items, chunk, outcomes, |chunk|, k);
        RightOne(fonts, setting, items[chunk[k]], outcomes[k]);
      } else {
        ToldElse(items, chunk, outcomes, |chunk|, i);
      }
    }
  }

  /** A box that was only refused has no model; one that got a model got a true one. */
  lemma {:induction false} SoundAfter(fonts: Fonts, setting: Setting, items: seq<Item>, chunk: seq<nat>, outcomes: seq<Outcome>)
    requires AllValid(items) && Indices(items, chunk) && |outcomes| == |chunk| && AllSound(fonts, setting, items)
    requires forall k :: 0 <= k < |chunk| ==>
      outcomes[k].Prepared? ==> TrueFor(fonts, setting, items[chunk[k]], outcomes[k])
    ensures AllSound(fonts, setting, ToldAll(items, chunk, outcomes, |chunk|))
  {
    var after := ToldAll(items, chunk, outcomes, |chunk|);
    hide ToldAll, Try;
    forall i | 0 <= i < |after| ensures Sound(fonts, setting, after[i]) {
      if i in chunk {
        var k :| 0 <= k < |chunk| && chunk[k] == i;
        ToldThere(items, chunk, outcomes, |chunk|, k);
        assert items[i].Unresolved();
      } else {
        ToldElse(items, chunk, outcomes, |chunk|, i);
      }
    }
  }

  function Refusals(n: nat): seq<Outcome> { seq(n, _ => Refused) }

  /** With no font for their family, or none that can be read, the boxes try their next. */
  lemma NoFont(fonts: Fonts, setting: Setting, items: seq<Item>, indices: seq<nat>, key: string)
    requires AllValid(items) && Indices(items, indices) && SameKey(items, indices, key)
    requires FontFor(fonts, key).None? && AllRight(fonts, setting, items)
    ensures AllRight(fonts, setting, ToldAll(items, indices, Refusals(|indices|), |indices|))
  {
    RightAfter(fonts, setting, items, indices, Refusals(|indices|));
  }

  /** What the worker answers about a chunk is true of each of its boxes. */
  lemma AnswerIsTrue(fonts: Fonts, setting: Setting, items: seq<Item>, chunk: seq<nat>, key: string, font: nat, outcomes: seq<Outcome>)
    requires AllValid(items) && Indices(items, chunk) && SameKey(items, chunk, key)
    requires FontFor(fonts, key) == Some(font) && |outcomes| == |chunk|
    requires TrueOf(outcomes, setting, font, Texts(items, chunk))
    ensures forall k :: 0 <= k < |chunk| ==> TrueFor(fonts, setting, items[chunk[k]], outcomes[k])
  {
  }

  function Texts(items: seq<Item>, chunk: seq<nat>): (t: seq<string>)
    requires Indices(items, chunk)
    ensures |t| == |chunk|
  {
    seq(|chunk|, k requires 0 <= k < |chunk| => items[chunk[k]].box.text)
  }

  /** What a chunk's request comes to for what is known of the boxes. */
  ghost predicate Known(fonts: Fonts, answers: Answers, setting: Setting, before: seq<Item>, after: seq<Item>)
  {
    && (Truthful(answers, setting) && AllSound(fonts, setting, before) ==> AllSound(fonts, setting, after))
    && (Truthful(answers, setting) && NeverFails(answers) && AllRight(fonts, setting, before) ==>
          AllRight(fonts, setting, after))
  }

  /** One request: a chunk of a group's boxes, in the group's font. */
  method SetChunk(fonts: Fonts, answers: Answers, ghost setting: Setting, items: seq<Item>, chunk: seq<nat>,
    ghost key: string, font: nat, asked: nat, ghost most: nat) returns (after: seq<Item>, deferred: bool, lost: bool)
    requires AllValid(items) && Indices(items, chunk) && chunk != [] && SameKey(items, chunk, key)
    requires FontFor(fonts, key) == Some(font)
    ensures Kept(items, after, chunk)
    ensures lost ==> after == items && !NeverFails(answers) && TotalLeft(after) > 0
    ensures !lost ==> TotalLeft(after) < TotalLeft(items)
    ensures Known(fonts, answers, setting, items, after)
    ensures Plain(answers, setting) ==> !deferred && !lost && HaveTried(fonts, setting, items, after, chunk)
    ensures Paid(answers, most, items, after, 1)
  {
    hide Plain, Paid, HaveTried, Known, Kept;
    deferred, lost := false, false;
    var texts := Texts(items, chunk);
    var response := answers(asked, font, texts);
    match response {
      case Answered(outcomes) =>
        if Accepted(outcomes, |chunk|) {
          FirstIsNotDeferred(outcomes, |chunk|);
          ToldFacts(items, chunk, outcomes);
          after, deferred := TakeOutcomes(items, chunk, outcomes);
          Learned(fonts, answers, setting, items, chunk, key, font, asked, outcomes);
          PlainChunk(fonts, answers, setting, items, chunk, key, font, asked, outcomes);
          PaidChunk(answers, most, items, chunk, font, asked, outcomes);
          return;
        }
      case SomethingElse =>
      case Failed(error) =>
        if W.Fatal(error) {
          lost := true;
          after := items;
          UnresolvedLeft(items, chunk[0]);
          assert !NeverFails(answers);
          FailedIsNotPlain(fonts, answers, setting, most, items, chunk);
          return;
        }
    }
    assert !NeverFails(answers);
    FailedIsNotPlain(fonts, answers, setting, most, items, chunk);
    ToldFacts(items, chunk, Refusals(|chunk|));
    after := Advance(items, chunk);
    Unlearned(fonts, answers, setting, items, chunk);
  }

  /** What a number of requests may set, when none sets more than `most` texts. */
  ghost predicate Paid(answers: Answers, most: nat, before: seq<Item>, after: seq<Item>, requests: nat)
  {
    SetsAtMost(answers, most) ==> |Emitted(after)| <= |Emitted(before)| + most * requests
  }

  lemma PaidTwice(answers: Answers, most: nat, a: seq<Item>, b: seq<Item>, c: seq<Item>, m: nat, n: nat)
    requires Paid(answers, most, a, b, m) && Paid(answers, most, b, c, n)
    ensures Paid(answers, most, a, c, m + n)
  {
    assert most * (m + n) == most * m + most * n;
  }

  lemma {:induction false} EmittedOfUpdate(items: seq<Item>, i: nat, item: Item)
    requires i < |items| && items[i].model.None?
    ensures |Emitted(items[i := item])| == |Emitted(items)| + if item.model.Some? then 1 else 0
    decreases |items|
  {
    var k := |items| - 1;
    if i < k {
      EmittedOfUpdate(items[..k], i, item);
      assert items[i := item][..k] == items[..k][i := item];
    } else {
      assert items[i := item][..k] == items[..k];
    }
  }

  lemma {:induction false} EmittedTold(items: seq<Item>, chunk: seq<nat>, outcomes: seq<Outcome>, k: nat)
    requires Indices(items, chunk) && |outcomes| == |chunk| && k <= |chunk|
    ensures |Emitted(ToldAll(items, chunk, outcomes, k))| == |Emitted(items)| + PreparedCount(outcomes[..k])
    decreases k
  {
    if k > 0 {
      EmittedTold(items, chunk, outcomes, k - 1);
      ToldElse(items, chunk, outcomes, k - 1, chunk[k - 1]);
      EmittedOfUpdate(ToldAll(items, chunk, outcomes, k - 1), chunk[k - 1], Told(items[chunk[k - 1]], outcomes[k - 1]));
      assert outcomes[..k][..k - 1] == outcomes[..k - 1];
    }
  }

  lemma PaidChunk(answers: Answers, most: nat, items: seq<Item>, chunk: seq<nat>, font: nat, asked: nat, outcomes: seq<Outcome>)
    requires Indices(items, chunk) && |outcomes| == |chunk| && answers(asked, font, Texts(items, chunk)) == Answered(outcomes)
    ensures Paid(answers, most, items, ToldAll(items, chunk, outcomes, |chunk|), 1)
  {
    EmittedTold(items, chunk, outcomes, |chunk|);
    assert outcomes[..|chunk|] == outcomes;
  }

  lemma {:induction false} NoneIsPrepared(n: nat)
    ensures PreparedCount(Refusals(n)) == 0
    decreases n
  {
    if n > 0 {
      NoneIsPrepared(n - 1);
      assert Refusals(n)[..n - 1] == Refusals(n - 1);
    }
  }

  lemma PaidRefused(answers: Answers, most: nat, items: seq<Item>, chunk: seq<nat>, requests: nat)
    requires Indices(items, chunk)
    ensures Paid(answers, most, items, ToldAll(items, chunk, Refusals(|chunk|), |chunk|), requests)
  {
    EmittedTold(items, chunk, Refusals(|chunk|), |chunk|);
    assert Refusals(|chunk|)[..|chunk|] == Refusals(|chunk|);
    NoneIsPrepared(|chunk|);
    assert most * requests >= 0;
  }

  lemma FailedIsNotPlain(fonts: Fonts, answers: Answers, setting: Setting, most: nat, items: seq<Item>, chunk: seq<nat>)
    requires Indices(items, chunk) && !NeverFails(answers)
    ensures !Plain(answers, setting)
    ensures Paid(answers, most, items, items, 1)
    ensures Paid(answers, most, items, ToldAll(items, chunk, Refusals(|chunk|), |chunk|), 1)
    ensures Known(fonts, answers, setting, items, items)
    ensures AllValid(items) ==> Kept(items, items, chunk)
  {
    PaidRefused(answers, most, items, chunk, 1);
  }

  /** With every text answered, truly, the chunk has tried its family. */
  lemma PlainChunk(fonts: Fonts, answers: Answers, setting: Setting, items: seq<Item>, chunk: seq<nat>, key: string,
    font: nat, asked: nat, outcomes: seq<Outcome>)
    requires AllValid(items) && Indices(items, chunk) && SameKey(items, chunk, key) && |outcomes| == |chunk|
    requires FontFor(fonts, key) == Some(font) && answers(asked, font, Texts(items, chunk)) == Answered(outcomes)
    ensures Plain(answers, setting) ==>
      NoneDeferred(outcomes) && HaveTried(fonts, setting, items, ToldAll(items, chunk, outcomes, |chunk|), chunk)
  {
    if Plain(answers, setting) {
      assert TrueOf(outcomes, setting, font, Texts(items, chunk)) && NoneDeferred(outcomes);
      AnswerIsTrue(fonts, setting, items, chunk, key, font, outcomes);
      forall k | 0 <= k < |chunk|
        ensures ToldAll(items, chunk, outcomes, |chunk|)[chunk[k]] == Tried(fonts, setting, items[chunk[k]])
      {
        ToldThere(items, chunk, outcomes, |chunk|, k);
        assert TrueFor(fonts, setting, items[chunk[k]], outcomes[k]);
      }
    }
  }

  lemma FirstIsNotDeferred(outcomes: seq<Outcome>, expected: nat)
    requires Accepted(outcomes, expected)
    ensures |outcomes| == expected && (expected > 0 ==> !outcomes[0].Deferred?)
  {
  }

  lemma {:induction false} UnresolvedLeft(items: seq<Item>, i: nat)
    requires AllValid(items) && i < |items| && items[i].Unresolved()
    ensures TotalLeft(items) > 0
    decreases |items|
  {
    if i < |items| - 1 {
      UnresolvedLeft(items[..|items| - 1], i);
    }
  }

  lemma Learned(fonts: Fonts, answers: Answers, setting: Setting, items: seq<Item>, chunk: seq<nat>, key: string,
    font: nat, asked: nat, outcomes: seq<Outcome>)
    requires AllValid(items) && Indices(items, chunk) && SameKey(items, chunk, key) && |outcomes| == |chunk|
    requires FontFor(fonts, key) == Some(font) && answers(asked, font, Texts(items, chunk)) == Answered(outcomes)
    ensures Known(fonts, answers, setting, items, ToldAll(items, chunk, outcomes, |chunk|))
  {
    if Truthful(answers, setting) {
      assert TrueOf(outcomes, setting, font, Texts(items, chunk));
      AnswerIsTrue(fonts, setting, items, chunk, key, font, outcomes);
      if AllSound(fonts, setting, items) { SoundAfter(fonts, setting, items, chunk, outcomes); }
      if AllRight(fonts, setting, items) { RightAfter(fonts, setting, items, chunk, outcomes); }
    }
  }

  lemma Unlearned(fonts: Fonts, answers: Answers, setting: Setting, items: seq<Item>, chunk: seq<nat>)
    requires AllValid(items) && Indices(items, chunk) && !NeverFails(answers)
    ensures Known(fonts, answers, setting, items, ToldAll(items, chunk, Refusals(|chunk|), |chunk|))
  {
    if AllSound(fonts, setting, items) { SoundAfter(fonts, setting, items, chunk, Refusals(|chunk|)); }
  }

  /** The boxes of a group not yet asked about are as they were. */
  lemma StillToAsk(items: seq<Item>, now: seq<Item>, group: Group, at: nat, end: nat)
    requires AllValid(items) && GroupOk(items, group) && at < end <= |group.indices|
    requires Kept(items, now, group.indices[..at])
    ensures var chunk := group.indices[at..end];
      chunk != [] && Indices(now, chunk) && SameKey(now, chunk, group.key)
  {
  }

  /** One family after the other: the boxes that try it are asked about, a chunk at a time. */
  method SetGroup(fonts: Fonts, answers: Answers, ghost setting: Setting, items: seq<Item>, group: Group, asked: nat,
    ghost most: nat) returns (after: seq<Item>, askedNow: nat, lost: bool)
    requires AllValid(items) && GroupOk(items, group)
    ensures Kept(items, after, group.indices)
    ensures asked <= askedNow
    ensures askedNow + TotalLeft(after) <= asked + TotalLeft(items) + if lost then 1 else 0
    ensures lost ==> !NeverFails(answers) && TotalLeft(after) > 0
    ensures !lost ==> TotalLeft(after) < TotalLeft(items)
    ensures Known(fonts, answers, setting, items, after)
    ensures Plain(answers, setting) ==>
      !lost && HaveTried(fonts, setting, items, after, group.indices) && askedNow == asked + RequestsFor(fonts, group)
    ensures Paid(answers, most, items, after, askedNow - asked)
  {
    askedNow, lost := asked, false;
    hide Plain, Paid, HaveTried;
    var chosen := Chosen(fonts.list, AsciiLower(group.family));
    if chosen.None? || !fonts.readable(chosen.value.id) {
      ToldFacts(items, group.indices, Refusals(|group.indices|));
      RefusedKnown(fonts, answers, setting, items, group);
      RefusedTried(fonts, setting, items, group);
      PaidRefused(answers, most, items, group.indices, 0);
      after := Advance(items, group.indices);
      return;
    }
    assert FontFor(fonts, group.key) == Some(chosen.value.id) && group.indices != [];
    after, askedNow, lost := AskGroup(fonts, answers, setting, items, group, chosen.value.id, asked, most);
  }

  /** The chunks of a family's boxes, in the family's font. */
  method AskGroup(fonts: Fonts, answers: Answers, ghost setting: Setting, items: seq<Item>, group: Group, font: nat, asked: nat,
    ghost most: nat) returns (after: seq<Item>, askedNow: nat, lost: bool)
    requires AllValid(items) && GroupOk(items, group) && FontFor(fonts, group.key) == Some(font)
    ensures Kept(items, after, group.indices)
    ensures asked <= askedNow
    ensures askedNow + TotalLeft(after) <= asked + TotalLeft(items) + if lost then 1 else 0
    ensures lost ==> !NeverFails(answers) && TotalLeft(after) > 0
    ensures !lost ==> TotalLeft(after) < TotalLeft(items)
    ensures Known(fonts, answers, setting, items, after)
    ensures Plain(answers, setting) ==>
      !lost && HaveTried(fonts, setting, items, after, group.indices) && askedNow == asked + Chunks(|group.indices|)
    ensures Paid(answers, most, items, after, askedNow - asked)
  {
    hide *;
    SomeInGroup(items, group);
    askedNow, lost := asked, false;
    after := items;
    var at := 0;
    AskingBegins(fonts, answers, setting, most, items, group);
    while at < |group.indices|
      invariant 0 <= at <= |group.indices| && AllValid(after) && !lost
      invariant asked <= askedNow && askedNow + TotalLeft(after) <= asked + TotalLeft(items)
      invariant at > 0 ==> TotalLeft(after) < TotalLeft(items)
      invariant Asking(fonts, answers, setting, most, items, after, group, at, askedNow - asked)
    {
      var end := ChunkEnd(at, |group.indices|);
      var chunk := group.indices[at..end];
      StillAsking(fonts, answers, setting, most, items, after, group, at, end, askedNow - asked);
      var deferred;
      ghost var before := after;
      after, deferred, lost := SetChunk(fonts, answers, setting, after, chunk, group.key, font, askedNow, most);
      AskedOn(fonts, answers, setting, most, items, before, after, group, at, askedNow - asked);
      askedNow := askedNow + 1;
      at := end;
      if lost || deferred {
        Asked(fonts, answers, setting, most, items, after, group, at, askedNow - asked);
        return;
      }
    }
    Asked(fonts, answers, setting, most, items, after, group, at, askedNow - asked);
  }

  /** Where the chunk that begins at `at` ends. */
  function ChunkEnd(at: nat, n: nat): (end: nat)
    requires at < n
    ensures at < end <= n
  {
    if at + MAX_PREPARE_TEXT_BOXES < n then at + MAX_PREPARE_TEXT_BOXES else n
  }

  /** What the first `at` boxes of a group came to, with so many requests. */
  ghost predicate Asking(fonts: Fonts, answers: Answers, setting: Setting, most: nat, items: seq<Item>, now: seq<Item>,
    group: Group, at: nat, requests: nat)
    requires AllValid(items)
  {
    && at <= |group.indices| && Kept(items, now, group.indices[..at])
    && Known(fonts, answers, setting, items, now) && Paid(answers, most, items, now, requests)
    && (Plain(answers, setting) ==>
          && HaveTried(fonts, setting, items, now, group.indices[..at]) && requests == Chunks(at)
          && (at % MAX_PREPARE_TEXT_BOXES == 0 || at == |group.indices|))
  }

  lemma AskingBegins(fonts: Fonts, answers: Answers, setting: Setting, most: nat, items: seq<Item>, group: Group)
    requires AllValid(items)
    ensures Asking(fonts, answers, setting, most, items, items, group, 0, 0)
  {
    Untouched(fonts, answers, setting, items, group.indices);
    Unpaid(fonts, answers, setting, most, items, group.indices);
    hide Kept, Known, Paid, HaveTried, Plain;
  }

  lemma StillAsking(fonts: Fonts, answers: Answers, setting: Setting, most: nat, items: seq<Item>, now: seq<Item>,
    group: Group, at: nat, end: nat, requests: nat)
    requires AllValid(items) && GroupOk(items, group) && at < end <= |group.indices|
    requires Asking(fonts, answers, setting, most, items, now, group, at, requests)
    ensures var chunk := group.indices[at..end];
      chunk != [] && Indices(now, chunk) && SameKey(now, chunk, group.key)
  {
    StillToAsk(items, now, group, at, end);
    hide *;
  }

  lemma AskedOn(fonts: Fonts, answers: Answers, setting: Setting, most: nat, items: seq<Item>, before: seq<Item>, after: seq<Item>,
    group: Group, at: nat, requests: nat)
    requires AllValid(items) && AllValid(before) && GroupOk(items, group) && at < |group.indices|
    requires Asking(fonts, answers, setting, most, items, before, group, at, requests)
    requires var chunk := group.indices[at..ChunkEnd(at, |group.indices|)];
      && Kept(before, after, chunk)
      && (Plain(answers, setting) ==> HaveTried(fonts, setting, before, after, chunk))
    requires Known(fonts, answers, setting, before, after) && Paid(answers, most, before, after, 1)
    ensures AllValid(after)
    ensures Asking(fonts, answers, setting, most, items, after, group, ChunkEnd(at, |group.indices|), requests + 1)
  {
    hide Kept, Known, Paid, HaveTried, Plain, GroupOk, Chunks;
    var end := ChunkEnd(at, |group.indices|);
    ChunkKept(fonts, answers, setting, items, before, after, group.indices, at, end);
    PaidTwice(answers, most, items, before, after, requests, 1);
    if Plain(answers, setting) {
      ChunkTried(fonts, setting, items, before, after, group, at, end);
      OneMoreChunk(at, end, |group.indices|);
    }
  }

  lemma Asked(fonts: Fonts, answers: Answers, setting: Setting, most: nat, items: seq<Item>, now: seq<Item>,
    group: Group, at: nat, requests: nat)
    requires AllValid(items) && Asking(fonts, answers, setting, most, items, now, group, at, requests)
    ensures Kept(items, now, group.indices)
    ensures Known(fonts, answers, setting, items, now) && Paid(answers, most, items, now, requests)
    ensures at == |group.indices| && Plain(answers, setting) ==>
      HaveTried(fonts, setting, items, now, group.indices) && requests == Chunks(|group.indices|)
  {
    KeptMore(items, now, group.indices, at);
    if at == |group.indices| { assert group.indices[..at] == group.indices; }
    hide Kept, Known, Paid, HaveTried, Plain, Chunks;
  }

  lemma KeptMore(items: seq<Item>, now: seq<Item>, indices: seq<nat>, at: nat)
    requires at <= |indices| && Kept(items, now, indices[..at])
    ensures Kept(items, now, indices)
  {
  }

  lemma Untouched(fonts: Fonts, answers: Answers, setting: Setting, items: seq<Item>, indices: seq<nat>)
    requires AllValid(items)
    ensures Kept(items, items, indices[..0]) && Known(fonts, answers, setting, items, items)
  {
  }

  lemma ChunkKept(fonts: Fonts, answers: Answers, setting: Setting, items: seq<Item>, before: seq<Item>, after: seq<Item>,
    indices: seq<nat>, at: nat, end: nat)
    requires at < end <= |indices|
    requires Kept(items, before, indices[..at]) && Kept(before, after, indices[at..end])
    requires Known(fonts, answers, setting, items, before) && Known(fonts, answers, setting, before, after)
    ensures AllValid(after) && Kept(items, after, indices[..end]) && Kept(items, after, indices)
    ensures Known(fonts, answers, setting, items, after)
  {
  }

  lemma SomeInGroup(items: seq<Item>, group: Group)
    requires GroupOk(items, group)
    ensures group.indices != []
  {
  }

  lemma Unpaid(fonts: Fonts, answers: Answers, setting: Setting, most: nat, items: seq<Item>, indices: seq<nat>)
    requires AllValid(items)
    ensures HaveTried(fonts, setting, items, items, indices[..0]) && Paid(answers, most, items, items, 0) && Chunks(0) == 0
  {
  }

  lemma OneMoreChunk(at: nat, end: nat, n: nat)
    requires at < end <= n && at % MAX_PREPARE_TEXT_BOXES == 0
    requires end == if at + MAX_PREPARE_TEXT_BOXES < n then at + MAX_PREPARE_TEXT_BOXES else n
    ensures Chunks(end) == Chunks(at) + 1 && (end % MAX_PREPARE_TEXT_BOXES == 0 || end == n)
  {
  }

  lemma ChunkTried(fonts: Fonts, setting: Setting, items: seq<Item>, before: seq<Item>, after: seq<Item>,
    group: Group, at: nat, end: nat)
    requires AllValid(items) && GroupOk(items, group) && at < end <= |group.indices|
    requires Kept(items, before, group.indices[..at]) && Kept(before, after, group.indices[at..end])
    requires HaveTried(fonts, setting, items, before, group.indices[..at])
    requires HaveTried(fonts, setting, before, after, group.indices[at..end])
    ensures HaveTried(fonts, setting, items, after, group.indices[..end])
  {
    var indices := group.indices;
    forall k | 0 <= k < end ensures after[indices[k]] == Tried(fonts, setting, items[indices[k]]) {
      if k < at {
        assert indices[..at][k] == indices[k] && indices[k] !in indices[at..end];
      } else {
        assert indices[at..end][k - at] == indices[k] && indices[k] !in indices[..at];
      }
    }
  }

  /** Without a font, trying a family is going on to the next. */
  lemma RefusedTried(fonts: Fonts, setting: Setting, items: seq<Item>, group: Group)
    requires AllValid(items) && GroupOk(items, group) && FontFor(fonts, group.key).None?
    ensures HaveTried(fonts, setting, items,
                      ToldAll(items, group.indices, Refusals(|group.indices|), |group.indices|), group.indices)
  {
    var n := |group.indices|;
    forall k | 0 <= k < n
      ensures ToldAll(items, group.indices, Refusals(n), n)[group.indices[k]] == Tried(fonts, setting, items[group.indices[k]])
    {
      ToldThere(items, group.indices, Refusals(n), n, k);
    }
  }

  lemma RefusedKnown(fonts: Fonts, answers: Answers, setting: Setting, items: seq<Item>, group: Group)
    requires AllValid(items) && GroupOk(items, group) && FontFor(fonts, group.key).None?
    ensures Known(fonts, answers, setting, items,
                  ToldAll(items, group.indices, Refusals(|group.indices|), |group.indices|))
  {
    if AllSound(fonts, setting, items) {
      SoundAfter(fonts, setting, items, group.indices, Refusals(|group.indices|));
    }
    if AllRight(fonts, setting, items) {
      NoFont(fonts, setting, items, group.indices, group.key);
    }
  }

  // ----- all the groups, until no box is left to try

  predicate Less(a: string, b: string)
    decreases |a|
  {
    if a == [] || b == [] then a == [] && b != []
    else a[0] < b[0] || (a[0] == b[0] && Less(a[1..], b[1..]))
  }

  /** Every unresolved box is in the group of what it tries next. */
  ghost predicate AllGrouped(items: seq<Item>, groups: seq<Group>, n: nat)
    requires n <= |items|
  {
    forall i :: 0 <= i < n && items[i].Unresolved() ==> exists g :: 0 <= g < |groups| && i in groups[g].indices
  }

  /** The boxes of the groups are among the first `n`. */
  predicate Below(groups: seq<Group>, n: nat)
  {
    forall g, k :: 0 <= g < |groups| && 0 <= k < |groups[g].indices| ==> groups[g].indices[k] < n
  }

  /** The first group of the key; `|groups|` if there is none. */
  function Find(groups: seq<Group>, key: string): (at: nat)
    ensures at <= |groups|
    ensures forall g :: 0 <= g < at ==> groups[g].key != key
    ensures at < |groups| ==> groups[at].key == key
  {
    if groups == [] || groups[0].key == key then 0 else 1 + Find(groups[1..], key)
  }

  /** Where a group of the key belongs: after the groups whose keys come before. */
  function PlaceFor(groups: seq<Group>, key: string): (place: nat)
    ensures place <= |groups|
  {
    if groups == [] || !Less(groups[0].key, key) then 0 else 1 + PlaceFor(groups[1..], key)
  }

  /** Box `i` joins the group of its key, or makes one, in the order of the keys. */
  function WithBox(items: seq<Item>, groups: seq<Group>, i: nat): seq<Group>
    requires i < |items| && items[i].Unresolved()
  {
    var family := items[i].candidates[items[i].current];
    var key := AsciiLower(family);
    var at := Find(groups, key);
    if at < |groups| then groups[at := groups[at].(indices := groups[at].indices + [i])]
    else groups[..PlaceFor(groups, key)] + [Group(key, family, [i])] + groups[PlaceFor(groups, key)..]
  }

  /** The unresolved boxes among the first `n`, grouped by the family they try next. */
  function GroupsOf(items: seq<Item>, n: nat): seq<Group>
    requires n <= |items|
  {
    if n == 0 then []
    else
      var groups := GroupsOf(items, n - 1);
      if items[n - 1].Unresolved() then WithBox(items, groups, n - 1) else groups
  }

  method Join(items: seq<Item>, groups: seq<Group>, i: nat) returns (more: seq<Group>)
    requires i < |items| && items[i].Unresolved()
    ensures more == WithBox(items, groups, i)
  {
    var family := items[i].candidates[items[i].current];
    var key := AsciiLower(family);
    var at := 0;
    while at < |groups| && groups[at].key != key
      invariant 0 <= at <= |groups| && Find(groups, key) == at + Find(groups[at..], key)
    {
      assert groups[at..][1..] == groups[at + 1..];
      at := at + 1;
    }
    if at < |groups| {
      more := groups[at := groups[at].(indices := groups[at].indices + [i])];
    } else {
      var place := 0;
      while place < |groups| && Less(groups[place].key, key)
        invariant 0 <= place <= |groups| && PlaceFor(groups, key) == place + PlaceFor(groups[place..], key)
      {
        assert groups[place..][1..] == groups[place + 1..];
        place := place + 1;
      }
      more := groups[..place] + [Group(key, family, [i])] + groups[place..];
    }
  }

  /** Every unresolved box is in the one group of what it tries next, and only those are. */
  lemma {:induction false} GroupsOfOk(items: seq<Item>, n: nat)
    requires n <= |items|
    ensures GroupsOk(items, GroupsOf(items, n)) && Below(GroupsOf(items, n), n) && AllGrouped(items, GroupsOf(items, n), n)
    decreases n
  {
    hide GroupsOk, Below, AllGrouped, WithBox;
    if n == 0 {
      NoneGrouped(items);
    } else {
      GroupsOfOk(items, n - 1);
      if items[n - 1].Unresolved() {
        JoinedOrMade(items, GroupsOf(items, n - 1), n - 1);
      } else {
        NotGrouped(items, GroupsOf(items, n - 1), n - 1);
      }
    }
  }

  lemma NoneGrouped(items: seq<Item>)
    ensures GroupsOk(items, []) && Below([], 0) && AllGrouped(items, [], 0)
  {
  }

  /** A box that is done needs no group. */
  lemma NotGrouped(items: seq<Item>, groups: seq<Group>, i: nat)
    requires i < |items| && !items[i].Unresolved() && Below(groups, i) && AllGrouped(items, groups, i)
    ensures Below(groups, i + 1) && AllGrouped(items, groups, i + 1)
  {
  }

  lemma {:induction false} JoinedOrMade(items: seq<Item>, groups: seq<Group>, i: nat)
    requires i < |items| && items[i].Unresolved()
    requires GroupsOk(items, groups) && Below(groups, i) && AllGrouped(items, groups, i)
    ensures var more := WithBox(items, groups, i);
      GroupsOk(items, more) && Below(more, i + 1) && AllGrouped(items, more, i + 1)
  {
    hide GroupsOk, Below, AllGrouped, AsciiLower;
    var at := Find(groups, items[i].Key());
    if at < |groups| {
      Joined(items, groups, WithBox(items, groups, i), at, i);
    } else {
      Made(items, groups, WithBox(items, groups, i), PlaceFor(groups, items[i].Key()), i);
    }
  }

  lemma {:induction false} Joined(items: seq<Item>, groups: seq<Group>, more: seq<Group>, at: nat, i: nat)
    requires GroupsOk(items, groups) && Below(groups, i) && i < |items| && items[i].Unresolved()
    requires AllGrouped(items, groups, i) && at < |groups| && groups[at].key == items[i].Key()
    requires more == groups[at := groups[at].(indices := groups[at].indices + [i])]
    ensures GroupsOk(items, more) && Below(more, i + 1) && AllGrouped(items, more, i + 1)
  {
    hide AsciiLower;
    JoinedOk(items, groups[at], i);
    JoinedBelow(groups, more, at, i);
    JoinedAll(items, groups, more, at, i);
    hide GroupOk;
    forall g | 0 <= g < |more| ensures GroupOk(items, more[g]) {
      if g != at { assert more[g] == groups[g]; }
    }
  }

  lemma JoinedOk(items: seq<Item>, group: Group, i: nat)
    requires GroupOk(items, group) && i < |items| && items[i].Unresolved() && group.key == items[i].Key()
    requires forall k :: 0 <= k < |group.indices| ==> group.indices[k] < i
    ensures GroupOk(items, group.(indices := group.indices + [i]))
  {
    hide AsciiLower;
    var now := group.indices + [i];
    assert forall k :: 0 <= k < |group.indices| ==> now[k] == group.indices[k];
  }

  lemma JoinedBelow(groups: seq<Group>, more: seq<Group>, at: nat, i: nat)
    requires Below(groups, i) && at < |groups|
    requires more == groups[at := groups[at].(indices := groups[at].indices + [i])]
    ensures Below(more, i + 1)
  {
  }

  lemma JoinedAll(items: seq<Item>, groups: seq<Group>, more: seq<Group>, at: nat, i: nat)
    requires i < |items| && AllGrouped(items, groups, i) && at < |groups|
    requires more == groups[at := groups[at].(indices := groups[at].indices + [i])]
    ensures AllGrouped(items, more, i + 1)
  {
    forall j | 0 <= j < i + 1 && items[j].Unresolved() ensures exists g :: 0 <= g < |more| && j in more[g].indices {
      if j == i {
        assert more[at].indices[|more[at].indices| - 1] == i;
        assert j in more[at].indices;
      } else {
        var g :| 0 <= g < |groups| && j in groups[g].indices;
        assert j in more[g].indices;
      }
    }
  }

  /** `more` is `groups` with one group for box `i` at `place`. */
  ghost predicate PutAt(groups: seq<Group>, more: seq<Group>, place: nat, group: Group)
  {
    && place <= |groups| && |more| == |groups| + 1
    && (forall g :: 0 <= g < place ==> more[g] == groups[g])
    && more[place] == group
    && (forall g :: place < g < |more| ==> more[g] == groups[g - 1])
  }

  lemma MadeGroupsOk(items: seq<Item>, groups: seq<Group>, more: seq<Group>, place: nat, group: Group)
    requires GroupsOk(items, groups) && PutAt(groups, more, place, group) && GroupOk(items, group)
    requires forall g :: 0 <= g < |groups| ==> groups[g].key != group.key
    ensures GroupsOk(items, more)
  {
  }

  lemma MadeGrouped(items: seq<Item>, groups: seq<Group>, more: seq<Group>, place: nat, group: Group, i: nat)
    requires i < |items| && AllGrouped(items, groups, i) && PutAt(groups, more, place, group) && i in group.indices
    ensures AllGrouped(items, more, i + 1)
  {
    forall j | 0 <= j < i + 1 && items[j].Unresolved() ensures exists g :: 0 <= g < |more| && j in more[g].indices {
      if j == i {
        assert j in more[place].indices;
      } else {
        var g :| 0 <= g < |groups| && j in groups[g].indices;
        assert j in more[if g < place then g else g + 1].indices;
      }
    }
  }

  lemma Made(items: seq<Item>, groups: seq<Group>, more: seq<Group>, place: nat, i: nat)
    requires GroupsOk(items, groups) && Below(groups, i) && i < |items| && items[i].Unresolved()
    requires AllGrouped(items, groups, i) && place <= |groups|
    requires forall g :: 0 <= g < |groups| ==> groups[g].key != items[i].Key()
    requires more == groups[..place] + [Group(items[i].Key(), items[i].candidates[items[i].current], [i])] + groups[place..]
    ensures GroupsOk(items, more) && Below(more, i + 1) && AllGrouped(items, more, i + 1)
  {
    var group := Group(items[i].Key(), items[i].candidates[items[i].current], [i]);
    assert PutAt(groups, more, place, group);
    assert GroupOk(items, group);
    MadeGroupsOk(items, groups, more, place, group);
    MadeGrouped(items, groups, more, place, group, i);
    forall g, k | 0 <= g < |more| && 0 <= k < |more[g].indices| ensures more[g].indices[k] < i + 1 {
      if g < place { assert more[g] == groups[g]; }
      if g > place { assert more[g] == groups[g - 1]; }
    }
  }

  method Grouped(items: seq<Item>) returns (groups: seq<Group>)
    ensures groups == GroupsOf(items, |items|)
    ensures GroupsOk(items, groups) && AllGrouped(items, groups, |items|)
  {
    groups := [];
    var i := 0;
    while i < |items|
      invariant 0 <= i <= |items| && groups == GroupsOf(items, i)
    {
      if items[i].Unresolved() {
        groups := Join(items, groups, i);
      }
      i := i + 1;
    }
    GroupsOfOk(items, |items|);
  }

  // ----- when nothing fails and nothing is deferred

  /** What one family makes of a box that tries it. */
  function Tried(fonts: Fonts, setting: Setting, item: Item): (i: Item)
    requires item.Valid()
    ensures i.Valid() && i.box == item.box && i.candidates == item.candidates
    ensures item.Unresolved() ==> i.Left() < item.Left()
    ensures !item.Unresolved() ==> i == item
  {
    if !item.Unresolved() then item
    else
      var model := Try(fonts, setting, item.candidates[item.current], item.box.text);
      if model.Some? then item.(model := model) else item.Next()
  }

  /** The boxes once each of them tried its next family. */
  function AfterRound(fonts: Fonts, setting: Setting, items: seq<Item>): (r: seq<Item>)
    requires AllValid(items)
    ensures |r| == |items| && AllValid(r)
    ensures forall i :: 0 <= i < |r| ==> r[i] == Tried(fonts, setting, items[i])
  {
    seq(|items|, i requires 0 <= i < |items| => Tried(fonts, setting, items[i]))
  }

  /** The requests for `n` boxes of a family. */
  function Chunks(n: nat): nat { (n + MAX_PREPARE_TEXT_BOXES - 1) / MAX_PREPARE_TEXT_BOXES }

  /** None when there is no font to ask about. */
  function RequestsFor(fonts: Fonts, group: Group): nat
  {
    if FontFor(fonts, group.key).Some? then Chunks(|group.indices|) else 0
  }

  function RequestsForAll(fonts: Fonts, groups: seq<Group>): nat
  {
    if groups == [] then 0 else RequestsForAll(fonts, groups[..|groups| - 1]) + RequestsFor(fonts, groups[|groups| - 1])
  }

  predicate AllDone(items: seq<Item>) { forall i :: 0 <= i < |items| ==> !items[i].Unresolved() }

  lemma {:induction false} RoundLeavesLess(fonts: Fonts, setting: Setting, items: seq<Item>)
    requires AllValid(items)
    ensures TotalLeft(AfterRound(fonts, setting, items)) <= TotalLeft(items)
    ensures !AllDone(items) ==> TotalLeft(AfterRound(fonts, setting, items)) < TotalLeft(items)
    decreases |items|
  {
    if items != [] {
      var k := |items| - 1;
      RoundLeavesLess(fonts, setting, items[..k]);
      assert AfterRound(fonts, setting, items)[..k] == AfterRound(fonts, setting, items[..k]);
      if !AllDone(items) && AllDone(items[..k]) {
        assert forall i :: 0 <= i < k ==> items[i] == items[..k][i];
        assert items[k].Unresolved();
      }
    }
  }

  /**
   * The requests it takes when nothing fails and nothing is deferred: round after round, for each
   * family the boxes left try next, one for every `MAX_PREPARE_TEXT_BOXES` of them.
   */
  function Requests(fonts: Fonts, setting: Setting, items: seq<Item>): nat
    requires AllValid(items)
    decreases TotalLeft(items)
  {
    if AllDone(items) then 0
    else
      RoundLeavesLess(fonts, setting, items);
      RequestsForAll(fonts, GroupsOf(items, |items|)) + Requests(fonts, setting, AfterRound(fonts, setting, items))
  }

  /** Every text is answered, truly. */
  ghost predicate Plain(answers: Answers, setting: Setting)
  {
    Truthful(answers, setting) && NeverFails(answers) && NeverDefers(answers)
  }

  ghost predicate NeverDefers(answers: Answers)
  {
    forall n: nat, font: nat, texts: seq<string> ::
      answers(n, font, texts).Answered? ==> NoneDeferred(answers(n, font, texts).outcomes)
  }

  predicate NoneDeferred(outcomes: seq<Outcome>) { forall i :: 0 <= i < |outcomes| ==> !outcomes[i].Deferred? }

  /** The boxes at `indices` have tried their next family. */
  ghost predicate HaveTried(fonts: Fonts, setting: Setting, items: seq<Item>, after: seq<Item>, indices: seq<nat>)
    requires AllValid(items)
  {
    |after| == |items| && forall k :: 0 <= k < |indices| && indices[k] < |items| ==> after[indices[k]] == Tried(fonts, setting, items[indices[k]])
  }

  /** How many texts an answer sets. */
  function PreparedCount(outcomes: seq<Outcome>): (n: nat)
    ensures n <= |outcomes|
  {
    if outcomes == [] then 0
    else PreparedCount(outcomes[..|outcomes| - 1]) + if outcomes[|outcomes| - 1].Prepared? then 1 else 0
  }

  ghost predicate SetsAtMost(answers: Answers, most: nat)
  {
    forall n: nat, font: nat, texts: seq<string> ::
      answers(n, font, texts).Answered? ==> PreparedCount(answers(n, font, texts).outcomes) <= most
  }

  /** The boxes and their candidates stay what they are. */
  ghost predicate SameBoxes(before: seq<Item>, after: seq<Item>)
  {
    && |after| == |before|
    && (forall i :: 0 <= i < |after| ==> after[i].box == before[i].box && after[i].candidates == before[i].candidates)
  }

  /** The groups from `g` on are still to be asked about. */
  ghost predicate Waiting(items: seq<Item>, now: seq<Item>, groups: seq<Group>, g: nat)
  {
    && SameBoxes(items, now)
    && forall h, k :: g <= h < |groups| && 0 <= k < |groups[h].indices| && groups[h].indices[k] < |items| ==>
         now[groups[h].indices[k]] == items[groups[h].indices[k]]
  }

  lemma NextWaits(items: seq<Item>, now: seq<Item>, after: seq<Item>, groups: seq<Group>, g: nat)
    requires GroupsOk(items, groups) && g < |groups| && Waiting(items, now, groups, g)
    requires Kept(now, after, groups[g].indices)
    ensures Waiting(items, after, groups, g + 1)
  {
  }

  lemma WaitingIsOk(items: seq<Item>, now: seq<Item>, groups: seq<Group>, g: nat)
    requires GroupsOk(items, groups) && g < |groups| && Waiting(items, now, groups, g)
    ensures GroupOk(now, groups[g])
  {
  }

  /** Every group once. */
  method Round(fonts: Fonts, answers: Answers, ghost setting: Setting, items: seq<Item>, groups: seq<Group>, asked: nat,
    ghost most: nat) returns (after: seq<Item>, askedNow: nat, lost: bool)
    requires AllValid(items) && GroupsOk(items, groups) && groups != [] && AllGrouped(items, groups, |items|)
    ensures AllValid(after) && SameBoxes(items, after)
    ensures asked <= askedNow
    ensures askedNow + TotalLeft(after) <= asked + TotalLeft(items) + if lost then 1 else 0
    ensures lost ==> !NeverFails(answers) && TotalLeft(after) > 0
    ensures !lost ==> TotalLeft(after) < TotalLeft(items)
    ensures Known(fonts, answers, setting, items, after)
    ensures Plain(answers, setting) ==>
      !lost && after == AfterRound(fonts, setting, items) && askedNow == asked + RequestsForAll(fonts, groups)
    ensures Paid(answers, most, items, after, askedNow - asked)
  {
    hide *;
    after, askedNow, lost := items, asked, false;
    var g := 0;
    GoingBegins(fonts, answers, setting, most, items, groups);
    AllWait(items, groups);
    while g < |groups|
      invariant 0 <= g <= |groups| && AllValid(after) && Waiting(items, after, groups, g) && !lost
      invariant asked <= askedNow && askedNow + TotalLeft(after) <= asked + TotalLeft(items)
      invariant g > 0 ==> TotalLeft(after) < TotalLeft(items)
      invariant Going(fonts, answers, setting, most, items, after, groups, g, askedNow - asked)
    {
      WaitingIsOk(items, after, groups, g);
      ghost var before, askedBefore := after, askedNow;
      after, askedNow, lost := SetGroup(fonts, answers, setting, after, groups[g], askedNow, most);
      NextWaits(items, before, after, groups, g);
      KeptIsValid(before, after, groups[g].indices);
      GoesOn(fonts, answers, setting, most, items, before, after, groups, g, askedBefore - asked, askedNow - askedBefore);
      g := g + 1;
      if lost {
        break;
      }
    }
    WaitingSame(items, after, groups, g);
    WentSoFar(fonts, answers, setting, most, items, after, groups, g, askedNow - asked);
  }

  /** What the first `g` groups came to, with so many requests. */
  ghost predicate Going(fonts: Fonts, answers: Answers, setting: Setting, most: nat, items: seq<Item>, now: seq<Item>,
    groups: seq<Group>, g: nat, requests: nat)
    requires AllValid(items)
  {
    && g <= |groups| && Known(fonts, answers, setting, items, now) && Paid(answers, most, items, now, requests)
    && (Plain(answers, setting) ==>
          RoundSoFar(fonts, setting, items, now, groups, g) && requests == RequestsForAll(fonts, groups[..g]))
  }

  lemma GoingBegins(fonts: Fonts, answers: Answers, setting: Setting, most: nat, items: seq<Item>, groups: seq<Group>)
    requires AllValid(items)
    ensures Going(fonts, answers, setting, most, items, items, groups, 0, 0)
  {
  }

  lemma GoesOn(fonts: Fonts, answers: Answers, setting: Setting, most: nat, items: seq<Item>, before: seq<Item>, after: seq<Item>,
    groups: seq<Group>, g: nat, m: nat, n: nat)
    requires AllValid(items) && AllValid(before) && GroupsOk(items, groups) && g < |groups|
    requires Going(fonts, answers, setting, most, items, before, groups, g, m) && Waiting(items, before, groups, g)
    requires Kept(before, after, groups[g].indices)
    requires Known(fonts, answers, setting, before, after) && Paid(answers, most, before, after, n)
    requires Plain(answers, setting) ==>
      HaveTried(fonts, setting, before, after, groups[g].indices) && n == RequestsFor(fonts, groups[g])
    ensures Going(fonts, answers, setting, most, items, after, groups, g + 1, m + n)
  {
    KnownTwice(fonts, answers, setting, items, before, after);
    PaidTwice(answers, most, items, before, after, m, n);
    hide Known, Paid, Kept, Waiting, Plain, RoundSoFar, HaveTried, GroupsOk, RequestsFor;
    if Plain(answers, setting) {
      RoundGoesOn(fonts, setting, items, before, after, groups, g);
      assert groups[..g + 1][..g] == groups[..g];
    }
  }

  lemma WentSoFar(fonts: Fonts, answers: Answers, setting: Setting, most: nat, items: seq<Item>, now: seq<Item>,
    groups: seq<Group>, g: nat, requests: nat)
    requires AllValid(items) && GroupsOk(items, groups) && AllGrouped(items, groups, |items|)
    requires Going(fonts, answers, setting, most, items, now, groups, g, requests)
    ensures Known(fonts, answers, setting, items, now) && Paid(answers, most, items, now, requests)
    ensures g == |groups| && Plain(answers, setting) ==>
      now == AfterRound(fonts, setting, items) && requests == RequestsForAll(fonts, groups)
  {
    hide Known, Paid, Plain;
    if g == |groups| && Plain(answers, setting) {
      assert groups[..g] == groups;
      RoundEnds(fonts, setting, items, now, groups);
    }
  }

  /** The boxes of the first `g` groups have tried their next family; the others are as they were. */
  ghost predicate RoundSoFar(fonts: Fonts, setting: Setting, items: seq<Item>, now: seq<Item>, groups: seq<Group>, g: nat)
    requires AllValid(items)
  {
    && |now| == |items| && g <= |groups|
    && (forall h :: 0 <= h < g ==> HaveTried(fonts, setting, items, now, groups[h].indices))
    && (forall i :: 0 <= i < |items| && !items[i].Unresolved() ==> now[i] == items[i])
  }

  lemma RoundGoesOn(fonts: Fonts, setting: Setting, items: seq<Item>, before: seq<Item>, after: seq<Item>, groups: seq<Group>, g: nat)
    requires AllValid(items) && AllValid(before) && GroupsOk(items, groups) && g < |groups|
    requires RoundSoFar(fonts, setting, items, before, groups, g) && Waiting(items, before, groups, g)
    requires Kept(before, after, groups[g].indices) && HaveTried(fonts, setting, before, after, groups[g].indices)
    ensures RoundSoFar(fonts, setting, items, after, groups, g + 1)
  {
    var mine := groups[g].indices;
    assert GroupOk(items, groups[g]);
    forall h | 0 <= h < g ensures HaveTried(fonts, setting, items, after, groups[h].indices) {
      GroupsApart(items, groups, h, g);
      assert HaveTried(fonts, setting, items, before, groups[h].indices);
    }
    assert HaveTried(fonts, setting, items, after, mine);
    forall i | 0 <= i < |items| && !items[i].Unresolved() ensures after[i] == items[i] {
      assert i !in mine;
    }
  }

  /** No box is in two groups. */
  lemma GroupsApart(items: seq<Item>, groups: seq<Group>, h: nat, g: nat)
    requires GroupsOk(items, groups) && h < g < |groups|
    ensures forall k :: 0 <= k < |groups[h].indices| ==> groups[h].indices[k] !in groups[g].indices
  {
    assert GroupOk(items, groups[h]) && GroupOk(items, groups[g]) && groups[h].key != groups[g].key;
  }

  lemma RoundEnds(fonts: Fonts, setting: Setting, items: seq<Item>, after: seq<Item>, groups: seq<Group>)
    requires AllValid(items) && GroupsOk(items, groups) && AllGrouped(items, groups, |items|)
    requires RoundSoFar(fonts, setting, items, after, groups, |groups|)
    ensures after == AfterRound(fonts, setting, items)
  {
    forall i | 0 <= i < |items| ensures after[i] == Tried(fonts, setting, items[i]) {
      if items[i].Unresolved() {
        var g :| 0 <= g < |groups| && i in groups[g].indices;
        var k :| 0 <= k < |groups[g].indices| && groups[g].indices[k] == i;
        assert HaveTried(fonts, setting, items, after, groups[g].indices);
      }
    }
  }

  lemma AllWait(items: seq<Item>, groups: seq<Group>)
    ensures Waiting(items, items, groups, 0)
  {
  }

  lemma WaitingSame(items: seq<Item>, now: seq<Item>, groups: seq<Group>, g: nat)
    requires Waiting(items, now, groups, g)
    ensures SameBoxes(items, now)
  {
  }

  lemma KeptIsValid(before: seq<Item>, after: seq<Item>, touched: seq<nat>)
    requires Kept(before, after, touched)
    ensures AllValid(after)
  {
  }

  lemma KnownTwice(fonts: Fonts, answers: Answers, setting: Setting, a: seq<Item>, b: seq<Item>, c: seq<Item>)
    requires Known(fonts, answers, setting, a, b) && Known(fonts, answers, setting, b, c)
    ensures Known(fonts, answers, setting, a, c)
  {
  }

  /** The boxes to set, none tried yet. */
  function Waited(boxes: seq<Box>): (items: seq<Item>)
    ensures |items| == |boxes| && AllValid(items)
    ensures forall i :: 0 <= i < |items| ==> items[i] == Item(boxes[i], Candidates(boxes[i]), 0, None)
  {
    seq(|boxes|, i requires 0 <= i < |boxes| => Item(boxes[i], Candidates(boxes[i]), 0, None))
  }

  /** What was set, in the order of the boxes. */
  function Emitted(items: seq<Item>): (r: seq<Inserted>)
    ensures |r| <= |items|
    decreases |items|
  {
    if items == [] then []
    else
      var init := Emitted(items[..|items| - 1]);
      var last := items[|items| - 1];
      if last.model.Some? then init + [Inserted(last.box.place, last.model.value)] else init
  }

  /** All families the boxes may try. */
  function Families(boxes: seq<Box>): nat
    decreases |boxes|
  {
    if boxes == [] then 0 else Families(boxes[..|boxes| - 1]) + |Candidates(boxes[|boxes| - 1])|
  }

  lemma {:induction false} WaitedLeft(boxes: seq<Box>)
    ensures TotalLeft(Waited(boxes)) == Families(boxes) <= |boxes| * (1 + |FALLBACK_FAMILIES|)
    decreases |boxes|
  {
    hide Candidates;
    if boxes != [] {
      WaitedLeft(boxes[..|boxes| - 1]);
      assert Waited(boxes)[..|boxes| - 1] == Waited(boxes[..|boxes| - 1]);
    }
  }

  lemma {:induction false} EmittedIsOneByOne(fonts: Fonts, setting: Setting, boxes: seq<Box>, items: seq<Item>)
    requires SameBoxes(Waited(boxes), items) && AllValid(items) && AllRight(fonts, setting, items)
    requires forall i :: 0 <= i < |items| ==> !items[i].Unresolved()
    ensures Emitted(items) == OneByOne(fonts, setting, boxes)
    decreases |boxes|
  {
    if boxes != [] {
      var k := |boxes| - 1;
      assert Waited(boxes)[..k] == Waited(boxes[..k]);
      EmittedIsOneByOne(fonts, setting, boxes[..k], items[..k]);
      DoneIsFirst(fonts, setting, items[k]);
    }
  }

  /** What is emitted is a candidate family's for one of the boxes, at its place. */
  ghost predicate FromABox(fonts: Fonts, setting: Setting, boxes: seq<Box>, one: Inserted)
  {
    exists i, c :: 0 <= i < |boxes| && 0 <= c < |Candidates(boxes[i])| && one.place == boxes[i].place
      && Try(fonts, setting, Candidates(boxes[i])[c], boxes[i].text) == Some(one.model)
  }

  lemma {:induction false} EmittedIsSound(fonts: Fonts, setting: Setting, boxes: seq<Box>, items: seq<Item>, n: nat, k: nat)
    requires n <= |items| && SameBoxes(Waited(boxes), items) && AllSound(fonts, setting, items)
    requires k < |Emitted(items[..n])|
    ensures FromABox(fonts, setting, boxes, Emitted(items[..n])[k])
    decreases n
  {
    hide FromABox, AllSound, SameBoxes, Waited;
    assert items[..n][..n - 1] == items[..n - 1];
    if k < |Emitted(items[..n - 1])| {
      EmittedIsSound(fonts, setting, boxes, items, n - 1, k);
    } else {
      OneIsSound(fonts, setting, boxes, items, n - 1);
    }
  }

  lemma OneIsSound(fonts: Fonts, setting: Setting, boxes: seq<Box>, items: seq<Item>, i: nat)
    requires i < |items| && SameBoxes(Waited(boxes), items) && AllSound(fonts, setting, items) && items[i].model.Some?
    ensures FromABox(fonts, setting, boxes, Inserted(items[i].box.place, items[i].model.value))
  {
    assert Sound(fonts, setting, items[i]);
    assert items[i].candidates == Candidates(boxes[i]);
  }

  /**
   * The batched preparation. However the worker answers, it ends, with no more requests than the
   * boxes have families to try, and every model is one a family of its box gives. When nothing
   * fails, it is what trying one family after the other for one box after the other gives, however
   * the worker defers; and when nothing is deferred either, `Requests` says how many requests it takes.
   * With no more than `most` texts set by any answer, it takes as many requests as that calls for.
   */
  method PrepareInserted(fonts: Fonts, answers: Answers, ghost setting: Setting, valid: string -> bool, boxes: seq<Box>,
    ghost most: nat) returns (inserted: seq<Inserted>, asked: nat, lost: bool)
    ensures var usable := Usable(Taken(boxes), valid);
      && asked <= Families(usable)
      && (lost ==> !NeverFails(answers))
      && (Truthful(answers, setting) && NeverFails(answers) ==> inserted == OneByOne(fonts, setting, usable))
      && (Truthful(answers, setting) ==> |inserted| <= |usable|)
      && (Truthful(answers, setting) ==>
            forall k :: 0 <= k < |inserted| ==> FromABox(fonts, setting, usable, inserted[k]))
      && (Plain(answers, setting) ==> asked == Requests(fonts, setting, Waited(usable)))
      && (SetsAtMost(answers, most) ==> |inserted| <= most * asked)
  {
    hide *;
    var usable := Usable(Taken(boxes), valid);
    var items := Waited(usable);
    asked, lost := 0, false;
    WaitedLeft(usable);
    Started(fonts, answers, setting, usable);
    CameNowhere(fonts, answers, setting, most, usable);
    var finished := false;
    while !finished && !lost
      invariant AllValid(items) && SameBoxes(Waited(usable), items)
      invariant asked + TotalLeft(items) <= Families(usable) + if lost then 1 else 0
      invariant lost ==> !NeverFails(answers) && TotalLeft(items) > 0
      invariant finished ==> AllDone(items)
      invariant Came(fonts, answers, setting, most, Waited(usable), items, asked, lost)
      decreases !finished && !lost, TotalLeft(items)
    {
      var groups := Grouped(items);
      if groups == [] {
        NoGroups(items);
        finished := true;
      } else {
        ghost var before, askedBefore := items, asked;
        items, asked, lost := Round(fonts, answers, setting, items, groups, asked, most);
        SameTwice(Waited(usable), before, items);
        CameOn(fonts, answers, setting, most, Waited(usable), before, items, askedBefore, asked - askedBefore, lost);
      }
    }
    inserted := Emitted(items);
    CameTo(fonts, answers, setting, most, usable, items, asked, lost);
    Ended(fonts, answers, setting, usable, items, finished);
  }

  lemma NoGroups(items: seq<Item>)
    requires GroupsOk(items, []) && AllGrouped(items, [], |items|)
    ensures AllDone(items)
  {
  }

  /** What a round leaves to ask; there is a group exactly when a box is left. */
  lemma RequestsOfRound(fonts: Fonts, setting: Setting, items: seq<Item>)
    requires AllValid(items) && GroupsOf(items, |items|) != []
    ensures Requests(fonts, setting, items)
         == RequestsForAll(fonts, GroupsOf(items, |items|)) + Requests(fonts, setting, AfterRound(fonts, setting, items))
  {
    GroupsOfOk(items, |items|);
    var group := GroupsOf(items, |items|)[0];
    assert GroupOk(items, group);
    assert items[group.indices[0]].Unresolved();
  }

  lemma {:induction false} NothingEmitted(answers: Answers, most: nat, boxes: seq<Box>)
    ensures Emitted(Waited(boxes)) == [] && Paid(answers, most, Waited(boxes), Waited(boxes), 0)
    decreases |boxes|
  {
    if boxes != [] {
      NothingEmitted(answers, most, boxes[..|boxes| - 1]);
      assert Waited(boxes)[..|boxes| - 1] == Waited(boxes[..|boxes| - 1]);
    }
  }

  /** What all rounds so far came to, with so many requests. */
  ghost predicate Came(fonts: Fonts, answers: Answers, setting: Setting, most: nat, items: seq<Item>, now: seq<Item>,
    requests: nat, lost: bool)
    requires AllValid(items) && AllValid(now)
  {
    && Known(fonts, answers, setting, items, now) && Paid(answers, most, items, now, requests)
    && (Plain(answers, setting) ==>
          !lost && requests + Requests(fonts, setting, now) == Requests(fonts, setting, items))
  }

  lemma CameNowhere(fonts: Fonts, answers: Answers, setting: Setting, most: nat, boxes: seq<Box>)
    ensures Came(fonts, answers, setting, most, Waited(boxes), Waited(boxes), 0, false)
  {
    NothingEmitted(answers, most, boxes);
    Started(fonts, answers, setting, boxes);
    hide Known, Paid, Requests;
  }

  lemma CameOn(fonts: Fonts, answers: Answers, setting: Setting, most: nat, items: seq<Item>, before: seq<Item>, after: seq<Item>,
    m: nat, n: nat, lost: bool)
    requires AllValid(items) && AllValid(before) && AllValid(after) && GroupsOf(before, |before|) != []
    requires Came(fonts, answers, setting, most, items, before, m, false)
    requires Known(fonts, answers, setting, before, after) && Paid(answers, most, before, after, n)
    requires Plain(answers, setting) ==>
      !lost && after == AfterRound(fonts, setting, before) && n == RequestsForAll(fonts, GroupsOf(before, |before|))
    ensures Came(fonts, answers, setting, most, items, after, m + n, lost)
  {
    KnownTwice(fonts, answers, setting, items, before, after);
    PaidTwice(answers, most, items, before, after, m, n);
    RequestsOfRound(fonts, setting, before);
    hide Known, Paid, Plain, Requests, GroupsOf, AfterRound, RequestsForAll;
  }

  lemma CameTo(fonts: Fonts, answers: Answers, setting: Setting, most: nat, boxes: seq<Box>, items: seq<Item>, asked: nat, lost: bool)
    requires AllValid(items) && Came(fonts, answers, setting, most, Waited(boxes), items, asked, lost)
    ensures Known(fonts, answers, setting, Waited(boxes), items)
    ensures SetsAtMost(answers, most) ==> |Emitted(items)| <= most * asked
    ensures Plain(answers, setting) ==> !lost && (AllDone(items) ==> asked == Requests(fonts, setting, Waited(boxes)))
  {
    NothingEmitted(answers, most, boxes);
    hide Known, Plain, Waited;
  }

  lemma Started(fonts: Fonts, answers: Answers, setting: Setting, boxes: seq<Box>)
    ensures SameBoxes(Waited(boxes), Waited(boxes)) && Known(fonts, answers, setting, Waited(boxes), Waited(boxes))
  {
  }

  lemma SameTwice(a: seq<Item>, b: seq<Item>, c: seq<Item>)
    requires SameBoxes(a, b) && SameBoxes(b, c)
    ensures SameBoxes(a, c)
  {
  }

  lemma Ended(fonts: Fonts, answers: Answers, setting: Setting, boxes: seq<Box>, items: seq<Item>, finished: bool)
    requires AllValid(items) && SameBoxes(Waited(boxes), items) && Known(fonts, answers, setting, Waited(boxes), items)
    requires finished ==> AllDone(items)
    ensures Truthful(answers, setting) ==>
      && |Emitted(items)| <= |boxes|
      && forall k :: 0 <= k < |Emitted(items)| ==> FromABox(fonts, setting, boxes, Emitted(items)[k])
    ensures Truthful(answers, setting) && NeverFails(answers) && finished ==> Emitted(items) == OneByOne(fonts, setting, boxes)
  {
    var waited := Waited(boxes);
    assert AllRight(fonts, setting, waited) && AllSound(fonts, setting, waited);
    if Truthful(answers, setting) {
      assert items[..|items|] == items;
      forall k | 0 <= k < |Emitted(items)| ensures FromABox(fonts, setting, boxes, Emitted(items)[k]) {
        EmittedIsSound(fonts, setting, boxes, items, |items|, k);
      }
      if NeverFails(answers) && finished {
        EmittedIsOneByOne(fonts, setting, boxes, items);
      }
    }
  }
}
