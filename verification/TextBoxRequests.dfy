/**
 * How many requests the batched preparation of text boxes takes (src-tauri/src/documents.rs:2003-2115,
 * crates/ipc_contract/src/limits.rs:270-277), with a worker that answers as the app's does
 * (crates/pdf_worker/src/engine/text_box/font.rs:213-251).
 */
module TextBoxRequests {
  import opened Basics
  import opened TextBoxes

  const MAX_RESPONSE_BYTES := 32 * 1024 * 1024
  const MAX_SUBSET_BYTES := 2 * 1024 * 1024

  // ----- what the worker answers

  /** The outcomes for `texts`, when models of `total` bytes were made before; the rest is deferred once they do not fit. */
  function Outcomes(setting: Setting, font: nat, texts: seq<string>, total: nat): (r: seq<Outcome>)
    ensures |r| == |texts|
    decreases |texts|
  {
    if texts == [] then []
    else
      match setting(font, texts[0])
      case None => [Refused] + Outcomes(setting, font, texts[1..], total)
      case Some(model) =>
        if total > 0 && total + |model.bytes| > MAX_RESPONSE_BYTES then seq(|texts|, _ => Deferred)
        else [Prepared(model)] + Outcomes(setting, font, texts[1..], total + |model.bytes|)
  }

  lemma OutcomesUnfold(setting: Setting, font: nat, texts: seq<string>, i: nat, total: nat)
    requires i < |texts|
    ensures var rest, one := Outcomes(setting, font, texts[i..], total), setting(font, texts[i]);
      && (one.None? ==> rest == [Refused] + Outcomes(setting, font, texts[i + 1..], total))
      && (one.Some? && total > 0 && total + |one.value.bytes| > MAX_RESPONSE_BYTES ==> rest == seq(|texts| - i, _ => Deferred))
      && (one.Some? && !(total > 0 && total + |one.value.bytes| > MAX_RESPONSE_BYTES) ==>
            rest == [Prepared(one.value)] + Outcomes(setting, font, texts[i + 1..], total + |one.value.bytes|))
  {
    assert texts[i..][0] == texts[i] && texts[i..][1..] == texts[i + 1..];
  }

  method PrepareTexts(setting: Setting, font: nat, texts: seq<string>) returns (outcomes: seq<Outcome>)
    ensures outcomes == Outcomes(setting, font, texts, 0)
  {
    hide Outcomes;
    outcomes := [];
    var total: nat := 0;
    var i := 0;
    assert texts[0..] == texts;
    while i < |texts|
      invariant 0 <= i <= |texts|
      invariant outcomes + Outcomes(setting, font, texts[i..], total) == Outcomes(setting, font, texts, 0)
    {
      OutcomesUnfold(setting, font, texts, i, total);
      match setting(font, texts[i]) {
        case Some(model) =>
          if total > 0 && total + |model.bytes| > MAX_RESPONSE_BYTES {
            outcomes := outcomes + seq(|texts| - i, _ => Deferred);
            return;
          }
          total := total + |model.bytes|;
          outcomes := outcomes + [Prepared(model)];
        case None => outcomes := outcomes + [Refused];
      }
      i := i + 1;
    }
  }

  /** A worker that always answers so. */
  function Worker(setting: Setting): Answers
  {
    (_: nat, font: nat, texts: seq<string>) => Answered(Outcomes(setting, font, texts, 0))
  }

  predicate DeferredLast(r: seq<Outcome>)
  {
    forall i, j :: 0 <= i < j < |r| && r[i].Deferred? ==> r[j].Deferred?
  }

  predicate DeferredAfterOne(r: seq<Outcome>)
  {
    forall i :: 0 <= i < |r| && r[i].Deferred? ==> exists j :: 0 <= j < i && r[j].Prepared?
  }

  /** What is deferred in an answer is all that comes after some text, and one before that was set. */
  predicate DeferredFrom(outcomes: seq<Outcome>, from: nat)
  {
    && from <= |outcomes|
    && (forall i :: 0 <= i < |outcomes| ==> (outcomes[i].Deferred? <==> from <= i))
    && (from < |outcomes| ==> exists j :: 0 <= j < from && outcomes[j].Prepared?)
  }

  /** An answer the host takes has an outcome for each text, the deferred ones at its end and after progress. */
  lemma TakenExactlyWhen(outcomes: seq<Outcome>, expected: nat)
    ensures Accepted(outcomes, expected) <==> |outcomes| == expected && exists from: nat :: DeferredFrom(outcomes, from)
  {
    if from: nat :| DeferredFrom(outcomes, from) {
      if |outcomes| == expected && from < |outcomes| {
        var j :| 0 <= j < from && outcomes[j].Prepared?;
      }
    }
    if Accepted(outcomes, expected) {
      var from := 0;
      while from < |outcomes| && !outcomes[from].Deferred?
        invariant from <= |outcomes| && forall i :: 0 <= i < from ==> !outcomes[i].Deferred?
      {
        from := from + 1;
      }
      assert DeferredFrom(outcomes, from);
    }
  }

  lemma OneMoreAnswered(first: Outcome, rest: seq<Outcome>)
    requires DeferredLast(rest) && !first.Deferred? && (first.Prepared? || DeferredAfterOne(rest))
    ensures DeferredLast([first] + rest) && DeferredAfterOne([first] + rest)
  {
    var r := [first] + rest;
    assert forall i :: 0 < i < |r| ==> r[i] == rest[i - 1];
    forall i | 0 <= i < |r| && r[i].Deferred? ensures exists j :: 0 <= j < i && r[j].Prepared? {
      if first.Prepared? {
        assert r[0].Prepared?;
      } else {
        assert rest[i - 1].Deferred?;
        var j :| 0 <= j < i - 1 && rest[j].Prepared?;
        assert r[j + 1].Prepared?;
      }
    }
  }

  /** Deferred are the last ones, and only after one that was set: the host takes every such answer. */
  lemma {:induction false} OutcomesAccepted(setting: Setting, font: nat, texts: seq<string>, total: nat)
    ensures DeferredLast(Outcomes(setting, font, texts, total))
    ensures total == 0 ==> DeferredAfterOne(Outcomes(setting, font, texts, total))
    decreases |texts|
  {
    if texts != [] {
      match setting(font, texts[0])
      case None =>
        OutcomesAccepted(setting, font, texts[1..], total);
        if total == 0 {
          OneMoreAnswered(Refused, Outcomes(setting, font, texts[1..], total));
        }
      case Some(model) =>
        if !(total > 0 && total + |model.bytes| > MAX_RESPONSE_BYTES) {
          OutcomesAccepted(setting, font, texts[1..], total + |model.bytes|);
          OneMoreAnswered(Prepared(model), Outcomes(setting, font, texts[1..], total + |model.bytes|));
        }
    }
  }

  lemma {:induction false} OutcomesTrue(setting: Setting, font: nat, texts: seq<string>, total: nat)
    ensures TrueOf(Outcomes(setting, font, texts, total), setting, font, texts)
    decreases |texts|
  {
    if texts != [] {
      match setting(font, texts[0])
      case None => OutcomesTrue(setting, font, texts[1..], total);
      case Some(model) => OutcomesTrue(setting, font, texts[1..], total + |model.bytes|);
    }
  }

  /** What the worker answers is true, and an answer the host takes: with it the preparation never fails. */
  lemma WorkerIsTrue(setting: Setting)
    ensures Truthful(Worker(setting), setting) && NeverFails(Worker(setting))
  {
    forall n: nat, font: nat, texts: seq<string>
      ensures TrueOf(Worker(setting)(n, font, texts).outcomes, setting, font, texts)
      ensures Accepted(Worker(setting)(n, font, texts).outcomes, |texts|)
    {
      OutcomesTrue(setting, font, texts, 0);
      OutcomesAccepted(setting, font, texts, 0);
    }
  }

  /** With models of `size` bytes each, an answer sets no more than fit into it. */
  lemma {:induction false} OutcomesFit(setting: Setting, size: nat, font: nat, texts: seq<string>, total: nat)
    requires forall f: nat, text: string :: setting(f, text).Some? ==> |setting(f, text).value.bytes| == size
    requires 0 < size <= MAX_RESPONSE_BYTES && total <= MAX_RESPONSE_BYTES
    ensures size * PreparedCount(Outcomes(setting, font, texts, total)) + total <= MAX_RESPONSE_BYTES
    decreases |texts|
  {
    var r := Outcomes(setting, font, texts, total);
    if texts != [] {
      match setting(font, texts[0])
      case None =>
        OutcomesFit(setting, size, font, texts[1..], total);
        FirstCounts(r);
        assert r[1..] == Outcomes(setting, font, texts[1..], total);
      case Some(model) =>
        if total > 0 && total + size > MAX_RESPONSE_BYTES {
          NoneCounts(r);
        } else {
          OutcomesFit(setting, size, font, texts[1..], total + size);
          FirstCounts(r);
          assert r[1..] == Outcomes(setting, font, texts[1..], total + size);
          assert size * (PreparedCount(r[1..]) + 1) == size * PreparedCount(r[1..]) + size;
        }
    }
  }

  lemma {:induction false} FirstCounts(outcomes: seq<Outcome>)
    requires outcomes != []
    ensures PreparedCount(outcomes) == PreparedCount(outcomes[1..]) + if outcomes[0].Prepared? then 1 else 0
    decreases |outcomes|
  {
    var k := |outcomes| - 1;
    if k > 0 {
      FirstCounts(outcomes[..k]);
      assert outcomes[..k][1..] == outcomes[1..][..k - 1];
    }
  }

  lemma {:induction false} NoneCounts(outcomes: seq<Outcome>)
    requires forall i :: 0 <= i < |outcomes| ==> !outcomes[i].Prepared?
    ensures PreparedCount(outcomes) == 0
    decreases |outcomes|
  {
    if outcomes != [] { NoneCounts(outcomes[..|outcomes| - 1]); }
  }

  // ----- what is deferred makes more requests

  /** Any text, in any font, makes a model as large as one may be. */
  function Large(font: nat, text: string): Option<Model> { Some(Content(seq(MAX_SUBSET_BYTES, _ => 0))) }

  lemma SixteenAtATime()
    ensures SetsAtMost(Worker(Large), 16)
  {
    forall n: nat, font: nat, texts: seq<string>
      ensures PreparedCount(Worker(Large)(n, font, texts).outcomes) <= 16
    {
      OutcomesFit(Large, MAX_SUBSET_BYTES, font, texts, 0);
    }
  }

  lemma {:induction false} AllAreSet(fonts: Fonts, setting: Setting, boxes: seq<Box>)
    requires forall i :: 0 <= i < |boxes| ==> Try(fonts, setting, boxes[i].family, boxes[i].text).Some?
    ensures |OneByOne(fonts, setting, boxes)| == |boxes|
    decreases |boxes|
  {
    if boxes != [] {
      AllAreSet(fonts, setting, boxes[..|boxes| - 1]);
      assert Candidates(boxes[|boxes| - 1])[0] == boxes[|boxes| - 1].family;
    }
  }

  lemma {:induction false} AllAreUsable(boxes: seq<Box>, valid: string -> bool)
    requires forall i :: 0 <= i < |boxes| ==> valid(boxes[i].text)
    ensures Usable(boxes, valid) == boxes
    decreases |boxes|
  {
    if boxes != [] { AllAreUsable(boxes[..|boxes| - 1], valid); }
  }

  const ONE_FONT := Fonts([FontInfo(0, "F", false, false)], _ => true)

  const THOUSAND: seq<Box> := seq(MAX_SOURCE_TEXT_BOXES, _ => Box(0, "a", "F"))

  lemma ThousandAreSet(valid: string -> bool)
    requires valid("a")
    ensures Usable(Taken(THOUSAND), valid) == THOUSAND
    ensures |OneByOne(ONE_FONT, Large, THOUSAND)| == MAX_SOURCE_TEXT_BOXES
  {
    hide *;
    forall i | 0 <= i < |THOUSAND|
      ensures Try(ONE_FONT, Large, THOUSAND[i].family, THOUSAND[i].text).Some? && valid(THOUSAND[i].text)
    {
      EachIsSet(i);
    }
    AllAreSet(ONE_FONT, Large, THOUSAND);
    AllAreUsable(THOUSAND, valid);
    TakenWhole();
  }

  lemma TakenWhole()
    ensures |THOUSAND| == MAX_SOURCE_TEXT_BOXES && Taken(THOUSAND) == THOUSAND
  {
  }

  lemma EachIsSet(i: nat)
    requires i < |THOUSAND|
    ensures THOUSAND[i].text == "a" && Try(ONE_FONT, Large, THOUSAND[i].family, THOUSAND[i].text).Some?
  {
    OnlyFont();
    hide FontFor, AsciiLower;
  }

  /**
   * A thousand boxes of one family, with a font that sets each of them, and a worker that never fails:
   * because an answer holds no more than sixteen of their models, they take 63 requests and more.
   */
  method OneFamilySixtyThree() returns (boxes: seq<Box>, asked: nat)
    ensures |boxes| == MAX_SOURCE_TEXT_BOXES && OneFamily(boxes) && asked >= 63
  {
    boxes := THOUSAND;
    var any: string -> bool := _ => true;
    assert |boxes| == MAX_SOURCE_TEXT_BOXES && OneFamily(boxes);
    assert any("a");
    hide *;
    WorkerIsTrue(Large);
    SixteenAtATime();
    ThousandAreSet(any);
    var inserted, lost;
    inserted, asked, lost := PrepareInserted(ONE_FONT, Worker(Large), Large, any, boxes, 16);
  }

  lemma OnlyFont()
    ensures FontFor(ONE_FONT, AsciiLower("F")) == Some(0)
  {
    var fonts := ONE_FONT.list;
    assert fonts[..|fonts| - 1] == [];
    assert Matches(fonts[0], AsciiLower("F"));
  }

  // ----- one family, nothing deferred

  /** All boxes want the same family, whatever its case. */
  predicate OneFamily(boxes: seq<Box>)
  {
    forall i, j :: 0 <= i < |boxes| && 0 <= j < |boxes| ==> AsciiLower(boxes[i].family) == AsciiLower(boxes[j].family)
  }

  /** The same families, each as long as the other, whatever their case. */
  predicate SameFamilies(a: seq<string>, b: seq<string>)
  {
    |a| == |b| && forall i :: 0 <= i < |a| ==> AsciiLower(a[i]) == AsciiLower(b[i])
  }

  lemma {:induction false} SameFallbacks(a: seq<string>, b: seq<string>, fallbacks: seq<string>)
    requires SameFamilies(a, b)
    ensures SameFamilies(WithFallbacks(a, fallbacks), WithFallbacks(b, fallbacks))
    decreases |fallbacks|
  {
    if fallbacks != [] {
      var f := fallbacks[0];
      assert Among(a, f) <==> Among(b, f);
      SameFallbacks(if Among(a, f) then a else a + [f], if Among(b, f) then b else b + [f], fallbacks[1..]);
    }
  }

  /** The boxes not done all try family `k` of the same families next. */
  ghost predicate InStep(items: seq<Item>, families: seq<string>, k: nat)
  {
    && AllValid(items)
    && (forall i :: 0 <= i < |items| ==> SameFamilies(items[i].candidates, families))
    && (forall i :: 0 <= i < |items| && items[i].Unresolved() ==> items[i].current == k)
  }

  /** Boxes that try the same family next make one group. */
  lemma {:induction false} OneGroup(items: seq<Item>, families: seq<string>, k: nat, n: nat)
    requires InStep(items, families, k) && n <= |items|
    ensures var groups := GroupsOf(items, n);
      && |groups| <= 1
      && (groups != [] ==> k < |families| && |groups[0].indices| <= n && groups[0].key == AsciiLower(families[k]))
    decreases n
  {
    if n > 0 {
      OneGroup(items, families, k, n - 1);
      var groups := GroupsOf(items, n - 1);
      if items[n - 1].Unresolved() {
        assert items[n - 1].Key() == AsciiLower(families[k]);
        assert Find(groups, items[n - 1].Key()) == 0;
        assert groups == [] ==> PlaceFor(groups, items[n - 1].Key()) == 0;
      }
    }
  }

  lemma StepsOn(fonts: Fonts, setting: Setting, items: seq<Item>, families: seq<string>, k: nat)
    requires InStep(items, families, k)
    ensures InStep(AfterRound(fonts, setting, items), families, k + 1)
  {
  }

  lemma RequestsUnfold(fonts: Fonts, setting: Setting, items: seq<Item>)
    requires AllValid(items)
    ensures AllDone(items) ==> Requests(fonts, setting, items) == 0
    ensures var whole := Requests(fonts, setting, items);
      var round := RequestsForAll(fonts, GroupsOf(items, |items|));
      !AllDone(items) ==> whole == round + Requests(fonts, setting, AfterRound(fonts, setting, items))
  {
  }

  lemma SomeLeft(items: seq<Item>, families: seq<string>, k: nat)
    requires InStep(items, families, k) && !AllDone(items)
    ensures k < |families|
  {
    var i :| 0 <= i < |items| && items[i].Unresolved();
  }

  /** A round asks no more than its chunks, and there are no more rounds than families. */
  lemma {:induction false} RequestsInStep(fonts: Fonts, setting: Setting, items: seq<Item>, families: seq<string>, k: nat)
    requires AllValid(items) && InStep(items, families, k) && k <= |families|
    ensures Requests(fonts, setting, items) <= Chunks(|items|) * (|families| - k)
    decreases |families| - k
  {
    hide *;
    RequestsUnfold(fonts, setting, items);
    var all := Chunks(|items|);
    assert all * (|families| - k) >= 0;
    if !AllDone(items) {
      SomeLeft(items, families, k);
      OneGroup(items, families, k, |items|);
      OneGroupAsks(fonts, items);
      StepsOn(fonts, setting, items, families, k);
      RequestsInStep(fonts, setting, AfterRound(fonts, setting, items), families, k + 1);
      assert all * (|families| - k) == all * (|families| - (k + 1)) + all;
    }
  }

  lemma OneGroupAsks(fonts: Fonts, items: seq<Item>)
    requires |GroupsOf(items, |items|)| <= 1
    requires GroupsOf(items, |items|) != [] ==> |GroupsOf(items, |items|)[0].indices| <= |items|
    ensures RequestsForAll(fonts, GroupsOf(items, |items|)) <= Chunks(|items|)
  {
    var groups := GroupsOf(items, |items|);
    if groups != [] {
      assert groups[..|groups| - 1] == [];
      MoreChunks(|groups[0].indices|, |items|);
    }
  }

  lemma MoreChunks(m: nat, n: nat)
    requires m <= n
    ensures Chunks(m) <= Chunks(n)
  {
  }

  lemma WaitedInStep(boxes: seq<Box>)
    requires boxes != [] && OneFamily(boxes)
    ensures InStep(Waited(boxes), Candidates(boxes[0]), 0)
  {
    hide Candidates, SameFamilies, AsciiLower;
    forall i | 0 <= i < |boxes| ensures SameFamilies(Candidates(boxes[i]), Candidates(boxes[0])) {
      SameCandidates(boxes[i], boxes[0]);
    }
  }

  lemma SameCandidates(a: Box, b: Box)
    requires AsciiLower(a.family) == AsciiLower(b.family)
    ensures SameFamilies(Candidates(a), Candidates(b))
  {
    hide AsciiLower;
    SameFallbacks([a.family], [b.family], FALLBACK_FAMILIES);
  }

  /** With nothing failing and nothing deferred, the boxes of one family take 30 requests at most. */
  lemma OneFamilyThirty(fonts: Fonts, setting: Setting, boxes: seq<Box>)
    requires |boxes| <= MAX_SOURCE_TEXT_BOXES && OneFamily(boxes)
    ensures Requests(fonts, setting, Waited(boxes)) <= 30
  {
    var items := Waited(boxes);
    MoreChunks(|items|, MAX_SOURCE_TEXT_BOXES);
    assert Chunks(MAX_SOURCE_TEXT_BOXES) == 5;
    hide *;
    if boxes == [] {
      NothingAsked(fonts, setting, items);
    } else {
      var families := Candidates(boxes[0]);
      WaitedInStep(boxes);
      RequestsInStep(fonts, setting, items, families, 0);
      assert |families| <= 6 by { assert |FALLBACK_FAMILIES| == 5; }
      Product(Chunks(|items|), |families|);
    }
  }

  lemma NothingAsked(fonts: Fonts, setting: Setting, items: seq<Item>)
    requires items == []
    ensures Requests(fonts, setting, items) == 0
  {
  }

  lemma Product(a: nat, b: nat)
    requires a <= 5 && b <= 6
    ensures a * b <= 30
  {
  }

  // ----- many families

  /** Every box wants another family, and there is a font to ask about for each. */
  ghost predicate ManyFamilies(fonts: Fonts, boxes: seq<Box>)
  {
    && (forall i, j :: 0 <= i < j < |boxes| ==> AsciiLower(boxes[i].family) != AsciiLower(boxes[j].family))
    && (forall i :: 0 <= i < |boxes| ==> FontFor(fonts, AsciiLower(boxes[i].family)).Some?)
  }

  /** The key of each group is the family of one of the first `n` boxes. */
  ghost predicate KeysOf(boxes: seq<Box>, groups: seq<Group>, n: nat)
    requires n <= |boxes|
  {
    forall g :: 0 <= g < |groups| ==> groups[g].indices != [] && OfOne(boxes, groups[g].key, n)
  }

  ghost predicate OfOne(boxes: seq<Box>, key: string, n: nat)
    requires n <= |boxes|
  {
    exists i :: 0 <= i < n && key == AsciiLower(boxes[i].family)
  }

  lemma OfMore(boxes: seq<Box>, key: string, n: nat)
    requires n < |boxes|
    ensures OfOne(boxes, key, n) ==> OfOne(boxes, key, n + 1)
    ensures key == AsciiLower(boxes[n].family) ==> OfOne(boxes, key, n + 1)
  {
    assert n < n + 1;
  }

  lemma {:induction false} GroupEach(fonts: Fonts, boxes: seq<Box>, n: nat)
    requires ManyFamilies(fonts, boxes) && n <= |boxes|
    ensures var groups := GroupsOf(Waited(boxes), n); |groups| == n && KeysOf(boxes, groups, n)
    decreases n
  {
    hide *;
    if n == 0 {
      NoGroupYet(boxes);
    } else {
      GroupEach(fonts, boxes, n - 1);
      OneMoreGroup(fonts, boxes, n - 1);
    }
  }

  lemma NoGroupYet(boxes: seq<Box>)
    ensures GroupsOf(Waited(boxes), 0) == [] && KeysOf(boxes, [], 0)
  {
  }

  lemma OneMoreGroup(fonts: Fonts, boxes: seq<Box>, n: nat)
    requires ManyFamilies(fonts, boxes) && n < |boxes|
    requires var groups := GroupsOf(Waited(boxes), n); |groups| == n && KeysOf(boxes, groups, n)
    ensures var groups := GroupsOf(Waited(boxes), n + 1); |groups| == n + 1 && KeysOf(boxes, groups, n + 1)
  {
    hide *;
    var items := Waited(boxes);
    var groups := GroupsOf(items, n);
    NewKey(fonts, boxes, groups, n);
    OneGroupMore(items, n);
    KeysPut(boxes, groups, GroupsOf(items, n + 1), PlaceFor(groups, items[n].Key()), OwnGroup(items, n), n);
  }

  lemma KeysPut(boxes: seq<Box>, groups: seq<Group>, more: seq<Group>, place: nat, group: Group, n: nat)
    requires n < |boxes| && KeysOf(boxes, groups, n) && PutAt(groups, more, place, group)
    requires group.indices != [] && group.key == AsciiLower(boxes[n].family)
    ensures |more| == |groups| + 1 && KeysOf(boxes, more, n + 1)
  {
    hide AsciiLower, OfOne;
    forall g | 0 <= g < |more| ensures more[g].indices != [] && OfOne(boxes, more[g].key, n + 1) {
      OfMore(boxes, more[g].key, n);
      if g != place { assert more[g] == groups[if g < place then g else g - 1]; }
    }
  }

  /** A family no box before had is not the key of any group. */
  lemma NewKey(fonts: Fonts, boxes: seq<Box>, groups: seq<Group>, n: nat)
    requires ManyFamilies(fonts, boxes) && n < |boxes| && KeysOf(boxes, groups, n)
    ensures forall g :: 0 <= g < |groups| ==> groups[g].key != AsciiLower(boxes[n].family)
    ensures Waited(boxes)[n].Unresolved() && Waited(boxes)[n].Key() == AsciiLower(boxes[n].family)
    ensures OwnGroup(Waited(boxes), n).indices != [] && OwnGroup(Waited(boxes), n).key == AsciiLower(boxes[n].family)
  {
    hide AsciiLower;
    forall g | 0 <= g < |groups| ensures groups[g].key != AsciiLower(boxes[n].family) {
      assert OfOne(boxes, groups[g].key, n);
    }
  }

  /** A box with a key of its own makes a group of its own. */
  lemma OneGroupMore(items: seq<Item>, n: nat)
    requires n < |items| && items[n].Unresolved()
    requires forall g :: 0 <= g < |GroupsOf(items, n)| ==> GroupsOf(items, n)[g].key != items[n].Key()
    ensures var groups := GroupsOf(items, n);
      PutAt(groups, GroupsOf(items, n + 1), PlaceFor(groups, items[n].Key()), OwnGroup(items, n))
  {
    hide *;
    GroupsUnfold(items, n);
    NewGroupIs(items, GroupsOf(items, n), n);
  }

  function OwnGroup(items: seq<Item>, n: nat): Group
    requires n < |items| && items[n].Unresolved()
  {
    Group(items[n].Key(), items[n].candidates[items[n].current], [n])
  }

  lemma GroupsUnfold(items: seq<Item>, n: nat)
    requires n < |items| && items[n].Unresolved()
    ensures GroupsOf(items, n + 1) == WithBox(items, GroupsOf(items, n), n)
  {
    hide WithBox, AsciiLower;
  }

  lemma {:induction false} NewGroupIs(items: seq<Item>, groups: seq<Group>, n: nat)
    requires n < |items| && items[n].Unresolved()
    requires forall g :: 0 <= g < |groups| ==> groups[g].key != items[n].Key()
    ensures PutAt(groups, WithBox(items, groups, n), PlaceFor(groups, items[n].Key()), OwnGroup(items, n))
  {
    hide AsciiLower, Less, Find, PlaceFor;
  }

  lemma {:induction false} EachAsks(fonts: Fonts, boxes: seq<Box>, groups: seq<Group>)
    requires ManyFamilies(fonts, boxes) && KeysOf(boxes, groups, |boxes|)
    ensures RequestsForAll(fonts, groups) >= |groups|
    decreases |groups|
  {
    if groups != [] {
      var k := |groups| - 1;
      assert forall g :: 0 <= g < k ==> groups[..k][g] == groups[g];
      EachAsks(fonts, boxes, groups[..k]);
      assert groups[k].indices != [] && OfOne(boxes, groups[k].key, |boxes|);
      assert FontFor(fonts, groups[k].key).Some?;
      AsksOnce(fonts, groups[k]);
    }
  }

  lemma AsksOnce(fonts: Fonts, group: Group)
    requires group.indices != [] && FontFor(fonts, group.key).Some?
    ensures RequestsFor(fonts, group) >= 1
  {
  }

  /** Boxes of as many families take at least as many requests, though nothing fails and nothing is deferred. */
  lemma AtLeastOneEach(fonts: Fonts, setting: Setting, boxes: seq<Box>)
    requires ManyFamilies(fonts, boxes)
    ensures Requests(fonts, setting, Waited(boxes)) >= |boxes|
  {
    if boxes != [] {
      var items := Waited(boxes);
      assert items[0].Unresolved();
      assert !AllDone(items);
      hide *;
      GroupEach(fonts, boxes, |boxes|);
      EachAsks(fonts, boxes, GroupsOf(items, |boxes|));
      RequestsUnfold(fonts, setting, items);
    }
  }

  function Named(n: nat): string { seq(n + 1, _ => 'a') }

  /** Thirty-one boxes, each of a family of its own that has a font. */
  lemma ThirtyOneFamilies() returns (fonts: Fonts, boxes: seq<Box>)
    ensures |boxes| == 31 && ManyFamilies(fonts, boxes)
    ensures forall setting: Setting :: Requests(fonts, setting, Waited(boxes)) >= 31
  {
    fonts := Fonts(seq(31, i requires 0 <= i => FontInfo(i, Named(i), false, false)), _ => true);
    boxes := seq(31, i requires 0 <= i => Box(i, "a", Named(i)));
    forall i | 0 <= i < 31 ensures FontFor(fonts, AsciiLower(boxes[i].family)).Some? {
      assert Matches(fonts.list[i], AsciiLower(boxes[i].family));
      hide AsciiLower;
    }
    assert forall i :: 0 <= i < 31 ==> |AsciiLower(boxes[i].family)| == i + 1;
    hide AsciiLower, FontFor;
    assert ManyFamilies(fonts, boxes);
    forall setting: Setting ensures Requests(fonts, setting, Waited(boxes)) >= 31 {
      AtLeastOneEach(fonts, setting, boxes);
    }
  }
}
