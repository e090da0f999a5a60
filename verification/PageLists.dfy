/**
 * What the edits that manage pages do to the list of pages: a reference model for the page count
 * the main process foresees (src-tauri/src/documents.rs:3023-3214), and the worker's way of moving
 * pages one at a time (crates/pdf_worker/src/engine.rs:929-963), which comes to the same.
 */
module PageLists {
  import opened Basics
  import opened Edits

  /** A page: where it came from, and how many quarters it was turned. */
  datatype Page = Page(from: int, quarters: nat)

  type PageSeq = seq<Page>

  // ----- picking pages by index

  /** The pages from `lo` up to `hi` whose index is in `chosen`, or those whose index is not. */
  function Picked(list: PageSeq, lo: nat, hi: nat, chosen: set<nat>, wanted: bool): (r: PageSeq)
    requires lo <= hi <= |list|
    ensures |r| <= hi - lo
    decreases hi - lo
  {
    if lo == hi then []
    else
      var init := Picked(list, lo, hi - 1, chosen, wanted);
      if (hi - 1 in chosen) == wanted then init + [list[hi - 1]] else init
  }

  function Within(chosen: set<nat>, lo: nat, hi: nat): set<nat> { set i | i in chosen && lo <= i < hi }

  lemma {:induction false} PickedSplit(list: PageSeq, lo: nat, mid: nat, hi: nat, chosen: set<nat>, wanted: bool)
    requires lo <= mid <= hi <= |list|
    ensures Picked(list, lo, hi, chosen, wanted) == Picked(list, lo, mid, chosen, wanted) + Picked(list, mid, hi, chosen, wanted)
    decreases hi
  {
    if mid < hi {
      PickedSplit(list, lo, mid, hi - 1, chosen, wanted);
    }
  }

  lemma {:induction false} PickedCount(list: PageSeq, lo: nat, hi: nat, chosen: set<nat>)
    requires lo <= hi <= |list|
    ensures |Picked(list, lo, hi, chosen, true)| == |Within(chosen, lo, hi)|
    ensures |Picked(list, lo, hi, chosen, false)| == hi - lo - |Within(chosen, lo, hi)|
    decreases hi
  {
    if lo == hi {
      assert Within(chosen, lo, hi) == {};
    } else {
      PickedCount(list, lo, hi - 1, chosen);
      if hi - 1 in chosen {
        assert Within(chosen, lo, hi) == Within(chosen, lo, hi - 1) + {hi - 1};
      } else {
        assert Within(chosen, lo, hi) == Within(chosen, lo, hi - 1);
      }
    }
  }

  lemma {:induction false} PickedAll(list: PageSeq, lo: nat, hi: nat, chosen: set<nat>)
    requires lo <= hi <= |list|
    requires forall i :: lo <= i < hi ==> i !in chosen
    ensures Picked(list, lo, hi, chosen, false) == list[lo..hi] && Picked(list, lo, hi, chosen, true) == []
    decreases hi
  {
    if lo < hi {
      PickedAll(list, lo, hi - 1, chosen);
      assert list[lo..hi] == list[lo..hi - 1] + [list[hi - 1]];
    }
  }

  lemma {:induction false} PickedAlike(list: PageSeq, lo: nat, hi: nat, chosen: set<nat>, other: set<nat>, wanted: bool)
    requires lo <= hi <= |list|
    requires forall i :: lo <= i < hi ==> (i in chosen <==> i in other)
    ensures Picked(list, lo, hi, chosen, wanted) == Picked(list, lo, hi, other, wanted)
    decreases hi
  {
    if lo < hi {
      PickedAlike(list, lo, hi - 1, chosen, other, wanted);
    }
  }

  /** How often a page is in a list. */
  function Times(list: PageSeq, page: Page): nat { multiset(list)[page] }

  lemma TimesAdd(list: PageSeq, more: PageSeq, page: Page)
    ensures Times(list + more, page) == Times(list, page) + Times(more, page)
  {
  }

  lemma PickedLast(list: PageSeq, lo: nat, hi: nat, chosen: set<nat>)
    requires lo < hi <= |list|
    ensures list[lo..hi] == list[lo..hi - 1] + [list[hi - 1]]
    ensures Picked(list, lo, hi, chosen, true)
         == if hi - 1 in chosen then Picked(list, lo, hi - 1, chosen, true) + [list[hi - 1]] else Picked(list, lo, hi - 1, chosen, true)
    ensures Picked(list, lo, hi, chosen, false)
         == if hi - 1 in chosen then Picked(list, lo, hi - 1, chosen, false) else Picked(list, lo, hi - 1, chosen, false) + [list[hi - 1]]
  {
  }

  lemma PickedNone(list: PageSeq, lo: nat, chosen: set<nat>, page: Page)
    requires lo <= |list|
    ensures Times(Picked(list, lo, lo, chosen, true), page) == 0 == Times(Picked(list, lo, lo, chosen, false), page)
    ensures Times(list[lo..lo], page) == 0
  {
  }

  /** Each page is picked once: with the chosen or with the others. */
  lemma {:induction false} PickedParts(list: PageSeq, lo: nat, hi: nat, chosen: set<nat>, page: Page)
    requires lo <= hi <= |list|
    ensures Times(Picked(list, lo, hi, chosen, true), page) + Times(Picked(list, lo, hi, chosen, false), page)
         == Times(list[lo..hi], page)
    decreases hi
  {
    hide *;
    if lo == hi {
      PickedNone(list, lo, chosen, page);
    } else {
      PickedParts(list, lo, hi - 1, chosen, page);
      PickedLast(list, lo, hi, chosen);
      TimesAdd(list[lo..hi - 1], [list[hi - 1]], page);
      TimesAdd(Picked(list, lo, hi - 1, chosen, true), [list[hi - 1]], page);
      TimesAdd(Picked(list, lo, hi - 1, chosen, false), [list[hi - 1]], page);
    }
  }

  // ----- the edits

  function SetOf(pages: seq<nat>): set<nat> { set page | page in pages }

  function Turned(list: PageSeq, pages: set<nat>, quarters: nat): (r: PageSeq)
    ensures |r| == |list|
    ensures forall i :: 0 <= i < |list| ==> r[i] == if i in pages then Page(list[i].from, (list[i].quarters + quarters) % 4) else list[i]
  {
    seq(|list|, i requires 0 <= i < |list| =>
      if i in pages then Page(list[i].from, (list[i].quarters + quarters) % 4) else list[i])
  }

  function Deleted(list: PageSeq, pages: set<nat>): PageSeq
  {
    Picked(list, 0, |list|, pages, false)
  }

  /** First what is left of the pages up to `before`, then the moved ones, then what is left of the others. */
  function Moved(list: PageSeq, pages: set<nat>, before: nat): PageSeq
    requires before <= |list|
  {
    Picked(list, 0, before, pages, false) + Picked(list, 0, |list|, pages, true)
      + Picked(list, before, |list|, pages, false)
  }

  function Inserted(list: PageSeq, at: nat, pages: PageSeq): PageSeq
    requires at <= |list|
  {
    list[..at] + pages + list[at..]
  }

  function QuartersOf(turn: Rotation): nat
  {
    match turn case None => 0 case Cw90 => 1 case Cw180 => 2 case Cw270 => 3
  }

  const BLANK := Page(-1, 0)

  /** What the worker does to the pages for an edit it can make; `sources` has the pages of other files. */
  function After(list: PageSeq, edit: Edit, sources: SourceId -> PageSeq): PageSeq
  {
    match edit
    case RotatePages(pages, turn) => Turned(list, SetOf(pages), QuartersOf(turn))
    case DeletePages(pages) => Deleted(list, SetOf(pages))
    case MovePages(pages, before) => if before <= |list| then Moved(list, SetOf(pages), before) else list
    case InsertBlankPage(at, _) => if at <= |list| then Inserted(list, at, [BLANK]) else list
    case InsertPages(at, source) => if at <= |list| then Inserted(list, at, sources(source)) else list
    case _ => list
  }

  function AfterAll(list: PageSeq, edits: seq<Edit>, sources: SourceId -> PageSeq): PageSeq
  {
    if edits == [] then list
    else After(AfterAll(list, edits[..|edits| - 1], sources), edits[|edits| - 1], sources)
  }

  lemma {:induction false} DistinctCount(pages: seq<nat>)
    requires Distinct(pages)
    ensures |SetOf(pages)| == |pages|
    decreases |pages|
  {
    if pages != [] {
      var init := pages[..|pages| - 1];
      DistinctCount(init);
      assert SetOf(pages) == SetOf(init) + {pages[|pages| - 1]};
    }
  }

  /** The pages counted: as many go as are named, and no page is lost or doubled by a move. */
  lemma DeletedCount(list: PageSeq, pages: seq<nat>)
    requires Distinct(pages) && AllBelow(pages, |list|)
    ensures |Deleted(list, SetOf(pages))| == |list| - |pages|
  {
    PickedCount(list, 0, |list|, SetOf(pages));
    assert Within(SetOf(pages), 0, |list|) == SetOf(pages);
    DistinctCount(pages);
  }

  lemma MovedPermutes(list: PageSeq, pages: set<nat>, before: nat)
    requires before <= |list|
    ensures multiset(Moved(list, pages, before)) == multiset(list)
    ensures |Moved(list, pages, before)| == |list|
  {
    forall page: Page ensures Times(Moved(list, pages, before), page) == Times(list, page) {
      MovedTimes(list, pages, before, page);
    }
    assert forall page: Page :: multiset(list)[page] == Times(list, page);
    assert |multiset(Moved(list, pages, before))| == |Moved(list, pages, before)|;
  }

  lemma WithinSplit(chosen: set<nat>, lo: nat, mid: nat, hi: nat)
    requires lo <= mid <= hi
    ensures |Within(chosen, lo, hi)| == |Within(chosen, lo, mid)| + |Within(chosen, mid, hi)|
    ensures |Within(chosen, lo, mid)| <= mid - lo
  {
    assert Within(chosen, lo, hi) == Within(chosen, lo, mid) + Within(chosen, mid, hi);
    PickedCount(seq(mid, i => BLANK), lo, mid, chosen);
  }

  /** Where a page is among those picked: behind as many as were picked before it. */
  lemma PickedAt(list: PageSeq, lo: nat, hi: nat, chosen: set<nat>, i: nat)
    requires lo <= i < hi <= |list|
    ensures var r, k := Picked(list, lo, hi, chosen, i in chosen), |Within(chosen, lo, i)|;
      var at := if i in chosen then k else i - lo - k;
      0 <= at < |r| && r[at] == list[i]
  {
    PickedSplit(list, lo, i + 1, hi, chosen, i in chosen);
    PickedLast(list, lo, i + 1, chosen);
    PickedCount(list, lo, i, chosen);
  }

  /** A page that is not deleted moves up by as many as were deleted before it. */
  lemma DeletedAt(list: PageSeq, pages: seq<nat>, sources: SourceId -> PageSeq, i: nat)
    requires i < |list| && i !in pages
    ensures var left, at := After(list, DeletePages(pages), sources), i - |Within(SetOf(pages), 0, i)|;
      0 <= at < |left| && left[at] == list[i]
  {
    PickedAt(list, 0, |list|, SetOf(pages), i);
  }

  /**
   * Where a move puts each page: those moved side by side in their order, where the others up to `before`
   * end; each of the others passed by the moved ones that were on its other side.
   */
  lemma MovedAt(list: PageSeq, pages: seq<nat>, before: nat, sources: SourceId -> PageSeq, i: nat)
    requires i < |list| && before <= |list|
    ensures var moved, chosen := After(list, MovePages(pages, before), sources), SetOf(pages);
      var at := if i in pages then before - |Within(chosen, 0, before)| + |Within(chosen, 0, i)|
                else if i < before then i - |Within(chosen, 0, i)|
                else i + |Within(chosen, i, |list|)|;
      0 <= at < |moved| && moved[at] == list[i]
  {
    PlaceOnceMoved(list, SetOf(pages), before, i);
  }

  lemma PlaceOnceMoved(list: PageSeq, chosen: set<nat>, before: nat, i: nat)
    requires i < |list| && before <= |list|
    ensures var moved := Moved(list, chosen, before);
      var at := if i in chosen then before - |Within(chosen, 0, before)| + |Within(chosen, 0, i)|
                else if i < before then i - |Within(chosen, 0, i)|
                else i + |Within(chosen, i, |list|)|;
      0 <= at < |moved| && moved[at] == list[i]
  {
    PickedCount(list, 0, before, chosen);
    PickedCount(list, 0, |list|, chosen);
    WithinSplit(chosen, 0, before, |list|);
    if i in chosen {
      PickedAt(list, 0, |list|, chosen, i);
    } else if i < before {
      PickedAt(list, 0, before, chosen, i);
    } else {
      PickedAt(list, before, |list|, chosen, i);
      WithinSplit(chosen, before, i, |list|);
    }
  }

  /** Pages put in are all there, in their order from `at` on, and the others stay in theirs around them. */
  lemma InsertedAt(list: PageSeq, at: nat, like: nat, source: SourceId, sources: SourceId -> PageSeq)
    requires at <= |list|
    ensures var r := After(list, InsertPages(at, source), sources);
      r[..at] == list[..at] && r[at..at + |sources(source)|] == sources(source) && r[at + |sources(source)|..] == list[at..]
    ensures var r := After(list, InsertBlankPage(at, like), sources);
      r[..at] == list[..at] && r[at] == BLANK && r[at + 1..] == list[at..]
  {
  }

  /** A quarter turns the pages named and no others; two of them are a half, and with three more all are as they were. */
  lemma TurnedAt(list: PageSeq, pages: seq<nat>, sources: SourceId -> PageSeq, i: nat)
    requires i < |list| && list[i].quarters < 4
    ensures var once := After(list, RotatePages(pages, Cw90), sources);
      && |once| == |list|
      && once[i] == (if i !in pages then list[i] else if list[i].quarters == 3 then Page(list[i].from, 0)
                     else Page(list[i].from, list[i].quarters + 1))
      && After(list, RotatePages(pages, Cw180), sources)[i] == After(once, RotatePages(pages, Cw90), sources)[i]
      && After(once, RotatePages(pages, Cw270), sources)[i] == list[i]
  {
    var chosen := SetOf(pages);
    var once := After(list, RotatePages(pages, Cw90), sources);
    hide *;
    TurnIs(list, pages, Cw90, sources, i);
    TurnIs(list, pages, Cw180, sources, i);
    TurnIs(once, pages, Cw90, sources, i);
    TurnIs(once, pages, Cw270, sources, i);
  }

  lemma TurnIs(list: PageSeq, pages: seq<nat>, turn: Rotation, sources: SourceId -> PageSeq, i: nat)
    requires i < |list| && list[i].quarters < 4
    ensures var r, page := After(list, RotatePages(pages, turn), sources), list[i];
      var quarters := page.quarters + match turn case None => 0 case Cw90 => 1 case Cw180 => 2 case Cw270 => 3;
      && |r| == |list|
      && r[i] == if i !in pages then page else Page(page.from, if quarters < 4 then quarters else quarters - 4)
  {
    var quarters := list[i].quarters + QuartersOf(turn);
    assert quarters % 4 == if quarters < 4 then quarters else quarters - 4;
  }

  lemma MovedTimes(list: PageSeq, pages: set<nat>, before: nat, page: Page)
    requires before <= |list|
    ensures Times(Moved(list, pages, before), page) == Times(list, page)
  {
    var kept := Picked(list, 0, before, pages, false);
    var moved := Picked(list, 0, |list|, pages, true);
    var after := Picked(list, before, |list|, pages, false);
    PickedParts(list, 0, |list|, pages, page);
    PickedSplit(list, 0, before, |list|, pages, false);
    TimesAdd(kept, moved, page);
    TimesAdd(kept + moved, after, page);
    TimesAdd(kept, after, page);
    assert list[0..|list|] == list;
    hide Times;
  }

  /** The main process knows the pages of each source file. */
  predicate Agree(sourcePages: SourcePages, sources: SourceId -> PageSeq, edit: Edit)
  {
    edit.InsertPages? ==> sourcePages(edit.source) == Some(|sources(edit.source)|)
  }

  /** The page count foreseen is that of the pages after the edit, and stays within the bounds. */
  lemma CountIsForeseen(list: PageSeq, edit: Edit, allowed: Permissions, sourcePages: SourcePages, sources: SourceId -> PageSeq)
    requires 1 <= |list| <= MAX_PAGE_COUNT && Valid(edit)
    requires Agree(sourcePages, sources, edit)
    requires PagesAfter(edit, |list|, allowed, sourcePages).Ok?
    ensures PagesAfter(edit, |list|, allowed, sourcePages).value == |After(list, edit, sources)|
    ensures 1 <= |After(list, edit, sources)| <= MAX_PAGE_COUNT
  {
    match edit
    case DeletePages(pages) => DeletedCount(list, pages);
    case MovePages(pages, before) => MovedPermutes(list, SetOf(pages), before);
    case _ =>
  }

  /** So for every sequence of edits the main process accepts. */
  lemma {:induction false} CountsAreForeseen(list: PageSeq, edits: seq<Edit>, allowed: Permissions, sourcePages: SourcePages, sources: SourceId -> PageSeq)
    requires 1 <= |list| <= MAX_PAGE_COUNT && forall i :: 0 <= i < |edits| ==> Valid(edits[i]) && Agree(sourcePages, sources, edits[i])
    requires PagesAfterAll(edits, |list|, allowed, sourcePages).Ok?
    ensures PagesAfterAll(edits, |list|, allowed, sourcePages).value == |AfterAll(list, edits, sources)|
    ensures 1 <= |AfterAll(list, edits, sources)| <= MAX_PAGE_COUNT
    decreases |edits|
  {
    if edits != [] {
      var k := |edits| - 1;
      CountsAreForeseen(list, edits[..k], allowed, sourcePages, sources);
      CountIsForeseen(AfterAll(list, edits[..k], sources), edits[k], allowed, sourcePages, sources);
    }
  }

  /** An edit that deletes every page is the one that would leave none: it is always refused. */
  lemma NoPageLeftIsRefused(list: PageSeq, pages: seq<nat>, allowed: Permissions, sourcePages: SourcePages)
    requires 1 <= |list| && Valid(DeletePages(pages)) && AllBelow(pages, |list|)
    requires allowed.assemble || allowed.change
    ensures PagesAfter(DeletePages(pages), |list|, allowed, sourcePages).Err? <==> Deleted(list, SetOf(pages)) == []
  {
    DeletedCount(list, pages);
  }

  // ----- the worker's way of moving pages

  function Drop(list: PageSeq, at: nat): PageSeq
    requires at < |list|
  {
    list[..at] + list[at + 1..]
  }

  /** One page taken out and put in again, as MuPDF moves it. */
  function MovedOne(list: PageSeq, from: nat, to: nat): (r: PageSeq)
    requires from < |list| && to < |list|
    ensures |r| == |list|
  {
    var rest := Drop(list, from);
    rest[..to] + [list[from]] + rest[to..]
  }

  /** Moving a page back undoes its move. */
  lemma MovedBack(list: PageSeq, from: nat, to: nat)
    requires from < |list| && to < |list|
    ensures MovedOne(MovedOne(list, from, to), to, from) == list
  {
    var rest := Drop(list, from);
    var moved := MovedOne(list, from, to);
    assert Drop(moved, to) == rest;
    assert moved[to] == list[from];
  }

  predicate Ascending(s: seq<nat>)
  {
    forall i, j :: 0 <= i < j < |s| ==> s[i] < s[j]
  }

  predicate SortedSeq(s: seq<nat>)
  {
    forall i, j :: 0 <= i < j < |s| ==> s[i] <= s[j]
  }

  function Sorted(s: seq<nat>): (r: seq<nat>)
    ensures |r| == |s|
    decreases |s|
  {
    if s == [] then [] else PutIn(Sorted(s[..|s| - 1]), s[|s| - 1])
  }

  function PutIn(s: seq<nat>, x: nat): (r: seq<nat>)
    ensures |r| == |s| + 1
    decreases |s|
  {
    if s == [] || s[|s| - 1] <= x then s + [x]
    else PutIn(s[..|s| - 1], x) + [s[|s| - 1]]
  }

  lemma {:induction false} PutInKeeps(s: seq<nat>, x: nat)
    ensures multiset(PutIn(s, x)) == multiset(s) + multiset{x}
    decreases |s|
  {
    if s != [] && s[|s| - 1] > x {
      PutInKeeps(s[..|s| - 1], x);
      assert s == s[..|s| - 1] + [s[|s| - 1]];
    }
  }

  lemma SortedAppend(s: seq<nat>, x: nat)
    requires SortedSeq(s) && (s == [] || s[|s| - 1] <= x)
    ensures SortedSeq(s + [x])
  {
    forall i, j | 0 <= i < j < |s| + 1 ensures (s + [x])[i] <= (s + [x])[j] {
      if i < |s| - 1 { assert s[i] <= s[|s| - 1]; }
    }
  }

  lemma {:induction false} PutInSorts(s: seq<nat>, x: nat)
    requires SortedSeq(s)
    ensures SortedSeq(PutIn(s, x))
    ensures PutIn(s, x)[|s|] == if s == [] || s[|s| - 1] <= x then x else s[|s| - 1]
    decreases |s|
  {
    if s == [] || s[|s| - 1] <= x {
      SortedAppend(s, x);
    } else {
      var init := s[..|s| - 1];
      PutInSorts(init, x);
      SortedAppend(PutIn(init, x), s[|s| - 1]);
    }
  }

  lemma {:induction false} SortedSorts(s: seq<nat>)
    ensures SortedSeq(Sorted(s)) && multiset(Sorted(s)) == multiset(s)
    decreases |s|
  {
    if s != [] {
      var init, last := s[..|s| - 1], s[|s| - 1];
      assert Sorted(s) == PutIn(Sorted(init), last);
      assert s == init + [last];
      hide *;
      SortedSorts(init);
      PutInKeeps(Sorted(init), last);
      PutInSorts(Sorted(init), last);
    }
  }

  /** Pages named once each are in strict order once sorted. */
  lemma SortedAscends(pages: seq<nat>)
    requires Distinct(pages)
    ensures Ascending(Sorted(pages)) && SetOf(Sorted(pages)) == SetOf(pages)
  {
    var sorted := Sorted(pages);
    SortedSorts(pages);
    assert forall page :: page in sorted <==> page in multiset(sorted);
    assert forall page :: page in pages <==> page in multiset(pages);
    forall i, j | 0 <= i < j < |sorted| ensures sorted[i] < sorted[j] {
      if sorted[i] == sorted[j] {
        Twice(sorted, i, j);
        DistinctOnce(pages, sorted[i]);
      }
    }
  }

  lemma {:induction false} DistinctOnce(pages: seq<nat>, page: nat)
    requires Distinct(pages)
    ensures multiset(pages)[page] <= 1
    decreases |pages|
  {
    if pages != [] {
      var init := pages[..|pages| - 1];
      DistinctOnce(init, page);
      assert pages == init + [pages[|pages| - 1]];
    }
  }

  /** The list once the first `k` moved pages went to the end: the rest, then those. */
  function Gathering(list: PageSeq, moved: seq<nat>, k: nat): PageSeq
    requires k <= |moved|
  {
    var chosen := SetOf(moved[..k]);
    Picked(list, 0, |list|, chosen, false) + Picked(list, 0, |list|, chosen, true)
  }

  /** What is chosen is below `m`: the pages from there on are as they were. */
  lemma GatheredBelow(list: PageSeq, chosen: set<nat>, m: nat)
    requires m <= |list| && forall i :: i in chosen ==> i < m
    ensures Picked(list, 0, |list|, chosen, false) == Picked(list, 0, m, chosen, false) + list[m..]
    ensures Picked(list, 0, |list|, chosen, true) == Picked(list, 0, m, chosen, true)
    ensures |Picked(list, 0, m, chosen, false)| == m - |chosen| && |Picked(list, 0, m, chosen, true)| == |chosen|
  {
    PickedSplit(list, 0, m, |list|, chosen, false);
    PickedSplit(list, 0, m, |list|, chosen, true);
    PickedAll(list, m, |list|, chosen);
    PickedCount(list, 0, m, chosen);
    assert Within(chosen, 0, m) == chosen;
    assert list[m..|list|] == list[m..];
  }

  /** One more is chosen, above the others. */
  lemma ChosenOneMore(list: PageSeq, chosen: set<nat>, m: nat)
    requires m < |list| && forall i :: i in chosen ==> i < m
    ensures Picked(list, 0, m + 1, chosen + {m}, false) == Picked(list, 0, m, chosen, false)
    ensures Picked(list, 0, m + 1, chosen + {m}, true) == Picked(list, 0, m, chosen, true) + [list[m]]
  {
    PickedAlike(list, 0, m, chosen, chosen + {m}, false);
    PickedAlike(list, 0, m, chosen, chosen + {m}, true);
  }

  /** The list while the pages below `m` are gathered, around page `m`. */
  lemma GatherShape(list: PageSeq, chosen: set<nat>, m: nat)
    requires m < |list| && forall i :: i in chosen ==> i < m
    ensures var before, gathered := Picked(list, 0, m, chosen, false), Picked(list, 0, m, chosen, true);
      && |before| == m - |chosen| && |gathered| == |chosen|
      && Picked(list, 0, |list|, chosen, false) + Picked(list, 0, |list|, chosen, true)
         == before + [list[m]] + list[m + 1..] + gathered
      && Picked(list, 0, |list|, chosen + {m}, false) + Picked(list, 0, |list|, chosen + {m}, true)
         == before + list[m + 1..] + (gathered + [list[m]])
  {
    GatheredBelow(list, chosen, m);
    GatheredBelow(list, chosen + {m}, m + 1);
    ChosenOneMore(list, chosen, m);
    var before, gathered := Picked(list, 0, m, chosen, false), Picked(list, 0, m, chosen, true);
    hide *;
    Rejoined(list, m, before, gathered);
  }

  lemma Rejoined(list: PageSeq, m: nat, before: PageSeq, gathered: PageSeq)
    requires m < |list|
    ensures (before + list[m..]) + gathered == before + [list[m]] + list[m + 1..] + gathered
  {
  }

  lemma ChosenBelow(moved: seq<nat>, k: nat)
    requires Ascending(moved) && k < |moved|
    ensures forall i :: i in SetOf(moved[..k]) ==> i < moved[k]
    ensures |SetOf(moved[..k])| == k && SetOf(moved[..k + 1]) == SetOf(moved[..k]) + {moved[k]}
  {
    assert moved[..k + 1] == moved[..k] + [moved[k]];
    DistinctCount(moved[..k]);
  }

  /** The list before and after the `k`th moved page goes to the end. */
  lemma GatherParts(list: PageSeq, moved: seq<nat>, k: nat)
    requires Ascending(moved) && AllBelow(moved, |list|) && k < |moved|
    ensures k <= moved[k]
    ensures var m := moved[k];
      var before := Picked(list, 0, m, SetOf(moved[..k]), false);
      var gathered := Picked(list, 0, m, SetOf(moved[..k]), true);
      && |before| == m - k && |gathered| == k
      && Gathering(list, moved, k) == before + [list[m]] + list[m + 1..] + gathered
      && Gathering(list, moved, k + 1) == before + list[m + 1..] + (gathered + [list[m]])
  {
    hide Picked, SetOf;
    ChosenBelow(moved, k);
    GatherShape(list, SetOf(moved[..k]), moved[k]);
  }

  /** The `k`th moved page is `k` places nearer the start by then, and goes after those before it. */
  lemma GatherOne(list: PageSeq, moved: seq<nat>, k: nat)
    requires Ascending(moved) && AllBelow(moved, |list|) && k < |moved|
    ensures k <= moved[k] && |Gathering(list, moved, k)| == |list|
    ensures MovedOne(Gathering(list, moved, k), moved[k] - k, |list| - 1) == Gathering(list, moved, k + 1)
  {
    var m := moved[k];
    assert m < |list|;
    hide *;
    GatherParts(list, moved, k);
    OneToTheEnd(Picked(list, 0, m, SetOf(moved[..k]), false), list[m], list[m + 1..], Picked(list, 0, m, SetOf(moved[..k]), true));
  }

  lemma OneToTheEnd(before: PageSeq, page: Page, after: PageSeq, gathered: PageSeq)
    ensures var list := before + [page] + after + gathered;
      MovedOne(list, |before|, |list| - 1) == before + after + (gathered + [page])
  {
  }

  /** The block goes to its place a page at a time. */
  function Placing(rest: PageSeq, block: PageSeq, start: nat, k: nat): PageSeq
    requires start <= |rest| && k <= |block|
  {
    rest[..start] + block[..k] + rest[start..] + block[k..]
  }

  lemma PlaceOne(rest: PageSeq, block: PageSeq, start: nat, k: nat)
    requires start <= |rest| && k < |block|
    ensures |Placing(rest, block, start, k)| == |rest| + |block|
    ensures MovedOne(Placing(rest, block, start, k), |rest| + k, start + k) == Placing(rest, block, start, k + 1)
  {
  }

  lemma PlacedAll(rest: PageSeq, block: PageSeq, start: nat)
    requires start <= |rest|
    ensures Placing(rest, block, start, |block|) == rest[..start] + block + rest[start..]
  {
    assert block[..|block|] == block;
  }

  /** Where the moved pages start once in place: after those that stay and come before `before`. */
  function Start(moved: seq<nat>, before: nat): (start: int)
    ensures start <= before
  {
    if moved == [] then before
    else Start(moved[..|moved| - 1], before) - if moved[|moved| - 1] < before then 1 else 0
  }

  function Rest(list: PageSeq, moved: seq<nat>): PageSeq { Picked(list, 0, |list|, SetOf(moved), false) }

  function Block(list: PageSeq, moved: seq<nat>): PageSeq { Picked(list, 0, |list|, SetOf(moved), true) }

  lemma {:induction false} StartCounts(moved: seq<nat>, before: nat)
    requires Distinct(moved)
    ensures Start(moved, before) == before - |Within(SetOf(moved), 0, before)|
    decreases |moved|
  {
    if moved == [] {
      assert Within(SetOf(moved), 0, before) == {};
    } else {
      var init, last := moved[..|moved| - 1], moved[|moved| - 1];
      StartCounts(init, before);
      assert SetOf(moved) == SetOf(init) + {last};
      if last < before {
        assert Within(SetOf(moved), 0, before) == Within(SetOf(init), 0, before) + {last};
      } else {
        assert Within(SetOf(moved), 0, before) == Within(SetOf(init), 0, before);
      }
    }
  }

  /** As many pages stay before the block as `Start` says. */
  lemma StartIsRest(list: PageSeq, moved: seq<nat>, before: nat)
    requires Ascending(moved) && AllBelow(moved, |list|) && before <= |list|
    ensures |Rest(list, moved)| == |list| - |moved| && |Block(list, moved)| == |moved|
    ensures 0 <= Start(moved, before) <= |Rest(list, moved)|
    ensures Rest(list, moved)[..Start(moved, before)] == Picked(list, 0, before, SetOf(moved), false)
    ensures Rest(list, moved)[Start(moved, before)..] == Picked(list, before, |list|, SetOf(moved), false)
  {
    PickedSplit(list, 0, before, |list|, SetOf(moved), false);
    PickedCount(list, 0, |list|, SetOf(moved));
    PickedCount(list, 0, before, SetOf(moved));
    StartCounts(moved, before);
    DistinctCount(moved);
    assert Within(SetOf(moved), 0, |list|) == SetOf(moved);
    hide Picked;
  }

  /** The list after `step` of the moves that gather the pages and then put them in place. */
  function AtStep(list: PageSeq, moved: seq<nat>, start: nat, step: nat): PageSeq
    requires step <= 2 * |moved| && start <= |Rest(list, moved)| && |Block(list, moved)| == |moved|
  {
    if step <= |moved| then Gathering(list, moved, step)
    else Placing(Rest(list, moved), Block(list, moved), start, step - |moved|)
  }

  lemma PlacedIsMoved(list: PageSeq, moved: seq<nat>, before: nat)
    requires Ascending(moved) && AllBelow(moved, |list|) && before <= |list|
    ensures |Rest(list, moved)| == |list| - |moved| && |Block(list, moved)| == |moved|
    ensures 0 <= Start(moved, before) <= |Rest(list, moved)|
    ensures AtStep(list, moved, Start(moved, before), 2 * |moved|) == Moved(list, SetOf(moved), before)
  {
    StartIsRest(list, moved, before);
    hide Picked, Start, Placing;
    if moved == [] {
      assert SetOf(moved) == {} && moved[..0] == [];
      PickedAll(list, 0, |list|, {});
      PickedSplit(list, 0, before, |list|, {}, false);
    } else {
      PlacedAll(Rest(list, moved), Block(list, moved), Start(moved, before));
    }
  }

  lemma MovedInPlace(list: PageSeq, at: nat)
    requires at < |list|
    ensures MovedOne(list, at, at) == list
  {
  }

  /** One move of MuPDF's. */
  datatype Step = Step(from: nat, to: nat)

  /** `was` with the moves made on it in order; `None` when one names a page that is not there. */
  ghost function ReplayedMoves(was: PageSeq, made: seq<Step>): Option<PageSeq>
    decreases |made|
  {
    if made == [] then Some(was)
    else
      var last := made[|made| - 1];
      match ReplayedMoves(was, made[..|made| - 1])
      case None => Option.None
      case Some(list) =>
        if last.from < |list| && last.to < |list| then Some(MovedOne(list, last.from, last.to)) else Option.None
  }

  lemma OneMoreMove(was: PageSeq, made: seq<Step>, list: PageSeq, last: Step)
    requires ReplayedMoves(was, made) == Some(list) && last.from < |list| && last.to < |list|
    ensures ReplayedMoves(was, made + [last]) == Some(MovedOne(list, last.from, last.to))
  {
  }

  /** The moves: first each page to the end, then each from there to its place. */
  function StepAt(count: nat, moved: seq<nat>, start: nat, step: nat): Step
    requires step < 2 * |moved| && |moved| <= count && 0 < count
    requires step < |moved| ==> step <= moved[step]
  {
    if step < |moved| then Step(moved[step] - step, count - 1)
    else Step(count - |moved| + (step - |moved|), start + (step - |moved|))
  }

  /** Each move takes the list from one step to the next. */
  predicate Moves(list: PageSeq, moved: seq<nat>, start: nat, step: nat)
    requires step < 2 * |moved| && |moved| <= |list| && 0 < |list| && (step < |moved| ==> step <= moved[step])
    requires start <= |Rest(list, moved)| && |Block(list, moved)| == |moved|
  {
    var move := StepAt(|list|, moved, start, step);
    && |AtStep(list, moved, start, step)| == |list| && move.from < |list| && move.to < |list|
    && MovedOne(AtStep(list, moved, start, step), move.from, move.to) == AtStep(list, moved, start, step + 1)
  }

  lemma GatherStep(list: PageSeq, moved: seq<nat>, start: nat, step: nat)
    requires Ascending(moved) && AllBelow(moved, |list|) && step < |moved| <= |list|
    requires start <= |Rest(list, moved)| && |Block(list, moved)| == |moved|
    ensures step <= moved[step] && Moves(list, moved, start, step)
  {
    GatherOne(list, moved, step);
    hide MovedOne, Gathering, Rest, Block, Placing;
  }

  lemma PlacingNone(rest: PageSeq, block: PageSeq, start: nat)
    requires start <= |rest|
    ensures Placing(rest, block, start, 0) == rest + block
  {
  }

  /** While the block goes to its place, the list is what `Placing` says; from its first step on. */
  lemma PlacingAt(list: PageSeq, moved: seq<nat>, start: nat, step: nat)
    requires |moved| <= step <= 2 * |moved|
    requires start <= |Rest(list, moved)| && |Block(list, moved)| == |moved|
    ensures AtStep(list, moved, start, step) == Placing(Rest(list, moved), Block(list, moved), start, step - |moved|)
  {
    if step == |moved| {
      assert moved[..|moved|] == moved;
      assert Gathering(list, moved, |moved|) == Rest(list, moved) + Block(list, moved);
      hide Rest, Block, Gathering, Placing;
      PlacingNone(Rest(list, moved), Block(list, moved), start);
    }
  }

  lemma PlaceStep(list: PageSeq, moved: seq<nat>, start: nat, step: nat)
    requires |moved| <= step < 2 * |moved| <= 2 * |list|
    requires start <= |Rest(list, moved)| == |list| - |moved| && |Block(list, moved)| == |moved|
    ensures Moves(list, moved, start, step)
  {
    hide Rest, Block, Placing, Gathering, MovedOne, AtStep;
    PlacingAt(list, moved, start, step);
    PlacingAt(list, moved, start, step + 1);
    PlaceOne(Rest(list, moved), Block(list, moved), start, step - |moved|);
  }

  lemma OneStep(list: PageSeq, moved: seq<nat>, before: nat, step: nat)
    requires Ascending(moved) && AllBelow(moved, |list|) && before <= |list| && step < 2 * |moved|
    ensures |Rest(list, moved)| == |list| - |moved| && |Block(list, moved)| == |moved|
    ensures 0 <= Start(moved, before) <= |Rest(list, moved)|
    ensures 0 < |list| && |moved| <= |list| && (step < |moved| ==> step <= moved[step])
    ensures var start := Start(moved, before);
      var move := StepAt(|list|, moved, start, step);
      && |AtStep(list, moved, start, step)| == |list| && move.from < |list| && move.to < |list|
      && MovedOne(AtStep(list, moved, start, step), move.from, move.to) == AtStep(list, moved, start, step + 1)
  {
    StartIsRest(list, moved, before);
    hide Rest, Block, Start, MovedOne, AtStep, StepAt;
    if step < |moved| {
      GatherStep(list, moved, Start(moved, before), step);
    } else {
      PlaceStep(list, moved, Start(moved, before), step);
    }
  }

  lemma NoStep(list: PageSeq, moved: seq<nat>, before: nat)
    requires Ascending(moved) && AllBelow(moved, |list|) && before <= |list|
    ensures |Rest(list, moved)| == |list| - |moved| && |Block(list, moved)| == |moved|
    ensures 0 <= Start(moved, before) <= |Rest(list, moved)|
    ensures AtStep(list, moved, Start(moved, before), 0) == list
  {
    StartIsRest(list, moved, before);
    assert SetOf(moved[..0]) == {};
    PickedAll(list, 0, |list|, {});
  }

  function InOrder(pages: seq<nat>): seq<nat> { Sorted(pages) }

  /** What moving pages starts from. */
  lemma Ready(list: PageSeq, pages: seq<nat>, before: nat)
    requires PageList(pages) && AllBelow(pages, |list|) && before <= |list|
    ensures var moved := InOrder(pages);
      && Ascending(moved) && AllBelow(moved, |list|) && SetOf(moved) == SetOf(pages)
      && |Rest(list, moved)| == |list| - |moved| && |Block(list, moved)| == |moved|
      && 0 <= Start(moved, before) <= |Rest(list, moved)|
      && AtStep(list, moved, Start(moved, before), 0) == list
  {
    SortedAscends(pages);
    SortedBelow(pages, |list|);
    NoStep(list, Sorted(pages), before);
  }

  lemma NoMoves(list: PageSeq)
    ensures ReplayedMoves(list, []) == Some(list)
  {
  }

  /** The pages of a document in the worker. */
  class PageTree {
    var list: PageSeq

    constructor (list: PageSeq)
      ensures this.list == list
    {
      this.list := list;
    }

    /** MuPDF takes a page out and puts it in again. */
    method MovePage(from: nat, to: nat)
      requires from < |list| && to < |list|
      modifies this
      ensures list == MovedOne(old(list), from, to)
    {
      var page := list[from];
      list := list[..from] + list[from + 1..];
      list := list[..to] + [page] + list[to..];
    }

    /**
     * Moves `pages`, named once each, to just before page `before`. MuPDF fails at its `fails`th
     * step, if it does: the moves already made are then made back, and one that cannot be is passed
     * over. No page is lost then, or doubled; and if all can be, nothing was moved.
     */
    method MovePages(pages: seq<nat>, before: nat, fails: Option<nat>, sticks: nat -> bool) returns (done: bool)
      requires PageList(pages) && AllBelow(pages, |list|) && before <= |list|
      modifies this
      ensures done ==> list == Moved(old(list), SetOf(pages), before)
      ensures multiset(list) == multiset(old(list))
      ensures !done && (forall i: nat :: !sticks(i)) ==> list == old(list)
      ensures fails.None? ==> done
    {
      hide *;
      ghost var was := list;
      var count := |list|;
      Ready(was, pages, before);
      var moved := InOrder(pages);
      var start := Start(moved, before);
      var made: seq<Step> := [];
      var step := 0;
      NoMoves(was);
      while step < 2 * |moved|
        invariant 0 <= step <= 2 * |moved| && |list| == count
        invariant list == AtStep(was, moved, start, step)
        invariant ReplayedMoves(was, made) == Some(list)
      {
        OneStep(was, moved, before, step);
        var move := StepAt(count, moved, start, step);
        if move.from != move.to && fails == Some(step) {
          MoveBack(was, made, sticks);
          return false;
        }
        made := Make(was, made, move);
        step := step + 1;
      }
      PlacedIsMoved(was, moved, before);
      MovedPermutes(was, SetOf(pages), before);
      return true;
    }

    /** A move that changes nothing is left out. */
    method Make(ghost was: PageSeq, made: seq<Step>, move: Step) returns (more: seq<Step>)
      requires move.from < |list| && move.to < |list| && ReplayedMoves(was, made) == Some(list)
      modifies this
      ensures list == MovedOne(old(list), move.from, move.to) && ReplayedMoves(was, more) == Some(list)
    {
      more := made;
      if move.from != move.to {
        OneMoreMove(was, made, list, move);
        MovePage(move.from, move.to);
        more := made + [move];
      } else {
        MovedInPlace(list, move.from);
      }
    }

    /** Moves made from `was` on are made back, the last one first; those that stick are passed over. */
    method MoveBack(ghost was: PageSeq, made: seq<Step>, sticks: nat -> bool)
      requires ReplayedMoves(was, made) == Some(list)
      modifies this
      ensures multiset(list) == multiset(was)
      ensures (forall i: nat :: !sticks(i)) ==> list == was
    {
      hide *;
      var left := |made|;
      ReplayedWhole(was, made);
      ReplayedPermutes(was, made);
      while left > 0
        invariant 0 <= left <= |made| && multiset(list) == multiset(was) && |list| == |was|
        invariant (forall i: nat :: !sticks(i)) ==> ReplayedMoves(was, made[..left]) == Some(list)
        invariant ReplayedMoves(was, made[..left]).Some?
      {
        LastMove(was, made, left);
        var last := made[left - 1];
        if !sticks(left - 1) {
          MovedOnePermutes(list, last.to, last.from);
          MovePage(last.to, last.from);
        }
        left := left - 1;
      }
      NoneReplayed(was, made);
    }
  }

  lemma ReplayedWhole(was: PageSeq, made: seq<Step>)
    ensures made[..|made|] == made
  {
  }

  lemma NoneReplayed(was: PageSeq, made: seq<Step>)
    ensures ReplayedMoves(was, made[..0]) == Some(was)
  {
  }

  lemma MovedOnePermutes(list: PageSeq, from: nat, to: nat)
    requires from < |list| && to < |list|
    ensures multiset(MovedOne(list, from, to)) == multiset(list)
  {
    assert list == list[..from] + [list[from]] + list[from + 1..];
    var rest := Drop(list, from);
    assert rest == list[..from] + list[from + 1..] && rest == rest[..to] + rest[to..];
    assert multiset(rest) + multiset{list[from]} == multiset(list);
  }

  lemma {:induction false} ReplayedPermutes(was: PageSeq, made: seq<Step>)
    requires ReplayedMoves(was, made).Some?
    ensures var list := ReplayedMoves(was, made).value; multiset(list) == multiset(was) && |list| == |was|
    decreases |made|
  {
    if made != [] {
      var init, last := made[..|made| - 1], made[|made| - 1];
      ReplayedPermutes(was, init);
      MovedOnePermutes(ReplayedMoves(was, init).value, last.from, last.to);
    }
  }

  /** The last of some moves is between places there are, and made back it leaves the moves before it. */
  lemma {:induction false} LastMove(was: PageSeq, made: seq<Step>, left: nat)
    requires 0 < left <= |made| && ReplayedMoves(was, made[..left]).Some?
    ensures var last, init := made[left - 1], ReplayedMoves(was, made[..left - 1]);
      && init.Some? && last.from < |was| && last.to < |was| && |ReplayedMoves(was, made[..left]).value| == |was|
      && MovedOne(ReplayedMoves(was, made[..left]).value, last.to, last.from) == init.value
  {
    assert made[..left][..left - 1] == made[..left - 1];
    ReplayedPermutes(was, made[..left - 1]);
    MovedBack(ReplayedMoves(was, made[..left - 1]).value, made[left - 1].from, made[left - 1].to);
  }

  lemma SortedBelow(pages: seq<nat>, count: nat)
    requires AllBelow(pages, count)
    ensures AllBelow(Sorted(pages), count)
  {
    var sorted := Sorted(pages);
    SortedSorts(pages);
    forall i | 0 <= i < |sorted| ensures sorted[i] < count {
      assert sorted[i] in multiset(sorted);
      assert sorted[i] in multiset(pages);
    }
  }
}
