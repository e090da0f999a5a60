/**
 * A batch (src-tauri/src/batch.rs:94-180; src-tauri/src/documents.rs:1436-1556): a copy of each file
 * into a folder, each under a free name, with Bates numbers carried on from file to file
 * (crates/ipc_contract/src/types.rs:1199-1341).
 */
module Batches {
  import opened Basics
  import opened Decimals

  const MAX_COPY_NUMBER := 999

  // ----- names

  /** Where the last dot of a name is. */
  function LastDot(name: string): (d: Option<nat>)
    ensures d.Some? ==> d.value < |name| && name[d.value] == '.' && forall i :: d.value < i < |name| ==> name[i] != '.'
    ensures d.None? ==> '.' !in name
  {
    if name == [] then None
    else if name[|name| - 1] == '.' then Some(|name| - 1)
    else LastDot(name[..|name| - 1])
  }

  /** 1 is the name itself; a greater number goes in front of the last dot, if that is not the first character. */
  function Numbered(name: string, number: nat): string
  {
    if number <= 1 then name
    else
      match LastDot(name)
      case Some(dot) =>
        if dot > 0 then name[..dot] + (" (" + Decimal(number) + ")") + name[dot..]
        else name + (" (" + Decimal(number) + ")")
      case None => name + (" (" + Decimal(number) + ")")
  }

  lemma BetweenDiffers(before: string, a: string, b: string, after: string)
    requires before + (" (" + a + ")") + after == before + (" (" + b + ")") + after
    ensures a == b
  {
    var left, right := before + (" (" + a + ")") + after, before + (" (" + b + ")") + after;
    var n := |before|;
    assert |a| == |b|;
    assert a == left[n + 2..n + 2 + |a|];
    assert b == right[n + 2..n + 2 + |b|];
  }

  /** Different numbers give different names. */
  lemma NumberedDiffers(name: string, a: nat, b: nat)
    requires 1 <= a && 1 <= b && Numbered(name, a) == Numbered(name, b)
    ensures a == b
  {
    if a > 1 && b > 1 {
      var dot := LastDot(name);
      if dot.Some? && dot.value > 0 {
        BetweenDiffers(name[..dot.value], Decimal(a), Decimal(b), name[dot.value..]);
      } else {
        assert name + (" (" + Decimal(a) + ")") == name + (" (" + Decimal(a) + ")") + [];
        assert name + (" (" + Decimal(b) + ")") == name + (" (" + Decimal(b) + ")") + [];
        BetweenDiffers(name, Decimal(a), Decimal(b), []);
      }
      DecimalReads(a);
      DecimalReads(b);
    }
  }

  lemma {:induction false} DotIsLast(name: string, d: nat)
    requires d < |name| && name[d] == '.' && forall i :: d < i < |name| ==> name[i] != '.'
    ensures LastDot(name) == Some(d)
    decreases |name|
  {
    if d < |name| - 1 { DotIsLast(name[..|name| - 1], d); }
  }

  lemma Joined(a: string, b: string, c: string, d: string, e: string)
    ensures a + (b + c + d) + e == a + b + c + d + e
  {
  }

  /** A second copy and any after it is told apart in front of the extension. */
  lemma NumberedBeforeExtension(stem: string, extension: string, number: nat)
    requires stem != "" && '.' !in extension && number >= 2
    ensures Numbered(stem + "." + extension, number) == stem + " (" + Decimal(number) + ")" + "." + extension
  {
    hide Decimal, LastDot;
    var name := stem + "." + extension;
    assert forall i :: |stem| < i < |name| ==> name[i] == extension[i - |stem| - 1];
    DotIsLast(name, |stem|);
    assert name[..|stem|] == stem && name[|stem|..] == "." + extension;
    Joined(stem, " (", Decimal(number), ")", name[|stem|..]);
    assert stem + " (" + Decimal(number) + ")" + name[|stem|..] == stem + " (" + Decimal(number) + ")" + "." + extension;
  }

  /** Or at the end of a name without one: a dot in front is of the name. The first copy has the name itself. */
  lemma NumberedAtEnd(name: string, number: nat)
    requires forall i :: 0 < i < |name| ==> name[i] != '.'
    ensures Numbered(name, number) == if number >= 2 then name + " (" + Decimal(number) + ")" else name
  {
    if number >= 2 { assert name + (" (" + Decimal(number) + ")") == name + " (" + Decimal(number) + ")"; }
  }

  // ----- the pages that are marked

  datatype MarkPages = All | AllButFirst | Custom(pages: set<nat>)

  datatype Bates = Bates(prefix: string, digits: nat, start: nat)

  datatype Operation = Plain | Marks(pages: MarkPages, bates: Option<Bates>)

  /** How many pages are marked, of `total`; or why the marks cannot be drawn. */
  function MarkedCount(pages: MarkPages, bates: Option<Bates>, total: nat): (r: Result<nat, ErrorCode>)
    ensures r.Ok? ==> r.value >= 1 && (bates.Some? ==> bates.value.start + r.value <= Pow10(bates.value.digits))
  {
    var marked := match pages
      case All => total
      case AllButFirst => if total > 0 then total - 1 else 0
      case Custom(some) => |some|;
    if pages.Custom? && exists page :: page in pages.pages && page >= total then Err(NoPageToMark)
    else if marked == 0 then Err(NoPageToMark)
    else if bates.Some? && bates.value.start + (marked - 1) >= Pow10(bates.value.digits) then Err(BatesOverflow)
    else Ok(marked)
  }

  /** Whether the page of an index is to be marked. */
  predicate IsMarked(pages: MarkPages, page: nat)
  {
    match pages case All => true case AllButFirst => page >= 1 case Custom(some) => page in some
  }

  /** The indices of the pages to be marked in a document of `total` pages, in order. */
  function MarkedPages(pages: MarkPages, total: nat): (r: seq<nat>)
  {
    if total == 0 then []
    else
      var before := MarkedPages(pages, total - 1);
      if IsMarked(pages, total - 1) then before + [total - 1] else before
  }

  predicate Rising(numbers: seq<nat>) { forall i, j :: 0 <= i < j < |numbers| ==> numbers[i] < numbers[j] }

  /** They are the pages to be marked, each once. */
  lemma {:induction false} MarkedPagesAre(pages: MarkPages, total: nat)
    ensures forall page: nat :: page in MarkedPages(pages, total) <==> page < total && IsMarked(pages, page)
    ensures Rising(MarkedPages(pages, total))
    decreases total
  {
    hide IsMarked;
    if total > 0 {
      MarkedPagesAre(pages, total - 1);
      var before := MarkedPages(pages, total - 1);
      assert forall page: nat :: page in before + [total - 1] <==> page in before || page == total - 1;
      forall i | 0 <= i < |before| ensures before[i] < total - 1 { assert before[i] in before; }
    }
  }

  /** There is a page to be marked, and every page that is named. */
  predicate CanMark(pages: MarkPages, total: nat)
  {
    && MarkedPages(pages, total) != []
    && (pages.Custom? ==> forall page :: page in pages.pages ==> page < total)
  }

  /** The last of so many numbers has no more digits than there may be. */
  predicate NumbersFit(start: nat, many: nat, digits: nat) { start + many <= Pow10(digits) }

  lemma {:induction false} AllMarked(pages: MarkPages, total: nat)
    ensures pages.All? ==> |MarkedPages(pages, total)| == total
    ensures pages.AllButFirst? && total > 0 ==> |MarkedPages(pages, total)| == total - 1
    decreases total
  {
    if total > 0 { AllMarked(pages, total - 1); }
  }

  function Below(some: set<nat>, total: nat): set<nat> { set page | page in some && page < total }

  lemma {:induction false} SomeMarked(some: set<nat>, total: nat)
    ensures |MarkedPages(Custom(some), total)| == |Below(some, total)|
    decreases total
  {
    if total > 0 {
      SomeMarked(some, total - 1);
      BelowMore(some, total - 1);
      hide Below;
    } else {
      assert Below(some, 0) == {};
    }
  }

  lemma BelowMore(some: set<nat>, n: nat)
    ensures |Below(some, n + 1)| == |Below(some, n)| + if n in some then 1 else 0
  {
    assert Below(some, n + 1) == if n in some then Below(some, n) + {n} else Below(some, n);
  }

  lemma AllBelow(some: set<nat>, total: nat)
    requires forall page :: page in some ==> page < total
    ensures Below(some, total) == some
  {
  }

  /**
   * As many pages are marked as there are to be; refused when that is none, one named is not there, or
   * the last number has too many digits, and only the last is answered as such.
   */
  lemma MarkedExactlyWhen(pages: MarkPages, bates: Option<Bates>, total: nat)
    ensures var r := MarkedCount(pages, bates, total);
      var fit := bates.Some? ==> NumbersFit(bates.value.start, |MarkedPages(pages, total)|, bates.value.digits);
      && (r.Ok? <==> CanMark(pages, total) && fit)
      && (r.Ok? ==> r.value == |MarkedPages(pages, total)|)
      && (r.Err? ==> r.error == if CanMark(pages, total) then BatesOverflow else NoPageToMark)
  {
    AllMarked(pages, total);
    if pages.Custom? {
      SomeMarked(pages.pages, total);
      if forall page :: page in pages.pages ==> page < total { AllBelow(pages.pages, total); }
    }
    hide MarkedPages, Pow10, Below;
    assert total == 0 ==> |MarkedPages(pages, total)| == 0 by { NoneMarked(pages); }
  }

  lemma NoneMarked(pages: MarkPages)
    ensures MarkedPages(pages, 0) == []
  {
  }

  function FormatNumber(bates: Bates, n: nat): string { bates.prefix + Padded(n, bates.digits) }

  /** No two numbers of a batch look alike. */
  lemma NumbersLookDifferent(bates: Bates, a: nat, b: nat)
    requires FormatNumber(bates, a) == FormatNumber(bates, b)
    ensures a == b
  {
    assert FormatNumber(bates, a)[|bates.prefix|..] == Padded(a, bates.digits);
    assert FormatNumber(bates, b)[|bates.prefix|..] == Padded(b, bates.digits);
    PaddedReads(a, bates.digits);
    PaddedReads(b, bates.digits);
  }

  // ----- one file

  type Folder = map<string, Content>

  /**
   * A file of the batch, as far as it is not the batch's own doing: what keeps it from being opened
   * or marked, how many pages it has, what goes wrong as its copy is made, the copy and the name it
   * is to have; and `placing`, what goes wrong as the copy gets a name.
   */
  datatype File = File(name: string, unusable: Option<ErrorCode>, pages: nat, failing: Option<ErrorCode>,
    copy: Content, placing: nat -> Option<ErrorCode>)

  /** The first number that makes the copy's name one no file has. */
  predicate FirstFree(folder: Folder, name: string, number: nat)
  {
    && 1 <= number <= MAX_COPY_NUMBER && Numbered(name, number) !in folder
    && forall n :: 1 <= n < number ==> Numbered(name, n) in folder
  }

  /** The first number from `n` on that makes the name one no file has. */
  function FreeFrom(folder: Folder, name: string, n: nat): (number: nat)
    requires n <= MAX_COPY_NUMBER + 1
    ensures n <= number <= MAX_COPY_NUMBER + 1
    ensures number <= MAX_COPY_NUMBER ==> Numbered(name, number) !in folder
    ensures forall m :: n <= m < number ==> Numbered(name, m) in folder
    decreases MAX_COPY_NUMBER + 1 - n
  {
    if n > MAX_COPY_NUMBER || Numbered(name, n) !in folder then n else FreeFrom(folder, name, n + 1)
  }

  /** The name a copy gets. */
  function Placed(folder: Folder, file: File): Result<string, ErrorCode>
  {
    var number := FreeFrom(folder, file.name, 1);
    if number > MAX_COPY_NUMBER then Err(Unwritable)
    else if file.placing(number).Some? then Err(file.placing(number).value)
    else Ok(Numbered(file.name, number))
  }

  /** The name of the copy of one file, and how many of its pages are marked. */
  function Copied(folder: Folder, file: File, operation: Operation): Result<(string, nat), ErrorCode>
  {
    var marked := if operation.Marks? then MarkedCount(operation.pages, operation.bates, file.pages) else Ok(0);
    if file.unusable.Some? then Err(file.unusable.value)
    else if marked.Err? then Err(marked.error)
    else if file.failing.Some? then Err(file.failing.value)
    else
      match Placed(folder, file)
      case Err(error) => Err(error)
      case Ok(name) => Ok((name, marked.value))
  }

  /** Gives the copy a name. A file with that name, the source itself among them, makes it try the next. */
  method Place(folder: Folder, file: File) returns (after: Folder, r: Result<string, ErrorCode>)
    ensures r == Placed(folder, file)
    ensures r.Ok? ==>
      && r.value !in folder && after == folder[r.value := file.copy]
      && exists n :: FirstFree(folder, file.name, n) && r.value == Numbered(file.name, n)
    ensures r.Err? ==> after == folder
    ensures (forall n: nat :: file.placing(n).None?) ==>
      (r.Err? <==> forall n :: 1 <= n <= MAX_COPY_NUMBER ==> Numbered(file.name, n) in folder)
  {
    after := folder;
    var number := 1;
    while number <= MAX_COPY_NUMBER
      invariant 1 <= number <= MAX_COPY_NUMBER + 1
      invariant FreeFrom(folder, file.name, 1) == FreeFrom(folder, file.name, number)
      invariant forall n :: 1 <= n < number ==> Numbered(file.name, n) in folder
    {
      var destination := Numbered(file.name, number);
      if destination !in folder {
        if file.placing(number).Some? {
          return folder, Err(file.placing(number).value);
        }
        assert FirstFree(folder, file.name, number);
        return folder[destination := file.copy], Ok(destination);
      }
      number := number + 1;
    }
    return folder, Err(Unwritable);
  }

  /** The copy of one file, and how many of its pages were marked. */
  method CopyOne(folder: Folder, file: File, operation: Operation) returns (after: Folder, r: Result<(string, nat), ErrorCode>)
    ensures r == Copied(folder, file, operation)
    ensures r.Err? ==> after == folder
    ensures r.Ok? ==> r.value.0 !in folder && after == folder[r.value.0 := file.copy]
  {
    after := folder;
    if file.unusable.Some? {
      return folder, Err(file.unusable.value);
    }
    var marked := 0;
    if operation.Marks? {
      var count := MarkedCount(operation.pages, operation.bates, file.pages);
      if count.Err? {
        return folder, Err(count.error);
      }
      marked := count.value;
    }
    if file.failing.Some? {
      return folder, Err(file.failing.value);
    }
    var placed;
    after, placed := Place(folder, file);
    if placed.Err? {
      return after, Err(placed.error);
    }
    return after, Ok((placed.value, marked));
  }

  // ----- the run

  datatype Outcome = Done(output: string, bates: Option<(nat, nat)>) | Failed(error: ErrorCode) | Skipped

  datatype Summary = Summary(done: nat, failed: nat, skipped: nat)

  function Count(outcomes: seq<Outcome>): Summary
  {
    if outcomes == [] then Summary(0, 0, 0)
    else
      var c := Count(outcomes[..|outcomes| - 1]);
      match outcomes[|outcomes| - 1]
      case Done(_, _) => c.(done := c.done + 1)
      case Failed(_) => c.(failed := c.failed + 1)
      case Skipped => c.(skipped := c.skipped + 1)
  }

  /** The Bates numbers of the copies, in the order of the files. */
  function NumbersOf(outcomes: seq<Outcome>): seq<nat>
  {
    if outcomes == [] then []
    else
      var init := NumbersOf(outcomes[..|outcomes| - 1]);
      match outcomes[|outcomes| - 1]
      case Done(_, Some((first, last))) => init + FromTo(first, last)
      case _ => init
  }

  function FromTo(first: nat, last: nat): (s: seq<nat>)
    ensures forall i :: 0 <= i < |s| ==> s[i] == first + i
    ensures |s| == if first <= last then last - first + 1 else 0
  {
    if first <= last then seq(last - first + 1, i requires 0 <= i => first + i) else []
  }

  function OutputsOf(outcomes: seq<Outcome>): seq<string>
  {
    if outcomes == [] then []
    else
      var init := OutputsOf(outcomes[..|outcomes| - 1]);
      if outcomes[|outcomes| - 1].Done? then init + [outcomes[|outcomes| - 1].output] else init
  }

  predicate Distinct(names: seq<string>) { forall i, j :: 0 <= i < j < |names| ==> names[i] != names[j] }

  /** Nothing that was there changed, and the files that are new are the copies, all of different names. */
  ghost predicate OnlyAdded(before: Folder, after: Folder, outputs: seq<string>)
  {
    && (forall name :: name in before ==> name in after && after[name] == before[name])
    && (forall name :: name in after <==> name in before || name in outputs)
    && (forall i :: 0 <= i < |outputs| ==> outputs[i] !in before)
    && Distinct(outputs)
  }

  /** Bates numbers go on where the last copy's ended; `None` without them. */
  function StartOf(operation: Operation): Option<nat>
  {
    if operation.Marks? && operation.bates.Some? then Some(operation.bates.value.start) else None
  }

  /** Numbers from the start on, none left out and none twice, with no more digits than asked for; or none at all. */
  predicate OneRun(operation: Operation, numbers: seq<nat>)
  {
    if StartOf(operation).None? then numbers == []
    else
      forall k :: 0 <= k < |numbers| ==> numbers[k] == StartOf(operation).value + k < Pow10(operation.bates.value.digits)
  }

  function From(operation: Operation, start: Option<nat>): Operation
  {
    if operation.Marks? && operation.bates.Some? && start.Some?
    then operation.(bates := Some(operation.bates.value.(start := start.value)))
    else operation
  }

  /** What one file comes to, and where the Bates numbers go on. */
  function OneFile(folder: Folder, file: File, operation: Operation, start: Option<nat>): (r: (Folder, Outcome, Option<nat>))
    ensures !r.1.Skipped?
  {
    match Copied(folder, file, From(operation, start))
    case Err(error) => (folder, Failed(error), start)
    case Ok((output, count)) =>
      var after := folder[output := file.copy];
      if start.None? then (after, Done(output, None), None)
      else
        var last := start.value + (if count >= 1 then count - 1 else 0);
        (after, Done(output, Some((start.value, last))), Some(last + 1))
  }

  /** What the first `n` files come to: the folder, what became of each, and the next Bates number. */
  function RunOf(files: seq<File>, folder: Folder, operation: Operation, stop: nat -> bool, n: nat): (r: (Folder, seq<Outcome>, Option<nat>))
    requires n <= |files|
    ensures |r.1| == n
  {
    if n == 0 then (folder, [], StartOf(operation))
    else
      var before := RunOf(files, folder, operation, stop, n - 1);
      if stop(n - 1) then (before.0, before.1 + [Skipped], before.2)
      else
        var r := OneFile(before.0, files[n - 1], operation, before.2);
        (r.0, before.1 + [r.1], r.2)
  }

  lemma {:induction false} RunPrefix(files: seq<File>, folder: Folder, operation: Operation, stop: nat -> bool, n: nat, i: nat)
    requires i < n <= |files|
    ensures RunOf(files, folder, operation, stop, n).1[i] == RunOf(files, folder, operation, stop, i + 1).1[i]
    decreases n
  {
    hide OneFile, StartOf;
    if i + 1 < n { RunPrefix(files, folder, operation, stop, n - 1, i); }
  }

  /** The pages of a file that the operation marks. */
  function ToMark(operation: Operation, file: File): seq<nat>
  {
    if operation.Marks? then MarkedPages(operation.pages, file.pages) else []
  }

  /** The marks can be drawn, the Bates numbers going on at `start`. */
  predicate MayMark(operation: Operation, file: File, start: Option<nat>)
  {
    operation.Marks? ==>
      && CanMark(operation.pages, file.pages)
      && (operation.bates.Some? && start.Some? ==>
            NumbersFit(start.value, |ToMark(operation, file)|, operation.bates.value.digits))
  }

  /**
   * When a file is done: nothing keeps it from being opened and marked, there are pages to mark and
   * numbers for them, and the copy gets the first free of its names. And its Bates numbers are as many,
   * from the next one on, as it has pages that are marked.
   */
  lemma DoneExactlyWhen(files: seq<File>, folder: Folder, operation: Operation, stop: nat -> bool, i: nat)
    requires i < |files|
    ensures var outcome := RunOf(files, folder, operation, stop, |files|).1[i];
      var now := RunOf(files, folder, operation, stop, i);
      var file := files[i];
      && (now.2.Some? <==> operation.Marks? && operation.bates.Some?)
      && (outcome.Done?
          <==> && !stop(i) && file.unusable.None? && MayMark(operation, file, now.2) && file.failing.None?
               && exists n :: FirstFree(now.0, file.name, n) && file.placing(n).None?)
      && (outcome.Done? ==>
            && IsRange(outcome.bates, now.2, |ToMark(operation, file)|)
            && exists n :: FirstFree(now.0, file.name, n) && outcome.output == Numbered(file.name, n))
  {
    hide *;
    RunPrefix(files, folder, operation, stop, |files|, i);
    RunNext(files, folder, operation, stop, i);
    StartStays(files, folder, operation, stop, i);
    var now := RunOf(files, folder, operation, stop, i);
    if !stop(i) { OneFileDone(now.0, files[i], operation, now.2); }
  }

  /** As many numbers as given from `start` on; none without a start. */
  predicate IsRange(bates: Option<(nat, nat)>, start: Option<nat>, many: nat)
  {
    && (bates.Some? <==> start.Some?)
    && (bates.Some? ==> bates.value.0 == start.value && bates.value.1 + 1 == start.value + many)
  }

  lemma {:induction false} StartStays(files: seq<File>, folder: Folder, operation: Operation, stop: nat -> bool, n: nat)
    requires n <= |files|
    ensures RunOf(files, folder, operation, stop, n).2.Some? <==> operation.Marks? && operation.bates.Some?
    decreases n
  {
    hide Copied;
    if n > 0 { StartStays(files, folder, operation, stop, n - 1); }
  }

  lemma MineMarked(file: File, operation: Operation, start: Option<nat>)
    requires start.Some? <==> operation.Marks? && operation.bates.Some?
    ensures var mine := From(operation, start);
      && (mine.Marks? <==> operation.Marks?)
      && (mine.Marks? ==>
            var count := MarkedCount(mine.pages, mine.bates, file.pages);
            && (count.Ok? <==> MayMark(operation, file, start))
            && (count.Ok? ==> count.value == |ToMark(operation, file)|))
  {
    var mine := From(operation, start);
    if mine.Marks? { MarkedExactlyWhen(mine.pages, mine.bates, file.pages); }
    hide MarkedCount, CanMark, NumbersFit, MarkedPages;
  }

  lemma OneFileDone(folder: Folder, file: File, operation: Operation, start: Option<nat>)
    requires start.Some? <==> operation.Marks? && operation.bates.Some?
    ensures var outcome := OneFile(folder, file, operation, start).1;
      && (outcome.Done?
          <==> && file.unusable.None? && MayMark(operation, file, start) && file.failing.None?
               && exists n :: FirstFree(folder, file.name, n) && file.placing(n).None?)
      && (outcome.Done? ==>
            && IsRange(outcome.bates, start, |ToMark(operation, file)|)
            && exists n :: FirstFree(folder, file.name, n) && outcome.output == Numbered(file.name, n))
  {
    FreeIsFirst(folder, file.name);
    MineMarked(file, operation, start);
    if MayMark(operation, file, start) && operation.Marks? { SomeToMark(operation, file, start); }
    hide FreeFrom, Numbered, MarkedCount, From, FirstFree, MayMark, ToMark;
  }

  /** Why a file fails: the first of what keeps it from being opened, marked, copied and given a name. */
  lemma FailedWith(folder: Folder, file: File, operation: Operation, start: Option<nat>)
    requires start.Some? <==> operation.Marks? && operation.bates.Some?
    requires OneFile(folder, file, operation, start).1.Failed?
    ensures OneFile(folder, file, operation, start).1.error
      == if file.unusable.Some? then file.unusable.value
         else if operation.Marks? && !CanMark(operation.pages, file.pages) then NoPageToMark
         else if !MayMark(operation, file, start) then BatesOverflow
         else if file.failing.Some? then file.failing.value
         else if n :| FirstFree(folder, file.name, n) && file.placing(n).Some? then file.placing(n).value
         else Unwritable
    ensures OneFile(folder, file, operation, start).0 == folder && OneFile(folder, file, operation, start).2 == start
  {
    FreeIsFirst(folder, file.name);
    MineMarked(file, operation, start);
    var mine := From(operation, start);
    if mine.Marks? { MarkedExactlyWhen(mine.pages, mine.bates, file.pages); }
    hide FreeFrom, Numbered, MarkedCount, FirstFree, MayMark, ToMark, CanMark, NumbersFit;
  }

  lemma SomeToMark(operation: Operation, file: File, start: Option<nat>)
    requires operation.Marks? && MayMark(operation, file, start)
    ensures |ToMark(operation, file)| >= 1
  {
  }

  // ----- a number for every page

  /** Which page of which file. */
  datatype At = At(file: nat, page: nat)

  /** The pages that are marked in the files that are done, in order. */
  function AllMarkedPages(files: seq<File>, operation: Operation, outcomes: seq<Outcome>): seq<At>
    requires |outcomes| <= |files|
  {
    if outcomes == [] then []
    else
      var k := |outcomes| - 1;
      var before := AllMarkedPages(files, operation, outcomes[..k]);
      if outcomes[k].Done? then before + PagesAt(k, ToMark(operation, files[k])) else before
  }

  function PagesAt(file: nat, pages: seq<nat>): seq<At>
  {
    seq(|pages|, i requires 0 <= i < |pages| => At(file, pages[i]))
  }

  /** The numbers told of are as many as there are pages marked so far, and go on where they end. */
  ghost predicate InStep(files: seq<File>, operation: Operation, outcomes: seq<Outcome>, next: Option<nat>)
  {
    && |outcomes| <= |files|
    && var pages := AllMarkedPages(files, operation, outcomes);
    && (next.Some? ==>
          && |NumbersOf(outcomes)| == |pages| && StartOf(operation).Some? && next.value == StartOf(operation).value + |pages|
          && (forall k :: 0 <= k < |pages| ==> IsNumbered(operation, outcomes, pages[k], StartOf(operation).value + k)))
  }

  /** The file is done, and the number is one of those told of it. */
  predicate IsNumbered(operation: Operation, outcomes: seq<Outcome>, at: At, number: nat)
  {
    && at.file < |outcomes| && outcomes[at.file].Done? && outcomes[at.file].bates.Some?
    && outcomes[at.file].bates.value.0 <= number <= outcomes[at.file].bates.value.1
  }

  lemma {:induction false} RunInStep(files: seq<File>, folder: Folder, operation: Operation, stop: nat -> bool, n: nat)
    requires n <= |files|
    ensures InStep(files, operation, RunOf(files, folder, operation, stop, n).1, RunOf(files, folder, operation, stop, n).2)
    decreases n
  {
    hide *;
    if n == 0 {
      NoneRun(files, folder, operation, stop);
      NothingInStep(files, operation);
    } else {
      RunInStep(files, folder, operation, stop, n - 1);
      OneMoreRun(files, folder, operation, stop, n - 1);
      StartStays(files, folder, operation, stop, n - 1);
      var now := RunOf(files, folder, operation, stop, n - 1);
      OneFileDone(now.0, files[n - 1], operation, now.2);
      OneFileGoesOn(now.0, files[n - 1], operation, now.2);
      var outcome := if stop(n - 1) then Skipped else OneFile(now.0, files[n - 1], operation, now.2).1;
      var next := if stop(n - 1) then now.2 else OneFile(now.0, files[n - 1], operation, now.2).2;
      InStepMore(files, operation, now.1, now.2, outcome, next);
    }
  }

  lemma NothingInStep(files: seq<File>, operation: Operation)
    ensures InStep(files, operation, [], StartOf(operation))
  {
  }

  lemma OneFileGoesOn(folder: Folder, file: File, operation: Operation, start: Option<nat>)
    ensures var r := OneFile(folder, file, operation, start);
      && (!r.1.Done? ==> r.2 == start)
      && (r.1.Done? ==> r.2 == if r.1.bates.Some? then Some(r.1.bates.value.1 + 1) else None)
  {
    hide Copied, From;
  }

  lemma InStepMore(files: seq<File>, operation: Operation, outcomes: seq<Outcome>, start: Option<nat>, outcome: Outcome, next: Option<nat>)
    requires InStep(files, operation, outcomes, start) && |outcomes| < |files|
    requires outcome.Done? ==> IsRange(outcome.bates, start, |ToMark(operation, files[|outcomes|])|)
    requires next == if !outcome.Done? then start else if outcome.bates.Some? then Some(outcome.bates.value.1 + 1) else None
    ensures InStep(files, operation, outcomes + [outcome], next)
  {
    var more := outcomes + [outcome];
    assert more[..|outcomes|] == outcomes;
    Heard(outcomes, outcome);
    hide ToMark, StartOf;
    var pages, all := AllMarkedPages(files, operation, outcomes), AllMarkedPages(files, operation, more);
    if next.Some? {
      forall k | 0 <= k < |all| ensures IsNumbered(operation, more, all[k], StartOf(operation).value + k) {
        if k < |pages| { assert all[k] == pages[k] && IsNumbered(operation, outcomes, pages[k], StartOf(operation).value + k); }
      }
    }
  }

  /**
   * Every page to be marked, of every file that is done, has exactly one number: the pages in order, file
   * by file, have the numbers from the first on, in order, and each is among those told of its file.
   */
  lemma EachPageIsNumbered(files: seq<File>, folder: Folder, operation: Operation, stop: nat -> bool)
    requires operation.Marks? && operation.bates.Some?
    ensures var outcomes := RunOf(files, folder, operation, stop, |files|).1;
      var pages := AllMarkedPages(files, operation, outcomes);
      && |NumbersOf(outcomes)| == |pages|
      && AreToMark(files, operation, outcomes, pages)
      && forall k :: 0 <= k < |pages| ==> IsNumbered(operation, outcomes, pages[k], operation.bates.value.start + k)
  {
    RunInStep(files, folder, operation, stop, |files|);
    StartStays(files, folder, operation, stop, |files|);
    var outcomes := RunOf(files, folder, operation, stop, |files|).1;
    MarkedThere(files, operation, outcomes);
    hide RunOf, AllMarkedPages, NumbersOf, IsToMark, IsNumbered, AreToMark;
  }

  /** The file has the page, and it is one to be marked. */
  predicate IsToMark(files: seq<File>, operation: Operation, at: At)
  {
    at.file < |files| && at.page < files[at.file].pages && operation.Marks? && IsMarked(operation.pages, at.page)
  }

  predicate Earlier(a: At, b: At) { a.file < b.file || (a.file == b.file && a.page < b.page) }

  /** These are all the pages to be marked of the files done, each once and in order. */
  ghost predicate AreToMark(files: seq<File>, operation: Operation, outcomes: seq<Outcome>, pages: seq<At>)
    requires |outcomes| <= |files|
  {
    && (forall at: At :: at in pages <==> at.file < |outcomes| && outcomes[at.file].Done? && IsToMark(files, operation, at))
    && (forall i, j :: 0 <= i < j < |pages| ==> Earlier(pages[i], pages[j]))
  }

  lemma {:induction false} MarkedThere(files: seq<File>, operation: Operation, outcomes: seq<Outcome>)
    requires operation.Marks? && |outcomes| <= |files|
    ensures AreToMark(files, operation, outcomes, AllMarkedPages(files, operation, outcomes))
    decreases |outcomes|
  {
    hide *;
    if outcomes == [] {
      NoneToMark(files, operation);
    } else {
      var k := |outcomes| - 1;
      MarkedThere(files, operation, outcomes[..k]);
      MarkedHere(files, operation, k);
      OneMoreMarked(files, operation, outcomes);
      MoreToMark(files, operation, outcomes, AllMarkedPages(files, operation, outcomes[..k]),
                 if outcomes[k].Done? then PagesAt(k, ToMark(operation, files[k])) else []);
    }
  }

  lemma NoneToMark(files: seq<File>, operation: Operation)
    ensures AreToMark(files, operation, [], AllMarkedPages(files, operation, []))
  {
  }

  lemma OneMoreMarked(files: seq<File>, operation: Operation, outcomes: seq<Outcome>)
    requires outcomes != [] && |outcomes| <= |files|
    ensures var k := |outcomes| - 1;
      AllMarkedPages(files, operation, outcomes)
      == AllMarkedPages(files, operation, outcomes[..k]) + if outcomes[k].Done? then PagesAt(k, ToMark(operation, files[k])) else []
  {
    hide PagesAt, ToMark;
  }

  lemma MoreToMark(files: seq<File>, operation: Operation, outcomes: seq<Outcome>, before: seq<At>, here: seq<At>)
    requires outcomes != [] && |outcomes| <= |files|
    requires AreToMark(files, operation, outcomes[..|outcomes| - 1], before)
    requires forall at: At :: at in here <==> at.file == |outcomes| - 1 && outcomes[at.file].Done? && IsToMark(files, operation, at)
    requires forall i, j :: 0 <= i < j < |here| ==> Earlier(here[i], here[j])
    ensures AreToMark(files, operation, outcomes, before + here)
  {
    hide IsToMark;
    forall i, j | 0 <= i < |before| && 0 <= j < |here| ensures Earlier(before[i], here[j]) {
      assert before[i] in before && here[j] in here;
    }
  }

  lemma MarkedHere(files: seq<File>, operation: Operation, k: nat)
    requires operation.Marks? && k < |files|
    ensures var here := PagesAt(k, ToMark(operation, files[k]));
      && (forall at: At :: at in here <==> at.file == k && IsToMark(files, operation, at))
      && (forall i, j :: 0 <= i < j < |here| ==> Earlier(here[i], here[j]))
  {
    MarkedPagesAre(operation.pages, files[k].pages);
    var mine := MarkedPages(operation.pages, files[k].pages);
    hide MarkedPages, IsMarked;
    var here := PagesAt(k, mine);
    forall at: At ensures at in here <==> at.file == k && at.page in mine {
      if at.file == k && at.page in mine {
        var i :| 0 <= i < |mine| && mine[i] == at.page;
        assert here[i] == at;
      }
    }
  }

  lemma RunNext(files: seq<File>, folder: Folder, operation: Operation, stop: nat -> bool, i: nat)
    requires i < |files|
    ensures var now := RunOf(files, folder, operation, stop, i);
      RunOf(files, folder, operation, stop, i + 1).1[i]
      == if stop(i) then Skipped else OneFile(now.0, files[i], operation, now.2).1
  {
  }

  lemma FreeIsFirst(folder: Folder, name: string)
    ensures forall n :: FirstFree(folder, name, n) <==> n == FreeFrom(folder, name, 1) <= MAX_COPY_NUMBER
  {
  }

  /**
   * Every file in turn. Each is done, failed or skipped; the skipped ones are those after the stop;
   * what was in the folder stays as it is, and as many files come as were done, all of different
   * names; and the Bates numbers of the copies are one run of numbers, none left out and none twice,
   * whatever failed in between.
   */
  method Run(files: seq<File>, folder: Folder, operation: Operation, stop: nat -> bool)
    returns (after: Folder, outcomes: seq<Outcome>, summary: Summary)
    requires forall i: nat, j: nat :: i <= j && stop(i) ==> stop(j)
    ensures (after, outcomes) == (RunOf(files, folder, operation, stop, |files|).0, RunOf(files, folder, operation, stop, |files|).1)
    ensures |outcomes| == |files| && summary == Count(outcomes)
    ensures summary.done + summary.failed + summary.skipped == |files|
    ensures forall i :: 0 <= i < |files| ==> (outcomes[i].Skipped? <==> stop(i))
    ensures OnlyAdded(folder, after, OutputsOf(outcomes)) && |OutputsOf(outcomes)| == summary.done
    ensures |after| == |folder| + summary.done
    ensures OneRun(operation, NumbersOf(outcomes))
  {
    hide *;
    after, outcomes, summary := folder, [], Summary(0, 0, 0);
    var start := StartOf(operation);
    var index := 0;
    Nothing(folder, operation);
    NoneRun(files, folder, operation, stop);
    while index < |files|
      invariant 0 <= index <= |files| && |outcomes| == index
      invariant forall i :: 0 <= i < index ==> (outcomes[i].Skipped? <==> stop(i))
      invariant SoFar(folder, after, operation, outcomes, summary, start)
      invariant (after, outcomes, start) == RunOf(files, folder, operation, stop, index)
    {
      var outcome;
      ghost var before, counted, from := after, summary, start;
      if stop(index) {
        summary := summary.(skipped := summary.skipped + 1);
        outcome := Skipped;
        GoesSkipped(after, operation, start, files[index].copy);
      } else {
        SoFarStarts(folder, after, operation, outcomes, summary, start);
        after, outcome, start := Do(after, files[index], operation, start);
        if outcome.Done? {
          summary := summary.(done := summary.done + 1);
        } else {
          summary := summary.(failed := summary.failed + 1);
        }
      }
      CountedIs(counted, outcome);
      SoFarMore(folder, before, operation, outcomes, counted, from, outcome, after, files[index].copy, summary, start);
      OneMoreRun(files, folder, operation, stop, index);
      outcomes := outcomes + [outcome];
      index := index + 1;
    }
    SoFarAll(folder, after, operation, outcomes, summary, start);
  }

  lemma NoneRun(files: seq<File>, folder: Folder, operation: Operation, stop: nat -> bool)
    ensures RunOf(files, folder, operation, stop, 0) == (folder, [], StartOf(operation))
  {
  }

  lemma OneMoreRun(files: seq<File>, folder: Folder, operation: Operation, stop: nat -> bool, i: nat)
    requires i < |files|
    ensures var now, next := RunOf(files, folder, operation, stop, i), RunOf(files, folder, operation, stop, i + 1);
      var r := OneFile(now.0, files[i], operation, now.2);
      next == if stop(i) then (now.0, now.1 + [Skipped], now.2) else (r.0, now.1 + [r.1], r.2)
  {
  }

  lemma CountedIs(summary: Summary, outcome: Outcome)
    ensures outcome.Done? ==> Counted(summary, outcome) == summary.(done := summary.done + 1)
    ensures outcome.Failed? ==> Counted(summary, outcome) == summary.(failed := summary.failed + 1)
    ensures outcome.Skipped? ==> Counted(summary, outcome) == summary.(skipped := summary.skipped + 1)
  {
  }

  /** What the run has come to after some files. */
  ghost predicate SoFar(folder: Folder, after: Folder, operation: Operation, outcomes: seq<Outcome>, summary: Summary, start: Option<nat>)
  {
    && summary == Count(outcomes) && summary.done + summary.failed + summary.skipped == |outcomes|
    && OnlyAdded(folder, after, OutputsOf(outcomes)) && |OutputsOf(outcomes)| == summary.done
    && |after| == |folder| + summary.done
    && (start.Some? <==> StartOf(operation).Some?)
    && (start.Some? ==> InARow(NumbersOf(outcomes), StartOf(operation).value, start.value))
    && (start.Some? && NumbersOf(outcomes) != [] ==> start.value <= Pow10(operation.bates.value.digits))
    && (start.None? ==> NumbersOf(outcomes) == [])
  }

  lemma Nothing(folder: Folder, operation: Operation)
    ensures SoFar(folder, folder, operation, [], Summary(0, 0, 0), StartOf(operation))
  {
  }

  lemma SoFarStarts(folder: Folder, after: Folder, operation: Operation, outcomes: seq<Outcome>, summary: Summary, start: Option<nat>)
    requires SoFar(folder, after, operation, outcomes, summary, start)
    ensures start.Some? <==> StartOf(operation).Some?
  {
  }

  lemma SoFarAll(folder: Folder, after: Folder, operation: Operation, outcomes: seq<Outcome>, summary: Summary, start: Option<nat>)
    requires SoFar(folder, after, operation, outcomes, summary, start)
    ensures summary == Count(outcomes) && summary.done + summary.failed + summary.skipped == |outcomes|
    ensures OnlyAdded(folder, after, OutputsOf(outcomes)) && |OutputsOf(outcomes)| == summary.done
    ensures |after| == |folder| + summary.done
    ensures OneRun(operation, NumbersOf(outcomes))
  {
  }

  /** How one file goes is one of three ways. */
  ghost predicate Goes(before: Folder, after: Folder, operation: Operation, from: Option<nat>, start: Option<nat>,
    outcome: Outcome, copy: Content)
  {
    match outcome
    case Done(output, bates) =>
      && output !in before && after == before[output := copy]
      && (from.Some? ==>
            && bates.Some? && bates.value.0 == from.value <= bates.value.1
            && StartOf(operation).Some? && bates.value.1 < Pow10(operation.bates.value.digits)
            && start == Some(bates.value.1 + 1))
      && (from.None? ==> bates.None? && start.None?)
    case _ => after == before && start == from
  }

  lemma GoesSkipped(folder: Folder, operation: Operation, start: Option<nat>, copy: Content)
    ensures Goes(folder, folder, operation, start, start, Skipped, copy)
  {
  }

  function Counted(summary: Summary, outcome: Outcome): Summary
  {
    match outcome
    case Done(_, _) => summary.(done := summary.done + 1)
    case Failed(_) => summary.(failed := summary.failed + 1)
    case Skipped => summary.(skipped := summary.skipped + 1)
  }

  lemma SoFarMore(folder: Folder, before: Folder, operation: Operation, outcomes: seq<Outcome>, counted: Summary,
    from: Option<nat>, outcome: Outcome, after: Folder, copy: Content, summary: Summary, start: Option<nat>)
    requires SoFar(folder, before, operation, outcomes, counted, from)
    requires Goes(before, after, operation, from, start, outcome, copy) && summary == Counted(counted, outcome)
    ensures SoFar(folder, after, operation, outcomes + [outcome], summary, start)
  {
    hide OnlyAdded, InARow, Count, NumbersOf, OutputsOf, Pow10;
    Heard(outcomes, outcome);
    if outcome.Done? {
      AddedOne(folder, before, OutputsOf(outcomes), outcome.output, copy);
      if from.Some? {
        RunsOn(NumbersOf(outcomes), StartOf(operation).value, from.value, outcome.bates.value.1);
      }
    }
  }

  /** One file: its copy made, with the next Bates numbers; a file that fails takes none. */
  method Do(folder: Folder, file: File, operation: Operation, start: Option<nat>)
    returns (after: Folder, outcome: Outcome, next: Option<nat>)
    requires start.Some? <==> StartOf(operation).Some?
    ensures !outcome.Skipped? && Goes(folder, after, operation, start, next, outcome, file.copy)
    ensures (after, outcome, next) == OneFile(folder, file, operation, start)
  {
    next := start;
    var mine := From(operation, start);
    var copied;
    after, copied := CopyOne(folder, file, mine);
    match copied {
      case Ok((output, count)) =>
        if start.Some? {
          var last := start.value + (if count >= 1 then count - 1 else 0);
          outcome := Done(output, Some((start.value, last)));
          next := Some(last + 1);
        } else {
          outcome := Done(output, None);
        }
      case Err(error) => outcome := Failed(error);
    }
  }

  lemma AddedOne(before: Folder, now: Folder, outputs: seq<string>, output: string, copy: Content)
    requires OnlyAdded(before, now, outputs) && output !in now
    ensures OnlyAdded(before, now[output := copy], outputs + [output])
    ensures |now[output := copy]| == |now| + 1
  {
  }

  lemma RunsOn(numbers: seq<nat>, start: nat, first: nat, last: nat)
    requires InARow(numbers, start, first) && first <= last
    ensures InARow(numbers + FromTo(first, last), start, last + 1)
  {
  }

  predicate InARow(numbers: seq<nat>, start: nat, next: nat)
  {
    next == start + |numbers| && forall k :: 0 <= k < |numbers| ==> numbers[k] == start + k
  }

  lemma Heard(outcomes: seq<Outcome>, outcome: Outcome)
    ensures Count(outcomes + [outcome]) == Counted(Count(outcomes), outcome)
    ensures NumbersOf(outcomes + [outcome])
         == if outcome.Done? && outcome.bates.Some?
            then NumbersOf(outcomes) + FromTo(outcome.bates.value.0, outcome.bates.value.1) else NumbersOf(outcomes)
    ensures OutputsOf(outcomes + [outcome])
         == if outcome.Done? then OutputsOf(outcomes) + [outcome.output] else OutputsOf(outcomes)
  {
  }
}
