/**
 * The list of fonts (src-tauri/src/fonts.rs:132-147, 219-300, 411-482): the user's own before the
 * machine's and imported fonts before installed ones, no name twice, and a number for each that is
 * its own.
 */
module FontLists {
  import opened Basics
  import opened NaturalOrders

  const MAX_FONTS := 4096

  /** How many numbers there are for fonts. */
  const IDS := 0x1_0000_0000

  /** Where a font is from; the user's own registrations are looked at before the machine's. */
  datatype From = Imported | User | Machine

  datatype Font = Font(name: string, family: string, bold: bool, italic: bool, from: From, place: nat)

  datatype Listed = Listed(id: nat, font: Font)

  type LowerCase = string -> string

  /** The number a font's name and place give it, wherever it is listed. */
  type Hash = Font -> nat

  predicate HashOk(hash: Hash, fonts: seq<Font>) { forall i :: 0 <= i < |fonts| ==> hash(fonts[i]) < IDS }

  // ----- the first of a name stays

  function NameOf(lower: LowerCase, font: Font): string { lower(font.name) }

  predicate HasName(lower: LowerCase, fonts: seq<Font>, name: string)
  {
    exists i :: 0 <= i < |fonts| && NameOf(lower, fonts[i]) == name
  }

  /** Of the fonts of each name the first one, in order. */
  function Retained(lower: LowerCase, fonts: seq<Font>): (r: seq<Font>)
    ensures |r| <= |fonts|
  {
    if fonts == [] then []
    else
      var init := Retained(lower, fonts[..|fonts| - 1]);
      var last := fonts[|fonts| - 1];
      if HasName(lower, fonts[..|fonts| - 1], NameOf(lower, last)) then init else init + [last]
  }

  method Retain(lower: LowerCase, fonts: seq<Font>) returns (kept: seq<Font>)
    ensures kept == Retained(lower, fonts)
  {
    kept := [];
    var seen: set<string> := {};
    var i := 0;
    while i < |fonts|
      invariant 0 <= i <= |fonts| && kept == Retained(lower, fonts[..i])
      invariant forall name :: name in seen <==> HasName(lower, fonts[..i], name)
    {
      var name := NameOf(lower, fonts[i]);
      assert fonts[..i + 1][..i] == fonts[..i];
      NamesMore(lower, fonts, i);
      if name !in seen {
        kept := kept + [fonts[i]];
      }
      seen := seen + {name};
      i := i + 1;
    }
    assert fonts[..i] == fonts;
  }

  lemma NamesMore(lower: LowerCase, fonts: seq<Font>, i: nat)
    requires i < |fonts|
    ensures forall name :: HasName(lower, fonts[..i + 1], name) <==> HasName(lower, fonts[..i], name) || name == NameOf(lower, fonts[i])
  {
    forall name ensures HasName(lower, fonts[..i + 1], name) <==> HasName(lower, fonts[..i], name) || name == NameOf(lower, fonts[i]) {
      if HasName(lower, fonts[..i], name) {
        var k :| 0 <= k < i && NameOf(lower, fonts[..i][k]) == name;
        assert fonts[..i + 1][k] == fonts[..i][k];
      }
      if name == NameOf(lower, fonts[i]) { assert fonts[..i + 1][i] == fonts[i]; }
      if HasName(lower, fonts[..i + 1], name) {
        var k :| 0 <= k < i + 1 && NameOf(lower, fonts[..i + 1][k]) == name;
        if k < i { assert fonts[..i][k] == fonts[..i + 1][k]; }
      }
    }
  }

  /** `fonts[i]` is the first of its name. */
  predicate FirstOfName(lower: LowerCase, fonts: seq<Font>, i: nat)
    requires i < |fonts|
  {
    forall k :: 0 <= k < i ==> NameOf(lower, fonts[k]) != NameOf(lower, fonts[i])
  }

  /** The first of a name stays. */
  lemma {:induction false} FirstStays(lower: LowerCase, fonts: seq<Font>, i: nat)
    requires i < |fonts| && FirstOfName(lower, fonts, i)
    ensures fonts[i] in Retained(lower, fonts)
    decreases |fonts|
  {
    var k := |fonts| - 1;
    if i < k {
      assert fonts[..k][i] == fonts[i];
      FirstStays(lower, fonts[..k], i);
    }
  }

  /** What stays is the first of its name. */
  lemma {:induction false} StaysIsFirst(lower: LowerCase, fonts: seq<Font>, font: Font) returns (i: nat)
    requires font in Retained(lower, fonts)
    ensures i < |fonts| && fonts[i] == font && FirstOfName(lower, fonts, i)
    decreases |fonts|
  {
    var k := |fonts| - 1;
    if font in Retained(lower, fonts[..k]) {
      i := StaysIsFirst(lower, fonts[..k], font);
      assert fonts[..k][i] == fonts[i];
    } else {
      i := k;
      LastIsFirst(lower, fonts);
    }
  }

  lemma LastIsFirst(lower: LowerCase, fonts: seq<Font>)
    requires fonts != [] && !HasName(lower, fonts[..|fonts| - 1], NameOf(lower, fonts[|fonts| - 1]))
    ensures FirstOfName(lower, fonts, |fonts| - 1)
  {
  }

  /** No name stays twice. */
  lemma {:induction false} RetainedDiffer(lower: LowerCase, fonts: seq<Font>)
    ensures NamesDiffer(lower, Retained(lower, fonts))
    decreases |fonts|
  {
    if fonts != [] {
      var init, last := fonts[..|fonts| - 1], fonts[|fonts| - 1];
      RetainedDiffer(lower, init);
      if !HasName(lower, init, NameOf(lower, last)) {
        var kept := Retained(lower, init);
        forall k | 0 <= k < |kept| ensures NameOf(lower, kept[k]) != NameOf(lower, last) {
          var i := StaysIsFirst(lower, init, kept[k]);
        }
      }
    }
  }

  predicate NamesDiffer(lower: LowerCase, fonts: seq<Font>)
  {
    forall i, j :: 0 <= i < j < |fonts| ==> NameOf(lower, fonts[i]) != NameOf(lower, fonts[j])
  }

  // ----- the order

  function BoolOrder(a: bool, b: bool): Order { if a == b then Equal else if b then Less else Greater }

  /** Families first; in a family what is not bold before what is, and each of these upright first; then names. */
  function FontOrder(lower: LowerCase, a: Font, b: Font): Order
  {
    var family := TextOrder(lower(a.family), lower(b.family));
    if !family.Equal? then family
    else if !BoolOrder(a.bold, b.bold).Equal? then BoolOrder(a.bold, b.bold)
    else if !BoolOrder(a.italic, b.italic).Equal? then BoolOrder(a.italic, b.italic)
    else TextOrder(NameOf(lower, a), NameOf(lower, b))
  }

  /** By family; in a family what is not bold, of these what is upright, then by name: all in lower case. */
  predicate FontLess(lower: LowerCase, a: Font, b: Font)
  {
    var family, other := lower(a.family), lower(b.family);
    || TextLess(family, other)
    || (family == other && !a.bold && b.bold)
    || (family == other && a.bold == b.bold && !a.italic && b.italic)
    || (family == other && a.bold == b.bold && a.italic == b.italic && TextLess(lower(a.name), lower(b.name)))
  }

  /** The order of the list: what comes later never belongs before. */
  lemma FontOrderIs(lower: LowerCase, a: Font, b: Font)
    ensures FontOrder(lower, a, b).Less? <==> FontLess(lower, a, b)
    ensures FontOrder(lower, a, b).Greater? <==> FontLess(lower, b, a)
  {
    TextOrderIs(lower(a.family), lower(b.family));
    TextEqual(lower(a.family), lower(b.family));
    TextOrderIs(lower(a.name), lower(b.name));
    hide TextOrder, TextLess;
  }

  predicate InOrder(lower: LowerCase, fonts: seq<Font>)
  {
    forall i, j :: 0 <= i < j < |fonts| ==> !FontOrder(lower, fonts[i], fonts[j]).Greater?
  }

  function PutIn(lower: LowerCase, fonts: seq<Font>, font: Font): (r: seq<Font>)
    ensures |r| == |fonts| + 1
    decreases |fonts|
  {
    if fonts == [] || !FontOrder(lower, fonts[|fonts| - 1], font).Greater? then fonts + [font]
    else PutIn(lower, fonts[..|fonts| - 1], font) + [fonts[|fonts| - 1]]
  }

  /** A stable sort by `FontOrder`. */
  function Sorted(lower: LowerCase, fonts: seq<Font>): (r: seq<Font>)
    ensures |r| == |fonts|
    decreases |fonts|
  {
    if fonts == [] then [] else PutIn(lower, Sorted(lower, fonts[..|fonts| - 1]), fonts[|fonts| - 1])
  }

  lemma FontsCompare(lower: LowerCase, a: Font, b: Font, c: Font)
    ensures FontOrder(lower, b, a) == Flip(FontOrder(lower, a, b))
    ensures !FontOrder(lower, a, b).Greater? && !FontOrder(lower, b, c).Greater? ==> !FontOrder(lower, a, c).Greater?
  {
    TextsCompare(lower(a.family), lower(b.family), lower(c.family));
    TextsCompare(NameOf(lower, a), NameOf(lower, b), NameOf(lower, c));
    hide TextOrder;
  }

  lemma TextsCompare(a: string, b: string, c: string)
    ensures TextOrder(b, a) == Flip(TextOrder(a, b))
    ensures TextOrder(a, b).Equal? <==> a == b
    ensures !TextOrder(a, b).Greater? && !TextOrder(b, c).Greater? ==> !TextOrder(a, c).Greater?
    ensures TextOrder(a, b).Less? && !TextOrder(b, c).Greater? ==> TextOrder(a, c).Less?
    ensures !TextOrder(a, b).Greater? && TextOrder(b, c).Less? ==> TextOrder(a, c).Less?
  {
  }

  lemma {:induction false} PutInSorts(lower: LowerCase, fonts: seq<Font>, font: Font)
    requires InOrder(lower, fonts)
    ensures InOrder(lower, PutIn(lower, fonts, font))
    ensures forall i :: 0 <= i <= |fonts| ==> PutIn(lower, fonts, font)[i] == font || PutIn(lower, fonts, font)[i] in fonts
    ensures multiset(PutIn(lower, fonts, font)) == multiset(fonts) + multiset{font}
    decreases |fonts|
  {
    hide FontOrder;
    if fonts != [] {
      var k := |fonts| - 1;
      assert fonts == fonts[..k] + [fonts[k]];
      if FontOrder(lower, fonts[k], font).Greater? {
        PutInSorts(lower, fonts[..k], font);
        FontsCompare(lower, font, fonts[k], fonts[k]);
      } else {
        forall i | 0 <= i < k ensures !FontOrder(lower, fonts[i], font).Greater? {
          FontsCompare(lower, fonts[i], fonts[k], font);
        }
      }
    }
  }

  lemma {:induction false} SortedSorts(lower: LowerCase, fonts: seq<Font>)
    ensures InOrder(lower, Sorted(lower, fonts)) && multiset(Sorted(lower, fonts)) == multiset(fonts)
    decreases |fonts|
  {
    if fonts != [] {
      SortedSorts(lower, fonts[..|fonts| - 1]);
      PutInSorts(lower, Sorted(lower, fonts[..|fonts| - 1]), fonts[|fonts| - 1]);
      assert fonts == fonts[..|fonts| - 1] + [fonts[|fonts| - 1]];
    }
  }

  // ----- the fonts of the two registries

  /** The user's own come first, each part in the order it is registered in. */
  function UserFirst(fonts: seq<Font>): seq<Font> { OnlyFrom(fonts, false) + OnlyFrom(fonts, true) }

  function OnlyFrom(fonts: seq<Font>, machine: bool): (r: seq<Font>)
    ensures |r| <= |fonts| && forall i :: 0 <= i < |r| ==> (r[i].from.Machine? <==> machine) && r[i] in fonts
  {
    if fonts == [] then []
    else
      var init := OnlyFrom(fonts[..|fonts| - 1], machine);
      if fonts[|fonts| - 1].from.Machine? == machine then init + [fonts[|fonts| - 1]] else init
  }

  function Truncated(fonts: seq<Font>): seq<Font>
  {
    if |fonts| <= MAX_FONTS then fonts else fonts[..MAX_FONTS]
  }

  /** The fonts the registrations stand for (`list`). */
  function Installed(lower: LowerCase, registered: seq<Font>): seq<Font>
  {
    Sorted(lower, Truncated(Retained(lower, UserFirst(registered))))
  }

  /** Imported and installed fonts as they are listed (`Fonts::list`). */
  function All(lower: LowerCase, imported: seq<Font>, installed: seq<Font>): seq<Font>
  {
    Sorted(lower, Truncated(Retained(lower, imported + installed)))
  }

  /** `fonts` has a font of a name. */
  lemma InSorted(lower: LowerCase, fonts: seq<Font>, font: Font)
    ensures font in Sorted(lower, fonts) <==> font in fonts
  {
    SortedSorts(lower, fonts);
    assert font in multiset(Sorted(lower, fonts)) <==> font in multiset(fonts);
  }

  /** A machine font is in the list only if the user has none of that name. */
  lemma UserWins(lower: LowerCase, registered: seq<Font>, mine: Font, theirs: Font)
    requires mine in registered && !mine.from.Machine? && theirs.from.Machine?
    requires NameOf(lower, mine) == NameOf(lower, theirs)
    ensures theirs !in Installed(lower, registered)
  {
    var first, own := UserFirst(registered), OnlyFrom(registered, false);
    InSorted(lower, Truncated(Retained(lower, first)), theirs);
    var k := FoundFrom(registered, mine, false);
    assert first[k] == own[k] == mine;
    assert forall i :: 0 <= i <= k ==> first[i] == own[i];
    LaterGoes(lower, first, k, theirs);
  }

  /** A font with an earlier one of its name does not stay. */
  lemma LaterGoes(lower: LowerCase, fonts: seq<Font>, k: nat, later: Font)
    requires k < |fonts| && NameOf(lower, fonts[k]) == NameOf(lower, later)
    requires forall i :: 0 <= i <= k ==> fonts[i] != later
    ensures later !in Retained(lower, fonts)
  {
    if later in Retained(lower, fonts) {
      var i := StaysIsFirst(lower, fonts, later);
    }
  }

  lemma {:induction false} FoundFrom(fonts: seq<Font>, font: Font, machine: bool) returns (k: nat)
    requires font in fonts && font.from.Machine? == machine
    ensures k < |OnlyFrom(fonts, machine)| && OnlyFrom(fonts, machine)[k] == font
    decreases |fonts|
  {
    if fonts[|fonts| - 1] == font {
      k := |OnlyFrom(fonts, machine)| - 1;
    } else {
      k := FoundFrom(fonts[..|fonts| - 1], font, machine);
    }
  }

  /** An installed font is in the list only if none of that name was imported. */
  lemma ImportedWins(lower: LowerCase, imported: seq<Font>, installed: seq<Font>, mine: Font, theirs: Font)
    requires mine in imported && NameOf(lower, mine) == NameOf(lower, theirs) && theirs !in imported
    ensures theirs !in All(lower, imported, installed)
  {
    var all := imported + installed;
    InSorted(lower, Truncated(Retained(lower, all)), theirs);
    var k :| 0 <= k < |imported| && imported[k] == mine;
    assert all[k] == mine && forall i :: 0 <= i <= k ==> all[i] == imported[i];
    LaterGoes(lower, all, k, theirs);
  }

  /** Every name there is has its first font in the list, while there are not too many. */
  lemma FirstIsListed(lower: LowerCase, imported: seq<Font>, installed: seq<Font>, i: nat)
    requires i < |imported + installed| && FirstOfName(lower, imported + installed, i)
    requires |Retained(lower, imported + installed)| <= MAX_FONTS
    ensures (imported + installed)[i] in All(lower, imported, installed)
  {
    FirstStays(lower, imported + installed, i);
    InSorted(lower, Retained(lower, imported + installed), (imported + installed)[i]);
  }

  /** What stays of some fonts stays, in front, whatever comes after them. */
  lemma {:induction false} EarlierStay(lower: LowerCase, fonts: seq<Font>, more: seq<Font>)
    ensures Retained(lower, fonts) <= Retained(lower, fonts + more)
    decreases |more|
  {
    if more == [] {
      assert fonts + more == fonts;
    } else {
      var init := more[..|more| - 1];
      EarlierStay(lower, fonts, init);
      assert (fonts + more)[..|fonts + more| - 1] == fonts + init;
    }
  }

  /** The first of its name among fonts that come first is kept, as long as those have names within the limit. */
  lemma EarlierIsKept(lower: LowerCase, fonts: seq<Font>, more: seq<Font>, i: nat)
    requires i < |fonts| && FirstOfName(lower, fonts, i) && |Retained(lower, fonts)| <= MAX_FONTS
    ensures fonts[i] in Sorted(lower, Truncated(Retained(lower, fonts + more)))
  {
    var kept, all := Retained(lower, fonts), Retained(lower, fonts + more);
    FirstStays(lower, fonts, i);
    EarlierStay(lower, fonts, more);
    var k :| 0 <= k < |kept| && kept[k] == fonts[i];
    assert Truncated(all)[k] == all[k] == kept[k];
    InSorted(lower, Truncated(all), fonts[i]);
  }

  /**
   * What the user registered is listed, the first of each name, however many fonts the machine has:
   * as long as the user's own have no more names than the list may hold.
   */
  lemma UserIsListed(lower: LowerCase, registered: seq<Font>, i: nat)
    requires var own := OnlyFrom(registered, false);
      i < |own| && FirstOfName(lower, own, i) && |Retained(lower, own)| <= MAX_FONTS
    ensures OnlyFrom(registered, false)[i] in Installed(lower, registered)
  {
    EarlierIsKept(lower, OnlyFrom(registered, false), OnlyFrom(registered, true), i);
  }

  /** The first of a name stays just behind what stays of the fonts before it. */
  lemma StaysBehind(lower: LowerCase, fonts: seq<Font>, i: nat)
    requires i < |fonts| && FirstOfName(lower, fonts, i)
    ensures var n := |Retained(lower, fonts[..i])|; n < |Retained(lower, fonts)| && Retained(lower, fonts)[n] == fonts[i]
  {
    var upTo := fonts[..i + 1];
    assert upTo[..i] == fonts[..i] && fonts == upTo + fonts[i + 1..];
    EarlierStay(lower, upTo, fonts[i + 1..]);
    assert forall k :: 0 <= k < i ==> upTo[..i][k] == fonts[k];
    assert !HasName(lower, upTo[..i], NameOf(lower, upTo[i]));
    assert Retained(lower, upTo) == Retained(lower, fonts[..i]) + [fonts[i]];
  }

  /** What stays of fonts in which it is the first of its name is kept exactly while fewer stay before it. */
  lemma KeptExactlyWhen(lower: LowerCase, fonts: seq<Font>, i: nat)
    requires i < |fonts| && FirstOfName(lower, fonts, i)
    ensures fonts[i] in Sorted(lower, Truncated(Retained(lower, fonts))) <==> |Retained(lower, fonts[..i])| < MAX_FONTS
  {
    var kept, n := Retained(lower, fonts), |Retained(lower, fonts[..i])|;
    StaysBehind(lower, fonts, i);
    RetainedDiffer(lower, fonts);
    InSorted(lower, Truncated(kept), fonts[i]);
    if n < MAX_FONTS {
      assert Truncated(kept)[n] == fonts[i];
    } else {
      forall k | 0 <= k < MAX_FONTS ensures Truncated(kept)[k] != fonts[i] {
        assert NameOf(lower, kept[k]) != NameOf(lower, kept[n]);
      }
    }
  }

  /**
   * An installed font, whether the user's own or the machine's, is in the list exactly when none of
   * its name was imported and fewer names than the list may hold come before it: those imported, and
   * those installed that sort before it.
   */
  lemma InstalledIsListed(lower: LowerCase, imported: seq<Font>, installed: seq<Font>, i: nat)
    requires i < |installed| && NamesDiffer(lower, installed) && installed[i] !in imported
    ensures installed[i] in All(lower, imported, installed)
      <==> && !HasName(lower, imported, NameOf(lower, installed[i]))
           && |Retained(lower, imported + installed[..i])| < MAX_FONTS
  {
    var all, at := imported + installed, |imported| + i;
    assert all[at] == installed[i] && all[..at] == imported + installed[..i];
    if HasName(lower, imported, NameOf(lower, installed[i])) {
      var k :| 0 <= k < |imported| && NameOf(lower, imported[k]) == NameOf(lower, installed[i]);
      ImportedWins(lower, imported, installed, imported[k], installed[i]);
    } else {
      forall k | 0 <= k < at ensures NameOf(lower, all[k]) != NameOf(lower, all[at]) {
        if k < |imported| { assert all[k] == imported[k]; } else { assert all[k] == installed[k - |imported|]; }
      }
      KeptExactlyWhen(lower, all, at);
    }
  }

  lemma {:induction false} AllStay(lower: LowerCase, fonts: seq<Font>)
    requires NamesDiffer(lower, fonts)
    ensures Retained(lower, fonts) == fonts
    decreases |fonts|
  {
    if fonts != [] {
      var k := |fonts| - 1;
      AllStay(lower, fonts[..k]);
      assert fonts == fonts[..k] + [fonts[k]];
    }
  }

  /**
   * With as many fonts installed as the list may hold, of other names than the one that was imported,
   * the installed one that sorts last is not listed, even if it is the user's own and the others are not.
   */
  lemma LastGoes(lower: LowerCase, mine: Font, installed: seq<Font>)
    requires |installed| == MAX_FONTS && NamesDiffer(lower, [mine] + installed)
    ensures forall i :: 0 <= i < MAX_FONTS ==> (installed[i] in All(lower, [mine], installed) <==> i < MAX_FONTS - 1)
  {
    hide *;
    forall i | 0 <= i < MAX_FONTS
      ensures installed[i] in All(lower, [mine], installed) <==> i < MAX_FONTS - 1
    {
      OthersDiffer(lower, mine, installed, i);
      InstalledIsListed(lower, [mine], installed, i);
    }
  }

  lemma OthersDiffer(lower: LowerCase, mine: Font, installed: seq<Font>, i: nat)
    requires NamesDiffer(lower, [mine] + installed) && i < |installed|
    ensures NamesDiffer(lower, installed) && installed[i] !in [mine]
    ensures !HasName(lower, [mine], NameOf(lower, installed[i])) && |Retained(lower, [mine] + installed[..i])| == i + 1
  {
    var all := [mine] + installed;
    assert all[0] == mine && forall k :: 0 <= k < |installed| ==> installed[k] == all[k + 1];
    assert all[..i + 1] == [mine] + installed[..i];
    AllStay(lower, all[..i + 1]);
    hide Retained;
  }

  /** So it is with what the user registered: the first of a name is installed, and listed exactly then. */
  lemma UserIsListedToo(lower: LowerCase, imported: seq<Font>, registered: seq<Font>, i: nat) returns (j: nat)
    requires var own := OnlyFrom(registered, false);
      i < |own| && FirstOfName(lower, own, i) && |Retained(lower, own)| <= MAX_FONTS && own[i] !in imported
    ensures var own, installed := OnlyFrom(registered, false), Installed(lower, registered);
      && j < |installed| && installed[j] == own[i]
      && (own[i] in All(lower, imported, installed)
          <==> && !HasName(lower, imported, NameOf(lower, own[i]))
               && |Retained(lower, imported + installed[..j])| < MAX_FONTS)
  {
    var installed := Installed(lower, registered);
    UserIsListed(lower, registered, i);
    j :| 0 <= j < |installed| && installed[j] == OnlyFrom(registered, false)[i];
    InstalledDiffer(lower, registered);
    hide *;
    InstalledIsListed(lower, imported, installed, j);
  }

  lemma InstalledDiffer(lower: LowerCase, registered: seq<Font>)
    ensures NamesDiffer(lower, Installed(lower, registered))
  {
    var kept := Retained(lower, UserFirst(registered));
    RetainedDiffer(lower, UserFirst(registered));
    SortedSorts(lower, Truncated(kept));
    SameFontsDiffer(lower, Truncated(kept), Sorted(lower, Truncated(kept)));
  }

  /** The list is in order, and no name is in it twice. */
  lemma ListIsInOrder(lower: LowerCase, imported: seq<Font>, installed: seq<Font>)
    ensures InOrder(lower, All(lower, imported, installed)) && NamesDiffer(lower, All(lower, imported, installed))
    ensures |All(lower, imported, installed)| <= MAX_FONTS
  {
    var kept := Retained(lower, imported + installed);
    RetainedDiffer(lower, imported + installed);
    SortedSorts(lower, Truncated(kept));
    SameFontsDiffer(lower, Truncated(kept), Sorted(lower, Truncated(kept)));
  }

  /** Names that differ do so in any order. */
  lemma SameFontsDiffer(lower: LowerCase, fonts: seq<Font>, other: seq<Font>)
    requires NamesDiffer(lower, fonts) && multiset(other) == multiset(fonts)
    ensures NamesDiffer(lower, other)
  {
    forall i, j | 0 <= i < j < |other| ensures NameOf(lower, other[i]) != NameOf(lower, other[j]) {
      if NameOf(lower, other[i]) == NameOf(lower, other[j]) {
        assert other[i] in multiset(other) && other[j] in multiset(other);
        var p :| 0 <= p < |fonts| && fonts[p] == other[i];
        var q :| 0 <= q < |fonts| && fonts[q] == other[j];
        assert p == q;
        Twice(other, i, j);
        Once(lower, fonts, p);
      }
    }
  }

  lemma {:induction false} Once(lower: LowerCase, fonts: seq<Font>, i: nat)
    requires NamesDiffer(lower, fonts) && i < |fonts|
    ensures multiset(fonts)[fonts[i]] == 1
    decreases |fonts|
  {
    var k := |fonts| - 1;
    assert fonts == fonts[..k] + [fonts[k]];
    if i < k {
      Once(lower, fonts[..k], i);
    } else {
      assert fonts[k] !in fonts[..k];
    }
  }

  // ----- numbers

  /** The number so many after `start`, around. */
  function Around(start: nat, steps: nat): nat { (start + steps) % IDS }

  /** The first number from `start` on, around, that is not taken: how far it is. */
  predicate FirstFree(start: nat, taken: set<nat>, steps: nat)
  {
    && Around(start, steps) !in taken
    && forall k :: 0 <= k < steps ==> Around(start, k) in taken
  }

  /** `start`, or the next number that is free. There is one while fewer than all are taken. */
  method IdOf(start: nat, taken: set<nat>) returns (id: nat, ghost steps: nat)
    requires start < IDS && |taken| < IDS
    ensures id < IDS && id == Around(start, steps) && FirstFree(start, taken, steps) && steps <= |taken|
  {
    id, steps := start, 0;
    ghost var visited: set<nat> := {};
    AroundNext(start, 0);
    hide Around;
    while id in taken
      invariant id < IDS && id == Around(start, steps)
      invariant forall k :: 0 <= k < steps ==> Around(start, k) in taken
      invariant visited <= taken && |visited| == steps && steps <= |taken|
      invariant forall v :: v in visited ==> exists k :: 0 <= k < steps && v == Around(start, k)
      decreases |taken| - steps
    {
      if id in visited {
        ghost var k :| 0 <= k < steps && id == Around(start, k);
        AroundDiffers(start, k, steps);
      }
      visited := visited + {id};
      SubsetCount(visited, taken);
      AroundNext(start, steps);
      steps := steps + 1;
      id := (id + 1) % IDS;
    }
  }

  lemma AroundNext(start: nat, steps: nat)
    requires start < IDS
    ensures Around(start, 0) == start && Around(start, steps) < IDS
    ensures Around(start, steps + 1) == (Around(start, steps) + 1) % IDS
  {
  }

  /** Fewer steps than there are numbers never come back to one. */
  lemma AroundDiffers(start: nat, j: nat, k: nat)
    requires j < k < IDS
    ensures Around(start, j) != Around(start, k)
  {
  }

  /** Each font of the list with a number of its own, its own hash if no other font has that. */
  ghost predicate Numbered(hash: Hash, fonts: seq<Font>, listed: seq<Listed>)
  {
    && |listed| == |fonts|
    && (forall i :: 0 <= i < |fonts| ==> listed[i].font == fonts[i])
    && (forall i, j :: 0 <= i < j < |listed| ==> listed[i].id != listed[j].id)
    && (forall i :: 0 <= i < |fonts| ==> listed[i].id == hash(fonts[i]) || IdBefore(listed, i, hash(fonts[i])))
  }

  ghost predicate IdBefore(listed: seq<Listed>, i: nat, id: nat)
    requires i <= |listed|
  {
    exists j :: 0 <= j < i && listed[j].id == id
  }

  /** The maps have the numbers of the list, with each font's place and name, and no others. */
  ghost predicate Indexed(listed: seq<Listed>, located: map<nat, nat>, names: map<nat, string>)
  {
    && (forall i :: 0 <= i < |listed| ==>
          && listed[i].id in located && located[listed[i].id] == listed[i].font.place
          && listed[i].id in names && names[listed[i].id] == listed[i].font.name)
    && (forall id :: id in located <==> IdBefore(listed, |listed|, id))
    && (forall id :: id in names <==> IdBefore(listed, |listed|, id))
  }

  lemma OneMoreIndexed(listed: seq<Listed>, located: map<nat, nat>, names: map<nat, string>, one: Listed)
    requires Indexed(listed, located, names) && !IdBefore(listed, |listed|, one.id)
    ensures Indexed(listed + [one], located[one.id := one.font.place], names[one.id := one.font.name])
    ensures forall id :: IdBefore(listed + [one], |listed + [one]|, id) <==> IdBefore(listed, |listed|, id) || id == one.id
  {
    var more := listed + [one];
    forall id ensures IdBefore(more, |more|, id) <==> IdBefore(listed, |listed|, id) || id == one.id {
      if IdBefore(listed, |listed|, id) {
        var j :| 0 <= j < |listed| && listed[j].id == id;
        assert more[j].id == id;
      }
      if id == one.id { assert more[|listed|].id == id; }
    }
  }

  /** What the list keeps to find a font again by its number. */
  class FontIndex {
    var located: map<nat, nat>
    var names: map<nat, string>

    constructor ()
      ensures located == map[] && names == map[]
    {
      located, names := map[], map[];
    }

    /** Each font of the list with a number of its own; the maps hold those and no others. */
    method List(hash: Hash, fonts: seq<Font>) returns (listed: seq<Listed>)
      requires HashOk(hash, fonts) && |fonts| < IDS
      modifies this
      ensures Numbered(hash, fonts, listed) && Indexed(listed, located, names)
    {
      listed := [];
      var taken: set<nat> := {};
      located, names := map[], map[];
      var k := 0;
      Empty(hash, fonts);
      hide *;
      while k < |fonts|
        invariant 0 <= k <= |fonts|
        invariant Going(hash, fonts, k, listed, located, names, taken)
      {
        var id;
        ghost var steps;
        HashBelow(hash, fonts, k);
        GoingSize(hash, fonts, k, listed, located, names, taken);
        id, steps := IdOf(hash(fonts[k]), taken);
        GoesOn(hash, fonts, k, listed, located, names, taken, id, steps);
        taken := taken + {id};
        located := located[id := fonts[k].place];
        names := names[id := fonts[k].name];
        listed := listed + [Listed(id, fonts[k])];
        k := k + 1;
      }
      GoneThrough(hash, fonts, listed, located, names, taken);
    }
  }

  /** The list so far, of the first `k` fonts, and what is kept of it. */
  ghost predicate Going(hash: Hash, fonts: seq<Font>, k: nat, listed: seq<Listed>, located: map<nat, nat>,
    names: map<nat, string>, taken: set<nat>)
    requires k <= |fonts|
  {
    && |taken| == k && Numbered(hash, fonts[..k], listed) && Indexed(listed, located, names)
    && (forall id :: id in taken <==> IdBefore(listed, |listed|, id))
  }

  lemma Empty(hash: Hash, fonts: seq<Font>)
    ensures Going(hash, fonts, 0, [], map[], map[], {})
  {
  }

  lemma HashBelow(hash: Hash, fonts: seq<Font>, k: nat)
    requires HashOk(hash, fonts) && k < |fonts|
    ensures hash(fonts[k]) < IDS
  {
  }

  lemma GoingSize(hash: Hash, fonts: seq<Font>, k: nat, listed: seq<Listed>, located: map<nat, nat>,
    names: map<nat, string>, taken: set<nat>)
    requires k <= |fonts| && Going(hash, fonts, k, listed, located, names, taken)
    ensures |taken| == k && |listed| == k
  {
  }

  lemma GoesOn(hash: Hash, fonts: seq<Font>, k: nat, listed: seq<Listed>, located: map<nat, nat>,
    names: map<nat, string>, taken: set<nat>, id: nat, steps: nat)
    requires k < |fonts| && Going(hash, fonts, k, listed, located, names, taken) && hash(fonts[k]) < IDS
    requires id == Around(hash(fonts[k]), steps) && FirstFree(hash(fonts[k]), taken, steps)
    ensures Going(hash, fonts, k + 1, listed + [Listed(id, fonts[k])], located[id := fonts[k].place],
                  names[id := fonts[k].name], taken + {id})
  {
    hide Around, FirstFree, Numbered, Indexed, IdBefore;
    HashIfFree(hash(fonts[k]), taken, steps);
    NumberedMore(hash, fonts, k, listed, id);
    OneMoreIndexed(listed, located, names, Listed(id, fonts[k]));
  }

  lemma NumberedMore(hash: Hash, fonts: seq<Font>, k: nat, listed: seq<Listed>, id: nat)
    requires k < |fonts| && Numbered(hash, fonts[..k], listed) && !IdBefore(listed, |listed|, id)
    requires id == hash(fonts[k]) || IdBefore(listed, |listed|, hash(fonts[k]))
    ensures Numbered(hash, fonts[..k + 1], listed + [Listed(id, fonts[k])])
  {
  }

  lemma GoneThrough(hash: Hash, fonts: seq<Font>, listed: seq<Listed>, located: map<nat, nat>, names: map<nat, string>,
    taken: set<nat>)
    requires Going(hash, fonts, |fonts|, listed, located, names, taken)
    ensures Numbered(hash, fonts, listed) && Indexed(listed, located, names)
  {
  }

  lemma HashIfFree(start: nat, taken: set<nat>, steps: nat)
    requires FirstFree(start, taken, steps) && start < IDS
    ensures Around(start, steps) !in taken
    ensures Around(start, steps) == start || start in taken
  {
    if steps > 0 { assert Around(start, 0) == start; }
  }

  // ----- the style in a name

  predicate StyleWord(word: string) { word in {"bold", "italic", "oblique", "regular"} }

  /**
   * What the words of a name, in lower case, say of its style: the words at the end that do are not
   * of the family, which keeps one word at least.
   */
  method Style(words: seq<string>) returns (end: nat, bold: bool, italic: bool)
    ensures end <= |words| && (words != [] ==> end >= 1)
    ensures forall i :: end <= i < |words| ==> StyleWord(words[i])
    ensures end > 1 ==> !StyleWord(words[end - 1])
    ensures bold <==> exists i :: end <= i < |words| && words[i] == "bold"
    ensures italic <==> exists i :: end <= i < |words| && words[i] in {"italic", "oblique"}
  {
    end, bold, italic := |words|, false, false;
    while end > 1
      invariant end <= |words| && (words != [] ==> end >= 1)
      invariant forall i :: end <= i < |words| ==> StyleWord(words[i])
      invariant bold <==> exists i :: end <= i < |words| && words[i] == "bold"
      invariant italic <==> exists i :: end <= i < |words| && words[i] in {"italic", "oblique"}
    {
      var word := words[end - 1];
      if word == "bold" {
        bold := true;
      } else if word == "italic" || word == "oblique" {
        italic := true;
      } else if word != "regular" {
        return;
      }
      end := end - 1;
    }
  }
}
