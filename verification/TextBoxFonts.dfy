/**
 * Which font a text box that comes along is set in (src-tauri/src/documents.rs:1950-2040), family by
 * family: its own, then those fallbacks that are others, and of each the lightest and most upright font.
 */
module TextBoxFonts {
  import opened Basics
  import opened TextBoxes

  // ----- names

  /** One of the two is a capital ASCII letter, the other the same letter small. */
  predicate SameLetter(a: char, b: char)
  {
    ('A' <= a <= 'Z' && b as int == a as int + 32) || ('A' <= b <= 'Z' && a as int == b as int + 32)
  }

  predicate SameName(a: string, b: string)
  {
    |a| == |b| && forall i :: 0 <= i < |a| ==> a[i] == b[i] || SameLetter(a[i], b[i])
  }

  lemma SameNameIs(a: string, b: string)
    ensures AsciiLower(a) == AsciiLower(b) <==> SameName(a, b)
  {
    if AsciiLower(a) == AsciiLower(b) {
      forall i | 0 <= i < |a| ensures a[i] == b[i] || SameLetter(a[i], b[i]) {
        assert AsciiLower(a)[i] == AsciiLower(b)[i];
      }
    }
  }

  // ----- the families of a box

  predicate Unlike(families: seq<string>)
  {
    forall i, j :: 0 <= i < j < |families| ==> AsciiLower(families[i]) != AsciiLower(families[j])
  }

  /** The fallbacks of other names than `families`, in their order. */
  function Others(fallbacks: seq<string>, families: seq<string>): seq<string>
  {
    if fallbacks == [] then []
    else (if Among(families, fallbacks[0]) then [] else [fallbacks[0]]) + Others(fallbacks[1..], families)
  }

  lemma AmongMore(families: seq<string>, one: string, family: string)
    ensures Among(families + [one], family) <==> Among(families, family) || AsciiLower(one) == AsciiLower(family)
  {
    var more := families + [one];
    assert more[|families|] == one && forall i :: 0 <= i < |families| ==> more[i] == families[i];
  }

  lemma {:induction false} OthersAlike(fallbacks: seq<string>, families: seq<string>, one: string)
    requires forall i :: 0 <= i < |fallbacks| ==> AsciiLower(fallbacks[i]) != AsciiLower(one)
    ensures Others(fallbacks, families + [one]) == Others(fallbacks, families)
    decreases |fallbacks|
  {
    hide Among, AsciiLower;
    if fallbacks != [] {
      AmongMore(families, one, fallbacks[0]);
      OthersAlike(fallbacks[1..], families, one);
    }
  }

  lemma {:induction false} WithFallbacksIs(families: seq<string>, fallbacks: seq<string>)
    requires Unlike(fallbacks)
    ensures WithFallbacks(families, fallbacks) == families + Others(fallbacks, families)
    decreases |fallbacks|
  {
    hide *;
    OneFallback(families, fallbacks);
    if fallbacks == [] {
      assert families + [] == families;
    } else {
      var f, rest := fallbacks[0], fallbacks[1..];
      RestUnlike(fallbacks);
      if Among(families, f) {
        WithFallbacksIs(families, rest);
      } else {
        WithFallbacksIs(families + [f], rest);
        OthersAlike(rest, families, f);
        assert families + [f] + Others(rest, families) == families + ([f] + Others(rest, families));
      }
    }
  }

  lemma OneFallback(families: seq<string>, fallbacks: seq<string>)
    ensures fallbacks == [] ==> WithFallbacks(families, fallbacks) == families && Others(fallbacks, families) == []
    ensures fallbacks != [] && Among(families, fallbacks[0]) ==>
      && WithFallbacks(families, fallbacks) == WithFallbacks(families, fallbacks[1..])
      && Others(fallbacks, families) == Others(fallbacks[1..], families)
    ensures fallbacks != [] && !Among(families, fallbacks[0]) ==>
      && WithFallbacks(families, fallbacks) == WithFallbacks(families + [fallbacks[0]], fallbacks[1..])
      && Others(fallbacks, families) == [fallbacks[0]] + Others(fallbacks[1..], families)
  {
    hide Among;
    if fallbacks != [] { assert [] + Others(fallbacks[1..], families) == Others(fallbacks[1..], families); }
  }

  lemma RestUnlike(families: seq<string>)
    requires families != [] && Unlike(families)
    ensures Unlike(families[1..])
    ensures forall i :: 0 <= i < |families[1..]| ==> AsciiLower(families[1..][i]) != AsciiLower(families[0])
  {
    hide AsciiLower;
    assert forall i :: 0 <= i < |families[1..]| ==> families[1..][i] == families[i + 1];
  }

  lemma FallbacksUnlike()
    ensures Unlike(FALLBACK_FAMILIES)
  {
    var f := FALLBACK_FAMILIES;
    forall i, j | 0 <= i < j < |f| ensures AsciiLower(f[i]) != AsciiLower(f[j]) {
      assert |AsciiLower(f[i])| == |f[i]| && |AsciiLower(f[j])| == |f[j]|;
    }
  }

  /** Those of `fallbacks` that have another name than `family`, each once and in their order. */
  ghost predicate AreOthers(fallbacks: seq<string>, family: string, others: seq<string>)
  {
    && (forall f :: f in others <==> f in fallbacks && !SameName(f, family))
    && (forall i, j :: 0 <= i < j < |others| ==> ComeInTurn(fallbacks, others[i], others[j]))
  }

  /** One is somewhere before the other. */
  predicate ComeInTurn(families: seq<string>, one: string, other: string)
  {
    exists p, q :: 0 <= p < q < |families| && families[p] == one && families[q] == other
  }

  /** A box tries its own family, and then exactly those fallbacks that are not that one, in their order. */
  lemma CandidatesAre(box: Box)
    ensures var c := Candidates(box); |c| >= 1 && c[0] == box.family && AreOthers(FALLBACK_FAMILIES, box.family, c[1..])
  {
    FallbacksUnlike();
    WithFallbacksIs([box.family], FALLBACK_FAMILIES);
    OthersAre(FALLBACK_FAMILIES, box.family);
    CandidatesUnfold(box);
    hide *;
    assert ([box.family] + Others(FALLBACK_FAMILIES, [box.family]))[1..] == Others(FALLBACK_FAMILIES, [box.family]);
  }

  lemma CandidatesUnfold(box: Box)
    ensures Candidates(box) == WithFallbacks([box.family], FALLBACK_FAMILIES)
  {
    hide WithFallbacks;
  }

  lemma OthersAre(fallbacks: seq<string>, family: string)
    ensures AreOthers(fallbacks, family, Others(fallbacks, [family]))
  {
    var others := Others(fallbacks, [family]);
    forall f ensures f in others <==> f in fallbacks && !SameName(f, family) {
      OthersHave(fallbacks, [family], f);
      SameNameIs(f, family);
      AmongOne(family, f);
    }
    forall i, j | 0 <= i < j < |others| ensures ComeInTurn(fallbacks, others[i], others[j]) {
      var p, q := OthersInOrder(fallbacks, [family], i, j);
    }
    hide Others, SameName;
  }

  lemma AmongOne(one: string, family: string)
    ensures Among([one], family) <==> AsciiLower(one) == AsciiLower(family)
  {
    assert [one][0] == one;
    hide AsciiLower;
  }

  lemma {:induction false} OthersHave(fallbacks: seq<string>, families: seq<string>, family: string)
    ensures family in Others(fallbacks, families) <==> family in fallbacks && !Among(families, family)
    decreases |fallbacks|
  {
    hide Among;
    if fallbacks != [] {
      OthersHave(fallbacks[1..], families, family);
      assert fallbacks == [fallbacks[0]] + fallbacks[1..];
    }
  }

  lemma {:induction false} OthersInOrder(fallbacks: seq<string>, families: seq<string>, i: nat, j: nat) returns (p: nat, q: nat)
    requires i < j < |Others(fallbacks, families)|
    ensures p < q < |fallbacks|
    ensures fallbacks[p] == Others(fallbacks, families)[i] && fallbacks[q] == Others(fallbacks, families)[j]
    decreases |fallbacks|
  {
    hide Among;
    var rest := Others(fallbacks[1..], families);
    if Among(families, fallbacks[0]) {
      p, q := OthersInOrder(fallbacks[1..], families, i, j);
      p, q := p + 1, q + 1;
    } else if i > 0 {
      p, q := OthersInOrder(fallbacks[1..], families, i - 1, j - 1);
      p, q := p + 1, q + 1;
    } else {
      OthersHave(fallbacks[1..], families, rest[j - 1]);
      var k :| 0 <= k < |fallbacks[1..]| && fallbacks[1..][k] == rest[j - 1];
      p, q := 0, k + 1;
    }
  }

  /** By name: a family that no fallback is, and one that a fallback is whatever its case. */
  lemma TriedByName()
    ensures Candidates(Box(0, "a", "Foo")) == ["Foo", "Microsoft JhengHei", "Microsoft YaHei", "Yu Gothic", "Segoe UI", "Arial"]
    ensures Candidates(Box(0, "a", "ARIAL")) == ["ARIAL", "Microsoft JhengHei", "Microsoft YaHei", "Yu Gothic", "Segoe UI"]
  {
    ArialIsThere();
    TriedLike("Foo");
    TriedLike("ARIAL");
    hide *;
  }

  lemma ArialIsThere()
    ensures AsciiLower("ARIAL") == AsciiLower("Arial")
  {
    assert SameName("ARIAL", "Arial");
    SameNameIs("ARIAL", "Arial");
  }

  lemma TriedLike(family: string)
    requires |family| == 3 || (|family| == 5 && AsciiLower(family) == AsciiLower("Arial"))
    ensures Candidates(Box(0, "a", family))
         == [family, "Microsoft JhengHei", "Microsoft YaHei", "Yu Gothic", "Segoe UI"] + if |family| == 3 then ["Arial"] else []
  {
    FallbacksUnlike();
    CandidatesUnfold(Box(0, "a", family));
    forall i | 0 <= i < 5 ensures Among([family], FALLBACK_FAMILIES[i]) <==> i == 4 && |family| == 5 {
      AmongFallbacks(family, i);
    }
    hide *;
    TriedOf(family, FALLBACK_FAMILIES);
  }

  lemma TriedOf(family: string, f: seq<string>)
    requires |f| == 5 && Unlike(f) && forall i :: 0 <= i < 4 ==> !Among([family], f[i])
    ensures WithFallbacks([family], f) == [family, f[0], f[1], f[2], f[3]] + if Among([family], f[4]) then [] else [f[4]]
  {
    hide *;
    WithFallbacksIs([family], f);
    OthersOf([family], f);
  }

  lemma AmongFallbacks(family: string, i: nat)
    requires i < 5 && (|family| == 3 || (|family| == 5 && AsciiLower(family) == AsciiLower("Arial")))
    ensures Among([family], FALLBACK_FAMILIES[i]) <==> i == 4 && |family| == 5
  {
    AmongOne(family, FALLBACK_FAMILIES[i]);
    SameLength(family, FALLBACK_FAMILIES[i]);
    hide Among, AsciiLower;
  }

  lemma SameLength(a: string, b: string)
    ensures AsciiLower(a) == AsciiLower(b) ==> |a| == |b|
  {
    assert |AsciiLower(a)| == |a| && |AsciiLower(b)| == |b|;
  }

  lemma OthersOf(families: seq<string>, f: seq<string>)
    requires |f| == 5 && forall i :: 0 <= i < 4 ==> !Among(families, f[i])
    ensures Others(f, families) == [f[0], f[1], f[2], f[3]] + if Among(families, f[4]) then [] else [f[4]]
  {
    hide Among;
    assert f[4..] == [f[4]] && f[4..][1..] == [];
    assert f[3..][1..] == f[4..] && f[2..][1..] == f[3..] && f[1..][1..] == f[2..];
    assert Others(f[4..], families) == if Among(families, f[4]) then [] else [f[4]];
    assert Others(f[3..], families) == [f[3]] + Others(f[4..], families);
    assert Others(f[2..], families) == [f[2]] + Others(f[3..], families);
    assert Others(f[1..], families) == [f[1]] + Others(f[2..], families);
  }

  // ----- the font of a family

  function Heaviness(font: FontInfo): nat { (if font.bold then 2 else 0) + if font.italic then 1 else 0 }

  /** Of the fonts of the family, the lightest and most upright, and the first of those. */
  predicate IsFontOf(list: seq<FontInfo>, k: nat, family: string)
  {
    && k < |list| && SameName(list[k].family, family)
    && (forall j :: 0 <= j < |list| && SameName(list[j].family, family) ==>
          Heaviness(list[k]) <= Heaviness(list[j]) && (j < k ==> Heaviness(list[k]) < Heaviness(list[j])))
  }

  /** That font can be read and sets the text as `model`. */
  predicate Sets(fonts: Fonts, setting: Setting, family: string, text: string, model: Model)
  {
    exists k :: 0 <= k < |fonts.list| && IsFontOf(fonts.list, k, family) && fonts.readable(fonts.list[k].id)
      && setting(fonts.list[k].id, text) == Some(model)
  }

  lemma {:induction false} ChosenIs(list: seq<FontInfo>, family: string, k: nat)
    requires IsFontOf(list, k, family)
    ensures Chosen(list, AsciiLower(family)) == Some(list[k])
    decreases |list|
  {
    var n := |list| - 1;
    forall j | 0 <= j < |list| ensures Matches(list[j], AsciiLower(family)) <==> SameName(list[j].family, family) {
      SameNameIs(list[j].family, family);
    }
    if k < n {
      assert IsFontOf(list[..n], k, family) by {
        assert forall j :: 0 <= j < n ==> list[..n][j] == list[j];
      }
      ChosenIs(list[..n], family, k);
      hide SameName, AsciiLower, Matches;
    } else {
      var init := Chosen(list[..n], AsciiLower(family));
      if init.Some? {
        var j :| 0 <= j < n && list[..n][j] == init.value;
        assert list[j] == init.value;
      }
      hide SameName, AsciiLower, Matches;
    }
  }

  /** There is such a font when there is one of the family at all. */
  lemma {:induction false} FontExists(list: seq<FontInfo>, family: string, some: nat) returns (k: nat)
    requires some < |list| && SameName(list[some].family, family)
    ensures IsFontOf(list, k, family)
    decreases |list|
  {
    hide SameName;
    var n := |list| - 1;
    if j :| 0 <= j < n && SameName(list[j].family, family) {
      k := FontExists(list[..n], family, j);
      assert forall j :: 0 <= j < n ==> list[..n][j] == list[j];
      if SameName(list[n].family, family) && Heaviness(list[n]) < Heaviness(list[k]) { k := n; }
    } else {
      k := n;
    }
  }

  /** Trying a family is that font's setting of the text, if there is one and it can be read. */
  lemma TryIs(fonts: Fonts, setting: Setting, family: string, text: string)
    ensures forall model :: Try(fonts, setting, family, text) == Some(model) <==> Sets(fonts, setting, family, text, model)
  {
    var list, key := fonts.list, AsciiLower(family);
    forall j | 0 <= j < |list| ensures Matches(list[j], key) <==> SameName(list[j].family, family) {
      SameNameIs(list[j].family, family);
    }
    forall k | 0 <= k < |list| && IsFontOf(list, k, family) ensures Chosen(list, key) == Some(list[k]) {
      ChosenIs(list, family, k);
    }
    if Chosen(list, key).Some? {
      var some :| 0 <= some < |list| && list[some] == Chosen(list, key).value;
      var k := FontExists(list, family, some);
      assert Chosen(list, key) == Some(list[k]);
    }
    hide SameName, AsciiLower, Heaviness, Chosen, Matches;
  }

  lemma TryNone(fonts: Fonts, setting: Setting, family: string, text: string)
    requires forall model :: !Sets(fonts, setting, family, text, model)
    ensures Try(fonts, setting, family, text) == None
  {
    TryIs(fonts, setting, family, text);
    hide Try, Sets;
  }

  // ----- the boxes that are set

  lemma {:induction false} OneByOneJoins(fonts: Fonts, setting: Setting, a: seq<Box>, b: seq<Box>)
    ensures OneByOne(fonts, setting, a + b) == OneByOne(fonts, setting, a) + OneByOne(fonts, setting, b)
    decreases |b|
  {
    hide Candidates, FirstThatSets;
    if b == [] {
      assert a + b == a;
    } else {
      var k := |b| - 1;
      assert (a + b)[..|a + b| - 1] == a + b[..k];
      OneByOneJoins(fonts, setting, a, b[..k]);
    }
  }

  lemma {:induction false} UsableJoins(valid: string -> bool, a: seq<Box>, b: seq<Box>)
    ensures Usable(a + b, valid) == Usable(a, valid) + Usable(b, valid)
    decreases |b|
  {
    if b == [] {
      assert a + b == a;
    } else {
      var k := |b| - 1;
      assert (a + b)[..|a + b| - 1] == a + b[..k];
      UsableJoins(valid, a, b[..k]);
    }
  }

  /** Family `c` of the box sets its text, and none before it does. */
  ghost predicate FirstSets(fonts: Fonts, setting: Setting, box: Box, c: nat, model: Model)
  {
    && c < |Candidates(box)| && Sets(fonts, setting, Candidates(box)[c], box.text, model)
    && (forall d, other :: 0 <= d < c ==> !Sets(fonts, setting, Candidates(box)[d], box.text, other))
  }

  lemma FirstSetsIs(fonts: Fonts, setting: Setting, box: Box, c: nat, model: Model)
    requires FirstSets(fonts, setting, box, c, model)
    ensures OneByOne(fonts, setting, [box]) == [Inserted(box.place, model)]
  {
    var families := Candidates(box);
    hide Try, Sets, Candidates;
    TryIs(fonts, setting, families[c], box.text);
    forall d | 0 <= d < c ensures Try(fonts, setting, families[d], box.text) == None {
      TryNone(fonts, setting, families[d], box.text);
    }
    FirstIs(fonts, setting, families, box.text, c);
    assert [box][..0] == [];
  }

  /** A box none of whose families sets its text is left out. */
  lemma NoneSets(fonts: Fonts, setting: Setting, box: Box)
    requires forall c, model :: 0 <= c < |Candidates(box)| ==> !Sets(fonts, setting, Candidates(box)[c], box.text, model)
    ensures OneByOne(fonts, setting, [box]) == []
  {
    var families := Candidates(box);
    hide Try, Sets, Candidates;
    forall d | 0 <= d < |families| ensures Try(fonts, setting, families[d], box.text) == None {
      TryNone(fonts, setting, families[d], box.text);
    }
    FirstIs(fonts, setting, families, box.text, |families|);
    assert [box][..0] == [];
  }

  /**
   * Of the first thousand boxes each that has a text to set, and a family whose font can set it, is among
   * what is prepared when nothing fails, with the model of the first such family: behind what the boxes
   * before it came to.
   */
  lemma FirstFamilySets(fonts: Fonts, setting: Setting, valid: string -> bool, boxes: seq<Box>, i: nat, c: nat, model: Model)
    requires i < |boxes| && i < 1_000 && valid(boxes[i].text) && FirstSets(fonts, setting, boxes[i], c, model)
    ensures var before := OneByOne(fonts, setting, Usable(boxes[..i], valid));
      var all := OneByOne(fonts, setting, Usable(Taken(boxes), valid));
      |before| < |all| && all[|before|] == Inserted(boxes[i].place, model)
  {
    hide *;
    var b := TakenParts(boxes, i);
    UsableParts(valid, boxes[..i], boxes[i], b);
    SetInTurn(fonts, setting, Usable(boxes[..i], valid), boxes[i], Usable(b, valid), c, model);
  }

  lemma TakenParts(boxes: seq<Box>, i: nat) returns (b: seq<Box>)
    requires i < |boxes| && i < 1_000
    ensures Taken(boxes) == boxes[..i] + ([boxes[i]] + b)
  {
    b := Taken(boxes)[i + 1..];
  }

  lemma UsableParts(valid: string -> bool, a: seq<Box>, box: Box, b: seq<Box>)
    requires valid(box.text)
    ensures Usable(a + ([box] + b), valid) == Usable(a, valid) + ([box] + Usable(b, valid))
  {
    UsableJoins(valid, a, [box] + b);
    UsableJoins(valid, [box], b);
    UsableOne(valid, box);
    hide Usable;
  }

  lemma SetInTurn(fonts: Fonts, setting: Setting, a: seq<Box>, box: Box, b: seq<Box>, c: nat, model: Model)
    requires FirstSets(fonts, setting, box, c, model)
    ensures var before, all := OneByOne(fonts, setting, a), OneByOne(fonts, setting, a + ([box] + b));
      |before| < |all| && all[|before|] == Inserted(box.place, model)
  {
    hide *;
    OneByOneJoins(fonts, setting, a, [box] + b);
    OneByOneJoins(fonts, setting, [box], b);
    FirstSetsIs(fonts, setting, box, c, model);
  }

  lemma UsableOne(valid: string -> bool, box: Box)
    ensures Usable([box], valid) == if valid(box.text) then [box] else []
  {
    assert [box][..0] == [];
  }
}
