/**
 * Escaping a line so that a Markdown reader shows it unchanged (src-tauri/src/export.rs:450-471), against
 * how backslash escapes are read (section 2.4 of the CommonMark specification).
 */
module Markdown {

  // ----- reading backslash escapes

  /** What may be escaped: an ASCII punctuation character. */
  predicate Punctuation(c: char)
  {
    '!' <= c <= '/' || ':' <= c <= '@' || '[' <= c <= '`' || '{' <= c <= '~'
  }

  /** A character as it is read: with a backslash before it, or without. */
  datatype Unit = Plain(c: char) | Escaped(c: char)

  /** A backslash before punctuation escapes it; any other backslash is itself. */
  function Units(t: string): seq<Unit>
    decreases |t|
  {
    if t == [] then []
    else if t[0] == '\\' && |t| > 1 && Punctuation(t[1]) then [Unit.Escaped(t[1])] + Units(t[2..])
    else [Plain(t[0])] + Units(t[1..])
  }

  function CharsOf(units: seq<Unit>): (s: string)
    ensures |s| == |units|
  {
    seq(|units|, i requires 0 <= i < |units| => units[i].c)
  }

  /** The text a line of Markdown reads as, as far as backslashes go. */
  function Unescape(t: string): string { CharsOf(Units(t)) }

  // ----- escaping

  /** What Markdown gives a meaning to wherever it is. */
  predicate Special(c: char)
  {
    c in {'\\', '`', '*', '_', '[', ']', '<', '>', '|', '~', '#', '&'}
  }

  predicate IsDigit(c: char) { '0' <= c <= '9' }

  function EscapeAll(s: string): string
    decreases |s|
  {
    if s == [] then []
    else EscapeAll(s[..|s| - 1]) + (if Special(s[|s| - 1]) then ['\\', s[|s| - 1]] else [s[|s| - 1]])
  }

  /** How many digits a line begins with. */
  function DigitsAhead(s: string): (n: nat)
    ensures n <= |s| && (forall i :: 0 <= i < n ==> IsDigit(s[i])) && (n < |s| ==> !IsDigit(s[n]))
    decreases |s|
  {
    if s == [] || !IsDigit(s[0]) then 0 else 1 + DigitsAhead(s[1..])
  }

  /** Where the mark is that would start a list, or underline a heading; `|s|` when there is none. */
  function MarkAt(s: string): (n: nat)
    ensures n <= |s|
  {
    var digits := DigitsAhead(s);
    if s != [] && s[0] in {'-', '+', '='} then 0
    else if digits > 0 && digits < |s| && s[digits] in {'.', ')'} then digits
    else |s|
  }

  /** What is escaped of the line as it goes: the specials, and the mark at its start. */
  function Escape(s: string): string
  {
    var out := EscapeAll(s);
    var at := MarkAt(out);
    if at < |out| then out[..at] + ['\\'] + out[at..] else out
  }

  method EscapeMarkdown(text: string) returns (out: string)
    ensures out == Escape(text)
  {
    out := [];
    var i := 0;
    while i < |text|
      invariant 0 <= i <= |text| && out == EscapeAll(text[..i])
    {
      assert text[..i + 1][..i] == text[..i];
      if Special(text[i]) {
        out := out + ['\\'];
      }
      out := out + [text[i]];
      i := i + 1;
    }
    assert text[..i] == text;
    hide EscapeAll, Special;
    var digits := 0;
    while digits < |out| && IsDigit(out[digits])
      invariant 0 <= digits <= |out| && forall k :: 0 <= k < digits ==> IsDigit(out[k])
    {
      digits := digits + 1;
    }
    DigitsAre(out, digits);
    if out != [] && out[0] in {'-', '+', '='} {
      out := ['\\'] + out;
    } else if digits > 0 && digits < |out| && out[digits] in {'.', ')'} {
      out := out[..digits] + ['\\'] + out[digits..];
    }
  }

  lemma {:induction false} DigitsAre(s: string, n: nat)
    requires n <= |s| && (forall k :: 0 <= k < n ==> IsDigit(s[k])) && (n < |s| ==> !IsDigit(s[n]))
    ensures DigitsAhead(s) == n
    decreases n
  {
  }

  // ----- what escaping does to how a line is read

  lemma {:induction false} UnitsJoin(a: string, b: string)
    requires a != [] ==> a[|a| - 1] != '\\'
    ensures Units(a + b) == Units(a) + Units(b)
    decreases |a|
  {
    hide Punctuation;
    if a == [] {
      assert a + b == b;
    } else {
      assert (a + b)[0] == a[0] && (|a| > 1 ==> (a + b)[1] == a[1]);
      var n := if a[0] == '\\' && |a| > 1 && Punctuation(a[1]) then 2 else 1;
      UnitsJoin(a[n..], b);
      assert (a + b)[n..] == a[n..] + b;
    }
  }

  /** The units a text is to be read as: its specials escaped, the rest plain. */
  function UnitOf(c: char): Unit { if Special(c) then Unit.Escaped(c) else Plain(c) }

  function UnitsOf(s: string): (u: seq<Unit>)
    ensures |u| == |s| && forall i :: 0 <= i < |s| ==> u[i] == UnitOf(s[i])
  {
    seq(|s|, i requires 0 <= i < |s| => UnitOf(s[i]))
  }

  lemma OneReads(c: char, t: string)
    ensures Units((if Special(c) then ['\\', c] else [c]) + t) == [UnitOf(c)] + Units(t)
  {
  }

  lemma {:induction false} EscapeAllReadsThen(s: string, t: string)
    ensures Units(EscapeAll(s) + t) == UnitsOf(s) + Units(t)
    decreases |s|
  {
    if s == [] {
      assert EscapeAll(s) + t == t;
    } else {
      var init, c := s[..|s| - 1], s[|s| - 1];
      var one := if Special(c) then ['\\', c] else [c];
      assert EscapeAll(s) == EscapeAll(init) + one;
      UnitsOfLast(s);
      hide *;
      EscapeAllReadsThen(init, one + t);
      OneReads(c, t);
      Regroup(EscapeAll(init), one, t);
      Regroup(UnitsOf(init), [UnitOf(c)], Units(t));
    }
  }

  lemma Regroup<T>(a: seq<T>, b: seq<T>, c: seq<T>)
    ensures (a + b) + c == a + (b + c)
  {
  }

  lemma UnitsOfLast(s: string)
    requires s != []
    ensures UnitsOf(s) == UnitsOf(s[..|s| - 1]) + [UnitOf(s[|s| - 1])]
  {
  }

  lemma EscapeAllReads(s: string)
    ensures Units(EscapeAll(s)) == UnitsOf(s)
  {
    EscapeAllReadsThen(s, []);
    assert EscapeAll(s) + [] == EscapeAll(s) && UnitsOf(s) + Units([]) == UnitsOf(s);
  }

  /** What a character becomes. */
  function One(c: char): string { if Special(c) then ['\\', c] else [c] }

  lemma EscapeAllMore(s: string)
    requires s != []
    ensures EscapeAll(s) == EscapeAll(s[..|s| - 1]) + One(s[|s| - 1])
  {
    hide Special;
  }

  lemma OneStarts(c: char)
    ensures |One(c)| > 0 && One(c)[0] == if Special(c) then '\\' else c
  {
    hide Special;
  }

  /** What comes behind does not change how it starts. */
  lemma {:induction false} EscapeAllExtends(s: string, n: nat)
    requires n <= |s|
    ensures EscapeAll(s[..n]) <= EscapeAll(s)
    decreases |s|
  {
    hide *;
    if n < |s| {
      var init := s[..|s| - 1];
      EscapeAllExtends(init, n);
      assert init[..n] == s[..n];
      EscapeAllMore(s);
    } else {
      assert s[..n] == s;
    }
  }

  lemma {:induction false} PlainStays(s: string)
    requires forall i :: 0 <= i < |s| ==> !Special(s[i])
    ensures EscapeAll(s) == s
    decreases |s|
  {
    hide Special;
    if s != [] {
      PlainStays(s[..|s| - 1]);
      assert s == s[..|s| - 1] + [s[|s| - 1]];
    }
  }

  /** Up to its first special, the line is as it was. */
  lemma EscapeAllStarts(s: string, n: nat)
    requires n <= |s| && forall i :: 0 <= i < n ==> !Special(s[i])
    ensures |EscapeAll(s)| >= n && EscapeAll(s)[..n] == s[..n]
    ensures n < |s| ==> |EscapeAll(s)| > n && EscapeAll(s)[n] == if Special(s[n]) then '\\' else s[n]
    ensures n == |s| ==> EscapeAll(s) == s
  {
    hide *;
    PlainStays(s[..n]);
    EscapeAllExtends(s, n);
    if n < |s| {
      var more := s[..n + 1];
      assert more[..n] == s[..n] && more[n] == s[n];
      EscapeAllMore(more);
      OneStarts(s[n]);
      EscapeAllExtends(s, n + 1);
      assert EscapeAll(more)[n] == One(s[n])[0];
    } else {
      assert s[..n] == s;
    }
  }

  /** The mark of the escaped line is the text's. */
  lemma MarkStays(s: string)
    ensures var out := EscapeAll(s);
      && (MarkAt(out) < |out| <==> MarkAt(s) < |s|)
      && (MarkAt(s) < |s| ==> MarkAt(out) == MarkAt(s) && out[..MarkAt(s)] == s[..MarkAt(s)] && out[MarkAt(s)] == s[MarkAt(s)])
  {
    var out := EscapeAll(s);
    var n := DigitsAhead(s);
    EscapeAllStarts(s, n);
    assert forall i :: 0 <= i < n ==> out[..n][i] == s[..n][i];
    assert n < |s| ==> !IsDigit(out[n]);
    DigitsAre(out, n);
    if s != [] { EscapeAllStarts(s, 0); }
  }

  /** The mark and what follows, once the mark is escaped. */
  lemma MarkReads(s: string)
    requires s != [] && Punctuation(s[0]) && !Special(s[0])
    ensures Units(['\\'] + EscapeAll(s)) == [Unit.Escaped(s[0])] + UnitsOf(s)[1..]
  {
    var out := EscapeAll(s);
    EscapeAllStarts(s, 0);
    EscapeAllReads(s);
    assert out[0] == s[0];
    assert (['\\'] + out)[2..] == out[1..];
    assert Units(out) == [Plain(out[0])] + Units(out[1..]);
    assert Units(out)[1..] == Units(out[1..]);
  }

  lemma PutBetween(a: string, b: string, c: char)
    ensures (a + b)[..|a|] + [c] + (a + b)[|a|..] == a + ([c] + b)
  {
  }

  lemma EscapeShape(s: string)
    requires MarkAt(s) < |s|
    ensures Escape(s) == s[..MarkAt(s)] + (['\\'] + EscapeAll(s[MarkAt(s)..]))
  {
    var at := MarkAt(s);
    MarkStays(s);
    PlainBefore(s, at);
    EscapeSplit(s, at);
    hide EscapeAll, Units, UnitsOf, MarkAt;
    PutBetween(s[..at], EscapeAll(s[at..]), '\\');
  }

  lemma OneReplaced(u: seq<Unit>, at: nat, one: Unit)
    requires at < |u|
    ensures u[at := one] == u[..at] + ([one] + u[at + 1..])
  {
  }

  lemma UnitsOfRest(s: string, at: nat)
    requires at < |s|
    ensures UnitsOf(s[at..])[1..] == UnitsOf(s)[at + 1..]
  {
  }

  lemma MarkedReads(s: string, at: nat)
    requires at == MarkAt(s) < |s|
    ensures Units(Escape(s)) == UnitsOf(s)[at := Unit.Escaped(s[at])]
  {
    EscapeShape(s);
    PlainBefore(s, at);
    assert Punctuation(s[at]) && !Special(s[at]);
    hide *;
    assert s[at..] != [] && s[at..][0] == s[at];
    MarkReads(s[at..]);
    UnitsJoin(s[..at], ['\\'] + EscapeAll(s[at..]));
    UnitsOfRest(s, at);
    OneReplaced(UnitsOf(s), at, Unit.Escaped(s[at]));
  }

  /** How the escaped line reads: as the text, its specials and its mark escaped, nothing else. */
  lemma EscapeReads(s: string)
    ensures Units(Escape(s)) == if MarkAt(s) < |s| then UnitsOf(s)[MarkAt(s) := Unit.Escaped(s[MarkAt(s)])] else UnitsOf(s)
  {
    if MarkAt(s) < |s| {
      MarkedReads(s, MarkAt(s));
    } else {
      MarkStays(s);
      EscapeAllReads(s);
    }
  }

  /** What is before the mark is digits: read as it is. */
  lemma PlainBefore(s: string, n: nat)
    requires n <= |s| && n == MarkAt(s) && n < |s|
    ensures forall i :: 0 <= i < n ==> IsDigit(s[i])
    ensures Units(s[..n]) == UnitsOf(s)[..n] && (n > 0 ==> s[..n][n - 1] != '\\')
  {
    DigitsReadPlain(s[..n]);
    assert UnitsOf(s[..n]) == UnitsOf(s)[..n];
  }

  lemma {:induction false} DigitsReadPlain(s: string)
    requires forall i :: 0 <= i < |s| ==> IsDigit(s[i])
    ensures Units(s) == UnitsOf(s)
    decreases |s|
  {
    if s != [] {
      DigitsReadPlain(s[1..]);
      assert UnitsOf(s) == [UnitOf(s[0])] + UnitsOf(s[1..]);
    }
  }

  lemma {:induction false} EscapeSplit(s: string, n: nat)
    requires n <= |s| && forall i :: 0 <= i < n ==> IsDigit(s[i])
    ensures EscapeAll(s) == s[..n] + EscapeAll(s[n..])
    decreases |s|
  {
    if n < |s| {
      var init := s[..|s| - 1];
      EscapeSplit(init, n);
      assert init[..n] == s[..n] && s[n..][..|s| - n - 1] == init[n..];
    } else {
      EscapeAllStarts(s, n);
      assert s[n..] == [];
    }
  }

  /** The round trip: undoing the escapes gives the text back, for every line. */
  lemma RoundTrip(s: string)
    ensures Unescape(Escape(s)) == s
  {
    EscapeReads(s);
    assert CharsOf(Units(Escape(s))) == s;
  }

  /** No special is left plain. */
  lemma NoSpecialIsLeft(s: string)
    ensures forall i :: 0 <= i < |Units(Escape(s))| && Units(Escape(s))[i].Plain? ==> !Special(Units(Escape(s))[i].c)
  {
    EscapeReads(s);
  }

  /** The escaped line never begins with what starts a list or underlines a heading. */
  lemma NoMarkIsLeft(s: string)
    ensures MarkAt(Escape(s)) == |Escape(s)|
  {
    MarkStays(s);
    var out, escaped := EscapeAll(s), Escape(s);
    var at := MarkAt(s);
    if at < |s| {
      assert escaped[at] == '\\';
      assert forall i :: 0 <= i < at ==> escaped[i] == s[i] && IsDigit(s[i]);
      DigitsAre(escaped, at);
    }
  }

  /** At `i` the mark of a list begins, or what underlines a heading. */
  predicate MarksAt(s: string, i: nat)
    requires i < |s|
  {
    || (i == 0 && s[0] in "-+=")
    || (i > 0 && s[i] in ".)" && forall k :: 0 <= k < i ==> '0' <= s[k] <= '9')
  }

  lemma MarkAtIs(s: string, i: nat)
    requires i < |s|
    ensures MarkAt(s) == i <==> MarksAt(s, i)
  {
    var digits := DigitsAhead(s);
    if i > 0 && s[i] in ".)" && forall k :: 0 <= k < i ==> '0' <= s[k] <= '9' { DigitsAre(s, i); }
  }

  /**
   * Character by character: the line reads as the text, and what is escaped in it are the twelve characters
   * that mean something anywhere, and the mark it begins with.
   */
  lemma EscapedExactlyWhen(s: string, i: nat)
    requires i < |s|
    ensures var units := Units(Escape(s));
      && |units| == |s| && units[i].c == s[i]
      && (units[i].Escaped? <==> s[i] in "\\`*_[]<>|~#&" || MarksAt(s, i))
  {
    EscapeReads(s);
    MarkAtIs(s, i);
    assert Special(s[i]) <==> s[i] in "\\`*_[]<>|~#&";
    hide Special, MarkAt, MarksAt, Escape, Units;
  }

  // ----- spaces in front

  function SpacesAhead(s: string): (n: nat)
    ensures n <= |s| && (forall i :: 0 <= i < n ==> s[i] == ' ') && (n < |s| ==> s[n] != ' ')
    decreases |s|
  {
    if s == [] || s[0] != ' ' then 0 else 1 + SpacesAhead(s[1..])
  }

  /** Markdown looks for such a mark after up to three spaces (sections 4.3 and 5.2 of the specification). */
  predicate MarkedAfterSpaces(s: string)
  {
    SpacesAhead(s) <= 3 && MarkAt(s[SpacesAhead(s)..]) < |s[SpacesAhead(s)..]|
  }

  /** So a mark is left exactly when spaces are in front of it. */
  lemma MarkIsLeftAfterSpaces(s: string)
    ensures MarkedAfterSpaces(Escape(s)) <==> MarkedAfterSpaces(s) && s[0] == ' '
  {
    var n := SpacesAhead(s);
    NoMarkIsLeft(s);
    if n == 0 {
      EscapeAllStarts(s, 0);
      MarkStays(s);
      assert Escape(s) != [] ==> Escape(s)[0] != ' ';
      assert Escape(s)[0..] == Escape(s);
    } else {
      EscapeAllStarts(s, n);
      MarkStays(s);
      assert MarkAt(s) == |s|;
      SpacesAre(Escape(s), n, s);
      SpacesSplit(s, n);
      MarkStays(s[n..]);
      assert Escape(s)[n..] == EscapeAll(s[n..]);
    }
  }

  /** A line of a list, a space in front of it: it is left as it was, and is one. */
  lemma SpacedItemIsLeft()
    ensures Escape(" - a") == " - a" && MarkedAfterSpaces(" - a")
  {
    var s := " - a";
    assert s[..3] == " - " && s[..3][..2] == " -" && s[..3][..2][..1] == " " && s[..3][..2][..1][..0] == "";
    assert EscapeAll(" ") == " ";
    assert EscapeAll(" -") == " -";
    assert EscapeAll(" - ") == " - ";
    assert EscapeAll(s) == s;
    assert MarkAt(s) == |s|;
    assert s[1..] == "- a" && SpacesAhead("- a") == 0 && SpacesAhead(s) == 1;
  }

  lemma {:induction false} SpacesAre(t: string, n: nat, s: string)
    requires n == SpacesAhead(s) && n <= |t| && t[..n] == s[..n] && (n < |t| ==> t[n] != ' ')
    ensures SpacesAhead(t) == n
    decreases n
  {
  }

  lemma {:induction false} SpacesSplit(s: string, n: nat)
    requires n <= |s| && forall i :: 0 <= i < n ==> s[i] == ' '
    ensures EscapeAll(s) == s[..n] + EscapeAll(s[n..])
    decreases |s|
  {
    if n < |s| {
      var init := s[..|s| - 1];
      SpacesSplit(init, n);
      assert init[..n] == s[..n] && s[n..][..|s| - n - 1] == init[n..];
    } else {
      EscapeAllStarts(s, n);
      assert s[n..] == [];
    }
  }
}
