/**
 * How sources are put in order by name (src-tauri/src/create_pdf.rs:52-123): a name is taken as a list
 * of tokens, a number for each run of digits and a lower-case letter for each other character.
 */
module NaturalOrders {
  import opened Basics
  import opened Decimals

  datatype Order = Less | Equal | Greater

  function Flip(o: Order): Order
  {
    match o case Less => Greater case Equal => Equal case Greater => Less
  }

  /** A character in lower case: one or more characters. */
  type Lower = char -> string

  /**
   * What is taken for granted of lower case: it is something, and what no digit is does not become
   * one that begins with a digit; a digit stays as it is.
   */
  ghost predicate LowerOk(lower: Lower)
  {
    forall c: char ::
      && lower(c) != []
      && (IsDigit(c) ==> lower(c) == [c])
      && (!IsDigit(c) ==> !IsDigit(lower(c)[0]))
  }

  function NatOrder(a: nat, b: nat): Order
  {
    if a < b then Less else if a > b then Greater else Equal
  }

  /** Strings by their characters, a prefix first. */
  function TextOrder(a: string, b: string): Order
    decreases |a|
  {
    if a == [] && b == [] then Equal
    else if a == [] then Less
    else if b == [] then Greater
    else if a[0] < b[0] then Less
    else if a[0] > b[0] then Greater
    else TextOrder(a[1..], b[1..])
  }

  // ----- the specification: names as lists of tokens

  datatype Token = Number(value: nat) | Letter(lower: string)

  /** How many digits a text begins with. */
  function RunLength(s: string): (n: nat)
    ensures n <= |s|
    ensures forall i :: 0 <= i < n ==> IsDigit(s[i])
    ensures n < |s| ==> !IsDigit(s[n])
  {
    if s == [] || !IsDigit(s[0]) then 0 else 1 + RunLength(s[1..])
  }

  function Tokens(lower: Lower, s: string): seq<Token>
    decreases |s|
  {
    if s == [] then []
    else if IsDigit(s[0]) then
      var n := RunLength(s);
      [Number(Value(s[..n]))] + Tokens(lower, s[n..])
    else [Letter(lower(s[0]))] + Tokens(lower, s[1..])
  }

  /** Numbers by value, letters by their characters; a number is where its digits are among the characters. */
  function TokenOrder(a: Token, b: Token): Order
  {
    match (a, b)
    case (Number(x), Number(y)) => NatOrder(x, y)
    case (Letter(x), Letter(y)) => TextOrder(x, y)
    case (Number(_), Letter(y)) => TextOrder("0", y)
    case (Letter(x), Number(_)) => TextOrder(x, "0")
  }

  function Compare(a: seq<Token>, b: seq<Token>): Order
    decreases |a|
  {
    if a == [] && b == [] then Equal
    else if a == [] then Less
    else if b == [] then Greater
    else
      var o := TokenOrder(a[0], b[0]);
      if !o.Equal? then o else Compare(a[1..], b[1..])
  }

  // ----- the order of token lists is total

  lemma {:induction false} TextFlips(a: string, b: string)
    ensures TextOrder(b, a) == Flip(TextOrder(a, b))
    decreases |a|
  {
    if a != [] && b != [] && a[0] == b[0] { TextFlips(a[1..], b[1..]); }
  }

  lemma {:induction false} TextEqual(a: string, b: string)
    ensures TextOrder(a, b).Equal? <==> a == b
    decreases |a|
  {
    if a != [] && b != [] && a[0] == b[0] {
      TextEqual(a[1..], b[1..]);
      assert a == [a[0]] + a[1..] && b == [b[0]] + b[1..];
    }
  }

  lemma {:induction false} TextTransitive(a: string, b: string, c: string)
    requires TextOrder(a, b).Less? && TextOrder(b, c).Less?
    ensures TextOrder(a, c).Less?
    decreases |a|
  {
    if a != [] && b != [] && c != [] && a[0] == b[0] == c[0] { TextTransitive(a[1..], b[1..], c[1..]); }
  }

  /** A token as names have them: a letter's lower case is something, and does not begin with a digit. */
  predicate TokenOk(t: Token)
  {
    t.Letter? ==> t.lower != [] && !IsDigit(t.lower[0])
  }

  predicate TokensOk(ts: seq<Token>) { forall i :: 0 <= i < |ts| ==> TokenOk(ts[i]) }

  lemma {:induction false} NamesAreOk(lower: Lower, s: string)
    requires LowerOk(lower)
    ensures TokensOk(Tokens(lower, s))
    decreases |s|
  {
    if s != [] {
      if IsDigit(s[0]) { NamesAreOk(lower, s[RunLength(s)..]); } else { NamesAreOk(lower, s[1..]); }
    }
  }

  lemma TokenFlips(a: Token, b: Token)
    requires TokenOk(a) && TokenOk(b)
    ensures TokenOrder(b, a) == Flip(TokenOrder(a, b))
    ensures TokenOrder(a, b).Equal? <==> a == b
  {
    match (a, b)
    case (Letter(x), Letter(y)) => TextFlips(x, y); TextEqual(x, y);
    case (Number(_), Letter(y)) => TextFlips("0", y);
    case (Letter(x), Number(_)) => TextFlips(x, "0");
    case _ =>
  }

  lemma TokenTransitive(a: Token, b: Token, c: Token)
    requires TokenOk(a) && TokenOk(b) && TokenOk(c)
    requires TokenOrder(a, b).Less? && TokenOrder(b, c).Less?
    ensures TokenOrder(a, c).Less?
  {
    var x := if a.Number? then "0" else a.lower;
    var y := if b.Number? then "0" else b.lower;
    var z := if c.Number? then "0" else c.lower;
    if TextOrder(x, y).Less? && TextOrder(y, z).Less? { TextTransitive(x, y, z); }
  }

  /** Swapping the names flips the order, and only equal tokens are equal. */
  lemma {:induction false} CompareFlips(a: seq<Token>, b: seq<Token>)
    requires TokensOk(a) && TokensOk(b)
    ensures Compare(b, a) == Flip(Compare(a, b))
    ensures Compare(a, b).Equal? <==> a == b
    decreases |a|
  {
    if a != [] && b != [] {
      TokenFlips(a[0], b[0]);
      CompareFlips(a[1..], b[1..]);
      assert a == [a[0]] + a[1..] && b == [b[0]] + b[1..];
    }
  }

  lemma {:induction false} CompareTransitive(a: seq<Token>, b: seq<Token>, c: seq<Token>)
    requires TokensOk(a) && TokensOk(b) && TokensOk(c)
    requires Compare(a, b).Less? && Compare(b, c).Less?
    ensures Compare(a, c).Less?
    decreases |a|
  {
    if a != [] && b != [] && c != [] {
      TokenFlips(a[0], b[0]);
      TokenFlips(b[0], c[0]);
      if TokenOrder(a[0], b[0]).Less? && TokenOrder(b[0], c[0]).Less? {
        TokenTransitive(a[0], b[0], c[0]);
      } else if a[0] == b[0] && b[0] == c[0] {
        CompareTransitive(a[1..], b[1..], c[1..]);
      }
    }
  }

  // ----- what comes first

  /** Where two texts first differ, the one that has ended there, or has the smaller character. */
  predicate TextLess(a: string, b: string)
  {
    exists k :: 0 <= k <= |a| && k < |b| && a[..k] == b[..k] && (k == |a| || a[k] < b[k])
  }

  lemma {:induction false} TextOrderIs(a: string, b: string)
    ensures TextOrder(a, b).Less? <==> TextLess(a, b)
    ensures TextOrder(a, b).Greater? <==> TextLess(b, a)
    decreases |a|
  {
    TextFlips(a, b);
    if a != [] && b != [] && a[0] == b[0] {
      TextOrderIs(a[1..], b[1..]);
      TextLessRest(a, b);
      TextLessRest(b, a);
    } else {
      TextLessFirst(a, b);
      TextLessFirst(b, a);
    }
  }

  lemma TextLessRest(a: string, b: string)
    requires a != [] && b != [] && a[0] == b[0]
    ensures TextLess(a, b) <==> TextLess(a[1..], b[1..])
  {
    var c, d := a[1..], b[1..];
    if k :| 0 <= k <= |c| && k < |d| && c[..k] == d[..k] && (k == |c| || c[k] < d[k]) {
      assert a[..k + 1] == [a[0]] + c[..k] && b[..k + 1] == [b[0]] + d[..k];
    }
    if k :| 0 <= k <= |a| && k < |b| && a[..k] == b[..k] && (k == |a| || a[k] < b[k]) {
      assert k > 0;
      assert c[..k - 1] == a[..k][1..] && d[..k - 1] == b[..k][1..];
    }
  }

  lemma TextLessFirst(a: string, b: string)
    requires a == [] || b == [] || a[0] != b[0]
    ensures TextLess(a, b) <==> b != [] && (a == [] || a[0] < b[0])
  {
    if b != [] && (a == [] || a[0] < b[0]) { assert a[..0] == b[..0]; }
    forall k | 0 < k <= |a| && k < |b| ensures a[..k] != b[..k] {
      assert a[..k][0] == a[0] && b[..k][0] == b[0];
    }
  }

  /** Numbers by value, letters as texts; a number and a letter as a digit and the letter. */
  predicate TokenLess(a: Token, b: Token)
  {
    match (a, b)
    case (Number(x), Number(y)) => x < y
    case (Letter(x), Letter(y)) => TextLess(x, y)
    case (Number(_), Letter(y)) => TextLess("0", y)
    case (Letter(x), Number(_)) => TextLess(x, "0")
  }

  lemma TokenOrderIs(a: Token, b: Token)
    requires TokenOk(a) && TokenOk(b)
    ensures TokenOrder(a, b).Less? <==> TokenLess(a, b)
    ensures TokenOrder(a, b).Equal? <==> a == b
  {
    TokenFlips(a, b);
    match (a, b)
    case (Letter(x), Letter(y)) => TextOrderIs(x, y);
    case (Number(_), Letter(y)) => TextOrderIs("0", y);
    case (Letter(x), Number(_)) => TextOrderIs(x, "0");
    case _ =>
  }

  /** After what two lists have in common the one that ends, or has the smaller token, comes first. */
  lemma {:induction false} CompareAfter(common: seq<Token>, a: seq<Token>, b: seq<Token>)
    requires TokensOk(common) && TokensOk(a) && TokensOk(b)
    ensures Compare(common + a, common + b) == Compare(a, b)
    ensures a == [] && b != [] ==> Compare(a, b).Less?
    ensures a != [] && b != [] && TokenLess(a[0], b[0]) ==> Compare(a, b).Less?
    decreases |common|
  {
    if a != [] && b != [] { TokenOrderIs(a[0], b[0]); }
    if common == [] {
      assert common + a == a && common + b == b;
    } else {
      TokenFlips(common[0], common[0]);
      CompareAfter(common[1..], a, b);
      assert (common + a)[1..] == common[1..] + a && (common + b)[1..] == common[1..] + b;
    }
  }

  predicate DigitFirst(s: string) { s != [] && IsDigit(s[0]) }

  /** The tokens of what is put together are put together, where no run of digits is cut. */
  lemma {:induction false} TokensJoin(lower: Lower, a: string, b: string)
    requires a == [] || !IsDigit(a[|a| - 1]) || !DigitFirst(b)
    ensures Tokens(lower, a + b) == Tokens(lower, a) + Tokens(lower, b)
    decreases |a|
  {
    hide IsDigit;
    if a == [] {
      assert a + b == b;
    } else if IsDigit(a[0]) {
      var n := RunLength(a);
      RunIs(a + b, n);
      assert (a + b)[..n] == a[..n] && (a + b)[n..] == a[n..] + b;
      TokensJoin(lower, a[n..], b);
    } else {
      assert (a + b)[1..] == a[1..] + b;
      TokensJoin(lower, a[1..], b);
    }
  }

  lemma DigitsToken(lower: Lower, digits: string)
    requires digits != [] && forall i :: 0 <= i < |digits| ==> IsDigit(digits[i])
    ensures Tokens(lower, digits) == [Number(Value(digits))]
  {
    RunIs(digits, |digits|);
    assert digits[..|digits|] == digits && Tokens(lower, digits[|digits|..]) == [];
  }

  /**
   * As a person reads them: of two names alike up to a number, the one with the smaller number comes
   * first, however many digits either has, and whatever follows.
   */
  lemma SmallerNumberFirst(lower: Lower, start: string, x: string, y: string, a: string, b: string)
    requires LowerOk(lower) && (start == [] || !IsDigit(start[|start| - 1])) && !DigitFirst(a) && !DigitFirst(b)
    requires x != [] && y != [] && (forall i :: 0 <= i < |x| ==> IsDigit(x[i])) && (forall i :: 0 <= i < |y| ==> IsDigit(y[i]))
    requires Value(x) < Value(y)
    ensures Compare(Tokens(lower, start + (x + a)), Tokens(lower, start + (y + b))).Less?
  {
    NamesAreOk(lower, start);
    NumberThere(lower, start, x, a);
    NumberThere(lower, start, y, b);
    hide Tokens, Compare, IsDigit, LowerOk;
    CompareAfter(Tokens(lower, start), [Number(Value(x))] + Tokens(lower, a), [Number(Value(y))] + Tokens(lower, b));
  }

  lemma NumberThere(lower: Lower, start: string, x: string, rest: string)
    requires LowerOk(lower) && (start == [] || !IsDigit(start[|start| - 1])) && !DigitFirst(rest)
    requires x != [] && forall i :: 0 <= i < |x| ==> IsDigit(x[i])
    ensures Tokens(lower, start + (x + rest)) == Tokens(lower, start) + ([Number(Value(x))] + Tokens(lower, rest))
    ensures TokensOk([Number(Value(x))] + Tokens(lower, rest))
  {
    NamesAreOk(lower, rest);
    DigitsToken(lower, x);
    hide Tokens, IsDigit, LowerOk;
    TokensJoin(lower, x, rest);
    TokensJoin(lower, start, x + rest);
  }

  /** And of two alike up to a letter, the one whose letter is first in lower case, and one that ends there. */
  lemma SmallerLetterFirst(lower: Lower, start: string, c: char, d: char, a: string, b: string)
    requires LowerOk(lower) && !IsDigit(c) && !IsDigit(d)
    ensures TextLess(lower(c), lower(d)) ==> Compare(Tokens(lower, start + ([c] + a)), Tokens(lower, start + ([d] + b))).Less?
    ensures Compare(Tokens(lower, start), Tokens(lower, start + ([d] + b))).Less?
  {
    NamesAreOk(lower, start);
    NamesAreOk(lower, [c] + a);
    NamesAreOk(lower, [d] + b);
    TokensJoin(lower, start, [c] + a);
    TokensJoin(lower, start, [d] + b);
    assert Tokens(lower, [c] + a)[0] == Letter(lower(c)) && Tokens(lower, [d] + b)[0] == Letter(lower(d));
    hide Tokens, Compare, IsDigit, LowerOk, TextLess;
    CompareAfter(Tokens(lower, start), Tokens(lower, [c] + a), Tokens(lower, [d] + b));
    CompareAfter(Tokens(lower, start), [], Tokens(lower, [d] + b));
    assert Tokens(lower, start) + [] == Tokens(lower, start);
  }

  /** Names that are the same in lower case are equal. */
  lemma {:induction false} CaseDoesNotCount(lower: Lower, a: string, b: string)
    requires LowerOk(lower) && |a| == |b| && forall i :: 0 <= i < |a| ==> lower(a[i]) == lower(b[i])
    ensures Tokens(lower, a) == Tokens(lower, b)
    decreases |a|
  {
    if a != [] {
      assert forall i :: 0 <= i < |a| ==> (IsDigit(a[i]) <==> IsDigit(b[i])) && (IsDigit(a[i]) ==> a[i] == b[i]);
      if IsDigit(a[0]) {
        var n := RunLength(a);
        RunIs(b, n);
        assert a[..n] == b[..n];
        CaseDoesNotCount(lower, a[n..], b[n..]);
      } else {
        CaseDoesNotCount(lower, a[1..], b[1..]);
      }
    }
  }

  // ----- runs of digits

  predicate Digits(s: string) { forall i :: 0 <= i < |s| ==> IsDigit(s[i]) }

  /** A run of digits without the zeros in front. */
  function Trimmed(s: string): (t: string)
    ensures t != [] ==> t[0] != '0'
    ensures Digits(s) ==> Digits(t)
    decreases |s|
  {
    if s != [] && s[0] == '0' then Trimmed(s[1..]) else s
  }

  lemma {:induction false} TrimmedValue(s: string)
    requires Digits(s)
    ensures Value(Trimmed(s)) == Value(s)
    decreases |s|
  {
    if s != [] && s[0] == '0' {
      TrimmedValue(s[1..]);
      ZerosCountNothing(1, s[1..]);
      assert s == Zeros(1) + s[1..];
    }
  }

  lemma TenTimes(first: nat, p: nat, between: nat, last: nat)
    ensures 10 * (first * p + between) + last == first * (10 * p) + (10 * between + last)
  {
  }

  lemma {:induction false} ValueByFirst(s: string)
    requires Digits(s) && s != []
    ensures Value(s) == DigitValue(s[0]) * Pow10(|s| - 1) + Value(s[1..])
    decreases |s|
  {
    if |s| == 1 {
      assert s[1..] == [] && s[..0] == [];
    } else {
      var init := s[..|s| - 1];
      ValueByFirst(init);
      assert s[1..][..|s| - 2] == init[1..];
      assert Pow10(|s| - 1) == 10 * Pow10(|s| - 2);
      assert s[1..][|s| - 2] == s[|s| - 1];
      TenTimes(DigitValue(s[0]), Pow10(|s| - 2), Value(init[1..]), DigitValue(s[|s| - 1]));
    }
  }

  lemma {:induction false} ValueBelow(s: string)
    requires Digits(s)
    ensures Value(s) < Pow10(|s|)
    decreases |s|
  {
    if s != [] { ValueBelow(s[..|s| - 1]); }
  }

  lemma LeadingDigit(a: nat, b: nat, p: nat, x: nat, y: nat)
    requires a < b && x < p
    ensures a * p + x < b * p + y
  {
    assert b * p >= (a + 1) * p == a * p + p;
  }

  lemma {:induction false} SameLength(x: string, y: string)
    requires Digits(x) && Digits(y) && |x| == |y|
    ensures TextOrder(x, y) == NatOrder(Value(x), Value(y))
    decreases |x|
  {
    if x != [] {
      var p := Pow10(|x| - 1);
      ValueByFirst(x);
      ValueByFirst(y);
      ValueBelow(x[1..]);
      ValueBelow(y[1..]);
      SameLength(x[1..], y[1..]);
      var dx, dy := DigitValue(x[0]), DigitValue(y[0]);
      if dx < dy { LeadingDigit(dx, dy, p, Value(x[1..]), Value(y[1..])); }
      if dx > dy { LeadingDigit(dy, dx, p, Value(y[1..]), Value(x[1..])); }
      hide Value, Pow10, Digits;
    }
  }

  /** Of two runs of digits that begin with no zero, the longer one has the larger value. */
  lemma LongerIsLarger(x: string, y: string)
    requires Digits(x) && Digits(y) && |x| < |y| && y[0] != '0'
    ensures Value(x) < Value(y)
  {
  }

  function RunOrder(x: string, y: string): Order
  {
    var byLength := NatOrder(|x|, |y|);
    if byLength.Equal? then TextOrder(x, y) else byLength
  }

  lemma RunsCompare(x: string, y: string)
    requires Digits(x) && Digits(y)
    ensures RunOrder(Trimmed(x), Trimmed(y)) == NatOrder(Value(x), Value(y))
  {
    TrimmedValue(x);
    TrimmedValue(y);
    var tx, ty := Trimmed(x), Trimmed(y);
    if |tx| < |ty| { LongerIsLarger(tx, ty); }
    if |ty| < |tx| { LongerIsLarger(ty, tx); }
    if |tx| == |ty| { SameLength(tx, ty); }
  }

  /** Takes the run of digits at `from`, without the zeros in front. */
  method TakeDigits(s: string, from: nat) returns (run: string, next: nat)
    requires from <= |s|
    ensures next == from + RunLength(s[from..]) && next <= |s|
    ensures run == Trimmed(s[from..next]) && Digits(s[from..next])
  {
    next := from;
    run := [];
    while next < |s| && IsDigit(s[next])
      invariant from <= next <= |s| && run == s[from..next] && Digits(run)
    {
      run := run + [s[next]];
      next := next + 1;
    }
    assert s[from..][..next - from] == s[from..next];
    RunIs(s[from..], next - from);
    while run != [] && run[0] == '0'
      invariant Trimmed(run) == Trimmed(s[from..next])
      decreases |run|
    {
      run := run[1..];
    }
  }

  lemma {:induction false} RunIs(s: string, n: nat)
    requires n <= |s| && Digits(s[..n]) && (n < |s| ==> !IsDigit(s[n]))
    ensures RunLength(s) == n
    decreases n
  {
  }

  // ----- the comparison

  /**
   * Two file names compared character by character, and runs of digits as numbers of any length: as
   * their tokens compare.
   */
  method NaturalOrder(lower: Lower, a: string, b: string) returns (order: Order)
    requires LowerOk(lower)
    ensures order == Compare(Tokens(lower, a), Tokens(lower, b))
  {
    var i, j := 0, 0;
    assert a[0..] == a && b[0..] == b;
    hide Tokens, Compare, LowerOk;
    while i < |a| && j < |b|
      invariant 0 <= i <= |a| && 0 <= j <= |b|
      invariant Compare(Tokens(lower, a), Tokens(lower, b)) == Compare(Tokens(lower, a[i..]), Tokens(lower, b[j..]))
      decreases |a| - i
    {
      order, i, j := OneToken(lower, a, i, b, j);
      if !order.Equal? {
        return;
      }
    }
    TokensEnd(lower, a, i);
    TokensEnd(lower, b, j);
    OneEnds(Tokens(lower, a[i..]), Tokens(lower, b[j..]));
    return if i < |a| then Greater else if j < |b| then Less else Equal;
  }

  lemma TokensEnd(lower: Lower, s: string, i: nat)
    requires i <= |s|
    ensures Tokens(lower, s[i..]) == [] <==> i == |s|
  {
  }

  /** One number, or one character, of each. */
  method OneToken(lower: Lower, a: string, i: nat, b: string, j: nat) returns (order: Order, nextA: nat, nextB: nat)
    requires LowerOk(lower) && i < |a| && j < |b|
    ensures i < nextA <= |a| && j < nextB <= |b|
    ensures Compare(Tokens(lower, a[i..]), Tokens(lower, b[j..]))
         == if order.Equal? then Compare(Tokens(lower, a[nextA..]), Tokens(lower, b[nextB..])) else order
  {
    hide Tokens, Compare, TokenOrder, TextOrder, RunOrder, LowerOk, RunLength, Digits, Value, Trimmed;
    if IsDigit(a[i]) && IsDigit(b[j]) {
      var x, y;
      x, nextA := TakeDigits(a, i);
      y, nextB := TakeDigits(b, j);
      NumberAt(lower, a, i, nextA);
      NumberAt(lower, b, j, nextB);
      order := RunOrder(x, y);
      NumbersCompare(a[i..nextA], b[j..nextB], Tokens(lower, a[nextA..]), Tokens(lower, b[nextB..]));
    } else {
      LetterAt(lower, a, i);
      LetterAt(lower, b, j);
      order := TextOrder(lower(a[i]), lower(b[j]));
      LettersCompare(lower, a[i], b[j], Tokens(lower, a[i..]), Tokens(lower, b[j..]), Tokens(lower, a[i + 1..]), Tokens(lower, b[j + 1..]));
      nextA, nextB := i + 1, j + 1;
    }
  }

  lemma OneEnds(x: seq<Token>, y: seq<Token>)
    requires x == [] || y == []
    ensures Compare(x, y) == if x != [] then Greater else if y != [] then Less else Equal
  {
  }

  lemma NumbersCompare(x: string, y: string, xs: seq<Token>, ys: seq<Token>)
    requires Digits(x) && Digits(y)
    ensures var o := RunOrder(Trimmed(x), Trimmed(y));
      Compare([Number(Value(x))] + xs, [Number(Value(y))] + ys) == if o.Equal? then Compare(xs, ys) else o
  {
    RunsCompare(x, y);
    assert ([Number(Value(x))] + xs)[1..] == xs && ([Number(Value(y))] + ys)[1..] == ys;
  }

  /** Not both digits: the characters decide, and a digit is never equal to a letter. */
  lemma LettersCompare(lower: Lower, x: char, y: char, xs: seq<Token>, ys: seq<Token>, restX: seq<Token>, restY: seq<Token>)
    requires LowerOk(lower) && !(IsDigit(x) && IsDigit(y)) && xs != [] && ys != []
    requires if IsDigit(x) then xs[0].Number? else xs == [Letter(lower(x))] + restX
    requires if IsDigit(y) then ys[0].Number? else ys == [Letter(lower(y))] + restY
    ensures var o := TextOrder(lower(x), lower(y));
      Compare(xs, ys) == if o.Equal? then Compare(restX, restY) else o
  {
  }

  /** The tokens from a number on: it, and the rest. */
  lemma NumberAt(lower: Lower, s: string, i: nat, next: nat)
    requires i < |s| && IsDigit(s[i]) && next == i + RunLength(s[i..])
    ensures i < next <= |s| && Digits(s[i..next])
    ensures Tokens(lower, s[i..]) == [Number(Value(s[i..next]))] + Tokens(lower, s[next..])
  {
    var rest := s[i..];
    var n := RunLength(rest);
    assert rest[..n] == s[i..next] && rest[n..] == s[next..];
  }

  /** The tokens from any other character on. */
  lemma LetterAt(lower: Lower, s: string, i: nat)
    requires i < |s|
    ensures Tokens(lower, s[i..]) != []
    ensures IsDigit(s[i]) ==> Tokens(lower, s[i..])[0].Number?
    ensures !IsDigit(s[i]) ==> Tokens(lower, s[i..]) == [Letter(lower(s[i]))] + Tokens(lower, s[i + 1..])
  {
  }

  /** It is a total preorder: the other way round it is flipped, it is transitive, and equal is equal tokens. */
  lemma NaturalOrderIsTotal(lower: Lower, a: string, b: string, c: string)
    requires LowerOk(lower)
    ensures var (x, y, z) := (Tokens(lower, a), Tokens(lower, b), Tokens(lower, c));
      && Compare(y, x) == Flip(Compare(x, y))
      && (Compare(x, y).Equal? <==> x == y)
      && (!Compare(x, y).Greater? && !Compare(y, z).Greater? ==> !Compare(x, z).Greater?)
  {
    var x, y, z := Tokens(lower, a), Tokens(lower, b), Tokens(lower, c);
    NamesAreOk(lower, a);
    NamesAreOk(lower, b);
    NamesAreOk(lower, c);
    CompareFlips(x, y);
    CompareFlips(y, z);
    CompareFlips(x, z);
    if Compare(x, y).Less? && Compare(y, z).Less? { CompareTransitive(x, y, z); }
  }

  // ----- the sources, in order

  const MAX_CREATE_SOURCES := 200

  datatype Kind = Image | Html | Text | Epub | Xps | Svg | Docx | Xlsx | Pptx

  type Extensions = string -> Option<Kind>

  datatype Source = Source(path: string, kind: Kind)

  /** `name` is what the order looks at of a path. */
  function Key(lower: Lower, name: string -> string, source: Source): seq<Token>
  {
    Tokens(lower, name(source.path))
  }

  predicate Ordered(lower: Lower, name: string -> string, sources: seq<Source>)
  {
    forall i, j :: 0 <= i < j < |sources| ==>
      !Compare(Key(lower, name, sources[i]), Key(lower, name, sources[j])).Greater?
  }

  /** After those it does not come before: what a stable sort does with one more. */
  function Insert(lower: Lower, name: string -> string, sources: seq<Source>, one: Source): (r: seq<Source>)
    ensures |r| == |sources| + 1
    decreases |sources|
  {
    if sources == [] || !Compare(Key(lower, name, sources[|sources| - 1]), Key(lower, name, one)).Greater? then sources + [one]
    else Insert(lower, name, sources[..|sources| - 1], one) + [sources[|sources| - 1]]
  }

  /** A stable sort by `Compare`. */
  function Sort(lower: Lower, name: string -> string, sources: seq<Source>): (r: seq<Source>)
    ensures |r| == |sources|
    decreases |sources|
  {
    if sources == [] then [] else Insert(lower, name, Sort(lower, name, sources[..|sources| - 1]), sources[|sources| - 1])
  }

  /** Those of the sources whose names have the tokens `key`, in order. */
  function WithKey(lower: Lower, name: string -> string, sources: seq<Source>, key: seq<Token>): seq<Source>
    decreases |sources|
  {
    if sources == [] then []
    else
      var init := WithKey(lower, name, sources[..|sources| - 1], key);
      if Key(lower, name, sources[|sources| - 1]) == key then init + [sources[|sources| - 1]] else init
  }

  lemma {:induction false} InsertKeeps(lower: Lower, name: string -> string, sources: seq<Source>, one: Source)
    ensures multiset(Insert(lower, name, sources, one)) == multiset(sources) + multiset{one}
    decreases |sources|
  {
    if sources != [] && Compare(Key(lower, name, sources[|sources| - 1]), Key(lower, name, one)).Greater? {
      InsertKeeps(lower, name, sources[..|sources| - 1], one);
      assert sources == sources[..|sources| - 1] + [sources[|sources| - 1]];
    }
  }

  lemma {:induction false} InsertOrders(lower: Lower, name: string -> string, sources: seq<Source>, one: Source)
    requires LowerOk(lower) && Ordered(lower, name, sources)
    ensures Ordered(lower, name, Insert(lower, name, sources, one))
    ensures forall i :: 0 <= i <= |sources| ==> Insert(lower, name, sources, one)[i] == one || Insert(lower, name, sources, one)[i] in sources
    decreases |sources|
  {
    hide LowerOk, Key, Compare;
    var k := |sources| - 1;
    if sources == [] {
    } else if Compare(Key(lower, name, sources[k]), Key(lower, name, one)).Greater? {
      InsertOrders(lower, name, sources[..k], one);
      KeysCompare(lower, name, one, sources[k], sources[k]);
    } else {
      forall i | 0 <= i < |sources| ensures !Compare(Key(lower, name, sources[i]), Key(lower, name, one)).Greater? {
        if i < k { KeysCompare(lower, name, sources[i], sources[k], one); }
      }
    }
  }

  lemma KeysCompare(lower: Lower, name: string -> string, a: Source, b: Source, c: Source)
    requires LowerOk(lower)
    ensures Compare(Key(lower, name, b), Key(lower, name, a)) == Flip(Compare(Key(lower, name, a), Key(lower, name, b)))
    ensures Compare(Key(lower, name, a), Key(lower, name, b)).Equal? <==> Key(lower, name, a) == Key(lower, name, b)
    ensures !Compare(Key(lower, name, a), Key(lower, name, b)).Greater? && !Compare(Key(lower, name, b), Key(lower, name, c)).Greater?
      ==> !Compare(Key(lower, name, a), Key(lower, name, c)).Greater?
  {
    NaturalOrderIsTotal(lower, name(a.path), name(b.path), name(c.path));
  }

  lemma {:induction false} InsertIsStable(lower: Lower, name: string -> string, sources: seq<Source>, one: Source, key: seq<Token>)
    requires LowerOk(lower)
    ensures WithKey(lower, name, Insert(lower, name, sources, one), key)
         == if Key(lower, name, one) == key then WithKey(lower, name, sources, key) + [one] else WithKey(lower, name, sources, key)
    decreases |sources|
  {
    hide LowerOk, Key, Compare;
    var k := |sources| - 1;
    if sources != [] && Compare(Key(lower, name, sources[k]), Key(lower, name, one)).Greater? {
      InsertIsStable(lower, name, sources[..k], one, key);
      var init := Insert(lower, name, sources[..k], one);
      assert (init + [sources[k]])[..|init|] == init;
      KeysCompare(lower, name, sources[k], one, one);
    } else {
      assert (sources + [one])[..|sources|] == sources;
    }
  }

  /** The sort gives back the sources, in order, and leaves those that compare equal in the order they had. */
  lemma {:induction false} SortSorts(lower: Lower, name: string -> string, sources: seq<Source>)
    requires LowerOk(lower)
    ensures var r := Sort(lower, name, sources);
      && Ordered(lower, name, r) && multiset(r) == multiset(sources)
      && forall key :: WithKey(lower, name, r, key) == WithKey(lower, name, sources, key)
    decreases |sources|
  {
    if sources != [] {
      var init, one := sources[..|sources| - 1], sources[|sources| - 1];
      assert Sort(lower, name, sources) == Insert(lower, name, Sort(lower, name, init), one);
      assert sources == init + [one];
      hide *;
      SortSorts(lower, name, init);
      InsertSorts(lower, name, Sort(lower, name, init), init, one);
    }
  }

  lemma InsertSorts(lower: Lower, name: string -> string, sorted: seq<Source>, init: seq<Source>, one: Source)
    requires LowerOk(lower) && Ordered(lower, name, sorted) && multiset(sorted) == multiset(init)
    requires forall key :: WithKey(lower, name, sorted, key) == WithKey(lower, name, init, key)
    ensures var r := Insert(lower, name, sorted, one);
      && Ordered(lower, name, r) && multiset(r) == multiset(init + [one])
      && forall key :: WithKey(lower, name, r, key) == WithKey(lower, name, init + [one], key)
  {
    hide *;
    InsertKeeps(lower, name, sorted, one);
    InsertOrders(lower, name, sorted, one);
    forall key ensures WithKey(lower, name, Insert(lower, name, sorted, one), key) == WithKey(lower, name, init + [one], key) {
      InsertIsStable(lower, name, sorted, one, key);
      LastWithKey(lower, name, init, one, key);
    }
  }

  lemma LastWithKey(lower: Lower, name: string -> string, sources: seq<Source>, one: Source, key: seq<Token>)
    ensures WithKey(lower, name, sources + [one], key)
         == if Key(lower, name, one) == key then WithKey(lower, name, sources, key) + [one] else WithKey(lower, name, sources, key)
  {
    hide Key;
  }

  /** Every file the user picked with its kind, in the natural order; or why no PDF is made of them. */
  method SourcesOf(lower: Lower, name: string -> string, kindOf: Extensions, paths: seq<string>)
    returns (r: Result<seq<Source>, ErrorCode>)
    requires LowerOk(lower)
    ensures r.Err? <==>
      || !(1 <= |paths| <= MAX_CREATE_SOURCES)
      || (exists i :: 0 <= i < |paths| && kindOf(paths[i]).None?)
      || (|paths| > 1 && exists i :: 0 <= i < |paths| && kindOf(paths[i]) != Some(Image))
    ensures r.Ok? ==>
      && Ordered(lower, name, r.value)
      && exists taken: seq<Source> ::
           && |taken| == |paths| && multiset(r.value) == multiset(taken)
           && (forall i :: 0 <= i < |paths| ==> taken[i].path == paths[i] && kindOf(paths[i]) == Some(taken[i].kind))
           && (forall key :: WithKey(lower, name, r.value, key) == WithKey(lower, name, taken, key))
  {
    hide LowerOk, Ordered, WithKey, Sort;
    if paths == [] || |paths| > MAX_CREATE_SOURCES {
      return Err(InvalidArgument);
    }
    var sources: seq<Source> := [];
    var k := 0;
    while k < |paths|
      invariant 0 <= k <= |paths| && |sources| == k
      invariant forall i :: 0 <= i < k ==> sources[i].path == paths[i] && kindOf(paths[i]) == Some(sources[i].kind)
    {
      var kind := kindOf(paths[k]);
      if kind.None? {
        return Err(InvalidArgument);
      }
      sources := sources + [Source(paths[k], kind.value)];
      k := k + 1;
    }
    if |sources| > 1 && exists i :: 0 <= i < |sources| && !sources[i].kind.Image? {
      return Err(InvalidArgument);
    }
    SortSorts(lower, name, sources);
    return Ok(Sort(lower, name, sources));
  }
}
