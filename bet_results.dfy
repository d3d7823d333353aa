/** The settlement tally of one market or of a whole game (BetResults), its field-wise
    combination, and its display text. */
module Results {
  import opened Common
  import opened Money

  /** Wins, losses and pushes counted over the settled sides, and the signed net amount won.
      The counters are plain integers, as in the source; that they never go negative is proved
      of the settlement functions. */
  datatype BetResults = BetResults(wins: int, losses: int, pushes: int, net: real)

  /** `BetResults()`: every field at its default 0. */
  const Zero: BetResults := BetResults(0, 0, 0, 0.0)

  /** The result of a market that pushed: one push and no money moved. */
  const Push: BetResults := BetResults(0, 0, 1, 0.0)

  /** The combination `+=` that the settlement engine folds results with: field by field. */
  function Add(a: BetResults, b: BetResults): BetResults {
    BetResults(a.wins + b.wins, a.losses + b.losses, a.pushes + b.pushes, a.net + b.net)
  }

  lemma AddZero(r: BetResults)
    ensures Add(Zero, r) == r && Add(r, Zero) == r
  {
  }

  lemma AddCommutes(a: BetResults, b: BetResults)
    ensures Add(a, b) == Add(b, a)
  {
  }

  lemma AddAssociates(a: BetResults, b: BetResults, c: BetResults)
    ensures Add(Add(a, b), c) == Add(a, Add(b, c))
  {
  }

  /** The field-wise sum of a sequence of results, folded from the left starting at Zero. */
  function Sum(rs: seq<BetResults>): BetResults {
    if rs == [] then Zero
    else
      var t, r := Sum(rs[..|rs| - 1]), rs[|rs| - 1];
      BetResults(t.wins + r.wins, t.losses + r.losses, t.pushes + r.pushes, t.net + r.net)
  }

  /** Summing one more result is one more `+=`. */
  lemma SumAppend(rs: seq<BetResults>, r: BetResults)
    ensures Sum(rs + [r]) == Add(Sum(rs), r)
  {
    assert (rs + [r])[..|rs|] == rs;
  }

  /** The sum of a game's three market results is their field-wise total. */
  lemma SumOfThree(a: BetResults, b: BetResults, c: BetResults)
    ensures Sum([a, b, c]) == BetResults(a.wins + b.wins + c.wins, a.losses + b.losses + c.losses,
                                         a.pushes + b.pushes + c.pushes, a.net + b.net + c.net)
  {
    assert [a][..0] == [];
    assert Sum([a]) == a;
    assert [a, b][..1] == [a];
    assert Sum([a, b]) == BetResults(a.wins + b.wins, a.losses + b.losses, a.pushes + b.pushes, a.net + b.net);
    assert [a, b, c][..2] == [a, b];
  }

  /** Sums add up over concatenation, so the order of folding does not matter. */
  lemma {:induction false} SumConcat(a: seq<BetResults>, b: seq<BetResults>)
    ensures Sum(a + b) == Add(Sum(a), Sum(b))
    decreases |b|
  {
    if b == [] {
      assert a + b == a;
      AddZero(Sum(a));
    } else {
      var b0, last := b[..|b| - 1], b[|b| - 1];
      assert a + b == (a + b0) + [last];
      assert b == b0 + [last];
      SumAppend(a + b0, last);
      SumConcat(a, b0);
      SumAppend(b0, last);
      AddAssociates(Sum(a), Sum(b0), last);
    }
  }

  /** A sequence of market results, each with at most one push and at most two counted sides,
      sums to at most one push per result and at most two counted sides per result. */
  lemma {:induction false} SumBounds(rs: seq<BetResults>)
    requires forall i :: 0 <= i < |rs| ==> 0 <= rs[i].pushes <= 1 && rs[i].wins >= 0 && rs[i].losses >= 0
    requires forall i :: 0 <= i < |rs| ==> rs[i].wins + rs[i].losses + rs[i].pushes <= 2
    ensures 0 <= Sum(rs).pushes <= |rs|
    ensures Sum(rs).wins >= 0 && Sum(rs).losses >= 0
    ensures Sum(rs).wins + Sum(rs).losses + Sum(rs).pushes <= 2 * |rs|
  {
    if rs != [] {
      var front := rs[..|rs| - 1];
      assert forall i :: 0 <= i < |front| ==> front[i] == rs[i];
      SumBounds(front);
    }
  }

  // ---- display text: "{wins}-{losses}-{pushes} ${net:,.2f}" ----

  predicate IsDigit(c: char) {
    '0' <= c <= '9'
  }

  predicate AllDigits(s: string) {
    forall i :: 0 <= i < |s| ==> IsDigit(s[i])
  }

  function Digit(d: nat): (c: char)
    requires d < 10
    ensures IsDigit(c) && (c as int) - ('0' as int) == d
  {
    ('0' as int + d) as char
  }

  /** The decimal digits of n, as Python's `str` and `format` write a non-negative int. */
  function NatText(n: nat): (s: string)
    ensures |s| >= 1 && AllDigits(s)
  {
    if n < 10 then [Digit(n)] else NatText(n / 10) + [Digit(n % 10)]
  }

  /** The `,` option of a format: a comma between every three digits, counted from the right. */
  function Grouped(s: string): (g: string)
    decreases |s|
  {
    if |s| <= 3 then s else Grouped(s[..|s| - 3]) + "," + s[|s| - 3..]
  }

  /** `{:,.2f}` of a non-negative number of cents: the grouped whole part, a point and two digits. */
  function UnsignedAmount(c: nat): string {
    Grouped(NatText(c / 100)) + "." + [Digit(c % 100 / 10), Digit(c % 10)]
  }

  /** `{:,.2f}` of x: an optional minus sign, then x's magnitude to the cent. Python keeps the
      sign of a negative amount even where it rounds to 0.00. */
  function Amount(x: real): string {
    (if x < 0.0 then "-" else "") + UnsignedAmount(Cents(if x < 0.0 then -x else x))
  }

  /** `str` of an int: a minus sign before the digits of a negative number. */
  function IntText(n: int): (s: string)
    ensures |s| >= 1
    ensures n >= 0 ==> AllDigits(s) && DigitsValue(s) == n
    ensures n < 0 ==> s[0] == '-' && AllDigits(s[1..]) && DigitsValue(s[1..]) == -n
  {
    if n < 0 then
      NatTextValue(-n);
      assert ("-" + NatText(-n))[1..] == NatText(-n);
      "-" + NatText(-n)
    else
      NatTextValue(n);
      NatText(n)
  }

  /** `BetResults.__str__`. The net follows the literal dollar sign, so a loss reads "$-100.00". */
  function Text(r: BetResults): string {
    IntText(r.wins) + "-" + IntText(r.losses) + "-" + IntText(r.pushes) + " $" + Amount(r.net)
  }

  // ---- reading a rendered amount back ----

  /** The value of a string of decimal digits. */
  function DigitsValue(s: string): nat
    requires AllDigits(s)
  {
    if s == [] then 0 else DigitsValue(s[..|s| - 1]) * 10 + ((s[|s| - 1] as int) - ('0' as int))
  }

  /** s without its commas and decimal points. */
  function DropPunctuation(s: string): (t: string)
    ensures |t| <= |s|
  {
    if s == [] then []
    else (if s[0] == ',' || s[0] == '.' then [] else [s[0]]) + DropPunctuation(s[1..])
  }

  /** The number of cents an amount text stands for: its sign applied to its digits. */
  function TextCents(t: string): Option<int> {
    var neg := |t| > 0 && t[0] == '-';
    var body := DropPunctuation(if neg then t[1..] else t);
    if AllDigits(body) then
      var v: int := DigitsValue(body);
      Some(if neg then -v else v)
    else None
  }

  lemma {:induction false} NatTextValue(n: nat)
    ensures DigitsValue(NatText(n)) == n
  {
    if n >= 10 {
      NatTextValue(n / 10);
      var s := NatText(n);
      assert s[..|s| - 1] == NatText(n / 10);
    }
  }

  lemma {:induction false} DropPunctuationAppend(a: string, b: string)
    ensures DropPunctuation(a + b) == DropPunctuation(a) + DropPunctuation(b)
  {
    if a != [] {
      assert (a + b)[0] == a[0] && (a + b)[1..] == a[1..] + b;
      DropPunctuationAppend(a[1..], b);
      var lead := if a[0] == ',' || a[0] == '.' then [] else [a[0]];
      calc {
        DropPunctuation(a + b);
        lead + DropPunctuation(a[1..] + b);
        lead + (DropPunctuation(a[1..]) + DropPunctuation(b));
        (lead + DropPunctuation(a[1..])) + DropPunctuation(b);
        DropPunctuation(a) + DropPunctuation(b);
      }
    } else {
      assert a + b == b;
    }
  }

  lemma {:induction false} DropPunctuationDigits(s: string)
    requires AllDigits(s)
    ensures DropPunctuation(s) == s
  {
    if s != [] {
      DropPunctuationDigits(s[1..]);
    }
  }

  /** Grouping a digit string only inserts commas. */
  lemma {:induction false} UngroupGrouped(s: string)
    requires AllDigits(s)
    ensures DropPunctuation(Grouped(s)) == s
    decreases |s|
  {
    if |s| <= 3 {
      DropPunctuationDigits(s);
    } else {
      var head, tail := s[..|s| - 3], s[|s| - 3..];
      assert AllDigits(head) && AllDigits(tail) by {
        forall i | 0 <= i < |head| ensures IsDigit(head[i]) { assert head[i] == s[i]; }
        forall i | 0 <= i < |tail| ensures IsDigit(tail[i]) { assert tail[i] == s[|s| - 3 + i]; }
      }
      assert Grouped(s) == Grouped(head) + "," + tail;
      UngroupGrouped(head);
      DropPunctuationAppend(Grouped(head) + ",", tail);
      DropPunctuationAppend(Grouped(head), ",");
      assert DropPunctuation(",") == [];
      DropPunctuationDigits(tail);
      assert head + tail == s;
    }
  }

  lemma DigitsValueAppend(s: string, d: nat)
    requires AllDigits(s) && d < 10
    ensures AllDigits(s + [Digit(d)]) && DigitsValue(s + [Digit(d)]) == DigitsValue(s) * 10 + d
  {
    assert (s + [Digit(d)])[..|s|] == s;
  }

  /** Without its punctuation, a rendered amount is the whole part's digits and the two cent digits. */
  lemma UngroupAmount(c: nat)
    ensures DropPunctuation(UnsignedAmount(c)) == NatText(c / 100) + [Digit(c % 100 / 10), Digit(c % 10)]
  {
    var whole := NatText(c / 100);
    var frac := [Digit(c % 100 / 10), Digit(c % 10)];
    assert UnsignedAmount(c) == (Grouped(whole) + ".") + frac;
    DropPunctuationAppend(Grouped(whole) + ".", frac);
    DropPunctuationAppend(Grouped(whole), ".");
    assert DropPunctuation(".") == [];
    UngroupGrouped(whole);
    DropPunctuationDigits(frac);
  }

  lemma UnsignedAmountReadsBack(c: nat)
    ensures var body := DropPunctuation(UnsignedAmount(c)); AllDigits(body) && DigitsValue(body) == c
    ensures |UnsignedAmount(c)| > 0 && IsDigit(UnsignedAmount(c)[0])
  {
    var whole := NatText(c / 100);
    var d1, d2 := c % 100 / 10, c % 10;
    UngroupAmount(c);
    assert whole + [Digit(d1), Digit(d2)] == (whole + [Digit(d1)]) + [Digit(d2)];
    NatTextValue(c / 100);
    DigitsValueAppend(whole, d1);
    DigitsValueAppend(whole + [Digit(d1)], d2);
    GroupedStartsWithDigit(whole);
    assert UnsignedAmount(c)[0] == Grouped(whole)[0];
  }

  /** The rendered amount stands for the net rounded to the cent: reading it back gives the
      signed number of cents nearest |x|, within half a cent of x. */
  lemma AmountReadsBack(x: real)
    ensures TextCents(Amount(x)) == Some(if x < 0.0 then -Cents(-x) else Cents(x))
    ensures -0.5 <= (if x < 0.0 then -Cents(-x) else Cents(x)) as real - x * 100.0 <= 0.5
  {
    var c := Cents(if x < 0.0 then -x else x);
    UnsignedAmountReadsBack(c);
    var u := UnsignedAmount(c);
    if x < 0.0 {
      assert Amount(x)[0] == '-' && Amount(x)[1..] == u;
    } else {
      assert Amount(x) == u;
    }
  }

  lemma {:induction false} GroupedStartsWithDigit(s: string)
    requires |s| >= 1 && AllDigits(s)
    ensures |Grouped(s)| >= 1 && IsDigit(Grouped(s)[0])
    decreases |s|
  {
    if |s| > 3 {
      GroupedStartsWithDigit(s[..|s| - 3]);
    }
  }

  lemma DigitChars()
    ensures Digit(0) == '0' && Digit(1) == '1' && Digit(2) == '2' && Digit(3) == '3' && Digit(4) == '4'
    ensures Digit(5) == '5' && Digit(9) == '9'
  {
  }

  /** A win at -110 on 100 displays as in the source's docstring example. */
  lemma TextOfWin()
    ensures Text(BetResults(1, 0, 0, 90.91)) == "1-0-0 $90.91"
  {
    DigitChars();
    assert NatText(1) == "1" && NatText(0) == "0";
    assert Cents(90.91) == 9091;
    assert NatText(90) == NatText(9) + [Digit(0)] == "90";
    assert UnsignedAmount(9091) == "90.91";
  }

  /** A lost stake of 100 shows its minus sign after the dollar sign. */
  lemma TextOfLoss()
    ensures Text(BetResults(0, 1, 0, -100.0)) == "0-1-0 $-100.00"
  {
    DigitChars();
    assert NatText(1) == "1" && NatText(0) == "0";
    assert Cents(100.0) == 10000;
    assert NatText(10) == NatText(1) + [Digit(0)] == "10";
    assert NatText(100) == NatText(10) + [Digit(0)] == "100";
    assert UnsignedAmount(10000) == "100.00";
  }

  /** Amounts of a thousand or more carry a thousands comma. */
  lemma AmountGroupsThousands()
    ensures Amount(1234.5) == "1,234.50"
  {
    DigitChars();
    assert Cents(1234.5) == 123450;
    assert NatText(12) == NatText(1) + [Digit(2)] == "12";
    assert NatText(123) == NatText(12) + [Digit(3)] == "123";
    assert NatText(1234) == NatText(123) + [Digit(4)] == "1234";
    var t := "1234";
    assert |t| == 4 && t[..1] == "1" && t[1..] == "234";
    assert Grouped(t) == Grouped("1") + "," + "234";
    assert Grouped("1") == "1";
    assert 123450 / 100 == 1234 && 123450 % 100 / 10 == 5 && 123450 % 10 == 0;
    assert UnsignedAmount(123450) == "1,234" + "." + "50";
  }
}
