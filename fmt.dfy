/**
 * The two parts of Rust's formatting machinery that the error messages rely on:
 * the decimal rendering of unsigned integers (`{}` applied to a `u64` or a
 * `usize`) and the substitution of positional `{}` holes in a display template
 * by already-rendered arguments, in order.
 */
module Fmt {

  predicate IsDigit(c: char) {
    '0' <= c <= '9'
  }

  predicate AllDigits(s: string) {
    forall i :: 0 <= i < |s| ==> IsDigit(s[i])
  }

  /** A decimal numeral as Rust prints one: at least one digit, no leading zero. */
  predicate Canonical(s: string) {
    |s| >= 1 && AllDigits(s) && (s[0] == '0' ==> |s| == 1)
  }

  function DigitValue(c: char): (d: nat)
    requires IsDigit(c)
    ensures d < 10
  {
    (c as int) - ('0' as int)
  }

  function Digit(d: nat): (c: char)
    requires d < 10
    ensures IsDigit(c) && DigitValue(c) == d
  {
    (('0' as int) + d) as char
  }

  /** The decimal rendering of `n`. */
  function Dec(n: nat): (s: string)
    ensures Canonical(s)
    ensures (s[0] == '0') == (n == 0)
  {
    if n < 10 then [Digit(n)] else Dec(n / 10) + [Digit(n % 10)]
  }

  /** The value of a string of decimal digits (the empty string has value 0). */
  function ParseDec(s: string): nat
    requires AllDigits(s)
  {
    if |s| == 0 then 0 else ParseDec(s[..|s| - 1]) * 10 + DigitValue(s[|s| - 1])
  }

  /** Rendering a number and reading the digits back gives the number. */
  lemma {:induction false} DecRoundTrip(n: nat)
    ensures ParseDec(Dec(n)) == n
  {
    var s := Dec(n);
    if n >= 10 {
      assert s[..|s| - 1] == Dec(n / 10);
      DecRoundTrip(n / 10);
    }
  }

  lemma {:induction false} ParsePositive(s: string)
    requires |s| >= 1 && AllDigits(s) && s[0] != '0'
    ensures ParseDec(s) >= 1
  {
    if |s| > 1 {
      ParsePositive(s[..|s| - 1]);
    }
  }

  /** Every canonical numeral is the rendering of its own value: Dec is onto the canonical numerals. */
  lemma {:induction false} ParseRoundTrip(s: string)
    requires Canonical(s)
    ensures Dec(ParseDec(s)) == s
  {
    if |s| > 1 {
      var p := s[..|s| - 1];
      var d := DigitValue(s[|s| - 1]);
      ParsePositive(p);
      ParseRoundTrip(p);
      var n := ParseDec(s);
      assert n == ParseDec(p) * 10 + d;
      assert n / 10 == ParseDec(p) && n % 10 == d;
      assert Digit(d) == s[|s| - 1];
      assert s == p + [s[|s| - 1]];
    }
  }

  /**
   * A display template cut at its holes together with the arguments for them:
   * `n + 1` pieces of literal text around `n` holes `{}`, the last piece
   * possibly empty, and the rendered arguments, the first for the first hole.
   * Rust refuses, when it compiles the program, a template whose holes and
   * arguments differ in number.
   */
  datatype Arguments = Arguments(pieces: seq<string>, args: seq<string>) {

    predicate WellFormed() {
      |pieces| == |args| + 1
    }

    /** The text with each hole filled by its argument. */
    function Render(): string
      requires WellFormed()
      decreases |args|
    {
      if |args| == 0 then pieces[0] else pieces[0] + args[0] + Arguments(pieces[1..], args[1..]).Render()
    }
  }

  // Rendering the templates of one, two, three, four and five holes.

  lemma Render1(l0: string, l1: string, a: string)
    ensures Arguments([l0, l1], [a]).Render() == l0 + a + l1
  {
  }

  lemma Render2(l0: string, l1: string, l2: string, a: string, b: string)
    ensures Arguments([l0, l1, l2], [a, b]).Render() == l0 + a + l1 + b + l2
  {
    assert [l0, l1, l2][1..] == [l1, l2];
    assert [a, b][1..] == [b];
    Render1(l1, l2, b);
  }

  lemma Render3(l0: string, l1: string, l2: string, l3: string, a: string, b: string, c: string)
    ensures Arguments([l0, l1, l2, l3], [a, b, c]).Render() == l0 + a + l1 + b + l2 + c + l3
  {
    assert [l0, l1, l2, l3][1..] == [l1, l2, l3];
    assert [a, b, c][1..] == [b, c];
    Render2(l1, l2, l3, b, c);
  }

  lemma Render4(l0: string, l1: string, l2: string, l3: string, l4: string,
                a: string, b: string, c: string, d: string)
    ensures Arguments([l0, l1, l2, l3, l4], [a, b, c, d]).Render()
      == l0 + a + l1 + b + l2 + c + l3 + d + l4
  {
    assert [l0, l1, l2, l3, l4][1..] == [l1, l2, l3, l4];
    assert [a, b, c, d][1..] == [b, c, d];
    Render3(l1, l2, l3, l4, b, c, d);
  }

  lemma Render5(l0: string, l1: string, l2: string, l3: string, l4: string, l5: string,
                a: string, b: string, c: string, d: string, e: string)
    ensures Arguments([l0, l1, l2, l3, l4, l5], [a, b, c, d, e]).Render()
      == l0 + a + l1 + b + l2 + c + l3 + d + l4 + e + l5
  {
    assert [l0, l1, l2, l3, l4, l5][1..] == [l1, l2, l3, l4, l5];
    assert [a, b, c, d, e][1..] == [b, c, d, e];
    Render4(l1, l2, l3, l4, l5, b, c, d, e);
  }
}
