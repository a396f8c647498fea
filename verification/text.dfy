/**
 * The string operations the TypeScript code relies on: rendering an integer
 * the way `Number.prototype.toString` and template literals do, `parseInt`
 * restricted to integer text, searching for a character, and splitting a
 * multi-line template into its lines.
 */
module Text {

  predicate IsDigitChar(c: char) {
    '0' <= c <= '9'
  }

  predicate AllDigits(s: string) {
    forall i | 0 <= i < |s| :: IsDigitChar(s[i])
  }

  /** Text that `parseInt` reads completely: an optional minus sign and at least one digit. */
  predicate IsIntegerText(s: string) {
    || (|s| > 0 && AllDigits(s))
    || (|s| > 1 && s[0] == '-' && AllDigits(s[1..]))
  }

  function DigitChar(d: nat): (c: char)
    requires d < 10
    ensures IsDigitChar(c)
  {
    ('0' as int + d) as char
  }

  function DigitValue(c: char): (d: nat)
    requires IsDigitChar(c)
    ensures d < 10 && DigitChar(d) == c
  {
    c as int - '0' as int
  }

  /** Decimal rendering of a non-negative integer, without leading zeros. */
  function NatToString(n: nat): (s: string)
    ensures |s| > 0 && AllDigits(s)
    ensures s[0] == '0' ==> n == 0
    ensures n == 0 ==> s == "0"
    decreases n
  {
    if n < 10 then [DigitChar(n)] else NatToString(n / 10) + [DigitChar(n % 10)]
  }

  /**
   * Decimal rendering of an integer in canonical form: a minus sign precedes
   * the digits of a negative one, and there is no leading zero and no "-0".
   */
  function IntToString(i: int): (s: string)
    ensures IsIntegerText(s)
    ensures s[0] == '0' ==> s == "0"
    ensures s[0] == '-' ==> s[1] != '0'
    ensures s[0] == '-' <==> i < 0
  {
    if i < 0 then "-" + NatToString(-i) else NatToString(i)
  }

  /** The value of a string of decimal digits (the empty string reads as 0). */
  function ParseDigits(s: string): nat
    requires AllDigits(s)
    decreases |s|
  {
    if |s| == 0 then 0 else ParseDigits(s[..|s| - 1]) * 10 + DigitValue(s[|s| - 1])
  }

  /** `parseInt` on integer text. */
  function ParseInt(s: string): (r: int)
    requires IsIntegerText(s)
    ensures r < 0 ==> s[0] == '-'
    ensures s[0] != '-' ==> r >= 0
  {
    if s[0] == '-' then -(ParseDigits(s[1..]) as int) else ParseDigits(s)
  }

  lemma {:induction false} ParseDigitsOfNatToString(n: nat)
    ensures ParseDigits(NatToString(n)) == n
    decreases n
  {
    var s := NatToString(n);
    if n < 10 {
      assert s[..|s| - 1] == [];
    } else {
      assert s[..|s| - 1] == NatToString(n / 10);
      ParseDigitsOfNatToString(n / 10);
    }
  }

  /** Reading back the rendering of any integer gives that integer. */
  lemma ParseIntOfIntToString(i: int)
    ensures IsIntegerText(IntToString(i))
    ensures ParseInt(IntToString(i)) == i
  {
    if i < 0 {
      var s := IntToString(i);
      assert s[0] == '-' && s[1..] == NatToString(-i);
      ParseDigitsOfNatToString(-i);
    } else {
      ParseDigitsOfNatToString(i);
    }
  }

  /** An integer of four decimal digits renders as exactly four characters. */
  lemma FourDigitLength(n: nat)
    requires 1000 <= n <= 9999
    ensures |NatToString(n)| == 4
  {
    assert NatToString(n) == NatToString(n / 10) + [DigitChar(n % 10)];
    assert NatToString(n / 10) == NatToString(n / 100) + [DigitChar(n / 10 % 10)];
    assert NatToString(n / 100) == NatToString(n / 1000) + [DigitChar(n / 100 % 10)];
  }

  /** An integer below 1000 renders as at most three characters. */
  lemma AtMostThreeDigits(n: nat)
    requires n <= 999
    ensures |NatToString(n)| <= 3
  {
    if n >= 10 {
      assert NatToString(n) == NatToString(n / 10) + [DigitChar(n % 10)];
      if n / 10 >= 10 {
        assert NatToString(n / 10) == NatToString(n / 100) + [DigitChar(n / 10 % 10)];
      }
    }
  }

  /** The first position of `c` in `s`, or `|s|` when `c` does not occur. */
  function IndexOf(s: string, c: char): (i: nat)
    ensures i <= |s|
    ensures i < |s| ==> s[i] == c
    ensures forall k | 0 <= k < i :: s[k] != c
    decreases |s|
  {
    if |s| == 0 then 0 else if s[0] == c then 0 else 1 + IndexOf(s[1..], c)
  }

  lemma IndexOfAfterPrefix(a: string, b: string, c: char)
    requires c !in a
    requires |b| > 0 && b[0] == c
    ensures IndexOf(a + b, c) == |a|
  {
    assert (a + b)[|a|] == c;
  }

  /** The lines of a multi-line text, joined by newline characters. */
  function JoinLines(lines: seq<string>): string
    decreases |lines|
  {
    if |lines| == 0 then ""
    else if |lines| == 1 then lines[0]
    else lines[0] + "\n" + JoinLines(lines[1..])
  }

  /** Splits a text at every newline character; a text without one is a single line. */
  function SplitLines(s: string): (lines: seq<string>)
    ensures |lines| > 0
    decreases |s|
  {
    var i := IndexOf(s, '\n');
    if i == |s| then [s] else [s[..i]] + SplitLines(s[i + 1..])
  }

  /** Splitting undoes joining, as long as no line holds a newline itself. */
  lemma {:induction false} SplitJoinLines(lines: seq<string>)
    requires |lines| > 0
    requires forall line | line in lines :: '\n' !in line
    ensures SplitLines(JoinLines(lines)) == lines
    decreases |lines|
  {
    if |lines| == 1 {
      var s := lines[0];
      assert s in lines;
      assert forall k | 0 <= k < |s| :: s[k] != '\n';
    } else {
      assert lines[0] in lines;
      var rest := JoinLines(lines[1..]);
      var s := lines[0] + "\n" + rest;
      assert s == lines[0] + ("\n" + rest);
      IndexOfAfterPrefix(lines[0], "\n" + rest, '\n');
      assert s[..|lines[0]|] == lines[0];
      assert s[|lines[0]| + 1..] == rest;
      SplitJoinLines(lines[1..]);
      assert lines == [lines[0]] + lines[1..];
    }
  }
}
