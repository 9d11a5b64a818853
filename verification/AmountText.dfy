/** Amounts as Tiger reads and writes them: hundredths printed with the format "0.##". */
module AmountText {

  function Digit(d: nat): char
    requires d < 10
  {
    ('0' as int + d) as char
  }

  function DigitValue(c: char): nat {
    if '0' <= c <= '9' then c as int - '0' as int else 0
  }

  function WholeText(n: nat): (s: string)
    ensures s != ""
    ensures forall i | 0 <= i < |s| :: s[i] != '.'
  {
    if n < 10 then [Digit(n)] else WholeText(n / 10) + [Digit(n % 10)]
  }

  function WholeValue(s: string): nat {
    if s == "" then 0 else 10 * WholeValue(s[..|s| - 1]) + DigitValue(s[|s| - 1])
  }

  /** FormatAmount of n hundredths: no trailing zeros, no decimal point for whole amounts. */
  function FormatAmount(n: nat): string {
    var whole, tenths, rest := WholeText(n / 100), n % 100 / 10, n % 10;
    if tenths == 0 && rest == 0 then whole
    else if rest == 0 then whole + ['.', Digit(tenths)]
    else whole + ['.', Digit(tenths), Digit(rest)]
  }

  /** Reading such a text back: the decimal point is one or two places from the end, or absent. */
  function ParseAmount(s: string): nat {
    var n := |s|;
    if n >= 3 && s[n - 2] == '.' then 100 * WholeValue(s[..n - 2]) + 10 * DigitValue(s[n - 1])
    else if n >= 4 && s[n - 3] == '.' then
      100 * WholeValue(s[..n - 3]) + 10 * DigitValue(s[n - 2]) + DigitValue(s[n - 1])
    else 100 * WholeValue(s)
  }

  lemma {:induction false} WholeRoundTrip(n: nat)
    ensures WholeValue(WholeText(n)) == n
  {
    if n >= 10 {
      WholeRoundTrip(n / 10);
      var s := WholeText(n);
      assert s[..|s| - 1] == WholeText(n / 10);
    }
  }

  /** No amount is changed by being written and read back. */
  lemma AmountRoundTrip(n: nat)
    ensures ParseAmount(FormatAmount(n)) == n
  {
    var whole, s := WholeText(n / 100), FormatAmount(n);
    WholeRoundTrip(n / 100);
    assert n == 100 * (n / 100) + 10 * (n % 100 / 10) + n % 10;
    if n % 100 == 0 {
      assert s == whole;
    } else if n % 10 == 0 {
      assert s[..|s| - 2] == whole;
    } else {
      assert s[..|s| - 3] == whole;
    }
  }

  /** The form "0.##": a whole amount has no point, any other ends in a digit that counts. */
  lemma AmountForm(n: nat)
    ensures n % 100 == 0 <==> '.' !in FormatAmount(n)
    ensures n % 100 != 0 ==>
              var s := FormatAmount(n); |s| >= 3 && s[|s| - 1] != '0' && (s[|s| - 2] == '.' || s[|s| - 3] == '.')
  {
  }
}
