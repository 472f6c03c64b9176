/** String helpers shared by the route handlers: JavaScript truthiness of an
    optional string, the `x || undefined` normalisation, prefix tests,
    newline joining and decimal rendering of a timestamp. */
module Text {
  import opened Wrappers

  /** `s.startsWith(prefix)` */
  predicate StartsWith(s: string, prefix: string) {
    |prefix| <= |s| && s[..|prefix|] == prefix
  }

  /** JavaScript truthiness of a string that may be null or undefined:
      only a present, non-empty string is truthy. */
  predicate Filled(o: Option<string>) {
    o.Some? && o.value != ""
  }

  /** `value || undefined`: an empty or missing string becomes absent. */
  function OrAbsent(o: Option<string>): (r: Option<string>)
    ensures r.Some? <==> Filled(o)
    ensures r.Some? ==> r == o
  {
    if Filled(o) then o else None
  }

  /** `value || fallback` for an optional string. */
  function OrDefault(o: Option<string>, fallback: string): (r: string)
    ensures Filled(o) ==> r == o.value
    ensures !Filled(o) ==> r == fallback
  {
    if Filled(o) then o.value else fallback
  }

  /** `items.join('\n')` */
  function JoinLines(items: seq<string>): (r: string)
    ensures |items| == 1 ==> r == items[0]
    ensures items == [] ==> r == ""
  {
    if |items| == 0 then ""
    else if |items| == 1 then items[0]
    else items[0] + "\n" + JoinLines(items[1..])
  }

  /** A joined string is empty only for no items or a single empty item:
      two or more items always leave at least one newline. */
  lemma {:induction false} JoinLinesEmpty(items: seq<string>)
    ensures JoinLines(items) == "" <==> |items| == 0 || (|items| == 1 && items[0] == "")
  {
    if |items| > 1 {
      assert JoinLines(items) == items[0] + "\n" + JoinLines(items[1..]);
      assert |JoinLines(items)| >= 1;
    }
  }

  predicate IsDigit(c: char) {
    '0' <= c <= '9'
  }

  /** The number a decimal digit character stands for. */
  function DigitValue(c: char): (d: nat)
    requires IsDigit(c)
    ensures d < 10
  {
    (c as int) - ('0' as int)
  }

  function DigitChar(d: nat): (c: char)
    requires d < 10
    ensures IsDigit(c)
    ensures DigitValue(c) == d
  {
    (('0' as int) + d) as char
  }

  /** The number a string of decimal digits denotes, read most significant
      digit first (`Number(s)` for such a string). */
  function DecimalValue(s: string): nat
    requires forall i :: 0 <= i < |s| ==> IsDigit(s[i])
  {
    if |s| == 0 then 0
    else 10 * DecimalValue(s[..|s| - 1]) + DigitValue(s[|s| - 1])
  }

  /** `String(n)` for a non-negative integer: its decimal digits, no sign,
      no leading zero, and read back they denote `n`. */
  function NatToDecimal(n: nat): (r: string)
    ensures r != []
    ensures forall i :: 0 <= i < |r| ==> IsDigit(r[i])
    ensures n >= 10 ==> r[0] != '0'
    ensures DecimalValue(r) == n
  {
    if n < 10 then [DigitChar(n)]
    else
      var r := NatToDecimal(n / 10) + [DigitChar(n % 10)];
      assert r[..|r| - 1] == NatToDecimal(n / 10);
      r
  }

}
