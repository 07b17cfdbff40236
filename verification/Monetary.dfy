/** Integer minor-unit money with an explicit currency. */
module Monetary {
  import opened Identifiers

  datatype Money = Money(amount: nat, currency: string)

  predicate IsLetter(c: char) { 'A' <= c <= 'Z' || 'a' <= c <= 'z' }

  predicate IsUpper(c: char) { 'A' <= c <= 'Z' }

  /** What `str.strip` removes, among the ASCII characters: also tab, feeds, and the four separators. */
  predicate IsBlank(c: char) { 9 <= c as int <= 13 || 28 <= c as int <= 32 }

  function UpperChar(c: char): (u: char)
    ensures IsLetter(u) <==> IsLetter(c)
    ensures IsUpper(c) ==> u == c
  {
    if 'a' <= c <= 'z' then (c as int - 32) as char else c
  }

  function Upper(s: string): (u: string)
    ensures |u| == |s| && forall i :: 0 <= i < |s| ==> u[i] == UpperChar(s[i])
  {
    if s == [] then [] else [UpperChar(s[0])] + Upper(s[1..])
  }

  function StripLeft(s: string): string {
    if s != [] && IsBlank(s[0]) then StripLeft(s[1..]) else s
  }

  function StripRight(s: string): string {
    if s != [] && IsBlank(s[|s| - 1]) then StripRight(s[..|s| - 1]) else s
  }

  function Strip(s: string): string { StripRight(StripLeft(s)) }

  /** `^[A-Z]{3}$`, as the quote and the Cashfree request require it. */
  predicate IsoCurrency(s: string) {
    |s| == 3 && forall i :: 0 <= i < 3 ==> IsUpper(s[i])
  }

  predicate ThreeLetters(s: string) {
    |s| == 3 && forall i :: 0 <= i < 3 ==> IsLetter(s[i])
  }

  /** The constructor: normalises the currency, refuses a negative amount or a bad code. */
  function MakeMoney(amount: int, currency: string): (m: Option<Money>) {
    var normal := Upper(Strip(currency));
    if amount < 0 || !ThreeLetters(normal) then None else Some(Money(amount, normal))
  }

  lemma IsoCurrencyIsNormal(s: string)
    requires IsoCurrency(s)
    ensures Upper(Strip(s)) == s
  {
    assert StripLeft(s) == s;
    assert StripRight(s) == s;
  }
}
