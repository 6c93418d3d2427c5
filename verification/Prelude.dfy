// Small shared definitions.

module Prelude {

  datatype Option<+T> = None | Some(value: T)

  /** The decimal digits of a number, as String("%1").Arg(n) prints them. */
  function Decimal(n: nat): (s: string)
    ensures |s| > 0
    ensures forall c | c in s :: '0' <= c <= '9'
  {
    var digit := ['0' + (n % 10) as char];
    if n < 10 then digit else Decimal(n / 10) + digit
  }

  /** The number that a string of digits stands for. */
  function Value(digits: string): int {
    if digits == "" then 0
    else 10 * Value(digits[..|digits| - 1]) + (digits[|digits| - 1] as int - '0' as int)
  }

  /** The digits stand for the number, and the first of them is not a nought, unless it is
      the only one. */
  lemma {:induction false} DecimalReads(n: nat)
    ensures Value(Decimal(n)) == n && (n > 0 ==> Decimal(n)[0] != '0')
  {
    var s := Decimal(n);
    var digit := '0' + (n % 10) as char;
    if n >= 10 {
      DecimalReads(n / 10);
      assert s[..|s| - 1] == Decimal(n / 10) && s[|s| - 1] == digit;
    } else {
      assert s == [digit] && s[..0] == "";
    }
  }

  ghost predicate Distinct<T>(s: seq<T>) {
    forall i, j | 0 <= i < j < |s| :: s[i] != s[j]
  }

  lemma SubsetSize<T>(a: set<T>, b: set<T>)
    requires a <= b
    ensures |a| <= |b|
  {
    assert b == a + (b - a);
  }

  lemma Regroup<T>(a: seq<T>, b: seq<T>, c: seq<T>)
    ensures (a + b) + c == a + (b + c)
  {
  }

  /** Walking a list backwards and removing or keeping its i-th item. */
  lemma DropAt<T>(items: seq<T>, i: nat, kept: seq<T>)
    requires i < |items|
    ensures var now := items[..i + 1] + kept;
      && now[i] == items[i] && items[i] in items
      && now[..i] + now[i + 1..] == items[..i] + kept
      && now == items[..i] + ([items[i]] + kept)
  {
  }
}
