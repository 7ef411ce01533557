/** Decimal print and parse of the creation number, and the order the snapshot is sorted by. */
module Decimal {
  import opened Wrappers

  type ID = string

  function DigitChar(d: nat): char
    requires d < 10
  {
    ['0', '1', '2', '3', '4', '5', '6', '7', '8', '9'][d]
  }

  function DigitValue(c: char): Option<nat> {
    if '0' <= c <= '9' then Some(c as int - '0' as int) else None
  }

  /** `strconv.Itoa` on a non-negative number. */
  function Itoa(n: nat): (s: string)
    ensures s != ""
  {
    if n < 10 then [DigitChar(n)] else Itoa(n / 10) + [DigitChar(n % 10)]
  }

  /** `strconv.Atoi` on unsigned digits; anything else is an error. */
  function Atoi(s: string): Option<nat> {
    if s == "" then
      None
    else
      match DigitValue(s[|s| - 1])
      case None => None
      case Some(d) =>
        if |s| == 1 then Some(d)
        else
          match Atoi(s[..|s| - 1])
          case None => None
          case Some(high) => Some(10 * high + d)
  }

  lemma {:induction false} AtoiItoa(n: nat)
    ensures Atoi(Itoa(n)) == Some(n)
  {
    if n < 10 {
    } else {
      AtoiItoa(n / 10);
      var s := Itoa(n);
      assert s[..|s| - 1] == Itoa(n / 10);
    }
  }

  /** Two different creation numbers never print as the same id. */
  lemma ItoaInjective(m: nat, n: nat)
    requires Itoa(m) == Itoa(n)
    ensures m == n
  {
    AtoiItoa(m);
    AtoiItoa(n);
  }

  /** `strings.Compare`: byte order, a proper prefix first. */
  function CompareText(a: string, b: string): int {
    if a == "" && b == "" then 0
    else if a == "" then -1
    else if b == "" then 1
    else if a[0] < b[0] then -1
    else if a[0] > b[0] then 1
    else CompareText(a[1..], b[1..])
  }

  function CompareNumbers(m: nat, n: nat): int {
    if m < n then -1 else if m > n then 1 else 0
  }

  /** `viewLess`: numeric order when both ids parse, text order otherwise. */
  function ViewLess(a: ID, b: ID): int {
    match (Atoi(a), Atoi(b))
    case (Some(m), Some(n)) => CompareNumbers(m, n)
    case _ => CompareText(a, b)
  }

  /** On printed creation numbers `viewLess` is creation order. */
  lemma ViewLessIsCreationOrder(m: nat, n: nat)
    ensures ViewLess(Itoa(m), Itoa(n)) < 0 <==> m < n
    ensures ViewLess(Itoa(m), Itoa(n)) == 0 <==> m == n
  {
    AtoiItoa(m);
    AtoiItoa(n);
  }

  /** Text order would not do: it puts the tenth creation before the second. */
  lemma TextOrderIsNotCreationOrder()
    ensures CompareText(Itoa(10), Itoa(9)) < 0
    ensures ViewLess(Itoa(10), Itoa(9)) > 0
  {
    assert Itoa(10) == Itoa(1) + [DigitChar(0)] == "10";
    assert Itoa(9) == "9";
    ViewLessIsCreationOrder(10, 9);
  }
}
