/**
 * The relative URLs the API facade requests: fixed collection paths and the
 * member paths built with an f-string from an integer id, whose `{id}` is
 * Python's `str(int)`, the decimal numeral with a leading `-` when negative.
 */
module Urls {
  import opened Wrappers

  predicate IsDigit(c: char) {
    '0' <= c <= '9'
  }

  function DigitChar(d: nat): (c: char)
    requires d < 10
    ensures IsDigit(c) && DigitValue(c) == d
  {
    ('0' as int + d) as char
  }

  function DigitValue(c: char): nat
    requires IsDigit(c)
  {
    c as int - '0' as int
  }

  /** The decimal numeral of `n`, most significant digit first, without leading zeros. */
  function NatDecimal(n: nat): (s: string)
    ensures |s| >= 1
    ensures forall i :: 0 <= i < |s| ==> IsDigit(s[i])
    ensures s[0] == '0' ==> n == 0
    decreases n
  {
    if n < 10 then [DigitChar(n)] else NatDecimal(n / 10) + [DigitChar(n % 10)]
  }

  /** `str(n)` for a Python `int`. */
  function Decimal(n: int): (s: string)
    ensures |s| >= 1
    ensures s[0] == '-' <==> n < 0
    ensures n >= 0 ==> IsDigit(s[0])
    ensures forall i :: 0 < i < |s| ==> IsDigit(s[i])
    ensures '/' !in s
  {
    if n < 0 then "-" + NatDecimal(-n) else NatDecimal(n)
  }

  /** The value of a string of digits, read from the left. */
  function DigitsValue(s: string): nat
    requires forall i :: 0 <= i < |s| ==> IsDigit(s[i])
  {
    if s == [] then 0 else DigitsValue(s[..|s| - 1]) * 10 + DigitValue(s[|s| - 1])
  }

  /** `int(s)` restricted to what `str` produces: optional `-`, then at least one digit. */
  function ParseDecimal(s: string): Option<int> {
    if |s| >= 2 && s[0] == '-' && forall i :: 1 <= i < |s| ==> IsDigit(s[i]) then Some(0 - DigitsValue(s[1..]))
    else if |s| >= 1 && forall i :: 0 <= i < |s| ==> IsDigit(s[i]) then Some(DigitsValue(s))
    else None
  }

  lemma {:induction false} DigitsValueOfNatDecimal(n: nat)
    ensures DigitsValue(NatDecimal(n)) == n
    decreases n
  {
    if n >= 10 {
      var s := NatDecimal(n);
      assert s[..|s| - 1] == NatDecimal(n / 10);
      DigitsValueOfNatDecimal(n / 10);
    }
  }

  /** Reading back the numeral of an id gives the id: `int(str(n)) == n`. */
  lemma DecimalRoundTrip(n: int)
    ensures ParseDecimal(Decimal(n)) == Some(n)
  {
    var s := Decimal(n);
    if n < 0 {
      assert s[1..] == NatDecimal(-n);
      DigitsValueOfNatDecimal(-n);
    } else {
      assert IsDigit(s[0]);
      DigitsValueOfNatDecimal(n);
    }
  }

  /** A collection path, as the list accessors request it: `"<collection>/"`. */
  function CollectionUrl(collection: string): (u: string)
    ensures |u| == |collection| + 1 && u[..|collection|] == collection && u[|collection|] == '/'
  {
    collection + "/"
  }

  /** `f"<collection>/{id}/"`: the path of one member of a collection. */
  function MemberUrl(collection: string, id: int): (u: string)
    ensures |u| >= |collection| + 3
    ensures u[..|collection| + 1] == CollectionUrl(collection)
    ensures u[|u| - 1] == '/'
    ensures ParseDecimal(u[|collection| + 1..|u| - 1]) == Some(id)
  {
    var u := CollectionUrl(collection) + Decimal(id) + "/";
    assert u[|collection| + 1..|u| - 1] == Decimal(id);
    DecimalRoundTrip(id);
    u
  }

  /** `f"traps/{trap_id}/history/"`: the activity log of one trap. */
  function TrapHistoryUrl(trapId: int): (u: string)
    ensures |u| >= 15
    ensures u[..6] == "traps/"
    ensures u[|u| - 9..] == "/history/"
    ensures ParseDecimal(u[6..|u| - 9]) == Some(trapId)
  {
    var d := Decimal(trapId);
    var u := "traps/" + d + "/history/";
    assert u[..6] == "traps/";
    assert u[6..|u| - 9] == d;
    assert u[|u| - 9..] == "/history/";
    DecimalRoundTrip(trapId);
    u
  }

  /** Different ids give different member paths of the same collection. */
  lemma MemberUrlInjective(collection: string, a: int, b: int)
    requires MemberUrl(collection, a) == MemberUrl(collection, b)
    ensures a == b
  {
  }

  /** Different trap ids give different history paths. */
  lemma TrapHistoryUrlInjective(a: int, b: int)
    requires TrapHistoryUrl(a) == TrapHistoryUrl(b)
    ensures a == b
  {
  }
}
