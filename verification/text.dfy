/** String helpers standing in for Python's `str.join` and `str(int)`. */
module Text {

  /** `sep.join(parts)`: the parts with `sep` between consecutive ones. */
  function Join(sep: string, parts: seq<string>): string
  {
    if parts == [] then ""
    else if |parts| == 1 then parts[0]
    else parts[0] + sep + Join(sep, parts[1..])
  }

  /** Appending one part adds the separator and the part at the end. */
  lemma {:induction false} JoinSnoc(sep: string, parts: seq<string>, last: string)
    requires parts != []
    ensures Join(sep, parts + [last]) == Join(sep, parts) + sep + last
  {
    if |parts| > 1 {
      assert (parts + [last])[1..] == parts[1..] + [last];
      JoinSnoc(sep, parts[1..], last);
    } else {
      assert parts + [last] == [parts[0], last];
    }
  }

  /** Decimal digit of `d`. */
  function Digit(d: nat): char
    requires d < 10
  {
    "0123456789"[d]
  }

  /** `str(n)` for a non-negative integer: its decimal digits, most significant first. */
  function NatText(n: nat): string
  {
    if n < 10 then [Digit(n)] else NatText(n / 10) + [Digit(n % 10)]
  }

  /** `10 ** k`. */
  function Pow10(k: nat): nat
  {
    if k == 0 then 1 else 10 * Pow10(k - 1)
  }

  /** A number of at least `10 ** k` has more than `k` decimal digits. */
  lemma {:induction false} NatTextLong(n: nat, k: nat)
    requires n >= Pow10(k)
    ensures |NatText(n)| > k
  {
    if k > 0 {
      assert n >= 10 * Pow10(k - 1);
      assert n / 10 >= Pow10(k - 1);
      NatTextLong(n / 10, k - 1);
    }
  }

  /** `str(i)` for a Python `int`. */
  function DecimalText(i: int): string
  {
    if i < 0 then "-" + NatText(-i) else NatText(i)
  }
}
