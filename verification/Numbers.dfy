/** Decimal text of unsigned numbers, as the standard library prints and reads it.
 */
module Numbers {
  import opened Wrappers

  predicate Digit(c: char) { '0' <= c <= '9' }

  predicate AllDigits(s: string) {
    forall i :: 0 <= i < |s| ==> Digit(s[i])
  }

  function Value(s: string): nat
    requires AllDigits(s)
  {
    if s == [] then 0 else 10 * Value(s[..|s| - 1]) + (s[|s| - 1] as int - '0' as int)
  }

  /** Reading a number no greater than `max`: one plus sign is allowed, no other sign and no space. */
  function ParseUnsigned(s: string, max: nat): (r: Option<nat>)
    ensures r.Some? ==> r.value <= max
  {
    var t := if |s| > 1 && s[0] == '+' then s[1..] else s;
    if t == [] || !AllDigits(t) || Value(t) > max then None else Some(Value(t))
  }

  function PrintNat(n: nat): (s: string)
    ensures s != [] && AllDigits(s) && Value(s) == n
  {
    var last := [('0' as int + n % 10) as char];
    if n < 10 then last else
      var s := PrintNat(n / 10);
      assert (s + last)[..|s|] == s;
      s + last
  }
}
