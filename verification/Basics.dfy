/** Small facts about sequences and numbers shared by the modules of the model. */
module Basics {
  lemma {:induction false} Cat<T>(a: seq<T>, b: seq<T>, c: seq<T>)
    ensures a + b + c == a + (b + c)
  {}

  /** The bytes of a number, the lowest first. */
  lemma {:induction false} Digits(n: nat, a: nat, b: nat)
    requires a == n / 0x100 && b == n / 0x1_0000
    ensures n == a * 0x100 + n % 0x100
    ensures a == b * 0x100 + a % 0x100
    ensures b == n / 0x100_0000 * 0x100 + b % 0x100
  {}
}
