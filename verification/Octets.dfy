/** Eight-bit values as numbers and back. */
module Octets {

  lemma {:induction false} ByteRoundTrips(n: nat)
    requires n < 256
    ensures (n as bv8) as int == n
  {
    if n > 0 {
      ByteRoundTrips(n - 1);
      var b := (n - 1) as bv8;
      NextByte(b);
      NumberRoundTrips(b + 1);
    }
  }

  lemma NextByte(b: bv8)
    requires b != 255
    ensures (b + 1) as int == b as int + 1
  {
  }

  lemma NumberRoundTrips(b: bv8)
    ensures (b as int) as bv8 == b
  {
  }
}
