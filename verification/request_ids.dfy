/** The 16-bit request id generator shared by every request of a client. */
module RequestIds {

  const UINT16: nat := 0x1_0000

  /** _tbcmh_get_request_id: increment a uint16_t and skip the value 0. */
  function Next(current: nat): (id: nat)
    requires current < UINT16
    ensures 0 < id < UINT16
  {
    var incremented := (current + 1) % UINT16;
    if incremented <= 0 then 1 else incremented
  }

  /** The k-th id handed out, counted from 1; 0 stands for a generator that has not been used. */
  function IdAt(k: nat): nat {
    if k == 0 then 0 else (k - 1) % (UINT16 - 1) + 1
  }

  function Generated(k: nat): (id: nat)
    ensures id < UINT16
  {
    if k == 0 then 0 else Next(Generated(k - 1))
  }

  lemma NextIdAt(k: nat)
    ensures IdAt(k) < UINT16 && Next(IdAt(k)) == IdAt(k + 1)
  {
    if k > 0 {
      var q, last := (k - 1) / 65535, (k - 1) % 65535;
      assert k == if last + 1 < 65535 then q * 65535 + (last + 1) else (q + 1) * 65535;
      assert k % 65535 == if last + 1 < 65535 then last + 1 else 0;
    }
  }

  /** The generator's k-th id is ((k-1) mod 65535) + 1, so it is never 0. */
  lemma {:induction false} GeneratedIsIdAt(k: nat)
    ensures Generated(k) == IdAt(k)
    ensures k > 0 ==> 1 <= Generated(k) <= 65535
  {
    if k > 0 {
      GeneratedIsIdAt(k - 1);
      NextIdAt(k - 1);
    }
  }

  /** Two draws give the same id if and only if they are a multiple of 65535 draws apart. */
  lemma IdsEqualExactly(i: nat, j: nat)
    requires 1 <= i <= j
    ensures IdAt(i) == IdAt(j) <==> (j - i) % 65535 == 0
  {
    var a, b := (i - 1) / 65535, (j - 1) / 65535;
    assert IdAt(i) == IdAt(j) ==> j - i == (b - a) * 65535;
  }
}
