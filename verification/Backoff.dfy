/** The waits between successive reconnects (src/rpc/rpc.js, config.js), over the rationals. */
module Backoff {
  const BASE := 250.0
  const FACTOR := 1.2
  const MAX := 5000.0

  function Min(a: real, b: real): real { if a <= b then a else b }

  function Pow(k: nat): real { if k == 0 then 1.0 else FACTOR * Pow(k - 1) }

  /** The wait after k reconnects in a row did not succeed. */
  function Wait(k: nat): real { Min(BASE * Pow(k), MAX) }

  /** What one reconnect leaves for the next one. */
  function Increased(backoff: real): real { Min(backoff * FACTOR, MAX) }

  /** The backoff a connection carries after k reconnects in a row; 0 when there was none. */
  function Carried(k: nat): real { if k == 0 then 0.0 else Wait(k) }

  function Delay(carried: real): real { if carried == 0.0 then BASE else carried }

  lemma {:induction false} PowGrows(j: nat, k: nat)
    requires j <= k
    ensures 1.0 <= Pow(j) <= Pow(k)
    decreases k
  {
    if j < k {
      PowGrows(j, k - 1);
    } else if k > 0 {
      PowGrows(k - 1, k - 1);
    }
  }

  /** Cutting at the maximum in every step is the same as cutting once at the end. */
  lemma DelayIsWait(k: nat)
    ensures Delay(Carried(k)) == Wait(k) && Increased(Wait(k)) == Wait(k + 1) == Carried(k + 1)
  {
    PowGrows(0, k);
  }

  lemma {:induction false} PowBounds()
    ensures BASE * Pow(16) < MAX <= BASE * Pow(17)
  {
    assert Pow(4) == 2.0736;
    assert Pow(8) == 2.0736 * 2.0736;
    assert Pow(12) == 2.0736 * 2.0736 * 2.0736;
    assert Pow(16) == 2.0736 * 2.0736 * 2.0736 * 2.0736;
  }

  /** The waits never shrink, and from the eighteenth on they are the maximum. */
  lemma WaitsGrowToMax(j: nat, k: nat)
    requires j <= k
    ensures BASE <= Wait(j) <= Wait(k) <= MAX
    ensures Wait(k) == MAX <==> 17 <= k
  {
    PowGrows(j, k);
    PowBounds();
    if k <= 16 {
      PowGrows(k, 16);
    } else {
      PowGrows(17, k);
    }
  }
}
