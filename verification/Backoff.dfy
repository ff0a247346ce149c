/** The reconnect delay of apps/desktop/src/sessions_ws.rs. */
module Backoff {

  const MIN_BACKOFF_MS: nat := 1_000
  const MAX_BACKOFF_MS: nat := 30_000
  const U64_MAX: nat := 0xFFFF_FFFF_FFFF_FFFF

  /** Doubles with saturation, then caps. */
  function NextBackoffMs(current: nat): nat {
    var doubled := if current * 2 > U64_MAX then U64_MAX else current * 2;
    if doubled < MAX_BACKOFF_MS then doubled else MAX_BACKOFF_MS
  }

  function Pow2(k: nat): nat {
    if k == 0 then 1 else 2 * Pow2(k - 1)
  }

  /** The delay doubled `k` times, at most half a minute. */
  function Wait(k: nat): nat {
    var d := MIN_BACKOFF_MS * Pow2(k);
    if d < MAX_BACKOFF_MS then d else MAX_BACKOFF_MS
  }

  lemma FirstWait()
    ensures Wait(0) == MIN_BACKOFF_MS
  {
  }

  /** Capping at every step comes to capping once. */
  lemma NextWait(k: nat)
    ensures NextBackoffMs(Wait(k)) == Wait(k + 1)
  {
    assert Pow2(k + 1) == 2 * Pow2(k);
  }
}
