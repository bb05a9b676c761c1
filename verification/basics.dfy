/** Types, limits and text comparison shared by the whole client. */
module Basics {

  type byte = bv8

  const UINT32: nat := 0x1_0000_0000

  /** TB_MQTT_TIMEOUT: seconds after which an unanswered request is given up. */
  const TIMEOUT: nat := 30

  /** MAX_TBCM_RX_MSG_LENGTH: the longest payload the client takes in. */
  const MAX_RX_MSG_LENGTH: nat := 128 * 1024

  function LowerCase(c: char): char {
    if 'A' <= c <= 'Z' then (c as nat + 32) as char else c
  }

  /** strcasecmp(a, b) == 0 */
  predicate SameText(a: string, b: string) {
    |a| == |b| && forall k :: 0 <= k < |a| ==> LowerCase(a[k]) == LowerCase(b[k])
  }
}
