/**
 * The battery-charging characteristic carries one byte; the sensor documents
 * codes 0-3 as not plugged / pre-charge / charging / charged.
 */
module Charging {
  import opened Bytes

  datatype ChargeState = NotPlugged | PreCharge | Charging | Full | Unknown(code: byte)

  /** The byte each state is sent as. */
  function CodeOf(s: ChargeState): (code: byte) {
    match s
    case NotPlugged => 0
    case PreCharge => 1
    case Charging => 2
    case Full => 3
    case Unknown(c) => c
  }

  /** The documented meaning of a charging byte; any other byte is kept as `Unknown`, never an error. */
  function ChargeStateOf(code: byte): (s: ChargeState)
    ensures CodeOf(s) == code
    ensures s.Unknown? <==> 3 < code
  {
    match code
    case 0 => NotPlugged
    case 1 => PreCharge
    case 2 => Charging
    case 3 => Full
    case _ => Unknown(code)
  }

  /** Decoding a state's own code gives the state back (for every state the decoder produces). */
  lemma ChargeStateRoundTrip(s: ChargeState)
    requires s.Unknown? ==> 3 < s.code
    ensures ChargeStateOf(CodeOf(s)) == s
  {
  }
}
