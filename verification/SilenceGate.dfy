/** The gate in front of speech recognition. */
module SilenceGate {
  import opened Integers
  import opened Wrappers

  datatype GateReason = Empty | TooShort | Silent | Invalid

  /** Why `count` samples are not worth recognising; `silent` says whether their
      energy is below the threshold. */
  function AudioGateReason(count: nat, sampleRate: nat, minDurationMs: nat, silent: bool): Option<GateReason> {
    if count == 0 then Some(Empty)
    else if sampleRate == 0 then Some(Invalid)
    else if Saturate(Saturate(count) * 1000) / sampleRate < minDurationMs then Some(TooShort)
    else if silent then Some(Silent)
    else None
  }

  lemma DivisionBelow(x: nat, d: nat, m: nat)
    requires d > 0
    ensures x / d < m <==> x < m * d
  {
    var q := x / d;
    Quotient(x, d);
    if q < m { Times(q + 1, m, d); } else { Times(m, q, d); }
  }

  lemma Quotient(x: nat, d: nat)
    requires d > 0
    ensures x / d * d <= x < (x / d + 1) * d
  {}

  lemma Times(a: nat, b: nat, d: nat)
    requires a <= b
    ensures a * d <= b * d
  {}

  /** Samples are too short exactly if they last less than the least duration. */
  lemma GateIs(count: nat, sampleRate: nat, minDurationMs: nat, silent: bool)
    requires count * 1000 < U64_MAX
    ensures AudioGateReason(count, sampleRate, minDurationMs, silent) ==
              if count == 0 then Some(Empty)
              else if sampleRate == 0 then Some(Invalid)
              else if count * 1000 < minDurationMs * sampleRate then Some(TooShort)
              else if silent then Some(Silent) else None
  {
    if sampleRate > 0 { DivisionBelow(count * 1000, sampleRate, minDurationMs); }
  }
}
