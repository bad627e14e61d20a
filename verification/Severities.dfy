/** Severity labels. The operator passes them around as free strings; a label that is none of
    the five known ones is `Other`. */
module Severities {

  datatype Severity = Critical | High | Medium | Low | Info | Other(text: string)

  /** severityOrder of internal/correlator/engine.go: higher is worse, unknown labels rank lowest. */
  function Rank(severity: Severity): (r: nat)
    ensures 1 <= r <= 5
  {
    match severity
    case Critical => 5
    case High => 4
    case Medium => 3
    case Low => 2
    case _ => 1
  }
}
