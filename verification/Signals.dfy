/** The signal every inspection layer emits. */
module Signals {
  import opened Wrappers

  datatype Direction = Inbound | Outbound

  datatype Severity = Clean | Low | Medium | High | Critical

  function Rank(s: Severity): nat {
    match s
    case Clean => 0
    case Low => 1
    case Medium => 2
    case High => 3
    case Critical => 4
  }

  datatype Source = Sentinel | Corridor | OverWatch | Oim | ArbiterSource

  datatype Signal = Signal(
    source: Source,
    direction: Direction,
    violationClass: Option<string>,
    policyRuleId: Option<string>,
    severity: Severity,
    confidence: real,
    payloadHash: string,
    constitutionalRef: Option<string>,
    signature: Option<string>,
    sessionId: string)
  {
    predicate IsClean() {
      severity == Clean
    }
  }

  /** The builder clamps confidence to the unit interval. */
  predicate ConfidenceOk(s: Signal) {
    0.0 <= s.confidence <= 1.0
  }
}
