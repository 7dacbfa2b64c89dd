/** The per-session threat accumulator: a window of recent turns, a decaying sum and the
    state it puts the session in. Floating-point numbers are modelled as reals. */
module SessionMemory {
  import opened Wrappers
  import opened Signals
  import Trajectory

  const MAX_RETAINED_TURNS := 20
  const TRAJECTORY_WINDOW := 5

  datatype Classification =
    | Benign
    | Informational
    | Boundary
    | Escalation
    | AuthorityClaim
    | Extraction
    | Obfuscated

  datatype MemoryState = Clear | Watching | Elevated | Escalated | Locked

  datatype Turn = Turn(
    number: nat,
    at: int,
    severity: Severity,
    confidence: real,
    classification: Classification,
    violationClass: Option<string>)

  datatype Config = Config(
    watching: real,
    elevated: real,
    escalated: real,
    locked: real,
    velocityTrigger: real,
    boundaryProbeLimit: nat,
    decay: real)

  const DEFAULT_CONFIG := Config(0.8, 1.5, 2.5, 4.0, 0.15, 3, 0.95)

  /** The figures an escalation is explained with. */
  datatype Reason = Reason(
    threat: real,
    turn: nat,
    trajectory: real,
    velocity: real,
    probes: nat,
    claims: nat,
    extractions: nat)

  datatype Verdict = Verdict(
    state: MemoryState,
    threat: real,
    trajectory: real,
    forceCheckpoint: bool,
    modifier: real,
    stateChanged: bool,
    reason: Option<Reason>)

  datatype Counters = Counters(probes: nat, claims: nat, extractions: nat, obfuscations: nat)

  datatype Memory = Memory(
    turns: seq<Turn>,
    turnCount: nat,
    threat: real,
    trajectory: real,
    maxConfidence: real,
    velocity: real,
    counters: Counters,
    state: MemoryState,
    escalated: bool,
    reason: Option<Reason>)

  const FRESH := Memory([], 0, 0.0, 0.0, 0.0, 0.0, Counters(0, 0, 0, 0), Clear, false, None)

  // ---- one turn -----------------------------------------------------------------------

  /** The last `n` elements, or all of them. */
  function LastOf<T>(s: seq<T>, n: nat): seq<T> {
    if |s| <= n then s else s[|s| - n..]
  }

  function Count(c: Counters, classification: Classification): Counters {
    match classification
    case Boundary => c.(probes := c.probes + 1)
    case AuthorityClaim => c.(claims := c.claims + 1)
    case Extraction => c.(extractions := c.extractions + 1)
    case Obfuscated => c.(obfuscations := c.obfuscations + 1)
    case _ => c
  }

  function Multiplier(severity: Severity): real {
    match severity
    case Clean => 0.0
    case Low => 0.3
    case Medium => 0.6
    case High => 1.0
    case Critical => 1.5
  }

  function ProbeBonus(config: Config, probes: nat): real {
    if probes > config.boundaryProbeLimit then 0.1 * (probes - config.boundaryProbeLimit) as real else 0.0
  }

  function ExtractionBonus(extractions: nat): real {
    if extractions > 1 then 0.15 * extractions as real else 0.0
  }

  /** The weighted signal of a turn; `c` already counts the turn. */
  function Weight(config: Config, c: Counters, s: Signal, classification: Classification): real {
    s.confidence * Multiplier(s.severity)
    + ProbeBonus(config, c.probes)
    + (if classification == AuthorityClaim then 0.2 else 0.0)
    + ExtractionBonus(c.extractions)
  }

  /** The amplifier of a violation class. */
  function Amplifier(violationClass: Option<string>): real {
    match violationClass
    case None => 0.0
    case Some(vc) =>
      if vc == "MODEL_EXFIL" then 10.0
      else if vc == "AUTHORITY_CLAIM" then 8.0
      else if vc == "AGENT_BROADCAST_OVERRIDE" then 8.0
      else if vc == "GOV_SURFACE_INTEL" then 4.0
      else if vc == "RUNTIME_DOS" then 6.0
      else if vc == "ZERO_WIDTH_CHARS" then 5.0
      else if vc == "L33T_OBFUSCATION" then 5.0
      else if vc == "BASE64_INJECTION" then 7.0
      else 0.0
  }

  function Contribution(config: Config, c: Counters, s: Signal, classification: Classification): real {
    Weight(config, c, s, classification) + Amplifier(s.violationClass)
  }

  /** `compute_state`: a clear session that moves fast jumps to exactly Elevated,
      whatever the threat. */
  function NextState(config: Config, previous: MemoryState, threat: real, velocity: real, turnCount: nat): MemoryState {
    if velocity > config.velocityTrigger && turnCount >= 3 && previous == Clear then Elevated
    else if threat >= config.locked then Locked
    else if threat >= config.escalated then Escalated
    else if threat >= config.elevated then Elevated
    else if threat >= config.watching then Watching
    else Clear
  }

  function ThresholdModifier(state: MemoryState): real {
    match state
    case Clear => 1.0
    case Watching => 0.85
    case Elevated => 0.65
    case Escalated => 0.40
    case Locked => 0.0
  }

  function Confidences(turns: seq<Turn>): seq<real> {
    seq(|turns|, i requires 0 <= i < |turns| => turns[i].confidence)
  }

  function Forces(state: MemoryState): bool {
    state == Escalated || state == Locked
  }

  function NextTurn(m: Memory, s: Signal, classification: Classification, at: int): Turn {
    Turn(m.turnCount + 1, at, s.severity, s.confidence, classification, s.violationClass)
  }

  /** `threat` and `velocity` after the turn. */
  function NextThreat(config: Config, m: Memory, s: Signal, classification: Classification): real {
    m.threat * config.decay + Contribution(config, Count(m.counters, classification), s, classification)
  }

  function NextVelocity(config: Config, m: Memory, s: Signal, classification: Classification): real {
    if m.turnCount + 1 > 1 then NextThreat(config, m, s, classification) / (m.turnCount + 1) as real
    else Weight(config, Count(m.counters, classification), s, classification)
  }

  function ReasonFor(m: Memory): Reason {
    Reason(m.threat, m.turnCount, m.trajectory, m.velocity, m.counters.probes, m.counters.claims,
           m.counters.extractions)
  }

  /** The turn recorded and every figure updated, the state not yet decided. */
  function Measured(config: Config, m: Memory, s: Signal, classification: Classification, at: int): Memory {
    var turns := LastOf(m.turns + [NextTurn(m, s, classification, at)], MAX_RETAINED_TURNS);
    Memory(turns, m.turnCount + 1, NextThreat(config, m, s, classification),
           Trajectory.Slope(Confidences(LastOf(turns, TRAJECTORY_WINDOW))),
           if m.maxConfidence < s.confidence then s.confidence else m.maxConfidence,
           NextVelocity(config, m, s, classification), Count(m.counters, classification), m.state, m.escalated,
           m.reason)
  }

  function Concluded(config: Config, m: Memory): Memory {
    var next := m.(state := NextState(config, m.state, m.threat, m.velocity, m.turnCount));
    if Forces(next.state) && !m.escalated then next.(escalated := true, reason := Some(ReasonFor(m))) else next
  }

  /** The memory after one turn. */
  function Ingest(config: Config, m: Memory, s: Signal, classification: Classification, at: int): Memory {
    Concluded(config, Measured(config, m, s, classification, at))
  }

  function VerdictOf(before: Memory, after: Memory): Verdict {
    Verdict(after.state, after.threat, after.trajectory, Forces(after.state), ThresholdModifier(after.state),
            after.state != before.state, after.reason)
  }

  lemma VelocityMeaning(config: Config, m: Memory, s: Signal, classification: Classification, weighted: real)
    requires weighted == Weight(config, Count(m.counters, classification), s, classification)
    ensures NextVelocity(config, m, s, classification) ==
            if m.turnCount + 1 > 1 then NextThreat(config, m, s, classification) / (m.turnCount + 1) as real
            else weighted
  {
    hide NextThreat, Weight, Count;
  }

  // ---- the accumulator ----------------------------------------------------------------------

  class SessionMemory {
    var turns: seq<Turn>
    var turnCount: nat
    var threat: real
    var trajectory: real
    var maxConfidence: real
    var velocity: real
    var counters: Counters
    var state: MemoryState
    var escalated: bool
    var reason: Option<Reason>

    ghost function View(): Memory
      reads this
    {
      Memory(turns, turnCount, threat, trajectory, maxConfidence, velocity, counters, state, escalated, reason)
    }

    constructor ()
      ensures View() == FRESH
    {
      turns, turnCount, threat, trajectory, maxConfidence, velocity := [], 0, 0.0, 0.0, 0.0, 0.0;
      counters, state, escalated, reason := Counters(0, 0, 0, 0), Clear, false, None;
    }

    method IngestSignal(s: Signal, classification: Classification, config: Config, at: int) returns (v: Verdict)
      modifies this
      ensures View() == Ingest(config, old(View()), s, classification, at)
      ensures v == VerdictOf(old(View()), View())
    {
      hide Measured, Concluded;
      var previousState := state;
      Measure(s, classification, config, at);
      assert state == previousState;
      Conclude(config);
      v := Verdict(state, threat, trajectory, Forces(state), ThresholdModifier(state), state != previousState, reason);
    }

    method Measure(s: Signal, classification: Classification, config: Config, at: int)
      modifies this
      ensures View() == Measured(config, old(View()), s, classification, at)
      ensures state == old(state)
    {
      hide NextThreat, NextVelocity, Trajectory.Slope, Confidences, LastOf, Count, NextTurn, Weight;
      RecordTurn(s, classification, at);
      var weighted := Accumulate(s, classification, config, old(View()));
      if maxConfidence < s.confidence {
        maxConfidence := s.confidence;
      }
      trajectory := ComputeTrajectory(TRAJECTORY_WINDOW);
      velocity := ComputeVelocity(weighted);
      VelocityMeaning(config, old(View()), s, classification, weighted);
    }

    method Conclude(config: Config)
      modifies this
      ensures View() == Concluded(config, old(View()))
    {
      hide NextState;
      state := NextState(config, state, threat, velocity, turnCount);
      var forceCheckpoint := Forces(state);
      if forceCheckpoint && !escalated {
        escalated := true;
        reason := Some(Reason(threat, turnCount, trajectory, velocity, counters.probes, counters.claims,
                              counters.extractions));
      }
    }

    method RecordTurn(s: Signal, classification: Classification, at: int)
      modifies `turns, `turnCount, `counters
      ensures turnCount == old(turnCount) + 1 && counters == Count(old(counters), classification)
      ensures turns == LastOf(old(turns) + [NextTurn(old(View()), s, classification, at)], MAX_RETAINED_TURNS)
    {
      turnCount := turnCount + 1;
      turns := turns + [Turn(turnCount, at, s.severity, s.confidence, classification, s.violationClass)];
      if |turns| > MAX_RETAINED_TURNS {
        turns := turns[|turns| - MAX_RETAINED_TURNS..];
      }
      counters := Count(counters, classification);
    }

    /** Decay, then the weighted signal, then the amplifier of its violation class. */
    method Accumulate(s: Signal, classification: Classification, config: Config, ghost before: Memory)
        returns (weighted: real)
      requires counters == Count(before.counters, classification) && threat == before.threat
      modifies `threat
      ensures weighted == Weight(config, counters, s, classification)
      ensures threat == NextThreat(config, before, s, classification)
    {
      hide Weight, Amplifier, Count;
      threat := threat * config.decay;
      weighted := WeightSignal(s, classification, config);
      threat := threat + weighted;
      threat := threat + Amplifier(s.violationClass);
    }

    method ComputeVelocity(weighted: real) returns (v: real)
      ensures v == if turnCount > 1 then threat / turnCount as real else weighted
    {
      v := if turnCount > 1 then threat / turnCount as real else weighted;
    }

    method WeightSignal(s: Signal, classification: Classification, config: Config) returns (weighted: real)
      ensures weighted == Weight(config, counters, s, classification)
    {
      hide Multiplier;
      weighted := s.confidence;
      weighted := weighted * Multiplier(s.severity);
      if counters.probes > config.boundaryProbeLimit {
        weighted := weighted + 0.1 * (counters.probes - config.boundaryProbeLimit) as real;
      }
      if classification == AuthorityClaim {
        weighted := weighted + 0.2;
      }
      if counters.extractions > 1 {
        weighted := weighted + 0.15 * counters.extractions as real;
      }
    }

    method ComputeTrajectory(window: nat) returns (slope: real)
      ensures slope == Trajectory.Slope(Confidences(LastOf(turns, window)))
    {
      var recent := LastOf(turns, window);
      slope := Trajectory.RegressionSlope(Confidences(recent));
    }
  }

  // ---- whole histories ------------------------------------------------------------------------

  datatype Input = Input(signal: Signal, classification: Classification, at: int)

  function Run(config: Config, m: Memory, inputs: seq<Input>): Memory
    decreases |inputs|
  {
    if inputs == [] then m
    else Run(config, Ingest(config, m, inputs[0].signal, inputs[0].classification, inputs[0].at), inputs[1..])
  }

  /** Every turn ever recorded, numbered from `first`. */
  function AllTurns(first: nat, inputs: seq<Input>): seq<Turn> {
    seq(|inputs|, i requires 0 <= i < |inputs| =>
      Turn(first + i, inputs[i].at, inputs[i].signal.severity, inputs[i].signal.confidence, inputs[i].classification,
           inputs[i].signal.violationClass))
  }

  lemma IngestWindow(config: Config, m: Memory, input: Input)
    ensures var after := Ingest(config, m, input.signal, input.classification, input.at);
            && after.turns == LastOf(m.turns + AllTurns(m.turnCount + 1, [input]), MAX_RETAINED_TURNS)
            && after.turnCount == m.turnCount + 1
  {
    hide NextThreat, NextVelocity, NextState, Trajectory.Slope;
    assert AllTurns(m.turnCount + 1, [input]) == [NextTurn(m, input.signal, input.classification, input.at)];
  }

  lemma LastOfPrefixed<T>(a: seq<T>, b: seq<T>, n: nat)
    ensures LastOf(LastOf(a, n) + b, n) == LastOf(a + b, n)
  {
  }

  /** The retained turns are always the last twenty of the whole history, in order. */
  lemma {:induction false} WindowIsLastTurns(config: Config, m: Memory, inputs: seq<Input>)
    requires m.turns == LastOf(m.turns, MAX_RETAINED_TURNS)
    ensures Run(config, m, inputs).turns == LastOf(m.turns + AllTurns(m.turnCount + 1, inputs), MAX_RETAINED_TURNS)
    ensures Run(config, m, inputs).turnCount == m.turnCount + |inputs|
    decreases |inputs|
  {
    hide Ingest, LastOf;
    if inputs == [] {
      assert m.turns + AllTurns(m.turnCount + 1, inputs) == m.turns;
    } else {
      var next := Ingest(config, m, inputs[0].signal, inputs[0].classification, inputs[0].at);
      var head, tail := AllTurns(m.turnCount + 1, [inputs[0]]), AllTurns(m.turnCount + 2, inputs[1..]);
      IngestWindow(config, m, inputs[0]);
      LastOfTwice(m.turns + head, MAX_RETAINED_TURNS);
      WindowIsLastTurns(config, next, inputs[1..]);
      LastOfPrefixed(m.turns + head, tail, MAX_RETAINED_TURNS);
      assert (m.turns + head) + tail == m.turns + AllTurns(m.turnCount + 1, inputs);
    }
  }

  lemma LastOfTwice<T>(s: seq<T>, n: nat)
    ensures LastOf(LastOf(s, n), n) == LastOf(s, n)
  {
  }

  /** The trajectory stays within −1 and 1 while confidences stay in the unit interval. */
  lemma TrajectoryBounded(config: Config, m: Memory, input: Input)
    requires ConfidenceOk(input.signal) && forall t | t in m.turns :: 0.0 <= t.confidence <= 1.0
    ensures var after := Ingest(config, m, input.signal, input.classification, input.at);
            && -1.0 <= after.trajectory <= 1.0
            && forall t | t in after.turns :: 0.0 <= t.confidence <= 1.0
  {
    hide NextThreat, NextVelocity, NextState, Trajectory.Slope;
    var after := Ingest(config, m, input.signal, input.classification, input.at);
    var window := LastOf(after.turns, TRAJECTORY_WINDOW);
    assert forall i | 0 <= i < |window| :: window[i] in after.turns;
    Trajectory.SlopeBounded(Confidences(window));
  }
}
