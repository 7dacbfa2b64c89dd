/** How threat accumulates and fades: a decayed sum of past contributions, recovery after
    a computable number of quiet turns, and exactly when there is none. */
module ThreatRecovery {
  import opened Wrappers
  import opened Signals
  import opened SessionMemory
  import opened RealArithmetic

  // ---- the decayed sum -------------------------------------------------------------------

  function Power(d: real, n: nat): real {
    if n == 0 then 1.0 else d * Power(d, n - 1)
  }

  /** What each turn of a run contributed. */
  function Contributions(config: Config, c: Counters, inputs: seq<Input>): seq<real>
    decreases |inputs|
  {
    if inputs == [] then []
    else
      var next := Count(c, inputs[0].classification);
      [Contribution(config, next, inputs[0].signal, inputs[0].classification)]
      + Contributions(config, next, inputs[1..])
  }

  /** Each element weighted by the decay to the power of its age. */
  function DecayedSum(d: real, xs: seq<real>): real {
    if xs == [] then 0.0 else xs[0] * Power(d, |xs| - 1) + DecayedSum(d, xs[1..])
  }

  function Next(config: Config, m: Memory, input: Input): Memory {
    Ingest(config, m, input.signal, input.classification, input.at)
  }

  lemma NextFields(config: Config, m: Memory, input: Input)
    ensures var after := Next(config, m, input);
            && after.threat == m.threat * config.decay
                               + Contribution(config, Count(m.counters, input.classification), input.signal,
                                              input.classification)
            && after.counters == Count(m.counters, input.classification)
            && after.turnCount == m.turnCount + 1
            && after.velocity == NextVelocity(config, m, input.signal, input.classification)
            && after.state == NextState(config, m.state, after.threat, after.velocity, after.turnCount)
  {
    hide Contribution, NextVelocity, NextState, LastOf, Confidences;
  }

  lemma {:induction false} ContributionsLength(config: Config, c: Counters, inputs: seq<Input>)
    ensures |Contributions(config, c, inputs)| == |inputs|
    decreases |inputs|
  {
    hide Contribution, Count;
    if inputs != [] {
      ContributionsLength(config, Count(c, inputs[0].classification), inputs[1..]);
    }
  }

  lemma PowerStep(d: real, n: nat, t: real, x: real)
    ensures (t * d + x) * Power(d, n) == t * Power(d, n + 1) + x * Power(d, n)
  {
    var p := Power(d, n);
    assert t * d * p == t * (d * p);
  }

  /** The threat is the starting threat, decayed, plus the decayed sum of all
      contributions since. */
  lemma {:induction false} ThreatIsDecayedSum(config: Config, m: Memory, inputs: seq<Input>)
    ensures Run(config, m, inputs).threat ==
            m.threat * Power(config.decay, |inputs|)
            + DecayedSum(config.decay, Contributions(config, m.counters, inputs))
    decreases |inputs|
  {
    hide Contribution, Count, Ingest, Power;
    if inputs == [] {
      PowerZero(config.decay);
    } else {
      var next := Next(config, m, inputs[0]);
      NextFields(config, m, inputs[0]);
      ThreatIsDecayedSum(config, next, inputs[1..]);
      var xs := Contributions(config, m.counters, inputs);
      ContributionsLength(config, m.counters, inputs);
      assert xs[1..] == Contributions(config, next.counters, inputs[1..]);
      PowerStep(config.decay, |inputs| - 1, m.threat, xs[0]);
    }
  }

  lemma PowerZero(d: real)
    ensures Power(d, 0) == 1.0
  {
  }

  // ---- recovery ---------------------------------------------------------------------------------

  /** A pattern counter has passed its limit; it never comes back. */
  predicate Sticky(config: Config, c: Counters) {
    c.probes > config.boundaryProbeLimit || c.extractions > 1
  }

  /** A turn that contributes nothing: a clean signal, no amplified class, no claim, and
      no pattern bonus active after it is counted. */
  predicate Quiet(config: Config, c: Counters, input: Input) {
    && input.signal.severity == Clean
    && input.classification != AuthorityClaim
    && Amplifier(input.signal.violationClass) == 0.0
    && !Sticky(config, Count(c, input.classification))
  }

  predicate QuietRun(config: Config, c: Counters, inputs: seq<Input>)
    decreases |inputs|
  {
    inputs != [] ==>
      && Quiet(config, c, inputs[0])
      && QuietRun(config, Count(c, inputs[0].classification), inputs[1..])
  }

  lemma QuietContributesNothing(config: Config, c: Counters, input: Input)
    requires Quiet(config, c, input)
    ensures Contribution(config, Count(c, input.classification), input.signal, input.classification) == 0.0
  {
    hide Amplifier;
  }

  /** Bernoulli's bound for 0.95. */
  lemma {:induction false} DecayBound(n: nat)
    ensures 0.0 < Power(0.95, n) && Power(0.95, n) * (19.0 + n as real) <= 19.0
  {
    if n > 0 {
      DecayBound(n - 1);
      var p, r := Power(0.95, n - 1), (n - 1) as real;
      assert n as real == r + 1.0;
      assert 0.95 * p * (20.0 + r) == p * (19.0 + 0.95 * r) <= p * (19.0 + r);
    }
  }

  const CALM := 0.45

  /** After this many quiet turns a threat has fallen below `CALM`. */
  function RecoveryTurns(threat: real): nat
    requires threat >= 0.0
  {
    (19.0 * threat / CALM).Floor + 1
  }

  lemma RecoveryTurnsSuffice(threat: real, n: nat)
    requires threat >= 0.0 && n >= RecoveryTurns(threat)
    ensures 0.0 <= threat * Power(0.95, n) < CALM
  {
    DecayBound(n);
    var p, r := Power(0.95, n), n as real;
    assert r > 19.0 * threat / CALM;
    assert 19.0 * threat < CALM * (19.0 + r);
    CrossMultiply(threat, p, 19.0 + r);
  }

  lemma TimesLarger(a: real, b: real, r: real)
    requires a > b && r > 0.0
    ensures a * r > b * r
  {
  }

  lemma CrossMultiply(t: real, p: real, s: real)
    requires t >= 0.0 && 0.0 < p && s > 0.0 && p * s <= 19.0 && 19.0 * t < CALM * s
    ensures 0.0 <= t * p < CALM
  {
    TimesNoLess(19.0, p * s, t);
    TimesNoLess(t, 0.0, p);
    assert (t * p) * s == (p * s) * t;
    if t * p >= CALM {
      TimesNoLess(t * p, CALM, s);
    }
  }

  lemma {:induction false} QuietDecay(config: Config, m: Memory, inputs: seq<Input>)
    requires QuietRun(config, m.counters, inputs)
    ensures Run(config, m, inputs).threat == m.threat * Power(config.decay, |inputs|)
    decreases |inputs|
  {
    hide Contribution, Count, Ingest, Power, Quiet;
    if inputs == [] {
      PowerZero(config.decay);
    } else {
      NextFields(config, m, inputs[0]);
      QuietContributesNothing(config, m.counters, inputs[0]);
      QuietDecay(config, Next(config, m, inputs[0]), inputs[1..]);
      PowerStep(config.decay, |inputs| - 1, m.threat, 0.0);
    }
  }

  /** A calm turn leaves the state clear: from the third turn on a threat below `CALM` is
      too slow for the velocity trigger. */
  lemma CalmIsClear(m: Memory, input: Input)
    requires 0.0 <= Next(DEFAULT_CONFIG, m, input).threat < CALM
    ensures Next(DEFAULT_CONFIG, m, input).state == Clear
  {
    hide Contribution, Count, Ingest, Weight, NextThreat;
    var after := Next(DEFAULT_CONFIG, m, input);
    NextFields(DEFAULT_CONFIG, m, input);
    NextThreatIs(DEFAULT_CONFIG, m, input);
    if after.turnCount >= 3 {
      SlowEnough(after.threat, after.turnCount);
    }
  }

  lemma NextThreatIs(config: Config, m: Memory, input: Input)
    ensures Next(config, m, input).threat == NextThreat(config, m, input.signal, input.classification)
  {
    hide NextThreat, NextVelocity, NextState, LastOf, Confidences;
  }

  lemma SlowEnough(threat: real, turns: nat)
    requires threat < CALM && turns >= 3
    ensures threat / turns as real <= 0.15
  {
    var q, r := threat / turns as real, turns as real;
    assert q * r == threat;
    if q > 0.15 {
      TimesLarger(q, 0.15, r);
    }
  }

  lemma {:induction false} RunSplitsAtLast(config: Config, m: Memory, inputs: seq<Input>)
    requires inputs != []
    ensures Run(config, m, inputs) == Next(config, Run(config, m, inputs[..|inputs| - 1]), inputs[|inputs| - 1])
    decreases |inputs|
  {
    hide Ingest;
    if |inputs| == 1 {
      assert inputs[1..] == [] && inputs[..0] == [];
    } else {
      var next := Next(config, m, inputs[0]);
      RunSplitsAtLast(config, next, inputs[1..]);
      assert inputs[1..][..|inputs| - 2] == inputs[..|inputs| - 1][1..];
    }
  }

  /** Recovery: from any threat, once as many quiet turns have passed as its size calls
      for, the session is clear, and it stays clear through every further quiet turn. */
  lemma QuietTurnsRecover(m: Memory, inputs: seq<Input>)
    requires m.threat >= 0.0 && QuietRun(DEFAULT_CONFIG, m.counters, inputs)
    requires |inputs| >= RecoveryTurns(m.threat)
    ensures var after := Run(DEFAULT_CONFIG, m, inputs); 0.0 <= after.threat < CALM && after.state == Clear
  {
    hide QuietRun, Power, Ingest, RecoveryTurns;
    assert RecoveryTurns(m.threat) >= 1 by {
      AtLeastOne(m.threat);
    }
    QuietDecay(DEFAULT_CONFIG, m, inputs);
    RecoveryTurnsSuffice(m.threat, |inputs|);
    RunSplitsAtLast(DEFAULT_CONFIG, m, inputs);
    CalmIsClear(Run(DEFAULT_CONFIG, m, inputs[..|inputs| - 1]), inputs[|inputs| - 1]);
  }

  lemma AtLeastOne(threat: real)
    requires threat >= 0.0
    ensures RecoveryTurns(threat) >= 1
  {
  }

  // ---- no recovery ---------------------------------------------------------------------------------

  lemma StickyStays(config: Config, c: Counters, classification: Classification)
    requires Sticky(config, c)
    ensures Sticky(config, Count(c, classification))
  {
  }

  /** With a pattern bonus active every turn contributes at least a tenth. */
  lemma StickyContributes(config: Config, c: Counters, input: Input)
    requires Sticky(config, Count(c, input.classification)) && ConfidenceOk(input.signal)
    ensures Contribution(config, Count(c, input.classification), input.signal, input.classification) >= 0.1
  {
    hide Amplifier, Multiplier, ProbeBonus, ExtractionBonus, Count;
    var next := Count(c, input.classification);
    AmplifierNonNegative(input.signal.violationClass);
    MultiplierNonNegative(input.signal.severity);
    TimesNoLess(input.signal.confidence, 0.0, Multiplier(input.signal.severity));
    BonusSize(config, next);
  }

  lemma BonusSize(config: Config, c: Counters)
    ensures ProbeBonus(config, c.probes) >= 0.0 && ExtractionBonus(c.extractions) >= 0.0
    ensures c.probes > config.boundaryProbeLimit ==> ProbeBonus(config, c.probes) >= 0.1
    ensures c.extractions > 1 ==> ExtractionBonus(c.extractions) >= 0.1
  {
    if c.probes > config.boundaryProbeLimit {
      assert (c.probes - config.boundaryProbeLimit) as real >= 1.0;
    }
    if c.extractions > 1 {
      assert c.extractions as real >= 1.0;
    }
  }

  lemma MultiplierNonNegative(severity: Severity)
    ensures Multiplier(severity) >= 0.0
  {
  }

  lemma AmplifierNonNegative(violationClass: Option<string>)
    ensures Amplifier(violationClass) >= 0.0
  {
  }

  predicate ConfidencesOk(inputs: seq<Input>) {
    forall i | 0 <= i < |inputs| :: ConfidenceOk(inputs[i].signal)
  }

  lemma {:induction false} StickyFloor(m: Memory, inputs: seq<Input>)
    requires Sticky(DEFAULT_CONFIG, m.counters) && m.threat >= 0.0 && ConfidencesOk(inputs)
    ensures Run(DEFAULT_CONFIG, m, inputs).threat >= 2.0 * (1.0 - Power(0.95, |inputs|))
    decreases |inputs|
  {
    hide Contribution, Count, Ingest, Sticky;
    if inputs != [] {
      var last := |inputs| - 1;
      StickyFloor(m, inputs[..last]);
      RunSplitsAtLast(DEFAULT_CONFIG, m, inputs);
      StickyRun(m, inputs[..last]);
      var before := Run(DEFAULT_CONFIG, m, inputs[..last]);
      NextFields(DEFAULT_CONFIG, before, inputs[last]);
      StickyStays(DEFAULT_CONFIG, before.counters, inputs[last].classification);
      StickyContributes(DEFAULT_CONFIG, before.counters, inputs[last]);
      assert Power(0.95, |inputs|) == 0.95 * Power(0.95, last);
    }
  }

  lemma {:induction false} StickyRun(m: Memory, inputs: seq<Input>)
    requires Sticky(DEFAULT_CONFIG, m.counters)
    ensures Sticky(DEFAULT_CONFIG, Run(DEFAULT_CONFIG, m, inputs).counters)
    decreases |inputs|
  {
    hide Sticky, Count, Ingest, Contribution;
    if inputs != [] {
      NextFields(DEFAULT_CONFIG, m, inputs[0]);
      StickyStays(DEFAULT_CONFIG, m.counters, inputs[0].classification);
      StickyRun(Next(DEFAULT_CONFIG, m, inputs[0]), inputs[1..]);
    }
  }

  const STICKY_TURNS := 57

  /** Once a fourth probe or a second extraction attempt is counted, every turn from the
      57th on leaves the session elevated or worse, whatever arrives. */
  lemma StickyNeverRecovers(m: Memory, inputs: seq<Input>)
    requires Sticky(DEFAULT_CONFIG, m.counters) && m.threat >= 0.0 && ConfidencesOk(inputs)
    requires |inputs| >= STICKY_TURNS
    ensures var after := Run(DEFAULT_CONFIG, m, inputs);
            after.threat >= DEFAULT_CONFIG.elevated && after.state != Clear && after.state != Watching
  {
    hide Power, Ingest, Sticky, Contribution, NextVelocity;
    StickyFloor(m, inputs);
    DecayBound(|inputs|);
    QuarterLeft(Power(0.95, |inputs|), |inputs|);
    RunSplitsAtLast(DEFAULT_CONFIG, m, inputs);
    NextFields(DEFAULT_CONFIG, Run(DEFAULT_CONFIG, m, inputs[..|inputs| - 1]), inputs[|inputs| - 1]);
  }

  lemma QuarterLeft(p: real, n: nat)
    requires n >= STICKY_TURNS && p * (19.0 + n as real) <= 19.0 && p > 0.0
    ensures p <= 0.25
  {
    if p > 0.25 {
      TimesLarger(p, 0.25, 19.0 + n as real);
    }
  }

  // ---- recovery, exactly ---------------------------------------------------------------------------

  /** An entirely harmless turn. */
  predicate Harmless(input: Input) {
    && input.signal.severity == Clean && input.classification == Benign
    && input.signal.violationClass == None && ConfidenceOk(input.signal)
  }

  predicate AllHarmless(inputs: seq<Input>) {
    forall i | 0 <= i < |inputs| :: Harmless(inputs[i])
  }

  /** Enough harmless turns clear the session for good. */
  ghost predicate Recovers(m: Memory) {
    exists n: nat :: ClearFrom(m, n)
  }

  ghost predicate ClearFrom(m: Memory, n: nat) {
    forall inputs | AllHarmless(inputs) && |inputs| >= n :: Run(DEFAULT_CONFIG, m, inputs).state == Clear
  }

  lemma {:induction false} HarmlessIsQuiet(c: Counters, inputs: seq<Input>)
    requires !Sticky(DEFAULT_CONFIG, c) && AllHarmless(inputs)
    ensures QuietRun(DEFAULT_CONFIG, c, inputs)
    decreases |inputs|
  {
    if inputs != [] {
      HarmlessIsQuiet(c, inputs[1..]);
    }
  }

  /** A session recovers on harmless turns exactly when no pattern counter has passed
      its limit. */
  lemma RecoversIff(m: Memory)
    requires m.threat >= 0.0
    ensures Recovers(m) <==> !Sticky(DEFAULT_CONFIG, m.counters)
  {
    hide Run, RecoveryTurns, Sticky;
    if !Sticky(DEFAULT_CONFIG, m.counters) {
      var n := RecoveryTurns(m.threat);
      forall inputs | AllHarmless(inputs) && |inputs| >= n
        ensures Run(DEFAULT_CONFIG, m, inputs).state == Clear
      {
        HarmlessIsQuiet(m.counters, inputs);
        QuietTurnsRecover(m, inputs);
      }
      assert ClearFrom(m, n);
    } else {
      forall n: nat
        ensures !ClearFrom(m, n)
      {
        var quiet := Input(Signal(Sentinel, Inbound, None, None, Clean, 0.0, "", None, None, ""), Benign, 0);
        var inputs := seq(n + STICKY_TURNS, _ => quiet);
        assert AllHarmless(inputs) && |inputs| >= n;
        StickyNeverRecovers(m, inputs);
      }
    }
  }
}
