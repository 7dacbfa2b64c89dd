/** Admission of a sealed context: verify, inspect every segment, run the pipeline, and
    record an approval exactly when the whole turn was approved. */
module ContextAdmission {
  import opened Wrappers
  import opened Text
  import opened Signals
  import opened VerdictLedger
  import opened EnforcementPipeline
  import EnvelopeErrors
  import Context = ContextEnvelope
  import Memory = SessionMemory
  import Arbiter
  import Escalation
  import PipelineRuns
  import Protocol = AuthorizationRuns
  import Capability = CapabilityStore

  /** What the layers make of a text in one call, and what strategic memory advises. */
  datatype Layers = Layers(
    sentinel: string -> Signal,
    corridor: string -> Signal,
    overwatch: string -> Signal,
    oim: Signal -> Signal,
    classify: string -> Memory.Classification,
    advice: Advice)

  predicate From(s: Signal, id: string) {
    s.sessionId == id && s.direction == Inbound
  }

  /** The severities the sentinel gives, with their confidences; it raises nothing critical. */
  predicate SentinelRaises(s: Signal) {
    match s.severity
    case Clean => s.confidence == 0.0
    case Low => s.confidence == 0.70
    case Medium => s.confidence == 0.75
    case High => 0.85 <= s.confidence <= 0.92
    case Critical => false
  }

  /** Layers raise inbound signals for the session they were asked about. */
  ghost predicate LayersOk(layers: Layers, id: string) {
    && (forall text :: From(layers.sentinel(text), id) && SentinelRaises(layers.sentinel(text)))
    && (forall text :: From(layers.corridor(text), id) && From(layers.overwatch(text), id))
    && (forall s :: From(s, id) ==> From(layers.oim(s), id))
    && AdviceOk(layers.advice)
  }

  /** Segment contents on lines of their own; empty ones at the start leave no line. */
  function Joined(text: string, segments: seq<Context.ContextSegment>): string
    decreases |segments|
  {
    if segments == [] then text
    else Joined((if text == "" then "" else text + "\n") + segments[0].content, segments[1..])
  }

  function Inspections(layers: Layers, segments: seq<Context.ContextSegment>): seq<Signal> {
    seq(|segments|, i requires 0 <= i < |segments| => layers.sentinel(segments[i].content))
  }

  function TurnOf(layers: Layers, id: string, segments: seq<Signal>, text: string, actionClass: string,
                  checkpointHash: string, now: int): Turn {
    var overwatch := layers.overwatch(text);
    Turn(id, segments, layers.corridor(text), overwatch, layers.oim(overwatch), layers.classify(text), layers.advice,
         actionClass, checkpointHash, now)
  }

  /** Every source a segment can have requires inspection, so every segment is inspected. */
  function ContextTurn(layers: Layers, e: Context.ModelContext, checkpointHash: string, now: int): Turn {
    TurnOf(layers, e.sessionId, Inspections(layers, e.segments), Joined("", e.segments), "pipeline_inbound_context",
           checkpointHash, now)
  }

  function TextTurn(layers: Layers, text: string, id: string, checkpointHash: string, now: int): Turn {
    TurnOf(layers, id, [layers.sentinel(text)], text, "pipeline_inbound", checkpointHash, now)
  }

  /** The highest signal of the whole turn. */
  function TurnHighest(t: Turn): Option<Signal> {
    HighestOf(HighestOf(None, t.segments), [t.corridor, t.overwatch, t.oim])
  }

  /** The signal an approval is recorded with. */
  function LedgerSignal(t: Turn, contextHash: string): Signal {
    match TurnHighest(t)
    case Some(s) => s
    case None => Signal(Sentinel, Inbound, None, None, Clean, 0.0, contextHash, None, None, t.sessionId)
  }

  /** What the sentinel can have said of the segments of a turn. */
  predicate SegmentsRaised(segments: seq<Signal>) {
    forall i | 0 <= i < |segments| :: SentinelRaises(segments[i])
  }

  // ---- the two inbound entry points --------------------------------------------------------

  class Admission {
    const sha: string -> Digest
    const pipeline: Pipeline
    const ledger: SentinelVerdictLedger

    constructor (sha: string -> Digest, pipeline: Pipeline, ledger: SentinelVerdictLedger)
      ensures this.sha == sha && this.pipeline == pipeline && this.ledger == ledger
    {
      this.sha, this.pipeline, this.ledger := sha, pipeline, ledger;
    }

    method InspectSegments(layers: Layers, e: Context.ModelContext) returns (signals: seq<Signal>, text: string)
      ensures signals == Inspections(layers, e.segments) && text == Joined("", e.segments)
    {
      signals, text := [], "";
      for i := 0 to |e.segments|
        invariant signals == Inspections(layers, e.segments)[..i]
        invariant Joined(text, e.segments[i..]) == Joined("", e.segments)
      {
        var segment := e.segments[i];
        assert e.segments[i..][1..] == e.segments[i + 1..];
        signals := signals + [layers.sentinel(segment.content)];
        if text != "" {
          text := text + "\n";
        }
        text := text + segment.content;
      }
    }

    /** `inbound_context_with_identity` */
    method InboundContext(layers: Layers, e: Context.ModelContext, govTxId: string, verdictId: string,
                          checkpointHash: string, now: int)
        returns (r: Result<Enforcement, EnvelopeErrors.EnvelopeError>)
      modifies pipeline, pipeline.arbiter, pipeline.haap, ledger
      ensures match Context.VerifyContext(sha, e)
              case Fail(error) =>
                r == Err(error) && pipeline.View() == old(pipeline.View()) && ledger.View() == old(ledger.View())
              case Pass =>
                var t := ContextTurn(layers, e, checkpointHash, now);
                && r.Ok?
                && (pipeline.View(), r.value) == AfterInbound(old(pipeline.TheSetup()), old(pipeline.View()), t)
                && ledger.View() ==
                   if r.value == Approved
                   then RecordApproved(old(ledger.View()),
                                       MakeVerdict(verdictId, govTxId, LedgerSignal(t, e.contextHash), true,
                                                   Some((e.contextHash, e.runId)), now))
                   else old(ledger.View())
    {
      hide Context.VerifyContext, AfterInbound, LedgerSignal, RecordApproved, MakeVerdict, Inspections, Joined;
      var verified := Context.Verify(sha, e);
      if verified.Fail? {
        return Err(verified.error);
      }
      var signals, text := InspectSegments(layers, e);
      var t := TurnOf(layers, e.sessionId, signals, text, "pipeline_inbound_context", checkpointHash, now);
      var result := pipeline.Inbound(t);
      if result == Approved {
        var signal := LedgerSignal(t, e.contextHash);
        var _ := ledger.RecordFinalApprovedWithContext(govTxId, signal, e.contextHash, e.runId, verdictId, now);
      }
      r := Ok(result);
    }

    /** `inbound_with_identity`: the approval carries no context. */
    method InboundText(layers: Layers, text: string, id: string, govTxId: string, verdictId: string,
                       checkpointHash: string, now: int)
        returns (result: Enforcement)
      modifies pipeline, pipeline.arbiter, pipeline.haap, ledger
      ensures var t := TextTurn(layers, text, id, checkpointHash, now);
              && (pipeline.View(), result) == AfterInbound(old(pipeline.TheSetup()), old(pipeline.View()), t)
              && ledger.View() ==
                 if result == Approved
                 then RecordApproved(old(ledger.View()),
                                     MakeVerdict(verdictId, govTxId, layers.sentinel(text), true, None, now))
                 else old(ledger.View())
    {
      hide AfterInbound, RecordApproved, MakeVerdict;
      result := pipeline.Inbound(TextTurn(layers, text, id, checkpointHash, now));
      if result == Approved {
        var _ := ledger.RecordFinalApproved(govTxId, layers.sentinel(text), verdictId, now);
      }
    }
  }

  // ---- admissions are the protocol's approvals -----------------------------------------------

  lemma {:induction false} HighestFrom(best: Option<Signal>, signals: seq<Signal>, id: string)
    requires forall i | 0 <= i < |signals| :: From(signals[i], id)
    requires best.Some? ==> From(best.value, id)
    ensures HighestOf(best, signals).Some? ==> From(HighestOf(best, signals).value, id)
    ensures best.Some? || signals != [] ==> HighestOf(best, signals).Some?
    decreases |signals|
  {
    if signals != [] {
      HighestFrom(Highest(best, signals[0]), signals[1..], id);
    }
  }

  lemma ContextTurnOk(layers: Layers, e: Context.ModelContext, checkpointHash: string, now: int)
    requires LayersOk(layers, e.sessionId)
    ensures PipelineRuns.TurnOk(ContextTurn(layers, e, checkpointHash, now))
    ensures SegmentsRaised(ContextTurn(layers, e, checkpointHash, now).segments)
    ensures From(LedgerSignal(ContextTurn(layers, e, checkpointHash, now), e.contextHash), e.sessionId)
  {
    var t := ContextTurn(layers, e, checkpointHash, now);
    hide AdviceOk, Joined, HighestOf, SentinelRaises;
    forall i | 0 <= i < |t.segments|
      ensures From(t.segments[i], e.sessionId) && SentinelRaises(t.segments[i])
    {
      assert t.segments[i] == layers.sentinel(e.segments[i].content);
    }
    HighestFrom(None, t.segments, e.sessionId);
    assert From(t.corridor, e.sessionId) && From(t.overwatch, e.sessionId);
    assert From(t.oim, e.sessionId);
    HighestFrom(HighestOf(None, t.segments), [t.corridor, t.overwatch, t.oim], e.sessionId);
  }

  /** What an approved admission does to the ledger is an approval step of the protocol,
      enabled, followed by its two index steps. */
  lemma AdmissionIsApproval(r: Protocol.Rules, w: Protocol.World, layers: Layers, e: Context.ModelContext, thread: nat,
                            govTxId: string, verdictId: string, checkpointHash: string, now: int)
    requires LayersOk(layers, e.sessionId) && Context.VerifyContext(r.setup.p.sha, e).Pass?
    requires thread !in w.approvals && verdictId !in w.ledger.verdicts && Capability.IndexComplete(w.caps.store)
    ensures var s := LedgerSignal(ContextTurn(layers, e, checkpointHash, now), e.contextHash);
            var first := Protocol.ApproveContext(thread, e, s, govTxId, verdictId, now);
            var second, third := Protocol.IndexTx(thread), Protocol.IndexContext(thread);
            var v := MakeVerdict(verdictId, govTxId, s, true, Some((e.contextHash, e.runId)), now);
            && Protocol.Enabled(r, w, first)
            && Protocol.Enabled(r, Protocol.Apply(r, w, first), second)
            && Protocol.Enabled(r, Protocol.Apply(r, Protocol.Apply(r, w, first), second), third)
            && Protocol.Apply(r, Protocol.Apply(r, Protocol.Apply(r, w, first), second), third).ledger ==
               RecordApproved(w.ledger, v)
  {
    hide Context.VerifyContext, LedgerSignal, LayersOk, ContextTurn, Capability.IndexComplete;
    ContextTurnOk(layers, e, checkpointHash, now);
  }

  // ---- one signal speaks for all segments -----------------------------------------------------

  /** At least as severe, and among equals at least as confident. */
  predicate Dominates(h: Signal, s: Signal) {
    Rank(h.severity) > Rank(s.severity) || (h.severity == s.severity && h.confidence >= s.confidence)
  }

  lemma {:induction false} HighestDominates(best: Option<Signal>, signals: seq<Signal>, s: Signal)
    requires s in signals || best == Some(s)
    ensures HighestOf(best, signals).Some? && Dominates(HighestOf(best, signals).value, s)
    ensures HighestOf(best, signals) == best || HighestOf(best, signals).value in signals
    decreases |signals|
  {
    if signals != [] {
      var next := Highest(best, signals[0]);
      if s in signals[1..] {
        HighestDominates(next, signals[1..], s);
      } else {
        HighestDominates(next, signals[1..], next.value);
      }
    }
  }

  lemma DominantDemandsMore(config: Arbiter.Config, modifier: real, h: Signal, s: Signal)
    requires SentinelRaises(h) && SentinelRaises(s) && Dominates(h, s)
    ensures Arbiter.Level(Escalation.Demand(config, s, modifier)) <=
            Arbiter.Level(Escalation.Demand(config, h, modifier))
  {
    hide Arbiter.Scaled;
  }

  /** One call of the arbiter for every segment. */
  function Calls(segments: seq<Signal>, modifier: real, now: int): seq<Escalation.Call> {
    seq(|segments|, i requires 0 <= i < |segments| => Escalation.Call(segments[i], modifier, now))
  }

  /** Only the highest segment signal reaches the arbiter, but under any thresholds and any
      modifier it demands what all of them together demand. */
  lemma HighestDemandsAll(config: Arbiter.Config, segments: seq<Signal>, modifier: real, now: int)
    requires segments != [] && SegmentsRaised(segments)
    ensures HighestOf(None, segments).Some?
    ensures Escalation.Demand(config, HighestOf(None, segments).value, modifier) ==
            Escalation.Demands(config, Calls(segments, modifier, now))
  {
    hide Escalation.Demand, Escalation.Demands, SentinelRaises, Dominates, HighestOf;
    HighestDominates(None, segments, segments[0]);
    var h, calls := HighestOf(None, segments).value, Calls(segments, modifier, now);
    forall call | call in calls
      ensures Arbiter.Level(Escalation.Demand(config, call.signal, call.modifier)) <=
              Arbiter.Level(Escalation.Demand(config, h, modifier))
    {
      var i :| 0 <= i < |calls| && calls[i] == call;
      HighestDominates(None, segments, segments[i]);
      DominantDemandsMore(config, modifier, h, segments[i]);
    }
    var k :| 0 <= k < |segments| && segments[k] == h;
    assert calls[k] == Escalation.Call(h, modifier, now);
    Escalation.DemandsBound(config, calls, Arbiter.Level(Escalation.Demand(config, h, modifier)));
    Escalation.DemandsBound(config, calls, Arbiter.Level(Escalation.Demands(config, calls)));
    Escalation.SameLevel(Escalation.Demand(config, h, modifier), Escalation.Demands(config, calls));
  }

  /** The first layer leaves the session where joining every segment's demand would, and
      stops the turn exactly when that is a quarantine or a lock. */
  lemma SegmentsJoin(w: Setup, st: State, t: Turn, modifier: real)
    requires PipelineRuns.TurnOk(t) && PipelineRuns.Safe(st, t.sessionId, modifier)
    requires t.segments != [] && SegmentsRaised(t.segments)
    ensures var p := SentinelStage(w, st, t, modifier);
            var joined := Arbiter.Max(Arbiter.Current(st.arbiter, t.sessionId),
                                      Escalation.Demands(w.arbiter, Calls(t.segments, modifier, t.now)));
            && Arbiter.Current(p.state.arbiter, t.sessionId) == joined
            && (p.Stopped? <==> Arbiter.Level(joined) >= 3)
  {
    hide Escalation.Demand, Escalation.Demands, Calls, Arbiter.AfterProcess, Arbiter.ProcessResult, Memory.Ingest,
         SentinelRaises, HighestOf, Arbiter.Current;
    HighestDemandsAll(w.arbiter, t.segments, modifier, t.now);
    PipelineRuns.HighestAmong(None, t.segments, t.sessionId);
    Escalation.ProcessJoins(w.arbiter, st.arbiter, HighestOf(None, t.segments).value, modifier, t.now);
  }

  predicate DemandsBlock(config: Arbiter.Config, s: Signal, modifier: real) {
    Arbiter.Level(Escalation.Demand(config, s, modifier)) >= 3
  }

  /** Hence the first layer stops a turn exactly when the session is already that high or
      some segment, wherever it stands, demands a quarantine or a lock. */
  lemma SegmentBlockStopsIff(w: Setup, st: State, t: Turn, modifier: real)
    requires PipelineRuns.TurnOk(t) && PipelineRuns.Safe(st, t.sessionId, modifier) && SegmentsRaised(t.segments)
    ensures SentinelStage(w, st, t, modifier).Stopped? <==>
            && t.segments != []
            && (|| Arbiter.Level(Arbiter.Current(st.arbiter, t.sessionId)) >= 3
                || exists i | 0 <= i < |t.segments| :: DemandsBlock(w.arbiter, t.segments[i], modifier))
  {
    hide Escalation.Demand, Escalation.Demands, LayerStage, SentinelRaises, PipelineRuns.TurnOk, PipelineRuns.Safe,
         Arbiter.Current;
    if t.segments != [] {
      SegmentsJoin(w, st, t, modifier);
      var calls := Calls(t.segments, modifier, t.now);
      Escalation.DemandsBound(w.arbiter, calls, 2);
      if i :| 0 <= i < |t.segments| && DemandsBlock(w.arbiter, t.segments[i], modifier) {
        assert calls[i] in calls;
      }
      if call :| call in calls && Arbiter.Level(Escalation.Demand(w.arbiter, call.signal, call.modifier)) > 2 {
        var i :| 0 <= i < |calls| && calls[i] == call;
        assert DemandsBlock(w.arbiter, t.segments[i], modifier);
      }
    }
  }

  /** In any reachable state, a context with such a segment anywhere in it is locked or
      quarantined at the first layer, never approved. */
  lemma SegmentBlockNeverApproved(w: Setup, ops: seq<PipelineRuns.Operation>, layers: Layers, e: Context.ModelContext,
                                  checkpointHash: string, now: int, i: nat)
    requires PipelineRuns.OperationsOk(ops) && LayersOk(layers, e.sessionId) && i < |e.segments|
    requires var st := PipelineRuns.Run(w, PipelineRuns.START, ops).state;
             DemandsBlock(w.arbiter, layers.sentinel(e.segments[i].content),
                          Modifier(st, e.sessionId, layers.advice))
    ensures var st := PipelineRuns.Run(w, PipelineRuns.START, ops).state;
            var result := AfterInbound(w, st, ContextTurn(layers, e, checkpointHash, now)).1;
            result == HardLocked(Layer) || result == Quarantined(Layer)
  {
    hide PipelineRuns.Run, PipelineRuns.OperationsOk, LayersOk, AfterInbound, DemandsBlock, Modifier, ContextTurn,
         PipelineRuns.TurnOk, PipelineRuns.MemoryOk;
    var t := ContextTurn(layers, e, checkpointHash, now);
    ContextTurnOk(layers, e, checkpointHash, now);
    PipelineRuns.ReachableMemoryOk(w, ops, e.sessionId);
    ContextTurnShape(layers, e, checkpointHash, now, i);
    BlockedTurn(w, PipelineRuns.Run(w, PipelineRuns.START, ops).state, t, i);
  }

  lemma ContextTurnShape(layers: Layers, e: Context.ModelContext, checkpointHash: string, now: int, i: nat)
    requires i < |e.segments|
    ensures var t := ContextTurn(layers, e, checkpointHash, now);
            && t.sessionId == e.sessionId && t.advice == layers.advice
            && |t.segments| == |e.segments| && t.segments[i] == layers.sentinel(e.segments[i].content)
  {
    hide Joined;
  }

  lemma BlockedTurn(w: Setup, st: State, t: Turn, i: nat)
    requires PipelineRuns.TurnOk(t) && PipelineRuns.MemoryOk(st, t.sessionId) && SegmentsRaised(t.segments)
    requires i < |t.segments| && DemandsBlock(w.arbiter, t.segments[i], Modifier(st, t.sessionId, t.advice))
    ensures AfterInbound(w, st, t).1 == HardLocked(Layer) || AfterInbound(w, st, t).1 == Quarantined(Layer)
  {
    hide DemandsBlock, SentinelRaises, LayerStage, PipelineRuns.Advances, Modifier, PipelineRuns.MemoryOk, HighestOf,
         Arbiter.Current, PipelineRuns.TurnOk, PipelineRuns.Safe;
    var modifier := Modifier(st, t.sessionId, t.advice);
    PipelineRuns.StartIsSafe(st, t);
    var begun := Initialised(st, t.sessionId, t.advice);
    SegmentBlockStopsIff(w, begun, t, modifier);
    PipelineRuns.SentinelAdvances(w, begun, t, modifier);
    var p := SentinelStage(w, begun, t, modifier);
    StoppedStays(w, st, t, p.state, None, Some(p.result));
  }
}
