/** Whole runs of the enforcement pipeline: the audit log replays to the state, approval
    means an unescalated session, and which gate verdicts can occur at all. */
module PipelineRuns {
  import opened Wrappers
  import opened Signals
  import opened EnforcementPipeline
  import Memory = SessionMemory
  import Arbiter
  import Escalation
  import Haap

  /** What the inspection layers guarantee of a turn. */
  predicate TurnOk(t: Turn) {
    && (forall i | 0 <= i < |t.segments| :: t.segments[i].sessionId == t.sessionId)
    && t.corridor.sessionId == t.sessionId && t.overwatch.sessionId == t.sessionId && t.oim.sessionId == t.sessionId
    && AdviceOk(t.advice)
  }

  predicate ReplyOk(r: Reply) {
    && r.corridor.sessionId == r.sessionId && r.overwatch.sessionId == r.sessionId && r.oim.sessionId == r.sessionId
    && r.sentinel.sessionId == r.sessionId
  }

  /** Across the two stores: a memory that has taken in a turn belongs to a session the
      arbiter holds, and only such a memory can be locked. */
  predicate MemoryOk(st: State, id: string) {
    id in st.memories ==>
      && (st.memories[id].turnCount > 0 ==> id in st.arbiter.sessions)
      && (st.memories[id].state == Memory.Locked ==> st.memories[id].turnCount > 0)
  }

  /** The arbiter will honour a signal under this modifier. */
  predicate Safe(st: State, id: string, modifier: real) {
    modifier > 0.0 || id in st.arbiter.sessions
  }

  /** A step that works for one session: it only escalates it, leaves the others alone,
      and keeps every faithful log faithful. */
  ghost predicate Advances(a: State, b: State, id: string) {
    && a.arbiter.sessions.Keys <= b.arbiter.sessions.Keys
    && Arbiter.Level(Arbiter.Current(a.arbiter, id)) <= Arbiter.Level(Arbiter.Current(b.arbiter, id))
    && (forall who | who != id :: Arbiter.Current(b.arbiter, who) == Arbiter.Current(a.arbiter, who))
    && (forall who, mark: nat | Escalation.Faithful(a.arbiter, who, mark) :: Escalation.Faithful(b.arbiter, who, mark))
    && (forall who | who != id :: (who in b.memories <==> who in a.memories))
    && (forall who | who != id && who in a.memories :: b.memories[who] == a.memories[who])
  }

  lemma AdvancesTransitive(a: State, b: State, c: State, id: string)
    requires Advances(a, b, id) && Advances(b, c, id)
    ensures Advances(a, c, id)
  {
    hide Escalation.Faithful, Arbiter.Level;
  }

  lemma AdvancesReflexive(a: State, b: State, id: string)
    requires b.arbiter == a.arbiter
    requires forall who | who != id :: (who in b.memories <==> who in a.memories)
    requires forall who | who != id && who in a.memories :: b.memories[who] == a.memories[who]
    ensures Advances(a, b, id)
  {
    hide Escalation.Faithful;
  }

  predicate Calm(state: Memory.MemoryState) {
    state == Memory.Clear || state == Memory.Watching
  }

  // ---- single stages ---------------------------------------------------------------------

  lemma ProcessedAdvances(w: Setup, st: State, s: Signal, modifier: real, now: int)
    requires Safe(st, s.sessionId, modifier)
    ensures var next := Processed(w, st, s, modifier, now);
            && Advances(st, next, s.sessionId) && s.sessionId in next.arbiter.sessions
            && Arbiter.ProcessResult(w.arbiter, st.arbiter, s, modifier, now) ==
               Arbiter.Current(next.arbiter, s.sessionId)
  {
    hide Arbiter.AfterProcess, Arbiter.ProcessResult, Escalation.Faithful, Escalation.Demand;
    Escalation.ProcessJoins(w.arbiter, st.arbiter, s, modifier, now);
    forall who, mark: nat | Escalation.Faithful(st.arbiter, who, mark)
      ensures Escalation.Faithful(Arbiter.AfterProcess(w.arbiter, st.arbiter, s, modifier, now), who, mark)
    {
      Escalation.ProcessFaithful(w.arbiter, st.arbiter, s, modifier, now, who, mark);
    }
  }

  lemma IngestedMemory(w: Setup, st: State, t: Turn, highest: Option<Signal>)
    requires MemoryOk(st, t.sessionId) && t.sessionId in st.arbiter.sessions
    ensures var next := Ingested(w, st, t, highest);
            && Advances(st, next, t.sessionId) && MemoryOk(next, t.sessionId)
            && next.arbiter == st.arbiter && (t.sessionId in next.memories <==> t.sessionId in st.memories)
            && next.haap == st.haap
  {
    hide Escalation.Faithful, Memory.Ingest;
    AdvancesReflexive(st, Ingested(w, st, t, highest), t.sessionId);
    if highest.Some? && t.sessionId in st.memories {
      IngestCounts(w.memory, st.memories[t.sessionId], highest.value, t.classification, t.now);
    }
  }

  lemma IngestCounts(config: Memory.Config, m: Memory.Memory, s: Signal, classification: Memory.Classification,
                     now: int)
    ensures Memory.Ingest(config, m, s, classification, now).turnCount == m.turnCount + 1
  {
    hide Memory.NextThreat, Memory.NextVelocity, Memory.NextState, Memory.LastOf;
  }

  /** What every stage keeps; once a signal was processed the session is held. */
  ghost predicate StageOk(st: State, p: Progress, id: string, held: bool) {
    && Advances(st, p.state, id) && MemoryOk(p.state, id)
    && (held ==> id in p.state.arbiter.sessions)
    && (id in st.memories ==> id in p.state.memories)
  }

  lemma LayerAdvances(w: Setup, st: State, t: Turn, s: Signal, highest: Option<Signal>, modifier: real)
    requires MemoryOk(st, t.sessionId) && Safe(st, t.sessionId, modifier) && s.sessionId == t.sessionId
    ensures var p := LayerStage(w, st, t, s, highest, modifier);
            && StageOk(st, p, t.sessionId, true)
            && (p.Going? ==> p.highest == highest && p.state.memories == st.memories && p.state.haap == st.haap
                             && Arbiter.Level(Arbiter.Current(p.state.arbiter, t.sessionId)) <= 2)
            && (p.Stopped? ==> p.result == HardLocked(Layer) || p.result == Quarantined(Layer))
  {
    hide Arbiter.AfterProcess, Arbiter.ProcessResult, Advances, Memory.Ingest;
    ProcessedAdvances(w, st, s, modifier, t.now);
    var next := Processed(w, st, s, modifier, t.now);
    IngestedMemory(w, next, t, highest);
    AdvancesTransitive(st, next, Ingested(w, next, t, highest), t.sessionId);
  }

  lemma {:induction false} HighestAmong(best: Option<Signal>, signals: seq<Signal>, id: string)
    requires forall i | 0 <= i < |signals| :: signals[i].sessionId == id
    requires best.Some? ==> best.value.sessionId == id
    ensures HighestOf(best, signals).Some? ==> HighestOf(best, signals).value.sessionId == id
    decreases |signals|
  {
    if signals != [] {
      HighestAmong(Highest(best, signals[0]), signals[1..], id);
    }
  }

  lemma StartIsSafe(st: State, t: Turn)
    requires TurnOk(t) && MemoryOk(st, t.sessionId)
    ensures var begun := Initialised(st, t.sessionId, t.advice);
            && Advances(st, begun, t.sessionId) && MemoryOk(begun, t.sessionId) && t.sessionId in begun.memories
            && begun.haap == st.haap && begun.arbiter == st.arbiter
            && Safe(begun, t.sessionId, Modifier(st, t.sessionId, t.advice))
  {
    hide Escalation.Faithful;
    AdvancesReflexive(st, Initialised(st, t.sessionId, t.advice), t.sessionId);
  }

  /** The turn up to the human gate. If it gets there, memory has not changed, is not
      locked, and the session is at most restricted. */
  lemma ToGateAdvances(w: Setup, st: State, t: Turn)
    requires TurnOk(t) && MemoryOk(st, t.sessionId)
    ensures var p := ToGate(w, st, t);
            && StageOk(st, p, t.sessionId, true) && t.sessionId in p.state.memories
            && (p.Going? ==>
                  && p.highest.Some?
                  && !ShouldBlock(w, p.state, t.sessionId)
                  && p.state.memories == Initialised(st, t.sessionId, t.advice).memories && p.state.haap == st.haap
                  && Arbiter.Level(Arbiter.Current(p.state.arbiter, t.sessionId)) <= 2)
            && (p.Stopped? ==> p.result == HardLocked(Layer) || p.result == Quarantined(Layer)
                               || p.result == Quarantined(Drift))
  {
    hide Advances, LayerStage, MemoryOk, ShouldBlock, Safe, Arbiter.Level, Modifier, Initialised;
    var id, modifier := t.sessionId, Modifier(st, t.sessionId, t.advice);
    var begun := Initialised(st, id, t.advice);
    StartIsSafe(st, t);
    var a := SentinelStage(w, begun, t, modifier);
    SentinelAdvances(w, begun, t, modifier);
    AdvancesTransitive(st, begun, a.state, id);
    var b := CorridorStage(w, a, t, modifier);
    if a.Going? {
      SafeLater(begun, a.state, id, modifier);
      LayerAdvances(w, a.state, t, t.corridor, Highest(a.highest, t.corridor), modifier);
      AdvancesTransitive(st, a.state, b.state, id);
    }
    var c := DriftStage(w, b, t);
    if b.Going? {
      SafeLater(begun, b.state, id, modifier) by { AdvancesTransitive(begun, a.state, b.state, id); }
      IngestedMemory(w, b.state, t, b.highest);
      AdvancesTransitive(st, b.state, Ingested(w, b.state, t, b.highest), id);
    }
    var d := OverwatchStage(w, c, t, modifier);
    if c.Going? {
      LayerAdvances(w, c.state, t, t.overwatch, Highest(c.highest, t.overwatch), modifier);
      AdvancesTransitive(st, c.state, d.state, id);
      SameMemoriesSameDrift(w, c.state, d, id);
      HighestSome(c.highest, t.overwatch);
    }
  }

  lemma SafeLater(a: State, b: State, id: string, modifier: real)
    requires Safe(a, id, modifier) && Advances(a, b, id)
    ensures Safe(b, id, modifier)
  {
    hide Escalation.Faithful;
  }

  lemma SameMemoriesSameDrift(w: Setup, st: State, p: Progress, id: string)
    requires p.Going? ==> p.state.memories == st.memories
    ensures p.Going? ==> ShouldBlock(w, p.state, id) == ShouldBlock(w, st, id)
  {
  }

  lemma SentinelAdvances(w: Setup, st: State, t: Turn, modifier: real)
    requires TurnOk(t) && MemoryOk(st, t.sessionId) && Safe(st, t.sessionId, modifier)
    ensures var p := SentinelStage(w, st, t, modifier);
            && StageOk(st, p, t.sessionId, false)
            && (p.Going? ==> p.state.memories == st.memories && p.state.haap == st.haap)
            && (p.Stopped? ==> p.state.arbiter.sessions.Keys >= {t.sessionId}
                               && (p.result == HardLocked(Layer) || p.result == Quarantined(Layer)))
  {
    hide Advances, LayerStage, MemoryOk, Safe;
    HighestAmong(None, t.segments, t.sessionId);
    var s := HighestOf(None, t.segments);
    if s.Some? {
      LayerAdvances(w, st, t, s.value, s, modifier);
    } else {
      AdvancesReflexive(st, st, t.sessionId);
    }
  }

  // ---- the gate --------------------------------------------------------------------------------

  lemma RiskAtGate(w: Setup, st: State, id: string)
    requires BlockThresholdOk(w.blockThreshold) && id in st.memories && !ShouldBlock(w, st, id)
    requires Arbiter.Level(Arbiter.Current(st.arbiter, id)) <= 2
    ensures st.memories[id].state != Memory.Locked && SessionDrs(st, id) <= 70
    ensures SessionDrs(st, id) >= 60 <==>
            && Arbiter.Current(st.arbiter, id) == Arbiter.S2
            && (st.memories[id].state == Memory.Elevated || st.memories[id].state == Memory.Escalated)
  {
  }

  lemma GateAdvances(w: Setup, st: State, t: Turn, highest: Option<Signal>)
    requires MemoryOk(st, t.sessionId) && t.sessionId in st.arbiter.sessions
    ensures var p := GateStage(w, Going(st, highest), t);
            && StageOk(st, p, t.sessionId, true)
            && (p.Going? ==> p.highest == highest && p.state.memories == st.memories && p.state.arbiter == st.arbiter)
            && (p.Stopped? ==> p.result != Approved && p.result != Restricted)
  {
    hide Advances, MemoryOk, Haap.AfterEvaluate, GateVerdict, Ingested, SessionDrs;
    var next := st.(haap := Haap.AfterEvaluate(w.haap, st.haap, t.sessionId, Haap.ExecuteActions,
                                               SessionDrs(st, t.sessionId), t.actionClass, None, t.now));
    SameButGate(st, next, t.sessionId);
    IngestedMemory(w, next, t, highest);
    AdvancesTransitive(st, next, Ingested(w, next, t, highest), t.sessionId);
  }

  lemma SameButGate(st: State, next: State, id: string)
    requires next.arbiter == st.arbiter && next.memories == st.memories
    ensures Advances(st, next, id) && MemoryOk(next, id) == MemoryOk(st, id)
  {
    AdvancesReflexive(st, next, id);
  }

  // ---- the whole turn ------------------------------------------------------------------------------

  lemma FinishAdvances(w: Setup, st: State, t: Turn, highest: Option<Signal>, modifier: real)
    requires MemoryOk(st, t.sessionId) && t.sessionId in st.arbiter.sessions && t.sessionId in st.memories
    requires t.oim.sessionId == t.sessionId
    ensures var (last, result) := FinalStage(w, Going(st, highest), t, modifier);
            && Advances(st, last, t.sessionId) && MemoryOk(last, t.sessionId)
            && t.sessionId in last.arbiter.sessions && t.sessionId in last.memories
            && (result == Approved ==>
                  && Arbiter.Current(last.arbiter, t.sessionId) == Arbiter.S1
                  && Calm(last.memories[t.sessionId].state))
            && !result.HaapGated? && result != HardLocked(Constitution) && result != Quarantined(TokenRefused)
  {
    hide Advances, MemoryOk, Arbiter.ProcessResult, Arbiter.AfterProcess, Arbiter.AfterSignal, Memory.Ingest,
         CheckpointSignal, Arbiter.Floored, Arbiter.Level, Arbiter.Current, Highest;
    var id := t.sessionId;
    ProcessedAdvances(w, st, t.oim, modifier, t.now);
    var next := Processed(w, st, t.oim, modifier, t.now);
    ProcessedMemory(w, st, t.oim, modifier, t.now);
    IngestedMemory(w, next, t, Highest(highest, t.oim));
    var ingested := Ingested(w, next, t, Highest(highest, t.oim));
    AdvancesTransitive(st, next, ingested, id);
    var memory, state := ingested.memories[id].state, Arbiter.Current(next.arbiter, id);
    Escalation.FloorJoins(memory, state);
    CheckpointAdvances(w, ingested, t, memory);
    AdvancesTransitive(st, ingested, Checkpointed(w, ingested, t, memory), id);
  }

  function Checkpointed(w: Setup, st: State, t: Turn, memory: Memory.MemoryState): State {
    st.(arbiter := Arbiter.AfterSignal(w.arbiter, st.arbiter, CheckpointSignal(t, memory), t.now))
  }

  lemma ProcessedMemory(w: Setup, st: State, s: Signal, modifier: real, now: int)
    requires MemoryOk(st, s.sessionId) && Safe(st, s.sessionId, modifier)
    ensures MemoryOk(Processed(w, st, s, modifier, now), s.sessionId)
  {
    hide Arbiter.AfterProcess, Advances, Arbiter.ProcessResult;
    ProcessedAdvances(w, st, s, modifier, now);
  }

  lemma CheckpointAdvances(w: Setup, st: State, t: Turn, memory: Memory.MemoryState)
    requires MemoryOk(st, t.sessionId) && t.sessionId in st.arbiter.sessions
    ensures var next := Checkpointed(w, st, t, memory);
            && Advances(st, next, t.sessionId) && MemoryOk(next, t.sessionId) && t.sessionId in next.arbiter.sessions
  {
    hide Arbiter.AfterSignal, Arbiter.AfterProcess, Arbiter.ProcessResult, Advances;
    var s := CheckpointSignal(t, memory);
    Escalation.UnitModifierIsPlain(w.arbiter, st.arbiter, s, t.now);
    ProcessedAdvances(w, st, s, 1.0, t.now);
    ProcessedMemory(w, st, s, 1.0, t.now);
  }

  /** An inbound turn escalates its own session at most, keeps the cross-store invariant,
      and approves only an unescalated session with a calm memory. */
  lemma InboundAdvances(w: Setup, st: State, t: Turn)
    requires TurnOk(t) && MemoryOk(st, t.sessionId)
    ensures var (last, result) := AfterInbound(w, st, t);
            && Advances(st, last, t.sessionId) && MemoryOk(last, t.sessionId) && t.sessionId in last.memories
            && (result == Approved ==>
                  && Arbiter.Current(last.arbiter, t.sessionId) == Arbiter.S1
                  && Calm(last.memories[t.sessionId].state))
  {
    hide Advances, MemoryOk, ToGate, GateStage, FinalStage, ShouldBlock, Arbiter.Level, Arbiter.Current, Modifier;
    var id, modifier := t.sessionId, Modifier(st, t.sessionId, t.advice);
    var a := ToGate(w, st, t);
    ToGateAdvances(w, st, t);
    if a.Stopped? {
      StoppedStays(w, st, t, a.state, None, Some(a.result));
    } else {
      StoppedStays(w, st, t, a.state, a.highest, None);
      var b := GateStage(w, a, t);
      GateAdvances(w, a.state, t, a.highest);
      AdvancesTransitive(st, a.state, b.state, id);
      if b.Stopped? {
        StoppedEnds(w, a, t, b.state, None, Some(b.result), modifier);
      } else {
        FinishAdvances(w, b.state, t, b.highest, modifier);
        AdvancesTransitive(st, b.state, FinalStage(w, b, t, modifier).0, id);
      }
    }
  }

  /** Gate reachability: of the gate's verdicts only the authorization and the request
      for a human ever occur, and the request exactly when the turn reaches the gate
      restricted, with an elevated or escalated memory and no live preauthorization. */
  lemma GateReachability(w: Setup, st: State, t: Turn)
    requires TurnOk(t) && MemoryOk(st, t.sessionId) && BlockThresholdOk(w.blockThreshold)
    ensures var result := AfterInbound(w, st, t).1;
            && result != HardLocked(Constitution) && result != Quarantined(TokenRefused)
            && (result.HaapGated? <==> StopsAtGate(w, st, t))
            && (result.HaapGated? ==> 60 <= result.drs <= 70)
  {
    hide ToGate, GateStage, FinalStage, ShouldBlock, Arbiter.Level, Arbiter.Current, Modifier, StageOk, MemoryOk,
         Haap.Preauthorized, SessionDrs, Initialised;
    var modifier := Modifier(st, t.sessionId, t.advice);
    var a := ToGate(w, st, t);
    ToGateAdvances(w, st, t);
    if a.Stopped? {
      StoppedStays(w, st, t, a.state, None, Some(a.result));
    } else {
      StoppedStays(w, st, t, a.state, a.highest, None);
      RiskAtGate(w, a.state, t.sessionId);
      GateOutcome(w, a.state, t, a.highest);
      var b := GateStage(w, a, t);
      if b.Stopped? {
        StoppedEnds(w, a, t, b.state, None, Some(b.result), modifier);
      } else {
        StageMeans(st, a, t.sessionId);
        GateAdvances(w, a.state, t, a.highest);
        StageMeans(a.state, b, t.sessionId);
        FinishAdvances(w, b.state, t, b.highest, modifier);
      }
    }
  }

  lemma StageMeans(st: State, p: Progress, id: string)
    requires StageOk(st, p, id, true)
    ensures MemoryOk(p.state, id) && id in p.state.arbiter.sessions
    ensures id in st.memories ==> id in p.state.memories
  {
    hide Advances, MemoryOk;
  }

  /** The state in which the gate asks for a human, if the turn gets there. */
  predicate StopsAtGate(w: Setup, st: State, t: Turn) {
    var p := ToGate(w, st, t);
    && p.Going? && t.sessionId in p.state.memories
    && Arbiter.Current(p.state.arbiter, t.sessionId) == Arbiter.S2
    && (p.state.memories[t.sessionId].state == Memory.Elevated
        || p.state.memories[t.sessionId].state == Memory.Escalated)
    && !Haap.Preauthorized(p.state.haap, t.sessionId, t.actionClass, t.now)
  }

  lemma GateOutcome(w: Setup, st: State, t: Turn, highest: Option<Signal>)
    requires SessionDrs(st, t.sessionId) <= 70
    ensures var p := GateStage(w, Going(st, highest), t);
            && (p.Stopped? <==> SessionDrs(st, t.sessionId) >= 60
                                && !Haap.Preauthorized(st.haap, t.sessionId, t.actionClass, t.now))
            && (p.Stopped? ==> p.result == HaapGated(SessionDrs(st, t.sessionId)))
  {
    hide SessionDrs, Haap.Preauthorized, Haap.AfterEvaluate, Ingested;
  }

  // ---- outbound ------------------------------------------------------------------------------------

  lemma OutStageAdvances(w: Setup, p: Progress, st: State, s: Signal, modifier: real, now: int)
    requires p.Going? && Safe(p.state, s.sessionId, modifier) && Advances(st, p.state, s.sessionId)
    requires p.state.memories == st.memories
    ensures var q := OutStage(w, p, s, modifier, now);
            && Advances(st, q.state, s.sessionId) && q.state.memories == st.memories
            && Safe(q.state, s.sessionId, modifier)
            && (q.Stopped? ==> q.result != Approved)
  {
    hide Arbiter.ProcessResult, Arbiter.AfterProcess, Advances;
    ProcessedAdvances(w, p.state, s, modifier, now);
    AdvancesTransitive(st, p.state, Processed(w, p.state, s, modifier, now), s.sessionId);
  }

  /** An outbound reply escalates its session at most, and is approved only unescalated. */
  lemma OutboundAdvances(w: Setup, st: State, r: Reply)
    requires ReplyOk(r) && MemoryOk(st, r.sessionId)
    ensures var (last, result) := AfterOutbound(w, st, r);
            && Advances(st, last, r.sessionId) && last.memories == st.memories
            && (result == Approved ==> Arbiter.Current(last.arbiter, r.sessionId) == Arbiter.S1)
  {
    hide Arbiter.ProcessResult, Arbiter.AfterProcess, Advances, OutStage, Arbiter.Current;
    var id, modifier := r.sessionId, OutboundModifier(st, r.sessionId);
    AdvancesReflexive(st, st, id);
    var a := OutStage(w, Going(st, None), r.corridor, modifier, r.now);
    OutStageAdvances(w, Going(st, None), st, r.corridor, modifier, r.now);
    var b := OutStage(w, a, r.overwatch, modifier, r.now);
    StoppedOut(w, a, r.overwatch, modifier, r.now);
    if a.Going? {
      OutStageAdvances(w, a, st, r.overwatch, modifier, r.now);
    }
    var c := OutStage(w, b, r.oim, modifier, r.now);
    StoppedOut(w, b, r.oim, modifier, r.now);
    if b.Going? {
      OutStageAdvances(w, b, st, r.oim, modifier, r.now);
    }
    if c.Going? {
      ProcessedAdvances(w, c.state, r.sentinel, modifier, r.now);
      AdvancesTransitive(st, c.state, Processed(w, c.state, r.sentinel, modifier, r.now), id);
    }
  }

  lemma StoppedOut(w: Setup, p: Progress, s: Signal, modifier: real, now: int)
    ensures p.Stopped? ==> OutStage(w, p, s, modifier, now) == p
  {
    hide Arbiter.ProcessResult, Arbiter.AfterProcess;
  }

  // ---- whole runs ------------------------------------------------------------------------------------

  datatype Operation =
    | In(turn: Turn)
    | Out(reply: Reply)
    | End(id: string)
    | Reset(id: string, token: string, now: int)
    | Gate(operation: Haap.Operation)

  /** The pipeline, and for each session where the audit log stood when it last ended. */
  datatype World = World(state: State, marks: map<string, nat>)

  const START := World(EMPTY, map[])

  function Mark(x: World, id: string): nat {
    if id in x.marks then x.marks[id] else 0
  }

  function Result(w: Setup, x: World, op: Operation): Option<Enforcement> {
    match op
    case In(t) => Some(AfterInbound(w, x.state, t).1)
    case Out(r) => Some(AfterOutbound(w, x.state, r).1)
    case _ => None
  }

  function Step(w: Setup, x: World, op: Operation): World {
    match op
    case In(t) => x.(state := AfterInbound(w, x.state, t).0)
    case Out(r) => x.(state := AfterOutbound(w, x.state, r).0)
    case End(id) => World(AfterEnd(x.state, id), x.marks[id := |x.state.arbiter.audit|])
    case Reset(id, token, now) => x.(state := AfterReset(w, x.state, id, token, now))
    case Gate(g) => x.(state := x.state.(haap := Haap.Step(w.haap, x.state.haap, g)))
  }

  predicate OperationOk(op: Operation) {
    (op.In? ==> TurnOk(op.turn)) && (op.Out? ==> ReplyOk(op.reply))
  }

  predicate OperationsOk(ops: seq<Operation>) {
    forall i | 0 <= i < |ops| :: OperationOk(ops[i])
  }

  function Run(w: Setup, x: World, ops: seq<Operation>): World
    decreases |ops|
  {
    if ops == [] then x else Run(w, Step(w, x, ops[0]), ops[1..])
  }

  ghost predicate WorldOk(x: World) {
    && (forall id :: MemoryOk(x.state, id))
    && (forall id :: Escalation.Faithful(x.state.arbiter, id, Mark(x, id)))
  }

  lemma AdvancesKeep(x: World, next: State, id: string)
    requires WorldOk(x) && Advances(x.state, next, id) && MemoryOk(next, id)
    ensures WorldOk(x.(state := next))
  {
    hide Escalation.Faithful, Mark, Arbiter.Level, Arbiter.Current;
    var y := x.(state := next);
    forall who
      ensures MemoryOk(next, who)
    {
      assert MemoryOk(x.state, who);
    }
    forall who
      ensures Escalation.Faithful(next.arbiter, who, Mark(y, who))
    {
      assert Escalation.Faithful(x.state.arbiter, who, Mark(x, who));
      SameMark(x, next, who);
    }
  }

  lemma SameMark(x: World, next: State, who: string)
    ensures Mark(x.(state := next), who) == Mark(x, who)
  {
  }

  lemma EndKeeps(x: World, id: string)
    requires WorldOk(x)
    ensures WorldOk(World(AfterEnd(x.state, id), x.marks[id := |x.state.arbiter.audit|]))
  {
    hide Escalation.Faithful;
    var y := World(AfterEnd(x.state, id), x.marks[id := |x.state.arbiter.audit|]);
    forall who
      ensures MemoryOk(y.state, who) && Escalation.Faithful(y.state.arbiter, who, Mark(y, who))
    {
      assert MemoryOk(x.state, who);
      Escalation.ForgetFaithful(x.state.arbiter, id, who, Mark(x, who));
    }
  }

  lemma ResetKeeps(w: Setup, x: World, id: string, token: string, now: int)
    requires WorldOk(x)
    ensures WorldOk(x.(state := AfterReset(w, x.state, id, token, now)))
  {
    hide Escalation.Faithful, Mark, Arbiter.ResetEntry;
    var next := AfterReset(w, x.state, id, token, now);
    forall who
      ensures MemoryOk(next, who) && Escalation.Faithful(next.arbiter, who, Mark(x.(state := next), who))
    {
      assert MemoryOk(x.state, who);
      SameMark(x, next, who);
      Escalation.ResetFaithful(x.state.arbiter, id, w.resetAuthority, token, w.resetHash, now, who, Mark(x, who));
    }
  }

  lemma StepKeeps(w: Setup, x: World, op: Operation)
    requires WorldOk(x) && OperationOk(op)
    ensures WorldOk(Step(w, x, op))
  {
    hide Advances, MemoryOk, Escalation.Faithful, AfterInbound, AfterOutbound, AfterReset, AfterEnd, TurnOk, ReplyOk,
         Haap.Step;
    match op
    case In(t) =>
      assert MemoryOk(x.state, t.sessionId);
      InboundAdvances(w, x.state, t);
      AdvancesKeep(x, AfterInbound(w, x.state, t).0, t.sessionId);
    case Out(r) =>
      assert MemoryOk(x.state, r.sessionId);
      OutboundAdvances(w, x.state, r);
      SameMemory(x.state, AfterOutbound(w, x.state, r).0, r.sessionId);
      AdvancesKeep(x, AfterOutbound(w, x.state, r).0, r.sessionId);
    case End(id) => EndKeeps(x, id);
    case Reset(id, token, now) => ResetKeeps(w, x, id, token, now);
    case Gate(g) =>
      SameButGate(x.state, Step(w, x, op).state, "");
      assert MemoryOk(x.state, "");
      AdvancesKeep(x, Step(w, x, op).state, "");
  }

  lemma SameMemory(a: State, b: State, id: string)
    requires MemoryOk(a, id) && b.memories == a.memories && Advances(a, b, id)
    ensures MemoryOk(b, id)
  {
    hide Escalation.Faithful;
  }

  lemma {:induction false} RunKeeps(w: Setup, x: World, ops: seq<Operation>)
    requires WorldOk(x) && OperationsOk(ops)
    ensures WorldOk(Run(w, x, ops))
    decreases |ops|
  {
    hide WorldOk, Step, OperationOk;
    if ops != [] {
      assert OperationOk(ops[0]);
      StepKeeps(w, x, ops[0]);
      RunKeeps(w, Step(w, x, ops[0]), ops[1..]);
    }
  }

  lemma StartOk()
    ensures WorldOk(START)
  {
    hide Escalation.Replay;
    forall id
      ensures Escalation.Faithful(EMPTY.arbiter, id, 0)
    {
      Escalation.EmptyReplay(id);
      assert EMPTY.arbiter.audit[0..] == [];
    }
  }

  /** Audit replay equals state: after any run, the entries a session left in the audit
      log since it last ended connect, step down only at a reset, and lead from S1 to
      exactly the state the arbiter reports. */
  lemma AuditReplaysToState(w: Setup, ops: seq<Operation>, id: string)
    requires OperationsOk(ops)
    ensures var x := Run(w, START, ops);
            && Mark(x, id) <= |x.state.arbiter.audit|
            && Escalation.Replay(x.state.arbiter.audit[Mark(x, id)..], id, Arbiter.S1) ==
               Some(Arbiter.Current(x.state.arbiter, id))
  {
    hide Run, Escalation.Replay, MemoryOk, OperationsOk;
    StartOk();
    RunKeeps(w, START, ops);
    assert Escalation.Faithful(Run(w, START, ops).state.arbiter, id, Mark(Run(w, START, ops), id));
  }

  /** The operation is for this session and asks for a result. */
  predicate Concerns(op: Operation, id: string) {
    (op.In? && op.turn.sessionId == id) || (op.Out? && op.reply.sessionId == id)
  }

  /** The operation can bring a session down: it ends it, or resets it with authority. */
  predicate Releases(w: Setup, op: Operation, id: string) {
    || (op.End? && op.id == id)
    || (op.Reset? && op.id == id && Arbiter.ResetResult(w.resetAuthority, op.token).Pass?)
  }

  predicate Escalated(x: World, id: string) {
    Arbiter.Level(Arbiter.Current(x.state.arbiter, id)) >= 2
  }

  lemma AdvancesEscalated(a: State, b: State, id: string, who: string)
    requires Advances(a, b, id) && Arbiter.Level(Arbiter.Current(a.arbiter, who)) >= 2
    ensures Arbiter.Level(Arbiter.Current(b.arbiter, who)) >= 2
  {
    hide Escalation.Faithful, Arbiter.Level, Arbiter.Current;
    if who != id {
      assert Arbiter.Current(b.arbiter, who) == Arbiter.Current(a.arbiter, who);
    }
  }

  lemma OthersStayEscalated(w: Setup, x: World, op: Operation, id: string)
    requires Escalated(x, id) && (op.End? || op.Reset?) && !Releases(w, op, id)
    ensures Escalated(Step(w, x, op), id)
  {
    hide Arbiter.ResetEntry;
  }

  /** One step neither lowers an escalated session nor approves anything for it. */
  lemma EscalatedStays(w: Setup, x: World, op: Operation, id: string)
    requires WorldOk(x) && OperationOk(op) && Escalated(x, id) && !Releases(w, op, id)
    ensures Escalated(Step(w, x, op), id)
    ensures Concerns(op, id) ==> Result(w, x, op) != Some(Approved)
  {
    hide Advances, MemoryOk, AfterInbound, AfterOutbound, AfterReset, AfterEnd, TurnOk, ReplyOk, Haap.Step,
         Arbiter.Current, Escalation.Faithful;
    match op
    case In(t) =>
      assert MemoryOk(x.state, t.sessionId);
      InboundAdvances(w, x.state, t);
      AdvancesEscalated(x.state, AfterInbound(w, x.state, t).0, t.sessionId, id);
    case Out(r) =>
      assert MemoryOk(x.state, r.sessionId);
      OutboundAdvances(w, x.state, r);
      AdvancesEscalated(x.state, AfterOutbound(w, x.state, r).0, r.sessionId, id);
    case End(_) => OthersStayEscalated(w, x, op, id);
    case Reset(_, _, _) => OthersStayEscalated(w, x, op, id);
    case Gate(_) =>
  }

  predicate NoRelease(w: Setup, ops: seq<Operation>, id: string) {
    forall i | 0 <= i < |ops| :: !Releases(w, ops[i], id)
  }

  lemma {:induction false} RunStaysEscalated(w: Setup, x: World, ops: seq<Operation>, id: string)
    requires WorldOk(x) && OperationsOk(ops) && Escalated(x, id) && NoRelease(w, ops, id)
    ensures Escalated(Run(w, x, ops), id) && WorldOk(Run(w, x, ops))
    decreases |ops|
  {
    hide WorldOk, Step, OperationOk, Escalated, Releases;
    if ops != [] {
      assert OperationOk(ops[0]) && !Releases(w, ops[0], id);
      StepKeeps(w, x, ops[0]);
      EscalatedStays(w, x, ops[0], id);
      RunStaysEscalated(w, Step(w, x, ops[0]), ops[1..], id);
    }
  }

  /** No approval after escalation: from any reachable world in which a session stands at
      S2 or above, however the run goes on, nothing inbound or outbound is approved for
      it until it is ended or reset with authority. */
  lemma NoApprovalAfterEscalation(w: Setup, before: seq<Operation>, after: seq<Operation>, op: Operation, id: string)
    requires OperationsOk(before) && OperationsOk(after) && OperationOk(op)
    requires Escalated(Run(w, START, before), id) && NoRelease(w, after, id) && Concerns(op, id)
    ensures Result(w, Run(w, Run(w, START, before), after), op) != Some(Approved)
  {
    hide Run, WorldOk, OperationsOk, OperationOk, Escalated, NoRelease, Result;
    StartOk();
    RunKeeps(w, START, before);
    RunStaysEscalated(w, Run(w, START, before), after, id);
    EscalatedStays(w, Run(w, Run(w, START, before), after), op, id);
  }

  /** Approval means what it says: in any reachable world, an approved inbound turn leaves
      the session at S1 with a clear or watching memory, and an approved reply leaves it
      at S1. */
  lemma ApprovalMeansUnescalated(w: Setup, ops: seq<Operation>, op: Operation)
    requires OperationsOk(ops) && OperationOk(op) && Result(w, Run(w, START, ops), op) == Some(Approved)
    ensures var x := Step(w, Run(w, START, ops), op);
            && (op.In? ==>
                  && Arbiter.Current(x.state.arbiter, op.turn.sessionId) == Arbiter.S1
                  && op.turn.sessionId in x.state.memories
                  && Calm(x.state.memories[op.turn.sessionId].state))
            && (op.Out? ==> Arbiter.Current(x.state.arbiter, op.reply.sessionId) == Arbiter.S1)
  {
    hide Run, MemoryOk, Advances, AfterInbound, AfterOutbound, TurnOk, ReplyOk, Arbiter.Current, OperationsOk,
         Escalation.Faithful;
    StartOk();
    RunKeeps(w, START, ops);
    var x := Run(w, START, ops);
    if op.In? {
      assert MemoryOk(x.state, op.turn.sessionId);
      InboundAdvances(w, x.state, op.turn);
    } else if op.Out? {
      assert MemoryOk(x.state, op.reply.sessionId);
      OutboundAdvances(w, x.state, op.reply);
    }
  }

  // ---- the memory floor and the signal that is to carry it to the arbiter ---------------------

  /** Where the checkpoint signal of a memory takes the arbiter, against the state the
      memory's floor returns for the turn. */
  datatype Landing = OnFloor | Above | Below

  function CheckpointLanding(config: Arbiter.Config, memory: Memory.MemoryState): Landing {
    match memory
    case Clear | Watching => OnFloor
    case Elevated => if config.high <= 0.82 then Above else if config.medium <= 0.82 then OnFloor else Below
    case Escalated => if config.high <= 0.90 then OnFloor else Below
    case Locked => if config.critical <= 0.98 then OnFloor else Below
  }

  /** When a floor raises what a turn returns, the state left behind is the returned one
      only under the right thresholds; under others it is higher or lower. */
  lemma FloorAgainstState(config: Arbiter.Config, st: Arbiter.State, t: Turn, memory: Memory.MemoryState, now: int)
    requires var state := Arbiter.Current(st, t.sessionId); Arbiter.Floored(memory, state) != state
    ensures var returned := Arbiter.Level(Arbiter.Floored(memory, Arbiter.Current(st, t.sessionId)));
            var left := Arbiter.Level(Arbiter.Current(Arbiter.AfterSignal(config, st, CheckpointSignal(t, memory), now),
                                                      t.sessionId));
            match CheckpointLanding(config, memory)
            case OnFloor => left == returned
            case Above => left > returned
            case Below => left < returned
  {
    hide Arbiter.AfterSignal, Arbiter.Current;
    Escalation.SignalJoins(config, st, CheckpointSignal(t, memory), now);
  }

  /** In none of the three configurations does an elevated memory leave the state it
      returns: the consumer and defense arbiters quarantine the session, the medical one
      does not move it. */
  lemma ProfileLandings()
    ensures CheckpointLanding(Arbiter.CONSUMER, Memory.Elevated) == Above
    ensures CheckpointLanding(Arbiter.MEDICAL, Memory.Elevated) == Below
    ensures CheckpointLanding(Arbiter.DEFENSE, Memory.Elevated) == Above
    ensures forall config, memory | config in {Arbiter.CONSUMER, Arbiter.MEDICAL, Arbiter.DEFENSE}
                                    && memory != Memory.Elevated :: CheckpointLanding(config, memory) == OnFloor
  {
  }

  /** At the default threshold strategic memory stops a turn exactly for a locked session. */
  lemma DefaultBlocksLocked(w: Setup, st: State, id: string)
    requires w.blockThreshold == DEFAULT_BLOCK_THRESHOLD
    ensures ShouldBlock(w, st, id) <==> id in st.memories && st.memories[id].state == Memory.Locked
  {
  }

  lemma ReachableMemoryOk(w: Setup, ops: seq<Operation>, id: string)
    requires OperationsOk(ops)
    ensures MemoryOk(Run(w, START, ops).state, id)
  {
    hide Run, MemoryOk, OperationsOk, Escalation.Faithful;
    StartOk();
    RunKeeps(w, START, ops);
  }

  /** The gate's dead arms are dead in every reachable world. */
  lemma GateReachableOnly(w: Setup, ops: seq<Operation>, t: Turn)
    requires OperationsOk(ops) && TurnOk(t) && BlockThresholdOk(w.blockThreshold)
    ensures var x := Run(w, START, ops).state; var result := AfterInbound(w, x, t).1;
            && result != HardLocked(Constitution) && result != Quarantined(TokenRefused)
            && (result.HaapGated? <==> StopsAtGate(w, x, t))
  {
    hide Run, MemoryOk, AfterInbound, StopsAtGate, TurnOk, OperationsOk;
    ReachableMemoryOk(w, ops, t.sessionId);
    GateReachability(w, Run(w, START, ops).state, t);
  }
}
