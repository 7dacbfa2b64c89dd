/** The enforcement pipeline: inspection layers feed the arbiter, memory and the human
    gate decide with it. The layers' verdicts are inputs; every signal carries the
    session it was raised for. */
module EnforcementPipeline {
  import opened Wrappers
  import opened Signals
  import Memory = SessionMemory
  import Arbiter
  import Haap

  /** Why a turn was stopped. */
  datatype Cause = Layer | Drift | Constitution | TokenRefused | FinalState

  datatype Enforcement =
    | Approved
    | Restricted
    | Quarantined(cause: Cause)
    | HardLocked(cause: Cause)
    | HaapGated(drs: nat)

  /** What strategic memory recommends for a session it has not seen. */
  datatype Advice = Advice(initial: Memory.MemoryState, modifier: real)

  /** The four recommendations there are. */
  predicate AdviceOk(a: Advice) {
    || a == Advice(Memory.Clear, 1.0)
    || a == Advice(Memory.Watching, 0.80)
    || a == Advice(Memory.Elevated, 0.55)
    || a == Advice(Memory.Escalated, 0.30)
  }

  /** One inbound turn: the sentinel's signal for each inspected segment (exactly one for
      a plain text), and one signal of each later layer. */
  datatype Turn = Turn(
    sessionId: string,
    segments: seq<Signal>,
    corridor: Signal,
    overwatch: Signal,
    oim: Signal,
    classification: Memory.Classification,
    advice: Advice,
    actionClass: string,
    checkpointHash: string,
    now: int)

  /** One outbound reply and the signal each layer raises for it. */
  datatype Reply = Reply(
    sessionId: string,
    corridor: Signal,
    overwatch: Signal,
    oim: Signal,
    sentinel: Signal,
    now: int)

  datatype Setup = Setup(
    arbiter: Arbiter.Config,
    memory: Memory.Config,
    haap: Haap.Setup,
    blockThreshold: real,
    resetAuthority: Option<string -> bool>,
    resetHash: string)

  const DEFAULT_BLOCK_THRESHOLD := 0.7

  /** `valid_block_threshold`; anything else stops the process at startup. */
  predicate BlockThresholdOk(t: real) {
    0.0 <= t < 1.0
  }

  datatype State = State(arbiter: Arbiter.State, memories: map<string, Memory.Memory>, haap: Haap.State)

  const EMPTY := State(Arbiter.EMPTY, map[], Haap.EMPTY)

  // ---- small rules -----------------------------------------------------------------------

  function ResultFor(s: Arbiter.SecurityState): Enforcement {
    match s
    case S1 => Approved
    case S2 => Restricted
    case S3 => Quarantined(FinalState)
    case S4 => HardLocked(FinalState)
  }

  function HardBlock(s: Arbiter.SecurityState): Option<Enforcement> {
    match s
    case S4 => Some(HardLocked(Layer))
    case S3 => Some(Quarantined(Layer))
    case _ => None
  }

  /** The more severe signal, the more confident among equals, the earlier among those. */
  function Highest(best: Option<Signal>, s: Signal): Option<Signal> {
    match best
    case None => Some(s)
    case Some(b) =>
      if Rank(s.severity) > Rank(b.severity) || (s.severity == b.severity && s.confidence > b.confidence) then Some(s)
      else best
  }

  function HighestOf(best: Option<Signal>, signals: seq<Signal>): Option<Signal>
    decreases |signals|
  {
    if signals == [] then best else HighestOf(Highest(best, signals[0]), signals[1..])
  }

  function MemoryPressure(memories: map<string, Memory.Memory>, id: string): nat {
    if id !in memories then 0
    else match memories[id].state
         case Clear => 0
         case Watching => 5
         case Elevated => 15
         case Escalated => 25
         case Locked => 50
  }

  function BaseRisk(s: Arbiter.SecurityState): nat {
    match s
    case S1 => 0
    case S2 => 45
    case S3 => 75
    case S4 => 100
  }

  /** `session_drs` */
  function SessionDrs(st: State, id: string): nat {
    var sum := BaseRisk(Arbiter.Current(st.arbiter, id)) + MemoryPressure(st.memories, id);
    if sum > 100 then 100 else sum
  }

  /** `should_block` */
  predicate ShouldBlock(w: Setup, st: State, id: string) {
    id in st.memories && 1.0 - Memory.ThresholdModifier(st.memories[id].state) > w.blockThreshold
  }

  function StartMemory(a: Advice): Memory.Memory {
    Memory.FRESH.(state := a.initial)
  }

  function Modifier(st: State, id: string, a: Advice): real {
    if id in st.memories then Memory.ThresholdModifier(st.memories[id].state) else a.modifier
  }

  function Initialised(st: State, id: string, a: Advice): State {
    if id in st.memories then st else st.(memories := st.memories[id := StartMemory(a)])
  }

  function CheckpointSignal(t: Turn, state: Memory.MemoryState): Signal {
    var (severity, confidence) :=
      match state
      case Clear => (Clean, 0.0)
      case Watching => (Medium, 0.70)
      case Elevated => (High, 0.82)
      case Escalated => (High, 0.90)
      case Locked => (Critical, 0.98);
    Signal(Sentinel, Inbound, Some("SESSION_MEMORY_ESCALATION"), Some("MEM-001"), severity, confidence,
           t.checkpointHash, Some("sentinel/session_memory"), None, t.sessionId)
  }

  // ---- the stages of an inbound turn ---------------------------------------------------------

  /** Still going, with the highest signal so far, or stopped. */
  datatype Progress = Going(state: State, highest: Option<Signal>) | Stopped(state: State, result: Enforcement)

  function Ingested(w: Setup, st: State, t: Turn, highest: Option<Signal>): State {
    if highest.None? || t.sessionId !in st.memories then st
    else st.(memories := st.memories[t.sessionId :=
               Memory.Ingest(w.memory, st.memories[t.sessionId], highest.value, t.classification, t.now)])
  }

  function Processed(w: Setup, st: State, s: Signal, modifier: real, now: int): State {
    st.(arbiter := Arbiter.AfterProcess(w.arbiter, st.arbiter, s, modifier, now))
  }

  /** A signal goes to the arbiter; a quarantine or lock ends the turn. */
  function LayerStage(w: Setup, st: State, t: Turn, s: Signal, highest: Option<Signal>, modifier: real): Progress {
    var next := Processed(w, st, s, modifier, t.now);
    match HardBlock(Arbiter.ProcessResult(w.arbiter, st.arbiter, s, modifier, t.now))
    case Some(result) => Stopped(Ingested(w, next, t, highest), result)
    case None => Going(next, highest)
  }

  function SentinelStage(w: Setup, st: State, t: Turn, modifier: real): Progress {
    match HighestOf(None, t.segments)
    case None => Going(st, None)
    case Some(s) => LayerStage(w, st, t, s, Some(s), modifier)
  }

  function CorridorStage(w: Setup, p: Progress, t: Turn, modifier: real): Progress {
    match p
    case Stopped(_, _) => p
    case Going(st, highest) => LayerStage(w, st, t, t.corridor, Highest(highest, t.corridor), modifier)
  }

  function DriftStage(w: Setup, p: Progress, t: Turn): Progress {
    match p
    case Stopped(_, _) => p
    case Going(st, highest) =>
      if ShouldBlock(w, st, t.sessionId) then Stopped(Ingested(w, st, t, highest), Quarantined(Drift)) else p
  }

  function OverwatchStage(w: Setup, p: Progress, t: Turn, modifier: real): Progress {
    match p
    case Stopped(_, _) => p
    case Going(st, highest) => LayerStage(w, st, t, t.overwatch, Highest(highest, t.overwatch), modifier)
  }

  /** How far a turn gets before the human gate. */
  function ToGate(w: Setup, st: State, t: Turn): Progress {
    var modifier := Modifier(st, t.sessionId, t.advice);
    var begun := SentinelStage(w, Initialised(st, t.sessionId, t.advice), t, modifier);
    OverwatchStage(w, DriftStage(w, CorridorStage(w, begun, t, modifier), t), t, modifier)
  }

  function GateVerdict(w: Setup, st: State, t: Turn): Haap.Verdict {
    Haap.EvaluateResult(w.haap, st.haap, t.sessionId, Haap.ExecuteActions, SessionDrs(st, t.sessionId), t.actionClass,
                        None, t.now)
  }

  function GateStage(w: Setup, p: Progress, t: Turn): Progress {
    match p
    case Stopped(_, _) => p
    case Going(st, highest) =>
      var next := st.(haap := Haap.AfterEvaluate(w.haap, st.haap, t.sessionId, Haap.ExecuteActions,
                                                 SessionDrs(st, t.sessionId), t.actionClass, None, t.now));
      match GateVerdict(w, st, t)
      case ConstitutionalBlock(_) => Stopped(Ingested(w, next, t, highest), HardLocked(Constitution))
      case GateRequired(drs, _) => Stopped(Ingested(w, next, t, highest), HaapGated(drs))
      case TokenRejected(_) => Stopped(Ingested(w, next, t, highest), Quarantined(TokenRefused))
      case _ => Going(next, highest)
  }

  /** The integrity monitor, the memory, its floor, and a checkpoint signal when the
      floor raises the state. */
  function FinalStage(w: Setup, p: Progress, t: Turn, modifier: real): (State, Enforcement) {
    match p
    case Stopped(st, result) => (st, result)
    case Going(st, highest) =>
      var state := Arbiter.ProcessResult(w.arbiter, st.arbiter, t.oim, modifier, t.now);
      var ingested := Ingested(w, Processed(w, st, t.oim, modifier, t.now), t, Highest(highest, t.oim));
      if t.sessionId !in ingested.memories then (ingested, ResultFor(state))
      else
        var memory := ingested.memories[t.sessionId].state;
        var floored := Arbiter.Floored(memory, state);
        var last := if Arbiter.Level(floored) > Arbiter.Level(state)
                    then ingested.(arbiter := Arbiter.AfterSignal(w.arbiter, ingested.arbiter,
                                                                  CheckpointSignal(t, memory), t.now))
                    else ingested;
        (last, ResultFor(floored))
  }

  function AfterInbound(w: Setup, st: State, t: Turn): (State, Enforcement) {
    FinalStage(w, GateStage(w, ToGate(w, st, t), t), t, Modifier(st, t.sessionId, t.advice))
  }

  // ---- outbound, end and reset ------------------------------------------------------------------

  function OutboundModifier(st: State, id: string): real {
    if id in st.memories then Memory.ThresholdModifier(st.memories[id].state) else 1.0
  }

  /** One outbound layer. */
  function OutStage(w: Setup, p: Progress, s: Signal, modifier: real, now: int): Progress {
    match p
    case Stopped(_, _) => p
    case Going(st, _) =>
      match HardBlock(Arbiter.ProcessResult(w.arbiter, st.arbiter, s, modifier, now))
      case Some(result) => Stopped(Processed(w, st, s, modifier, now), result)
      case None => Going(Processed(w, st, s, modifier, now), None)
  }

  function AfterOutbound(w: Setup, st: State, r: Reply): (State, Enforcement) {
    var modifier := OutboundModifier(st, r.sessionId);
    var p := OutStage(w, OutStage(w, OutStage(w, Going(st, None), r.corridor, modifier, r.now), r.overwatch, modifier,
                                  r.now), r.oim, modifier, r.now);
    match p
    case Stopped(last, result) => (last, result)
    case Going(last, _) =>
      (Processed(w, last, r.sentinel, modifier, r.now),
       ResultFor(Arbiter.ProcessResult(w.arbiter, last.arbiter, r.sentinel, modifier, r.now)))
  }

  function AfterEnd(st: State, id: string): State {
    st.(arbiter := Arbiter.Forgotten(st.arbiter, id), memories := st.memories - {id})
  }

  function AfterReset(w: Setup, st: State, id: string, token: string, now: int): State {
    var next := st.(arbiter := Arbiter.AfterReset(st.arbiter, id, w.resetAuthority, token, w.resetHash, now));
    if Arbiter.ResetResult(w.resetAuthority, token).Pass? then next.(memories := st.memories - {id}) else next
  }

  // ---- the pipeline --------------------------------------------------------------------------------

  class Pipeline {
    const arbiter: Arbiter.Arbiter
    const haap: Haap.HaapGate
    const memoryConfig: Memory.Config
    const blockThreshold: real
    var memories: map<string, Memory.Memory>

    ghost function View(): State
      reads this, arbiter, haap
    {
      State(arbiter.View(), memories, haap.View())
    }

    ghost function TheSetup(): Setup
      reads arbiter
    {
      Setup(arbiter.config, memoryConfig, haap.TheSetup(), blockThreshold, arbiter.authority, arbiter.resetPayloadHash)
    }

    constructor (arbiter: Arbiter.Arbiter, haap: Haap.HaapGate, blockThreshold: real)
      requires BlockThresholdOk(blockThreshold)
      ensures this.arbiter == arbiter && this.haap == haap && this.blockThreshold == blockThreshold
      ensures memoryConfig == Memory.DEFAULT_CONFIG && memories == map[]
    {
      this.arbiter, this.haap, this.blockThreshold := arbiter, haap, blockThreshold;
      memoryConfig := Memory.DEFAULT_CONFIG;
      memories := map[];
    }

    method InitSessionMemory(id: string, advice: Advice) returns (modifier: real)
      modifies `memories
      ensures View() == Initialised(old(View()), id, advice)
      ensures modifier == Modifier(old(View()), id, advice)
    {
      if id in memories {
        return Memory.ThresholdModifier(memories[id].state);
      }
      memories := memories[id := StartMemory(advice)];
      modifier := advice.modifier;
    }

    method IngestToMemory(t: Turn, highest: Option<Signal>) returns (verdict: Option<Memory.MemoryState>)
      modifies `memories
      ensures View() == Ingested(TheSetup(), old(View()), t, highest)
      ensures verdict == if highest.Some? && t.sessionId in memories then Some(memories[t.sessionId].state) else None
    {
      hide Memory.Ingest;
      if highest.Some? && t.sessionId in memories {
        var after := Memory.Ingest(memoryConfig, memories[t.sessionId], highest.value, t.classification, t.now);
        memories := memories[t.sessionId := after];
        return Some(after.state);
      }
      verdict := None;
    }

    method TrackHighest(signals: seq<Signal>) returns (highest: Option<Signal>)
      ensures highest == HighestOf(None, signals)
    {
      hide Highest;
      highest := None;
      for i := 0 to |signals|
        invariant HighestOf(highest, signals[i..]) == HighestOf(None, signals)
      {
        assert signals[i..][1..] == signals[i + 1..];
        highest := Highest(highest, signals[i]);
      }
    }

    /** One inspection layer of an inbound turn. */
    method RunLayer(t: Turn, s: Signal, highest: Option<Signal>, modifier: real) returns (stop: Option<Enforcement>)
      modifies this, arbiter
      ensures TheSetup() == old(TheSetup())
      ensures LayerStage(TheSetup(), old(View()), t, s, highest, modifier) ==
              if stop.Some? then Stopped(View(), stop.value) else Going(View(), highest)
    {
      hide Arbiter.AfterProcess, Arbiter.ProcessResult, Memory.Ingest;
      var state := arbiter.ProcessWithModifier(s, modifier, t.now);
      stop := HardBlock(state);
      if stop.Some? {
        var _ := IngestToMemory(t, highest);
      }
    }

    method ShouldBlockSession(id: string) returns (block: bool)
      ensures block == ShouldBlock(TheSetup(), View(), id)
    {
      if id !in memories {
        return false;
      }
      var score := 1.0 - Memory.ThresholdModifier(memories[id].state);
      block := score > blockThreshold;
    }

    method SessionRisk(id: string) returns (drs: nat)
      ensures drs == SessionDrs(View(), id)
    {
      var state := arbiter.CurrentState(id);
      var sum := BaseRisk(state) + MemoryPressure(memories, id);
      drs := if sum > 100 then 100 else sum;
    }

    /** Everything before the human gate. */
    method RunLayers(t: Turn) returns (stop: Option<Enforcement>, highest: Option<Signal>, modifier: real)
      modifies this, arbiter
      ensures TheSetup() == old(TheSetup()) && modifier == Modifier(old(View()), t.sessionId, t.advice)
      ensures ToGate(TheSetup(), old(View()), t) ==
              if stop.Some? then Stopped(View(), stop.value) else Going(View(), highest)
    {
      hide LayerStage, ShouldBlock, Modifier, Initialised, Highest, HighestOf;
      modifier := InitSessionMemory(t.sessionId, t.advice);
      highest := TrackHighest(t.segments);
      if highest.Some? {
        stop := RunLayer(t, highest.value, highest, modifier);
        if stop.Some? { return; }
      }
      highest := Highest(highest, t.corridor);
      stop := RunLayer(t, t.corridor, highest, modifier);
      if stop.Some? { return; }
      var block := ShouldBlockSession(t.sessionId);
      if block {
        var _ := IngestToMemory(t, highest);
        stop := Some(Quarantined(Drift));
        return;
      }
      highest := Highest(highest, t.overwatch);
      stop := RunLayer(t, t.overwatch, highest, modifier);
    }

    method RunGate(t: Turn, highest: Option<Signal>) returns (stop: Option<Enforcement>)
      modifies this, haap
      ensures TheSetup() == old(TheSetup())
      ensures GateStage(TheSetup(), Going(old(View()), highest), t) ==
              if stop.Some? then Stopped(View(), stop.value) else Going(View(), highest)
    {
      hide Haap.EvaluateResult, Haap.AfterEvaluate, SessionDrs, Memory.Ingest;
      var drs := SessionRisk(t.sessionId);
      var verdict := haap.Evaluate(t.sessionId, Haap.ExecuteActions, drs, t.actionClass, None, t.now);
      match verdict {
        case ConstitutionalBlock(_) => stop := Some(HardLocked(Constitution));
        case GateRequired(required, _) => stop := Some(HaapGated(required));
        case TokenRejected(_) => stop := Some(Quarantined(TokenRefused));
        case _ => stop := None;
      }
      if stop.Some? {
        var _ := IngestToMemory(t, highest);
      }
    }

    method Finish(t: Turn, tracked: Option<Signal>, modifier: real) returns (result: Enforcement)
      modifies this, arbiter
      ensures TheSetup() == old(TheSetup())
      ensures (View(), result) == FinalStage(TheSetup(), Going(old(View()), tracked), t, modifier)
    {
      hide Arbiter.AfterProcess, Arbiter.ProcessResult, Arbiter.AfterSignal, Memory.Ingest, CheckpointSignal, Highest,
           Arbiter.Floored;
      var highest := Highest(tracked, t.oim);
      var state := arbiter.ProcessWithModifier(t.oim, modifier, t.now);
      HighestSome(tracked, t.oim);
      var verdict := IngestToMemory(t, highest);
      if verdict.None? {
        return ResultFor(state);
      }
      var floored := Arbiter.Floored(verdict.value, state);
      if Arbiter.Level(floored) > Arbiter.Level(state) {
        var _ := arbiter.Process(CheckpointSignal(t, verdict.value), t.now);
      }
      result := ResultFor(floored);
    }

    /** `inbound_with_identity` and `inbound_context_with_identity` after verification. */
    method Inbound(t: Turn) returns (result: Enforcement)
      modifies this, arbiter, haap
      ensures TheSetup() == old(TheSetup())
      ensures (View(), result) == AfterInbound(TheSetup(), old(View()), t)
    {
      hide ToGate, GateStage, FinalStage;
      var stop, highest, modifier := RunLayers(t);
      StoppedStays(TheSetup(), old(View()), t, View(), highest, stop);
      if stop.Some? {
        return stop.value;
      }
      ghost var atGate := View();
      stop := RunGate(t, highest);
      StoppedEnds(TheSetup(), Going(atGate, highest), t, View(), highest, stop, modifier);
      if stop.Some? {
        return stop.value;
      }
      result := Finish(t, highest, modifier);
    }

    method RunOutLayer(s: Signal, modifier: real, now: int) returns (stop: Option<Enforcement>)
      modifies arbiter
      ensures TheSetup() == old(TheSetup())
      ensures OutStage(TheSetup(), Going(old(View()), None), s, modifier, now) ==
              if stop.Some? then Stopped(View(), stop.value) else Going(View(), None)
    {
      hide Arbiter.AfterProcess, Arbiter.ProcessResult;
      var state := arbiter.ProcessWithModifier(s, modifier, now);
      stop := HardBlock(state);
    }

    method Outbound(r: Reply) returns (result: Enforcement)
      modifies arbiter
      ensures TheSetup() == old(TheSetup())
      ensures (View(), result) == AfterOutbound(TheSetup(), old(View()), r)
    {
      hide Arbiter.AfterProcess, Arbiter.ProcessResult, HardBlock;
      var modifier := if r.sessionId in memories then Memory.ThresholdModifier(memories[r.sessionId].state) else 1.0;
      var stop := RunOutLayer(r.corridor, modifier, r.now);
      if stop.Some? { return stop.value; }
      stop := RunOutLayer(r.overwatch, modifier, r.now);
      if stop.Some? { return stop.value; }
      stop := RunOutLayer(r.oim, modifier, r.now);
      if stop.Some? { return stop.value; }
      var state := arbiter.ProcessWithModifier(r.sentinel, modifier, r.now);
      result := ResultFor(state);
    }

    method EndSession(id: string)
      modifies this, arbiter
      ensures TheSetup() == old(TheSetup()) && View() == AfterEnd(old(View()), id)
    {
      memories := memories - {id};
      arbiter.ForgetSession(id);
    }

    method OperatorReset(id: string, token: string, now: int) returns (r: Outcome<Arbiter.ResetError>)
      modifies this, arbiter
      ensures TheSetup() == old(TheSetup())
      ensures View() == AfterReset(TheSetup(), old(View()), id, token, now)
      ensures r == Arbiter.ResetResult(TheSetup().resetAuthority, token)
    {
      hide Arbiter.AfterReset;
      r := arbiter.OperatorReset(id, token, now);
      if r.Pass? {
        memories := memories - {id};
      }
    }
  }

  lemma HighestSome(best: Option<Signal>, s: Signal)
    ensures Highest(best, s).Some?
  {
  }

  /** A stopped turn passes the later stages unchanged. */
  lemma StoppedStays(w: Setup, st: State, t: Turn, reached: State, highest: Option<Signal>, stop: Option<Enforcement>)
    requires ToGate(w, st, t) == if stop.Some? then Stopped(reached, stop.value) else Going(reached, highest)
    ensures stop.Some? ==> AfterInbound(w, st, t) == (reached, stop.value)
    ensures stop.None? ==>
              AfterInbound(w, st, t) ==
              FinalStage(w, GateStage(w, Going(reached, highest), t), t, Modifier(st, t.sessionId, t.advice))
  {
    hide ToGate, Modifier, Haap.AfterEvaluate, GateVerdict, Ingested, SessionDrs, Arbiter.ProcessResult, Processed,
         CheckpointSignal;
  }

  lemma StoppedEnds(w: Setup, p: Progress, t: Turn, reached: State, highest: Option<Signal>, stop: Option<Enforcement>,
                    modifier: real)
    requires GateStage(w, p, t) == if stop.Some? then Stopped(reached, stop.value) else Going(reached, highest)
    ensures stop.Some? ==> FinalStage(w, GateStage(w, p, t), t, modifier) == (reached, stop.value)
  {
    hide GateStage, Ingested, Arbiter.ProcessResult, Processed, CheckpointSignal;
  }
}
