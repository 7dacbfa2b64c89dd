/** What the arbiter's rules amount to: escalation is a join, modifiers only tighten, and
    the audit log replays to the current state. */
module Escalation {
  import opened Wrappers
  import opened Signals
  import opened Arbiter
  import opened RealArithmetic
  import SessionMemory

  // ---- one signal ----------------------------------------------------------------------

  /** The state a signal demands, whatever the session's own. */
  function Target(config: Config, s: Signal): SecurityState {
    match s.severity
    case Clean | Low => S1
    case Medium => if s.confidence >= config.medium then S2 else S1
    case High => if s.confidence >= config.high then S3 else if s.confidence >= config.medium then S2 else S1
    case Critical => if s.confidence >= config.critical then S4 else if s.confidence >= config.high then S3 else S1
  }

  function Demand(config: Config, s: Signal, modifier: real): SecurityState {
    if modifier <= 0.0 then (if s.IsClean() then S1 else S4) else Target(Scaled(config, modifier), s)
  }

  lemma NewStateIsMax(config: Config, current: SecurityState, s: Signal)
    ensures NewState(config, current, s) == Max(current, Target(config, s))
  {
  }

  /** The returned state is the session's state, except that a lock demanded of a session
      that is not held is returned and audited but not made. */
  predicate Honoured(st: State, s: Signal, modifier: real) {
    s.sessionId in st.sessions || modifier > 0.0 || s.IsClean()
  }

  lemma SignalJoins(config: Config, st: State, s: Signal, now: int)
    ensures var after := AfterSignal(config, st, s, now);
            && Current(after, s.sessionId) == Max(Current(st, s.sessionId), Target(config, s))
            && after.sessions.Keys == st.sessions.Keys + {s.sessionId}
            && forall other | other != s.sessionId :: Current(after, other) == Current(st, other)
  {
    hide AuditEntry, NewState;
    NewStateIsMax(config, Current(Opened(st, s.sessionId, now), s.sessionId), s);
  }

  lemma LockJoins(config: Config, st: State, s: Signal, now: int)
    ensures var after := Transitioned(config, st, s.sessionId, Current(st, s.sessionId), S4, s, now);
            && after.sessions.Keys == st.sessions.Keys
            && Current(after, s.sessionId) == (if s.sessionId in st.sessions then S4 else S1)
            && forall other | other != s.sessionId :: Current(after, other) == Current(st, other)
  {
    hide AuditEntry;
  }

  /** One call joins the demand into the session's state and touches no other session. */
  lemma ProcessJoins(config: Config, st: State, s: Signal, modifier: real, now: int)
    requires Honoured(st, s, modifier)
    ensures var after := AfterProcess(config, st, s, modifier, now);
            && Current(after, s.sessionId) == Max(Current(st, s.sessionId), Demand(config, s, modifier))
            && ProcessResult(config, st, s, modifier, now) == Current(after, s.sessionId)
            && st.sessions.Keys <= after.sessions.Keys <= st.sessions.Keys + {s.sessionId}
            && (modifier > 0.0 ==> s.sessionId in after.sessions)
            && forall other | other != s.sessionId :: Current(after, other) == Current(st, other)
  {
    hide Target, AfterSignal, Transitioned, Scaled;
    if modifier > 0.0 {
      SignalJoins(Scaled(config, modifier), st, s, now);
    } else {
      LockJoins(config, st, s, now);
    }
  }

  /** The one case in which the returned state is not the session's. */
  lemma ReturnedIsCurrentIff(config: Config, st: State, s: Signal, modifier: real, now: int)
    ensures (ProcessResult(config, st, s, modifier, now) ==
             Current(AfterProcess(config, st, s, modifier, now), s.sessionId)) <==> Honoured(st, s, modifier)
  {
    hide AfterSignal, Transitioned, Scaled;
    LockJoins(config, st, s, now);
  }

  /** A modifier of one is the plain path. */
  lemma UnitModifierIsPlain(config: Config, st: State, s: Signal, now: int)
    ensures AfterProcess(config, st, s, 1.0, now) == AfterSignal(config, st, s, now)
    ensures ProcessResult(config, st, s, 1.0, now) == Current(AfterSignal(config, st, s, now), s.sessionId)
  {
    hide AfterSignal;
  }

  // ---- many signals ------------------------------------------------------------------------

  datatype Call = Call(signal: Signal, modifier: real, now: int)

  function RunCalls(config: Config, st: State, calls: seq<Call>): State
    decreases |calls|
  {
    if calls == [] then st
    else RunCalls(config, AfterProcess(config, st, calls[0].signal, calls[0].modifier, calls[0].now), calls[1..])
  }

  /** The highest state demanded. */
  function Demands(config: Config, calls: seq<Call>): SecurityState {
    if calls == [] then S1
    else Max(Demand(config, calls[0].signal, calls[0].modifier), Demands(config, calls[1..]))
  }

  predicate AllFor(id: string, calls: seq<Call>) {
    forall i | 0 <= i < |calls| :: calls[i].signal.sessionId == id
  }

  /** Escalation is a join: a held session ends at the maximum of where it started and
      what its signals demanded. */
  lemma {:induction false} RunIsJoin(config: Config, st: State, id: string, calls: seq<Call>)
    requires id in st.sessions && AllFor(id, calls)
    ensures Current(RunCalls(config, st, calls), id) == Max(Current(st, id), Demands(config, calls))
    decreases |calls|
  {
    hide AfterProcess, Demand;
    if calls != [] {
      ProcessJoins(config, st, calls[0].signal, calls[0].modifier, calls[0].now);
      RunIsJoin(config, AfterProcess(config, st, calls[0].signal, calls[0].modifier, calls[0].now), id, calls[1..]);
    }
  }

  lemma {:induction false} DemandsBound(config: Config, calls: seq<Call>, limit: nat)
    requires limit >= 1
    ensures Level(Demands(config, calls)) <= limit <==>
            forall call | call in calls :: Level(Demand(config, call.signal, call.modifier)) <= limit
  {
    hide Demand;
    if calls != [] {
      DemandsBound(config, calls[1..], limit);
      assert calls == [calls[0]] + calls[1..];
    }
  }

  lemma SameLevel(a: SecurityState, b: SecurityState)
    requires Level(a) == Level(b)
    ensures a == b
  {
  }

  /** Hence the order of the calls does not matter. */
  lemma OrderIrrelevant(config: Config, st: State, id: string, a: seq<Call>, b: seq<Call>)
    requires id in st.sessions && AllFor(id, a) && AllFor(id, b) && multiset(a) == multiset(b)
    ensures Current(RunCalls(config, st, a), id) == Current(RunCalls(config, st, b), id)
  {
    hide RunCalls, Demands, Demand;
    RunIsJoin(config, st, id, a);
    RunIsJoin(config, st, id, b);
    assert forall call :: call in a <==> call in multiset(a);
    assert forall call :: call in b <==> call in multiset(b);
    DemandsBound(config, a, Level(Demands(config, b)));
    DemandsBound(config, b, Level(Demands(config, b)));
    DemandsBound(config, b, Level(Demands(config, a)));
    DemandsBound(config, a, Level(Demands(config, a)));
    SameLevel(Demands(config, a), Demands(config, b));
  }

  predicate ThresholdsOk(config: Config) {
    config.medium >= 0.0 && config.high >= 0.0 && config.critical >= 0.0
  }

  /** What a threshold becomes under a modifier. */
  function ScaledBy(t: real, modifier: real): real {
    if -0.001 < modifier - 1.0 < 0.001 then t else t * modifier
  }

  lemma ScaledByMonotone(t: real, a: real, b: real)
    requires t >= 0.0 && a <= b
    ensures ScaledBy(t, a) <= ScaledBy(t, b)
  {
    var x := if -0.001 < a - 1.0 < 0.001 then 1.0 else a;
    var y := if -0.001 < b - 1.0 < 0.001 then 1.0 else b;
    TimesNoLess(y, x, t);
  }

  lemma ScaledMonotone(config: Config, a: real, b: real)
    requires ThresholdsOk(config) && a <= b
    ensures Scaled(config, a).medium <= Scaled(config, b).medium
    ensures Scaled(config, a).high <= Scaled(config, b).high
    ensures Scaled(config, a).critical <= Scaled(config, b).critical
  {
    hide Scaled, ScaledBy;
    ScaledFields(config, a);
    ScaledFields(config, b);
    ScaledByMonotone(config.medium, a, b);
    ScaledByMonotone(config.high, a, b);
    ScaledByMonotone(config.critical, a, b);
  }

  lemma ScaledFields(config: Config, modifier: real)
    ensures Scaled(config, modifier).medium == ScaledBy(config.medium, modifier)
    ensures Scaled(config, modifier).high == ScaledBy(config.high, modifier)
    ensures Scaled(config, modifier).critical == ScaledBy(config.critical, modifier)
  {
  }

  lemma DemandMonotone(config: Config, s: Signal, a: real, b: real)
    requires ThresholdsOk(config) && a <= b
    ensures Level(Demand(config, s, a)) >= Level(Demand(config, s, b))
  {
    hide Scaled;
    ScaledMonotone(config, a, b);
  }

  /** Smaller modifiers never end lower. */
  lemma {:induction false} SmallerModifiersEscalate(config: Config, tight: seq<Call>, loose: seq<Call>)
    requires ThresholdsOk(config) && |tight| == |loose|
    requires forall i | 0 <= i < |tight| ::
               tight[i].signal == loose[i].signal && tight[i].modifier <= loose[i].modifier
    ensures Level(Demands(config, tight)) >= Level(Demands(config, loose))
  {
    hide Demand;
    if tight != [] {
      DemandMonotone(config, tight[0].signal, tight[0].modifier, loose[0].modifier);
      SmallerModifiersEscalate(config, tight[1..], loose[1..]);
    }
  }

  /** So does the whole run of a held session. */
  lemma TighterRunsEndHigher(config: Config, st: State, id: string, tight: seq<Call>, loose: seq<Call>)
    requires ThresholdsOk(config) && |tight| == |loose| && id in st.sessions && AllFor(id, loose)
    requires forall i | 0 <= i < |tight| ::
               tight[i].signal == loose[i].signal && tight[i].modifier <= loose[i].modifier
    ensures Level(Current(RunCalls(config, st, tight), id)) >= Level(Current(RunCalls(config, st, loose), id))
  {
    hide RunCalls, Demands;
    RunIsJoin(config, st, id, tight);
    RunIsJoin(config, st, id, loose);
    SmallerModifiersEscalate(config, tight, loose);
  }

  // ---- the audit log ---------------------------------------------------------------------------

  /** An entry steps up, or is a reset to the bottom, or a denial that moves nothing. */
  predicate EntryShape(e: Entry) {
    match e.kind
    case Escalation => Level(e.after) > Level(e.before)
    case Reset => e.after == S1
    case ResetDenied => e.after == e.before
  }

  /** Where the entries of one session lead from `start`; none if they do not connect. */
  function Replay(entries: seq<Entry>, id: string, start: SecurityState): Option<SecurityState> {
    if entries == [] then Some(start)
    else
      var last := entries[|entries| - 1];
      match Replay(entries[..|entries| - 1], id, start)
      case None => None
      case Some(state) =>
        if last.sessionId != id then Some(state)
        else if last.before == state && EntryShape(last) then Some(last.after)
        else None
  }

  lemma ReplayAppend(entries: seq<Entry>, e: Entry, id: string, start: SecurityState, state: SecurityState)
    requires Replay(entries, id, start) == Some(state)
    ensures Replay(entries + [e], id, start) ==
            if e.sessionId != id then Some(state)
            else if e.before == state && EntryShape(e) then Some(e.after) else None
  {
    assert (entries + [e])[..|entries|] == entries;
  }

  /** The log since `mark` replays to the session's state. */
  predicate Faithful(st: State, id: string, mark: nat) {
    mark <= |st.audit| && Replay(st.audit[mark..], id, S1) == Some(Current(st, id))
  }

  lemma TransitionFaithful(config: Config, st: State, id: string, to: SecurityState, s: Signal, now: int, who: string,
                           mark: nat)
    requires Faithful(st, who, mark) && id in st.sessions
    ensures Faithful(Transitioned(config, st, id, Current(st, id), to, s, now), who, mark)
  {
    hide Replay;
    var before := Current(st, id);
    if Level(to) > Level(before) {
      var e := AuditEntry(id, before, to, s, now);
      ReplayAppend(st.audit[mark..], e, who, S1, Current(st, who));
      assert (st.audit + [e])[mark..] == st.audit[mark..] + [e];
    }
  }

  lemma OpenFaithful(st: State, id: string, now: int, who: string, mark: nat)
    requires Faithful(st, who, mark)
    ensures Faithful(Opened(st, id, now), who, mark) && id in Opened(st, id, now).sessions
  {
    hide Replay;
  }

  /** A call that is honoured keeps the log faithful for every session. */
  lemma ProcessFaithful(config: Config, st: State, s: Signal, modifier: real, now: int, who: string, mark: nat)
    requires Honoured(st, s, modifier) && Faithful(st, who, mark)
    ensures Faithful(AfterProcess(config, st, s, modifier, now), who, mark)
  {
    hide Replay, Faithful, Transitioned, Opened, NewState, Scaled;
    if modifier > 0.0 {
      OpenFaithful(st, s.sessionId, now, who, mark);
      var begun, effective := Opened(st, s.sessionId, now), Scaled(config, modifier);
      TransitionFaithful(effective, begun, s.sessionId, NewState(effective, Current(begun, s.sessionId), s), s, now,
                         who, mark);
    } else if !s.IsClean() {
      TransitionFaithful(config, st, s.sessionId, S4, s, now, who, mark);
    }
  }

  /** Granted, denied or unavailable, a reset keeps the log faithful. */
  lemma ResetFaithful(st: State, id: string, authority: Option<string -> bool>, token: string, hash: string, now: int,
                      who: string, mark: nat)
    requires Faithful(st, who, mark)
    ensures Faithful(AfterReset(st, id, authority, token, hash, now), who, mark)
  {
    hide Replay;
    if authority.Some? {
      var e := ResetEntry(st, id, if authority.value(token) then Reset else ResetDenied, hash, now);
      ReplayAppend(st.audit[mark..], e, who, S1, Current(st, who));
      assert (st.audit + [e])[mark..] == st.audit[mark..] + [e];
    }
  }

  /** Ending a session restarts its replay; the others are untouched. */
  lemma ForgetFaithful(st: State, id: string, who: string, mark: nat)
    requires Faithful(st, who, mark)
    ensures Faithful(Forgotten(st, id), who, if who == id then |st.audit| else mark)
  {
    hide Replay;
    if who == id {
      EmptyReplay(who);
      assert st.audit[|st.audit|..] == [];
    }
  }

  lemma EmptyReplay(id: string)
    ensures Replay([], id, S1) == Some(S1)
  {
  }

  /** A demand not honoured breaks the replay: the log then shows a lock the session
      never had. */
  lemma PhantomLock(config: Config, st: State, s: Signal, modifier: real, now: int, mark: nat)
    requires Faithful(st, s.sessionId, mark) && !Honoured(st, s, modifier)
    ensures !Faithful(AfterProcess(config, st, s, modifier, now), s.sessionId, mark)
    ensures ProcessResult(config, st, s, modifier, now) == S4
    ensures Current(AfterProcess(config, st, s, modifier, now), s.sessionId) == S1
  {
    hide Replay;
    var e := AuditEntry(s.sessionId, S1, S4, s, now);
    ReplayAppend(st.audit[mark..], e, s.sessionId, S1, S1);
    assert (st.audit + [e])[mark..] == st.audit[mark..] + [e];
  }

  // ---- the memory floor ----------------------------------------------------------------------

  /** The floor only raises, and below it nothing passes. */
  lemma FloorJoins(memory: SessionMemory.MemoryState, decided: SecurityState)
    ensures Floored(memory, decided) ==
            Max(decided, if MemoryFloor(memory).Some? then MemoryFloor(memory).value else S1)
    ensures Floored(memory, decided) == S1 <==>
            decided == S1 && (memory == SessionMemory.Clear || memory == SessionMemory.Watching)
  {
  }
}
