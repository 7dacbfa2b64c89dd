/** Per-session security states, their escalation and the audit log. One call is one
    step, with one reading of the clock. */
module Arbiter {
  import opened Wrappers
  import opened Signals
  import opened Clock
  import SessionMemory

  datatype SecurityState = S1 | S2 | S3 | S4

  function Level(s: SecurityState): nat {
    match s
    case S1 => 1
    case S2 => 2
    case S3 => 3
    case S4 => 4
  }

  function Max(a: SecurityState, b: SecurityState): SecurityState {
    if Level(a) < Level(b) then b else a
  }

  datatype Config = Config(medium: real, high: real, critical: real, lockdownSeconds: int)

  const CONSUMER := Config(0.70, 0.80, 0.90, 3600)
  const MEDICAL := Config(0.85, 0.90, 0.95, 1800)
  const DEFENSE := Config(0.55, 0.65, 0.75, 7200)

  datatype Session = Session(current: SecurityState, lockedUntil: Option<int>)

  datatype EntryKind = Escalation | ResetDenied | Reset

  datatype Entry = Entry(
    kind: EntryKind,
    at: int,
    sessionId: string,
    source: Source,
    direction: Direction,
    before: SecurityState,
    after: SecurityState,
    violationClass: Option<string>,
    policyRuleId: Option<string>,
    severity: Severity,
    confidence: real,
    constitutionalRef: Option<string>,
    payloadHash: string)

  datatype State = State(sessions: map<string, Session>, audit: seq<Entry>)

  const EMPTY := State(map[], [])

  // ---- specification ---------------------------------------------------------------------

  function Current(st: State, id: string): SecurityState {
    if id in st.sessions then st.sessions[id].current else S1
  }

  /** The thresholds a modifier leaves; within a thousandth of one it changes nothing. */
  function Scaled(config: Config, modifier: real): Config {
    if -0.001 < modifier - 1.0 < 0.001 then config
    else config.(medium := config.medium * modifier, high := config.high * modifier,
                 critical := config.critical * modifier)
  }

  /** `determine_new_state` */
  function NewState(config: Config, current: SecurityState, s: Signal): SecurityState {
    match s.severity
    case Clean | Low => current
    case Medium =>
      if s.confidence >= config.medium then (if current == S1 then S2 else current) else current
    case High =>
      if s.confidence >= config.high then (if current == S1 || current == S2 then S3 else current)
      else if s.confidence >= config.medium then (if current == S1 then S2 else current)
      else current
    case Critical =>
      if s.confidence >= config.critical then S4
      else if s.confidence >= config.high then (if current == S1 || current == S2 then S3 else current)
      else current
  }

  function AuditEntry(id: string, before: SecurityState, after: SecurityState, s: Signal, now: int): Entry {
    Entry(Escalation, now, id, s.source, s.direction, before, after, s.violationClass, s.policyRuleId, s.severity,
          s.confidence, s.constitutionalRef, s.payloadHash)
  }

  /** A session is looked up or begun, and an elapsed lockdown forgotten. */
  function Opened(st: State, id: string, now: int): State {
    var session := if id in st.sessions then st.sessions[id] else Session(S1, None);
    var expired := session.lockedUntil.Some? && now >= session.lockedUntil.value;
    st.(sessions := st.sessions[id := if expired then session.(lockedUntil := None) else session])
  }

  /** `transition`: only upwards; the entry is written whether or not the session is held. */
  function Transitioned(config: Config, st: State, id: string, before: SecurityState, after: SecurityState, s: Signal,
                        now: int): State {
    if Level(after) <= Level(before) then st
    else
      var logged := st.(audit := st.audit + [AuditEntry(id, before, after, s, now)]);
      if id !in st.sessions then logged
      else
        var lockedUntil := if after == S4 then Some(now + config.lockdownSeconds * NANOS_PER_SECOND)
                           else st.sessions[id].lockedUntil;
        logged.(sessions := st.sessions[id := Session(after, lockedUntil)])
  }

  function AfterSignal(config: Config, st: State, s: Signal, now: int): State {
    var begun := Opened(st, s.sessionId, now);
    if s.IsClean() then begun
    else
      var before := Current(begun, s.sessionId);
      Transitioned(config, begun, s.sessionId, before, NewState(config, before, s), s, now)
  }

  /** `process_with_modifier`: at zero or below, every signal that is not clean locks. */
  function AfterProcess(config: Config, st: State, s: Signal, modifier: real, now: int): State {
    if modifier <= 0.0 then
      if s.IsClean() then st
      else Transitioned(config, st, s.sessionId, Current(st, s.sessionId), S4, s, now)
    else AfterSignal(Scaled(config, modifier), st, s, now)
  }

  function ProcessResult(config: Config, st: State, s: Signal, modifier: real, now: int): SecurityState {
    if modifier <= 0.0 && !s.IsClean() then S4 else Current(AfterProcess(config, st, s, modifier, now), s.sessionId)
  }

  function MemoryFloor(memory: SessionMemory.MemoryState): Option<SecurityState> {
    match memory
    case Clear | Watching => None
    case Elevated => Some(S2)
    case Escalated => Some(S3)
    case Locked => Some(S4)
  }

  function Floored(memory: SessionMemory.MemoryState, decided: SecurityState): SecurityState {
    match MemoryFloor(memory)
    case Some(floor) => if Level(decided) < Level(floor) then floor else decided
    case None => decided
  }

  function Forgotten(st: State, id: string): State {
    st.(sessions := st.sessions - {id})
  }

  datatype ResetError = NotConfigured | InvalidCredential

  function ResetEntry(st: State, id: string, kind: EntryKind, hash: string, now: int): Entry {
    var state := Current(st, id);
    Entry(kind, now, id, ArbiterSource, Inbound, state, if kind == Reset then S1 else state,
          Some(if kind == Reset then "OPERATOR_RESET" else "OPERATOR_RESET_DENIED"),
          Some(if kind == Reset then "ARB-RESET-001" else "ARB-RESET-DENIED-001"), Clean, 1.0,
          Some("arbiter/operator_reset"), hash)
  }

  function AfterReset(st: State, id: string, authority: Option<string -> bool>, token: string, hash: string, now: int)
      : State
  {
    if authority.None? then st
    else if !authority.value(token) then st.(audit := st.audit + [ResetEntry(st, id, ResetDenied, hash, now)])
    else
      var logged := st.(audit := st.audit + [ResetEntry(st, id, Reset, hash, now)]);
      if id in st.sessions then logged.(sessions := st.sessions[id := Session(S1, None)]) else logged
  }

  function ResetResult(authority: Option<string -> bool>, token: string): Outcome<ResetError> {
    if authority.None? then Fail(NotConfigured)
    else Need(authority.value(token), InvalidCredential)
  }

  // ---- the arbiter --------------------------------------------------------------------------

  class Arbiter {
    const config: Config
    /** SHA-256 of the fixed text the reset entries carry. */
    const resetPayloadHash: string
    var sessions: map<string, Session>
    var audit: seq<Entry>
    var authority: Option<string -> bool>

    ghost function View(): State
      reads this
    {
      State(sessions, audit)
    }

    constructor (config: Config, resetPayloadHash: string)
      ensures this.config == config && this.resetPayloadHash == resetPayloadHash
      ensures View() == EMPTY && authority == None
    {
      this.config, this.resetPayloadHash := config, resetPayloadHash;
      sessions, audit, authority := map[], [], None;
    }

    method ConfigureResetAuthority(check: string -> bool) returns (accepted: bool)
      modifies `authority
      ensures accepted == old(authority).None?
      ensures authority == if accepted then Some(check) else old(authority)
    {
      accepted := authority.None?;
      if accepted {
        authority := Some(check);
      }
    }

    method CurrentState(id: string) returns (s: SecurityState)
      ensures s == Current(View(), id)
    {
      s := if id in sessions then sessions[id].current else S1;
    }

    method Open(id: string, now: int)
      modifies `sessions
      ensures View() == Opened(old(View()), id, now)
    {
      if id !in sessions {
        sessions := sessions[id := Session(S1, None)];
      }
      var session := sessions[id];
      if session.lockedUntil.Some? && now >= session.lockedUntil.value {
        sessions := sessions[id := session.(lockedUntil := None)];
      }
    }

    method Transition(thresholds: Config, id: string, before: SecurityState, after: SecurityState, s: Signal, now: int)
      requires thresholds.lockdownSeconds == config.lockdownSeconds
      modifies `sessions, `audit
      ensures View() == Transitioned(thresholds, old(View()), id, before, after, s, now)
    {
      if Level(after) <= Level(before) {
        return;
      }
      if id in sessions {
        var session := sessions[id].(current := after);
        if after == S4 {
          session := session.(lockedUntil := Some(now + config.lockdownSeconds * NANOS_PER_SECOND));
        }
        sessions := sessions[id := session];
      }
      audit := audit + [AuditEntry(id, before, after, s, now)];
    }

    method ProcessWithThresholds(thresholds: Config, s: Signal, now: int) returns (state: SecurityState)
      requires thresholds.lockdownSeconds == config.lockdownSeconds
      modifies `sessions, `audit
      ensures View() == AfterSignal(thresholds, old(View()), s, now)
      ensures state == Current(View(), s.sessionId)
    {
      hide NewState, Opened, Transitioned, AuditEntry;
      Open(s.sessionId, now);
      if s.IsClean() {
        state := CurrentState(s.sessionId);
        return;
      }
      var before := CurrentState(s.sessionId);
      var after := NewState(thresholds, before, s);
      Transition(thresholds, s.sessionId, before, after, s, now);
      state := CurrentState(s.sessionId);
    }

    method Process(s: Signal, now: int) returns (state: SecurityState)
      modifies `sessions, `audit
      ensures View() == AfterSignal(config, old(View()), s, now)
      ensures state == Current(View(), s.sessionId)
    {
      state := ProcessWithThresholds(config, s, now);
    }

    method ProcessWithModifier(s: Signal, modifier: real, now: int) returns (state: SecurityState)
      modifies `sessions, `audit
      ensures View() == AfterProcess(config, old(View()), s, modifier, now)
      ensures state == ProcessResult(config, old(View()), s, modifier, now)
    {
      hide NewState, Opened, Transitioned, AfterSignal;
      if modifier <= 0.0 {
        var before := CurrentState(s.sessionId);
        if s.IsClean() {
          return before;
        }
        Transition(config, s.sessionId, before, S4, s, now);
        return S4;
      }
      if -0.001 < modifier - 1.0 < 0.001 {
        state := Process(s, now);
        return;
      }
      var effective := config.(medium := config.medium * modifier, high := config.high * modifier,
                               critical := config.critical * modifier);
      assert effective == Scaled(config, modifier);
      state := ProcessWithThresholds(effective, s, now);
    }

    method ForgetSession(id: string)
      modifies `sessions
      ensures View() == Forgotten(old(View()), id)
    {
      sessions := sessions - {id};
    }

    method OperatorReset(id: string, token: string, now: int) returns (r: Outcome<ResetError>)
      modifies `sessions, `audit
      ensures View() == AfterReset(old(View()), id, authority, token, resetPayloadHash, now)
      ensures r == ResetResult(authority, token)
    {
      if authority.None? {
        return Fail(NotConfigured);
      }
      if !authority.value(token) {
        WriteResetEntry(id, ResetDenied, now);
        return Fail(InvalidCredential);
      }
      WriteResetEntry(id, Reset, now);
      if id in sessions {
        sessions := sessions[id := Session(S1, None)];
      }
      r := Pass;
    }

    method WriteResetEntry(id: string, kind: EntryKind, now: int)
      modifies `audit
      ensures audit == old(audit) + [ResetEntry(old(View()), id, kind, resetPayloadHash, now)]
    {
      audit := audit + [ResetEntry(State(sessions, audit), id, kind, resetPayloadHash, now)];
    }
  }
}
