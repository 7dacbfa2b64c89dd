/** The human authorization gate: agency levels, operator tokens and preauthorizations. */
module Haap {
  import opened Wrappers
  import opened Text
  import opened Clock
  import opened Crypto

  datatype Agency = Analyze | DraftActions | ModifyConfig | ExecuteActions | FinancialOps | RootAuthority

  function Rank(a: Agency): nat {
    match a
    case Analyze => 0
    case DraftActions => 1
    case ModifyConfig => 2
    case ExecuteActions => 3
    case FinancialOps => 4
    case RootAuthority => 5
  }

  function AgencyName(a: Agency): string {
    match a
    case Analyze => "ANALYZE"
    case DraftActions => "DRAFT_ACTIONS"
    case ModifyConfig => "MODIFY_CONFIG"
    case ExecuteActions => "EXECUTE_ACTIONS"
    case FinancialOps => "FINANCIAL_OPS"
    case RootAuthority => "ROOT_AUTHORITY"
  }

  /** The risk score from which an agency level is gated; none if never. */
  function GateThreshold(a: Agency): Option<nat> {
    match a
    case Analyze | DraftActions => None
    case ModifyConfig => Some(40)
    case ExecuteActions => Some(60)
    case FinancialOps | RootAuthority => Some(0)
  }

  const BLOCK_THRESHOLD := 96

  datatype IntentToken = IntentToken(
    tokenId: string,
    issuedBy: string,
    sessionId: string,
    ceiling: Agency,
    permitted: seq<string>,
    forbidden: seq<string>,
    expiresAt: int,
    maxUses: Option<nat>,
    signature: string,
    useCount: nat)

  /** The signed text: neither the use limit nor the forbidden actions are in it. */
  function Canonical(t: IntentToken): string {
    t.tokenId + "|" + t.issuedBy + "|" + t.sessionId + "|" + AgencyName(t.ceiling) + "|"
    + DecimalInt(t.expiresAt / NANOS_PER_SECOND) + "|" + JoinComma(t.permitted)
  }

  datatype TokenFault = TokenNotFound | WrongSession | TokenExpired | TokenExhausted | AgencyInsufficient | BadSignature

  datatype Verdict =
    | Authorized(drs: nat, agency: Agency)
    | GateRequired(drs: nat, agency: Agency)
    | TokenVerified(tokenId: string, agency: Agency, usesRemaining: Option<nat>)
    | TokenRejected(fault: TokenFault)
    | ConstitutionalBlock(drs: nat)

  /** An action class and when its preauthorization ends. */
  datatype Preauth = Preauth(actionClass: string, expiry: int)

  datatype State = State(tokens: map<string, IntentToken>, preauth: map<string, seq<Preauth>>)

  const EMPTY := State(map[], map[])

  datatype Setup = Setup(p: Primitives, signer: Signer)

  // ---- specification -----------------------------------------------------------------------

  function Live(entries: seq<Preauth>, now: int): seq<Preauth> {
    if entries == [] then []
    else (if entries[0].expiry > now then [entries[0]] else []) + Live(entries[1..], now)
  }

  /** Looking a preauthorization up drops the expired ones of the session. */
  function Pruned(st: State, id: string, now: int): State {
    if id in st.preauth then st.(preauth := st.preauth[id := Live(st.preauth[id], now)]) else st
  }

  predicate Preauthorized(st: State, id: string, actionClass: string, now: int) {
    id in st.preauth && exists e | e in st.preauth[id] :: e.expiry > now && e.actionClass == actionClass
  }

  function CheckToken(w: Setup, t: IntentToken, id: string, agency: Agency, now: int): Outcome<TokenFault> {
    var session := Need(t.sessionId == id, WrongSession);
    :- session;
    :- Need(now <= t.expiresAt, TokenExpired);
    :- Need(t.maxUses.None? || t.useCount < t.maxUses.value, TokenExhausted);
    :- Need(Rank(agency) <= Rank(t.ceiling), AgencyInsufficient);
    Need(w.p.accepts(w.signer.publicKey, Canonical(t), t.signature), BadSignature)
  }

  function TokenResult(w: Setup, st: State, id: string, agency: Agency, tokenId: string, now: int): Verdict {
    if tokenId !in st.tokens then TokenRejected(TokenNotFound)
    else
      var t := st.tokens[tokenId];
      match CheckToken(w, t, id, agency, now)
      case Fail(fault) => TokenRejected(fault)
      case Pass =>
        var uses := t.useCount + 1;
        TokenVerified(t.tokenId, agency,
                      if t.maxUses.None? then None
                      else Some(if uses <= t.maxUses.value then t.maxUses.value - uses else 0))
  }

  function AfterToken(w: Setup, st: State, id: string, agency: Agency, tokenId: string, now: int): State {
    if tokenId in st.tokens && CheckToken(w, st.tokens[tokenId], id, agency, now).Pass? then
      st.(tokens := st.tokens[tokenId := st.tokens[tokenId].(useCount := st.tokens[tokenId].useCount + 1)])
    else st
  }

  predicate Gated(agency: Agency, drs: nat) {
    GateThreshold(agency).Some? && GateThreshold(agency).value <= drs
  }

  function EvaluateResult(w: Setup, st: State, id: string, agency: Agency, drs: nat, actionClass: string,
                          token: Option<string>, now: int): Verdict
  {
    if drs >= BLOCK_THRESHOLD then ConstitutionalBlock(drs)
    else if !Gated(agency, drs) then Authorized(drs, agency)
    else if Preauthorized(st, id, actionClass, now) then Authorized(drs, agency)
    else match token
         case Some(tokenId) => TokenResult(w, st, id, agency, tokenId, now)
         case None => GateRequired(drs, agency)
  }

  function AfterEvaluate(w: Setup, st: State, id: string, agency: Agency, drs: nat, actionClass: string,
                         token: Option<string>, now: int): State
  {
    if drs >= BLOCK_THRESHOLD || !Gated(agency, drs) then st
    else
      var pruned := Pruned(st, id, now);
      if Preauthorized(st, id, actionClass, now) || token.None? then pruned
      else AfterToken(w, pruned, id, agency, token.value, now)
  }

  datatype RegisterError = AlreadyExpired | Unsigned

  function RegisterResult(t: IntentToken, now: int): Outcome<RegisterError> {
    if now > t.expiresAt then Fail(AlreadyExpired) else Need(t.signature != "", Unsigned)
  }

  function AfterRegister(st: State, t: IntentToken, now: int): State {
    if RegisterResult(t, now).Fail? then st else st.(tokens := st.tokens[t.tokenId := t])
  }

  function AfterPreauthorize(st: State, id: string, actionClass: string, seconds: nat, now: int): State {
    var entry := Preauth(actionClass, now + seconds * NANOS_PER_SECOND);
    st.(preauth := st.preauth[id := (if id in st.preauth then st.preauth[id] else []) + [entry]])
  }

  function AfterRevoke(st: State, id: string): State {
    State(map t | t in st.tokens && st.tokens[t].sessionId != id :: st.tokens[t], st.preauth - {id})
  }

  // ---- the gate ------------------------------------------------------------------------------

  class HaapGate {
    const p: Primitives
    const signer: Signer
    var tokens: map<string, IntentToken>
    var preauth: map<string, seq<Preauth>>

    ghost function View(): State
      reads this
    {
      State(tokens, preauth)
    }

    ghost function TheSetup(): Setup {
      Setup(p, signer)
    }

    constructor (p: Primitives, signer: Signer)
      ensures this.p == p && this.signer == signer && View() == EMPTY
    {
      this.p, this.signer := p, signer;
      tokens, preauth := map[], map[];
    }

    method Evaluate(id: string, agency: Agency, drs: nat, actionClass: string, token: Option<string>, now: int)
        returns (v: Verdict)
      modifies this
      ensures v == EvaluateResult(TheSetup(), old(View()), id, agency, drs, actionClass, token, now)
      ensures View() == AfterEvaluate(TheSetup(), old(View()), id, agency, drs, actionClass, token, now)
    {
      hide Preauthorized, CheckToken, Live;
      if drs >= BLOCK_THRESHOLD {
        return ConstitutionalBlock(drs);
      }
      var threshold := GateThreshold(agency);
      if threshold.None? || drs < threshold.value {
        return Authorized(drs, agency);
      }
      var preauthorized := IsPreauthorized(id, actionClass, now);
      if preauthorized {
        return Authorized(drs, agency);
      }
      if token.Some? {
        v := VerifyToken(id, agency, token.value, now);
        return;
      }
      v := GateRequired(drs, agency);
    }

    method IsPreauthorized(id: string, actionClass: string, now: int) returns (r: bool)
      modifies `preauth
      ensures View() == Pruned(old(View()), id, now)
      ensures r == Preauthorized(old(View()), id, actionClass, now)
    {
      if id !in preauth {
        return false;
      }
      var entries := preauth[id];
      LiveEntries(entries, now);
      preauth := preauth[id := Live(entries, now)];
      r := exists e | e in preauth[id] :: e.actionClass == actionClass;
    }

    method VerifyToken(id: string, agency: Agency, tokenId: string, now: int) returns (v: Verdict)
      modifies `tokens
      ensures v == TokenResult(TheSetup(), old(View()), id, agency, tokenId, now)
      ensures View() == AfterToken(TheSetup(), old(View()), id, agency, tokenId, now)
    {
      hide Canonical, Rank;
      if tokenId !in tokens {
        return TokenRejected(TokenNotFound);
      }
      var t := tokens[tokenId];
      if t.sessionId != id { return TokenRejected(WrongSession); }
      if now > t.expiresAt { return TokenRejected(TokenExpired); }
      if t.maxUses.Some? && t.useCount >= t.maxUses.value { return TokenRejected(TokenExhausted); }
      if Rank(t.ceiling) < Rank(agency) { return TokenRejected(AgencyInsufficient); }
      if !p.accepts(signer.publicKey, Canonical(t), t.signature) { return TokenRejected(BadSignature); }
      var used := t.(useCount := t.useCount + 1);
      tokens := tokens[tokenId := used];
      var remaining := if t.maxUses.None? then None
                       else Some(if used.useCount <= t.maxUses.value then t.maxUses.value - used.useCount else 0);
      v := TokenVerified(t.tokenId, agency, remaining);
    }

    method RegisterToken(t: IntentToken, now: int) returns (r: Outcome<RegisterError>)
      modifies `tokens
      ensures r == RegisterResult(t, now) && View() == AfterRegister(old(View()), t, now)
    {
      if now > t.expiresAt { return Fail(AlreadyExpired); }
      if t.signature == "" { return Fail(Unsigned); }
      tokens := tokens[t.tokenId := t];
      r := Pass;
    }

    method Preauthorize(id: string, actionClass: string, seconds: nat, now: int)
      modifies `preauth
      ensures View() == AfterPreauthorize(old(View()), id, actionClass, seconds, now)
    {
      var entries := if id in preauth then preauth[id] else [];
      preauth := preauth[id := entries + [Preauth(actionClass, now + seconds * NANOS_PER_SECOND)]];
    }

    method RevokeSession(id: string)
      modifies this
      ensures View() == AfterRevoke(old(View()), id)
    {
      preauth := preauth - {id};
      tokens := map t | t in tokens && tokens[t].sessionId != id :: tokens[t];
    }
  }

  lemma {:induction false} LiveEntries(entries: seq<Preauth>, now: int)
    ensures forall e :: e in Live(entries, now) <==> e in entries && e.expiry > now
  {
    if entries != [] {
      LiveEntries(entries[1..], now);
      assert entries == [entries[0]] + entries[1..];
    }
  }

  // ---- properties --------------------------------------------------------------------------------

  /** An action proceeds exactly when the score is under the block, and either the level
      is not gated at it, the class is preauthorized, or a good token is presented. The
      gate closes at the threshold itself. */
  lemma ProceedsIff(w: Setup, st: State, id: string, agency: Agency, drs: nat, actionClass: string,
                    token: Option<string>, now: int)
    ensures var v := EvaluateResult(w, st, id, agency, drs, actionClass, token, now);
            (v.Authorized? || v.TokenVerified? <==>
               && drs < BLOCK_THRESHOLD
               && (|| GateThreshold(agency).None? || drs < GateThreshold(agency).value
                   || Preauthorized(st, id, actionClass, now)
                   || (token.Some? && token.value in st.tokens
                       && CheckToken(w, st.tokens[token.value], id, agency, now).Pass?)))
  {
    hide Preauthorized, CheckToken;
  }

  /** Preauthorizations dropped as expired are ones that no longer counted, at any later time. */
  lemma PruningIsSafe(st: State, id: string, who: string, actionClass: string, now: int, later: int)
    requires now <= later
    ensures Preauthorized(Pruned(st, id, now), who, actionClass, later) <==> Preauthorized(st, who, actionClass, later)
  {
    if id in st.preauth {
      LiveEntries(st.preauth[id], now);
    }
  }

  /** After a session is revoked, a gated action of it is authorized by nothing that was
      there before. */
  lemma RevokeRevokes(w: Setup, st: State, id: string, agency: Agency, drs: nat, actionClass: string,
                      token: Option<string>, now: int)
    requires Gated(agency, drs)
    ensures var v := EvaluateResult(w, AfterRevoke(st, id), id, agency, drs, actionClass, token, now);
            !v.Authorized? && !v.TokenVerified?
    ensures forall who | who != id ::
              Preauthorized(AfterRevoke(st, id), who, actionClass, now) == Preauthorized(st, who, actionClass, now)
  {
    hide Canonical, GateThreshold;
  }

  datatype Operation =
    | Evaluate(id: string, agency: Agency, drs: nat, actionClass: string, token: Option<string>, now: int)
    | Register(registered: IntentToken, now: int)
    | Preauthorize(id: string, actionClass: string, seconds: nat, now: int)
    | Revoke(id: string)

  function Step(w: Setup, st: State, op: Operation): State {
    match op
    case Evaluate(id, agency, drs, actionClass, token, now) =>
      AfterEvaluate(w, st, id, agency, drs, actionClass, token, now)
    case Register(t, now) => AfterRegister(st, t, now)
    case Preauthorize(id, actionClass, seconds, now) => AfterPreauthorize(st, id, actionClass, seconds, now)
    case Revoke(id) => AfterRevoke(st, id)
  }

  /** Whether the step verified this token. */
  predicate Verifies(w: Setup, st: State, op: Operation, tokenId: string) {
    && op.Evaluate? && op.token == Some(tokenId)
    && EvaluateResult(w, st, op.id, op.agency, op.drs, op.actionClass, op.token, op.now).TokenVerified?
  }

  function Verifications(w: Setup, st: State, ops: seq<Operation>, tokenId: string): nat
    decreases |ops|
  {
    if ops == [] then 0
    else (if Verifies(w, st, ops[0], tokenId) then 1 else 0) + Verifications(w, Step(w, st, ops[0]), ops[1..], tokenId)
  }

  /** How many uses a token still grants; an unlimited one counts for none. */
  function Uses(t: IntentToken): nat {
    if t.maxUses.Some? && t.useCount <= t.maxUses.value then t.maxUses.value - t.useCount else 0
  }

  /** How many uses a registered token has left; none if it is gone. */
  function UsesLeft(st: State, tokenId: string): nat {
    if tokenId in st.tokens then Uses(st.tokens[tokenId]) else 0
  }

  /** The operation registers this token, anew or for the first time. */
  predicate Registers(op: Operation, tokenId: string) {
    op.Register? && op.registered.tokenId == tokenId && RegisterResult(op.registered, op.now).Pass?
  }

  /** The uses granted by registrations of this token. */
  function Granted(ops: seq<Operation>, tokenId: string): nat {
    if ops == [] then 0
    else (if Registers(ops[0], tokenId) then Uses(ops[0].registered) else 0) + Granted(ops[1..], tokenId)
  }

  /** Whenever this token is registered, it is with a limit. */
  predicate LimitedRegistrations(ops: seq<Operation>, tokenId: string) {
    forall i | 0 <= i < |ops| :: Registers(ops[i], tokenId) ==> ops[i].registered.maxUses.Some?
  }

  predicate Limited(st: State, tokenId: string) {
    tokenId in st.tokens ==> st.tokens[tokenId].maxUses.Some?
  }

  lemma StepUses(w: Setup, st: State, op: Operation, tokenId: string)
    requires Limited(st, tokenId) && (Registers(op, tokenId) ==> op.registered.maxUses.Some?)
    ensures Limited(Step(w, st, op), tokenId)
    ensures UsesLeft(Step(w, st, op), tokenId) + (if Verifies(w, st, op, tokenId) then 1 else 0) <=
            UsesLeft(st, tokenId) + (if Registers(op, tokenId) then Uses(op.registered) else 0)
  {
    hide Canonical, Preauthorized, Gated, Live, Rank;
  }

  /** The uses a verification reports as remaining are those the token then has. */
  lemma ReportedUsesRemain(w: Setup, st: State, id: string, agency: Agency, tokenId: string, now: int)
    requires Limited(st, tokenId) && TokenResult(w, st, id, agency, tokenId, now).TokenVerified?
    ensures TokenResult(w, st, id, agency, tokenId, now).usesRemaining ==
            Some(UsesLeft(AfterToken(w, st, id, agency, tokenId, now), tokenId))
    ensures UsesLeft(st, tokenId) == UsesLeft(AfterToken(w, st, id, agency, tokenId, now), tokenId) + 1
  {
    hide Canonical, Rank;
  }

  /** A token is never verified more often than the uses it has left and those granted by
      registering it again, whatever else happens in between. */
  lemma {:induction false} UsesBounded(w: Setup, st: State, ops: seq<Operation>, tokenId: string)
    requires Limited(st, tokenId) && LimitedRegistrations(ops, tokenId)
    ensures Verifications(w, st, ops, tokenId) <= UsesLeft(st, tokenId) + Granted(ops, tokenId)
    decreases |ops|
  {
    hide Step, Verifies, UsesLeft, Limited, Registers, Uses;
    if ops != [] {
      StepUses(w, st, ops[0], tokenId);
      assert forall i | 0 <= i < |ops[1..]| :: ops[1..][i] == ops[i + 1];
      UsesBounded(w, Step(w, st, ops[0]), ops[1..], tokenId);
    }
  }

  /** What the signature covers depends on neither the limit nor the forbidden actions. */
  lemma LimitUnsigned(w: Setup, t: IntentToken, maxUses: Option<nat>, forbidden: seq<string>)
    ensures w.p.accepts(w.signer.publicKey, Canonical(t.(maxUses := maxUses, forbidden := forbidden)), t.signature) ==
            w.p.accepts(w.signer.publicKey, Canonical(t), t.signature)
  {
    hide JoinComma, DecimalInt, AgencyName;
    assert Canonical(t.(maxUses := maxUses, forbidden := forbidden)) == Canonical(t);
  }
}
