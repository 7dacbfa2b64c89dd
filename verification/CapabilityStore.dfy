/** Decisions, single-use capability tokens and their consumption. Every operation runs
    under one write lock, so each is one atomic step. */
module CapabilityStore {
  import opened Wrappers
  import opened Text
  import opened Clock
  import opened Crypto
  import opened CapabilityToken

  datatype RequestField =
    | GovTxId
    | SessionId
    | PrincipalFingerprint
    | SentinelVerdictId
    | PolicyHash
    | RunId
    | ContextHash
    | PolicyVersion
    | Backend
    | Model
    | ActionClass
    | ActionHash
    | ToolName
    | ResourceKind
    | ResourceLocator
    | ToolCallId
    | NormalizedAction

  datatype CapabilityError =
    | EmptyField(field: RequestField)
    | MalformedDigest(field: RequestField)
    | InvalidTtl
    | TransactionScopeConflict
    | WrongAuthority

  /** The fields a retry must repeat to count as the same request. */
  datatype Scope = Scope(
    sessionId: string,
    principalFingerprint: string,
    backend: string,
    model: string,
    actionClass: string,
    runId: string,
    contextHash: string,
    policyVersion: string,
    actionHash: string,
    toolName: string,
    resourceKind: string,
    resourceLocator: string,
    toolCallId: string,
    plane: Plane,
    normalizedAction: string,
    requiredForSafeCompletion: bool)

  datatype Request = Request(
    govTxId: string,
    authority: string,
    scope: Scope,
    verdictId: string,
    policyHash: string,
    authorizationBasis: string,
    agency: string,
    drs: nat)

  datatype Decision = Decision(
    decisionId: string,
    request: Request,
    authorizedAt: int,
    issued: bool)

  // ---- validation ---------------------------------------------------------------------

  function Filled(text: string, field: RequestField): Outcome<CapabilityError> {
    Need(!IsBlank(text), EmptyField(field))
  }

  function CheckCommon(r: Request): Outcome<CapabilityError> {
    var first := Filled(r.govTxId, GovTxId);
    :- first;
    :- Filled(r.scope.sessionId, SessionId);
    :- Filled(r.scope.principalFingerprint, PrincipalFingerprint);
    :- Filled(r.verdictId, SentinelVerdictId);
    :- Filled(r.policyHash, PolicyHash);
    :- Filled(r.scope.runId, RunId);
    :- Filled(r.scope.contextHash, ContextHash);
    :- Filled(r.scope.policyVersion, PolicyVersion);
    :- Need(IsSha256Hex(r.scope.contextHash), MalformedDigest(ContextHash));
    Need(IsSha256Hex(r.policyHash), MalformedDigest(PolicyHash))
  }

  function CheckAuthorityFields(r: Request): Outcome<CapabilityError> {
    if r.authority == AUTHORITY_PROVIDER_EXECUTE then
      var backend := Filled(r.scope.backend, Backend);
      :- backend;
      :- Filled(r.scope.model, Model);
      Filled(r.scope.actionClass, ActionClass)
    else if r.authority == AUTHORITY_ACTION_EXECUTE then
      var hash := Filled(r.scope.actionHash, ActionHash);
      :- hash;
      :- Filled(r.scope.toolName, ToolName);
      :- Filled(r.scope.resourceKind, ResourceKind);
      :- Filled(r.scope.resourceLocator, ResourceLocator);
      :- Filled(r.scope.toolCallId, ToolCallId);
      :- Filled(r.scope.normalizedAction, NormalizedAction);
      Need(IsSha256Hex(r.scope.actionHash), MalformedDigest(ActionHash))
    else Fail(WrongAuthority)
  }

  /** `DecisionRequest::validate` */
  function CheckRequest(r: Request): Outcome<CapabilityError> {
    var common := CheckCommon(r);
    :- common;
    CheckAuthorityFields(r)
  }

  /** What a request must be, independently of the order of the checks. */
  predicate RequestWellFormed(r: Request) {
    && !IsBlank(r.govTxId) && !IsBlank(r.scope.sessionId) && !IsBlank(r.scope.principalFingerprint)
    && !IsBlank(r.verdictId) && !IsBlank(r.scope.runId) && !IsBlank(r.scope.policyVersion)
    && IsSha256Hex(r.scope.contextHash) && IsSha256Hex(r.policyHash)
    && (|| (r.authority == AUTHORITY_PROVIDER_EXECUTE
            && !IsBlank(r.scope.backend) && !IsBlank(r.scope.model) && !IsBlank(r.scope.actionClass))
        || (r.authority == AUTHORITY_ACTION_EXECUTE
            && IsSha256Hex(r.scope.actionHash) && !IsBlank(r.scope.toolName) && !IsBlank(r.scope.resourceKind)
            && !IsBlank(r.scope.resourceLocator) && !IsBlank(r.scope.toolCallId)
            && !IsBlank(r.scope.normalizedAction)))
  }

  lemma DigestNotBlank(s: string)
    requires IsSha256Hex(s)
    ensures !IsBlank(s)
  {
    assert s[0] in s && !IsWhitespace(s[0]);
  }

  /** Validation accepts exactly the well-formed requests. */
  lemma RequestAcceptedIff(r: Request)
    ensures CheckRequest(r).Pass? <==> RequestWellFormed(r)
  {
    hide IsBlank, IsSha256Hex;
    var scope := r.scope;
    if IsSha256Hex(scope.contextHash) { DigestNotBlank(scope.contextHash); }
    if IsSha256Hex(r.policyHash) { DigestNotBlank(r.policyHash); }
    if IsSha256Hex(scope.actionHash) { DigestNotBlank(scope.actionHash); }
    assert AUTHORITY_PROVIDER_EXECUTE[0] == 'p' && AUTHORITY_ACTION_EXECUTE[0] == 'a';
  }

  predicate KnownAuthority(authority: string) {
    authority == AUTHORITY_PROVIDER_EXECUTE || authority == AUTHORITY_ACTION_EXECUTE
  }

  function TxKey(govTxId: string, authority: string): string {
    govTxId + "|" + authority
  }

  /** Neither authority holds a separator, so the last one in the key ends the
      transaction id, whatever that contains. */
  lemma TxKeyInjective(a: string, authority: string, b: string, other: string)
    requires KnownAuthority(authority) && KnownAuthority(other)
    requires TxKey(a, authority) == TxKey(b, other)
    ensures a == b && authority == other
  {
    var s, t := TxKey(a, authority), TxKey(b, other);
    assert |AUTHORITY_PROVIDER_EXECUTE| == 16 && |AUTHORITY_ACTION_EXECUTE| == 14;
    assert AUTHORITY_PROVIDER_EXECUTE[1] == 'r';
    assert s[|s| - |authority| - 1] == '|' && t[|t| - |other| - 1] == '|';
    assert s[|s| - |authority|..] == authority && t[|t| - |other|..] == other;
    assert |authority| == |other|;
    assert s[..|a|] == a && t[..|b|] == b;
  }

  // ---- the specification state -----------------------------------------------------------

  datatype Store = Store(
    decisions: map<string, Decision>,
    capabilities: map<string, Token>,
    decisionByTx: map<string, string>)

  const EMPTY := Store(map[], map[], map[])

  datatype Setup = Setup(p: Primitives, signer: Signer, ttlSeconds: int)

  const DEFAULT_TTL_SECONDS := 30

  function RequestKey(r: Request): string {
    TxKey(r.govTxId, r.authority)
  }

  /** The transaction index never names a missing decision. */
  predicate IndexComplete(s: Store) {
    forall key | key in s.decisionByTx :: s.decisionByTx[key] in s.decisions
  }

  function RecordResult(s: Store, r: Request, freshId: string): Result<string, CapabilityError>
    requires IndexComplete(s)
  {
    match CheckRequest(r)
    case Fail(error) => Err(error)
    case Pass =>
      if RequestKey(r) !in s.decisionByTx then Ok(freshId)
      else
        var id := s.decisionByTx[RequestKey(r)];
        if s.decisions[id].request.scope == r.scope then Ok(id) else Err(TransactionScopeConflict)
  }

  function AfterRecord(s: Store, r: Request, freshId: string, now: int): Store {
    if CheckRequest(r).Fail? || RequestKey(r) in s.decisionByTx then s
    else s.(decisions := s.decisions[freshId := Decision(freshId, r, now, false)],
            decisionByTx := s.decisionByTx[RequestKey(r) := freshId])
  }

  function UnsignedToken(d: Decision, tokenId: string, now: int, ttlSeconds: int): Token {
    var r := d.request;
    Token(tokenId, d.decisionId, r.govTxId, r.scope.sessionId, r.scope.principalFingerprint, r.authority,
          r.scope.backend, r.scope.model, r.scope.actionClass, r.verdictId, r.policyHash, now,
          now + ttlSeconds * NANOS_PER_SECOND, 1, 0, "", r.scope.runId, r.scope.contextHash, r.scope.policyVersion,
          r.scope.actionHash, r.scope.toolName, r.scope.resourceKind, r.scope.resourceLocator, r.scope.toolCallId,
          r.scope.plane, r.scope.normalizedAction, r.scope.requiredForSafeCompletion)
  }

  function MakeToken(w: Setup, d: Decision, tokenId: string, now: int): Token {
    var t := UnsignedToken(d, tokenId, now, w.ttlSeconds);
    t.(signature := w.signer.sign(Canonical(t)))
  }

  datatype IssueOutcome = Issued(token: Token) | DecisionNotFound | AlreadyIssued

  function IssueResult(w: Setup, s: Store, decisionId: string, tokenId: string, now: int): IssueOutcome {
    if decisionId !in s.decisions then DecisionNotFound
    else if s.decisions[decisionId].issued then AlreadyIssued
    else Issued(MakeToken(w, s.decisions[decisionId], tokenId, now))
  }

  function AfterIssue(w: Setup, s: Store, decisionId: string, tokenId: string, now: int): Store {
    if decisionId !in s.decisions || s.decisions[decisionId].issued then s
    else s.(decisions := s.decisions[decisionId := s.decisions[decisionId].(issued := true)],
            capabilities := s.capabilities[tokenId := MakeToken(w, s.decisions[decisionId], tokenId, now)])
  }

  datatype Binding = Binding(
    tokenId: string,
    govTxId: string,
    sessionId: string,
    principalFingerprint: string,
    authority: string,
    backend: string,
    model: string,
    runId: string,
    contextHash: string,
    policyVersion: string,
    policyHash: string,
    actionHash: string,
    toolName: string,
    resourceKind: string,
    resourceLocator: string,
    toolCallId: string,
    plane: string)

  datatype ConsumeOutcome =
    | Authorized
    | NotFound
    | SignatureInvalid
    | AlreadyConsumed
    | Expired
    | TransactionMismatch
    | SessionMismatch
    | PrincipalMismatch
    | AuthorityMismatch
    | BackendMismatch
    | ModelMismatch
    | RunMismatch
    | ContextHashMismatch
    | PolicyVersionMismatch
    | PolicyHashMismatch
    | ActionHashMismatch
    | ToolMismatch
    | ResourceMismatch
    | ToolCallIdMismatch
    | PlaneMismatch

  predicate TokenSigned(w: Setup, t: Token) {
    w.p.accepts(w.signer.publicKey, Canonical(t), t.signature)
  }

  function CheckLive(w: Setup, t: Token, now: int): Outcome<ConsumeOutcome> {
    var signed := Need(TokenSigned(w, t), SignatureInvalid);
    :- signed;
    :- Need(t.useCount < t.maxUses, AlreadyConsumed);
    Need(now < t.expiresAt, Expired)
  }

  function CheckScope(t: Token, b: Binding): Outcome<ConsumeOutcome> {
    var authority := Need(KnownAuthority(t.authority) && t.authority == b.authority, AuthorityMismatch);
    :- authority;
    :- Need(t.principalFingerprint == b.principalFingerprint, PrincipalMismatch);
    :- Need(t.govTxId == b.govTxId, TransactionMismatch);
    :- Need(t.sessionId == b.sessionId, SessionMismatch);
    :- Need(t.runId == b.runId, RunMismatch);
    :- Need(t.contextHash == b.contextHash, ContextHashMismatch);
    :- Need(t.policyVersion == b.policyVersion, PolicyVersionMismatch);
    :- Need(t.policyHash == b.policyHash, PolicyHashMismatch);
    :- Need(t.backend == b.backend, BackendMismatch);
    Need(t.model == b.model, ModelMismatch)
  }

  function CheckActionScope(t: Token, b: Binding): Outcome<ConsumeOutcome> {
    var hash := Need(t.actionHash == b.actionHash, ActionHashMismatch);
    :- hash;
    :- Need(t.toolName == b.toolName, ToolMismatch);
    :- Need(t.resourceKind == b.resourceKind && t.resourceLocator == b.resourceLocator, ResourceMismatch);
    :- Need(t.toolCallId == b.toolCallId, ToolCallIdMismatch);
    Need(PlaneName(t.plane) == b.plane, PlaneMismatch)
  }

  function CheckBinding(w: Setup, t: Token, b: Binding, now: int): Outcome<ConsumeOutcome> {
    var live := CheckLive(w, t, now);
    :- live;
    :- CheckScope(t, b);
    if t.authority == AUTHORITY_ACTION_EXECUTE then CheckActionScope(t, b) else Pass
  }

  function ConsumeResult(w: Setup, s: Store, b: Binding, now: int): ConsumeOutcome {
    if b.tokenId !in s.capabilities then NotFound
    else match CheckBinding(w, s.capabilities[b.tokenId], b, now)
         case Fail(refusal) => refusal
         case Pass => Authorized
  }

  function AfterConsume(w: Setup, s: Store, b: Binding, now: int): Store {
    if ConsumeResult(w, s, b, now) != Authorized then s
    else
      var t := s.capabilities[b.tokenId];
      s.(capabilities := s.capabilities[b.tokenId := t.(useCount := t.useCount + 1)])
  }

  /** `clock(id)` is the time read when the token is visited. */
  function AfterPrune(s: Store, clock: string -> int): Store {
    s.(capabilities := map id | id in s.capabilities && clock(id) < s.capabilities[id].expiresAt :: s.capabilities[id])
  }

  // ---- the store ---------------------------------------------------------------------------

  class CapabilityStore {
    const p: Primitives
    const signer: Signer
    var ttlSeconds: int
    var decisions: map<string, Decision>
    var capabilities: map<string, Token>
    var decisionByTx: map<string, string>

    ghost function View(): Store
      reads this
    {
      Store(decisions, capabilities, decisionByTx)
    }

    ghost function TheSetup(): Setup
      reads this
    {
      Setup(p, signer, ttlSeconds)
    }

    constructor (p: Primitives, signer: Signer)
      ensures View() == EMPTY && TheSetup() == Setup(p, signer, DEFAULT_TTL_SECONDS)
    {
      this.p, this.signer, ttlSeconds := p, signer, DEFAULT_TTL_SECONDS;
      decisions, capabilities, decisionByTx := map[], map[], map[];
    }

    method WithTtlSeconds(ttl: int) returns (r: Outcome<CapabilityError>)
      modifies this`ttlSeconds
      ensures r == Need(ttl > 0, InvalidTtl)
      ensures ttlSeconds == if ttl > 0 then ttl else old(ttlSeconds)
    {
      if ttl <= 0 {
        return Fail(InvalidTtl);
      }
      ttlSeconds := ttl;
      r := Pass;
    }

    method RecordDecision(request: Request, freshId: string, now: int) returns (r: Result<string, CapabilityError>)
      requires IndexComplete(View())
      modifies this
      ensures r == RecordResult(old(View()), request, freshId)
      ensures View() == AfterRecord(old(View()), request, freshId, now)
      ensures TheSetup() == old(TheSetup())
    {
      hide CheckRequest, TxKey;
      var valid := CheckRequest(request);
      if valid.Fail? {
        return Err(valid.error);
      }
      var key := TxKey(request.govTxId, request.authority);
      if key in decisionByTx {
        var existingId := decisionByTx[key];
        assert existingId in View().decisions;
        var existing := decisions[existingId];
        if existing.request.scope == request.scope {
          return Ok(existingId);
        }
        return Err(TransactionScopeConflict);
      }
      decisions := decisions[freshId := Decision(freshId, request, now, false)];
      decisionByTx := decisionByTx[key := freshId];
      r := Ok(freshId);
    }

    method IssueAfterAuthorization(decisionId: string, tokenId: string, now: int) returns (r: IssueOutcome)
      modifies this
      ensures r == IssueResult(old(TheSetup()), old(View()), decisionId, tokenId, now)
      ensures View() == AfterIssue(old(TheSetup()), old(View()), decisionId, tokenId, now)
      ensures TheSetup() == old(TheSetup())
    {
      hide Canonical;
      if decisionId !in decisions {
        return DecisionNotFound;
      }
      var decision := decisions[decisionId];
      if decision.issued {
        return AlreadyIssued;
      }
      var token := UnsignedToken(decision, tokenId, now, ttlSeconds);
      token := token.(signature := signer.sign(Canonical(token)));
      decisions := decisions[decisionId := decision.(issued := true)];
      capabilities := capabilities[tokenId := token];
      r := Issued(token);
    }

    method Consume(b: Binding, now: int) returns (r: ConsumeOutcome)
      modifies this
      ensures r == ConsumeResult(old(TheSetup()), old(View()), b, now)
      ensures View() == AfterConsume(old(TheSetup()), old(View()), b, now)
      ensures TheSetup() == old(TheSetup())
    {
      hide CheckBinding;
      if b.tokenId !in capabilities {
        return NotFound;
      }
      var token := capabilities[b.tokenId];
      RefusalsAreRefusals(TheSetup(), token, b, now);
      var refusal := Inspect(token, b, now);
      if refusal.Fail? {
        return refusal.error;
      }
      capabilities := capabilities[b.tokenId := token.(useCount := token.useCount + 1)];
      r := Authorized;
    }

    method Inspect(t: Token, b: Binding, now: int) returns (r: Outcome<ConsumeOutcome>)
      ensures r == CheckBinding(TheSetup(), t, b, now)
    {
      hide Canonical, KnownAuthority;
      if !p.accepts(signer.publicKey, Canonical(t), t.signature) { return Fail(SignatureInvalid); }
      if t.useCount >= t.maxUses { return Fail(AlreadyConsumed); }
      if now >= t.expiresAt { return Fail(Expired); }
      if !KnownAuthority(t.authority) || t.authority != b.authority { return Fail(AuthorityMismatch); }
      if t.principalFingerprint != b.principalFingerprint { return Fail(PrincipalMismatch); }
      if t.govTxId != b.govTxId { return Fail(TransactionMismatch); }
      if t.sessionId != b.sessionId { return Fail(SessionMismatch); }
      if t.runId != b.runId { return Fail(RunMismatch); }
      if t.contextHash != b.contextHash { return Fail(ContextHashMismatch); }
      if t.policyVersion != b.policyVersion { return Fail(PolicyVersionMismatch); }
      if t.policyHash != b.policyHash { return Fail(PolicyHashMismatch); }
      if t.backend != b.backend { return Fail(BackendMismatch); }
      if t.model != b.model { return Fail(ModelMismatch); }
      if t.authority == AUTHORITY_ACTION_EXECUTE {
        if t.actionHash != b.actionHash { return Fail(ActionHashMismatch); }
        if t.toolName != b.toolName { return Fail(ToolMismatch); }
        if t.resourceKind != b.resourceKind || t.resourceLocator != b.resourceLocator { return Fail(ResourceMismatch); }
        if t.toolCallId != b.toolCallId { return Fail(ToolCallIdMismatch); }
        if PlaneName(t.plane) != b.plane { return Fail(PlaneMismatch); }
      }
      r := Pass;
    }

    method PruneExpired(clock: string -> int) returns (removed: nat)
      modifies this
      ensures View() == AfterPrune(old(View()), clock)
      ensures removed == |old(capabilities)| - |capabilities|
      ensures TheSetup() == old(TheSetup())
    {
      var before := |capabilities|;
      capabilities := RetainUnexpired(capabilities, clock);
      assert capabilities.Keys <= old(capabilities).Keys;
      FewerKeys(capabilities.Keys, old(capabilities).Keys);
      assert |capabilities| == |capabilities.Keys| && before == |old(capabilities).Keys|;
      removed := before - |capabilities|;
    }
  }

  lemma FewerKeys(a: set<string>, b: set<string>)
    requires a <= b
    ensures |a| <= |b|
  {
    assert b == a + (b - a);
  }

  /** `HashMap::retain`, entry by entry. */
  method RetainUnexpired(tokens: map<string, Token>, clock: string -> int) returns (kept: map<string, Token>)
    ensures kept == map id | id in tokens && clock(id) < tokens[id].expiresAt :: tokens[id]
  {
    var unvisited := tokens.Keys;
    kept := tokens;
    while unvisited != {}
      invariant unvisited <= kept.Keys <= tokens.Keys
      invariant forall id | id in kept :: kept[id] == tokens[id]
      invariant forall id | id in tokens && id !in unvisited :: id in kept <==> clock(id) < tokens[id].expiresAt
      decreases unvisited
    {
      var id :| id in unvisited;
      unvisited := unvisited - {id};
      if clock(id) >= kept[id].expiresAt {
        kept := kept - {id};
      }
    }
  }

  // ---- single operations --------------------------------------------------------------------

  /** A binding repeats every scope field of the token. */
  predicate Matches(t: Token, b: Binding) {
    && t.authority == b.authority && t.principalFingerprint == b.principalFingerprint && t.govTxId == b.govTxId
    && t.sessionId == b.sessionId && t.runId == b.runId && t.contextHash == b.contextHash
    && t.policyVersion == b.policyVersion && t.policyHash == b.policyHash
    && t.backend == b.backend && t.model == b.model
    && (t.authority == AUTHORITY_ACTION_EXECUTE ==>
          && t.actionHash == b.actionHash && t.toolName == b.toolName
          && t.resourceKind == b.resourceKind && t.resourceLocator == b.resourceLocator
          && t.toolCallId == b.toolCallId && PlaneName(t.plane) == b.plane)
  }

  /** A presented token is authorized exactly when it is held, authentic, unused, not
      yet expired and presented with its whole scope. */
  lemma AuthorizedIff(w: Setup, s: Store, b: Binding, now: int)
    ensures ConsumeResult(w, s, b, now) == Authorized <==>
            && b.tokenId in s.capabilities
            && var t := s.capabilities[b.tokenId];
               && TokenSigned(w, t) && t.useCount < t.maxUses && now < t.expiresAt
               && KnownAuthority(t.authority) && Matches(t, b)
  {
    hide TokenSigned, KnownAuthority, PlaneName;
    if b.tokenId in s.capabilities {
      ScopePasses(s.capabilities[b.tokenId], b);
      RefusalsAreRefusals(w, s.capabilities[b.tokenId], b, now);
    }
  }

  lemma ScopePasses(t: Token, b: Binding)
    ensures CheckScope(t, b).Pass? && (t.authority == AUTHORITY_ACTION_EXECUTE ==> CheckActionScope(t, b).Pass?) <==>
            KnownAuthority(t.authority) && Matches(t, b)
  {
    hide KnownAuthority, PlaneName;
  }

  lemma RefusalsAreRefusals(w: Setup, t: Token, b: Binding, now: int)
    ensures CheckBinding(w, t, b, now).Fail? ==> CheckBinding(w, t, b, now).error != Authorized
  {
    hide KnownAuthority, PlaneName, TokenSigned;
  }

  /** The token is held and has at most one use left. */
  predicate LastUse(s: Store, tokenId: string) {
    tokenId in s.capabilities && s.capabilities[tokenId].useCount + 1 >= s.capabilities[tokenId].maxUses
  }

  lemma ScopeIgnoresCount(t: Token, useCount: nat, b: Binding)
    ensures CheckScope(t.(useCount := useCount), b) == CheckScope(t, b)
    ensures CheckActionScope(t.(useCount := useCount), b) == CheckActionScope(t, b)
  {
    hide KnownAuthority, PlaneName;
  }

  /** What a consume means to whoever comes later. After a refusal every later caller
      gets the answer it would have got anyway, and so do the holders of other tokens
      after an authorization. The token itself, once its last use is spent, is answered
      as consumed whatever it is presented with, and not before. */
  lemma ConsumeSeenLater(w: Setup, s: Store, b: Binding, now: int, c: Binding, later: int)
    ensures var after := AfterConsume(w, s, b, now);
            ConsumeResult(w, after, c, later) ==
            if ConsumeResult(w, s, b, now) == Authorized && c.tokenId == b.tokenId && LastUse(s, b.tokenId)
            then AlreadyConsumed else ConsumeResult(w, s, c, later)
  {
    hide CheckScope, CheckActionScope, Canonical;
    if ConsumeResult(w, s, b, now) == Authorized {
      var t := s.capabilities[b.tokenId];
      SignatureUnsigned(t, t.signature, t.useCount + 1);
      ScopeIgnoresCount(t, t.useCount + 1, c);
    }
  }

  /** Retrying a recorded request returns the first decision and changes nothing;
      another scope under the same transaction and authority is refused. */
  lemma RecordIsIdempotent(s: Store, r: Request, freshId: string, now: int, again: Request, otherId: string, later: int)
    requires IndexComplete(s) && RecordResult(s, r, freshId).Ok? && CheckRequest(again).Pass?
    requires again.govTxId == r.govTxId && again.authority == r.authority
    ensures var after := AfterRecord(s, r, freshId, now);
            && IndexComplete(after)
            && AfterRecord(after, again, otherId, later) == after
            && RecordResult(after, again, otherId) ==
               if again.scope == r.scope then RecordResult(s, r, freshId) else Err(TransactionScopeConflict)
  {
    hide CheckRequest;
  }

  lemma FreshTokenSigned(w: Setup, d: Decision, tokenId: string, now: int)
    requires Honest(w.p, w.signer)
    ensures TokenSigned(w, MakeToken(w, d, tokenId, now))
  {
    hide Fields, JoinPipe;
    var t := UnsignedToken(d, tokenId, now, w.ttlSeconds);
    SignatureUnsigned(t, w.signer.sign(Canonical(t)), 0);
  }

  /** Neither the signature nor the use count is part of the signed text. */
  lemma SignatureUnsigned(t: Token, signature: string, useCount: nat)
    ensures Canonical(t.(signature := signature, useCount := useCount)) == Canonical(t)
  {
    hide JoinPipe, DecimalInt, PlaneName, BoolName, WholeSeconds;
    assert Fields(t.(signature := signature, useCount := useCount)) == Fields(t);
  }

  // ---- ambiguity among the tokens the store issues ----------------------------------------------

  /** The request a token was issued for, with any basis, agency and score. */
  function RequestOf(t: Token): Request {
    Request(t.govTxId, t.authority,
            Scope(t.sessionId, t.principalFingerprint, t.backend, t.model, t.actionClass, t.runId, t.contextHash,
                  t.policyVersion, t.actionHash, t.toolName, t.resourceKind, t.resourceLocator, t.toolCallId, t.plane,
                  t.normalizedAction, t.requiredForSafeCompletion),
            t.verdictId, t.policyHash, "", "", 0)
  }

  /** A token of an accepted request, under generated ids, for one use. */
  predicate Issuable(t: Token) {
    RequestWellFormed(RequestOf(t)) && PipeFree(t.tokenId) && PipeFree(t.decisionId) && t.maxUses == 1
  }

  lemma IssuedIsIssuable(w: Setup, d: Decision, tokenId: string, now: int)
    requires CheckRequest(d.request).Pass? && PipeFree(tokenId) && PipeFree(d.decisionId)
    ensures Issuable(MakeToken(w, d, tokenId, now))
  {
    hide CheckRequest, Canonical, IsBlank, IsSha256Hex, PipeFree;
    RequestAcceptedIff(d.request);
  }

  /** The fields that may hold any text that is not blank and have such a neighbour. */
  predicate Free(k: nat) {
    2 <= k <= 4 || 6 <= k <= 9 || 18 <= k <= 21
  }

  /** A separator stands between parts that are not blank. */
  predicate Parted(text: string) {
    exists i | 0 <= i < |text| :: PartedAt(text, i)
  }

  predicate PartedAt(text: string, i: nat)
    requires i < |text|
  {
    text[i] == '|' && !IsBlank(text[..i]) && !IsBlank(text[i + 1..])
  }

  lemma FreeTextIssuable(t: Token, k: nat, text: string)
    requires Issuable(t) && Free(k) && !IsBlank(text)
    ensures Issuable(WithText(t, k, text))
  {
    hide IsBlank, IsSha256Hex, PipeFree;
  }

  predicate IssuableSharing(t: Token, u: Token) {
    Issuable(u) && SharesText(t, u)
  }

  /** Where separators only part free fields, the text of an issuable token is shared by
      another one the store could issue exactly when there is a separator at all. */
  lemma IssuableUnambiguousIff(t: Token)
    requires Issuable(t) && PipeFree(t.normalizedAction)
    requires forall k: nat | k < 25 && TextPosition(k) && !PipeFree(Fields(t)[k]) :: Free(k) && Parted(Fields(t)[k])
    ensures TextFieldsPipeFree(t) <==> !exists u :: IssuableSharing(t, u)
  {
    hide Issuable, SharesText, Fields, TextPosition, PipeFree, Parted, Free;
    if TextFieldsPipeFree(t) {
      UnambiguousIff(t);
    } else {
      var k: nat :| k < 25 && TextPosition(k) && !PipeFree(Fields(t)[k]);
      var u := PartedSeparatorMoves(t, k);
      assert IssuableSharing(t, u);
    }
  }

  lemma PartedSeparatorMoves(t: Token, k: nat) returns (u: Token)
    requires Issuable(t) && PipeFree(t.normalizedAction) && Free(k) && Parted(Fields(t)[k])
    ensures IssuableSharing(t, u)
  {
    hide Issuable, SharesText, Fields, WithText, IsBlank;
    var f := Fields(t);
    var i :| 0 <= i < |f[k]| && PartedAt(f[k], i);
    var x, y := f[k][..i], f[k][i + 1..];
    assert f[k] == x + "|" + y;
    if k == 4 || k == 9 || k == 21 {
      u := Rebordered(t, k - 1, f[k - 1] + "|" + x, y);
      JoinedNotBlank(f[k - 1], x);
      FreeTextIssuable(t, k - 1, f[k - 1] + "|" + x);
      FreeTextIssuable(WithText(t, k - 1, f[k - 1] + "|" + x), k, y);
    } else {
      u := Rebordered(t, k, x, y + "|" + f[k + 1]);
      JoinedNotBlank(y, f[k + 1]);
      FreeTextIssuable(t, k, x);
      FreeTextIssuable(WithText(t, k, x), k + 1, y + "|" + f[k + 1]);
    }
  }

  lemma JoinedNotBlank(x: string, y: string)
    ensures !IsBlank(x + "|" + y)
  {
    assert (x + "|" + y)[|x|] == '|' && '|' in x + "|" + y && !IsWhitespace('|');
  }
}
