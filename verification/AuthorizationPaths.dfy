/** From an approved context to a signed capability: the provider path, the action path
    and the outbound correlation, over the verdict ledger and the capability store. */
module AuthorizationPaths {
  import opened Wrappers
  import opened Text
  import opened Json
  import opened Crypto
  import opened Signals
  import opened VerdictLedger
  import EnvelopeErrors
  import ActionEnvelope
  import ActionPolicy
  import Token = CapabilityToken
  import Capability = CapabilityStore

  datatype BindingError =
    | MalformedContextHash
    | ApprovedVerdictMissing
    | VerdictNotFound
    | VerdictSessionMismatch
    | VerdictNotFinalApproved
    | VerdictWrongDirection
    | ContextHashMismatch
    | RunIdMismatch

  datatype AuthorizationError =
    | Binding(binding: BindingError)
    | Envelope(envelope: EnvelopeErrors.EnvelopeError)
    | Denied(risks: seq<ActionPolicy.Risk>)
    | Decision(decision: Capability.CapabilityError)
    | DecisionNotFound
    | AlreadyIssued

  datatype ProviderRequest = ProviderRequest(
    govTxId: string,
    sessionId: string,
    principalFingerprint: string,
    backend: string,
    model: string,
    actionClass: string,
    policyHash: string,
    authorizationBasis: string,
    agency: string,
    drs: nat,
    contextHash: string,
    runId: string,
    policyVersion: string)

  datatype ActionRequest = ActionRequest(
    govTxId: string,
    sessionId: string,
    runId: string,
    principalFingerprint: string,
    toolName: string,
    arguments: Json,
    resourceKind: string,
    resourceLocator: string,
    toolCallId: string,
    contextHash: string,
    policyVersion: string,
    policyHash: string)

  // ---- resolving the approved context -----------------------------------------------------

  /** The checks on the verdict a lookup found. */
  function Confirm(l: Ledger, verdictId: string, contextHash: string, sessionId: string, runId: string)
      : Result<Verdict, BindingError>
  {
    match ResolveByContext(l, verdictId, sessionId)
    case NotFound => Err(VerdictNotFound)
    case SessionMismatch(_) => Err(VerdictSessionMismatch)
    case Found(v) =>
      if !v.finalApproved then Err(VerdictNotFinalApproved)
      else if v.direction != Inbound then Err(VerdictWrongDirection)
      else if v.contextHash != Some(contextHash) then Err(ContextHashMismatch)
      else if v.runId != Some(runId) then Err(RunIdMismatch)
      else Ok(v)
  }

  function ResolveBinding(l: Ledger, contextHash: string, sessionId: string, runId: string)
      : Result<Verdict, BindingError>
  {
    if !IsSha256Hex(contextHash) then Err(MalformedContextHash)
    else match Lookup(l.approvedByContext, Key(contextHash, sessionId))
         case None => Err(ApprovedVerdictMissing)
         case Some(id) => Confirm(l, id, contextHash, sessionId, runId)
  }

  /** The refusals a ledger kept by its own operations can give. */
  predicate Reachable(error: BindingError) {
    error.MalformedContextHash? || error.ApprovedVerdictMissing? || error.RunIdMismatch?
  }

  lemma ConfirmAfterLookup(l: Ledger, verdictId: string, contextHash: string, sessionId: string, runId: string)
    requires LedgerOk(l) && IsSha256Hex(contextHash)
    requires Lookup(l.approvedByContext, Key(contextHash, sessionId)) == Some(verdictId)
    ensures var r := Confirm(l, verdictId, contextHash, sessionId, runId);
            && verdictId in l.verdicts
            && (r.Ok? <==> l.verdicts[verdictId].runId == Some(runId))
            && (r.Ok? ==> r.value == l.verdicts[verdictId] && r.value.verdictId == verdictId)
            && (r.Err? ==> r.error == RunIdMismatch)
  {
    hide LedgerOk, Key, IsSha256Hex;
    ContextLookupSound(l, contextHash, sessionId);
    VerdictNamed(l, verdictId);
  }

  lemma VerdictNamed(l: Ledger, id: string)
    requires LedgerOk(l) && id in l.verdicts
    ensures l.verdicts[id].verdictId == id
  {
  }

  /** Five of the eight refusals cannot happen; a binding resolves exactly when the
      digest and session are indexed and the run is the approved one. */
  lemma BindingSound(l: Ledger, contextHash: string, sessionId: string, runId: string)
    requires LedgerOk(l)
    ensures var r := ResolveBinding(l, contextHash, sessionId, runId);
            && (r.Err? ==> Reachable(r.error))
            && (r.Ok? ==>
                  && r.value.finalApproved && r.value.direction == Inbound
                  && r.value.contextHash == Some(contextHash) && r.value.sessionId == sessionId
                  && r.value.runId == Some(runId))
  {
    hide LedgerOk, Key, IsSha256Hex, Lookup;
    if IsSha256Hex(contextHash) {
      var found := Lookup(l.approvedByContext, Key(contextHash, sessionId));
      if found.Some? {
        ConfirmAfterLookup(l, found.value, contextHash, sessionId, runId);
      }
    }
  }

  // ---- what is recorded and issued -----------------------------------------------------------

  datatype Semantics = Semantics(plane: Token.Plane, normalizedAction: string, required: bool)

  /** `derive_action_semantics_for_tool` */
  function ToolSemantics(toolName: string): Semantics {
    if toolName == "heartbeat_respond" then Semantics(Token.Control, "system.telemetry.heartbeat", false)
    else Semantics(Token.Tool, "tool." + toolName, true)
  }

  function ProviderDecision(r: ProviderRequest, verdictId: string): Capability.Request {
    Capability.Request(
      r.govTxId, Token.AUTHORITY_PROVIDER_EXECUTE,
      Capability.Scope(r.sessionId, r.principalFingerprint, r.backend, r.model, r.actionClass, r.runId, r.contextHash,
                       r.policyVersion, "", "", "", "", "", Token.Tool, "", true),
      verdictId, r.policyHash, r.authorizationBasis, r.agency, r.drs)
  }

  /** The envelope built from the exact call to be authorized, not yet sealed. */
  function ProposedAction(r: ActionRequest): ActionEnvelope.Action {
    ActionEnvelope.Action(
      ActionEnvelope.ACTION_ENVELOPE_SCHEMA_VERSION, r.toolName, r.arguments, r.resourceKind, r.resourceLocator,
      r.principalFingerprint, r.sessionId, r.runId, r.toolCallId, r.policyVersion, r.policyHash, r.contextHash, "")
  }

  function DispositionName(d: ActionPolicy.Disposition): string {
    match d
    case Allow => "Allow"
    case RequireAuthorization => "RequireAuthorization"
    case Deny => "Deny"
  }

  function ActionDecision(r: ActionRequest, e: ActionEnvelope.Action, verdictId: string, basis: string, drs: nat)
      : Capability.Request
  {
    var semantics := ToolSemantics(e.toolName);
    Capability.Request(
      r.govTxId, Token.AUTHORITY_ACTION_EXECUTE,
      Capability.Scope(e.sessionId, r.principalFingerprint, "", "", "tool:" + e.toolName, e.runId, e.contextHash,
                       e.policyVersion, e.actionHash, e.toolName, e.resourceKind, e.resourceLocator, e.toolCallId,
                       semantics.plane, semantics.normalizedAction, semantics.required),
      verdictId, e.policyHash, basis, "ExecuteActions", drs)
  }

  /** Sealing and the strict classifier, which only a sealed envelope reaches. */
  function Vet(sha: string -> Digest, lower: string -> string, r: ActionRequest)
      : Result<ActionEnvelope.Action, AuthorizationError>
  {
    match ActionEnvelope.SealAction(sha, ProposedAction(r))
    case Err(error) => Err(Envelope(error))
    case Ok(e) =>
      match ActionEnvelope.VerifyAction(sha, e)
      case Fail(error) => Err(Envelope(error))
      case Pass =>
        var decision := ActionPolicy.Classify(lower, e);
        if decision.disposition == ActionPolicy.Deny then Err(Denied(decision.risks)) else Ok(e)
  }

  /** The strict classifier never fails on what sealing returned, so an envelope error
      is always one of sealing. */
  lemma StrictNeverFails(sha: string -> Digest, lower: string -> string, r: ActionRequest)
    ensures ActionEnvelope.SealAction(sha, ProposedAction(r)).Ok? ==>
              Vet(sha, lower, r).Ok? || Vet(sha, lower, r).error.Denied?
  {
    hide ActionEnvelope.SealAction, ActionEnvelope.VerifyAction, ActionPolicy.Classify, ProposedAction;
    if ActionEnvelope.SealAction(sha, ProposedAction(r)).Ok? {
      ActionEnvelope.SealedActionVerifies(sha, ProposedAction(r));
    }
  }

  function ActionBasis(lower: string -> string, e: ActionEnvelope.Action): string {
    DispositionName(ActionPolicy.Classify(lower, e).disposition)
  }

  /** A vetted action is sealed, repeats the request, and is not denied. */
  lemma VettedAction(sha: string -> Digest, lower: string -> string, r: ActionRequest)
    requires Vet(sha, lower, r).Ok?
    ensures var e := Vet(sha, lower, r).value;
            && ActionEnvelope.VerifyAction(sha, e).Pass?
            && e.(actionHash := "") == ProposedAction(r)
            && ActionPolicy.Classify(lower, e).disposition != ActionPolicy.Deny
  {
    hide ActionEnvelope.SealAction, ActionEnvelope.VerifyAction, ActionPolicy.Classify;
    ActionEnvelope.SealedActionVerifies(sha, ProposedAction(r));
  }

  datatype Minting = Minting(decisionId: string, decidedAt: int, tokenId: string, issuedAt: int)

  /** Recording the decision, then issuing from it. */
  function Granted(w: Capability.Setup, s: Capability.Store, request: Capability.Request, m: Minting)
      : (Capability.Store, Result<Token.Token, AuthorizationError>)
    requires Capability.IndexComplete(s)
  {
    var recorded := Capability.AfterRecord(s, request, m.decisionId, m.decidedAt);
    match Capability.RecordResult(s, request, m.decisionId)
    case Err(error) => (recorded, Err(Decision(error)))
    case Ok(id) =>
      var issued := Capability.AfterIssue(w, recorded, id, m.tokenId, m.issuedAt);
      match Capability.IssueResult(w, recorded, id, m.tokenId, m.issuedAt)
      case Issued(token) => (issued, Ok(token))
      case DecisionNotFound => (issued, Err(DecisionNotFound))
      case AlreadyIssued => (issued, Err(AlreadyIssued))
  }

  function ProviderGrant(w: Capability.Setup, l: Ledger, s: Capability.Store, r: ProviderRequest, m: Minting)
      : (Capability.Store, Result<Token.Token, AuthorizationError>)
    requires Capability.IndexComplete(s)
  {
    match ResolveBinding(l, r.contextHash, r.sessionId, r.runId)
    case Err(error) => (s, Err(Binding(error)))
    case Ok(v) => Granted(w, s, ProviderDecision(r, v.verdictId), m)
  }

  function ActionGrant(w: Capability.Setup, lower: string -> string, l: Ledger, s: Capability.Store, r: ActionRequest,
                       drs: nat, m: Minting)
      : (Capability.Store, Result<Token.Token, AuthorizationError>)
    requires Capability.IndexComplete(s)
  {
    match ResolveBinding(l, r.contextHash, r.sessionId, r.runId)
    case Err(error) => (s, Err(Binding(error)))
    case Ok(v) =>
      match Vet(w.p.sha, lower, r)
      case Err(error) => (s, Err(error))
      case Ok(e) => Granted(w, s, ActionDecision(r, e, v.verdictId, ActionBasis(lower, e), drs), m)
  }

  /** The decision just recorded or found is always there to issue from. */
  lemma GrantNeverMissesDecision(w: Capability.Setup, s: Capability.Store, request: Capability.Request, m: Minting)
    requires Capability.IndexComplete(s)
    ensures var (after, r) := Granted(w, s, request, m);
            && Capability.IndexComplete(after)
            && r != Err(DecisionNotFound)
            && (r.Err? ==> r.error.Decision? || r.error.AlreadyIssued?)
  {
    hide Capability.CheckRequest, Capability.RequestKey, Capability.MakeToken;
  }

  /** With the plane derived from the tool name on both sides, a plane mismatch never
      shows without a tool mismatch: that refusal cannot occur. */
  lemma PlaneFollowsTool(w: Capability.Setup, r: ActionRequest, e: ActionEnvelope.Action, d: Capability.Decision,
                         drs: nat, basis: string, tokenId: string, now: int, b: Capability.Binding)
    requires d.request == ActionDecision(r, e, d.request.verdictId, basis, drs)
    requires b.plane == Token.PlaneName(ToolSemantics(b.toolName).plane)
    ensures Capability.CheckActionScope(Capability.MakeToken(w, d, tokenId, now), b) !=
            Fail(Capability.PlaneMismatch)
  {
    hide Token.Canonical, Token.PlaneName;
  }

  // ---- the pipeline's half of authorization -----------------------------------------------------

  class Gatekeeper {
    const ledger: SentinelVerdictLedger
    const store: Capability.CapabilityStore

    constructor (ledger: SentinelVerdictLedger, store: Capability.CapabilityStore)
      ensures this.ledger == ledger && this.store == store
    {
      this.ledger, this.store := ledger, store;
    }

    /** `resolve_outbound_context_binding`, and the first half of both authorizations. */
    method ResolveContextBinding(contextHash: string, sessionId: string, runId: string)
        returns (r: Result<Verdict, BindingError>)
      ensures r == ResolveBinding(ledger.View(), contextHash, sessionId, runId)
    {
      hide IsSha256Hex;
      if !IsSha256Hex(contextHash) {
        return Err(MalformedContextHash);
      }
      var verdictId := ledger.ApprovedVerdictIdByContext(contextHash, sessionId);
      if verdictId.None? {
        return Err(ApprovedVerdictMissing);
      }
      var resolution := ledger.ResolveContext(verdictId.value, sessionId);
      match resolution
      case NotFound =>
        return Err(VerdictNotFound);
      case SessionMismatch(_) =>
        return Err(VerdictSessionMismatch);
      case Found(v) =>
        if !v.finalApproved {
          return Err(VerdictNotFinalApproved);
        }
        if v.direction != Inbound {
          return Err(VerdictWrongDirection);
        }
        if v.contextHash != Some(contextHash) {
          return Err(ContextHashMismatch);
        }
        if v.runId != Some(runId) {
          return Err(RunIdMismatch);
        }
        r := Ok(v);
    }

    method Grant(request: Capability.Request, m: Minting) returns (r: Result<Token.Token, AuthorizationError>)
      requires Capability.IndexComplete(store.View())
      modifies store
      ensures (store.View(), r) == Granted(old(store.TheSetup()), old(store.View()), request, m)
      ensures store.TheSetup() == old(store.TheSetup())
    {
      hide Capability.IssueResult, Capability.RecordResult, Capability.AfterRecord, Capability.AfterIssue;
      var decisionId := store.RecordDecision(request, m.decisionId, m.decidedAt);
      if decisionId.Err? {
        return Err(Decision(decisionId.error));
      }
      var outcome := store.IssueAfterAuthorization(decisionId.value, m.tokenId, m.issuedAt);
      match outcome
      case Issued(token) => r := Ok(token);
      case DecisionNotFound => r := Err(DecisionNotFound);
      case AlreadyIssued => r := Err(AlreadyIssued);
    }

    method AuthorizeProviderExecution(request: ProviderRequest, m: Minting)
        returns (r: Result<Token.Token, AuthorizationError>)
      requires Capability.IndexComplete(store.View())
      modifies store
      ensures (store.View(), r) == ProviderGrant(old(store.TheSetup()), ledger.View(), old(store.View()), request, m)
      ensures ledger.View() == old(ledger.View())
    {
      hide Granted, ResolveBinding;
      var record := ResolveContextBinding(request.contextHash, request.sessionId, request.runId);
      if record.Err? {
        return Err(Binding(record.error));
      }
      r := Grant(ProviderDecision(request, record.value.verdictId), m);
    }

    method AuthorizeActionExecution(lower: string -> string, request: ActionRequest, drs: nat, m: Minting)
        returns (r: Result<Token.Token, AuthorizationError>)
      requires Capability.IndexComplete(store.View())
      modifies store
      ensures (store.View(), r) ==
              ActionGrant(old(store.TheSetup()), lower, ledger.View(), old(store.View()), request, drs, m)
      ensures ledger.View() == old(ledger.View())
    {
      hide Granted, ResolveBinding, ActionPolicy.Classify, ActionEnvelope.SealAction, ActionEnvelope.VerifyAction,
           ActionDecision, ProposedAction;
      var record := ResolveContextBinding(request.contextHash, request.sessionId, request.runId);
      if record.Err? {
        return Err(Binding(record.error));
      }
      var sealed := ActionEnvelope.Seal(store.p.sha, ProposedAction(request));
      if sealed.Err? {
        return Err(Envelope(sealed.error));
      }
      var envelope := sealed.value;
      var decision := ActionPolicy.EvaluateStrict(store.p.sha, lower, envelope);
      if decision.Err? {
        return Err(Envelope(decision.error));
      }
      if decision.value.disposition == ActionPolicy.Deny {
        return Err(Denied(decision.value.risks));
      }
      var basis := DispositionName(decision.value.disposition);
      r := Grant(ActionDecision(request, envelope, record.value.verdictId, basis, drs), m);
    }
  }
}
