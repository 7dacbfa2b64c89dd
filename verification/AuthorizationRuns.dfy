/** The authorization protocol under interleaving. Each lock acquisition is a step of
    its own: an approval is three inserts, an authorization is a lookup, a check, a
    decision and an issue, and any number of both may be in flight. */
module AuthorizationRuns {
  import opened Wrappers
  import opened Text
  import opened Json
  import opened Signals
  import opened VerdictLedger
  import opened AuthorizationPaths
  import ActionEnvelope
  import ActionPolicy
  import Context = ContextEnvelope
  import ContextBinding
  import Token = CapabilityToken
  import Capability = CapabilityStore
  import Runs = CapabilityRuns

  datatype Rules = Rules(setup: Capability.Setup, lower: string -> string)

  datatype Ask = AskProvider(provider: ProviderRequest) | AskAction(action: ActionRequest, drs: nat) {
    function ContextHash(): string {
      if AskProvider? then provider.contextHash else action.contextHash
    }

    function SessionId(): string {
      if AskProvider? then provider.sessionId else action.sessionId
    }

    function RunId(): string {
      if AskProvider? then provider.runId else action.runId
    }
  }

  /** Arguments are JSON values. */
  predicate AskOk(ask: Ask) {
    ask.AskAction? ==> ActionEnvelope.IsValue(ask.action.arguments)
  }

  /** Where an approval stands: which inserts are still to come. */
  datatype Approval = Inserted(verdict: Verdict) | TxIndexed(verdict: Verdict)

  /** Where an authorization stands. */
  datatype Progress =
    | LookedUp(ask: Ask, verdictId: string)
    | Confirmed(request: Capability.Request)
    | Decided(decisionId: string)

  datatype Entry =
    | ContextApproved(envelope: Context.ModelContext)
    | TextApproved(sessionId: string)
    | ActionVetted(action: ActionEnvelope.Action)
    | Refused(error: AuthorizationError)
    | Issued(token: Token.Token)
    | Consumed(binding: Capability.Binding, outcome: Capability.ConsumeOutcome)

  datatype World = World(
    ledger: Ledger,
    caps: Runs.History,
    approvals: map<nat, Approval>,
    grants: map<nat, Progress>,
    log: seq<Entry>)

  const START := World(VerdictLedger.EMPTY, Runs.START, map[], map[], [])

  datatype Step =
    | ApproveContext(thread: nat, envelope: Context.ModelContext, signal: Signal, govTxId: string, id: string, now: int)
    | ApproveText(thread: nat, signal: Signal, govTxId: string, id: string, now: int)
    | IndexTx(thread: nat)
    | IndexContext(thread: nat)
    | Begin(thread: nat, ask: Ask)
    | Check(thread: nat)
    | Decide(thread: nat, id: string, now: int)
    | Issue(thread: nat, tokenId: string, now: int)
    | Consume(binding: Capability.Binding, now: int)
    | Prune(clock: string -> int, end: int)

  // ---- the steps ---------------------------------------------------------------------------

  /** An inbound call reaches its first insert only after it verified its envelope and
      decided to approve; its signal is inbound and of the envelope's session. */
  predicate Enabled(r: Rules, w: World, step: Step) {
    match step
    case ApproveContext(t, e, s, _, id, _) =>
      && t !in w.approvals && id !in w.ledger.verdicts
      && Context.VerifyContext(r.setup.p.sha, e).Pass? && s.direction == Inbound && s.sessionId == e.sessionId
    case ApproveText(t, s, _, id, _) => t !in w.approvals && id !in w.ledger.verdicts && s.direction == Inbound
    case IndexTx(t) => t in w.approvals && w.approvals[t].Inserted?
    case IndexContext(t) => t in w.approvals && w.approvals[t].TxIndexed?
    case Begin(t, ask) => t !in w.grants && AskOk(ask)
    case Check(t) => t in w.grants && w.grants[t].LookedUp?
    case Decide(t, id, _) => t in w.grants && w.grants[t].Confirmed? && id !in w.caps.store.decisions
    case Issue(t, tokenId, _) => t in w.grants && w.grants[t].Decided? && tokenId !in w.caps.issued
    case Consume(_, _) => true
    case Prune(_, _) => true
  }

  function ContextVerdict(step: Step): Verdict
    requires step.ApproveContext?
  {
    MakeVerdict(step.id, step.govTxId, step.signal, true, Some((step.envelope.contextHash, step.envelope.runId)),
                step.now)
  }

  function Refuse(w: World, thread: nat, error: AuthorizationError): World {
    w.(grants := w.grants - {thread}, log := w.log + [Refused(error)])
  }

  function AfterBegin(w: World, thread: nat, ask: Ask): World {
    if !IsSha256Hex(ask.ContextHash()) then Refuse(w, thread, Binding(MalformedContextHash))
    else
      var found := Lookup(w.ledger.approvedByContext, Key(ask.ContextHash(), ask.SessionId()));
      if found.None? then Refuse(w, thread, Binding(ApprovedVerdictMissing))
      else w.(grants := w.grants[thread := LookedUp(ask, found.value)])
  }

  /** What a passed check leaves behind: the request to record and, for an action, the
      entry that names the sealed call the classifier let through. */
  datatype Cleared = Cleared(request: Capability.Request, entries: seq<Entry>)

  function RequestFor(r: Rules, ask: Ask, verdictId: string): Result<Cleared, AuthorizationError> {
    match ask
    case AskProvider(provider) => Ok(Cleared(ProviderDecision(provider, verdictId), []))
    case AskAction(action, drs) =>
      match Vet(r.setup.p.sha, r.lower, action)
      case Err(error) => Err(error)
      case Ok(e) =>
        Ok(Cleared(ActionDecision(action, e, verdictId, ActionBasis(r.lower, e), drs), [ActionVetted(e)]))
  }

  function AfterCheck(r: Rules, w: World, thread: nat, ask: Ask, verdictId: string): World {
    match Confirm(w.ledger, verdictId, ask.ContextHash(), ask.SessionId(), ask.RunId())
    case Err(error) => Refuse(w, thread, Binding(error))
    case Ok(v) =>
      match RequestFor(r, ask, v.verdictId)
      case Err(error) => Refuse(w, thread, error)
      case Ok(cleared) => Clear(w, thread, cleared)
  }

  function Clear(w: World, thread: nat, cleared: Cleared): World {
    w.(grants := w.grants[thread := Confirmed(cleared.request)], log := w.log + cleared.entries)
  }

  /** The decision a recorded request ends at, if it is not refused. */
  function AfterDecide(w: World, thread: nat, request: Capability.Request, id: string, now: int): World
    requires Capability.IndexComplete(w.caps.store)
  {
    var next := w.(caps := w.caps.(store := Capability.AfterRecord(w.caps.store, request, id, now)));
    match Capability.RecordResult(w.caps.store, request, id)
    case Err(error) => Refuse(next, thread, Decision(error))
    case Ok(decisionId) => next.(grants := w.grants[thread := Decided(decisionId)])
  }

  function AfterIssue(r: Rules, w: World, thread: nat, decisionId: string, tokenId: string, now: int): World {
    var next := w.(caps := Runs.Step(r.setup, w.caps, Runs.Issue(decisionId, tokenId, now)),
                   grants := w.grants - {thread});
    match Capability.IssueResult(r.setup, w.caps.store, decisionId, tokenId, now)
    case Issued(token) => next.(log := w.log + [Issued(token)])
    case DecisionNotFound => Refuse(next, thread, DecisionNotFound)
    case AlreadyIssued => Refuse(next, thread, AlreadyIssued)
  }

  function AfterConsume(r: Rules, w: World, b: Capability.Binding, now: int): World {
    w.(caps := Runs.Step(r.setup, w.caps, Runs.Consume(b, now)),
       log := w.log + [Consumed(b, Capability.ConsumeResult(r.setup, w.caps.store, b, now))])
  }

  function Apply(r: Rules, w: World, step: Step): World
    requires Enabled(r, w, step) && Capability.IndexComplete(w.caps.store)
  {
    match step
    case ApproveContext(t, e, _, _, _, _) =>
      w.(ledger := InsertVerdict(w.ledger, ContextVerdict(step)),
         approvals := w.approvals[t := Inserted(ContextVerdict(step))], log := w.log + [ContextApproved(e)])
    case ApproveText(t, s, govTxId, id, now) =>
      var v := MakeVerdict(id, govTxId, s, true, None, now);
      w.(ledger := InsertVerdict(w.ledger, v), approvals := w.approvals[t := Inserted(v)],
         log := w.log + [TextApproved(s.sessionId)])
    case IndexTx(t) =>
      var v := w.approvals[t].verdict;
      w.(ledger := IndexByTx(w.ledger, v), approvals := w.approvals[t := TxIndexed(v)])
    case IndexContext(t) =>
      w.(ledger := IndexByContext(w.ledger, w.approvals[t].verdict), approvals := w.approvals - {t})
    case Begin(t, ask) => AfterBegin(w, t, ask)
    case Check(t) => AfterCheck(r, w, t, w.grants[t].ask, w.grants[t].verdictId)
    case Decide(t, id, now) => AfterDecide(w, t, w.grants[t].request, id, now)
    case Issue(t, tokenId, now) => AfterIssue(r, w, t, w.grants[t].decisionId, tokenId, now)
    case Consume(b, now) => AfterConsume(r, w, b, now)
    case Prune(clock, end) => w.(caps := Runs.Step(r.setup, w.caps, Runs.Prune(clock, end)))
  }

  // ---- evidence in the log ---------------------------------------------------------------------

  predicate Approves(r: Rules, entry: Entry, contextHash: string, sessionId: string, runId: string) {
    && entry.ContextApproved?
    && Context.VerifyContext(r.setup.p.sha, entry.envelope).Pass?
    && entry.envelope.contextHash == contextHash && entry.envelope.sessionId == sessionId
    && entry.envelope.runId == runId
  }

  /** Some inbound context call approved exactly this context, session and run. */
  predicate Traced(r: Rules, log: seq<Entry>, contextHash: string, sessionId: string, runId: string) {
    exists i | 0 <= i < |log| :: Approves(r, log[i], contextHash, sessionId, runId)
  }

  lemma TracedLater(r: Rules, log: seq<Entry>, later: seq<Entry>, contextHash: string, sessionId: string, runId: string)
    requires log <= later && Traced(r, log, contextHash, sessionId, runId)
    ensures Traced(r, later, contextHash, sessionId, runId)
  {
    hide Approves;
    var i :| 0 <= i < |log| && Approves(r, log[i], contextHash, sessionId, runId);
    assert later[i] == log[i];
  }

  /** The sealed action behind an action request: verified, not denied, the same call. */
  predicate VettedFor(r: Rules, e: ActionEnvelope.Action, q: Capability.Request) {
    && ActionEnvelope.IsValue(e.arguments)
    && ActionEnvelope.VerifyAction(r.setup.p.sha, e).Pass?
    && ActionPolicy.Classify(r.lower, e).disposition != ActionPolicy.Deny
    && q.scope.actionHash == e.actionHash && q.scope.toolName == e.toolName
    && q.scope.resourceKind == e.resourceKind && q.scope.resourceLocator == e.resourceLocator
    && q.scope.toolCallId == e.toolCallId && q.scope.contextHash == e.contextHash
    && q.scope.sessionId == e.sessionId && q.scope.runId == e.runId
    && q.scope.principalFingerprint == e.principalId
  }

  predicate VettedEntry(r: Rules, entry: Entry, q: Capability.Request) {
    entry.ActionVetted? && VettedFor(r, entry.action, q)
  }

  /** Some check sealed and classified the action of this request. */
  predicate Vetted(r: Rules, log: seq<Entry>, q: Capability.Request) {
    q.authority == Token.AUTHORITY_ACTION_EXECUTE ==> exists i | 0 <= i < |log| :: VettedEntry(r, log[i], q)
  }

  lemma VettedLater(r: Rules, log: seq<Entry>, later: seq<Entry>, q: Capability.Request)
    requires log <= later && Vetted(r, log, q)
    ensures Vetted(r, later, q)
  {
    hide VettedEntry;
    if q.authority == Token.AUTHORITY_ACTION_EXECUTE {
      var i :| 0 <= i < |log| && VettedEntry(r, log[i], q);
      assert later[i] == log[i];
    }
  }

  ghost predicate RequestOk(r: Rules, log: seq<Entry>, q: Capability.Request) {
    Traced(r, log, q.scope.contextHash, q.scope.sessionId, q.scope.runId) && Vetted(r, log, q)
  }

  // ---- the invariant, part by part ----------------------------------------------------------------

  predicate VerdictTraced(r: Rules, log: seq<Entry>, v: Verdict) {
    v.contextHash.Some? && v.runId.Some? ==> Traced(r, log, v.contextHash.value, v.sessionId, v.runId.value)
  }

  ghost predicate LedgerTraced(r: Rules, l: Ledger, log: seq<Entry>) {
    forall id | id in l.verdicts :: VerdictTraced(r, log, l.verdicts[id])
  }

  predicate InLedger(l: Ledger, v: Verdict) {
    v.verdictId in l.verdicts && l.verdicts[v.verdictId] == v && ApprovalOk(v)
  }

  ghost predicate ApprovalsOk(l: Ledger, approvals: map<nat, Approval>) {
    forall t | t in approvals :: InLedger(l, approvals[t].verdict)
  }

  /** What a lookup found stays true of the verdict, though the index may move on. */
  predicate FoundOk(l: Ledger, ask: Ask, id: string) {
    && AskOk(ask) && id in l.verdicts
    && l.verdicts[id].verdictId == id && l.verdicts[id].finalApproved && l.verdicts[id].direction == Inbound
    && l.verdicts[id].contextHash == Some(ask.ContextHash()) && l.verdicts[id].sessionId == ask.SessionId()
  }

  ghost predicate ProgressOk(r: Rules, l: Ledger, decisions: set<string>, log: seq<Entry>, g: Progress) {
    match g
    case LookedUp(ask, id) => FoundOk(l, ask, id)
    case Confirmed(q) => RequestOk(r, log, q)
    case Decided(id) => id in decisions
  }

  ghost predicate GrantsOk(r: Rules, l: Ledger, decisions: set<string>, log: seq<Entry>, grants: map<nat, Progress>) {
    forall t | t in grants :: ProgressOk(r, l, decisions, log, grants[t])
  }

  ghost predicate DecisionsTraced(r: Rules, decisions: map<string, Capability.Decision>, log: seq<Entry>) {
    forall id | id in decisions :: RequestOk(r, log, decisions[id].request)
  }

  /** The errors an authorization can end with. */
  predicate Possible(error: AuthorizationError) {
    match error
    case Binding(b) => Reachable(b)
    case DecisionNotFound => false
    case _ => true
  }

  /** An action binding that was authorized names a sealed action that was not denied. */
  predicate VettedBinding(r: Rules, e: ActionEnvelope.Action, b: Capability.Binding) {
    && ActionEnvelope.IsValue(e.arguments)
    && ActionEnvelope.VerifyAction(r.setup.p.sha, e).Pass?
    && ActionPolicy.Classify(r.lower, e).disposition != ActionPolicy.Deny
    && b.actionHash == e.actionHash && b.toolName == e.toolName && b.resourceKind == e.resourceKind
    && b.resourceLocator == e.resourceLocator && b.toolCallId == e.toolCallId && b.contextHash == e.contextHash
    && b.sessionId == e.sessionId && b.runId == e.runId && b.principalFingerprint == e.principalId
  }

  predicate VettedCall(r: Rules, entry: Entry, b: Capability.Binding) {
    entry.ActionVetted? && VettedBinding(r, entry.action, b)
  }

  /** What a log must hold before a binding may be authorized: the approval of its context
      and, for an action, the check that sealed and classified that action. */
  predicate Justified(r: Rules, log: seq<Entry>, b: Capability.Binding) {
    && Traced(r, log, b.contextHash, b.sessionId, b.runId)
    && (b.authority == Token.AUTHORITY_ACTION_EXECUTE ==> exists i | 0 <= i < |log| :: VettedCall(r, log[i], b))
  }

  /** Refusals are possible ones; an authorized consume has its approval before it. */
  ghost predicate EntryOk(r: Rules, log: seq<Entry>, i: nat)
    requires i < |log|
  {
    match log[i]
    case Refused(error) => Possible(error)
    case Consumed(b, outcome) => outcome == Capability.Authorized ==> Justified(r, log[..i], b)
    case _ => true
  }

  ghost predicate LogOk(r: Rules, log: seq<Entry>) {
    forall i: nat | i < |log| :: EntryOk(r, log, i)
  }

  ghost predicate WorldOk(r: Rules, w: World) {
    && LedgerOk(w.ledger)
    && LedgerTraced(r, w.ledger, w.log)
    && ApprovalsOk(w.ledger, w.approvals)
    && Runs.HistoryOk(r.setup, w.caps)
    && GrantsOk(r, w.ledger, w.caps.store.decisions.Keys, w.log, w.grants)
    && DecisionsTraced(r, w.caps.store.decisions, w.log)
    && LogOk(r, w.log)
  }

  // ---- what a longer log or ledger keeps --------------------------------------------------------------

  lemma LogExtends(r: Rules, log: seq<Entry>, entry: Entry)
    requires LogOk(r, log)
    requires entry.Refused? ==> Possible(entry.error)
    requires entry.Consumed? && entry.outcome == Capability.Authorized ==> Justified(r, log, entry.binding)
    ensures LogOk(r, log + [entry])
  {
    hide Justified, Possible;
    var longer := log + [entry];
    forall i: nat | i < |longer|
      ensures EntryOk(r, longer, i)
    {
      if i < |log| {
        assert EntryOk(r, log, i);
        assert longer[..i] == log[..i];
      } else {
        assert longer[..i] == log;
      }
    }
  }

  lemma RequestOkLater(r: Rules, log: seq<Entry>, later: seq<Entry>, q: Capability.Request)
    requires log <= later && RequestOk(r, log, q)
    ensures RequestOk(r, later, q)
  {
    hide Vetted, Traced;
    TracedLater(r, log, later, q.scope.contextHash, q.scope.sessionId, q.scope.runId);
    VettedLater(r, log, later, q);
  }

  /** Everything said about the log stays true of a longer one. */
  lemma LaterKeeps(r: Rules, w: World, later: seq<Entry>)
    requires w.log <= later
    ensures LedgerTraced(r, w.ledger, w.log) ==> LedgerTraced(r, w.ledger, later)
    ensures GrantsOk(r, w.ledger, w.caps.store.decisions.Keys, w.log, w.grants) ==>
              GrantsOk(r, w.ledger, w.caps.store.decisions.Keys, later, w.grants)
    ensures DecisionsTraced(r, w.caps.store.decisions, w.log) ==> DecisionsTraced(r, w.caps.store.decisions, later)
  {
    hide RequestOk, Traced, FoundOk;
    forall q | RequestOk(r, w.log, q)
      ensures RequestOk(r, later, q)
    {
      RequestOkLater(r, w.log, later, q);
    }
    forall contextHash, sessionId, runId | Traced(r, w.log, contextHash, sessionId, runId)
      ensures Traced(r, later, contextHash, sessionId, runId)
    {
      TracedLater(r, w.log, later, contextHash, sessionId, runId);
    }
  }

  predicate Grows(l: Ledger, m: Ledger) {
    forall id | id in l.verdicts :: id in m.verdicts && m.verdicts[id] == l.verdicts[id]
  }

  lemma LedgerGrowthKeeps(r: Rules, w: World, m: Ledger)
    requires Grows(w.ledger, m)
    ensures ApprovalsOk(w.ledger, w.approvals) ==> ApprovalsOk(m, w.approvals)
    ensures GrantsOk(r, w.ledger, w.caps.store.decisions.Keys, w.log, w.grants) ==>
              GrantsOk(r, m, w.caps.store.decisions.Keys, w.log, w.grants)
  {
    hide RequestOk, ApprovalOk;
    assert forall v | InLedger(w.ledger, v) :: InLedger(m, v);
    assert forall ask, id | FoundOk(w.ledger, ask, id) :: FoundOk(m, ask, id);
  }

  /** Dropping a thread, or logging its refusal, keeps the rest. */
  lemma RefuseKeeps(r: Rules, w: World, thread: nat, error: AuthorizationError)
    requires WorldOk(r, w) && Possible(error)
    ensures WorldOk(r, Refuse(w, thread, error))
  {
    hide LedgerOk, LedgerTraced, ApprovalsOk, Runs.HistoryOk, ProgressOk, DecisionsTraced, LogOk, Possible;
    LogExtends(r, w.log, Refused(error));
    LaterKeeps(r, w, w.log + [Refused(error)]);
  }

  // ---- approvals ------------------------------------------------------------------------------------------

  lemma VerifiedHashIsDigest(sha: string -> Digest, e: Context.ModelContext)
    requires Context.VerifyContext(sha, e).Pass?
    ensures IsSha256Hex(e.contextHash)
  {
    hide Context.CheckContext, Context.ContextMaterial, Context.HashCanonical, IsSha256Hex;
  }

  lemma ApproveContextKeeps(r: Rules, w: World, step: Step)
    requires WorldOk(r, w) && step.ApproveContext? && Enabled(r, w, step)
    ensures WorldOk(r, Apply(r, w, step))
  {
    hide LedgerOk, LedgerTraced, ApprovalsOk, Runs.HistoryOk, GrantsOk, DecisionsTraced, LogOk, Context.VerifyContext,
         ApprovalOk, Approves, Traced;
    var v, later := ContextVerdict(step), w.log + [ContextApproved(step.envelope)];
    VerifiedHashIsDigest(r.setup.p.sha, step.envelope);
    VerdictApproval(step);
    NewVerdictKeeps(r, w, step.thread, v, ContextApproved(step.envelope));
    LastEntryTraces(r, w.log, step.envelope);
    InsertedTraced(r, w.ledger, v, later);
  }

  lemma VerdictApproval(step: Step)
    requires step.ApproveContext? && step.signal.direction == Inbound && IsSha256Hex(step.envelope.contextHash)
    ensures ApprovalOk(ContextVerdict(step))
  {
    hide IsSha256Hex;
  }

  lemma LastEntryTraces(r: Rules, log: seq<Entry>, e: Context.ModelContext)
    requires Context.VerifyContext(r.setup.p.sha, e).Pass?
    ensures Traced(r, log + [ContextApproved(e)], e.contextHash, e.sessionId, e.runId)
  {
    hide Context.VerifyContext;
    var longer := log + [ContextApproved(e)];
    assert longer[|log|] == ContextApproved(e);
    assert Approves(r, longer[|log|], e.contextHash, e.sessionId, e.runId);
  }

  lemma InsertedTraced(r: Rules, l: Ledger, v: Verdict, later: seq<Entry>)
    requires LedgerTraced(r, l, later) && VerdictTraced(r, later, v)
    ensures LedgerTraced(r, InsertVerdict(l, v), later)
  {
    hide VerdictTraced;
  }

  /** The parts of the invariant that do not depend on what was approved. */
  lemma NewVerdictKeeps(r: Rules, w: World, thread: nat, v: Verdict, entry: Entry)
    requires WorldOk(r, w) && v.verdictId !in w.ledger.verdicts && ApprovalOk(v)
    requires entry.ContextApproved? || entry.TextApproved?
    ensures var m, later := InsertVerdict(w.ledger, v), w.log + [entry];
            && LedgerOk(m) && LedgerTraced(r, w.ledger, later)
            && ApprovalsOk(m, w.approvals[thread := Inserted(v)])
            && GrantsOk(r, m, w.caps.store.decisions.Keys, later, w.grants)
            && DecisionsTraced(r, w.caps.store.decisions, later)
            && LogOk(r, later)
  {
    hide LedgerOk, LedgerTraced, Runs.HistoryOk, GrantsOk, DecisionsTraced, LogOk, ApprovalOk;
    var m, later := InsertVerdict(w.ledger, v), w.log + [entry];
    InsertVerdictKeeps(w.ledger, v);
    LogExtends(r, w.log, entry);
    LaterKeeps(r, w, later);
    LedgerGrowthKeeps(r, w.(log := later), m);
  }

  lemma ApproveTextKeeps(r: Rules, w: World, step: Step)
    requires WorldOk(r, w) && step.ApproveText? && Enabled(r, w, step)
    ensures WorldOk(r, Apply(r, w, step))
  {
    hide LedgerOk, LedgerTraced, ApprovalsOk, Runs.HistoryOk, GrantsOk, DecisionsTraced, LogOk, Traced;
    var v := MakeVerdict(step.id, step.govTxId, step.signal, true, None, step.now);
    NewVerdictKeeps(r, w, step.thread, v, TextApproved(step.signal.sessionId));
    InsertedTraced(r, w.ledger, v, w.log + [TextApproved(step.signal.sessionId)]);
  }

  lemma IndexKeeps(r: Rules, w: World, step: Step)
    requires WorldOk(r, w) && (step.IndexTx? || step.IndexContext?) && Enabled(r, w, step)
    ensures WorldOk(r, Apply(r, w, step))
  {
    hide LedgerOk, VerdictTraced, InLedger, Runs.HistoryOk, GrantsOk, DecisionsTraced, LogOk;
    var v := w.approvals[step.thread].verdict;
    InLedgerMeans(w.ledger, v);
    if step.IndexTx? {
      IndexByTxKeeps(w.ledger, v);
      LedgerGrowthKeeps(r, w, IndexByTx(w.ledger, v));
    } else {
      IndexByContextKeeps(w.ledger, v);
      LedgerGrowthKeeps(r, w, IndexByContext(w.ledger, v));
    }
  }

  lemma InLedgerMeans(l: Ledger, v: Verdict)
    requires InLedger(l, v)
    ensures v.verdictId in l.verdicts && l.verdicts[v.verdictId] == v && ApprovalOk(v)
  {
  }

  // ---- authorizations -----------------------------------------------------------------------------------------

  lemma BeginKeeps(r: Rules, w: World, thread: nat, ask: Ask)
    requires WorldOk(r, w) && thread !in w.grants && AskOk(ask)
    ensures WorldOk(r, AfterBegin(w, thread, ask))
  {
    hide LedgerTraced, ApprovalsOk, Runs.HistoryOk, DecisionsTraced, LogOk, IsSha256Hex, Key, LedgerOk, RequestOk,
         AskOk;
    RefuseKeeps(r, w, thread, Binding(MalformedContextHash));
    RefuseKeeps(r, w, thread, Binding(ApprovedVerdictMissing));
    if IsSha256Hex(ask.ContextHash()) && Key(ask.ContextHash(), ask.SessionId()) in w.ledger.approvedByContext {
      ContextLookupSound(w.ledger, ask.ContextHash(), ask.SessionId());
      VerdictNamed(w.ledger, w.ledger.approvedByContext[Key(ask.ContextHash(), ask.SessionId())]);
    }
  }

  lemma CheckKeeps(r: Rules, w: World, thread: nat, ask: Ask, id: string)
    requires WorldOk(r, w) && thread in w.grants && w.grants[thread] == LookedUp(ask, id)
    ensures WorldOk(r, AfterCheck(r, w, thread, ask, id))
  {
    hide LedgerOk, LedgerTraced, ApprovalsOk, Runs.HistoryOk, DecisionsTraced, LogOk, RequestFor, RequestOk, Confirm,
         Clear;
    assert ProgressOk(r, w.ledger, w.caps.store.decisions.Keys, w.log, w.grants[thread]);
    ConfirmFound(w.ledger, ask, id);
    var confirmed := Confirm(w.ledger, id, ask.ContextHash(), ask.SessionId(), ask.RunId());
    if confirmed.Err? {
      RefuseKeeps(r, w, thread, Binding(RunIdMismatch));
    } else {
      var cleared := RequestFor(r, ask, id);
      if cleared.Err? {
        RequestErrorPossible(r, ask, id);
        RefuseKeeps(r, w, thread, cleared.error);
      } else {
        VerdictTracedIn(r, w, id);
        RequestForOk(r, w.log, ask, id);
        ClearKeeps(r, w, thread, cleared.value);
      }
    }
  }

  /** A check leaves at most one entry, and that names a vetted action. */
  predicate EntriesOk(entries: seq<Entry>) {
    entries == [] || (|entries| == 1 && entries[0].ActionVetted?)
  }

  lemma ClearKeeps(r: Rules, w: World, thread: nat, cleared: Cleared)
    requires WorldOk(r, w) && thread in w.grants && EntriesOk(cleared.entries)
    requires RequestOk(r, w.log + cleared.entries, cleared.request)
    ensures WorldOk(r, Clear(w, thread, cleared))
  {
    hide LedgerOk, LedgerTraced, ApprovalsOk, Runs.HistoryOk, DecisionsTraced, LogOk, RequestOk, FoundOk;
    var later := w.log + cleared.entries;
    LaterKeeps(r, w, later);
    if cleared.entries == [] {
      assert later == w.log;
    } else {
      assert cleared.entries == [cleared.entries[0]];
      LogExtends(r, w.log, cleared.entries[0]);
    }
  }

  lemma ConfirmFound(l: Ledger, ask: Ask, id: string)
    requires FoundOk(l, ask, id)
    ensures Confirm(l, id, ask.ContextHash(), ask.SessionId(), ask.RunId()) ==
            if l.verdicts[id].runId == Some(ask.RunId()) then Ok(l.verdicts[id]) else Err(RunIdMismatch)
  {
  }

  lemma VerdictTracedIn(r: Rules, w: World, id: string)
    requires LedgerTraced(r, w.ledger, w.log) && id in w.ledger.verdicts
    ensures VerdictTraced(r, w.log, w.ledger.verdicts[id])
  {
  }

  lemma RequestErrorPossible(r: Rules, ask: Ask, id: string)
    requires RequestFor(r, ask, id).Err?
    ensures Possible(RequestFor(r, ask, id).error)
  {
    hide ActionEnvelope.SealAction, ActionEnvelope.VerifyAction, ActionPolicy.Classify, ActionDecision,
         ProviderDecision;
  }

  lemma RequestForOk(r: Rules, log: seq<Entry>, ask: Ask, id: string)
    requires RequestFor(r, ask, id).Ok? && AskOk(ask)
    requires Traced(r, log, ask.ContextHash(), ask.SessionId(), ask.RunId())
    ensures var cleared := RequestFor(r, ask, id).value;
            EntriesOk(cleared.entries) && RequestOk(r, log + cleared.entries, cleared.request)
  {
    hide Traced, Vet, Vetted, ActionEnvelope.IsValue;
    var cleared := RequestFor(r, ask, id).value;
    TracedLater(r, log, log + cleared.entries, ask.ContextHash(), ask.SessionId(), ask.RunId());
    match ask
    case AskProvider(provider) =>
      ProviderNeedsNoVetting(r, log + cleared.entries, provider, id);
    case AskAction(action, drs) =>
      VettedAction(r.setup.p.sha, r.lower, action);
      ActionIsVetted(r, log, action, Vet(r.setup.p.sha, r.lower, action).value, id, drs);
  }

  lemma ProviderNeedsNoVetting(r: Rules, log: seq<Entry>, provider: ProviderRequest, id: string)
    ensures Vetted(r, log, ProviderDecision(provider, id))
  {
    assert Token.AUTHORITY_PROVIDER_EXECUTE[0] == 'p' && Token.AUTHORITY_ACTION_EXECUTE[0] == 'a';
  }

  lemma ActionIsVetted(r: Rules, log: seq<Entry>, action: ActionRequest, e: ActionEnvelope.Action, id: string, drs: nat)
    requires ActionEnvelope.VerifyAction(r.setup.p.sha, e).Pass? && e.(actionHash := "") == ProposedAction(action)
    requires ActionPolicy.Classify(r.lower, e).disposition != ActionPolicy.Deny
    requires ActionEnvelope.IsValue(action.arguments)
    ensures Vetted(r, log + [ActionVetted(e)], ActionDecision(action, e, id, ActionBasis(r.lower, e), drs))
    ensures var q := ActionDecision(action, e, id, ActionBasis(r.lower, e), drs);
            && q.scope.contextHash == action.contextHash && q.scope.sessionId == action.sessionId
            && q.scope.runId == action.runId
  {
    hide ActionEnvelope.VerifyAction, ActionEnvelope.IsValue, ActionPolicy.Classify, ToolSemantics, ActionBasis;
    var later := log + [ActionVetted(e)];
    assert later[|log|] == ActionVetted(e);
    assert VettedEntry(r, later[|log|], ActionDecision(action, e, id, ActionBasis(r.lower, e), drs));
  }

  lemma DecideKeeps(r: Rules, w: World, thread: nat, q: Capability.Request, id: string, now: int)
    requires WorldOk(r, w) && thread in w.grants && w.grants[thread] == Confirmed(q) && id !in w.caps.store.decisions
    ensures Capability.IndexComplete(w.caps.store)
    ensures WorldOk(r, AfterDecide(w, thread, q, id, now))
  {
    hide LedgerOk, LedgerTraced, ApprovalsOk, GrantsOk, Runs.HistoryOk, DecisionsTraced, LogOk, RequestOk,
         Capability.RecordResult, Capability.AfterRecord;
    HistoryIndexComplete(r.setup, w.caps);
    var next := w.(caps := w.caps.(store := Capability.AfterRecord(w.caps.store, q, id, now)));
    Runs.RecordKeeps(r.setup, w.caps, q, id, now);
    DecidedRequest(r, w, thread, q);
    RecordedTraced(r, w, q, id, now);
    var result := Capability.RecordResult(w.caps.store, q, id);
    if result.Err? {
      RefuseKeeps(r, next, thread, Decision(result.error));
    } else {
      ThreadDecided(r, next, thread, result.value);
    }
  }

  lemma HistoryIndexComplete(setup: Capability.Setup, h: Runs.History)
    requires Runs.HistoryOk(setup, h)
    ensures Capability.IndexComplete(h.store)
  {
  }

  lemma DecidedRequest(r: Rules, w: World, thread: nat, q: Capability.Request)
    requires GrantsOk(r, w.ledger, w.caps.store.decisions.Keys, w.log, w.grants)
    requires thread in w.grants && w.grants[thread] == Confirmed(q)
    ensures RequestOk(r, w.log, q)
  {
    hide RequestOk;
    assert ProgressOk(r, w.ledger, w.caps.store.decisions.Keys, w.log, w.grants[thread]);
  }

  lemma RecordedTraced(r: Rules, w: World, q: Capability.Request, id: string, now: int)
    requires Capability.IndexComplete(w.caps.store) && RequestOk(r, w.log, q)
    requires DecisionsTraced(r, w.caps.store.decisions, w.log)
    requires GrantsOk(r, w.ledger, w.caps.store.decisions.Keys, w.log, w.grants)
    ensures var after := Capability.AfterRecord(w.caps.store, q, id, now);
            && DecisionsTraced(r, after.decisions, w.log)
            && GrantsOk(r, w.ledger, after.decisions.Keys, w.log, w.grants)
            && (Capability.RecordResult(w.caps.store, q, id).Ok? ==>
                  Capability.RecordResult(w.caps.store, q, id).value in after.decisions)
  {
    hide RequestOk, FoundOk, Capability.CheckRequest, Capability.RequestKey;
  }

  lemma ThreadDecided(r: Rules, w: World, thread: nat, decisionId: string)
    requires WorldOk(r, w) && decisionId in w.caps.store.decisions
    ensures WorldOk(r, w.(grants := w.grants[thread := Decided(decisionId)]))
  {
    hide LedgerOk, LedgerTraced, ApprovalsOk, Runs.HistoryOk, DecisionsTraced, LogOk, RequestOk, FoundOk;
  }

  lemma IssueKeeps(r: Rules, w: World, thread: nat, decisionId: string, tokenId: string, now: int)
    requires WorldOk(r, w) && thread in w.grants && w.grants[thread] == Decided(decisionId) && tokenId !in w.caps.issued
    ensures WorldOk(r, AfterIssue(r, w, thread, decisionId, tokenId, now))
  {
    hide LedgerOk, LedgerTraced, ApprovalsOk, Runs.HistoryOk, DecisionsTraced, LogOk, ProgressOk,
         Capability.IssueResult, Runs.Step;
    Runs.IssueKeeps(r.setup, w.caps, decisionId, tokenId, now);
    IssueTouchesNoRequest(r, w, thread, decisionId, tokenId, now);
    var next := w.(caps := Runs.Step(r.setup, w.caps, Runs.Issue(decisionId, tokenId, now)),
                   grants := w.grants - {thread});
    var result := Capability.IssueResult(r.setup, w.caps.store, decisionId, tokenId, now);
    match result
    case Issued(token) =>
      LogExtends(r, next.log, Issued(token));
      LaterKeeps(r, next, next.log + [Issued(token)]);
    case AlreadyIssued =>
      RefuseKeeps(r, next, thread, AlreadyIssued);
    case DecisionNotFound =>
  }

  lemma IssueTouchesNoRequest(r: Rules, w: World, thread: nat, decisionId: string, tokenId: string, now: int)
    requires DecisionsTraced(r, w.caps.store.decisions, w.log)
    requires GrantsOk(r, w.ledger, w.caps.store.decisions.Keys, w.log, w.grants)
    requires thread in w.grants && w.grants[thread] == Decided(decisionId)
    ensures var after := Runs.Step(r.setup, w.caps, Runs.Issue(decisionId, tokenId, now)).store.decisions;
            && DecisionsTraced(r, after, w.log)
            && after.Keys == w.caps.store.decisions.Keys
            && Capability.IssueResult(r.setup, w.caps.store, decisionId, tokenId, now) != Capability.DecisionNotFound
  {
    hide RequestOk, FoundOk, Capability.MakeToken;
    assert ProgressOk(r, w.ledger, w.caps.store.decisions.Keys, w.log, w.grants[thread]);
  }

  lemma ConsumeKeeps(r: Rules, w: World, b: Capability.Binding, now: int)
    requires WorldOk(r, w)
    ensures WorldOk(r, AfterConsume(r, w, b, now))
  {
    hide LedgerOk, LedgerTraced, ApprovalsOk, Runs.HistoryOk, DecisionsTraced, GrantsOk, LogOk, Justified,
         Capability.ConsumeResult, Runs.Step;
    Runs.ConsumeKeeps(r.setup, w.caps, b, now);
    ConsumeTouchesNoDecision(r.setup, w.caps, b, now);
    var outcome := Capability.ConsumeResult(r.setup, w.caps.store, b, now);
    if outcome == Capability.Authorized {
      AuthorizedJustified(r, w, b, now);
    }
    LogExtends(r, w.log, Consumed(b, outcome));
    LaterKeeps(r, w, w.log + [Consumed(b, outcome)]);
  }

  lemma ConsumeTouchesNoDecision(setup: Capability.Setup, h: Runs.History, b: Capability.Binding, now: int)
    ensures Runs.Step(setup, h, Runs.Consume(b, now)).store.decisions == h.store.decisions
  {
    hide Capability.ConsumeResult;
  }

  /** The heart of the matter: the token's scope is its decision's scope, the decision's
      request was traced and vetted, and the binding repeats the token's scope. */
  lemma AuthorizedJustified(r: Rules, w: World, b: Capability.Binding, now: int)
    requires Runs.HistoryOk(r.setup, w.caps) && DecisionsTraced(r, w.caps.store.decisions, w.log)
    requires Capability.ConsumeResult(r.setup, w.caps.store, b, now) == Capability.Authorized
    ensures Justified(r, w.log, b)
  {
    hide Capability.ConsumeResult, Traced, RequestOk, Capability.Matches, Token.Canonical, Capability.TokenSigned,
         Runs.DecisionsOk, Runs.AuthorizedOk, Runs.Used;
    Capability.AuthorizedIff(r.setup, w.caps.store, b, now);
    var held, t := w.caps.store.capabilities[b.tokenId], w.caps.issued[b.tokenId];
    Runs.MatchesIgnoresCount(t, held.useCount, b);
    assert Runs.TokenOk(r.setup, w.caps.store, t);
    var q := w.caps.store.decisions[t.decisionId].request;
    assert RequestOk(r, w.log, q);
    BindingRepeatsRequest(r, w.log, w.caps.store.decisions[t.decisionId], t, b);
  }

  lemma BindingRepeatsRequest(r: Rules, log: seq<Entry>, d: Capability.Decision, t: Token.Token, b: Capability.Binding)
    requires t == Capability.MakeToken(r.setup, d, t.tokenId, t.issuedAt) && Capability.Matches(t, b)
    requires RequestOk(r, log, d.request)
    ensures Justified(r, log, b)
  {
    hide Traced, Token.Canonical, ActionEnvelope.VerifyAction, ActionEnvelope.IsValue, ActionPolicy.Classify,
         Token.PlaneName;
    if b.authority == Token.AUTHORITY_ACTION_EXECUTE {
      var i :| 0 <= i < |log| && VettedEntry(r, log[i], d.request);
      assert VettedCall(r, log[i], b);
    }
  }

  lemma PruneKeeps(r: Rules, w: World, clock: string -> int, end: int)
    requires WorldOk(r, w)
    ensures WorldOk(r, w.(caps := Runs.Step(r.setup, w.caps, Runs.Prune(clock, end))))
  {
    hide LedgerOk, LedgerTraced, ApprovalsOk, Runs.HistoryOk, DecisionsTraced, GrantsOk, LogOk;
    Runs.PruneKeeps(r.setup, w.caps, clock, end);
  }

  // ---- whole runs --------------------------------------------------------------------------------------------

  lemma WorldIndexComplete(r: Rules, w: World)
    requires WorldOk(r, w)
    ensures Capability.IndexComplete(w.caps.store)
  {
    hide LedgerOk, LedgerTraced, ApprovalsOk, DecisionsTraced, GrantsOk, LogOk, Runs.HistoryOk;
    HistoryIndexComplete(r.setup, w.caps);
  }

  lemma StepKeeps(r: Rules, w: World, step: Step)
    requires WorldOk(r, w) && Enabled(r, w, step)
    ensures Capability.IndexComplete(w.caps.store)
    ensures WorldOk(r, Apply(r, w, step))
  {
    hide WorldOk, AskOk, AfterBegin, AfterCheck, AfterDecide, AfterIssue, AfterConsume, Context.VerifyContext,
         Runs.Step, InsertVerdict, IndexByTx, IndexByContext, MakeVerdict;
    WorldIndexComplete(r, w);
    match step
    case ApproveContext(_, _, _, _, _, _) => ApproveContextKeeps(r, w, step);
    case ApproveText(_, _, _, _, _) => ApproveTextKeeps(r, w, step);
    case IndexTx(_) => IndexKeeps(r, w, step);
    case IndexContext(_) => IndexKeeps(r, w, step);
    case Begin(t, ask) => BeginKeeps(r, w, t, ask);
    case Check(t) => CheckKeeps(r, w, t, w.grants[t].ask, w.grants[t].verdictId);
    case Decide(t, id, now) => DecideKeeps(r, w, t, w.grants[t].request, id, now);
    case Issue(t, tokenId, now) => IssueKeeps(r, w, t, w.grants[t].decisionId, tokenId, now);
    case Consume(b, now) => ConsumeKeeps(r, w, b, now);
    case Prune(clock, end) => PruneKeeps(r, w, clock, end);
  }

  /** `last` is reached from `w` by enabled steps. */
  ghost predicate Leads(r: Rules, w: World, steps: seq<Step>, last: World)
    decreases |steps|
  {
    if steps == [] then w == last
    else
      && Enabled(r, w, steps[0]) && Capability.IndexComplete(w.caps.store)
      && Leads(r, Apply(r, w, steps[0]), steps[1..], last)
  }

  lemma {:induction false} RunKeeps(r: Rules, w: World, steps: seq<Step>, last: World)
    requires WorldOk(r, w) && Leads(r, w, steps, last)
    ensures WorldOk(r, last)
    decreases |steps|
  {
    hide WorldOk, Enabled, Apply;
    if steps != [] {
      StepKeeps(r, w, steps[0]);
      RunKeeps(r, Apply(r, w, steps[0]), steps[1..], last);
    }
  }

  /** The index the store relies on is complete after every run, so a run never stops
      for that reason: any enabled step can be taken from any reachable world. */
  lemma NeverStuck(r: Rules, steps: seq<Step>, last: World, step: Step)
    requires Leads(r, START, steps, last) && Enabled(r, last, step)
    ensures Capability.IndexComplete(last.caps.store)
    ensures Leads(r, last, [step], Apply(r, last, step))
  {
    hide WorldOk, Enabled, Apply;
    StartOk(r);
    RunKeeps(r, START, steps, last);
    WorldIndexComplete(r, last);
    assert [step][1..] == [];
  }

  lemma StartOk(r: Rules)
    ensures WorldOk(r, START)
  {
  }

  /** Every authorized consume traces back: before it, an inbound context call approved
      exactly its context, session and run; and for action authority an authorization
      sealed exactly its call and the classifier did not deny it. A legacy text approval
      is never enough. */
  lemma AuthorizedTracesBack(r: Rules, steps: seq<Step>, last: World, i: nat)
    requires Leads(r, START, steps, last)
    requires i < |last.log| && last.log[i].Consumed? && last.log[i].outcome == Capability.Authorized
    ensures Justified(r, last.log[..i], last.log[i].binding)
  {
    hide Leads, Justified, LedgerOk, LedgerTraced, ApprovalsOk, Runs.HistoryOk, DecisionsTraced, GrantsOk;
    StartOk(r);
    RunKeeps(r, START, steps, last);
    assert EntryOk(r, last.log, i);
  }

  /** Under every interleaving the refusals are possible ones: no authorization ends
      with a missing, foreign, unapproved, outbound or differently hashed verdict, nor
      with a missing decision. */
  lemma ImpossibleRefusals(r: Rules, steps: seq<Step>, last: World, i: nat)
    requires Leads(r, START, steps, last) && i < |last.log| && last.log[i].Refused?
    ensures Possible(last.log[i].error)
  {
    hide Leads, Possible, LedgerOk, LedgerTraced, ApprovalsOk, Runs.HistoryOk, DecisionsTraced, GrantsOk;
    StartOk(r);
    RunKeeps(r, START, steps, last);
    assert EntryOk(r, last.log, i);
  }

  // ---- what the hashes stand for -------------------------------------------------------------------------------

  /** No logged context collides with this one. */
  ghost predicate NoContextCollision(r: Rules, log: seq<Entry>, f: Context.ModelContext) {
    forall i | 0 <= i < |log| && log[i].ContextApproved? ::
      NoCollision(r.setup.p.sha, Print(Context.ContextMaterial(f)), Print(Context.ContextMaterial(log[i].envelope)))
  }

  /** So what executes is what was inspected: whoever holds a verifying context with the
      hash of an authorized binding holds the very context that was approved before. */
  lemma AuthorizedContextWasApproved(r: Rules, steps: seq<Step>, last: World, i: nat, f: Context.ModelContext)
    requires Leads(r, START, steps, last)
    requires i < |last.log| && last.log[i].Consumed? && last.log[i].outcome == Capability.Authorized
    requires Context.VerifyContext(r.setup.p.sha, f).Pass? && f.contextHash == last.log[i].binding.contextHash
    requires NoContextCollision(r, last.log, f)
    ensures ContextApproved(f) in last.log[..i]
  {
    hide Leads, LedgerOk, LedgerTraced, ApprovalsOk, Runs.HistoryOk, DecisionsTraced, GrantsOk, Context.VerifyContext,
         Context.ContextMaterial, Print, VettedBinding;
    AuthorizedTracesBack(r, steps, last, i);
    var b, log := last.log[i].binding, last.log[..i];
    var j :| 0 <= j < |log| && Approves(r, log[j], b.contextHash, b.sessionId, b.runId);
    assert log[j] == last.log[j];
    ContextBinding.ContextHashBinds(r.setup.p.sha, f, log[j].envelope);
  }

  /** No logged action collides with this one. */
  ghost predicate NoActionCollision(r: Rules, log: seq<Entry>, g: ActionEnvelope.Action) {
    forall i | 0 <= i < |log| && log[i].ActionVetted? ::
      NoCollision(r.setup.p.sha, Print(ActionEnvelope.ActionMaterial(log[i].action)),
                  Print(ActionEnvelope.ActionMaterial(g)))
  }

  /** The entry vetted exactly the call of this binding, and that call is `g`. */
  ghost predicate VettedAs(r: Rules, entry: Entry, b: Capability.Binding, g: ActionEnvelope.Action) {
    VettedCall(r, entry, b) && ActionEnvelope.SameAction(entry.action, g)
  }

  /** And whoever holds a verifying action with the hash of an authorized action binding
      holds, up to the order of argument keys, the very call that was vetted before. */
  lemma AuthorizedActionWasVetted(r: Rules, steps: seq<Step>, last: World, i: nat, g: ActionEnvelope.Action)
    requires Leads(r, START, steps, last)
    requires i < |last.log| && last.log[i].Consumed? && last.log[i].outcome == Capability.Authorized
    requires last.log[i].binding.authority == Token.AUTHORITY_ACTION_EXECUTE
    requires ActionEnvelope.VerifyAction(r.setup.p.sha, g).Pass? && ActionEnvelope.IsValue(g.arguments)
    requires g.actionHash == last.log[i].binding.actionHash && NoActionCollision(r, last.log, g)
    ensures exists j | 0 <= j < i :: VettedAs(r, last.log[j], last.log[i].binding, g)
  {
    hide Leads, LedgerOk, LedgerTraced, ApprovalsOk, Runs.HistoryOk, DecisionsTraced, GrantsOk, Traced,
         ActionEnvelope.VerifyAction, ActionEnvelope.ActionMaterial, ActionEnvelope.IsValue, ActionEnvelope.SameAction,
         ActionPolicy.Classify, Print;
    AuthorizedTracesBack(r, steps, last, i);
    var b, log := last.log[i].binding, last.log[..i];
    var j :| 0 <= j < |log| && VettedCall(r, log[j], b);
    assert log[j] == last.log[j];
    ActionEnvelope.ActionHashBinds(r.setup.p.sha, log[j].action, g);
    assert VettedAs(r, last.log[j], b, g);
  }
}
