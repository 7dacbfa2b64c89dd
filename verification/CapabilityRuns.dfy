/** Whole runs of the capability store: one token per transaction and authority, one
    use per token, and pruning that nobody can observe through an authorization. */
module CapabilityRuns {
  import opened Wrappers
  import opened Text
  import opened Crypto
  import opened CapabilityToken
  import opened CapabilityStore

  datatype Operation =
    | Record(request: Request, id: string, now: int)
    | Issue(decisionId: string, tokenId: string, now: int)
    | Consume(binding: Binding, now: int)
    | Prune(clock: string -> int, end: int)

  /** The store, every token ever issued by its id, and the bindings that were
      authorized, in order. */
  datatype History = History(store: Store, issued: map<string, Token>, authorized: seq<Binding>)

  const START := History(EMPTY, map[], [])

  function Step(w: Setup, h: History, op: Operation): History {
    match op
    case Record(request, id, now) => h.(store := AfterRecord(h.store, request, id, now))
    case Issue(decisionId, tokenId, now) =>
      var next := h.(store := AfterIssue(w, h.store, decisionId, tokenId, now));
      var result := IssueResult(w, h.store, decisionId, tokenId, now);
      if result.Issued? then next.(issued := h.issued[tokenId := result.token]) else next
    case Consume(b, now) =>
      var next := h.(store := AfterConsume(w, h.store, b, now));
      if ConsumeResult(w, h.store, b, now) == Authorized then next.(authorized := h.authorized + [b]) else next
    case Prune(clock, _) => h.(store := AfterPrune(h.store, clock))
  }

  /** Generated ids are new. */
  predicate Fresh(h: History, op: Operation) {
    match op
    case Record(_, id, _) => id !in h.store.decisions
    case Issue(_, tokenId, _) => tokenId !in h.issued
    case _ => true
  }

  predicate FreshRun(w: Setup, h: History, ops: seq<Operation>)
    decreases |ops|
  {
    ops != [] ==> Fresh(h, ops[0]) && FreshRun(w, Step(w, h, ops[0]), ops[1..])
  }

  function Run(w: Setup, h: History, ops: seq<Operation>): History
    decreases |ops|
  {
    if ops == [] then h else Run(w, Step(w, h, ops[0]), ops[1..])
  }

  // ---- the invariant --------------------------------------------------------------------

  predicate DecisionOk(s: Store, id: string)
    requires id in s.decisions
  {
    var d := s.decisions[id];
    && d.decisionId == id && CheckRequest(d.request).Pass?
    && RequestKey(d.request) in s.decisionByTx && s.decisionByTx[RequestKey(d.request)] == id
  }

  ghost predicate DecisionsOk(s: Store) {
    IndexComplete(s) && forall id | id in s.decisions :: DecisionOk(s, id)
  }

  /** The token carries its decision's scope, and the decision is marked. */
  predicate TokenOk(w: Setup, s: Store, t: Token) {
    && t.decisionId in s.decisions
    && s.decisions[t.decisionId].issued
    && t == MakeToken(w, s.decisions[t.decisionId], t.tokenId, t.issuedAt)
  }

  ghost predicate IssuedOk(w: Setup, h: History) {
    && (forall id | id in h.issued :: h.issued[id].tokenId == id && TokenOk(w, h.store, h.issued[id]))
    && (forall a, b | a in h.issued && b in h.issued && a != b :: h.issued[a].decisionId != h.issued[b].decisionId)
  }

  predicate Used(authorized: seq<Binding>, id: string) {
    exists i | 0 <= i < |authorized| :: authorized[i].tokenId == id
  }

  ghost predicate HeldOk(h: History) {
    forall id | id in h.store.capabilities ::
      && id in h.issued
      && h.store.capabilities[id] == h.issued[id].(useCount := if Used(h.authorized, id) then 1 else 0)
  }

  predicate AuthorizationOk(h: History, b: Binding) {
    b.tokenId in h.issued && Matches(h.issued[b.tokenId], b)
  }

  ghost predicate AuthorizedOk(h: History) {
    && (forall i | 0 <= i < |h.authorized| :: AuthorizationOk(h, h.authorized[i]))
    && (forall i, j | 0 <= i < j < |h.authorized| :: h.authorized[i].tokenId != h.authorized[j].tokenId)
  }

  ghost predicate HistoryOk(w: Setup, h: History) {
    DecisionsOk(h.store) && IssuedOk(w, h) && HeldOk(h) && AuthorizedOk(h)
  }

  // ---- step by step -------------------------------------------------------------------------

  lemma RecordKeeps(w: Setup, h: History, r: Request, id: string, now: int)
    requires HistoryOk(w, h) && id !in h.store.decisions
    ensures HistoryOk(w, Step(w, h, Record(r, id, now)))
  {
    hide DecisionsOk, IssuedOk, CheckRequest, RequestKey, Matches, Used;
    if CheckRequest(r).Pass? && RequestKey(r) !in h.store.decisionByTx {
      RecordedDecisionsOk(h.store, r, id, now);
      RecordedIssuedOk(w, h, r, id, now);
      SameAuthorizations(h, Step(w, h, Record(r, id, now)));
    }
  }

  lemma RecordedIssuedOk(w: Setup, h: History, r: Request, id: string, now: int)
    requires IssuedOk(w, h) && id !in h.store.decisions
    ensures IssuedOk(w, Step(w, h, Record(r, id, now)))
  {
    hide CheckRequest, MakeToken, RequestKey;
    var next := Step(w, h, Record(r, id, now));
    forall t | t in h.issued
      ensures TokenOk(w, next.store, h.issued[t])
    {
      assert TokenOk(w, h.store, h.issued[t]);
    }
  }

  lemma SameAuthorizations(h: History, next: History)
    requires next.issued == h.issued && next.authorized == h.authorized
    ensures AuthorizedOk(next) <==> AuthorizedOk(h)
  {
    hide Matches;
    assert forall b :: AuthorizationOk(next, b) == AuthorizationOk(h, b);
  }

  lemma RecordedDecisionsOk(s: Store, r: Request, id: string, now: int)
    requires DecisionsOk(s) && id !in s.decisions && CheckRequest(r).Pass? && RequestKey(r) !in s.decisionByTx
    ensures DecisionsOk(AfterRecord(s, r, id, now))
  {
    hide CheckRequest, RequestKey;
    var after := AfterRecord(s, r, id, now);
    forall x | x in after.decisions
      ensures DecisionOk(after, x)
    {
      if x != id {
        assert DecisionOk(s, x);
      }
    }
  }

  lemma IssueKeeps(w: Setup, h: History, decisionId: string, tokenId: string, now: int)
    requires HistoryOk(w, h) && tokenId !in h.issued
    ensures HistoryOk(w, Step(w, h, Issue(decisionId, tokenId, now)))
  {
    hide DecisionsOk, IssuedOk, HeldOk, AuthorizedOk, MakeToken;
    if decisionId in h.store.decisions && !h.store.decisions[decisionId].issued {
      IssuedDecisionsOk(w, h.store, decisionId, tokenId, now);
      DecisionNamed(h.store, decisionId);
      NewTokenOk(w, h, decisionId, tokenId, now);
      NobodyUsed(h, tokenId);
      IssuedHeldOk(w, h, decisionId, tokenId, now);
      IssuedAuthorizedOk(w, h, decisionId, tokenId, now);
    }
  }

  lemma DecisionNamed(s: Store, id: string)
    requires DecisionsOk(s) && id in s.decisions
    ensures s.decisions[id].decisionId == id
  {
    hide CheckRequest, RequestKey;
    assert DecisionOk(s, id);
  }

  lemma IssuedHeldOk(w: Setup, h: History, decisionId: string, tokenId: string, now: int)
    requires HeldOk(h) && !Used(h.authorized, tokenId)
    requires decisionId in h.store.decisions && !h.store.decisions[decisionId].issued
    ensures HeldOk(Step(w, h, Issue(decisionId, tokenId, now)))
  {
    hide Used, Canonical;
  }

  lemma IssuedAuthorizedOk(w: Setup, h: History, decisionId: string, tokenId: string, now: int)
    requires AuthorizedOk(h) && tokenId !in h.issued
    ensures AuthorizedOk(Step(w, h, Issue(decisionId, tokenId, now)))
  {
    hide Matches, MakeToken;
    var next := Step(w, h, Issue(decisionId, tokenId, now));
    forall i | 0 <= i < |next.authorized|
      ensures AuthorizationOk(next, next.authorized[i])
    {
      assert AuthorizationOk(h, h.authorized[i]);
    }
  }

  lemma IssuedDecisionsOk(w: Setup, s: Store, decisionId: string, tokenId: string, now: int)
    requires DecisionsOk(s)
    ensures DecisionsOk(AfterIssue(w, s, decisionId, tokenId, now))
  {
    hide CheckRequest, RequestKey, MakeToken;
    var after := AfterIssue(w, s, decisionId, tokenId, now);
    forall x | x in after.decisions
      ensures DecisionOk(after, x)
    {
      assert DecisionOk(s, x);
    }
  }

  lemma NewTokenOk(w: Setup, h: History, decisionId: string, tokenId: string, now: int)
    requires IssuedOk(w, h) && tokenId !in h.issued
    requires decisionId in h.store.decisions && h.store.decisions[decisionId].decisionId == decisionId
    requires !h.store.decisions[decisionId].issued
    ensures IssuedOk(w, Step(w, h, Issue(decisionId, tokenId, now)))
  {
    hide MakeToken, TokenOk;
    var next := Step(w, h, Issue(decisionId, tokenId, now));
    forall id | id in next.issued
      ensures next.issued[id].tokenId == id && TokenOk(w, next.store, next.issued[id])
      ensures id != tokenId ==> next.issued[id].decisionId != decisionId
      ensures id == tokenId ==> next.issued[id].decisionId == decisionId
    {
      if id != tokenId {
        OldTokenOk(w, h.store, h.issued[id], decisionId, tokenId, now);
      } else {
        MadeTokenOk(w, h.store, decisionId, tokenId, now);
      }
    }
  }

  lemma OldTokenOk(w: Setup, s: Store, t: Token, decisionId: string, tokenId: string, now: int)
    requires TokenOk(w, s, t) && decisionId in s.decisions && !s.decisions[decisionId].issued
    ensures TokenOk(w, AfterIssue(w, s, decisionId, tokenId, now), t) && t.decisionId != decisionId
  {
    hide MakeToken;
  }

  lemma MadeTokenOk(w: Setup, s: Store, decisionId: string, tokenId: string, now: int)
    requires decisionId in s.decisions && s.decisions[decisionId].decisionId == decisionId
    requires !s.decisions[decisionId].issued
    ensures var t := MakeToken(w, s.decisions[decisionId], tokenId, now);
            && t.tokenId == tokenId && t.decisionId == decisionId
            && TokenOk(w, AfterIssue(w, s, decisionId, tokenId, now), t)
  {
    hide Canonical;
  }

  lemma NobodyUsed(h: History, tokenId: string)
    requires AuthorizedOk(h) && tokenId !in h.issued
    ensures !Used(h.authorized, tokenId)
  {
    hide Matches;
    forall i | 0 <= i < |h.authorized|
      ensures h.authorized[i].tokenId != tokenId
    {
      assert AuthorizationOk(h, h.authorized[i]);
    }
  }

  lemma ConsumeKeeps(w: Setup, h: History, b: Binding, now: int)
    requires HistoryOk(w, h)
    ensures HistoryOk(w, Step(w, h, Consume(b, now)))
  {
    hide DecisionsOk, IssuedOk, HeldOk, AuthorizedOk, ConsumeResult, Matches, Used;
    if ConsumeResult(w, h.store, b, now) == Authorized {
      AuthorizedIff(w, h.store, b, now);
      UnusedUntilNow(w, h, b);
      SameDecisions(w, h, Step(w, h, Consume(b, now)));
      ConsumedHeldOk(w, h, b, now);
      ConsumedAuthorizedOk(w, h, b, now);
    }
  }

  lemma ConsumedHeldOk(w: Setup, h: History, b: Binding, now: int)
    requires HeldOk(h) && !Used(h.authorized, b.tokenId)
    requires b.tokenId in h.store.capabilities && ConsumeResult(w, h.store, b, now) == Authorized
    ensures HeldOk(Step(w, h, Consume(b, now)))
  {
    hide Used, ConsumeResult;
    UsedGrows(h.authorized, b);
  }

  lemma ConsumedAuthorizedOk(w: Setup, h: History, b: Binding, now: int)
    requires HeldOk(h) && AuthorizedOk(h) && !Used(h.authorized, b.tokenId)
    requires b.tokenId in h.store.capabilities && ConsumeResult(w, h.store, b, now) == Authorized
    requires Matches(h.store.capabilities[b.tokenId], b)
    ensures AuthorizedOk(Step(w, h, Consume(b, now)))
  {
    hide Used, Matches, ConsumeResult;
    var next := Step(w, h, Consume(b, now));
    MatchesIgnoresCount(h.issued[b.tokenId], h.store.capabilities[b.tokenId].useCount, b);
    forall i | 0 <= i < |next.authorized|
      ensures AuthorizationOk(next, next.authorized[i])
    {
      assert i < |h.authorized| ==> AuthorizationOk(h, h.authorized[i]);
    }
    NewBindingDistinct(h, b);
  }

  lemma MatchesIgnoresCount(t: Token, useCount: nat, b: Binding)
    ensures Matches(t.(useCount := useCount), b) == Matches(t, b)
  {
    hide PlaneName;
  }

  lemma SameDecisions(w: Setup, h: History, next: History)
    requires next.store.decisions == h.store.decisions && next.store.decisionByTx == h.store.decisionByTx
    requires next.issued == h.issued
    ensures DecisionsOk(next.store) <==> DecisionsOk(h.store)
    ensures IssuedOk(w, next) <==> IssuedOk(w, h)
  {
    hide CheckRequest, RequestKey, MakeToken;
    assert forall id | id in h.store.decisions :: DecisionOk(next.store, id) == DecisionOk(h.store, id);
    assert forall id | id in h.issued :: TokenOk(w, next.store, h.issued[id]) == TokenOk(w, h.store, h.issued[id]);
  }

  lemma UnusedUntilNow(w: Setup, h: History, b: Binding)
    requires IssuedOk(w, h) && HeldOk(h) && b.tokenId in h.store.capabilities
    requires h.store.capabilities[b.tokenId].useCount < h.store.capabilities[b.tokenId].maxUses
    ensures !Used(h.authorized, b.tokenId)
  {
    hide Used, Canonical;
    assert TokenOk(w, h.store, h.issued[b.tokenId]);
  }

  lemma UsedGrows(authorized: seq<Binding>, b: Binding)
    ensures forall id :: Used(authorized + [b], id) <==> Used(authorized, id) || id == b.tokenId
  {
    var longer := authorized + [b];
    forall id
      ensures Used(longer, id) <==> Used(authorized, id) || id == b.tokenId
    {
      if Used(authorized, id) {
        var i :| 0 <= i < |authorized| && authorized[i].tokenId == id;
        assert longer[i].tokenId == id;
      }
      assert longer[|authorized|] == b;
    }
  }

  lemma NewBindingDistinct(h: History, b: Binding)
    requires AuthorizedOk(h) && !Used(h.authorized, b.tokenId)
    ensures var a := h.authorized + [b]; forall i, j | 0 <= i < j < |a| :: a[i].tokenId != a[j].tokenId
  {
    hide AuthorizationOk;
  }

  lemma PruneKeeps(w: Setup, h: History, clock: string -> int, end: int)
    requires HistoryOk(w, h)
    ensures HistoryOk(w, Step(w, h, Prune(clock, end)))
  {
    hide DecisionsOk, IssuedOk, AuthorizedOk, Used;
    var next := Step(w, h, Prune(clock, end));
    SameDecisions(w, h, next);
    SameAuthorizations(h, next);
  }

  lemma StepKeeps(w: Setup, h: History, op: Operation)
    requires HistoryOk(w, h) && Fresh(h, op)
    ensures HistoryOk(w, Step(w, h, op))
  {
    hide HistoryOk, Step;
    match op
    case Record(r, id, now) => RecordKeeps(w, h, r, id, now);
    case Issue(decisionId, tokenId, now) => IssueKeeps(w, h, decisionId, tokenId, now);
    case Consume(b, now) => ConsumeKeeps(w, h, b, now);
    case Prune(clock, end) => PruneKeeps(w, h, clock, end);
  }

  lemma {:induction false} RunKeeps(w: Setup, h: History, ops: seq<Operation>)
    requires HistoryOk(w, h) && FreshRun(w, h, ops)
    ensures HistoryOk(w, Run(w, h, ops))
    decreases |ops|
  {
    hide HistoryOk, Step, Fresh;
    if ops != [] {
      StepKeeps(w, h, ops[0]);
      RunKeeps(w, Step(w, h, ops[0]), ops[1..]);
    }
  }

  // ---- main results ----------------------------------------------------------------------------

  /** Over any run, the index never misses a decision, no two tokens are issued for one
      transaction and authority, and no token is authorized twice. */
  lemma SingleUse(w: Setup, ops: seq<Operation>)
    requires FreshRun(w, START, ops)
    ensures var h := Run(w, START, ops);
            && IndexComplete(h.store)
            && (forall a, b | a in h.issued && b in h.issued && a != b ::
                  h.issued[a].govTxId != h.issued[b].govTxId || h.issued[a].authority != h.issued[b].authority)
            && (forall i, j | 0 <= i < j < |h.authorized| :: h.authorized[i].tokenId != h.authorized[j].tokenId)
            && (forall i | 0 <= i < |h.authorized| :: AuthorizationOk(h, h.authorized[i]))
  {
    hide Run, FreshRun, AuthorizationOk, TokenOk, DecisionOk;
    assert HistoryOk(w, START);
    RunKeeps(w, START, ops);
    var h := Run(w, START, ops);
    forall a, b | a in h.issued && b in h.issued && a != b
      ensures h.issued[a].govTxId != h.issued[b].govTxId || h.issued[a].authority != h.issued[b].authority
    {
      OneTokenPerTransaction(w, h, a, b);
    }
  }

  lemma OneTokenPerTransaction(w: Setup, h: History, a: string, b: string)
    requires DecisionsOk(h.store) && IssuedOk(w, h) && a in h.issued && b in h.issued && a != b
    ensures h.issued[a].govTxId != h.issued[b].govTxId || h.issued[a].authority != h.issued[b].authority
  {
    hide CheckRequest, Canonical;
    var x, y := h.issued[a], h.issued[b];
    assert TokenOk(w, h.store, x) && TokenOk(w, h.store, y);
    assert DecisionOk(h.store, x.decisionId) && DecisionOk(h.store, y.decisionId);
  }

  /** The other direction: after any run a held, unused token presented with its scope
      before it expires is authorized. */
  lemma HeldTokenAuthorizes(w: Setup, ops: seq<Operation>, b: Binding, now: int)
    requires Honest(w.p, w.signer) && FreshRun(w, START, ops)
    ensures var h := Run(w, START, ops);
            && b.tokenId in h.store.capabilities && !Used(h.authorized, b.tokenId)
            && Matches(h.store.capabilities[b.tokenId], b) && now < h.store.capabilities[b.tokenId].expiresAt ==>
            ConsumeResult(w, h.store, b, now) == Authorized
  {
    hide Run, FreshRun, HistoryOk, ConsumeResult, Matches, Used;
    ReachableOk(w, ops);
    var h := Run(w, START, ops);
    if b.tokenId in h.store.capabilities && !Used(h.authorized, b.tokenId)
       && Matches(h.store.capabilities[b.tokenId], b) && now < h.store.capabilities[b.tokenId].expiresAt {
      UnusedTokenPasses(w, h, b, now);
    }
  }

  lemma ReachableOk(w: Setup, ops: seq<Operation>)
    requires FreshRun(w, START, ops)
    ensures HistoryOk(w, Run(w, START, ops))
  {
    hide Run, FreshRun;
    assert HistoryOk(w, START);
    RunKeeps(w, START, ops);
  }

  lemma UnusedTokenPasses(w: Setup, h: History, b: Binding, now: int)
    requires Honest(w.p, w.signer) && HistoryOk(w, h)
    requires b.tokenId in h.store.capabilities && !Used(h.authorized, b.tokenId)
    requires Matches(h.store.capabilities[b.tokenId], b) && now < h.store.capabilities[b.tokenId].expiresAt
    ensures ConsumeResult(w, h.store, b, now) == Authorized
  {
    hide ConsumeResult, Canonical, KnownAuthority, Matches, Used;
    var t := h.issued[b.tokenId];
    assert TokenOk(w, h.store, t);
    assert DecisionOk(h.store, t.decisionId);
    FreshTokenSigned(w, h.store.decisions[t.decisionId], t.tokenId, t.issuedAt);
    RecordedAuthorityKnown(h.store.decisions[t.decisionId].request);
    AuthorizedIff(w, h.store, b, now);
    assert h.store.capabilities[b.tokenId] == t;
  }

  /** After any run no held token fails its signature check, and a held token is answered
      as consumed exactly when it was authorized before. */
  lemma ReplayAnswer(w: Setup, ops: seq<Operation>, b: Binding, now: int)
    requires Honest(w.p, w.signer) && FreshRun(w, START, ops)
    ensures var h := Run(w, START, ops);
            && ConsumeResult(w, h.store, b, now) != SignatureInvalid
            && (ConsumeResult(w, h.store, b, now) == AlreadyConsumed <==>
                  b.tokenId in h.store.capabilities && Used(h.authorized, b.tokenId))
  {
    hide Run, FreshRun, HistoryOk, ConsumeResult, Used;
    ReachableOk(w, ops);
    HeldAnswer(w, Run(w, START, ops), b, now);
  }

  lemma HeldAnswer(w: Setup, h: History, b: Binding, now: int)
    requires Honest(w.p, w.signer) && HistoryOk(w, h)
    ensures ConsumeResult(w, h.store, b, now) != SignatureInvalid
    ensures ConsumeResult(w, h.store, b, now) == AlreadyConsumed <==>
            b.tokenId in h.store.capabilities && Used(h.authorized, b.tokenId)
  {
    hide Canonical, KnownAuthority, CheckScope, CheckActionScope, Used, CheckRequest, DecisionsOk, AuthorizedOk;
    if b.tokenId in h.store.capabilities {
      var t, held := h.issued[b.tokenId], h.store.capabilities[b.tokenId];
      assert TokenOk(w, h.store, t);
      FreshTokenSigned(w, h.store.decisions[t.decisionId], t.tokenId, t.issuedAt);
      SignatureUnsigned(t, t.signature, held.useCount);
      OtherRefusals(held, b);
    }
  }

  lemma OtherRefusals(t: Token, b: Binding)
    ensures CheckScope(t, b) != Fail(AlreadyConsumed) && CheckScope(t, b) != Fail(SignatureInvalid)
    ensures CheckActionScope(t, b) != Fail(AlreadyConsumed) && CheckActionScope(t, b) != Fail(SignatureInvalid)
  {
    hide KnownAuthority, PlaneName;
  }

  lemma RecordedAuthorityKnown(r: Request)
    requires CheckRequest(r).Pass?
    ensures KnownAuthority(r.authority) && IsSha256Hex(r.scope.contextHash)
  {
    hide Filled, IsSha256Hex;
  }

  // ---- pruning --------------------------------------------------------------------------------

  function Time(op: Operation): int {
    if op.Prune? then op.end else op.now
  }

  /** Clock readings never go back, also between the tokens one pruning visits. */
  ghost predicate Clocked(now: int, ops: seq<Operation>)
    decreases |ops|
  {
    ops != [] ==>
      && now <= Time(ops[0])
      && (ops[0].Prune? ==> forall id :: ops[0].clock(id) <= ops[0].end)
      && Clocked(Time(ops[0]), ops[1..])
  }

  function WithoutPrunes(ops: seq<Operation>): seq<Operation> {
    if ops == [] then []
    else if ops[0].Prune? then WithoutPrunes(ops[1..])
    else [ops[0]] + WithoutPrunes(ops[1..])
  }

  /** The pruned store lacks nothing but tokens that have expired. */
  ghost predicate OnlyExpiredMissing(pruned: History, full: History, now: int) {
    && pruned == full.(store := full.store.(capabilities := pruned.store.capabilities))
    && LacksExpired(pruned.store.capabilities, full.store.capabilities, now)
  }

  ghost predicate LacksExpired(pruned: map<string, Token>, full: map<string, Token>, now: int) {
    && (forall id | id in pruned :: id in full && pruned[id] == full[id])
    && (forall id | id in full && id !in pruned :: full[id].expiresAt <= now)
  }

  lemma LacksExpiredUpdate(pruned: map<string, Token>, full: map<string, Token>, now: int, id: string, t: Token)
    requires LacksExpired(pruned, full, now)
    ensures LacksExpired(pruned[id := t], full[id := t], now)
  {
  }

  lemma ConsumeAlike(w: Setup, pruned: History, full: History, b: Binding, now: int)
    requires OnlyExpiredMissing(pruned, full, now)
    ensures ConsumeResult(w, pruned.store, b, now) == Authorized <==>
            ConsumeResult(w, full.store, b, now) == Authorized
    ensures OnlyExpiredMissing(Step(w, pruned, Consume(b, now)), Step(w, full, Consume(b, now)), now)
  {
    hide ConsumeResult, Matches, TokenSigned;
    AuthorizedIff(w, pruned.store, b, now);
    AuthorizedIff(w, full.store, b, now);
  }

  lemma RecordAlike(w: Setup, pruned: History, full: History, op: Operation, now: int)
    requires OnlyExpiredMissing(pruned, full, now) && now <= Time(op) && op.Record?
    ensures OnlyExpiredMissing(Step(w, pruned, op), Step(w, full, op), Time(op))
  {
    hide CheckRequest, RequestKey;
  }

  lemma IssueAlike(w: Setup, pruned: History, full: History, op: Operation, now: int)
    requires OnlyExpiredMissing(pruned, full, now) && now <= Time(op) && op.Issue?
    ensures OnlyExpiredMissing(Step(w, pruned, op), Step(w, full, op), Time(op))
  {
    hide MakeToken, LacksExpired;
    StillExpired(pruned, full, now, op.now);
    if op.decisionId in full.store.decisions {
      LacksExpiredUpdate(pruned.store.capabilities, full.store.capabilities, op.now, op.tokenId,
                         MakeToken(w, full.store.decisions[op.decisionId], op.tokenId, op.now));
    }
  }

  lemma StillExpired(pruned: History, full: History, now: int, later: int)
    requires OnlyExpiredMissing(pruned, full, now) && now <= later
    ensures OnlyExpiredMissing(pruned, full, later)
  {
  }

  lemma StepAlike(w: Setup, pruned: History, full: History, op: Operation, now: int)
    requires OnlyExpiredMissing(pruned, full, now) && now <= Time(op) && !op.Prune?
    ensures OnlyExpiredMissing(Step(w, pruned, op), Step(w, full, op), Time(op))
  {
    hide OnlyExpiredMissing, Step;
    match op
    case Record(_, _, _) => RecordAlike(w, pruned, full, op, now);
    case Issue(_, _, _) => IssueAlike(w, pruned, full, op, now);
    case Consume(b, at) =>
      StillExpired(pruned, full, now, at);
      ConsumeAlike(w, pruned, full, b, at);
  }

  lemma PruneAlike(w: Setup, pruned: History, full: History, op: Operation, now: int)
    requires OnlyExpiredMissing(pruned, full, now) && op.Prune? && now <= op.end
    requires forall id :: op.clock(id) <= op.end
    ensures OnlyExpiredMissing(Step(w, pruned, op), full, op.end)
  {
  }

  lemma {:induction false} RunsAlike(w: Setup, pruned: History, full: History, ops: seq<Operation>, now: int)
    requires OnlyExpiredMissing(pruned, full, now) && Clocked(now, ops)
    ensures Run(w, pruned, ops).authorized == Run(w, full, WithoutPrunes(ops)).authorized
    ensures Run(w, pruned, ops).issued == Run(w, full, WithoutPrunes(ops)).issued
    decreases |ops|
  {
    hide Step, OnlyExpiredMissing;
    if ops == [] {
      RelatedAgree(pruned, full, now);
    } else if ops[0].Prune? {
      PruneAlike(w, pruned, full, ops[0], now);
      RunsAlike(w, Step(w, pruned, ops[0]), full, ops[1..], Time(ops[0]));
    } else {
      StepAlike(w, pruned, full, ops[0], now);
      RunsAlike(w, Step(w, pruned, ops[0]), Step(w, full, ops[0]), ops[1..], Time(ops[0]));
      assert WithoutPrunes(ops)[1..] == WithoutPrunes(ops[1..]);
    }
  }

  lemma RelatedAgree(pruned: History, full: History, now: int)
    requires OnlyExpiredMissing(pruned, full, now)
    ensures pruned.authorized == full.authorized && pruned.issued == full.issued
  {
  }

  /** With clocks that never go back, leaving every prune out of a run changes neither
      which bindings are authorized nor which tokens are issued. */
  lemma PruningUnobservable(w: Setup, ops: seq<Operation>, now: int)
    requires Clocked(now, ops)
    ensures Run(w, START, ops).authorized == Run(w, START, WithoutPrunes(ops)).authorized
    ensures Run(w, START, ops).issued == Run(w, START, WithoutPrunes(ops)).issued
  {
    hide Run, WithoutPrunes, Clocked;
    assert OnlyExpiredMissing(START, START, now);
    RunsAlike(w, START, START, ops, now);
  }
}
