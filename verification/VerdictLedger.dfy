/** The ledger of inspection verdicts and its two approval indexes. An approval is
    three separate inserts, each under a lock of its own; the ledger's invariant holds
    after every one of them. */
module VerdictLedger {
  import opened Wrappers
  import opened Text
  import opened Signals

  datatype Verdict = Verdict(
    verdictId: string,
    govTxId: string,
    sessionId: string,
    finalApproved: bool,
    direction: Direction,
    violationClass: Option<string>,
    severity: Severity,
    confidence: real,
    payloadHash: string,
    signalSignature: string,
    recordedAt: int,
    contextHash: Option<string>,
    runId: Option<string>)

  /** The contents of the three maps. */
  datatype Ledger = Ledger(
    verdicts: map<string, Verdict>,
    approvedByTx: map<string, string>,
    approvedByContext: map<string, string>)

  const EMPTY := Ledger(map[], map[], map[])

  function Key(left: string, sessionId: string): string {
    left + "|" + sessionId
  }

  function MakeVerdict(id: string, govTxId: string, s: Signal, approved: bool, context: Option<(string, string)>,
                       now: int): Verdict {
    Verdict(id, govTxId, s.sessionId, approved, s.direction, s.violationClass, s.severity, s.confidence, s.payloadHash,
            if s.signature.Some? then s.signature.value else "", now,
            if context.Some? then Some(context.value.0) else None,
            if context.Some? then Some(context.value.1) else None)
  }

  // ---- the three inserts --------------------------------------------------------------

  function InsertVerdict(l: Ledger, v: Verdict): Ledger {
    l.(verdicts := l.verdicts[v.verdictId := v])
  }

  function IndexByTx(l: Ledger, v: Verdict): Ledger {
    l.(approvedByTx := l.approvedByTx[Key(v.govTxId, v.sessionId) := v.verdictId])
  }

  function IndexByContext(l: Ledger, v: Verdict): Ledger {
    if v.contextHash.None? then l
    else l.(approvedByContext := l.approvedByContext[Key(v.contextHash.value, v.sessionId) := v.verdictId])
  }

  function RecordApproved(l: Ledger, v: Verdict): Ledger {
    IndexByContext(IndexByTx(InsertVerdict(l, v), v), v)
  }

  datatype ContextResolution = Found(verdict: Verdict) | NotFound | SessionMismatch(verdict: Verdict)

  datatype Resolution =
    | TxFound(verdict: Verdict)
    | TxNotFound
    | TransactionMismatch(verdict: Verdict)
    | TxSessionMismatch(verdict: Verdict)

  function Lookup(index: map<string, string>, key: string): Option<string> {
    if key in index then Some(index[key]) else None
  }

  function ResolveByContext(l: Ledger, verdictId: string, sessionId: string): ContextResolution {
    if verdictId !in l.verdicts then NotFound
    else if l.verdicts[verdictId].sessionId != sessionId then SessionMismatch(l.verdicts[verdictId])
    else Found(l.verdicts[verdictId])
  }

  function Resolve(l: Ledger, verdictId: string, govTxId: string, sessionId: string): Resolution {
    if verdictId !in l.verdicts then TxNotFound
    else
      var v := l.verdicts[verdictId];
      if v.govTxId != govTxId then TransactionMismatch(v)
      else if v.sessionId != sessionId then TxSessionMismatch(v)
      else TxFound(v)
  }

  /** `SentinelVerdictLedger` */
  class SentinelVerdictLedger {
    var verdicts: map<string, Verdict>
    var approvedByTx: map<string, string>
    var approvedByContext: map<string, string>

    ghost function View(): Ledger
      reads this
    {
      Ledger(verdicts, approvedByTx, approvedByContext)
    }

    constructor ()
      ensures View() == EMPTY
    {
      verdicts, approvedByTx, approvedByContext := map[], map[], map[];
    }

    /** An intermediate verdict: no authority, no index entry. */
    method Record(govTxId: string, s: Signal, id: string, now: int) returns (verdictId: string)
      modifies this
      ensures verdictId == id
      ensures View() == InsertVerdict(old(View()), MakeVerdict(id, govTxId, s, false, None, now))
    {
      verdicts := verdicts[id := MakeVerdict(id, govTxId, s, false, None, now)];
      verdictId := id;
    }

    method RecordFinalApproved(govTxId: string, s: Signal, id: string, now: int) returns (verdictId: string)
      modifies this
      ensures verdictId == id
      ensures View() == RecordApproved(old(View()), MakeVerdict(id, govTxId, s, true, None, now))
    {
      verdictId := RecordFinalApprovedInner(govTxId, s, None, id, now);
    }

    method RecordFinalApprovedWithContext(govTxId: string, s: Signal, contextHash: string, runId: string, id: string,
                                          now: int)
        returns (verdictId: string)
      modifies this
      ensures verdictId == id
      ensures View() ==
              RecordApproved(old(View()), MakeVerdict(id, govTxId, s, true, Some((contextHash, runId)), now))
    {
      verdictId := RecordFinalApprovedInner(govTxId, s, Some((contextHash, runId)), id, now);
    }

    method RecordFinalApprovedInner(govTxId: string, s: Signal, context: Option<(string, string)>, id: string, now: int)
        returns (verdictId: string)
      modifies this
      ensures verdictId == id
      ensures View() == RecordApproved(old(View()), MakeVerdict(id, govTxId, s, true, context, now))
    {
      var v := MakeVerdict(id, govTxId, s, true, context, now);
      verdicts := verdicts[id := v];
      approvedByTx := approvedByTx[Key(govTxId, s.sessionId) := id];
      if context.Some? {
        approvedByContext := approvedByContext[Key(context.value.0, s.sessionId) := id];
      }
      verdictId := id;
    }

    method ApprovedVerdictId(govTxId: string, sessionId: string) returns (r: Option<string>)
      ensures r == Lookup(View().approvedByTx, Key(govTxId, sessionId))
    {
      r := Lookup(approvedByTx, Key(govTxId, sessionId));
    }

    method ApprovedVerdictIdByContext(contextHash: string, sessionId: string) returns (r: Option<string>)
      ensures r == Lookup(View().approvedByContext, Key(contextHash, sessionId))
    {
      r := Lookup(approvedByContext, Key(contextHash, sessionId));
    }

    method ResolveContext(verdictId: string, sessionId: string) returns (r: ContextResolution)
      ensures r == ResolveByContext(View(), verdictId, sessionId)
    {
      if verdictId !in verdicts {
        return NotFound;
      }
      var v := verdicts[verdictId];
      if v.sessionId != sessionId {
        return SessionMismatch(v);
      }
      r := Found(v);
    }
  }

  // ---- the invariant, insert by insert ---------------------------------------------------

  /** A verdict that may stand behind an execution: approved inbound, and bound to a
      digest if to any context at all. */
  predicate ApprovalOk(v: Verdict) {
    && v.finalApproved && v.direction == Inbound
    && (v.contextHash.Some? <==> v.runId.Some?)
    && (v.contextHash.Some? ==> IsSha256Hex(v.contextHash.value))
  }

  ghost predicate LedgerOk(l: Ledger) {
    && (forall id | id in l.verdicts :: l.verdicts[id].verdictId == id)
    && (forall key | key in l.approvedByTx :: TxEntryOk(l, key, l.approvedByTx[key]))
    && (forall key | key in l.approvedByContext :: ContextEntryOk(l, key, l.approvedByContext[key]))
  }

  predicate TxEntryOk(l: Ledger, key: string, id: string) {
    && id in l.verdicts
    && ApprovalOk(l.verdicts[id])
    && key == Key(l.verdicts[id].govTxId, l.verdicts[id].sessionId)
  }

  predicate ContextEntryOk(l: Ledger, key: string, id: string) {
    && id in l.verdicts
    && ApprovalOk(l.verdicts[id])
    && l.verdicts[id].contextHash.Some?
    && key == Key(l.verdicts[id].contextHash.value, l.verdicts[id].sessionId)
  }

  lemma InsertVerdictKeeps(l: Ledger, v: Verdict)
    requires LedgerOk(l) && v.verdictId !in l.verdicts
    ensures LedgerOk(InsertVerdict(l, v)) && InsertVerdict(l, v).verdicts[v.verdictId] == v
  {
    hide ApprovalOk, Key;
  }

  lemma IndexByTxKeeps(l: Ledger, v: Verdict)
    requires LedgerOk(l) && v.verdictId in l.verdicts && l.verdicts[v.verdictId] == v && ApprovalOk(v)
    ensures LedgerOk(IndexByTx(l, v)) && IndexByTx(l, v).verdicts == l.verdicts
  {
    hide ApprovalOk, Key;
  }

  lemma IndexByContextKeeps(l: Ledger, v: Verdict)
    requires LedgerOk(l) && v.verdictId in l.verdicts && l.verdicts[v.verdictId] == v && ApprovalOk(v)
    ensures LedgerOk(IndexByContext(l, v)) && IndexByContext(l, v).verdicts == l.verdicts
  {
    hide ApprovalOk, Key;
  }

  /** A context approval can be looked up once its third insert is done. */
  lemma ApprovalIsFound(l: Ledger, v: Verdict)
    requires LedgerOk(l) && v.verdictId !in l.verdicts && ApprovalOk(v)
    ensures var after := RecordApproved(l, v);
            && LedgerOk(after)
            && Lookup(after.approvedByTx, Key(v.govTxId, v.sessionId)) == Some(v.verdictId)
            && (v.contextHash.Some? ==>
                  Lookup(after.approvedByContext, Key(v.contextHash.value, v.sessionId)) == Some(v.verdictId))
            && ResolveByContext(after, v.verdictId, v.sessionId) == Found(v)
  {
    hide LedgerOk, ApprovalOk, Key;
    InsertVerdictKeeps(l, v);
    IndexByTxKeeps(InsertVerdict(l, v), v);
    IndexByContextKeeps(IndexByTx(InsertVerdict(l, v), v), v);
  }

  lemma DigestPipeFree(s: string)
    requires IsSha256Hex(s)
    ensures PipeFree(s)
  {
    assert !IsLowerHex('|');
  }

  /** Soundness of the context index: what a 64-character digest and a session find is
      an approved inbound verdict for exactly that digest and session. */
  lemma ContextLookupSound(l: Ledger, contextHash: string, sessionId: string)
    requires LedgerOk(l) && IsSha256Hex(contextHash)
    requires Key(contextHash, sessionId) in l.approvedByContext
    ensures var id := l.approvedByContext[Key(contextHash, sessionId)];
            && id in l.verdicts
            && ResolveByContext(l, id, sessionId) == Found(l.verdicts[id])
            && l.verdicts[id].finalApproved && l.verdicts[id].direction == Inbound
            && l.verdicts[id].contextHash == Some(contextHash) && l.verdicts[id].sessionId == sessionId
            && l.verdicts[id].runId.Some?
  {
    var key := Key(contextHash, sessionId);
    var id := l.approvedByContext[key];
    assert ContextEntryOk(l, key, id);
    var v := l.verdicts[id];
    DigestPipeFree(contextHash);
    DigestPipeFree(v.contextHash.value);
    FirstFieldUnique(contextHash, sessionId, v.contextHash.value, v.sessionId);
  }

  /** No other pair is joined to the same key. */
  ghost predicate KeyDetermines(govTxId: string, sessionId: string) {
    forall a, b | Key(a, b) == Key(govTxId, sessionId) :: a == govTxId && b == sessionId
  }

  /** A joined key has one reading for every separator in it. */
  lemma KeyDeterminesIff(govTxId: string, sessionId: string)
    ensures KeyDetermines(govTxId, sessionId) <==> PipeFree(govTxId) && PipeFree(sessionId)
  {
    if PipeFree(govTxId) && PipeFree(sessionId) {
      forall a, b | Key(a, b) == Key(govTxId, sessionId)
        ensures a == govTxId && b == sessionId
      {
        KeyIsJoin(govTxId, sessionId);
        KeyIsJoin(a, b);
        JoinPipeUnambiguous([govTxId, sessionId], [a, b]);
      }
    } else {
      var (a, b) := Shifted(govTxId, sessionId);
      ShiftedSharesKey(govTxId, sessionId);
      assert Key(a, b) == Key(govTxId, sessionId);
    }
  }

  lemma KeyIsJoin(left: string, sessionId: string)
    ensures JoinPipe([left, sessionId]) == Key(left, sessionId)
  {
    assert [left, sessionId][1..] == [sessionId];
  }

  /** Another reading of the key: the border moved to a separator inside one of the ids. */
  ghost function Shifted(govTxId: string, sessionId: string): (string, string)
    requires !PipeFree(govTxId) || !PipeFree(sessionId)
  {
    if !PipeFree(govTxId) then
      var i :| 0 <= i < |govTxId| && govTxId[i] == '|';
      (govTxId[..i], govTxId[i + 1..] + "|" + sessionId)
    else
      var i :| 0 <= i < |sessionId| && sessionId[i] == '|';
      (govTxId + "|" + sessionId[..i], sessionId[i + 1..])
  }

  lemma ShiftedSharesKey(govTxId: string, sessionId: string)
    requires !PipeFree(govTxId) || !PipeFree(sessionId)
    ensures var (a, b) := Shifted(govTxId, sessionId);
            Key(a, b) == Key(govTxId, sessionId) && a != govTxId
  {
    var (a, b) := Shifted(govTxId, sessionId);
    if !PipeFree(govTxId) {
      var i := |a|;
      assert govTxId == govTxId[..i] + "|" + govTxId[i + 1..];
    } else {
      var i := |a| - |govTxId| - 1;
      assert sessionId == sessionId[..i] + "|" + sessionId[i + 1..];
    }
  }

  /** If the pair is indexed, what it finds is the approval recorded for that very pair. */
  predicate TxLookupSound(l: Ledger, govTxId: string, sessionId: string) {
    var key := Key(govTxId, sessionId);
    key in l.approvedByTx ==> Resolve(l, l.approvedByTx[key], govTxId, sessionId).TxFound?
  }

  /** Both ids are caller text. Looking up a pair is sound in every ledger exactly when
      neither id holds a separator; otherwise an approval of another pair can be found. */
  lemma TxLookupSoundIff(govTxId: string, sessionId: string)
    ensures (forall l | LedgerOk(l) :: TxLookupSound(l, govTxId, sessionId)) <==>
            PipeFree(govTxId) && PipeFree(sessionId)
  {
    hide LedgerOk, ApprovalOk, PipeFree, Shifted, Key;
    KeyDeterminesIff(govTxId, sessionId);
    if PipeFree(govTxId) && PipeFree(sessionId) {
      forall l | LedgerOk(l)
        ensures TxLookupSound(l, govTxId, sessionId)
      {
        if Key(govTxId, sessionId) in l.approvedByTx {
          TxIndexed(l, govTxId, sessionId);
        }
      }
    } else {
      ShiftedSharesKey(govTxId, sessionId);
      var (a, b) := Shifted(govTxId, sessionId);
      var v := TextApproval(a, b);
      EmptyOk();
      ApprovalIsFound(EMPTY, v);
      assert !TxLookupSound(RecordApproved(EMPTY, v), govTxId, sessionId);
    }
  }

  lemma TxIndexed(l: Ledger, govTxId: string, sessionId: string)
    requires LedgerOk(l) && Key(govTxId, sessionId) in l.approvedByTx
    ensures TxEntryOk(l, Key(govTxId, sessionId), l.approvedByTx[Key(govTxId, sessionId)])
  {
  }

  function TextApproval(govTxId: string, sessionId: string): (v: Verdict)
    ensures ApprovalOk(v) && v.contextHash.None? && v.govTxId == govTxId && v.sessionId == sessionId
  {
    Verdict("v", govTxId, sessionId, true, Inbound, None, Clean, 0.0, "", "", 0, None, None)
  }

  lemma EmptyOk()
    ensures LedgerOk(EMPTY)
  {
  }

  /** Whatever the ids hold, a lookup finds an approved inbound verdict, and resolving it
      with the same pair finds that verdict or refuses it for its transaction: it is never
      missing, and the session is never the only difference. */
  lemma TxLookupGuardedByResolve(l: Ledger, govTxId: string, sessionId: string)
    requires LedgerOk(l) && Key(govTxId, sessionId) in l.approvedByTx
    ensures var id := l.approvedByTx[Key(govTxId, sessionId)];
            && id in l.verdicts && l.verdicts[id].finalApproved && l.verdicts[id].direction == Inbound
            && var answer := Resolve(l, id, govTxId, sessionId);
               answer == TxFound(l.verdicts[id]) || answer == TransactionMismatch(l.verdicts[id])
  {
    var key := Key(govTxId, sessionId);
    var id := l.approvedByTx[key];
    assert TxEntryOk(l, key, id);
    var v := l.verdicts[id];
    if v.govTxId == govTxId {
      assert sessionId == key[|govTxId| + 1..] == v.sessionId;
    }
  }

  /** Transaction `a|b` of session `c` and transaction `a` of session `b|c` share a key. */
  lemma TxKeysCollide(v: Verdict)
    requires v.govTxId == "a|b" && v.sessionId == "c" && v.finalApproved && v.direction == Inbound
    requires v.contextHash == None && v.runId == None
    ensures var l := RecordApproved(EMPTY, v);
            LedgerOk(l) && Lookup(l.approvedByTx, Key("a", "b|c")) == Some(v.verdictId)
  {
    ApprovalIsFound(EMPTY, v);
    assert Key("a", "b|c") == "a|b|c" == Key("a|b", "c");
  }
}
