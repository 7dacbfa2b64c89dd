/** The evidence-recording outbound boundary: correlation fields enter signed evidence
    only from the ledger's own record, never from what the caller presented. */
module GovernedEvidence {
  import opened Wrappers
  import opened Text
  import opened Crypto
  import opened VerdictLedger
  import opened AuthorizationPaths
  import Evidence = EvidenceEncoding
  import Plane = EvidencePlane
  import Enforcement = EnforcementPipeline

  function OutcomeName(e: Enforcement.Enforcement): string {
    match e
    case Approved => "APPROVED"
    case Restricted => "RESTRICTED"
    case Quarantined(_) => "QUARANTINED"
    case HardLocked(_) => "HARD_LOCKED"
    case HaapGated(_) => "HAAP_GATED"
  }

  function BindingErrorName(e: BindingError): string {
    match e
    case MalformedContextHash => "MalformedContextHash"
    case ApprovedVerdictMissing => "ApprovedVerdictMissing"
    case VerdictNotFound => "VerdictNotFound"
    case VerdictSessionMismatch => "VerdictSessionMismatch"
    case VerdictNotFinalApproved => "VerdictNotFinalApproved"
    case VerdictWrongDirection => "VerdictWrongDirection"
    case ContextHashMismatch => "ContextHashMismatch"
    case RunIdMismatch => "RunIdMismatch"
  }

  const BLANK := Evidence.Payload(None, None, None, None, None, None, None, None, None, None, None, None, None, None,
                                  None, None, "")

  /** What a released or withheld reply is recorded with. */
  function CorrelatedPayload(v: Verdict, outboundHash: string, policyVersion: string, outcome: string)
      : Evidence.Payload
  {
    BLANK.(govTxId := Some(v.govTxId), sessionId := Some(v.sessionId), runId := v.runId, contextHash := v.contextHash,
           outboundHash := Some(outboundHash), policyVersion := Some(policyVersion), outcome := outcome)
  }

  function RejectedPayload(error: BindingError, outboundHash: string): Evidence.Payload {
    BLANK.(outboundHash := Some(outboundHash), outcome := "CORRELATION_REJECTED::" + BindingErrorName(error))
  }

  function EventTypeFor(e: Enforcement.Enforcement): Evidence.EventType {
    if e == Enforcement.Approved then Evidence.OutboundReleased else Evidence.OutboundWithheld
  }

  /** The one event a call records, and the pipeline's state after it. `replies` gives the
      layers' signals for the session the reply is sent in. */
  datatype Effect = Effect(
    pipeline: Enforcement.State,
    result: Result<Enforcement.Enforcement, BindingError>,
    eventType: Evidence.EventType,
    payload: Evidence.Payload)

  function EffectOf(l: Ledger, w: Enforcement.Setup, st: Enforcement.State, replies: string -> Enforcement.Reply,
                   outboundHash: string, policyVersion: string, contextHash: string, sessionId: string, runId: string)
      : Effect
  {
    match ResolveBinding(l, contextHash, sessionId, runId)
    case Err(error) =>
      Effect(st, Err(error), Evidence.OutboundWithheld, RejectedPayload(error, outboundHash))
    case Ok(v) =>
      var (after, result) := Enforcement.AfterOutbound(w, st, replies(v.sessionId));
      Effect(after, Ok(result), EventTypeFor(result),
             CorrelatedPayload(v, outboundHash, policyVersion, OutcomeName(result)))
  }

  class EvidenceGovernedPipeline {
    const gatekeeper: Gatekeeper
    const pipeline: Enforcement.Pipeline
    const evidence: Plane.Plane
    const policyVersion: string

    constructor (gatekeeper: Gatekeeper, pipeline: Enforcement.Pipeline, evidence: Plane.Plane, policyVersion: string)
      ensures this.gatekeeper == gatekeeper && this.pipeline == pipeline && this.evidence == evidence
      ensures this.policyVersion == policyVersion
    {
      this.gatekeeper, this.pipeline := gatekeeper, pipeline;
      this.evidence, this.policyVersion := evidence, policyVersion;
    }

    /** `outbound_with_evidence` */
    method OutboundWithEvidence(output: string, replies: string -> Enforcement.Reply, contextHash: string,
                                sessionId: string, runId: string, eventId: string, now: int)
        returns (r: Result<Enforcement.Enforcement, BindingError>, receipt: Plane.Receipt)
      modifies pipeline.arbiter, evidence, if evidence.sink == null then {} else {evidence.sink}
      ensures var effect := EffectOf(gatekeeper.ledger.View(), old(pipeline.TheSetup()), old(pipeline.View()), replies,
                                    evidence.p.sha(output), policyVersion, contextHash, sessionId, runId);
              && r == effect.result
              && pipeline.View() == effect.pipeline
              && evidence.View() ==
                 Plane.AfterAppend(evidence.TheSetup(), old(evidence.View()),
                                   Plane.NextEvent(evidence.TheSetup(), old(evidence.View()), eventId, now,
                                                   effect.eventType, effect.payload))
    {
      hide ResolveBinding, Enforcement.AfterOutbound, Plane.AfterAppend, Plane.NextEvent, CorrelatedPayload,
           RejectedPayload, OutcomeName, BindingErrorName, Plane.OfferStatus;
      var outboundHash := evidence.p.sha(output);
      var record := gatekeeper.ResolveContextBinding(contextHash, sessionId, runId);
      if record.Err? {
        receipt := evidence.Append(Evidence.OutboundWithheld, RejectedPayload(record.error, outboundHash), eventId,
                                   now);
        return Err(record.error), receipt;
      }
      var result := pipeline.Outbound(replies(record.value.sessionId));
      receipt := evidence.Append(EventTypeFor(result),
                                 CorrelatedPayload(record.value, outboundHash, policyVersion, OutcomeName(result)),
                                 eventId, now);
      r := Ok(result);
    }
  }

  /** A reply is recorded as released exactly when it was approved for a resolved binding;
      the correlation fields are those of the approved verdict, which are the presented
      ones, together with the verdict's own transaction; and a reply whose binding does
      not resolve is recorded without any. */
  lemma EvidenceIsLedgerOwned(l: Ledger, w: Enforcement.Setup, st: Enforcement.State,
                              replies: string -> Enforcement.Reply, outboundHash: string, policyVersion: string,
                              contextHash: string, sessionId: string, runId: string)
    requires LedgerOk(l)
    ensures var effect := EffectOf(l, w, st, replies, outboundHash, policyVersion, contextHash, sessionId, runId);
            && (effect.eventType == Evidence.OutboundReleased <==> effect.result == Ok(Enforcement.Approved))
            && (effect.eventType == Evidence.OutboundReleased || effect.eventType == Evidence.OutboundWithheld)
            && effect.payload.outboundHash == Some(outboundHash)
            && (effect.result.Ok? ==>
                  && effect.payload.contextHash == Some(contextHash) && effect.payload.sessionId == Some(sessionId)
                  && effect.payload.runId == Some(runId)
                  && exists id | id in l.verdicts ::
                       l.verdicts[id].finalApproved && effect.payload.govTxId == Some(l.verdicts[id].govTxId)
                       && l.verdicts[id].contextHash == Some(contextHash) && l.verdicts[id].sessionId == sessionId)
            && (effect.result.Err? ==>
                  && effect.pipeline == st && Reachable(effect.result.error)
                  && effect.payload.contextHash == None && effect.payload.sessionId == None
                  && effect.payload.runId == None && effect.payload.govTxId == None)
  {
    hide LedgerOk, Enforcement.AfterOutbound, OutcomeName, BindingErrorName, IsSha256Hex, Key;
    BindingSound(l, contextHash, sessionId, runId);
    var r := ResolveBinding(l, contextHash, sessionId, runId);
    if r.Ok? {
      var id := Lookup(l.approvedByContext, Key(contextHash, sessionId)).value;
      assert id in l.verdicts && l.verdicts[id] == r.value;
    }
  }
}
