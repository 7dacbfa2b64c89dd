/** Evidence events and checkpoints, and the texts that are hashed and signed for
    them: every text field in hexadecimal, every optional one behind a presence
    marker, joined with `|`. */
module EvidenceEncoding {
  import opened Wrappers
  import opened Text

  const EVIDENCE_SCHEMA_VERSION := "logos.govsec-evidence.v1"
  const CHECKPOINT_SCHEMA_VERSION := "logos.govsec-evidence-checkpoint.v1"

  datatype EventType =
    | ContextApproved
    | ContextRefused
    | ProviderAuthorized
    | ProviderRefused
    | ActionAuthorized
    | ActionRefused
    | CapabilityConsumed
    | CapabilityRejected
    | OutboundReleased
    | OutboundWithheld

  datatype Payload = Payload(
    govTxId: Option<string>,
    sessionId: Option<string>,
    runId: Option<string>,
    principalFingerprint: Option<string>,
    authority: Option<string>,
    contextHash: Option<string>,
    decisionId: Option<string>,
    capabilityId: Option<string>,
    actionHash: Option<string>,
    outboundHash: Option<string>,
    toolName: Option<string>,
    resourceKind: Option<string>,
    resourceLocatorHash: Option<string>,
    toolCallId: Option<string>,
    policyVersion: Option<string>,
    policyHash: Option<string>,
    outcome: string)

  /** Timestamps count nanoseconds from the Unix epoch. */
  datatype Event = Event(
    schemaVersion: string,
    epochId: string,
    epochParentHash: Option<string>,
    sequence: nat,
    eventId: string,
    timestamp: int,
    eventType: EventType,
    payload: Payload,
    previousEventHash: string,
    eventHash: string,
    signerFingerprint: string,
    signerPublicKey: string,
    signature: string)

  datatype Checkpoint = Checkpoint(
    schemaVersion: string,
    epochId: string,
    lastSequence: nat,
    headHash: string,
    signerFingerprint: string,
    signerPublicKey: string,
    createdAt: int,
    checkpointHash: string,
    signature: string)

  function EventTypeName(t: EventType): string {
    match t
    case ContextApproved => "CONTEXT_APPROVED"
    case ContextRefused => "CONTEXT_REFUSED"
    case ProviderAuthorized => "PROVIDER_AUTHORIZED"
    case ProviderRefused => "PROVIDER_REFUSED"
    case ActionAuthorized => "ACTION_AUTHORIZED"
    case ActionRefused => "ACTION_REFUSED"
    case CapabilityConsumed => "CAPABILITY_CONSUMED"
    case CapabilityRejected => "CAPABILITY_REJECTED"
    case OutboundReleased => "OUTBOUND_RELEASED"
    case OutboundWithheld => "OUTBOUND_WITHHELD"
  }

  // ---- field encodings -------------------------------------------------------------

  function Enc(value: string): (s: string)
    ensures PipeFree(s)
  {
    HexEncode(EncodeUtf8(value))
  }

  function EncOption(value: Option<string>): (s: string)
    ensures PipeFree(s)
  {
    match value
    case None => "0"
    case Some(text) => "1" + Enc(text)
  }

  function EncNumber(n: int): (s: string)
    ensures PipeFree(s)
  {
    DecimalInt(n)
  }

  const MIN_I64 := -0x8000_0000_0000_0000
  const MAX_I64 := 0x7FFF_FFFF_FFFF_FFFF

  /** The nanosecond count that is hashed: zero when it does not fit in 64 bits. */
  function HashedNanos(timestamp: int): int {
    if MIN_I64 <= timestamp <= MAX_I64 then timestamp else 0
  }

  lemma EncInjective(a: string, b: string)
    requires Enc(a) == Enc(b)
    ensures a == b
  {
    HexEncodeInjective(EncodeUtf8(a), EncodeUtf8(b));
    EncodeUtf8Injective(a, b);
  }

  /** An absent value and a present empty one are told apart. */
  lemma EncOptionInjective(a: Option<string>, b: Option<string>)
    requires EncOption(a) == EncOption(b)
    ensures a == b
  {
    hide Enc;
    assert EncOption(a)[0] == EncOption(b)[0];
    if a.Some? && b.Some? {
      assert Enc(a.value) == EncOption(a)[1..] == EncOption(b)[1..] == Enc(b.value);
      EncInjective(a.value, b.value);
    }
  }

  /** A length and two characters tell the ten names apart. */
  lemma EventTypeNameInjective(a: EventType, b: EventType)
    requires EventTypeName(a) == EventTypeName(b)
    ensures a == b
  {
    var s, t := EventTypeName(a), EventTypeName(b);
    assert |s| >= 12 ==> s[11] == t[11];
    assert s[0] == t[0] && s[1] == t[1] && s[9] == t[9];
  }

  lemma EventTypeNamePipeFree(t: EventType)
    ensures PipeFree(EventTypeName(t))
  {
  }

  // ---- the 27 fields of an event -----------------------------------------------------

  function HeaderFields(e: Event): (fields: seq<string>)
    ensures |fields| == 7
  {
    [Enc(e.schemaVersion), Enc(e.epochId), EncOption(e.epochParentHash), EncNumber(e.sequence), Enc(e.eventId),
     EncNumber(HashedNanos(e.timestamp)), EventTypeName(e.eventType)]
  }

  function CorrelationFields(p: Payload): (fields: seq<string>)
    ensures |fields| == 8
  {
    [EncOption(p.govTxId), EncOption(p.sessionId), EncOption(p.runId), EncOption(p.principalFingerprint),
     EncOption(p.authority), EncOption(p.contextHash), EncOption(p.decisionId), EncOption(p.capabilityId)]
  }

  function ActionFields(p: Payload): (fields: seq<string>)
    ensures |fields| == 9
  {
    [EncOption(p.actionHash), EncOption(p.outboundHash), EncOption(p.toolName), EncOption(p.resourceKind),
     EncOption(p.resourceLocatorHash), EncOption(p.toolCallId), EncOption(p.policyVersion), EncOption(p.policyHash),
     Enc(p.outcome)]
  }

  function LinkFields(e: Event): (fields: seq<string>)
    ensures |fields| == 3
  {
    [Enc(e.previousEventHash), Enc(e.signerFingerprint), Enc(e.signerPublicKey)]
  }

  function EventFields(e: Event): (fields: seq<string>)
    ensures |fields| == 27
  {
    HeaderFields(e) + CorrelationFields(e.payload) + ActionFields(e.payload) + LinkFields(e)
  }

  /** `canonical_event_material` */
  function EventMaterial(e: Event): string {
    JoinPipe(EventFields(e))
  }

  /** The part of an event its hash covers: everything but the hash and the signature,
      with the timestamp as it is hashed. */
  function Hashed(e: Event): Event {
    e.(timestamp := HashedNanos(e.timestamp), eventHash := "", signature := "")
  }

  lemma EventFieldsPipeFree(e: Event)
    ensures forall s | s in EventFields(e) :: PipeFree(s)
  {
    hide Enc, EncOption, EncNumber, EventTypeName, PipeFree;
    EventTypeNamePipeFree(e.eventType);
  }

  lemma HeaderBinds(a: Event, b: Event)
    requires HeaderFields(a) == HeaderFields(b)
    ensures a.schemaVersion == b.schemaVersion && a.epochId == b.epochId && a.epochParentHash == b.epochParentHash
    ensures a.sequence == b.sequence && a.eventId == b.eventId && a.eventType == b.eventType
    ensures HashedNanos(a.timestamp) == HashedNanos(b.timestamp)
  {
    hide Enc, EncOption, EncNumber, EventTypeName, HashedNanos;
    var f, g := HeaderFields(a), HeaderFields(b);
    assert forall i | 0 <= i < 7 :: f[i] == g[i];
    EncInjective(a.schemaVersion, b.schemaVersion);
    EncInjective(a.epochId, b.epochId);
    EncOptionInjective(a.epochParentHash, b.epochParentHash);
    EncNumberInjective(a.sequence, b.sequence);
    EncInjective(a.eventId, b.eventId);
    EncNumberInjective(HashedNanos(a.timestamp), HashedNanos(b.timestamp));
    EventTypeNameInjective(a.eventType, b.eventType);
  }

  lemma EncNumberInjective(a: int, b: int)
    requires EncNumber(a) == EncNumber(b)
    ensures a == b
  {
    DecimalIntInjective(a, b);
  }

  lemma CorrelationBinds(a: Payload, b: Payload)
    requires CorrelationFields(a) == CorrelationFields(b)
    ensures a.govTxId == b.govTxId && a.sessionId == b.sessionId && a.runId == b.runId
    ensures a.principalFingerprint == b.principalFingerprint && a.authority == b.authority
    ensures a.contextHash == b.contextHash && a.decisionId == b.decisionId && a.capabilityId == b.capabilityId
  {
    hide EncOption;
    var f, g := CorrelationFields(a), CorrelationFields(b);
    assert forall i | 0 <= i < 8 :: f[i] == g[i];
    EncOptionInjective(a.govTxId, b.govTxId);
    EncOptionInjective(a.sessionId, b.sessionId);
    EncOptionInjective(a.runId, b.runId);
    EncOptionInjective(a.principalFingerprint, b.principalFingerprint);
    EncOptionInjective(a.authority, b.authority);
    EncOptionInjective(a.contextHash, b.contextHash);
    EncOptionInjective(a.decisionId, b.decisionId);
    EncOptionInjective(a.capabilityId, b.capabilityId);
  }

  lemma ActionFieldsBind(a: Payload, b: Payload)
    requires ActionFields(a) == ActionFields(b)
    ensures a.actionHash == b.actionHash && a.outboundHash == b.outboundHash && a.toolName == b.toolName
    ensures a.resourceKind == b.resourceKind && a.resourceLocatorHash == b.resourceLocatorHash
    ensures a.toolCallId == b.toolCallId && a.policyVersion == b.policyVersion && a.policyHash == b.policyHash
    ensures a.outcome == b.outcome
  {
    hide EncOption, Enc;
    var f, g := ActionFields(a), ActionFields(b);
    assert forall i | 0 <= i < 9 :: f[i] == g[i];
    EncOptionInjective(a.actionHash, b.actionHash);
    EncOptionInjective(a.outboundHash, b.outboundHash);
    EncOptionInjective(a.toolName, b.toolName);
    EncOptionInjective(a.resourceKind, b.resourceKind);
    EncOptionInjective(a.resourceLocatorHash, b.resourceLocatorHash);
    EncOptionInjective(a.toolCallId, b.toolCallId);
    EncOptionInjective(a.policyVersion, b.policyVersion);
    EncOptionInjective(a.policyHash, b.policyHash);
    EncInjective(a.outcome, b.outcome);
  }

  lemma LinkBinds(a: Event, b: Event)
    requires LinkFields(a) == LinkFields(b)
    ensures a.previousEventHash == b.previousEventHash
    ensures a.signerFingerprint == b.signerFingerprint && a.signerPublicKey == b.signerPublicKey
  {
    hide Enc;
    var f, g := LinkFields(a), LinkFields(b);
    assert forall i | 0 <= i < 3 :: f[i] == g[i];
    EncInjective(a.previousEventHash, b.previousEventHash);
    EncInjective(a.signerFingerprint, b.signerFingerprint);
    EncInjective(a.signerPublicKey, b.signerPublicKey);
  }

  /** The hashed text and the hashed part of an event determine each other, whatever
      characters the fields hold. */
  lemma EventTextBinds(a: Event, b: Event)
    ensures EventMaterial(a) == EventMaterial(b) <==> Hashed(a) == Hashed(b)
  {
    if EventMaterial(a) == EventMaterial(b) {
      MaterialDeterminesHashed(a, b);
    }
    if Hashed(a) == Hashed(b) {
      HashedDeterminesMaterial(a);
      HashedDeterminesMaterial(b);
    }
  }

  lemma HashedDeterminesMaterial(e: Event)
    ensures EventMaterial(e) == EventMaterial(Hashed(e))
  {
    hide Enc, EncOption, EncNumber, EventTypeName, JoinPipe;
    assert EventFields(e) == EventFields(Hashed(e));
  }

  lemma MaterialDeterminesHashed(a: Event, b: Event)
    requires EventMaterial(a) == EventMaterial(b)
    ensures Hashed(a) == Hashed(b)
  {
    hide HeaderFields, CorrelationFields, ActionFields, LinkFields, HashedNanos, JoinPipe, PipeFree;
    EventFieldsPipeFree(a);
    EventFieldsPipeFree(b);
    var f, g := EventFields(a), EventFields(b);
    JoinPipeInjective(f, g);
    assert HeaderFields(a) == f[..7] && HeaderFields(b) == g[..7];
    assert CorrelationFields(a.payload) == f[7..15] && CorrelationFields(b.payload) == g[7..15];
    assert ActionFields(a.payload) == f[15..24] && ActionFields(b.payload) == g[15..24];
    assert LinkFields(a) == f[24..] && LinkFields(b) == g[24..];
    HeaderBinds(a, b);
    CorrelationBinds(a.payload, b.payload);
    ActionFieldsBind(a.payload, b.payload);
    LinkBinds(a, b);
  }

  /** The hash covers the exact timestamp only inside the 64-bit range: outside it two
      different instants hash alike. */
  lemma TimestampBound(a: Event, timestamp: int)
    ensures EventMaterial(a) == EventMaterial(a.(timestamp := timestamp)) <==>
            HashedNanos(a.timestamp) == HashedNanos(timestamp)
    ensures MIN_I64 <= a.timestamp <= MAX_I64 && MIN_I64 <= timestamp <= MAX_I64 ==>
              (EventMaterial(a) == EventMaterial(a.(timestamp := timestamp)) <==> a.timestamp == timestamp)
  {
    hide EventMaterial;
    EventTextBinds(a, a.(timestamp := timestamp));
  }

  lemma FarTimestampsHashAlike(e: Event)
    ensures var far := e.(timestamp := MAX_I64 + 1);
            far != far.(timestamp := MAX_I64 + 2) && EventMaterial(far) == EventMaterial(far.(timestamp := MAX_I64 + 2))
  {
    TimestampBound(e.(timestamp := MAX_I64 + 1), MAX_I64 + 2);
  }

  // ---- checkpoints ---------------------------------------------------------------------

  function CheckpointFields(c: Checkpoint): (fields: seq<string>)
    ensures |fields| == 7
  {
    [Enc(c.schemaVersion), Enc(c.epochId), EncNumber(c.lastSequence), Enc(c.headHash), Enc(c.signerFingerprint),
     Enc(c.signerPublicKey), EncNumber(HashedNanos(c.createdAt))]
  }

  /** `canonical_checkpoint_material` */
  function CheckpointMaterial(c: Checkpoint): string {
    JoinPipe(CheckpointFields(c))
  }

  function HashedCheckpoint(c: Checkpoint): Checkpoint {
    c.(createdAt := HashedNanos(c.createdAt), checkpointHash := "", signature := "")
  }

  lemma CheckpointFieldsPipeFree(c: Checkpoint)
    ensures forall s | s in CheckpointFields(c) :: PipeFree(s)
  {
    hide Enc, EncNumber, PipeFree;
  }

  lemma CheckpointTextBinds(a: Checkpoint, b: Checkpoint)
    ensures CheckpointMaterial(a) == CheckpointMaterial(b) <==> HashedCheckpoint(a) == HashedCheckpoint(b)
  {
    hide Enc, EncNumber, PipeFree, JoinPipe;
    var f, g := CheckpointFields(a), CheckpointFields(b);
    if JoinPipe(f) == JoinPipe(g) {
      CheckpointFieldsPipeFree(a);
      CheckpointFieldsPipeFree(b);
      JoinPipeInjective(f, g);
      assert forall i | 0 <= i < 7 :: f[i] == g[i];
      EncInjective(a.schemaVersion, b.schemaVersion);
      EncInjective(a.epochId, b.epochId);
      EncNumberInjective(a.lastSequence, b.lastSequence);
      EncInjective(a.headHash, b.headHash);
      EncInjective(a.signerFingerprint, b.signerFingerprint);
      EncInjective(a.signerPublicKey, b.signerPublicKey);
      EncNumberInjective(HashedNanos(a.createdAt), HashedNanos(b.createdAt));
    }
    if HashedCheckpoint(a) == HashedCheckpoint(b) {
      assert f == CheckpointFields(HashedCheckpoint(a)) && g == CheckpointFields(HashedCheckpoint(b));
    }
  }
}
