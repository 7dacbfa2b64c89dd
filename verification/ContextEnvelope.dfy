/** `logos.model-context.v1`: validation, sealing and what the seal binds. */
module ContextEnvelope {
  import opened Wrappers
  import opened Text
  import opened KeyOrder
  import opened Json
  import opened JsonParser
  import opened EnvelopeErrors
  import JsonWriter

  // ---- limits ------------------------------------------------------------------

  const MODEL_CONTEXT_SCHEMA_VERSION := "logos.model-context.v1"
  const MAX_IDENTIFIER_BYTES := 256
  const MAX_POLICY_VERSION_BYTES := 128
  const MAX_CONTEXT_SEGMENTS := 4096
  const MAX_CONTEXT_SEGMENT_BYTES := 262144
  const MAX_CONTEXT_CONTENT_BYTES := 4194304
  const MAX_ATTACHMENTS := 128
  const MAX_MEDIA_TYPE_BYTES := 256
  const MAX_TOOL_NAME_BYTES := 128

  // ---- data --------------------------------------------------------------------

  datatype ContextRole = System | User | Assistant | ToolResult

  datatype ContextSource =
    | ExternalUser
    | ConversationHistory
    | ToolResult
    | Attachment
    | HookInjection
    | RuntimeInjection
    | CompactionSummary

  datatype ContextSegment = ContextSegment(
    ordinal: nat,
    role: ContextRole,
    source: ContextSource,
    content: string,
    toolName: Option<string>,
    attachmentId: Option<string>)

  datatype ContextAttachment = ContextAttachment(
    attachmentId: string,
    mediaType: string,
    byteLength: nat,
    sha256: string)

  datatype ModelContext = ModelContext(
    schemaVersion: string,
    sessionId: string,
    runId: string,
    principalId: string,
    providerId: string,
    modelId: string,
    policyVersion: string,
    policyHash: string,
    providerContextHash: string,
    systemPromptHash: string,
    toolSchemaHash: string,
    workspaceManifestHash: string,
    segments: seq<ContextSegment>,
    attachments: seq<ContextAttachment>,
    contextHash: string)

  // ---- field checks ------------------------------------------------------------

  function CheckIdentifier(field: ContractField, value: string, maxBytes: nat): Outcome<EnvelopeError> {
    if IsBlank(value) then Fail(MissingField(field))
    else if ByteLen(value) > maxBytes then Fail(LimitExceeded(field))
    else if exists c | c in value :: IsControl(c) then Fail(InvalidField(field))
    else Pass
  }

  predicate IsToolNameChar(c: char) {
    '0' <= c <= '9' || 'a' <= c <= 'z' || 'A' <= c <= 'Z' || c in "_-.:"
  }

  function CheckToolName(value: string): Outcome<EnvelopeError> {
    var first := CheckIdentifier(ToolName, value, MAX_TOOL_NAME_BYTES);
    :- first;
    Need(forall c | c in value :: IsToolNameChar(c), InvalidField(ToolName))
  }

  function CheckSha256(field: ContractField, value: string): Outcome<EnvelopeError> {
    Need(IsSha256Hex(value), InvalidDigest(field))
  }

  // ---- validation, in the order the code checks ----------------------------------

  function CheckContextFields(e: ModelContext): Outcome<EnvelopeError> {
    var first := Need(e.schemaVersion == MODEL_CONTEXT_SCHEMA_VERSION, InvalidField(SchemaVersion));
    :- first;
    :- CheckIdentifier(SessionId, e.sessionId, MAX_IDENTIFIER_BYTES);
    :- CheckIdentifier(RunId, e.runId, MAX_IDENTIFIER_BYTES);
    :- CheckIdentifier(PrincipalId, e.principalId, MAX_IDENTIFIER_BYTES);
    :- CheckIdentifier(ProviderId, e.providerId, MAX_IDENTIFIER_BYTES);
    :- CheckIdentifier(ModelId, e.modelId, MAX_IDENTIFIER_BYTES);
    :- CheckIdentifier(PolicyVersion, e.policyVersion, MAX_POLICY_VERSION_BYTES);
    :- CheckSha256(PolicyHash, e.policyHash);
    :- CheckSha256(ProviderContextHash, e.providerContextHash);
    :- CheckSha256(SystemPromptHash, e.systemPromptHash);
    :- CheckSha256(ToolSchemaHash, e.toolSchemaHash);
    :- CheckSha256(WorkspaceManifestHash, e.workspaceManifestHash);
    :- Need(e.segments != [], MissingField(Segments));
    :- Need(|e.segments| <= MAX_CONTEXT_SEGMENTS, LimitExceeded(Segments));
    Need(|e.attachments| <= MAX_ATTACHMENTS, LimitExceeded(Attachments))
  }

  function CheckAttachment(a: ContextAttachment): Outcome<EnvelopeError> {
    var first := CheckIdentifier(AttachmentId, a.attachmentId, MAX_IDENTIFIER_BYTES);
    :- first;
    :- CheckIdentifier(MediaType, a.mediaType, MAX_MEDIA_TYPE_BYTES);
    CheckSha256(AttachmentSha256, a.sha256)
  }

  function CheckSegmentContent(s: ContextSegment, attachmentIds: set<string>): Outcome<EnvelopeError> {
    var first := Need(!IsBlank(s.content) || s.source == ContextSource.Attachment,
            InvalidContextSegment(s.ordinal, ContentRequired));
    :- first;
    :- (match s.source
        case ExternalUser =>
          Need(s.role == ContextRole.User,
               InvalidContextSegment(s.ordinal, UserRoleRequired))
        case ToolResult =>
          if s.role != ContextRole.ToolResult then
            Fail(InvalidContextSegment(s.ordinal, ToolResultRoleRequired))
          else if s.toolName.None? then
            Fail(InvalidContextSegment(s.ordinal, ToolNameRequired))
          else
            Need(CheckToolName(s.toolName.value).Pass?, InvalidContextSegment(s.ordinal, ToolNameInvalid))
        case Attachment =>
          if s.attachmentId.None? then
            Fail(InvalidContextSegment(s.ordinal, AttachmentIdRequired))
          else
            Need(s.attachmentId.value in attachmentIds, UnknownAttachmentId(s.attachmentId.value))
        case _ => Pass);
    :- Need(s.source == ContextSource.ToolResult || s.toolName.None?,
            InvalidContextSegment(s.ordinal, ToolNameMisplaced));
    Need(s.source == ContextSource.Attachment || s.attachmentId.None?,
         InvalidContextSegment(s.ordinal, AttachmentIdMisplaced))
  }

  /** `total` bytes of content precede segment `index`. */
  function CheckSegment(s: ContextSegment, index: nat, total: nat, attachmentIds: set<string>): Outcome<EnvelopeError> {
    var first := Need(s.ordinal == index,
            InvalidContextSegment(s.ordinal, OrdinalNotPosition));
    :- first;
    :- Need(ByteLen(s.content) <= MAX_CONTEXT_SEGMENT_BYTES, LimitExceeded(SegmentContent));
    :- Need(total + ByteLen(s.content) <= MAX_CONTEXT_CONTENT_BYTES, LimitExceeded(ContextContent));
    CheckSegmentContent(s, attachmentIds)
  }

  // ---- what a well-formed context is -----------------------------------------------

  function AttachmentIds(attachments: seq<ContextAttachment>): set<string> {
    set a | a in attachments :: a.attachmentId
  }

  function ContentBytes(segments: seq<ContextSegment>): nat {
    if segments == [] then 0
    else ContentBytes(segments[..|segments| - 1]) + ByteLen(segments[|segments| - 1].content)
  }

  predicate AttachmentsOk(attachments: seq<ContextAttachment>) {
    && (forall a | a in attachments :: CheckAttachment(a).Pass?)
    && forall i, j | 0 <= i < j < |attachments| :: attachments[i].attachmentId != attachments[j].attachmentId
  }

  predicate SegmentOk(s: ContextSegment, position: nat, attachmentIds: set<string>) {
    && s.ordinal == position
    && ByteLen(s.content) <= MAX_CONTEXT_SEGMENT_BYTES
    && CheckSegmentContent(s, attachmentIds).Pass?
  }

  predicate SegmentsOk(segments: seq<ContextSegment>, attachmentIds: set<string>) {
    && (forall i | 0 <= i < |segments| :: SegmentOk(segments[i], i, attachmentIds))
    && ContentBytes(segments) <= MAX_CONTEXT_CONTENT_BYTES
  }

  /** Every condition the contract states, in no particular order. */
  predicate ContextWellFormed(e: ModelContext) {
    && CheckContextFields(e).Pass?
    && AttachmentsOk(e.attachments)
    && SegmentsOk(e.segments, AttachmentIds(e.attachments))
  }

  lemma ContentBytesGrow(segments: seq<ContextSegment>, i: nat)
    requires i <= |segments|
    ensures ContentBytes(segments[..i]) <= ContentBytes(segments)
    decreases |segments| - i
  {
    if i == |segments| {
      assert segments[..i] == segments;
    } else {
      ContentBytesStep(segments, i);
      ContentBytesGrow(segments, i + 1);
    }
  }

  lemma ContentBytesStep(segments: seq<ContextSegment>, i: nat)
    requires i < |segments|
    ensures ContentBytes(segments[..i + 1]) == ContentBytes(segments[..i]) + ByteLen(segments[i].content)
  {
    assert segments[..i + 1][..i] == segments[..i];
  }

  /** The attachments from `i` on, after those with the given ids. */
  function CheckAttachments(attachments: seq<ContextAttachment>, i: nat, ids: set<string>): Outcome<EnvelopeError>
    requires i <= |attachments|
    decreases |attachments| - i
  {
    if i == |attachments| then Pass
    else
      var id := attachments[i].attachmentId;
      :- CheckAttachment(attachments[i]);
      :- Need(id !in ids, DuplicateAttachmentId(id));
      CheckAttachments(attachments, i + 1, ids + {id})
  }

  /** The segments from `i` on, after `total` bytes of content. The code's check
      for overflow of the total can never fire: the total stays below 4 MiB. */
  function CheckSegments(segments: seq<ContextSegment>, i: nat, total: nat, ids: set<string>): Outcome<EnvelopeError>
    requires i <= |segments|
    decreases |segments| - i
  {
    if i == |segments| then Pass
    else
      :- CheckSegment(segments[i], i, total, ids);
      CheckSegments(segments, i + 1, total + ByteLen(segments[i].content), ids)
  }

  /** The first thing wrong with a context, in the order the code looks. */
  function CheckContext(e: ModelContext): Outcome<EnvelopeError> {
    var first := CheckContextFields(e);
    :- first;
    :- CheckAttachments(e.attachments, 0, {});
    CheckSegments(e.segments, 0, 0, AttachmentIds(e.attachments))
  }

  lemma {:induction false} AttachmentsPass(attachments: seq<ContextAttachment>, i: nat)
    requires i <= |attachments| && AttachmentsOk(attachments[..i])
    ensures CheckAttachments(attachments, i, AttachmentIds(attachments[..i])).Pass? <==> AttachmentsOk(attachments)
    decreases |attachments| - i
  {
    if i == |attachments| {
      assert attachments[..i] == attachments;
    } else {
      var a, ids := attachments[i], AttachmentIds(attachments[..i]);
      assert a in attachments;
      if a.attachmentId in ids {
        var j :| 0 <= j < i && attachments[j].attachmentId == a.attachmentId;
      } else if CheckAttachment(a).Pass? {
        AttachmentsExtend(attachments, i);
        AttachmentsPass(attachments, i + 1);
      }
    }
  }

  lemma SegmentsExtend(segments: seq<ContextSegment>, i: nat, ids: set<string>)
    requires i < |segments| && SegmentsOk(segments[..i], ids)
    ensures SegmentsOk(segments[..i + 1], ids) <==>
            CheckSegment(segments[i], i, ContentBytes(segments[..i]), ids).Pass?
    ensures SegmentsOk(segments, ids) ==> SegmentsOk(segments[..i + 1], ids)
    ensures ContentBytes(segments[..i + 1]) == ContentBytes(segments[..i]) + ByteLen(segments[i].content)
  {
    ContentBytesStep(segments, i);
    ContentBytesGrow(segments, i + 1);
    var before, after := segments[..i], segments[..i + 1];
    assert forall j | 0 <= j < i :: before[j] == after[j];
    assert after[i] == segments[i];
    assert CheckSegment(segments[i], i, ContentBytes(before), ids).Pass? <==>
           SegmentOk(segments[i], i, ids) && ContentBytes(after) <= MAX_CONTEXT_CONTENT_BYTES;
  }

  lemma {:induction false} SegmentsPass(segments: seq<ContextSegment>, i: nat, ids: set<string>)
    requires i <= |segments| && SegmentsOk(segments[..i], ids)
    ensures CheckSegments(segments, i, ContentBytes(segments[..i]), ids).Pass? <==> SegmentsOk(segments, ids)
    decreases |segments| - i
  {
    if i == |segments| {
      assert segments[..i] == segments;
    } else {
      SegmentsExtend(segments, i, ids);
      if SegmentsOk(segments[..i + 1], ids) {
        SegmentsPass(segments, i + 1, ids);
      }
    }
  }

  /** Validation accepts exactly the well-formed contexts. */
  lemma ValidationExact(e: ModelContext)
    ensures CheckContext(e).Pass? <==> ContextWellFormed(e)
  {
    assert e.attachments[..0] == [] && e.segments[..0] == [];
    assert AttachmentIds(e.attachments[..0]) == {};
    AttachmentsPass(e.attachments, 0);
    SegmentsPass(e.segments, 0, AttachmentIds(e.attachments));
  }

  /** `validate_material` */
  method ValidateContext(e: ModelContext) returns (r: Outcome<EnvelopeError>)
    ensures r == CheckContext(e)
  {
    var first := CheckContextFields(e);
    :- first;
    var ids;
    r, ids := ValidateAttachments(e.attachments);
    if r.Pass? {
      r := ValidateSegments(e.segments, ids);
    }
  }

  method ValidateAttachments(attachments: seq<ContextAttachment>) returns (r: Outcome<EnvelopeError>, ids: set<string>)
    ensures r == CheckAttachments(attachments, 0, {})
    ensures r.Pass? ==> ids == AttachmentIds(attachments)
  {
    ids := {};
    for i := 0 to |attachments|
      invariant ids == AttachmentIds(attachments[..i])
      invariant CheckAttachments(attachments, 0, {}) == CheckAttachments(attachments, i, ids)
    {
      var a := attachments[i];
      r := CheckAttachment(a);
      if r.Fail? {
        return;
      }
      if a.attachmentId in ids {
        r := Fail(DuplicateAttachmentId(a.attachmentId));
        return;
      }
      ids := ids + {a.attachmentId};
    }
    assert attachments[..|attachments|] == attachments;
    r := Pass;
  }

  method ValidateSegments(segments: seq<ContextSegment>, ids: set<string>) returns (r: Outcome<EnvelopeError>)
    ensures r == CheckSegments(segments, 0, 0, ids)
  {
    var total: nat := 0;
    for i := 0 to |segments|
      invariant CheckSegments(segments, 0, 0, ids) == CheckSegments(segments, i, total, ids)
    {
      r := CheckSegment(segments[i], i, total, ids);
      if r.Fail? {
        return;
      }
      total := total + ByteLen(segments[i].content);
    }
    r := Pass;
  }

  lemma AttachmentsExtend(attachments: seq<ContextAttachment>, i: nat)
    requires i < |attachments|
    requires AttachmentsOk(attachments[..i]) && CheckAttachment(attachments[i]).Pass?
    requires attachments[i].attachmentId !in AttachmentIds(attachments[..i])
    ensures AttachmentsOk(attachments[..i + 1])
    ensures AttachmentIds(attachments[..i + 1]) == AttachmentIds(attachments[..i]) + {attachments[i].attachmentId}
  {
    var before, after := attachments[..i], attachments[..i + 1];
    assert after == before + [attachments[i]];
    forall j | 0 <= j < i ensures before[j].attachmentId != attachments[i].attachmentId {
      assert before[j].attachmentId in AttachmentIds(before);
    }
  }

  // ---- hash material -----------------------------------------------------------------

  function RoleName(role: ContextRole): string {
    match role
    case System => "system"
    case User => "user"
    case Assistant => "assistant"
    case ToolResult => "tool_result"
  }

  function SourceName(source: ContextSource): string {
    match source
    case ExternalUser => "external_user"
    case ConversationHistory => "conversation_history"
    case ToolResult => "tool_result"
    case Attachment => "attachment"
    case HookInjection => "hook_injection"
    case RuntimeInjection => "runtime_injection"
    case CompactionSummary => "compaction_summary"
  }

  function OptionalField(key: string, value: Option<string>): seq<Field<Json>> {
    match value
    case Some(s) => [Field(key, String(s))]
    case None => []
  }

  function SegmentFields(s: ContextSegment): seq<Field<Json>> {
    [ Field("ordinal", Number(Decimal(s.ordinal))),
      Field("role", String(RoleName(s.role))),
      Field("source", String(SourceName(s.source))),
      Field("content", String(s.content))
    ] + OptionalField("tool_name", s.toolName) + OptionalField("attachment_id", s.attachmentId)
  }

  function SegmentMaterial(s: ContextSegment): Json {
    Object(SegmentFields(s))
  }

  function AttachmentMaterial(a: ContextAttachment): Json {
    Object([
      Field("attachment_id", String(a.attachmentId)),
      Field("media_type", String(a.mediaType)),
      Field("byte_length", Number(Decimal(a.byteLength))),
      Field("sha256", String(a.sha256))])
  }

  function ContextHeader(e: ModelContext): seq<Field<Json>> {
    [ Field("schema_version", String(e.schemaVersion)),
      Field("session_id", String(e.sessionId)),
      Field("run_id", String(e.runId)),
      Field("principal_id", String(e.principalId)),
      Field("provider_id", String(e.providerId)),
      Field("model_id", String(e.modelId)),
      Field("policy_version", String(e.policyVersion)),
      Field("policy_hash", String(e.policyHash)),
      Field("provider_context_hash", String(e.providerContextHash)),
      Field("system_prompt_hash", String(e.systemPromptHash)),
      Field("tool_schema_hash", String(e.toolSchemaHash)),
      Field("workspace_manifest_hash", String(e.workspaceManifestHash))
    ]
  }

  function SegmentMaterials(segments: seq<ContextSegment>): seq<Json> {
    seq(|segments|, i requires 0 <= i < |segments| => SegmentMaterial(segments[i]))
  }

  function AttachmentMaterials(attachments: seq<ContextAttachment>): seq<Json> {
    seq(|attachments|, i requires 0 <= i < |attachments| => AttachmentMaterial(attachments[i]))
  }

  function ContextFields(e: ModelContext): seq<Field<Json>> {
    ContextHeader(e) +
    [ Field("segments", Array(SegmentMaterials(e.segments))),
      Field("attachments", Array(AttachmentMaterials(e.attachments)))
    ]
  }

  function ContextMaterial(e: ModelContext): Json {
    Object(ContextFields(e))
  }

  // ---- sealing -----------------------------------------------------------------------

  function HashCanonical(sha: string -> Digest, value: Json): Result<Digest, EnvelopeError> {
    match JsonWriter.CanonicalJson(value)
    case Ok(text) => Ok(sha(text))
    case Err(error) => Err(error)
  }

  /** `ModelContextEnvelope::seal` */
  method Seal(sha: string -> Digest, e: ModelContext) returns (r: Result<ModelContext, EnvelopeError>)
    ensures r == SealContext(sha, e)
  {
    var valid := ValidateContext(e);
    if valid.Fail? {
      return Err(valid.error);
    }
    match HashCanonical(sha, ContextMaterial(e))
    case Ok(hash) => r := Ok(e.(contextHash := hash));
    case Err(error) => r := Err(error);
  }

  /** `ModelContextEnvelope::verify` */
  method Verify(sha: string -> Digest, e: ModelContext) returns (r: Outcome<EnvelopeError>)
    ensures r == VerifyContext(sha, e)
  {
    r := ValidateContext(e);
    if r.Fail? {
      return;
    }
    :- CheckSha256(ContextHash, e.contextHash);
    match HashCanonical(sha, ContextMaterial(e))
    case Ok(hash) => r := Need(hash == e.contextHash, HashMismatch(ContextHash));
    case Err(error) => r := Fail(error);
  }

  function SealContext(sha: string -> Digest, e: ModelContext): Result<ModelContext, EnvelopeError> {
    match CheckContext(e)
    case Fail(error) => Err(error)
    case Pass =>
      match HashCanonical(sha, ContextMaterial(e))
      case Ok(hash) => Ok(e.(contextHash := hash))
      case Err(error) => Err(error)
  }

  function VerifyContext(sha: string -> Digest, e: ModelContext): Outcome<EnvelopeError> {
    var first := CheckContext(e);
    :- first;
    :- CheckSha256(ContextHash, e.contextHash);
    match HashCanonical(sha, ContextMaterial(e))
    case Ok(hash) => Need(hash == e.contextHash, HashMismatch(ContextHash))
    case Err(error) => Fail(error)
  }

  lemma {:induction false} ShallowItems(items: seq<Json>, h: nat)
    requires forall i | 0 <= i < |items| :: Height(items[i]) <= h
    ensures ItemsHeight(items) <= 1 + h
  {
    if items != [] {
      ShallowItems(items[1..], h);
    }
  }

  lemma {:induction false} ShallowEntries(entries: seq<Field<Json>>, h: nat)
    requires forall i | 0 <= i < |entries| :: Height(entries[i].value) <= h
    ensures EntriesHeight(entries) <= 1 + h
  {
    if entries != [] {
      ShallowEntries(entries[1..], h);
    }
  }

  lemma HeaderFlat(e: ModelContext)
    ensures forall i | 0 <= i < |ContextHeader(e)| :: ContextHeader(e)[i].value.String?
  {
  }

  lemma SegmentShallow(s: ContextSegment)
    ensures Height(SegmentMaterial(s)) <= 1
  {
    ShallowEntries(SegmentFields(s), 0);
  }

  lemma AttachmentShallow(a: ContextAttachment)
    ensures Height(AttachmentMaterial(a)) <= 1
  {
    ShallowEntries(AttachmentMaterial(a).entries, 0);
  }

  /** Hash material of a context nests at most three levels, so the depth limit
      never refuses it. */
  lemma ContextMaterialShallow(e: ModelContext)
    ensures Height(ContextMaterial(e)) <= 3
  {
    forall s ensures Height(SegmentMaterial(s)) <= 1 { SegmentShallow(s); }
    forall a ensures Height(AttachmentMaterial(a)) <= 1 { AttachmentShallow(a); }
    ShallowItems(SegmentMaterials(e.segments), 1);
    ShallowItems(AttachmentMaterials(e.attachments), 1);
    HeaderFlat(e);
    ShallowEntries(ContextFields(e), 2);
  }
}
